/** Whether everything that emitted code reads has been written, told from the source.

    The code makes no such check.  It matters for names declared in the arm of an `if`, and
    for the name of a `for` loop: they stay in scope, but code on another path reads them too. */
module Reading {
  import opened Basics
  import opened RegionTypes
  import opened Lang
  import Definite

  /** The operand of an expression is written once its code has run.  Only the name of a value
      that has no register yet is an operand without code. */
  predicate OperandDefined(ts: seq<Tag>, ok: seq<bool>, e: Expr) {
    e.Get? ==> var i := Find(ts, e.x); i.Some? && i.value < |ok| && !ts[i.value].isVar ==> ok[i.value]
  }

  /** What the code of an expression reads is written; `ok` marks the names that are. */
  predicate ExprDefined(ts: seq<Tag>, ok: seq<bool>, e: Expr)
    decreases e, 0
  {
    match e
    case Get(x) => var i := Find(ts, x); i.Some? && i.value < |ok| && ts[i.value].isVar ==> ok[i.value]
    case Bin(_, a, b) => ValueDefined(ts, ok, a) && ValueDefined(ts, ok, b)
    case Lit(es) => forall a :: a in es ==> ValueDefined(ts, ok, a)
    case Fill(a, b) => ValueDefined(ts, ok, a) && ValueDefined(ts, ok, b)
    case Elem(a, b) => ValueDefined(ts, ok, a) && ValueDefined(ts, ok, b)
    case Length(a) => ValueDefined(ts, ok, a)
    case Field(a, _) => ValueDefined(ts, ok, a)
    case Call(_, _, args) => forall a :: a in args ==> ValueDefined(ts, ok, a)
    case _ => true
  }

  /** An expression whose operand is used. */
  predicate ValueDefined(ts: seq<Tag>, ok: seq<bool>, e: Expr)
    decreases e, 1
  {
    ExprDefined(ts, ok, e) && OperandDefined(ts, ok, e)
  }

  /** The target has an address to store to. */
  predicate HasPlace(ts: seq<Tag>, t: Expr) {
    match t
    case Get(x) => var i := Find(ts, x); i.Some? && ts[i.value].isVar
    case Elem(_, _) => true
    case Field(_, _) => true
    case _ => false
  }

  /** An operand that was written before its expression's code, and is not part of it. */
  predicate OperandLasts(ts: seq<Tag>, ok: seq<bool>, e: Expr) {
    match e
    case Num(_) => true
    case Get(x) => var i := Find(ts, x); i.Some? && i.value < |ok| ==> !ts[i.value].isVar && ok[i.value]
    case _ => false
  }

  /** Which of the names a statement declares are written before it: other names for values
      that are, and for constants. */
  function Lasting(ts: seq<Tag>, ok: seq<bool>, d: nat, s: Stmt): (r: seq<bool>)
    ensures |r| == |Declared(s, d)|
    decreases s
  {
    match s
    case Seq(a, b) =>
      var ms := Lasting(ts, ok, d, a);
      ms + Lasting(ts + Declared(a, d), ok + ms, d, b)
    case Var(_, _) => [false]
    case Let(_, e) => [OperandLasts(ts, ok, e)]
    case If(_, a, b) =>
      var ms := Lasting(ts, ok, d, a);
      ms + Lasting(ts + Declared(a, d), ok + ms, d, b)
    case For(_, _, _, _) => [false]
    case _ => []
  }

  /** Which of the names a statement declares are written whenever it ends. */
  function Marks(ts: seq<Tag>, ok: seq<bool>, d: nat, s: Stmt): (r: seq<bool>)
    ensures |r| == |Declared(s, d)|
    decreases s
  {
    match s
    case Seq(a, b) =>
      var ms := Marks(ts, ok, d, a);
      ms + Marks(ts + Declared(a, d), ok + ms, d, b)
    case Var(_, _) => [true]
    case Let(_, e) => [OperandDefined(ts, ok, e)]
    case If(_, _, _) => Lasting(ts, ok, d, s)
    case For(_, _, _, _) => [false]
    case _ => []
  }

  /** Everything the code of a statement reads is written. */
  predicate StmtDefined(ts: seq<Tag>, ok: seq<bool>, d: nat, s: Stmt)
    decreases s
  {
    match s
    case Skip => true
    case Seq(a, b) =>
      StmtDefined(ts, ok, d, a) && StmtDefined(ts + Declared(a, d), ok + Marks(ts, ok, d, a), d, b)
    case Var(_, e) => ValueDefined(ts, ok, e)
    case Let(_, e) => ExprDefined(ts, ok, e)
    case Assign(t, e) =>
      if HasPlace(ts, t) then ExprDefined(ts, ok, t) && ValueDefined(ts, ok, e) else ExprDefined(ts, ok, e)
    case Do(e) => ExprDefined(ts, ok, e)
    case If(c, a, b) =>
      && ValueDefined(ts, ok, c) && StmtDefined(ts, ok, d, a)
      && StmtDefined(ts + Declared(a, d), ok + Lasting(ts, ok, d, a), d, b)
    case While(c, body) => ValueDefined(ts, ok, c) && StmtDefined(ts, ok, d + 1, body)
    case For(x, lo, hi, body) =>
      && ValueDefined(ts, ok, lo) && ValueDefined(ts, ok, hi)
      && StmtDefined(ts + [Tag(x, false, d)], ok + [true], d + 1, body)
    case On(_, body) => StmtDefined(ts, ok, d + 1, body)
  }

  predicate FnDefined(fn: Fn) {
    var ts, ok := ParamTags(fn.params), Definite.AllSure(|fn.params|);
    && StmtDefined(ts, ok, 0, fn.body)
    && (fn.result.Some? ==> ValueDefined(ts + Declared(fn.body, 0), ok + Marks(ts, ok, 0, fn.body), fn.result.value))
  }

  // ---------- The stricter check on values ----------

  predicate Stronger(ok: seq<bool>, more: seq<bool>) {
    |ok| == |more| && forall i :: 0 <= i < |ok| && ok[i] ==> more[i]
  }

  lemma {:induction false} SureExpr(ts: seq<Tag>, ok: seq<bool>, more: seq<bool>, e: Expr)
    requires Stronger(ok, more) && Definite.Sure(ts, ok, e)
    ensures ValueDefined(ts, more, e)
  {
    match e
    case Bin(_, a, b) => SureExpr(ts, ok, more, a); SureExpr(ts, ok, more, b);
    case Lit(es) => forall a | a in es ensures ValueDefined(ts, more, a) { SureExpr(ts, ok, more, a); }
    case Fill(a, b) => SureExpr(ts, ok, more, a); SureExpr(ts, ok, more, b);
    case Elem(a, b) => SureExpr(ts, ok, more, a); SureExpr(ts, ok, more, b);
    case Length(a) => SureExpr(ts, ok, more, a);
    case Field(a, _) => SureExpr(ts, ok, more, a);
    case Call(_, _, args) => forall a | a in args ensures ValueDefined(ts, more, a) { SureExpr(ts, ok, more, a); }
    case _ =>
  }

  /** A statement that never reads a variable without a value has code that never reads what
      is not written. */
  lemma {:induction false} SureIsDefined(ts: seq<Tag>, ok: seq<bool>, more: seq<bool>, d: nat, s: Stmt)
    requires Stronger(ok, more) && Definite.StmtSure(ts, ok, d, s)
    ensures StmtDefined(ts, more, d, s) && Stronger(Definite.Marks(s, d), Marks(ts, more, d, s))
    decreases s
  {
    hide Find, OperandLasts, Declared, ExprDefined, ValueDefined, Definite.Sure;
    match s
    case Skip =>
    case Seq(a, b) =>
      SureIsDefined(ts, ok, more, d, a);
      SureIsDefined(ts + Declared(a, d), ok + Definite.Marks(a, d), more + Marks(ts, more, d, a), d, b);
    case Var(_, e) => SureExpr(ts, ok, more, e);
    case Let(_, e) => SureExpr(ts, ok, more, e);
    case Assign(t, e) => SureExpr(ts, ok, more, t); SureExpr(ts, ok, more, e);
    case Do(e) => SureExpr(ts, ok, more, e);
    case If(c, a, b) =>
      SureExpr(ts, ok, more, c);
      SureIsDefined(ts, ok, more, d, a);
      SureIsDefined(ts + Declared(a, d), ok + Definite.Unsure(|Declared(a, d)|), more + Lasting(ts, more, d, a), d, b);
    case While(c, body) => SureExpr(ts, ok, more, c); SureIsDefined(ts, ok, more, d + 1, body);
    case For(x, lo, hi, body) =>
      SureExpr(ts, ok, more, lo);
      SureExpr(ts, ok, more, hi);
      SureIsDefined(ts + [Tag(x, false, d)], ok + [true], more + [true], d + 1, body);
    case On(_, body) => SureIsDefined(ts, ok, more, d + 1, body);
  }

  lemma SureFnIsDefined(fn: Fn)
    requires Definite.FnSure(fn)
    ensures FnDefined(fn)
  {
    var ts, ok := ParamTags(fn.params), Definite.AllSure(|fn.params|);
    SureIsDefined(ts, ok, ok, 0, fn.body);
    if fn.result.Some? {
      SureExpr(ts + Declared(fn.body, 0), ok + Definite.Marks(fn.body, 0), ok + Marks(ts, ok, 0, fn.body), fn.result.value);
    }
  }
}
