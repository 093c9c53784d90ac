/** A check on programs that rules out reads of variables whose declarations were not executed.

    The code makes no such check: names declared in the arm of an `if`, and the name of a `for`
    loop, stay in scope after it whether or not they were given a value. */
module Definite {
  import opened Basics
  import opened RegionTypes
  import opened Lang
  import opened Memory
  import opened Interp
  import RegionSafety
  import Checker

  // ---------- The check ----------

  /** The names an expression reads are marked. */
  predicate Sure(ts: seq<Tag>, ok: seq<bool>, e: Expr) {
    match e
    case Num(_) => true
    case Get(x) => var i := Find(ts, x); i.Some? && i.value < |ok| && ok[i.value]
    case Bin(_, a, b) => Sure(ts, ok, a) && Sure(ts, ok, b)
    case Lit(es) => forall a :: a in es ==> Sure(ts, ok, a)
    case Fill(a, b) => Sure(ts, ok, a) && Sure(ts, ok, b)
    case Elem(a, b) => Sure(ts, ok, a) && Sure(ts, ok, b)
    case Length(a) => Sure(ts, ok, a)
    case Field(a, _) => Sure(ts, ok, a)
    case New(_, _) => true
    case Call(_, _, args) => forall a :: a in args ==> Sure(ts, ok, a)
  }

  /** Which of the names a statement declares are declared whenever it ends: not those in the
      arms of an `if`, nor the name of a `for` loop. */
  function Marks(s: Stmt, d: nat): (r: seq<bool>)
    ensures |r| == |Declared(s, d)|
  {
    match s
    case Seq(a, b) => Marks(a, d) + Marks(b, d)
    case Var(_, _) => [true]
    case Let(_, _) => [true]
    case If(_, a, b) => seq(|Declared(s, d)|, _ => false)
    case For(_, _, _, _) => [false]
    case _ => []
  }

  /** Every name is surely declared where a statement reads it. */
  predicate StmtSure(ts: seq<Tag>, ok: seq<bool>, d: nat, s: Stmt)
    decreases s
  {
    match s
    case Skip => true
    case Seq(a, b) => StmtSure(ts, ok, d, a) && StmtSure(ts + Declared(a, d), ok + Marks(a, d), d, b)
    case Var(_, e) => Sure(ts, ok, e)
    case Let(_, e) => Sure(ts, ok, e)
    case Assign(t, e) => Sure(ts, ok, t) && Sure(ts, ok, e)
    case Do(e) => Sure(ts, ok, e)
    case If(c, a, b) =>
      && Sure(ts, ok, c) && StmtSure(ts, ok, d, a)
      && StmtSure(ts + Declared(a, d), ok + Unsure(|Declared(a, d)|), d, b)
    case While(c, body) => Sure(ts, ok, c) && StmtSure(ts, ok, d + 1, body)
    case For(x, lo, hi, body) =>
      Sure(ts, ok, lo) && Sure(ts, ok, hi) && StmtSure(ts + [Tag(x, false, d)], ok + [true], d + 1, body)
    case On(_, body) => StmtSure(ts, ok, d + 1, body)
  }

  function Unsure(n: nat): (r: seq<bool>)
    ensures |r| == n && forall i :: 0 <= i < n ==> !r[i]
  {
    seq(n, _ => false)
  }

  function AllSure(n: nat): (r: seq<bool>)
    ensures |r| == n && forall i :: 0 <= i < n ==> r[i]
  {
    seq(n, _ => true)
  }

  predicate FnSure(fn: Fn) {
    && StmtSure(ParamTags(fn.params), AllSure(|fn.params|), 0, fn.body)
    && (fn.result.Some? ==>
          Sure(ParamTags(fn.params) + Declared(fn.body, 0), AllSure(|fn.params|) + Marks(fn.body, 0), fn.result.value))
  }

  /** The functions that function `k` can call are checked. */
  ghost predicate FnsSure(p: Program, k: nat)
    requires k <= |p.fns|
  {
    forall j :: 0 <= j < k ==> FnSure(p.fns[j])
  }

  // ---------- What it keeps ----------

  /** No array holds an undefined value. */
  ghost predicate Whole(m: Mem) {
    forall l :: l in m.heap && m.heap[l].ArrO? ==> Undef !in m.heap[l].cells
  }

  /** The marked variables have values. */
  ghost predicate Given(vals: seq<Value>, ok: seq<bool>) {
    |vals| == |ok| && forall i :: 0 <= i < |ok| && ok[i] ==> vals[i] != Undef
  }

  ghost predicate Known(r: Res<Value>) {
    r != Fail(Uninit) && (r.Ok? ==> r.value != Undef && Whole(r.mem))
  }

  ghost predicate ListKnown(r: Res<seq<Value>>) {
    r != Fail(Uninit) && (r.Ok? ==> Undef !in r.value && Whole(r.mem))
  }

  ghost predicate ScopeKnown(r: Res<seq<Value>>, ok: seq<bool>) {
    r != Fail(Uninit) && (r.Ok? ==> Given(r.value, ok) && Whole(r.mem))
  }

  ghost predicate Start(p: Program, k: nat, env: Env, ok: seq<bool>, m: Mem) {
    k <= |p.fns| && EnvShape(env) && FnsSure(p, k) && Given(env.vals, ok) && Whole(m)
  }

  lemma AllocWhole(m: Mem, obj: Obj)
    requires Whole(m) && (obj.ArrO? ==> Undef !in obj.cells)
    ensures Known(Alloc(m, obj))
  {
  }

  lemma FillWhole(m: Mem, rid: nat, v: Value, n: Value)
    requires Whole(m) && v != Undef
    ensures Known(AllocArray(m, rid, v, n))
  {
    if n.VInt? && 0 <= n.n < TWO63 { AllocWhole(m, ArrO(rid, seq(n.n, _ => v))); }
  }

  lemma LoadKnown(m: Mem, a: Value, i: Value)
    requires Whole(m)
    ensures Known(Lift(LoadCell(m, a, i), m))
  {
  }

  lemma BinKnown(op: Op, a: Value, b: Value, m: Mem)
    requires Whole(m)
    ensures Known(Lift(BinOp(op, a, b), m))
  {
  }

  lemma StoreKnown(vals: seq<Value>, ok: seq<bool>, pl: Place, v: Value, m: Mem)
    requires Given(vals, ok) && Whole(m) && v != Undef && (pl.NameP? ==> pl.i < |vals|)
    ensures ScopeKnown(StorePlace(vals, pl, v, m), ok)
  {
    match pl
    case NameP(_) =>
    case CellP(a, i) =>
      var r := CheckCell(m, a, i);
      if r.Good? {
        var m1 := StoreCell(m, a, i, v).mem;
        forall l | l in m1.heap && m1.heap[l].ArrO? ensures Undef !in m1.heap[l].cells {
          if l != a.loc { assert m1.heap[l] == m.heap[l]; }
        }
      }
    case FieldP(_, _) =>
  }

  // ---------- Expressions ----------

  lemma {:induction false} EvalKnown(p: Program, k: nat, env: Env, ok: seq<bool>, e: Expr, m: Mem, fuel: nat)
    requires Start(p, k, env, ok, m) && Sure(env.tags, ok, e)
    ensures Known(Eval(p, k, env, e, m, fuel))
    decreases fuel, k, e, 1
  {
    hide Find, BinOp, AllocArray, LoadCell, Deref, CheckCell;
    match e
    case Num(_) =>
    case Get(x) =>
    case Bin(op, a, b) =>
      TwoKnown(p, k, env, ok, e, a, b, m, fuel);
      var r := Eval(p, k, env, a, m, fuel);
      if r.Ok? {
        var q := Eval(p, k, env, b, r.mem, fuel);
        if q.Ok? { BinKnown(op, r.value, q.value, q.mem); }
      }
    case Lit(es) =>
      ListsKnown(p, k, env, ok, es, m, fuel);
      var r := EvalList(p, k, env, es, m, fuel);
      if r.Ok? { AllocWhole(r.mem, ArrO(Default(env).1, r.value)); }
    case Fill(a, b) =>
      TwoKnown(p, k, env, ok, e, a, b, m, fuel);
      var r := Eval(p, k, env, a, m, fuel);
      if r.Ok? {
        var q := Eval(p, k, env, b, r.mem, fuel);
        if q.Ok? { FillWhole(q.mem, Default(env).1, r.value, q.value); }
      }
    case Elem(a, b) =>
      TwoKnown(p, k, env, ok, e, a, b, m, fuel);
      var r := Eval(p, k, env, a, m, fuel);
      if r.Ok? {
        var q := Eval(p, k, env, b, r.mem, fuel);
        if q.Ok? { LoadKnown(q.mem, r.value, q.value); }
      }
    case Length(a) => LengthKnown(p, k, env, ok, e, m, fuel);
    case Field(a, f) => FieldKnown(p, k, env, ok, e, m, fuel);
    case New(c, rs) =>
      if c in p.classes { forall rid: nat ensures Known(Alloc(m, ClsO(rid, c, p.classes[c]))) { AllocWhole(m, ClsO(rid, c, p.classes[c])); } }
    case Call(_, _, _) => CallKnown(p, k, env, ok, e, m, fuel);
  }

  lemma LengthKnown(p: Program, k: nat, env: Env, ok: seq<bool>, e: Expr, m: Mem, fuel: nat)
    requires Start(p, k, env, ok, m) && Sure(env.tags, ok, e) && e.Length?
    ensures Known(Eval(p, k, env, e, m, fuel))
    decreases fuel, k, e, 0
  {
    EvalKnown(p, k, env, ok, e.arr, m, fuel);
  }

  lemma FieldKnown(p: Program, k: nat, env: Env, ok: seq<bool>, e: Expr, m: Mem, fuel: nat)
    requires Start(p, k, env, ok, m) && Sure(env.tags, ok, e) && e.Field?
    ensures Known(Eval(p, k, env, e, m, fuel))
    decreases fuel, k, e, 0
  {
    EvalKnown(p, k, env, ok, e.obj, m, fuel);
  }

  lemma TwoKnown(p: Program, k: nat, env: Env, ok: seq<bool>, e: Expr, a: Expr, b: Expr, m: Mem, fuel: nat)
    requires Start(p, k, env, ok, m) && Sure(env.tags, ok, a) && Sure(env.tags, ok, b) && a < e && b < e
    ensures var r := Eval(p, k, env, a, m, fuel);
            Known(r) && (r.Ok? ==> Known(Eval(p, k, env, b, r.mem, fuel)))
    decreases fuel, k, e, 0
  {
    hide Eval, Sure;
    EvalKnown(p, k, env, ok, a, m, fuel);
    var r := Eval(p, k, env, a, m, fuel);
    if r.Ok? { EvalKnown(p, k, env, ok, b, r.mem, fuel); }
  }

  lemma {:induction false} ListsKnown(p: Program, k: nat, env: Env, ok: seq<bool>, es: seq<Expr>, m: Mem, fuel: nat)
    requires Start(p, k, env, ok, m) && forall e :: e in es ==> Sure(env.tags, ok, e)
    ensures ListKnown(EvalList(p, k, env, es, m, fuel))
    decreases fuel, k, es
  {
    hide Eval, Sure;
    if es != [] {
      EvalKnown(p, k, env, ok, es[0], m, fuel);
      var r := Eval(p, k, env, es[0], m, fuel);
      if r.Ok? { ListsKnown(p, k, env, ok, es[1..], r.mem, fuel); }
    }
  }

  lemma CallKnown(p: Program, k: nat, env: Env, ok: seq<bool>, e: Expr, m: Mem, fuel: nat)
    requires Start(p, k, env, ok, m) && Sure(env.tags, ok, e) && e.Call?
    ensures Known(Eval(p, k, env, e, m, fuel))
    decreases fuel, k, e, 0
  {
    hide GetHandle, Find;
    ListsKnown(p, k, env, ok, e.args, m, fuel);
    var r := EvalList(p, k, env, e.args, m, fuel);
    var j, h := FindFn(p, k, e.fn), GetHandle(env.handles, CallRegions(e.regions, Default(env).0)[0]);
    if r.Ok? && j.Some? && h.Some? { FnKnown(p, j.value, h.value, r.value, r.mem, fuel); }
  }

  lemma FnKnown(p: Program, j: nat, rid: nat, vs: seq<Value>, m: Mem, fuel: nat)
    requires j < |p.fns| && FnsSure(p, j + 1) && Undef !in vs && Whole(m)
    ensures Known(RunFn(p, j, rid, vs, m, fuel))
    decreases fuel, j
  {
    hide Sure, StmtSure, Exec, Eval;
    var fn := p.fns[j];
    if |vs| == |fn.params| && fn.regions != [] {
      var env, ok := FnEnv(fn, rid, vs), AllSure(|fn.params|);
      assert FnSure(fn);
      ExecKnown(p, j, env, ok, fn.body, m, fuel);
      var r := Exec(p, j, env, fn.body, m, fuel);
      if r.Ok? && fn.result.Some? {
        EvalKnown(p, j, EnvAfter(env, fn.body, r.value), ok + Marks(fn.body, 0), fn.result.value, r.mem, fuel);
      }
    }
  }

  // ---------- Statements ----------

  lemma TargetKnown(p: Program, k: nat, env: Env, ok: seq<bool>, t: Expr, m: Mem, fuel: nat)
    requires Start(p, k, env, ok, m) && Sure(env.tags, ok, t)
    ensures var r := EvalTarget(p, k, env, t, m, fuel); r != Fail(Uninit) && (r.Ok? ==> Whole(r.mem))
    decreases fuel, k, t, 2
  {
    hide Find, LoadCell, LoadField, Deref, CheckCell;
    match t
    case Elem(a, b) =>
      TwoKnown(p, k, env, ok, t, a, b, m, fuel);
      var r := Eval(p, k, env, a, m, fuel);
      if r.Ok? {
        var q := Eval(p, k, env, b, r.mem, fuel);
        if q.Ok? { LoadKnown(q.mem, r.value, q.value); }
      }
    case Field(a, f) => EvalKnown(p, k, env, ok, t, m, fuel); EvalKnown(p, k, env, ok, a, m, fuel);
    case _ =>
  }

  lemma {:induction false} ExecKnown(p: Program, k: nat, env: Env, ok: seq<bool>, s: Stmt, m: Mem, fuel: nat)
    requires Start(p, k, env, ok, m) && StmtSure(env.tags, ok, env.depth, s)
    ensures ScopeKnown(Exec(p, k, env, s, m, fuel), ok + Marks(s, env.depth))
    decreases fuel, k, s, 1
  {
    hide Sure, Eval;
    match s
    case Skip => assert ok + [] == ok;
    case Seq(_, _) => SeqKnown(p, k, env, ok, s, m, fuel);
    case Var(_, e) => EvalKnown(p, k, env, ok, e, m, fuel);
    case Let(_, e) => EvalKnown(p, k, env, ok, e, m, fuel);
    case Assign(_, _) => AssignKnown(p, k, env, ok, s, m, fuel);
    case Do(e) => assert ok + [] == ok; EvalKnown(p, k, env, ok, e, m, fuel);
    case If(_, _, _) => IfKnown(p, k, env, ok, s, m, fuel);
    case While(_, _) => WhileKnown(p, k, env, ok, s, m, fuel);
    case For(_, _, _, _) => ForKnown(p, k, env, ok, s, m, fuel);
    case On(_, _) => OnKnown(p, k, env, ok, s, m, fuel);
  }

  lemma NextStart(p: Program, k: nat, env: Env, ok: seq<bool>, s: Stmt, r: Res<seq<Value>>, ok1: seq<bool>, m: Mem)
    requires Start(p, k, env, ok, m) && r.Ok? && ScopeKnown(r, ok1) && |r.value| == |env.vals| + |Declared(s, env.depth)|
    ensures Start(p, k, EnvAfter(env, s, r.value), ok1, r.mem)
  {
  }

  lemma SeqFaults(r: Res<seq<Value>>, ok: seq<bool>, more: seq<bool>)
    requires ScopeKnown(r, ok)
    ensures !r.Ok? ==> ScopeKnown(r, more)
  {
  }

  lemma {:induction false} SeqRuns(p: Program, k: nat, env: Env, ok: seq<bool>, s: Stmt, m: Mem, fuel: nat)
    requires k <= |p.fns| && EnvShape(env) && s.Seq?
    ensures var r := Exec(p, k, env, s.s1, m, fuel);
            && (r.Ok? ==> Exec(p, k, env, s, m, fuel) == Exec(p, k, EnvAfter(env, s.s1, r.value), s.s2, r.mem, fuel))
            && (!r.Ok? ==> Exec(p, k, env, s, m, fuel) == r)
    ensures ok + Marks(s.s1, env.depth) + Marks(s.s2, env.depth) == ok + Marks(s, env.depth)
  {
  }

  lemma SeqKnown(p: Program, k: nat, env: Env, ok: seq<bool>, s: Stmt, m: Mem, fuel: nat)
    requires Start(p, k, env, ok, m) && StmtSure(env.tags, ok, env.depth, s) && s.Seq?
    ensures ScopeKnown(Exec(p, k, env, s, m, fuel), ok + Marks(s, env.depth))
    decreases fuel, k, s, 0
  {
    hide Sure, Exec, Eval, ScopeKnown, FnsSure, Whole, Given, Marks;
    SeqRuns(p, k, env, ok, s, m, fuel);
    ExecKnown(p, k, env, ok, s.s1, m, fuel);
    var r := Exec(p, k, env, s.s1, m, fuel);
    SeqFaults(r, ok + Marks(s.s1, env.depth), ok + Marks(s, env.depth));
    if r.Ok? {
      var ok1 := ok + Marks(s.s1, env.depth);
      NextStart(p, k, env, ok, s.s1, r, ok1, m);
      ExecKnown(p, k, EnvAfter(env, s.s1, r.value), ok1, s.s2, r.mem, fuel);
    }
  }

  lemma AssignKnown(p: Program, k: nat, env: Env, ok: seq<bool>, s: Stmt, m: Mem, fuel: nat)
    requires Start(p, k, env, ok, m) && StmtSure(env.tags, ok, env.depth, s) && s.Assign?
    ensures ScopeKnown(Exec(p, k, env, s, m, fuel), ok + Marks(s, env.depth))
    decreases fuel, k, s, 0
  {
    hide Sure, Eval, EvalTarget, StorePlace;
    assert ok + [] == ok;
    TargetKnown(p, k, env, ok, s.target, m, fuel);
    var t := EvalTarget(p, k, env, s.target, m, fuel);
    if t.Ok? {
      EvalKnown(p, k, env, ok, s.e, t.mem, fuel);
      var r := Eval(p, k, env, s.e, t.mem, fuel);
      if r.Ok? { StoreKnown(env.vals, ok, t.value, r.value, r.mem); }
    }
  }

  lemma GivenMore(vals: seq<Value>, ok: seq<bool>, n: nat)
    requires Given(vals, ok)
    ensures Given(vals + Undefs(n), ok + Unsure(n))
  {
  }

  /** What was sure before an arm is sure after it, and nothing else. */
  lemma GivenLess(vals: seq<Value>, ok: seq<bool>, marks: seq<bool>)
    requires Given(vals, ok + marks)
    ensures Given(vals, ok + Unsure(|marks|))
  {
    forall i | 0 <= i < |ok| && ok[i] ensures vals[i] != Undef { assert (ok + marks)[i]; }
  }

  lemma IfKnown(p: Program, k: nat, env: Env, ok: seq<bool>, s: Stmt, m: Mem, fuel: nat)
    requires Start(p, k, env, ok, m) && StmtSure(env.tags, ok, env.depth, s) && s.If?
    ensures ScopeKnown(Exec(p, k, env, s, m, fuel), ok + Marks(s, env.depth))
    decreases fuel, k, s, 0
  {
    hide Sure, Eval;
    EvalKnown(p, k, env, ok, s.c, m, fuel);
    var c := Eval(p, k, env, s.c, m, fuel);
    var n, l := |Declared(s.thn, env.depth)|, |Declared(s.els, env.depth)|;
    assert ok + Unsure(n) + Unsure(l) == ok + Marks(s, env.depth);
    if c.Ok? && c.value.VBool? {
      if c.value.b {
        ExecKnown(p, k, env, ok, s.thn, c.mem, fuel);
        var r := Exec(p, k, env, s.thn, c.mem, fuel);
        if r.Ok? {
          GivenLess(r.value, ok, Marks(s.thn, env.depth));
          GivenMore(r.value, ok + Unsure(n), l);
        }
      } else {
        var vals := env.vals + Undefs(n);
        GivenMore(env.vals, ok, n);
        ExecKnown(p, k, EnvAfter(env, s.thn, vals), ok + Unsure(n), s.els, c.mem, fuel);
        var r := Exec(p, k, EnvAfter(env, s.thn, vals), s.els, c.mem, fuel);
        if r.Ok? { GivenLess(r.value, ok + Unsure(n), Marks(s.els, env.depth)); }
      }
    }
  }

  lemma GivenOuter(vals: seq<Value>, ok: seq<bool>, marks: seq<bool>, n: nat)
    requires Given(vals, ok + marks) && n == |ok|
    ensures Given(vals[..n], ok)
  {
    forall i | 0 <= i < n && ok[i] ensures vals[..n][i] != Undef { assert (ok + marks)[i]; }
  }

  lemma WhileKnown(p: Program, k: nat, env: Env, ok: seq<bool>, s: Stmt, m: Mem, fuel: nat)
    requires Start(p, k, env, ok, m) && StmtSure(env.tags, ok, env.depth, s) && s.While?
    ensures ScopeKnown(Exec(p, k, env, s, m, fuel), ok + Marks(s, env.depth))
    decreases fuel, k, s, 0
  {
    hide Sure, Eval;
    assert ok + [] == ok;
    if fuel > 0 {
      EvalKnown(p, k, env, ok, s.c, m, fuel);
      var c := Eval(p, k, env, s.c, m, fuel);
      if c.Ok? && c.value.VBool? && c.value.b {
        ExecKnown(p, k, Inner(env), ok, s.body, c.mem, fuel);
        var r := Exec(p, k, Inner(env), s.body, c.mem, fuel);
        if r.Ok? {
          GivenOuter(r.value, ok, Marks(s.body, env.depth + 1), |env.vals|);
          ExecKnown(p, k, env.(vals := r.value[..|env.vals|]), ok, s, r.mem, fuel - 1);
        }
      }
    }
  }

  lemma ForKnown(p: Program, k: nat, env: Env, ok: seq<bool>, s: Stmt, m: Mem, fuel: nat)
    requires Start(p, k, env, ok, m) && StmtSure(env.tags, ok, env.depth, s) && s.For?
    ensures ScopeKnown(Exec(p, k, env, s, m, fuel), ok + Marks(s, env.depth))
    decreases fuel, k, s, 0
  {
    hide Sure, Eval, ForLoop;
    EvalKnown(p, k, env, ok, s.lo, m, fuel);
    var a := Eval(p, k, env, s.lo, m, fuel);
    if a.Ok? {
      EvalKnown(p, k, env, ok, s.hi, a.mem, fuel);
      var b := Eval(p, k, env, s.hi, a.mem, fuel);
      if b.Ok? && NewIter(b.mem, a.value, b.value).Ok? {
        var it := NewIter(b.mem, a.value, b.value);
        LoopKnown(p, k, Extend(env, Tag(s.x, false, env.depth), Undef), ok, s.body, it.value.it, it.mem, fuel);
      }
    }
  }

  lemma {:induction false} LoopKnown(p: Program, k: nat, env: Env, ok: seq<bool>, body: Stmt, it: nat, m: Mem, fuel: nat)
    requires env.vals != [] && Start(p, k, env, ok + [false], m)
    requires StmtSure(env.tags, ok + [true], env.depth + 1, body)
    ensures ScopeKnown(ForLoop(p, k, env, body, it, m, fuel), ok + [false])
    decreases fuel, k, body, 2
  {
    hide Exec, Sure, Eval;
    if fuel > 0 && HasNext(m, it) {
      var (v, m1) := Next(m, it);
      var env1 := env.(vals := env.vals[|env.vals| - 1 := v]);
      ExecKnown(p, k, Inner(env1), ok + [true], body, m1, fuel);
      var r := Exec(p, k, Inner(env1), body, m1, fuel);
      if r.Ok? {
        GivenOuter(r.value, ok + [true], Marks(body, env.depth + 1), |env.vals|);
        LoopKnown(p, k, env.(vals := r.value[..|env.vals|]), ok, body, it, r.mem, fuel - 1);
      }
    }
  }

  lemma OnKnown(p: Program, k: nat, env: Env, ok: seq<bool>, s: Stmt, m: Mem, fuel: nat)
    requires Start(p, k, env, ok, m) && StmtSure(env.tags, ok, env.depth, s) && s.On?
    ensures ScopeKnown(Exec(p, k, env, s, m, fuel), ok + Marks(s, env.depth))
    decreases fuel, k, s, 0
  {
    var (rid, m1) := OpenRegion(m);
    var env1 := Inner(env).(handles := env.handles + [(s.region, rid)]);
    assert ok + [] == ok;
    ExecKnown(p, k, env1, ok, s.body, m1, fuel);
    var r := Exec(p, k, env1, s.body, m1, fuel);
    if r.Ok? { GivenOuter(r.value, ok, Marks(s.body, env.depth + 1), |env.vals|); }
  }

  // ---------- Main results ----------

  /** In a checked program no function reads a variable that has no value. */
  lemma SureNeverUninit(p: Program, j: nat, rid: nat, vs: seq<Value>, m: Mem, fuel: nat)
    requires j < |p.fns| && FnsSure(p, |p.fns|) && Undef !in vs && Whole(m)
    ensures RunFn(p, j, rid, vs, m, fuel) != Fail(Uninit)
    ensures RunFn(p, j, rid, vs, m, fuel).Ok? ==> RunFn(p, j, rid, vs, m, fuel).value != Undef
  {
    FnKnown(p, j, rid, vs, m, fuel);
  }

  /** A program that is accepted and checked can only fault on an index or length out of range,
      on a division, or on the width of an integer. */
  lemma OnlyValueFaults(p: Program, main: nat, fuel: nat)
    requires Checker.ProgramOk(p, true) && FnsSure(p, |p.fns|) && main < |p.fns| && p.fns[main].params == []
    ensures match RegionSafety.RunMain(p, main, fuel)
            case Ok(_, m) => m.live == {}
            case Fail(f) => f in {Bounds, Arith, Width}
            case Timeout => true
  {
    RegionSafety.RegionSafety(p, main, fuel);
    var (rid, m) := OpenRegion(EMPTY);
    FnKnown(p, main, rid, [], m, fuel);
  }
}
