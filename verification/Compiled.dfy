/** Programs that pass the checks, as code: from source checks alone to what the emitted code can
    and cannot do. */
module Compiled {
  import opened Basics
  import opened RegionTypes
  import opened Lang
  import opened Memory
  import opened Interp
  import opened Ir
  import opened Lowering
  import opened Running
  import opened Functions
  import opened Behaviour
  import Checker
  import Definite
  import RegionSafety

  // ---------- Accepted programs have code ----------

  /** Array literals have fewer than 2^63 elements: their lengths are 64-bit words. */
  predicate SmallExpr(e: Expr) {
    match e
    case Bin(_, a, b) => SmallExpr(a) && SmallExpr(b)
    case Lit(es) => |es| < TWO63 && forall a :: a in es ==> SmallExpr(a)
    case Fill(a, b) => SmallExpr(a) && SmallExpr(b)
    case Elem(a, b) => SmallExpr(a) && SmallExpr(b)
    case Length(a) => SmallExpr(a)
    case Field(a, _) => SmallExpr(a)
    case Call(_, _, args) => forall a :: a in args ==> SmallExpr(a)
    case _ => true
  }

  predicate SmallStmt(s: Stmt) {
    match s
    case Skip => true
    case Seq(a, b) => SmallStmt(a) && SmallStmt(b)
    case Var(_, e) => SmallExpr(e)
    case Let(_, e) => SmallExpr(e)
    case Assign(t, e) => SmallExpr(t) && SmallExpr(e)
    case Do(e) => SmallExpr(e)
    case If(c, a, b) => SmallExpr(c) && SmallStmt(a) && SmallStmt(b)
    case While(c, body) => SmallExpr(c) && SmallStmt(body)
    case For(_, lo, hi, body) => SmallExpr(lo) && SmallExpr(hi) && SmallStmt(body)
    case On(_, body) => SmallStmt(body)
  }

  predicate Small(p: Program) {
    forall fn :: fn in p.fns ==> SmallStmt(fn.body) && (fn.result.Some? ==> SmallExpr(fn.result.value))
  }

  lemma {:induction false} TypedExprOk(p: Program, k: nat, cx: Checker.Cx, e: Expr)
    requires k <= |p.fns| && Checker.CxShape(cx) && Checker.TypeOf(p, k, cx, e).Some? && SmallExpr(e)
    ensures ExprOk(cx.tags, cx.handles, e)
    decreases e
  {
    hide Find, CallType;
    match e
    case Num(_) =>
    case Get(_) =>
    case Bin(_, a, b) => TypedExprOk(p, k, cx, a); TypedExprOk(p, k, cx, b);
    case Lit(es) => TypedListOk(p, k, cx, es);
    case Fill(a, b) => TypedExprOk(p, k, cx, a); TypedExprOk(p, k, cx, b);
    case Elem(a, b) => TypedExprOk(p, k, cx, a); TypedExprOk(p, k, cx, b);
    case Length(a) => TypedExprOk(p, k, cx, a);
    case Field(a, _) => TypedExprOk(p, k, cx, a);
    case New(c, rs) => HandleThere(cx, Checker.NewSignature(c), rs, []);
    case Call(f, rs, args) =>
      TypedListOk(p, k, cx, args);
      HandleThere(cx, Checker.Signature(p.fns[FindFn(p, k, f).value]), rs, Checker.TypesOf(p, k, cx, args).value);
  }

  /** A call is accepted only with a handle for its first region. */
  lemma HandleThere(cx: Checker.Cx, sig: FnSig, rs: seq<Name>, ts: seq<Type>)
    requires cx.handles != []
    requires CallType(Checker.HandleSet(cx), sig, CallRegions(rs, Checker.Default(cx)), ts).Accepted?
    ensures CallRegions(rs, cx.handles[|cx.handles| - 1])[0] in cx.handles
  {
  }

  lemma {:induction false} TypedListOk(p: Program, k: nat, cx: Checker.Cx, es: seq<Expr>)
    requires k <= |p.fns| && Checker.CxShape(cx) && Checker.TypesOf(p, k, cx, es).Some?
    requires forall e :: e in es ==> SmallExpr(e)
    ensures forall e :: e in es ==> ExprOk(cx.tags, cx.handles, e)
    decreases es
  {
    if es != [] {
      TypedExprOk(p, k, cx, es[0]);
      TypedListOk(p, k, cx, es[1..]);
      forall e | e in es ensures ExprOk(cx.tags, cx.handles, e) { assert e == es[0] || e in es[1..]; }
    }
  }

  lemma {:induction false} CheckedStmtOk(p: Program, k: nat, cx: Checker.Cx, s: Stmt)
    requires k <= |p.fns| && Checker.CxShape(cx) && Checker.CheckStmt(p, k, cx, s).Some? && SmallStmt(s)
    ensures StmtOk(cx.tags, cx.depth, cx.handles, s)
    decreases s
  {
    hide Find, Checker.TypeOf, ExprOk, SmallExpr;
    match s
    case Skip =>
    case Seq(a, b) =>
      CheckedStmtOk(p, k, cx, a);
      CheckedStmtOk(p, k, Checker.CxAfter(cx, a, Checker.CheckStmt(p, k, cx, a).value), b);
    case Var(_, e) => TypedExprOk(p, k, cx, e);
    case Let(_, e) => TypedExprOk(p, k, cx, e);
    case Assign(t, e) => TypedExprOk(p, k, cx, t); TypedExprOk(p, k, cx, e);
    case Do(e) => TypedExprOk(p, k, cx, e);
    case If(c, a, b) =>
      TypedExprOk(p, k, cx, c);
      CheckedStmtOk(p, k, cx, a);
      CheckedStmtOk(p, k, Checker.CxAfter(cx, a, Checker.CheckStmt(p, k, cx, a).value), b);
    case While(c, body) => TypedExprOk(p, k, cx, c); CheckedStmtOk(p, k, Checker.InnerCx(cx), body);
    case For(x, lo, hi, body) =>
      TypedExprOk(p, k, cx, lo);
      TypedExprOk(p, k, cx, hi);
      var cx1 := cx.(tags := cx.tags + [Tag(x, false, cx.depth)], types := cx.types + [IntT(64)]);
      CheckedStmtOk(p, k, Checker.InnerCx(cx1), body);
    case On(name, body) =>
      CheckedStmtOk(p, k, Checker.InnerCx(cx).(handles := cx.handles + [name]), body);
  }

  /** Code can be generated for every function that the checks accept. */
  lemma AcceptedIsReady(p: Program, strict: bool)
    requires Checker.ProgramOk(p, strict) && Small(p)
    ensures CodeReady(p, |p.fns|)
  {
    forall j | 0 <= j < |p.fns| ensures FnReady(p.fns[j]) {
      assert Checker.FnOk(p, j, strict) && p.fns[j] in p.fns;
      FnIsReady(p, j, strict);
    }
  }

  lemma FnIsReady(p: Program, j: nat, strict: bool)
    requires j < |p.fns| && Checker.FnOk(p, j, strict) && Small(p)
    ensures FnReady(p.fns[j])
  {
    hide Checker.CheckStmt, Checker.TypeOf, StmtOk, ExprOk, SmallStmt, SmallExpr;
    var fn := p.fns[j];
    var cx := Checker.FnCx(fn, strict);
    assert fn in p.fns;
    CheckedStmtOk(p, j, cx, fn.body);
    assert HandleNames(EntryCx(fn)) == cx.handles;
    if fn.result.Some? {
      TypedExprOk(p, j, Checker.CxAfter(cx, fn.body, Checker.CheckStmt(p, j, cx, fn.body).value), fn.result.value);
    }
  }

  // ---------- What their code does ----------

  /** An accepted and checked program: each of its functions returns, faults or runs forever with
      its code, whatever its arguments. */
  lemma ProgramBehaviour(p: Program, strict: bool, j: nat, rid: nat, vs: seq<Value>, m: Mem)
    requires Checker.ProgramOk(p, strict) && Small(p) && Definite.FnsSure(p, |p.fns|)
    requires j < |p.fns| && |vs| == |p.fns[j].params| && Undef !in vs && Definite.Whole(m)
    ensures p.fns[j].regions != [] && FnAgrees(p, j, rid, vs, m, LowerFn(p.fns[j]))
  {
    hide LowerFn, FnAgrees, Checker.ProgramOk, Small;
    AcceptedIsReady(p, strict);
    CheckedFunctionBehaviour(p, j, rid, vs, m);
  }

  /** The code of `main` of such a program, in a region created for it.  When it returns, that
      region is the only one there is; and it stops short only at an index or length out of range,
      at a division that fails, or where a comparison stands for an integer or the reverse: never
      at an access to a deleted region, and never at a value of the wrong kind. */
  lemma CompiledProgramIsSafe(p: Program, main: nat, rid: nat, m: Mem)
    requires Checker.ProgramOk(p, true) && Small(p) && Definite.FnsSure(p, |p.fns|)
    requires main < |p.fns| && p.fns[main].params == [] && (rid, m) == OpenRegion(EMPTY)
    ensures p.fns[main].regions != []
    ensures var lib, h, c := Lib(p, main), LowerFn(p.fns[main]), Start(rid, [], m);
            && (forall v, m1 :: CodeReturns(lib, h, c, v, m1) ==> m1.live == {rid})
            && (forall f :: Breaking(lib, h, c, f) ==> f == Bounds || f == Arith || f == Width)
  {
    hide LowerFn, RunFn, Checker.ProgramOk, Small, CodeReturns, Breaking;
    ProgramBehaviour(p, true, main, rid, [], m);
    var lib, h, c := Lib(p, main), LowerFn(p.fns[main]), Start(rid, [], m);
    forall v, m1 | CodeReturns(lib, h, c, v, m1)
      ensures m1.live == {rid}
    {
      assert FnReturns(p, main, rid, [], m, v, m1);
      var fuel: nat :| RunFn(p, main, rid, [], m, fuel) == Ok(v, m1);
      ReturnLeaves(p, main, rid, m, v, m1, fuel);
    }
    forall f | Breaking(lib, h, c, f)
      ensures f == Bounds || f == Arith || f == Width
    {
      assert FnFaults(p, main, rid, [], m, f);
      var fuel: nat :| RunFn(p, main, rid, [], m, fuel) == Fail(f);
      Definite.OnlyValueFaults(p, main, fuel);
    }
  }

  lemma ReturnLeaves(p: Program, main: nat, rid: nat, m: Mem, v: Value, m1: Mem, fuel: nat)
    requires Checker.ProgramOk(p, true) && main < |p.fns| && p.fns[main].params == [] && (rid, m) == OpenRegion(EMPTY)
    requires RunFn(p, main, rid, [], m, fuel) == Ok(v, m1)
    ensures m1.live == {rid}
  {
    hide RunFn, Checker.ProgramOk;
    RegionSafety.RegionSafety(p, main, fuel);
    var r := CloseRegion(m1, rid);
    assert RegionSafety.RunMain(p, main, fuel) == if r.Ok? then Ok(v, r.mem) else Fail(Dangling);
    assert r.Ok? && r.mem.live == m1.live - {rid};
  }
}
