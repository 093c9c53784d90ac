/** Whole functions: from entry to return, the emitted blocks do what the interpreter does. */
module Functions {
  import opened Basics
  import opened RegionTypes
  import opened Lang
  import opened Memory
  import opened Interp
  import opened Ir
  import opened Lowering
  import opened Growth
  import opened Homes
  import opened Running
  import opened Simulation
  import opened Correctness
  import opened Faults
  import opened WellFormed

  /** A function starts where the simulation of its body can start. */
  lemma EntryReady(p: Program, j: nat, rid: nat, vs: seq<Value>, m: Mem)
    requires j < |p.fns| && Callees(p, j) && p.fns[j].regions != [] && |vs| == |p.fns[j].params|
    ensures Ready(p, j, EntryCx(p.fns[j]), FnEnv(p.fns[j], rid, vs), Entry(p.fns[j]), Start(rid, vs, m))
  {
    var cx, env, st := EntryCx(p.fns[j]), FnEnv(p.fns[j], rid, vs), Start(rid, vs, m).st;
    forall i | 0 <= i < |vs| && vs[i] != Undef
      ensures Holds(cx.homes[i], vs[i], st)
    {
      assert cx.homes[i] == InReg(Reg(i + 1));
    }
    assert Operate(Reg(0), st) == Some(VRegion(rid));
  }

  /** Terminating the open block keeps what was emitted. */
  lemma TerminateRuns(lib: Library, g: Graph, t: Term, c: Config, n: nat, c1: Config)
    requires Runs(lib, g, c, n, c1) && Open(g)
    ensures Runs(lib, Terminate(g, t), c, n, c1)
    ensures Here(g, c1) ==> At(Terminate(g, t), c1.block, c1.idx) == Some(T(t))
  {
    var h := Terminate(g, t);
    assert Extends(g, h) by {
      forall b: nat, i: nat | At(g, b, i).Some? ensures At(h, b, i) == At(g, b, i) {}
    }
    StepsWiden(lib, g, h, c, n);
  }

  // ---------- Functions that return ----------

  /** A function that finishes: its code returns the interpreter's result with the
      interpreter's memory. */
  lemma FnFinishes(p: Program, j: nat, rid: nat, vs: seq<Value>, m: Mem, fuel: nat) returns (n: nat, c1: Config)
    requires j < |p.fns| && Callees(p, j) && FnReady(p.fns[j]) && |vs| == |p.fns[j].params|
    requires RunFn(p, j, rid, vs, m, fuel).Ok?
    ensures FnDone(Lib(p, j), RunFn(p, j, rid, vs, m, fuel), LowerFn(p.fns[j]), Start(rid, vs, m), fuel, n, c1)
  {
    var fn, c := p.fns[j], Start(rid, vs, m);
    var g, cx, env := Entry(fn), EntryCx(fn), FnEnv(fn, rid, vs);
    EntryReady(p, j, rid, vs, m);
    n, c1 := SimStmt(p, j, cx, env, fn.body, g, c, fuel);
    StmtNested(g, cx, fn.body);
    var h, hs := LowerStmt(g, cx, fn.body).0, LowerStmt(g, cx, fn.body).1;
    var r := Exec(p, j, env, fn.body, m, fuel);
    if fn.result.None? {
      TerminateRuns(Lib(p, j), h, Ret(None), c, n, c1);
    } else {
      var cx1, env1 := CxAfter(cx, fn.body, hs), EnvAfter(env, fn.body, r.value);
      AfterBody(p, j, rid, vs, m, r.value, h, hs, c1);
      n, c1 := OperandReturns(p, j, cx1, env1, fn.result.value, h, c, n, c1, fuel);
    }
  }

  /** The operand of `return`, from where the body ended. */
  lemma OperandReturns(p: Program, j: nat, cx: LCx, env: Env, e: Expr, h: Graph, c: Config, n0: nat, c0: Config, fuel: nat)
    returns (n: nat, c1: Config)
    requires Ready(p, j, cx, env, h, c0) && ExprReady(cx, e) && Runs(Lib(p, j), h, c, n0, c0)
    requires Eval(p, j, env, e, c0.st.mem, fuel).Ok?
    ensures FnDone(Lib(p, j), Eval(p, j, env, e, c0.st.mem, fuel),
                   Terminate(LowerExpr(h, cx, e).0, Ret(Some(LowerExpr(h, cx, e).1))), c, fuel, n, c1)
  {
    hide Callees, LowerExpr, Eval, Steps, Step, Match, Find, Fits;
    var k, o := LowerExpr(h, cx, e).0, LowerExpr(h, cx, e).1;
    var n2;
    n2, c1 := RunExpr(p, j, cx, env, e, h, c0, fuel);
    n := n0 + n2;
    RunsThen(Lib(p, j), h, k, c, n0, c0, n2, c1);
    TerminateRuns(Lib(p, j), k, Ret(Some(o)), c, n, c1);
  }

  /** The scope after the body matches, and the result can be lowered in it. */
  lemma AfterBody(p: Program, j: nat, rid: nat, vs: seq<Value>, m: Mem, vals: seq<Value>, h: Graph, hs: seq<Home>, c: Config)
    requires j < |p.fns| && Callees(p, j) && FnReady(p.fns[j]) && |vs| == |p.fns[j].params| && p.fns[j].result.Some?
    requires (h, hs) == LowerStmt(Entry(p.fns[j]), EntryCx(p.fns[j]), p.fns[j].body) && Here(h, c)
    requires Match(CxAfter(EntryCx(p.fns[j]), p.fns[j].body, hs), EnvAfter(FnEnv(p.fns[j], rid, vs), p.fns[j].body, vals), c.st)
    ensures var fn := p.fns[j];
            var cx1 := CxAfter(EntryCx(fn), fn.body, hs);
            Ready(p, j, cx1, EnvAfter(FnEnv(fn, rid, vs), fn.body, vals), h, c) && ExprReady(cx1, fn.result.value)
  {
    var fn := p.fns[j];
    var g, cx := Entry(fn), EntryCx(fn);
    EntryReady(p, j, rid, vs, m);
    StmtHomes(g, cx, fn.body);
    StmtNested(g, cx, fn.body);
    FitsAfter(g, cx, fn.body);
    assert HandleNames(CxAfter(cx, fn.body, hs)) == [fn.regions[0]];
  }

  // ---------- Functions that do not ----------

  lemma FnCut(p: Program, j: nat, rid: nat, vs: seq<Value>, m: Mem, fuel: nat, why: Option<Fault>) returns (n: nat, c1: Config)
    requires j < |p.fns| && Callees(p, j) && FnReady(p.fns[j]) && |vs| == |p.fns[j].params|
    requires Unfinished(RunFn(p, j, rid, vs, m, fuel), why)
    ensures Cut(Lib(p, j), LowerFn(p.fns[j]), Start(rid, vs, m), n, c1, fuel, why)
  {
    hide Callees, LowerStmt, LowerExpr, Exec, Eval, Steps, Step, Match, Find, Fits, Cut, Extends, Here;
    var fn, c := p.fns[j], Start(rid, vs, m);
    var g, cx, env := Entry(fn), EntryCx(fn), FnEnv(fn, rid, vs);
    EntryReady(p, j, rid, vs, m);
    StmtOpen(g, cx, fn.body);
    var h, hs := LowerStmt(g, cx, fn.body).0, LowerStmt(g, cx, fn.body).1;
    var r := Exec(p, j, env, fn.body, m, fuel);
    if fn.result.None? {
      n, c1 := FaultStmt(p, j, cx, env, fn.body, g, c, fuel, why);
      ReturnKeeps(h, Ret(None));
      CutGrows(Lib(p, j), h, LowerFn(fn), c, n, c1, fuel, why);
    } else {
      var cx1, e := CxAfter(cx, fn.body, hs), fn.result.value;
      NowOpen(h, cx1, e);
      var k, o := LowerExpr(h, cx1, e).0, LowerExpr(h, cx1, e).1;
      if r.Ok? {
        n, c1 := ResultCut(p, j, rid, vs, m, fuel, r, h, hs, why);
      } else {
        n, c1 := FaultStmt(p, j, cx, env, fn.body, g, c, fuel, why);
        CutInside(Lib(p, j), h, k, c, n, c1, fuel, why);
      }
      ReturnKeeps(k, Ret(Some(o)));
      CutGrows(Lib(p, j), k, Terminate(k, Ret(Some(o))), c, n, c1, fuel, why);
    }
  }

  lemma ReturnKeeps(g: Graph, t: Term)
    requires Open(g)
    ensures Extends(g, Terminate(g, t))
  {
    var h := Terminate(g, t);
    forall b: nat, i: nat | At(g, b, i).Some? ensures At(h, b, i) == At(g, b, i) {}
  }

  lemma ResultCut(p: Program, j: nat, rid: nat, vs: seq<Value>, m: Mem, fuel: nat, r: Res<seq<Value>>, h: Graph, hs: seq<Home>,
                  why: Option<Fault>)
    returns (n: nat, c1: Config)
    requires j < |p.fns| && Callees(p, j) && FnReady(p.fns[j]) && |vs| == |p.fns[j].params| && p.fns[j].result.Some?
    requires (h, hs) == LowerStmt(Entry(p.fns[j]), EntryCx(p.fns[j]), p.fns[j].body)
    requires r == Exec(p, j, FnEnv(p.fns[j], rid, vs), p.fns[j].body, m, fuel) && r.Ok?
    requires Unfinished(Eval(p, j, EnvAfter(FnEnv(p.fns[j], rid, vs), p.fns[j].body, r.value), p.fns[j].result.value, r.mem, fuel), why)
    ensures var k := LowerExpr(h, CxAfter(EntryCx(p.fns[j]), p.fns[j].body, hs), p.fns[j].result.value).0;
            Cut(Lib(p, j), k, Start(rid, vs, m), n, c1, fuel, why)
  {
    hide Callees, LowerStmt, LowerExpr, Exec, Eval, Steps, Step, Match, Find, Fits, Cut, Extends;
    var fn, c := p.fns[j], Start(rid, vs, m);
    var g, cx, env := Entry(fn), EntryCx(fn), FnEnv(fn, rid, vs);
    var cx1, e, env1 := CxAfter(cx, fn.body, hs), fn.result.value, EnvAfter(env, fn.body, r.value);
    EntryReady(p, j, rid, vs, m);
    var n0, c0 := SimStmt(p, j, cx, env, fn.body, g, c, fuel);
    AfterBody(p, j, rid, vs, m, r.value, h, hs, c0);
    IsOpen(p, j, cx1, env1, h, c0);
    NowOpen(h, cx1, e);
    var n2;
    n2, c1 := FaultExpr(p, j, cx1, env1, e, h, c0, fuel, why);
    n := n0 + n2;
    FirstThenCut(Lib(p, j), h, LowerExpr(h, cx1, e).0, c, n0, c0, n2, c1, fuel, why);
  }

  // ---------- All functions ----------

  /** One function, if those before it do what the interpreter says. */
  lemma FnRuns(p: Program, j: nat, rid: nat, vs: seq<Value>, m: Mem, fuel: nat) returns (n: nat, c1: Config)
    requires j < |p.fns| && Callees(p, j) && FnReady(p.fns[j]) && |vs| == |p.fns[j].params|
    ensures FnDone(Lib(p, j), RunFn(p, j, rid, vs, m, fuel), LowerFn(p.fns[j]), Start(rid, vs, m), fuel, n, c1)
  {
    hide Callees, RunFn, LowerFn, FnReady, Steps;
    n, c1 := 0, Start(rid, vs, m);
    var r := RunFn(p, j, rid, vs, m, fuel);
    if r.Ok? {
      n, c1 := FnFinishes(p, j, rid, vs, m, fuel);
    } else if r != Fail(Uninit) {
      n, c1 := FnCut(p, j, rid, vs, m, fuel, if r.Fail? then Some(r.fault) else None);
    }
  }

  /** The code of the first `k` functions could be generated. */
  ghost predicate CodeReady(p: Program, k: nat)
    requires k <= |p.fns|
  {
    forall j :: 0 <= j < k ==> FnReady(p.fns[j])
  }

  lemma {:induction false} AllRun(p: Program, k: nat)
    requires k <= |p.fns| && CodeReady(p, k)
    ensures Callees(p, k)
  {
    hide FnReady, LowerFn, RunFn;
    if k > 0 {
      AllRun(p, k - 1);
      forall j: nat, rid: nat, vs: seq<Value>, m: Mem, fuel: nat | j < k && |vs| == |p.fns[j].params|
        ensures Simulated(p, j, rid, vs, m, fuel)
      {
        if j == k - 1 {
          var n, c1 := FnRuns(p, j, rid, vs, m, fuel);
          UnitCode(p, j);
          assert FnDone(Lib(p, j), RunFn(p, j, rid, vs, m, fuel), UnitOf(p.fns[j]).graph, Start(rid, vs, m), fuel, n, c1);
        }
      }
    }
  }

  lemma UnitCode(p: Program, j: nat)
    requires j < |p.fns| && FnReady(p.fns[j])
    ensures UnitOf(p.fns[j]).graph == LowerFn(p.fns[j])
  {
  }

  /** A function with everything it calls: its code returns the interpreter's result with the
      interpreter's memory, stops where the interpreter faults, and runs for at least `fuel`
      steps when the interpreter does not finish. */
  lemma FunctionRuns(p: Program, j: nat, rid: nat, vs: seq<Value>, m: Mem, fuel: nat) returns (n: nat, c1: Config)
    requires j < |p.fns| && CodeReady(p, j + 1) && |vs| == |p.fns[j].params|
    ensures FnDone(Lib(p, j), RunFn(p, j, rid, vs, m, fuel), LowerFn(p.fns[j]), Start(rid, vs, m), fuel, n, c1)
  {
    AllRun(p, j);
    n, c1 := FnRuns(p, j, rid, vs, m, fuel);
  }

  // ---------- Form ----------

  /** A whole function in proper form: all of its blocks were appended, once each, the entry
      first, and each ends in a terminator that jumps inside the function. */
  ghost predicate Finished(g: Graph) {
    && g.order != [] && g.order[0] == 0 && Distinct(g.order)
    && (forall b: nat :: b in g.order <==> b < |g.blocks|)
    && forall b :: 0 <= b < |g.blocks| ==>
         g.blocks[b].term.Some? && forall t :: t in Targets(g.blocks[b].term.value) ==> t < |g.blocks|
  }

  lemma FunctionIsFinished(fn: Fn)
    requires fn.regions != []
    ensures Finished(LowerFn(fn))
  {
    var g, cx := Entry(fn), EntryCx(fn);
    var h, hs := LowerStmt(g, cx, fn.body).0, LowerStmt(g, cx, fn.body).1;
    StmtComplete(g, cx, fn.body);
    if fn.result.None? {
      ReturnFinishes(g, h, Ret(None));
    } else {
      var cx1, e := CxAfter(cx, fn.body, hs), fn.result.value;
      ExprComplete(h, cx1, e);
      ThenComplete(g, h, LowerExpr(h, cx1, e).0, {});
      ReturnFinishes(g, LowerExpr(h, cx1, e).0, Ret(Some(LowerExpr(h, cx1, e).1)));
    }
  }

  lemma ReturnFinishes(g: Graph, h: Graph, t: Term)
    requires Complete(g, h) && |g.blocks| == 1 && g.order == [0] && g.cur == 0 && t.Ret?
    ensures Finished(Terminate(h, t))
  {
    var k := Terminate(h, t);
    assert k.order == [0] + h.order[1..];
    forall i, j | 0 <= i < j < |k.order| ensures k.order[i] != k.order[j] {
      if i == 0 { assert k.order[j] in h.order[1..]; } else { assert h.order[1..][i - 1] != h.order[1..][j - 1]; }
    }
    forall b: nat ensures b in k.order <==> b < |k.blocks| {
      assert b in h.order[1..] <==> WellFormed.New(g, h, b);
      assert b in k.order <==> b == 0 || b in h.order[1..];
    }
  }
}
