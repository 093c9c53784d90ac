/** Statements and functions behave as their code does: they finish, fault or run forever
    together.

    The only condition is that no variable without a value is read, which the check in
    `Definite` guarantees for a whole program. */
module Behaviour {
  import opened Basics
  import opened RegionTypes
  import opened Lang
  import opened Memory
  import opened Interp
  import opened Ir
  import opened Lowering
  import opened Homes
  import opened Running
  import opened Correctness
  import opened Faults
  import opened Functions
  import Definite

  // ---------- What code can do ----------

  ghost predicate Ends(lib: Library, h: Graph, c: Config) {
    exists n: nat, c1: Config :: Runs(lib, h, c, n, c1) && Here(h, c1)
  }

  /** The code stops at something that it cannot execute, for the fault `f`. */
  ghost predicate Breaking(lib: Library, h: Graph, c: Config, f: Fault) {
    exists n: nat, c1: Config :: Breaks(lib, h, c, n, c1, f)
  }

  ghost predicate RunsForever(lib: Library, h: Graph, c: Config) {
    forall n: nat :: Steps(lib, h, c, n).Some?
  }

  lemma EndNotBreak(lib: Library, h: Graph, c: Config, n: nat, c1: Config, k: nat, c2: Config, f: Fault)
    requires Runs(lib, h, c, n, c1) && Here(h, c1)
    ensures !Breaks(lib, h, c, k, c2, f)
  {
    HereStops(lib, h, c1);
    if Breaks(lib, h, c, k, c2, f) { HaltingIsUnique(lib, h, c, n, c1, k, c2); }
  }

  lemma BreakIsUnique(lib: Library, h: Graph, c: Config, f: Fault, f': Fault)
    requires Breaking(lib, h, c, f) && Breaking(lib, h, c, f')
    ensures f == f'
  {
    hide Steps, Step, Why;
    var n: nat, c1: Config :| Breaks(lib, h, c, n, c1, f);
    var k: nat, c2: Config :| Breaks(lib, h, c, k, c2, f');
    HaltingIsUnique(lib, h, c, n, c1, k, c2);
  }

  lemma HaltNotForever(lib: Library, h: Graph, c: Config, n: nat, c1: Config)
    requires HaltsAt(lib, h, c, n, c1)
    ensures !RunsForever(lib, h, c)
  {
    HaltingIsFinal(lib, h, c, n, c1, n + 1);
  }

  lemma {:induction false} StepsPrefix(lib: Library, h: Graph, c: Config, n: nat, k: nat)
    requires k <= n && Steps(lib, h, c, n).Some?
    ensures Steps(lib, h, c, k).Some?
    decreases k
  {
    if k > 0 { StepsPrefix(lib, h, Step(lib, h, c).value, n - 1, k - 1); }
  }

  // ---------- Statements ----------

  /** The code of a statement, from `c`, on each outcome of the interpreter.  Only a read of a
      variable without a value goes unnoticed. */
  ghost predicate StmtOutcome(p: Program, k: nat, cx: LCx, env: Env, s: Stmt, g: Graph, c: Config, fuel: nat, n: nat, c1: Config)
    requires k <= |p.fns| && EnvShape(env)
  {
    match Exec(p, k, env, s, c.st.mem, fuel)
    case Ok(_, _) => StmtDone(p, k, cx, env, s, g, c, fuel, n, c1)
    case Fail(f) => f != Uninit ==> Breaks(Lib(p, k), LowerStmt(g, cx, s).0, c, n, c1, f)
    case Timeout => Runs(Lib(p, k), LowerStmt(g, cx, s).0, c, n, c1) && n >= fuel
  }

  lemma {:induction false} StatementRuns(p: Program, k: nat, cx: LCx, env: Env, s: Stmt, g: Graph, c: Config, fuel: nat)
    returns (n: nat, c1: Config)
    requires k <= |p.fns| && CodeReady(p, k) && Placed(cx, env, g, c) && StmtReady(cx, s)
    ensures StmtOutcome(p, k, cx, env, s, g, c, fuel, n, c1)
  {
    AllRun(p, k);
    hide Callees, CodeReady, Match, Fits, Here, Extends, LowerStmt, Exec, Steps, StmtDone;
    n, c1 := 0, c;
    var r := Exec(p, k, env, s, c.st.mem, fuel);
    if r.Ok? {
      n, c1 := SimStmt(p, k, cx, env, s, g, c, fuel);
    } else if r != Fail(Uninit) {
      n, c1 := FaultStmt(p, k, cx, env, s, g, c, fuel, if r.Fail? then Some(r.fault) else None);
    }
  }

  /** A finished statement: its code halts at the end, with the interpreter's memory and variables. */
  lemma LoweringPreserves(p: Program, k: nat, cx: LCx, env: Env, s: Stmt, g: Graph, c: Config, fuel: nat)
    requires k <= |p.fns| && CodeReady(p, k) && Placed(cx, env, g, c) && StmtReady(cx, s)
    requires Exec(p, k, env, s, c.st.mem, fuel).Ok?
    ensures var r := Exec(p, k, env, s, c.st.mem, fuel);
            exists n, c1 ::
              && HaltsAt(Lib(p, k), LowerStmt(g, cx, s).0, c, n, c1) && Here(LowerStmt(g, cx, s).0, c1)
              && c1.st.mem == r.mem && Match(CxAfter(cx, s, LowerStmt(g, cx, s).1), EnvAfter(env, s, r.value), c1.st)
  {
    hide Callees, CodeReady, Match, Fits, Exec, LowerStmt, Steps;
    var n, c1 := StatementRuns(p, k, cx, env, s, g, c, fuel);
    HereStops(Lib(p, k), LowerStmt(g, cx, s).0, c1);
    assert HaltsAt(Lib(p, k), LowerStmt(g, cx, s).0, c, n, c1);
  }

  ghost predicate Terminates(p: Program, k: nat, env: Env, s: Stmt, m: Mem)
    requires k <= |p.fns| && EnvShape(env)
  {
    exists fuel: nat :: Exec(p, k, env, s, m, fuel).Ok?
  }

  ghost predicate FaultsWith(p: Program, k: nat, env: Env, s: Stmt, m: Mem, f: Fault)
    requires k <= |p.fns| && EnvShape(env)
  {
    exists fuel: nat :: Exec(p, k, env, s, m, fuel) == Fail(f)
  }

  ghost predicate Spins(p: Program, k: nat, env: Env, s: Stmt, m: Mem)
    requires k <= |p.fns| && EnvShape(env)
  {
    forall fuel: nat :: Exec(p, k, env, s, m, fuel).Timeout?
  }

  /** No run of the statement reads a variable without a value. */
  ghost predicate NeverUninit(p: Program, k: nat, env: Env, s: Stmt, m: Mem)
    requires k <= |p.fns| && EnvShape(env)
  {
    forall fuel: nat :: Exec(p, k, env, s, m, fuel) != Fail(Uninit)
  }

  /** What one outcome of the interpreter says about the code. */
  ghost predicate StmtShows(lib: Library, r: Res<seq<Value>>, h: Graph, c: Config, fuel: nat) {
    match r
    case Ok(_, _) => Ends(lib, h, c)
    case Fail(f) => Breaking(lib, h, c, f)
    case Timeout => Steps(lib, h, c, fuel).Some?
  }

  lemma OutcomeShows(p: Program, k: nat, cx: LCx, env: Env, s: Stmt, g: Graph, c: Config, fuel: nat)
    requires k <= |p.fns| && CodeReady(p, k) && Placed(cx, env, g, c) && StmtReady(cx, s) && NeverUninit(p, k, env, s, c.st.mem)
    ensures StmtShows(Lib(p, k), Exec(p, k, env, s, c.st.mem, fuel), LowerStmt(g, cx, s).0, c, fuel)
  {
    hide Match, Fits, Here, Extends, LowerStmt, Exec, Steps, CodeReady;
    var r, h := Exec(p, k, env, s, c.st.mem, fuel), LowerStmt(g, cx, s).0;
    var n, c1 := StatementRuns(p, k, cx, env, s, g, c, fuel);
    if r.Timeout? { StepsPrefix(Lib(p, k), h, c, n, fuel); }
  }

  /** The code reaches its end if and only if the statement terminates, stops at something it
      cannot execute if and only if the statement faults, for the same reason, and runs forever if
      and only if the statement does. */
  ghost predicate StmtAgrees(p: Program, k: nat, env: Env, s: Stmt, h: Graph, c: Config)
    requires k <= |p.fns| && EnvShape(env)
  {
    && (Terminates(p, k, env, s, c.st.mem) <==> Ends(Lib(p, k), h, c))
    && (forall f :: FaultsWith(p, k, env, s, c.st.mem, f) <==> Breaking(Lib(p, k), h, c, f))
    && (Spins(p, k, env, s, c.st.mem) <==> RunsForever(Lib(p, k), h, c))
  }

  lemma SameBehaviour(p: Program, k: nat, cx: LCx, env: Env, s: Stmt, g: Graph, c: Config)
    requires k <= |p.fns| && CodeReady(p, k) && Placed(cx, env, g, c) && StmtReady(cx, s) && NeverUninit(p, k, env, s, c.st.mem)
    ensures StmtAgrees(p, k, env, s, LowerStmt(g, cx, s).0, c)
  {
    assert EnvShape(env);
    hide Placed, CodeReady, StmtReady, LowerStmt, Exec, StmtShows, StmtAgrees, NeverUninit;
    forall fuel: nat
      ensures StmtShows(Lib(p, k), Exec(p, k, env, s, c.st.mem, fuel), LowerStmt(g, cx, s).0, c, fuel)
    {
      OutcomeShows(p, k, cx, env, s, g, c, fuel);
    }
    StmtShowsAgrees(p, k, env, s, LowerStmt(g, cx, s).0, c);
  }

  /** From what every outcome shows to the equivalences. */
  lemma StmtShowsAgrees(p: Program, k: nat, env: Env, s: Stmt, h: Graph, c: Config)
    requires k <= |p.fns| && EnvShape(env)
    requires forall fuel: nat :: StmtShows(Lib(p, k), Exec(p, k, env, s, c.st.mem, fuel), h, c, fuel)
    ensures StmtAgrees(p, k, env, s, h, c)
  {
    hide Exec, Steps, Ends, Breaking;
    var lib, m := Lib(p, k), c.st.mem;
    OneBehaviour(lib, h, c);
    if fuel: nat :| Exec(p, k, env, s, m, fuel).Ok? {
      assert StmtShows(lib, Exec(p, k, env, s, m, fuel), h, c, fuel);
    } else if fuel: nat :| Exec(p, k, env, s, m, fuel).Fail? {
      var f := Exec(p, k, env, s, m, fuel).fault;
      assert Exec(p, k, env, s, m, fuel) == Fail(f);
      assert StmtShows(lib, Exec(p, k, env, s, m, fuel), h, c, fuel);
      forall f' | FaultsWith(p, k, env, s, m, f') ensures Breaking(lib, h, c, f') {
        var again: nat :| Exec(p, k, env, s, m, again) == Fail(f');
        assert StmtShows(lib, Exec(p, k, env, s, m, again), h, c, again);
      }
      forall f' | Breaking(lib, h, c, f') ensures f' == f { BreakIsUnique(lib, h, c, f, f'); }
    } else {
      forall fuel: nat ensures Steps(lib, h, c, fuel).Some? && Exec(p, k, env, s, m, fuel).Timeout? {
        assert StmtShows(lib, Exec(p, k, env, s, m, fuel), h, c, fuel);
      }
    }
  }

  /** Code does one of the three things only. */
  lemma OneBehaviour(lib: Library, h: Graph, c: Config)
    ensures forall f :: Breaking(lib, h, c, f) ==> !Ends(lib, h, c) && !RunsForever(lib, h, c)
    ensures Ends(lib, h, c) ==> !RunsForever(lib, h, c)
  {
    hide RunsForever, Why;
    if Ends(lib, h, c) {
      var n: nat, c1: Config :| Runs(lib, h, c, n, c1) && Here(h, c1);
      HereStops(lib, h, c1);
      HaltNotForever(lib, h, c, n, c1);
    }
    forall f | Breaking(lib, h, c, f)
      ensures !Ends(lib, h, c) && !RunsForever(lib, h, c)
    {
      var k: nat, c2: Config :| Breaks(lib, h, c, k, c2, f);
      HaltNotForever(lib, h, c, k, c2);
      if Ends(lib, h, c) {
        var n: nat, c1: Config :| Runs(lib, h, c, n, c1) && Here(h, c1);
        EndNotBreak(lib, h, c, n, c1, k, c2, f);
      }
    }
  }

  /** The check on the program is all that is needed. */
  lemma CheckedBehaviour(p: Program, k: nat, cx: LCx, env: Env, ok: seq<bool>, s: Stmt, g: Graph, c: Config)
    requires k <= |p.fns| && CodeReady(p, k) && Placed(cx, env, g, c) && StmtReady(cx, s)
    requires Definite.Start(p, k, env, ok, c.st.mem) && Definite.StmtSure(env.tags, ok, env.depth, s)
    ensures StmtAgrees(p, k, env, s, LowerStmt(g, cx, s).0, c)
  {
    forall fuel: nat
      ensures Exec(p, k, env, s, c.st.mem, fuel) != Fail(Uninit)
    {
      Definite.ExecKnown(p, k, env, ok, s, c.st.mem, fuel);
    }
    SameBehaviour(p, k, cx, env, s, g, c);
  }

  /** Without it the code goes on where the statement faults: it reads whatever is there. */
  lemma UninitGoesUnnoticed(p: Program, k: nat, cx: LCx, env: Env, x: Name, g: Graph, c: Config)
    requires k <= |p.fns| && Placed(cx, env, g, c) && ExprReady(cx, Get(x))
    requires env.vals[Find(env.tags, x).value] == Undef
    ensures forall fuel: nat :: Exec(p, k, env, Do(Get(x)), c.st.mem, fuel) == Fail(Uninit)
    ensures Ends(Lib(p, k), LowerStmt(g, cx, Do(Get(x))).0, c)
  {
    var h := LowerStmt(g, cx, Do(Get(x))).0;
    var home := HomeOf(cx, x).value;
    if home.InSlot? {
      var v := if home.slot in c.st.slots then c.st.slots[home.slot] else Undef;
      var n, c1 := SimDefine(Lib(p, k), g, LoadVar(g.nregs, home.slot), c, v, c.st.mem);
      assert Runs(Lib(p, k), h, c, n, c1) && Here(h, c1);
    } else {
      assert h == g && Runs(Lib(p, k), h, c, 0, c) && Here(h, c);
    }
  }

  // ---------- Functions ----------

  ghost predicate FnNeverUninit(p: Program, j: nat, rid: nat, vs: seq<Value>, m: Mem)
    requires j < |p.fns|
  {
    forall fuel: nat :: RunFn(p, j, rid, vs, m, fuel) != Fail(Uninit)
  }

  /** The code returns `v` with memory `m1`. */
  ghost predicate CodeReturns(lib: Library, g: Graph, c: Config, v: Value, m1: Mem) {
    exists n: nat, c1: Config :: Returns(lib, g, c, n, c1, v) && c1.st.mem == m1
  }

  lemma ReturnHalts(lib: Library, g: Graph, c: Config, n: nat, c1: Config, v: Value)
    requires Returns(lib, g, c, n, c1, v)
    ensures HaltsAt(lib, g, c, n, c1)
  {
  }

  lemma ReturnIsOnly(lib: Library, g: Graph, c: Config, v: Value, m1: Mem)
    requires CodeReturns(lib, g, c, v, m1)
    ensures !RunsForever(lib, g, c) && forall f :: !Breaking(lib, g, c, f)
    ensures forall w, m2 :: CodeReturns(lib, g, c, w, m2) ==> w == v && m2 == m1
  {
    hide Steps, Step, RunsForever;
    var n: nat, c1: Config :| Returns(lib, g, c, n, c1, v) && c1.st.mem == m1;
    ReturnHalts(lib, g, c, n, c1, v);
    HaltNotForever(lib, g, c, n, c1);
    forall f | Breaking(lib, g, c, f) ensures false {
      var k: nat, c2: Config :| Breaks(lib, g, c, k, c2, f);
      HaltingIsUnique(lib, g, c, n, c1, k, c2);
    }
    forall w, m2 | CodeReturns(lib, g, c, w, m2)
      ensures w == v && m2 == m1
    {
      var k: nat, c2: Config :| Returns(lib, g, c, k, c2, w) && c2.st.mem == m2;
      ReturnHalts(lib, g, c, k, c2, w);
      HaltingIsUnique(lib, g, c, n, c1, k, c2);
    }
  }

  ghost predicate FnReturns(p: Program, j: nat, rid: nat, vs: seq<Value>, m: Mem, v: Value, m1: Mem)
    requires j < |p.fns|
  {
    exists fuel: nat :: RunFn(p, j, rid, vs, m, fuel) == Ok(v, m1)
  }

  ghost predicate FnFaults(p: Program, j: nat, rid: nat, vs: seq<Value>, m: Mem, f: Fault)
    requires j < |p.fns|
  {
    exists fuel: nat :: RunFn(p, j, rid, vs, m, fuel) == Fail(f)
  }

  ghost predicate FnSpins(p: Program, j: nat, rid: nat, vs: seq<Value>, m: Mem)
    requires j < |p.fns|
  {
    forall fuel: nat :: RunFn(p, j, rid, vs, m, fuel).Timeout?
  }

  /** The function and its code return the same results with the same memory, fault together for
      the same reason, and run forever together. */
  ghost predicate FnAgrees(p: Program, j: nat, rid: nat, vs: seq<Value>, m: Mem, h: Graph)
    requires j < |p.fns|
  {
    var c := Start(rid, vs, m);
    && (forall v, m1 :: FnReturns(p, j, rid, vs, m, v, m1) <==> CodeReturns(Lib(p, j), h, c, v, m1))
    && (forall f :: FnFaults(p, j, rid, vs, m, f) <==> Breaking(Lib(p, j), h, c, f))
    && (FnSpins(p, j, rid, vs, m) <==> RunsForever(Lib(p, j), h, c))
  }

  /** What one outcome of the interpreter says about the code. */
  ghost predicate FnShows(lib: Library, r: Res<Value>, h: Graph, c: Config, fuel: nat) {
    && (r.Ok? ==> CodeReturns(lib, h, c, r.value, r.mem))
    && (r.Fail? ==> Breaking(lib, h, c, r.fault))
    && (r.Timeout? ==> Steps(lib, h, c, fuel).Some?)
  }

  lemma FnOutcomeShows(p: Program, j: nat, rid: nat, vs: seq<Value>, m: Mem, fuel: nat)
    requires j < |p.fns| && CodeReady(p, j + 1) && |vs| == |p.fns[j].params| && FnNeverUninit(p, j, rid, vs, m)
    ensures FnShows(Lib(p, j), RunFn(p, j, rid, vs, m, fuel), LowerFn(p.fns[j]), Start(rid, vs, m), fuel)
  {
    hide LowerFn, RunFn, Steps;
    var r, h, c := RunFn(p, j, rid, vs, m, fuel), LowerFn(p.fns[j]), Start(rid, vs, m);
    var n, c1 := FunctionRuns(p, j, rid, vs, m, fuel);
    if r.Timeout? { StepsPrefix(Lib(p, j), h, c, n, fuel); }
  }

  /** From what every outcome shows to the equivalences. */
  lemma ShowsAgrees(p: Program, j: nat, rid: nat, vs: seq<Value>, m: Mem, h: Graph)
    requires j < |p.fns|
    requires forall fuel: nat :: FnShows(Lib(p, j), RunFn(p, j, rid, vs, m, fuel), h, Start(rid, vs, m), fuel)
    ensures FnAgrees(p, j, rid, vs, m, h)
  {
    hide RunFn, Steps, CodeReturns, Breaking;
    var lib, c := Lib(p, j), Start(rid, vs, m);
    forall v, m1 | CodeReturns(lib, h, c, v, m1)
      ensures FnReturns(p, j, rid, vs, m, v, m1)
    {
      CodeReturnIsRun(p, j, rid, vs, m, h, v, m1);
    }
    forall v, m1 | FnReturns(p, j, rid, vs, m, v, m1)
      ensures CodeReturns(lib, h, c, v, m1)
    {
      var fuel: nat :| RunFn(p, j, rid, vs, m, fuel) == Ok(v, m1);
      assert FnShows(lib, RunFn(p, j, rid, vs, m, fuel), h, c, fuel);
    }
    NothingElse(p, j, rid, vs, m, h);
  }

  lemma CodeReturnIsRun(p: Program, j: nat, rid: nat, vs: seq<Value>, m: Mem, h: Graph, v: Value, m1: Mem)
    requires j < |p.fns|
    requires forall fuel: nat :: FnShows(Lib(p, j), RunFn(p, j, rid, vs, m, fuel), h, Start(rid, vs, m), fuel)
    requires CodeReturns(Lib(p, j), h, Start(rid, vs, m), v, m1)
    ensures FnReturns(p, j, rid, vs, m, v, m1)
  {
    hide RunFn, Steps, CodeReturns, Breaking;
    var lib, c := Lib(p, j), Start(rid, vs, m);
    ReturnIsOnly(lib, h, c, v, m1);
    if forall fuel: nat :: !RunFn(p, j, rid, vs, m, fuel).Ok? {
      forall fuel: nat ensures Steps(lib, h, c, fuel).Some? {
        assert FnShows(lib, RunFn(p, j, rid, vs, m, fuel), h, c, fuel);
      }
      assert false;
    } else {
      var fuel: nat :| RunFn(p, j, rid, vs, m, fuel).Ok?;
      assert FnShows(lib, RunFn(p, j, rid, vs, m, fuel), h, c, fuel);
    }
  }

  lemma NothingElse(p: Program, j: nat, rid: nat, vs: seq<Value>, m: Mem, h: Graph)
    requires j < |p.fns|
    requires forall fuel: nat :: FnShows(Lib(p, j), RunFn(p, j, rid, vs, m, fuel), h, Start(rid, vs, m), fuel)
    ensures forall f :: FnFaults(p, j, rid, vs, m, f) <==> Breaking(Lib(p, j), h, Start(rid, vs, m), f)
    ensures FnSpins(p, j, rid, vs, m) <==> RunsForever(Lib(p, j), h, Start(rid, vs, m))
  {
    hide RunFn, Steps, CodeReturns, Breaking;
    var lib, c := Lib(p, j), Start(rid, vs, m);
    OneBehaviour(lib, h, c);
    if fuel: nat :| RunFn(p, j, rid, vs, m, fuel).Ok? {
      var r := RunFn(p, j, rid, vs, m, fuel);
      assert FnShows(lib, r, h, c, fuel);
      ReturnIsOnly(lib, h, c, r.value, r.mem);
    } else if fuel: nat :| RunFn(p, j, rid, vs, m, fuel).Fail? {
      var f := RunFn(p, j, rid, vs, m, fuel).fault;
      assert RunFn(p, j, rid, vs, m, fuel) == Fail(f);
      assert FnShows(lib, RunFn(p, j, rid, vs, m, fuel), h, c, fuel);
      forall f' | FnFaults(p, j, rid, vs, m, f') ensures Breaking(lib, h, c, f') {
        var again: nat :| RunFn(p, j, rid, vs, m, again) == Fail(f');
        assert FnShows(lib, RunFn(p, j, rid, vs, m, again), h, c, again);
      }
      forall f' | Breaking(lib, h, c, f') ensures f' == f { BreakIsUnique(lib, h, c, f, f'); }
    } else {
      forall fuel: nat ensures Steps(lib, h, c, fuel).Some? && RunFn(p, j, rid, vs, m, fuel).Timeout? {
        assert FnShows(lib, RunFn(p, j, rid, vs, m, fuel), h, c, fuel);
      }
    }
  }

  /** A function returns a result, faults or runs forever if and only if its code
      does, and the code's result and memory are the interpreter's. */
  lemma FunctionBehaviour(p: Program, j: nat, rid: nat, vs: seq<Value>, m: Mem)
    requires j < |p.fns| && CodeReady(p, j + 1) && |vs| == |p.fns[j].params| && FnNeverUninit(p, j, rid, vs, m)
    ensures FnAgrees(p, j, rid, vs, m, LowerFn(p.fns[j]))
  {
    hide LowerFn, RunFn, Steps, FnShows, FnAgrees, FnNeverUninit;
    forall fuel: nat
      ensures FnShows(Lib(p, j), RunFn(p, j, rid, vs, m, fuel), LowerFn(p.fns[j]), Start(rid, vs, m), fuel)
    {
      FnOutcomeShows(p, j, rid, vs, m, fuel);
    }
    ShowsAgrees(p, j, rid, vs, m, LowerFn(p.fns[j]));
  }

  /** For a checked program that holds of every function, whatever its arguments. */
  lemma CheckedFunctionBehaviour(p: Program, j: nat, rid: nat, vs: seq<Value>, m: Mem)
    requires j < |p.fns| && CodeReady(p, j + 1) && |vs| == |p.fns[j].params|
    requires Definite.FnsSure(p, |p.fns|) && Undef !in vs && Definite.Whole(m)
    ensures FnAgrees(p, j, rid, vs, m, LowerFn(p.fns[j]))
  {
    hide LowerFn, RunFn, FnAgrees;
    forall fuel: nat
      ensures RunFn(p, j, rid, vs, m, fuel) != Fail(Uninit)
    {
      Definite.SureNeverUninit(p, j, rid, vs, m, fuel);
    }
    FunctionBehaviour(p, j, rid, vs, m);
  }
}
