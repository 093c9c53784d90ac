/** Runs that do not finish are preserved too: where the interpreter faults, the emitted blocks
    stop in front of the instruction or branch that cannot be executed, and where it runs out
    of fuel, they run for at least that many steps.

    The exception is the read of a variable whose declaration was not executed: the interpreter
    faults there, while the code reads whatever the slot or register holds. */
module Faults {
  import opened Basics
  import opened RegionTypes
  import opened Lang
  import opened Memory
  import opened Interp
  import opened Ir
  import opened Lowering
  import opened Growth
  import opened Homes
  import opened Running
  import opened FillLoop
  import opened Simulation
  import opened Correctness

  /** The interpreter does not finish: it faults in a way that the code notices, or it runs out of
      fuel; `why` tells which. */
  ghost predicate Unfinished<T>(r: Res<T>, why: Option<Fault>) {
    match why
    case None => r.Timeout?
    case Some(f) => r.Fail? && r.fault == f && f != Uninit
  }

  /** So does the code: it stops at something that it cannot execute, for the same fault, or it is
      still running after `fuel` steps. */
  ghost predicate Cut(lib: Library, h: Graph, c: Config, n: nat, c1: Config, fuel: nat, why: Option<Fault>) {
    match why
    case None => Runs(lib, h, c, n, c1) && n >= fuel
    case Some(f) => Breaks(lib, h, c, n, c1, f)
  }

  lemma CutGrows(lib: Library, g: Graph, h: Graph, c: Config, n: nat, c1: Config, fuel: nat, why: Option<Fault>)
    requires Cut(lib, g, c, n, c1, fuel, why) && Extends(g, h)
    ensures Cut(lib, h, c, n, c1, fuel, why)
  {
    StepsWiden(lib, g, h, c, n);
    assert why.Some? ==> At(h, c1.block, c1.idx) == At(g, c1.block, c1.idx);
  }

  lemma CutThen(lib: Library, g: Graph, h: Graph, c: Config, n: nat, c1: Config, k: nat, c2: Config, fuel: nat, why: Option<Fault>)
    requires Runs(lib, g, c, n, c1) && Extends(g, h) && Cut(lib, h, c1, k, c2, fuel, why)
    ensures Cut(lib, h, c, n + k, c2, fuel, why)
  {
    RunsThen(lib, g, h, c, n, c1, k, c2);
  }

  /** A round of a loop takes at least one step. */
  lemma CutAgain(lib: Library, h: Graph, c: Config, n: nat, c1: Config, k: nat, c2: Config, fuel: nat, why: Option<Fault>)
    requires Runs(lib, h, c, n, c1) && n > 0 && fuel > 0 && Cut(lib, h, c1, k, c2, fuel - 1, why)
    ensures Cut(lib, h, c, n + k, c2, fuel, why)
  {
    RunsThen(lib, h, h, c, n, c1, k, c2);
  }

  /** An emitted instruction that cannot be performed. */
  lemma InstrBreaks(lib: Library, g: Graph, h: Graph, i: Instr, c: Config, n: nat, c1: Config, fuel: nat)
    requires Runs(lib, g, c, n, c1) && Here(g, c1) && !i.CallI? && Perform(lib.classes, i, c1.st) == None
    requires h.blocks == Emit(g, i).blocks
    ensures Cut(lib, h, c, n, c1, fuel, Some(Cause(lib.classes, i, c1.st)))
  {
    EmitNested(g, i);
    assert Extends(g, h) by { assert forall b: nat, x: nat :: At(h, b, x) == At(Emit(g, i), b, x); }
    StepsWiden(lib, g, h, c, n);
    assert At(h, c1.block, c1.idx) == Some(I(i));
  }

  /** The fault of a branch on something that is no boolean. */
  function NoBoolean(v: Value): Fault { if v.VInt? then Width else Stuck }

  lemma BranchBreaks(lib: Library, g: Graph, h: Graph, t: Term, b: nat, c: Config, n: nat, c1: Config, v: Value, fuel: nat)
    requires Runs(lib, g, c, n, c1) && Here(g, c1) && Waiting(g, b)
    requires t.CondBr? && Operate(t.c, c1.st) == Some(v) && !v.VBool?
    requires h == GoTo(g, t, b) || h == Enter(g, t, b)
    ensures Cut(lib, h, c, n, c1, fuel, Some(NoBoolean(v)))
  {
    GoToGrows(g, t, b);
    EnterGrows(g, t, b);
    StepsWiden(lib, g, h, c, n);
    assert At(h, c1.block, c1.idx) == Some(T(t));
  }

  // ---------- Expressions ----------

  lemma {:induction false} FaultExpr(p: Program, k: nat, cx: LCx, env: Env, e: Expr, g: Graph, c: Config, fuel: nat, why: Option<Fault>)
    returns (n: nat, c1: Config)
    requires Ready(p, k, cx, env, g, c) && ExprReady(cx, e)
    requires Unfinished(Eval(p, k, env, e, c.st.mem, fuel), why)
    ensures Cut(Lib(p, k), LowerExpr(g, cx, e).0, c, n, c1, fuel, why)
    decreases e, 2
  {
    hide Callees, Match, Fits, Here, Runs, Extends, Cut;
    n, c1 := 0, c;
    match e
    case Num(_) => assert false;
    case Get(x) => NamesResolve(p, k, cx, env, g, c, e); assert false;
    case Bin(_, a, b) => n, c1 := FaultTwoThen(p, k, cx, env, e, a, b, g, c, fuel, why);
    case Lit(es) => n, c1 := FaultLit(p, k, cx, env, e, g, c, fuel, why);
    case Fill(a, b) => n, c1 := FaultFill(p, k, cx, env, e, g, c, fuel, why);
    case Elem(a, b) => n, c1 := FaultTwoThen(p, k, cx, env, e, a, b, g, c, fuel, why);
    case Length(_) => n, c1 := FaultOneThen(p, k, cx, env, e, e.arr, g, c, fuel, why);
    case Field(_, _) => n, c1 := FaultOneThen(p, k, cx, env, e, e.obj, g, c, fuel, why);
    case New(_, _) => n, c1 := FaultNew(p, k, cx, env, e, g, c, fuel, why);
    case Call(_, _, _) => n, c1 := FaultCall(p, k, cx, env, e, g, c, fuel, why);
  }

  lemma NamesResolve(p: Program, k: nat, cx: LCx, env: Env, g: Graph, c: Config, e: Expr)
    requires Ready(p, k, cx, env, g, c) && ExprReady(cx, e) && e.Get?
    ensures Find(env.tags, e.x).Some?
  {
  }

  lemma FaultTwo(p: Program, k: nat, cx: LCx, env: Env, e: Expr, a: Expr, b: Expr, g: Graph, c: Config, fuel: nat, why: Option<Fault>)
    returns (n: nat, c1: Config)
    requires Ready(p, k, cx, env, g, c) && ExprReady(cx, a) && ExprReady(cx, b) && a < e && b < e
    requires var r := Eval(p, k, env, a, c.st.mem, fuel);
             Unfinished(r, why) || (r.Ok? && Unfinished(Eval(p, k, env, b, r.mem, fuel), why))
    ensures Cut(Lib(p, k), LowerExpr(LowerExpr(g, cx, a).0, cx, b).0, c, n, c1, fuel, why)
    decreases e, 0
  {
    hide Callees, Match, Fits, Here, Extends, Cut, Eval, LowerExpr, Steps;
    var r := Eval(p, k, env, a, c.st.mem, fuel);
    var g1 := LowerExpr(g, cx, a).0;
    if r.Ok? {
      var n1, ca := RunExpr(p, k, cx, env, a, g, c, fuel);
      ExprNested(g1, cx, b);
      var n2;
      n2, c1 := FaultExpr(p, k, cx, env, b, g1, ca, fuel, why);
      FirstThenCut(Lib(p, k), g1, LowerExpr(g1, cx, b).0, c, n1, ca, n2, c1, fuel, why);
      n := n1 + n2;
    } else {
      n, c1 := FaultExpr(p, k, cx, env, a, g, c, fuel, why);
      IsOpen(p, k, cx, env, g, c);
      ExprNested(g, cx, a);
      ExprNested(g1, cx, b);
      CutGrows(Lib(p, k), g1, LowerExpr(g1, cx, b).0, c, n, c1, fuel, why);
    }
  }

  lemma IsOpen(p: Program, k: nat, cx: LCx, env: Env, g: Graph, c: Config)
    requires Ready(p, k, cx, env, g, c)
    ensures Open(g) && Here(g, c)
  {
  }

  lemma FirstThenCut(lib: Library, g: Graph, h: Graph, c: Config, n: nat, c1: Config, k: nat, c2: Config, fuel: nat, why: Option<Fault>)
    requires Runs(lib, g, c, n, c1) && Nested(g, h) && Cut(lib, h, c1, k, c2, fuel, why)
    ensures Cut(lib, h, c, n + k, c2, fuel, why)
  {
    CutThen(lib, g, h, c, n, c1, k, c2, fuel, why);
  }

  lemma CutInside(lib: Library, g: Graph, h: Graph, c: Config, n: nat, c1: Config, fuel: nat, why: Option<Fault>)
    requires Cut(lib, g, c, n, c1, fuel, why) && Nested(g, h)
    ensures Cut(lib, h, c, n, c1, fuel, why)
  {
    CutGrows(lib, g, h, c, n, c1, fuel, why);
  }

  /** With both operands evaluated, the operation itself has failed. */
  lemma TwoPerform(p: Program, k: nat, env: Env, e: Expr, a: Expr, b: Expr, m: Mem, fuel: nat, dst: nat, x: Operand, y: Operand, st: State)
    requires k <= |p.fns| && EnvShape(env) && ((e.Bin? && e.l == a && e.r == b) || e == Elem(a, b))
    requires Eval(p, k, env, e, m, fuel).Fail? && Eval(p, k, env, a, m, fuel).Ok?
    requires var r := Eval(p, k, env, a, m, fuel);
             var q := Eval(p, k, env, b, r.mem, fuel);
             q.Ok? && st.mem == q.mem && Operate(x, st) == Some(r.value) && Operate(y, st) == Some(q.value)
    ensures Perform(p.classes, TwoInstr(e, dst, x, y), st) == None
    ensures Cause(p.classes, TwoInstr(e, dst, x, y), st) == Eval(p, k, env, e, m, fuel).fault
  {
    hide BinOp, LoadCell, Deref, CheckCell;
  }

  lemma TwoFails(p: Program, k: nat, env: Env, e: Expr, a: Expr, b: Expr, m: Mem, fuel: nat, why: Option<Fault>)
    requires k <= |p.fns| && EnvShape(env) && ((e.Bin? && e.l == a && e.r == b) || e == Elem(a, b))
    requires Unfinished(Eval(p, k, env, e, m, fuel), why)
    ensures var r := Eval(p, k, env, a, m, fuel);
            if !r.Ok? then Unfinished(r, why)
            else if Eval(p, k, env, b, r.mem, fuel).Ok? then why.Some?
            else Unfinished(Eval(p, k, env, b, r.mem, fuel), why)
  {
  }

  /** Both operands, then the instruction on them. */
  lemma FaultTwoThen(p: Program, k: nat, cx: LCx, env: Env, e: Expr, a: Expr, b: Expr, g: Graph, c: Config, fuel: nat, why: Option<Fault>)
    returns (n: nat, c1: Config)
    requires Ready(p, k, cx, env, g, c) && ExprReady(cx, e) && ((e.Bin? && e.l == a && e.r == b) || e == Elem(a, b))
    requires Unfinished(Eval(p, k, env, e, c.st.mem, fuel), why)
    ensures Cut(Lib(p, k), LowerExpr(g, cx, e).0, c, n, c1, fuel, why)
    decreases e, 1
  {
    hide Callees, Match, Fits, Here, Extends, Cut, Runs, Steps, Nested, Eval, LowerExpr, Perform, Unfinished, Find;
    var r := Eval(p, k, env, a, c.st.mem, fuel);
    var g1, x := LowerExpr(g, cx, a).0, LowerExpr(g, cx, a).1;
    var g2, y := LowerExpr(g1, cx, b).0, LowerExpr(g1, cx, b).1;
    var i := TwoInstr(e, g2.nregs, x, y);
    TwoCode(g, cx, e, a, b);
    TwoFails(p, k, env, e, a, b, c.st.mem, fuel, why);
    if r.Ok? && Eval(p, k, env, b, r.mem, fuel).Ok? {
      var q := Eval(p, k, env, b, r.mem, fuel);
      n, c1 := SimTwo(p, k, cx, env, e, a, b, g, c, fuel);
      ComputedKept(Lib(p, k), g, g2, y, c, n, c1, q.value, q.mem);
      IsFault(Eval(p, k, env, e, c.st.mem, fuel), why);
      TwoPerform(p, k, env, e, a, b, c.st.mem, fuel, g2.nregs, x, y, c1.st);
      InstrBreaks(Lib(p, k), g2, Define(g2, i), i, c, n, c1, fuel);
    } else {
      n, c1 := FaultTwo(p, k, cx, env, e, a, b, g, c, fuel, why);
      IsOpen(p, k, cx, env, g, c);
      ThenOpen(g, cx, e, a, b);
      EmitNested(g2, i);
      CutInside(Lib(p, k), g2, Define(g2, i), c, n, c1, fuel, why);
    }
  }

  lemma IsFault<T>(r: Res<T>, why: Option<Fault>)
    requires Unfinished(r, why) && why.Some?
    ensures r.Fail? && why == Some(r.fault)
  {
  }

  lemma ThenOpen(g: Graph, cx: LCx, e: Expr, a: Expr, b: Expr)
    requires Open(g) && a < e && b < e
    ensures Open(LowerExpr(g, cx, a).0) && Open(LowerExpr(LowerExpr(g, cx, a).0, cx, b).0)
  {
    TwoNested(g, cx, e, a, b);
  }

  function OneInstr(e: Expr, dst: nat, x: Operand): Instr
    requires e.Length? || e.Field?
  {
    if e.Length? then LengthI(dst, x) else LoadF(dst, x, e.f)
  }

  lemma OneFails(p: Program, k: nat, cx: LCx, env: Env, e: Expr, a: Expr, m: Mem, fuel: nat, why: Option<Fault>, g: Graph)
    requires k <= |p.fns| && EnvShape(env) && (e == Length(a) || (e.Field? && e.obj == a))
    requires Unfinished(Eval(p, k, env, e, m, fuel), why)
    ensures if Eval(p, k, env, a, m, fuel).Ok? then why.Some? else Unfinished(Eval(p, k, env, a, m, fuel), why)
    ensures var g1, x := LowerExpr(g, cx, a).0, LowerExpr(g, cx, a).1;
            LowerExpr(g, cx, e).0 == Define(g1, OneInstr(e, g1.nregs, x))
  {
  }

  lemma OnePerform(p: Program, k: nat, env: Env, e: Expr, a: Expr, m: Mem, fuel: nat, dst: nat, x: Operand, st: State)
    requires k <= |p.fns| && EnvShape(env) && (e == Length(a) || (e.Field? && e.obj == a))
    requires Eval(p, k, env, e, m, fuel).Fail?
    requires var r := Eval(p, k, env, a, m, fuel); r.Ok? && st.mem == r.mem && Operate(x, st) == Some(r.value)
    ensures Perform(p.classes, OneInstr(e, dst, x), st) == None
    ensures Cause(p.classes, OneInstr(e, dst, x), st) == Eval(p, k, env, e, m, fuel).fault
  {
    hide LoadLength, LoadField;
  }

  /** One operand, then the instruction on it. */
  lemma FaultOneThen(p: Program, k: nat, cx: LCx, env: Env, e: Expr, a: Expr, g: Graph, c: Config, fuel: nat, why: Option<Fault>)
    returns (n: nat, c1: Config)
    requires Ready(p, k, cx, env, g, c) && ExprReady(cx, e) && (e == Length(a) || (e.Field? && e.obj == a))
    requires Unfinished(Eval(p, k, env, e, c.st.mem, fuel), why)
    ensures Cut(Lib(p, k), LowerExpr(g, cx, e).0, c, n, c1, fuel, why)
    decreases e, 1
  {
    hide Callees, Match, Fits, Here, Extends, Cut, Runs, Steps, Nested, Eval, LowerExpr, Perform, Unfinished, Find;
    var r := Eval(p, k, env, a, c.st.mem, fuel);
    var g1, x := LowerExpr(g, cx, a).0, LowerExpr(g, cx, a).1;
    var i := OneInstr(e, g1.nregs, x);
    OneFails(p, k, cx, env, e, a, c.st.mem, fuel, why, g);
    if r.Ok? {
      n, c1 := SimExpr(p, k, cx, env, a, g, c, fuel);
      ComputedKept(Lib(p, k), g, g1, x, c, n, c1, r.value, r.mem);
      IsFault(Eval(p, k, env, e, c.st.mem, fuel), why);
      OnePerform(p, k, env, e, a, c.st.mem, fuel, g1.nregs, x, c1.st);
      InstrBreaks(Lib(p, k), g1, Define(g1, i), i, c, n, c1, fuel);
    } else {
      n, c1 := FaultExpr(p, k, cx, env, a, g, c, fuel, why);
      IsOpen(p, k, cx, env, g, c);
      NowOpen(g, cx, a);
      EmitNested(g1, i);
      CutInside(Lib(p, k), g1, Define(g1, i), c, n, c1, fuel, why);
    }
  }

  lemma NowOpen(g: Graph, cx: LCx, e: Expr)
    requires Open(g)
    ensures Nested(g, LowerExpr(g, cx, e).0) && Open(LowerExpr(g, cx, e).0)
  {
    ExprNested(g, cx, e);
  }

  /** An instantiation that fails: the class is unknown, or the region is deleted. */
  lemma NewFails(p: Program, k: nat, cx: LCx, env: Env, e: Expr, m: Mem, fuel: nat, why: Option<Fault>, st: State, dst: nat)
    requires k <= |p.fns| && EnvShape(env) && SameHandles(cx, env, st) && ExprReady(cx, e) && e.New? && st.mem == m
    requires Unfinished(Eval(p, k, env, e, m, fuel), why)
    ensures why == Some(Cause(p.classes, NewI(dst, HandleOf(cx, e.regions), e.cls), st))
    ensures Perform(p.classes, NewI(dst, HandleOf(cx, e.regions), e.cls), st) == None
  {
    hide Find, GetHandle, FindFn;
    HandlesFound(cx, env, st, CallRegions(e.regions, Interp.Default(env).0)[0]);
    var j := HandleSame(cx.handles, env.handles, CallRegions(e.regions, Interp.Default(env).0)[0]);
  }

  lemma FaultNew(p: Program, k: nat, cx: LCx, env: Env, e: Expr, g: Graph, c: Config, fuel: nat, why: Option<Fault>)
    returns (n: nat, c1: Config)
    requires Ready(p, k, cx, env, g, c) && ExprReady(cx, e) && e.New?
    requires Unfinished(Eval(p, k, env, e, c.st.mem, fuel), why)
    ensures Cut(Lib(p, k), LowerExpr(g, cx, e).0, c, n, c1, fuel, why)
  {
    hide Callees, Find, Fits, Here, Cut, Eval, Perform, ExprOk, Unfinished;
    n, c1 := 0, c;
    NewFails(p, k, cx, env, e, c.st.mem, fuel, why, c.st, g.nregs);
    IsOpen(p, k, cx, env, g, c);
    assert Steps(Lib(p, k), g, c, 0) == Some(c);
    var i := NewI(g.nregs, HandleOf(cx, e.regions), e.cls);
    InstrBreaks(Lib(p, k), g, Define(g, i), i, c, 0, c, fuel);
  }

  lemma FaultFill(p: Program, k: nat, cx: LCx, env: Env, e: Expr, g: Graph, c: Config, fuel: nat, why: Option<Fault>)
    returns (n: nat, c1: Config)
    requires Ready(p, k, cx, env, g, c) && ExprReady(cx, e) && e.Fill?
    requires Unfinished(Eval(p, k, env, e, c.st.mem, fuel), why)
    ensures Cut(Lib(p, k), LowerExpr(g, cx, e).0, c, n, c1, fuel, why)
    decreases e, 1
  {
    hide Callees, Match, Fits, Here, Extends, Cut, Runs, Steps, Nested, LowerFill, AllocArray;
    var r := Eval(p, k, env, e.v, c.st.mem, fuel);
    var g1, x := LowerExpr(g, cx, e.v).0, LowerExpr(g, cx, e.v).1;
    var g2, y := LowerExpr(g1, cx, e.count).0, LowerExpr(g1, cx, e.count).1;
    var region := Lowering.Default(cx).1;
    assert LowerExpr(g, cx, e).0 == LowerFill(g2, region, x, y);
    if r.Ok? && Eval(p, k, env, e.count, r.mem, fuel).Ok? {
      var q := Eval(p, k, env, e.count, r.mem, fuel);
      n, c1 := SimTwo(p, k, cx, env, e, e.v, e.count, g, c, fuel);
      AllocFails(q.mem, Interp.Default(env).1, r.value, q.value, why);
      AllocBreaks(p, k, cx, env, g, g2, y, c, n, c1, r.value, q.value, q.mem, fuel);
      FillFirst(g2, region, x, y);
      CutGrows(Lib(p, k), Define(g2, AllocI(g2.nregs, region, y)), LowerFill(g2, region, x, y), c, n, c1, fuel, why);
    } else {
      n, c1 := FaultTwo(p, k, cx, env, e, e.v, e.count, g, c, fuel, why);
      IsOpen(p, k, cx, env, g, c);
      ThenOpen(g, cx, e, e.v, e.count);
      FillNested(g2, region, x, y);
      CutInside(Lib(p, k), g2, LowerFill(g2, region, x, y), c, n, c1, fuel, why);
    }
  }

  lemma AllocFails(m: Mem, rid: nat, v: Value, len: Value, why: Option<Fault>)
    requires Unfinished(AllocArray(m, rid, v, len), why)
    ensures AllocArray(m, rid, v, len).Fail? && why == Some(AllocArray(m, rid, v, len).fault)
  {
  }

  /** The allocation of an array fails whatever its cells are to hold. */
  lemma AllocBreaks(p: Program, k: nat, cx: LCx, env: Env, g: Graph, h: Graph, o: Operand, c: Config, n: nat, c1: Config,
                    v: Value, len: Value, m: Mem, fuel: nat)
    requires Ready(p, k, cx, env, g, c) && Computes(Lib(p, k), g, h, o, c, n, c1, len, m)
    requires AllocArray(m, Interp.Default(env).1, v, len).Fail?
    ensures Open(h) && Cut(Lib(p, k), Define(h, AllocI(h.nregs, Lowering.Default(cx).1, o)), c, n, c1, fuel,
                           Some(AllocArray(m, Interp.Default(env).1, v, len).fault))
  {
    MatchKept(cx, env, g, c.st, c1.st);
    DefaultSame(cx, env, c1.st);
    var i := AllocI(h.nregs, Lowering.Default(cx).1, o);
    assert Perform(p.classes, i, c1.st) == None;
    InstrBreaks(Lib(p, k), h, Define(h, i), i, c, n, c1, fuel);
  }

  lemma {:induction false} FaultList(p: Program, k: nat, cx: LCx, env: Env, es: seq<Expr>, g: Graph, c: Config, fuel: nat, why: Option<Fault>)
    returns (n: nat, c1: Config)
    requires Ready(p, k, cx, env, g, c) && forall e :: e in es ==> ExprReady(cx, e)
    requires Unfinished(EvalList(p, k, env, es, c.st.mem, fuel), why)
    ensures Cut(Lib(p, k), LowerList(g, cx, es).0, c, n, c1, fuel, why)
    decreases es
  {
    hide Callees, Match, Fits, Here, Extends, Cut, Runs, Steps, Nested, ExprReady;
    var r := Eval(p, k, env, es[0], c.st.mem, fuel);
    var g1 := LowerExpr(g, cx, es[0]).0;
    IsOpen(p, k, cx, env, g, c);
    NowOpen(g, cx, es[0]);
    ListNested(g1, cx, es[1..]);
    if r.Ok? {
      var n1, ca := RunExpr(p, k, cx, env, es[0], g, c, fuel);
      ComputedKept(Lib(p, k), g, g1, LowerExpr(g, cx, es[0]).1, c, n1, ca, r.value, r.mem);
      var n2;
      n2, c1 := FaultList(p, k, cx, env, es[1..], g1, ca, fuel, why);
      FirstThenCut(Lib(p, k), g1, LowerList(g1, cx, es[1..]).0, c, n1, ca, n2, c1, fuel, why);
      n := n1 + n2;
    } else {
      n, c1 := FaultExpr(p, k, cx, env, es[0], g, c, fuel, why);
      CutInside(Lib(p, k), g1, LowerList(g1, cx, es[1..]).0, c, n, c1, fuel, why);
    }
  }

  lemma FaultLit(p: Program, k: nat, cx: LCx, env: Env, e: Expr, g: Graph, c: Config, fuel: nat, why: Option<Fault>)
    returns (n: nat, c1: Config)
    requires Ready(p, k, cx, env, g, c) && ExprReady(cx, e) && e.Lit?
    requires Unfinished(Eval(p, k, env, e, c.st.mem, fuel), why)
    ensures Cut(Lib(p, k), LowerExpr(g, cx, e).0, c, n, c1, fuel, why)
    decreases e, 1
  {
    hide Callees, Match, Fits, Here, Extends, Cut, Runs, Steps, Nested, StoreAll;
    var r := EvalList(p, k, env, e.es, c.st.mem, fuel);
    var g1, xs := LowerList(g, cx, e.es).0, LowerList(g, cx, e.es).1;
    var i := AllocI(g1.nregs, Lowering.Default(cx).1, Imm(|e.es|));
    var g2 := Define(g1, i);
    IsOpen(p, k, cx, env, g, c);
    ListOpen(g, cx, e.es);
    EmitNested(g1, i);
    StoresNested(g2, Reg(g1.nregs), xs, 0);
    assert LowerExpr(g, cx, e).0 == StoreAll(g2, Reg(g1.nregs), xs, 0);
    if r.Ok? {
      n, c1 := LitAllocBreaks(p, k, cx, env, e, g, c, fuel);
    } else {
      n, c1 := FaultList(p, k, cx, env, e.es, g, c, fuel, why);
      CutInside(Lib(p, k), g1, g2, c, n, c1, fuel, why);
    }
    CutInside(Lib(p, k), g2, StoreAll(g2, Reg(g1.nregs), xs, 0), c, n, c1, fuel, why);
  }

  lemma ListOpen(g: Graph, cx: LCx, es: seq<Expr>)
    requires Open(g)
    ensures Open(LowerList(g, cx, es).0)
  {
    ListNested(g, cx, es);
  }

  lemma LitAllocBreaks(p: Program, k: nat, cx: LCx, env: Env, e: Expr, g: Graph, c: Config, fuel: nat)
    returns (n: nat, c1: Config)
    requires Ready(p, k, cx, env, g, c) && ExprReady(cx, e) && e.Lit?
    requires Eval(p, k, env, e, c.st.mem, fuel).Fail? && EvalList(p, k, env, e.es, c.st.mem, fuel).Ok?
    ensures var g1 := LowerList(g, cx, e.es).0;
            Cut(Lib(p, k), Define(g1, AllocI(g1.nregs, Lowering.Default(cx).1, Imm(|e.es|))), c, n, c1, fuel,
                Some(Eval(p, k, env, e, c.st.mem, fuel).fault))
    decreases e, 0
  {
    hide Find, FindVar, Declared, GetHandle, FindFn, Steps, Step;
    var r := EvalList(p, k, env, e.es, c.st.mem, fuel);
    n, c1 := SimList(p, k, cx, env, e.es, g, c, fuel);
    MatchKept(cx, env, g, c.st, c1.st);
    DefaultSame(cx, env, c1.st);
    var g1 := LowerList(g, cx, e.es).0;
    var i := AllocI(g1.nregs, Lowering.Default(cx).1, Imm(|e.es|));
    assert Perform(p.classes, i, c1.st) == None;
    InstrBreaks(Lib(p, k), g1, Define(g1, i), i, c, n, c1, fuel);
  }

  /** The arguments, then the call: there is no such function, or the call of it does not return. */
  lemma FaultCall(p: Program, k: nat, cx: LCx, env: Env, e: Expr, g: Graph, c: Config, fuel: nat, why: Option<Fault>)
    returns (n: nat, c1: Config)
    requires Ready(p, k, cx, env, g, c) && ExprReady(cx, e) && e.Call?
    requires Unfinished(Eval(p, k, env, e, c.st.mem, fuel), why)
    ensures Cut(Lib(p, k), LowerExpr(g, cx, e).0, c, n, c1, fuel, why)
    decreases e, 1
  {
    hide Find, Fits, Here, RunFn, Steps, Passed, LowerFn, Extends, Eval, LowerExpr, Callees, Match, Cut, Nested;
    CallCode(g, cx, e);
    CallEval(p, k, env, e, c.st.mem, fuel);
    var r := EvalList(p, k, env, e.args, c.st.mem, fuel);
    var g1, xs := LowerList(g, cx, e.args).0, LowerList(g, cx, e.args).1;
    var i := CallI(g1.nregs, e.fn, HandleOf(cx, e.regions), xs);
    IsOpen(p, k, cx, env, g, c);
    ListOpen(g, cx, e.args);
    if r.Ok? {
      var n1, c2 := ArgsRun(p, k, cx, env, e, g, c, fuel);
      var rid := GetHandle(env.handles, CallRegions(e.regions, Interp.Default(env).0)[0]).value;
      var n2;
      n2, c1 := CallCut(p, k, g1, i, c2, FindFn(p, k, e.fn), rid, r.value, fuel, Eval(p, k, env, e, c.st.mem, fuel), why);
      n := n1 + n2;
      EmitNested(g1, i);
      FirstThenCut(Lib(p, k), g1, Define(g1, i), c, n1, c2, n2, c1, fuel, why);
    } else {
      ArgsReady(cx, e);
      n, c1 := FaultList(p, k, cx, env, e.args, g, c, fuel, why);
      EmitNested(g1, i);
      CutInside(Lib(p, k), g1, Define(g1, i), c, n, c1, fuel, why);
    }
  }

  /** What a call that is emitted next does, when `w`, its outcome, is not a return. */
  lemma CallCut(p: Program, k: nat, g: Graph, i: Instr, c: Config, j: Option<nat>, rid: nat, vs: seq<Value>, fuel: nat,
                w: Res<Value>, why: Option<Fault>)
    returns (n: nat, c1: Config)
    requires k <= |p.fns| && Callees(p, k) && Here(g, c) && i.CallI? && Unfinished(w, why) && (j.Some? ==> j.value < k)
    requires Passed(Lib(p, k), i, c.st)
          == if j.Some? && |vs| == |p.fns[j.value].params| then Some((j.value, rid, vs)) else None
    requires if Passed(Lib(p, k), i, c.st).Some? then w == RunFn(p, j.value, rid, vs, c.st.mem, fuel) else w == Fail(Stuck)
    ensures Cut(Lib(p, k), Define(g, i), c, n, c1, fuel, why)
  {
    hide RunFn, Passed, LowerFn;
    var h := Define(g, i);
    assert At(h, c.block, c.idx) == Some(I(i));
    if Passed(Lib(p, k), i, c.st).Some? {
      var f := j.value;
      assert Simulated(p, f, rid, vs, c.st.mem, fuel);
      var n2: nat, c2: Config :| FnDone(Lib(p, f), RunFn(p, f, rid, vs, c.st.mem, fuel), UnitOf(p.fns[f]).graph,
                                        Start(rid, vs, c.st.mem), fuel, n2, c2);
      LibBefore(p, k, f);
      assert AtCall(Lib(p, k), h, i, c, f, rid, vs);
      n, c1 := n2 + 1, c.(sub := Some(Callee(f, c2)));
      if why.None? {
        CallGoesOn(Lib(p, k), h, i, c, f, rid, vs, n2, c2);
      } else {
        CallBreaks(Lib(p, k), h, i, c, f, rid, vs, n2, c2, why.value);
      }
    } else {
      n, c1 := 0, c;
      assert Step(Lib(p, k), h, c) == CallStep(Lib(p, k), i, c) == None;
      assert Steps(Lib(p, k), h, c, 0) == Some(c);
    }
  }

  // ---------- Statements ----------

  lemma {:induction false} FaultStmt(p: Program, k: nat, cx: LCx, env: Env, s: Stmt, g: Graph, c: Config, fuel: nat, why: Option<Fault>)
    returns (n: nat, c1: Config)
    requires Ready(p, k, cx, env, g, c) && StmtReady(cx, s)
    requires Unfinished(Exec(p, k, env, s, c.st.mem, fuel), why)
    ensures Cut(Lib(p, k), LowerStmt(g, cx, s).0, c, n, c1, fuel, why)
    decreases fuel, s, 2
  {
    hide Callees, Match, Fits, Here, Extends, Cut, Runs, Nested;
    n, c1 := 0, c;
    match s
    case Skip => assert false;
    case Seq(_, _) => n, c1 := FaultSeq(p, k, cx, env, s, g, c, fuel, why);
    case Var(_, e) =>
      n, c1 := FaultExpr(p, k, cx, env, e, g, c, fuel, why);
      IsOpen(p, k, cx, env, g, c);
      NowOpen(g, cx, e);
      NewVarNested(LowerExpr(g, cx, e).0, LowerExpr(g, cx, e).1);
      CutInside(Lib(p, k), LowerExpr(g, cx, e).0, NewVar(LowerExpr(g, cx, e).0, LowerExpr(g, cx, e).1), c, n, c1, fuel, why);
    case Let(_, e) => n, c1 := FaultExpr(p, k, cx, env, e, g, c, fuel, why);
    case Assign(_, _) => n, c1 := FaultAssign(p, k, cx, env, s, g, c, fuel, why);
    case Do(e) => n, c1 := FaultExpr(p, k, cx, env, e, g, c, fuel, why);
    case If(_, _, els) =>
      if els.Skip? { n, c1 := FaultIf(p, k, cx, env, s, g, c, fuel, why); } else { n, c1 := FaultIfElse(p, k, cx, env, s, g, c, fuel, why); }
    case While(_, _) => n, c1 := FaultWhile(p, k, cx, env, s, g, c, fuel, why);
    case For(_, _, _, _) => n, c1 := FaultFor(p, k, cx, env, s, g, c, fuel, why);
    case On(_, _) => n, c1 := FaultOn(p, k, cx, env, s, g, c, fuel, why);
  }

  lemma FaultSeq(p: Program, k: nat, cx: LCx, env: Env, s: Stmt, g: Graph, c: Config, fuel: nat, why: Option<Fault>)
    returns (n: nat, c1: Config)
    requires Ready(p, k, cx, env, g, c) && StmtReady(cx, s) && s.Seq?
    requires Unfinished(Exec(p, k, env, s, c.st.mem, fuel), why)
    ensures Cut(Lib(p, k), LowerStmt(g, cx, s).0, c, n, c1, fuel, why)
    decreases fuel, s, 1
  {
    hide Callees, Match, Fits, Here, Extends, Cut, Steps, Nested, Find, FindVar, GetHandle, FindFn, Eval;
    var r := Exec(p, k, env, s.s1, c.st.mem, fuel);
    var g1, hs := LowerStmt(g, cx, s.s1).0, LowerStmt(g, cx, s.s1).1;
    var cx1 := CxAfter(cx, s.s1, hs);
    IsOpen(p, k, cx, env, g, c);
    StmtOpen(g, cx, s.s1);
    StmtNested(g1, cx1, s.s2);
    if r.Ok? {
      var n1, ca := SimStmt(p, k, cx, env, s.s1, g, c, fuel);
      ReadyNext(p, k, cx, env, s.s1, g, c, fuel, n1, ca);
      var n2;
      n2, c1 := FaultStmt(p, k, cx1, EnvAfter(env, s.s1, r.value), s.s2, g1, ca, fuel, why);
      FirstThenCut(Lib(p, k), g1, LowerStmt(g1, cx1, s.s2).0, c, n1, ca, n2, c1, fuel, why);
      n := n1 + n2;
    } else {
      n, c1 := FaultStmt(p, k, cx, env, s.s1, g, c, fuel, why);
      CutInside(Lib(p, k), g1, LowerStmt(g1, cx1, s.s2).0, c, n, c1, fuel, why);
    }
  }

  lemma StmtOpen(g: Graph, cx: LCx, s: Stmt)
    requires Open(g)
    ensures Nested(g, LowerStmt(g, cx, s).0) && Open(LowerStmt(g, cx, s).0)
  {
    StmtNested(g, cx, s);
  }

  // ---------- Assignment ----------

  /** An assignment target faults as the expression it is. */
  lemma FaultTarget(p: Program, k: nat, cx: LCx, env: Env, t: Expr, g: Graph, c: Config, fuel: nat, why: Option<Fault>)
    returns (n: nat, c1: Config)
    requires Ready(p, k, cx, env, g, c) && TargetReady(cx, t)
    requires Unfinished(EvalTarget(p, k, env, t, c.st.mem, fuel), why)
    ensures Cut(Lib(p, k), LowerTarget(g, cx, t).0, c, n, c1, fuel, why)
  {
    hide Callees, Cut, Extends, Fits;
    n, c1 := FaultExpr(p, k, cx, env, t, g, c, fuel, why);
  }

  lemma StoreNested(g: Graph, d: Dest, o: Operand)
    requires Open(g)
    ensures Nested(g, EmitStore(g, d, o))
  {
    match d
    case NoD =>
    case SlotD(s) => EmitNested(g, StoreVar(s, o));
    case CellD(a, i) => EmitNested(g, StoreI(a, i, o));
    case FieldD(b, f) => EmitNested(g, StoreF(b, f, o));
  }

  lemma TargetOpen(g: Graph, cx: LCx, t: Expr)
    requires Open(g)
    ensures Nested(g, LowerTarget(g, cx, t).0) && Open(LowerTarget(g, cx, t).0)
  {
    TargetNested(g, cx, t);
  }

  lemma FaultAssign(p: Program, k: nat, cx: LCx, env: Env, s: Stmt, g: Graph, c: Config, fuel: nat, why: Option<Fault>)
    returns (n: nat, c1: Config)
    requires Ready(p, k, cx, env, g, c) && StmtReady(cx, s) && s.Assign?
    requires Unfinished(Exec(p, k, env, s, c.st.mem, fuel), why)
    ensures Cut(Lib(p, k), LowerStmt(g, cx, s).0, c, n, c1, fuel, why)
  {
    hide Callees, Match, Fits, Here, Extends, Cut, Runs, Nested, Eval, EvalTarget, LowerTarget, LowerExpr, StorePlace;
    var t := EvalTarget(p, k, env, s.target, c.st.mem, fuel);
    var g1, d := LowerTarget(g, cx, s.target).0, LowerTarget(g, cx, s.target).1;
    var g2, o := LowerExpr(g1, cx, s.e).0, LowerExpr(g1, cx, s.e).1;
    IsOpen(p, k, cx, env, g, c);
    TargetOpen(g, cx, s.target);
    NowOpen(g1, cx, s.e);
    StoreNested(g2, d, o);
    if t.Ok? {
      var n1, c2 := SimTarget(p, k, cx, env, s.target, g, c, fuel);
      AfterTarget(p, k, cx, env, g, c, g1, c2, t.mem);
      n, c1 := FaultValue(p, k, cx, env, s.e, g1, d, t.value, c, n1, c2, fuel, why);
    } else {
      n, c1 := FaultTarget(p, k, cx, env, s.target, g, c, fuel, why);
      CutInside(Lib(p, k), g1, g2, c, n, c1, fuel, why);
      CutInside(Lib(p, k), g2, EmitStore(g2, d, o), c, n, c1, fuel, why);
    }
  }

  lemma AfterTarget(p: Program, k: nat, cx: LCx, env: Env, g: Graph, c: Config, h: Graph, c1: Config, m: Mem)
    requires Ready(p, k, cx, env, g, c) && Here(h, c1) && After(g, c.st, c1.st, m) && Nested(g, h)
    ensures Ready(p, k, cx, env, h, c1) && c1.st.mem == m
  {
    MatchKept(cx, env, g, c.st, c1.st);
    FitsGrows(cx, g, h);
  }

  /** The value or the store of an assignment, after its target. */
  lemma FaultValue(p: Program, k: nat, cx: LCx, env: Env, e: Expr, g1: Graph, d: Dest, pl: Place,
                   c: Config, n1: nat, c2: Config, fuel: nat, why: Option<Fault>)
    returns (n: nat, c1: Config)
    requires Ready(p, k, cx, env, g1, c2) && ExprReady(cx, e) && Runs(Lib(p, k), g1, c, n1, c2)
    requires SamePlace(cx, d, pl, c2.st) && DestOk(d, g1.nregs) && (pl.NameP? ==> pl.i < |env.vals|)
    requires var r := Eval(p, k, env, e, c2.st.mem, fuel);
             if r.Ok? then Unfinished(StorePlace(env.vals, pl, r.value, r.mem), why) else Unfinished(r, why)
    ensures Cut(Lib(p, k), EmitStore(LowerExpr(g1, cx, e).0, d, LowerExpr(g1, cx, e).1), c, n, c1, fuel, why)
  {
    hide Callees, Match, Fits, Here, Extends, Cut, Steps, Eval, LowerExpr, StorePlace, EmitStore, Find;
    var r := Eval(p, k, env, e, c2.st.mem, fuel);
    var g2, o := LowerExpr(g1, cx, e).0, LowerExpr(g1, cx, e).1;
    IsOpen(p, k, cx, env, g1, c2);
    NowOpen(g1, cx, e);
    if r.Ok? {
      var n2, c3 := RunExpr(p, k, cx, env, e, g1, c2, fuel);
      ComputedKept(Lib(p, k), g1, g2, o, c2, n2, c3, r.value, r.mem);
      RunsOn(Lib(p, k), g1, g2, c, n1, c2, n2, c3);
      SamePlaceKept(cx, d, pl, g1.nregs, c2.st, c3.st);
      n, c1 := n1 + n2, c3;
      StoreFails(env.vals, pl, r.value, r.mem, why);
      StoreBreaks(Lib(p, k), cx, env, g2, d, pl, o, c, n, c3, r.value, fuel);
    } else {
      var n2;
      n2, c1 := FaultExpr(p, k, cx, env, e, g1, c2, fuel, why);
      n := n1 + n2;
      FirstThenCut(Lib(p, k), g1, g2, c, n1, c2, n2, c1, fuel, why);
      StoreNested(g2, d, o);
      CutInside(Lib(p, k), g2, EmitStore(g2, d, o), c, n, c1, fuel, why);
    }
  }

  lemma RunsOn(lib: Library, g: Graph, h: Graph, c: Config, n: nat, c1: Config, k: nat, c2: Config)
    requires Runs(lib, g, c, n, c1) && Nested(g, h) && Runs(lib, h, c1, k, c2)
    ensures Runs(lib, h, c, n + k, c2)
  {
    RunsThen(lib, g, h, c, n, c1, k, c2);
  }

  lemma StoreFails(vals: seq<Value>, pl: Place, v: Value, m: Mem, why: Option<Fault>)
    requires (pl.NameP? ==> pl.i < |vals|) && Unfinished(StorePlace(vals, pl, v, m), why)
    ensures StorePlace(vals, pl, v, m).Fail? && why == Some(StorePlace(vals, pl, v, m).fault)
  {
  }

  lemma StoreBreaks(lib: Library, cx: LCx, env: Env, g: Graph, d: Dest, pl: Place, o: Operand, c: Config, n: nat, c1: Config, v: Value, fuel: nat)
    requires Runs(lib, g, c, n, c1) && Here(g, c1) && SamePlace(cx, d, pl, c1.st) && Operate(o, c1.st) == Some(v)
    requires (pl.NameP? ==> pl.i < |env.vals|) && StorePlace(env.vals, pl, v, c1.st.mem).Fail?
    ensures Cut(lib, EmitStore(g, d, o), c, n, c1, fuel, Some(StorePlace(env.vals, pl, v, c1.st.mem).fault))
  {
    var i := if d.CellD? then StoreI(d.arr, d.idx, o) else StoreF(d.obj, d.f, o);
    InstrBreaks(lib, g, EmitStore(g, d, o), i, c, n, c1, fuel);
  }

  // ---------- Branches ----------

  /** The condition of an `if` that faults, or is no boolean. */
  lemma FaultIfHead(p: Program, k: nat, cx: LCx, env: Env, e: Expr, g: Graph, waiting: nat, c: Config, fuel: nat, why: Option<Fault>)
    returns (n: nat, c1: Config)
    requires Ready(p, k, cx, env, g, c) && ExprReady(cx, e) && 2 <= waiting
    requires var r := Eval(p, k, env, e, c.st.mem, fuel); if r.Ok? then !r.value.VBool? && why == Some(NoBoolean(r.value)) else Unfinished(r, why)
    ensures Cut(Lib(p, k), IfHead(g, cx, e, waiting), c, n, c1, fuel, why)
  {
    hide Callees, Match, Fits, Here, Extends, Cut, Runs, Eval, LowerExpr, Open, Nested, Waiting, Create, Append, Find;
    var r, b := Eval(p, k, env, e, c.st.mem, fuel), |g.blocks|;
    var g1 := Append(Create(g, waiting), b);
    var g2, o := LowerExpr(g1, cx, e).0, LowerExpr(g1, cx, e).1;
    ReadyCreate(p, k, cx, env, g, c, waiting);
    ReadyAppend(p, k, cx, env, Create(g, waiting), c, b);
    IsOpen(p, k, cx, env, g1, c);
    NowOpen(g1, cx, e);
    StillWaiting(g1, g2, b);
    if r.Ok? {
      n, c1 := RunExpr(p, k, cx, env, e, g1, c, fuel);
      ComputedKept(Lib(p, k), g1, g2, o, c, n, c1, r.value, r.mem);
      BranchBreaks(Lib(p, k), g2, IfHead(g, cx, e, waiting), CondBr(o, b, b + waiting - 1), b, c, n, c1, r.value, fuel);
    } else {
      n, c1 := FaultExpr(p, k, cx, env, e, g1, c, fuel, why);
      EnterGrows(g2, CondBr(o, b, b + waiting - 1), b);
      CutGrows(Lib(p, k), g2, IfHead(g, cx, e, waiting), c, n, c1, fuel, why);
    }
  }

  /** A faulting statement in the block that a branch entered. */
  lemma FaultArm(p: Program, k: nat, cx: LCx, env: Env, a: Stmt, head: Graph, c: Config, n0: nat, c0: Config, fuel: nat, target: nat, next: nat, why: Option<Fault>)
    returns (n: nat, c1: Config)
    requires Ready(p, k, cx, env, head, c0) && StmtReady(cx, a) && Runs(Lib(p, k), head, c, n0, c0) && Waiting(head, next)
    requires Unfinished(Exec(p, k, env, a, c0.st.mem, fuel), why)
    ensures Cut(Lib(p, k), GoTo(LowerStmt(head, cx, a).0, Br(target), next), c, n, c1, fuel, why)
    decreases fuel, a, 3
  {
    hide Callees, Match, Fits, Here, Extends, Cut, Runs, Exec, LowerStmt, Nested, Waiting;
    var g1 := LowerStmt(head, cx, a).0;
    IsOpen(p, k, cx, env, head, c0);
    StmtOpen(head, cx, a);
    StillWaiting(head, g1, next);
    GoToGrows(g1, Br(target), next);
    var n1;
    n1, c1 := FaultStmt(p, k, cx, env, a, head, c0, fuel, why);
    n := n0 + n1;
    FirstThenCut(Lib(p, k), head, g1, c, n0, c0, n1, c1, fuel, why);
    CutGrows(Lib(p, k), g1, GoTo(g1, Br(target), next), c, n, c1, fuel, why);
  }

  lemma FaultIf(p: Program, k: nat, cx: LCx, env: Env, s: Stmt, g: Graph, c: Config, fuel: nat, why: Option<Fault>)
    returns (n: nat, c1: Config)
    requires Ready(p, k, cx, env, g, c) && StmtReady(cx, s) && s.If? && s.els.Skip?
    requires Unfinished(Exec(p, k, env, s, c.st.mem, fuel), why)
    ensures Cut(Lib(p, k), LowerStmt(g, cx, s).0, c, n, c1, fuel, why)
    decreases fuel, s, 1
  {
    hide Callees, Match, Here, Extends, Cut, Runs, Nested, Eval, IfHead, Waiting;
    var r, b, head := Eval(p, k, env, s.c, c.st.mem, fuel), |g.blocks|, IfHead(g, cx, s.c, 2);
    IsOpen(p, k, cx, env, g, c);
    IfGrows(g, cx, s);
    if r.Ok? && r.value.VBool? {
      var n0, c0 := IfHeadRuns(p, k, cx, env, s.c, g, 2, c, fuel);
      IfHeadNested(g, cx, s.c, 2);
      FitsGrows(cx, g, head);
      NestedOpen(g, head);
      HeadReady(p, k, cx, env, head, c0);
      n, c1 := FaultArm(p, k, cx, env, s.thn, head, c, n0, c0, fuel, b + 1, b + 1, why);
    } else {
      n, c1 := FaultIfHead(p, k, cx, env, s.c, g, 2, c, fuel, why);
      CutGrows(Lib(p, k), head, LowerIf(g, cx, s).0, c, n, c1, fuel, why);
    }
  }

  lemma NestedOpen(g: Graph, h: Graph)
    requires Nested(g, h)
    ensures Open(h)
  {
  }

  lemma HeadReady(p: Program, k: nat, cx: LCx, env: Env, head: Graph, c: Config)
    requires k <= |p.fns| && Callees(p, k) && EnvShape(env) && Fits(cx, head.nregs, head.nslots) && Match(cx, env, c.st)
    requires Open(head) && head.blocks[head.cur] == EMPTY_BLOCK && c.block == head.cur && c.idx == 0 && c.sub.None?
    ensures Ready(p, k, cx, env, head, c)
  {
  }

  lemma FaultIfElse(p: Program, k: nat, cx: LCx, env: Env, s: Stmt, g: Graph, c: Config, fuel: nat, why: Option<Fault>)
    returns (n: nat, c1: Config)
    requires Ready(p, k, cx, env, g, c) && StmtReady(cx, s) && s.If? && !s.els.Skip?
    requires Unfinished(Exec(p, k, env, s, c.st.mem, fuel), why)
    ensures Cut(Lib(p, k), LowerStmt(g, cx, s).0, c, n, c1, fuel, why)
    decreases fuel, s, 1
  {
    hide Callees, Match, Fits, Here, Extends, Cut, Runs, Nested, Eval, IfHead, Waiting, LowerIfElse, Between;
    var r, head := Eval(p, k, env, s.c, c.st.mem, fuel), IfHead(g, cx, s.c, 3);
    IsOpen(p, k, cx, env, g, c);
    ReadyParts(p, k, cx, env, g, c);
    BetweenGrows(g, cx, s);
    var h := LowerIfElse(g, cx, s).0;
    if r.Ok? && r.value.VBool? {
      var n0, c0 := IfHeadRuns(p, k, cx, env, s.c, g, 3, c, fuel);
      IfHeadNested(g, cx, s.c, 3);
      FitsGrows(cx, g, head);
      if r.value.b {
        n, c1 := FaultFirst(p, k, cx, env, s, g, c, n0, c0, fuel, why);
      } else {
        n, c1 := FaultSecond(p, k, cx, env, s, g, c, n0, c0, fuel, why);
      }
    } else {
      n, c1 := FaultIfHead(p, k, cx, env, s.c, g, 3, c, fuel, why);
      CutGrows(Lib(p, k), head, Between(g, cx, s), c, n, c1, fuel, why);
      CutGrows(Lib(p, k), Between(g, cx, s), h, c, n, c1, fuel, why);
    }
  }

  ghost predicate AtElse(p: Program, k: nat, cx: LCx, env: Env, s: Stmt, g: Graph, c: Config, n0: nat, c0: Config) {
    && k <= |p.fns| && Callees(p, k) && EnvShape(env) && Open(g) && s.If? && !s.els.Skip? && StmtReady(cx, s)
    && Runs(Lib(p, k), IfHead(g, cx, s.c, 3), c, n0, c0) && c0.idx == 0 && c0.sub.None? && Match(cx, env, c0.st) && cx.depth == env.depth
    && Fits(cx, g.nregs, g.nslots) && Fits(cx, IfHead(g, cx, s.c, 3).nregs, IfHead(g, cx, s.c, 3).nslots)
  }

  lemma FaultFirst(p: Program, k: nat, cx: LCx, env: Env, s: Stmt, g: Graph, c: Config, n0: nat, c0: Config, fuel: nat, why: Option<Fault>)
    returns (n: nat, c1: Config)
    requires AtElse(p, k, cx, env, s, g, c, n0, c0) && c0.block == |g.blocks|
    requires Unfinished(Exec(p, k, env, s.thn, c0.st.mem, fuel), why)
    ensures Cut(Lib(p, k), LowerIfElse(g, cx, s).0, c, n, c1, fuel, why)
    decreases fuel, s, 0
  {
    hide Callees, Match, Fits, Here, Extends, Cut, Runs, Nested, Eval, Exec, IfHead, LowerIfElse, Between, LowerStmt, ThenPart, LowerElse;
    var head, done := IfHead(g, cx, s.c, 3), |g.blocks| + 1;
    IfElseCode(g, cx, s);
    IfHeadNested(g, cx, s.c, 3);
    NestedOpen(g, head);
    HeadReady(p, k, cx, env, head, c0);
    n, c1 := FaultArm(p, k, cx, env, s.thn, head, c, n0, c0, fuel, done, done + 1, why);
    BetweenGrows(g, cx, s);
    CutGrows(Lib(p, k), Between(g, cx, s), LowerIfElse(g, cx, s).0, c, n, c1, fuel, why);
  }

  lemma FaultSecond(p: Program, k: nat, cx: LCx, env: Env, s: Stmt, g: Graph, c: Config, n0: nat, c0: Config, fuel: nat, why: Option<Fault>)
    returns (n: nat, c1: Config)
    requires AtElse(p, k, cx, env, s, g, c, n0, c0) && c0.block == |g.blocks| + 2
    requires var env1 := EnvAfter(env, s.thn, env.vals + Undefs(|Declared(s.thn, env.depth)|));
             Unfinished(Exec(p, k, env1, s.els, c0.st.mem, fuel), why)
    ensures Cut(Lib(p, k), LowerIfElse(g, cx, s).0, c, n, c1, fuel, why)
    decreases fuel, s, 0
  {
    hide Exec, Eval, Steps, Step, Perform, At, Extends, IfHead, LowerStmt;
    var done, hs := |g.blocks| + 1, ThenPart(g, cx, s).1;
    var cx1 := CxAfter(cx, s.thn, hs);
    var env1 := EnvAfter(env, s.thn, env.vals + Undefs(|Declared(s.thn, env.depth)|));
    BetweenGrows(g, cx, s);
    var m := Between(g, cx, s);
    MatchUndefs(cx, env, c0.st, Declared(s.thn, cx.depth), hs);
    StepsWiden(Lib(p, k), IfHead(g, cx, s.c, 3), m, c, n0);
    HeadReady(p, k, cx1, env1, m, c0);
    n, c1 := FaultArm(p, k, cx1, env1, s.els, m, c, n0, c0, fuel, done, done, why);
  }

  // ---------- Regions ----------

  lemma FaultOn(p: Program, k: nat, cx: LCx, env: Env, s: Stmt, g: Graph, c: Config, fuel: nat, why: Option<Fault>)
    returns (n: nat, c1: Config)
    requires Ready(p, k, cx, env, g, c) && StmtReady(cx, s) && s.On?
    requires Unfinished(Exec(p, k, env, s, c.st.mem, fuel), why)
    ensures Cut(Lib(p, k), LowerStmt(g, cx, s).0, c, n, c1, fuel, why)
    decreases fuel, s, 1
  {
    var rid, m1 := OpenRegion(c.st.mem).0, OpenRegion(c.st.mem).1;
    var g1, i := Define(g, OpenI(g.nregs)), OpenI(g.nregs);
    var n1, c2 := SimDefine(Lib(p, k), g, i, c, VRegion(rid), m1);
    EmitNested(g, i);
    OnEntry(p, k, cx, env, s.region, rid, g, c, c2);
    OnReady(cx, s, g.nregs);
    n, c1 := FaultOnBody(p, k, cx, env, s, g, c, n1, c2, rid, fuel, why);
  }

  lemma FaultOnBody(p: Program, k: nat, cx: LCx, env: Env, s: Stmt, g: Graph, c: Config, n1: nat, c2: Config, rid: nat, fuel: nat, why: Option<Fault>)
    returns (n: nat, c1: Config)
    requires Ready(p, k, cx, env, g, c) && s.On? && StmtReady(CxOn(cx, s.region, g.nregs), s.body)
    requires Ready(p, k, CxOn(cx, s.region, g.nregs), OnEnv(env, s.region, rid), Define(g, OpenI(g.nregs)), c2)
    requires Runs(Lib(p, k), Define(g, OpenI(g.nregs)), c, n1, c2) && Operate(Reg(g.nregs), c2.st) == Some(VRegion(rid))
    requires Unfinished(OnResult(Exec(p, k, OnEnv(env, s.region, rid), s.body, c2.st.mem, fuel), rid, |env.vals|), why)
    ensures Cut(Lib(p, k), LowerOn(g, cx, s), c, n, c1, fuel, why)
    decreases fuel, s, 0
  {
    hide Callees, Match, Fits, Here, Extends, Cut, Steps, Nested, Exec, LowerStmt, CxOn, OnEnv;
    var g1, cx1, env1 := Define(g, OpenI(g.nregs)), CxOn(cx, s.region, g.nregs), OnEnv(env, s.region, rid);
    var g2, i := LowerStmt(g1, cx1, s.body).0, CloseI(Reg(g.nregs));
    IsOpen(p, k, cx1, env1, g1, c2);
    StmtOpen(g1, cx1, s.body);
    EmitNested(g2, i);
    OnCode(g, cx, s);
    var r := Exec(p, k, env1, s.body, c2.st.mem, fuel);
    if r.Ok? {
      var n2, c3 := SimStmt(p, k, cx1, env1, s.body, g1, c2, fuel);
      RunsOn(Lib(p, k), g1, g2, c, n1, c2, n2, c3);
      OperateKept(Reg(g.nregs), g1.nregs, c2.st, c3.st);
      n, c1 := n1 + n2, c3;
      InstrBreaks(Lib(p, k), g2, Emit(g2, i), i, c, n, c3, fuel);
    } else {
      var n2;
      n2, c1 := FaultStmt(p, k, cx1, env1, s.body, g1, c2, fuel, why);
      n := n1 + n2;
      FirstThenCut(Lib(p, k), g1, g2, c, n1, c2, n2, c1, fuel, why);
      CutInside(Lib(p, k), g2, Emit(g2, i), c, n, c1, fuel, why);
    }
  }

  lemma OnCode(g: Graph, cx: LCx, s: Stmt)
    requires s.On?
    ensures LowerOn(g, cx, s)
         == Emit(LowerStmt(Define(g, OpenI(g.nregs)), CxOn(cx, s.region, g.nregs), s.body).0, CloseI(Reg(g.nregs)))
  {
  }

  // ---------- Loops ----------

  lemma {:induction false} FaultWhileLoop(p: Program, k: nat, cx: LCx, env: Env, s: Stmt, g: Graph, st: State, cond: nat, fuel: nat, why: Option<Fault>)
    returns (n: nat, c1: Config)
    requires AtLoop(p, k, cx, env, s, g, st, cond) && s.While?
    requires Unfinished(Exec(p, k, env, s, st.mem, fuel), why)
    ensures Cut(Lib(p, k), WhileLoop(g, cx, s, cond), Config(cond, 0, st), n, c1, fuel, why)
    decreases fuel, s, 0
  {
    hide Callees, Eval, WhileLoop, Match, Fits, Steps, WhileTurn;
    var t, h, c := WhileTurn(p, k, env, s, st.mem, fuel), WhileLoop(g, cx, s, cond), Config(cond, 0, st);
    n, c1 := 0, c;
    if fuel == 0 {
      NoFuel(p, k, env, s, s.body, 0, st.mem, Lib(p, k), h, c, why);
      return;
    }
    WhileUnfold(p, k, env, s, st.mem, fuel);
    if t.Ok? {
      var n1, ca := SimWhileTurn(p, k, cx, env, s, g, st, cond, fuel);
      var n2;
      n2, c1 := FaultWhileLoop(p, k, cx, env.(vals := t.value.1), s, g, ca.st, cond, fuel - 1, why);
      n := n1 + n2;
      CutAgain(Lib(p, k), h, c, n1, ca, n2, c1, fuel, why);
    } else {
      n, c1 := FaultWhileTurn(p, k, cx, env, s, g, st, cond, fuel, why);
    }
  }

  /** Without fuel a loop has not begun. */
  lemma NoFuel(p: Program, k: nat, env: Env, s: Stmt, body: Stmt, it: nat, m: Mem, lib: Library, h: Graph, c: Config, why: Option<Fault>)
    requires k <= |p.fns| && EnvShape(env)
    requires (s.While? && Unfinished(Exec(p, k, env, s, m, 0), why))
          || (env.vals != [] && Unfinished(Interp.ForLoop(p, k, env, body, it, m, 0), why))
    ensures Cut(lib, h, c, 0, c, 0, why)
  {
    assert Steps(lib, h, c, 0) == Some(c);
  }

  lemma FaultWhileTurn(p: Program, k: nat, cx: LCx, env: Env, s: Stmt, g: Graph, st: State, cond: nat, fuel: nat, why: Option<Fault>)
    returns (n: nat, c1: Config)
    requires AtLoop(p, k, cx, env, s, g, st, cond) && s.While? && fuel > 0
    requires Unfinished(WhileTurn(p, k, env, s, st.mem, fuel), why)
    ensures Cut(Lib(p, k), WhileLoop(g, cx, s, cond), Config(cond, 0, st), n, c1, fuel, why)
    decreases fuel, s.body, 5
  {
    hide Callees, Match, Fits, Here, Extends, Cut, Runs, Eval, Exec, LowerStmt, WhileHead, Waiting;
    var c, r, head := Config(cond, 0, st), Eval(p, k, env, s.c, st.mem, fuel), WhileHead(g, cx, s.c, cond);
    WhileGrows(g, cx, s, cond);
    if r.Ok? && r.value.VBool? {
      var n1, c2 := WhileHeadRuns(p, k, cx, env, s, g, st, cond, fuel);
      InnerReady(p, k, cx, env, s, g, st, cond, head, c2);
      n, c1 := FaultArm(p, k, InnerCx(cx), Inner(env), s.body, head, c, n1, c2, fuel, cond, cond + 2, why);
    } else {
      HeadReady(p, k, cx, env, g, c);
      n, c1 := FaultWhileHead(p, k, cx, env, s.c, g, c, cond, fuel, why);
      CutGrows(Lib(p, k), head, WhileLoop(g, cx, s, cond), c, n, c1, fuel, why);
    }
  }

  lemma InnerReady(p: Program, k: nat, cx: LCx, env: Env, s: Stmt, g: Graph, st: State, cond: nat, head: Graph, c: Config)
    requires AtLoop(p, k, cx, env, s, g, st, cond) && s.While? && Match(cx, env, c.st)
    requires Open(head) && head.cur == cond + 1 && head.blocks[head.cur] == EMPTY_BLOCK
    requires g.nregs <= head.nregs && g.nslots <= head.nslots && c.block == head.cur && c.idx == 0 && c.sub.None?
    ensures Ready(p, k, InnerCx(cx), Inner(env), head, c) && StmtReady(InnerCx(cx), s.body)
  {
  }

  /** The condition of a `while` that faults, or is no boolean. */
  lemma FaultWhileHead(p: Program, k: nat, cx: LCx, env: Env, e: Expr, g: Graph, c: Config, cond: nat, fuel: nat, why: Option<Fault>)
    returns (n: nat, c1: Config)
    requires Ready(p, k, cx, env, g, c) && ExprReady(cx, e) && Waiting(g, cond + 1)
    requires var r := Eval(p, k, env, e, c.st.mem, fuel); if r.Ok? then !r.value.VBool? && why == Some(NoBoolean(r.value)) else Unfinished(r, why)
    ensures Cut(Lib(p, k), WhileHead(g, cx, e, cond), c, n, c1, fuel, why)
  {
    hide Callees, Match, Fits, Here, Extends, Cut, Runs, Eval, LowerExpr, Open, Nested, Waiting, Find;
    var r := Eval(p, k, env, e, c.st.mem, fuel);
    var g2, o := LowerExpr(g, cx, e).0, LowerExpr(g, cx, e).1;
    var t := CondBr(o, cond + 1, cond + 2);
    IsOpen(p, k, cx, env, g, c);
    NowOpen(g, cx, e);
    StillWaiting(g, g2, cond + 1);
    if r.Ok? {
      n, c1 := RunExpr(p, k, cx, env, e, g, c, fuel);
      ComputedKept(Lib(p, k), g, g2, o, c, n, c1, r.value, r.mem);
      BranchBreaks(Lib(p, k), g2, WhileHead(g, cx, e, cond), t, cond + 1, c, n, c1, r.value, fuel);
    } else {
      n, c1 := FaultExpr(p, k, cx, env, e, g, c, fuel, why);
      GoToGrows(g2, t, cond + 1);
      CutGrows(Lib(p, k), g2, WhileHead(g, cx, e, cond), c, n, c1, fuel, why);
    }
  }

  lemma FaultWhile(p: Program, k: nat, cx: LCx, env: Env, s: Stmt, g: Graph, c: Config, fuel: nat, why: Option<Fault>)
    returns (n: nat, c1: Config)
    requires Ready(p, k, cx, env, g, c) && StmtReady(cx, s) && s.While?
    requires Unfinished(Exec(p, k, env, s, c.st.mem, fuel), why)
    ensures Cut(Lib(p, k), LowerStmt(g, cx, s).0, c, n, c1, fuel, why)
    decreases fuel, s, 1
  {
    hide Callees, Exec, WhileLoop, Match, Steps, Extends, Cut;
    var cond, start := |g.blocks|, LoopStart(g);
    LoopStartNested(g);
    FitsGrows(cx, g, start);
    var n0 := StartLoop(Lib(p, k), g, c);
    var n1;
    n1, c1 := FaultWhileLoop(p, k, cx, env, s, start, c.st, cond, fuel, why);
    WhileLoopFills(start, cx, s, cond);
    n := n0 + n1;
    CutThen(Lib(p, k), start, WhileLoop(start, cx, s, cond), c, n0, Config(cond, 0, c.st), n1, c1, fuel, why);
  }

  lemma {:induction false} FaultForLoop(p: Program, k: nat, cx: LCx, env: Env, s: Stmt, g: Graph, st: State, cond: nat, it: nat, iter: nat, fuel: nat, why: Option<Fault>)
    returns (n: nat, c1: Config)
    requires AtFor(p, k, cx, env, s, g, st, cond, it, iter)
    requires Unfinished(Interp.ForLoop(p, k, env, s.body, iter, st.mem, fuel), why)
    ensures Cut(Lib(p, k), Lowering.ForLoop(g, cx, s, it, cond), Config(cond, 0, st), n, c1, fuel, why)
    decreases fuel, s.body, 6
  {
    hide Callees, Exec, Lowering.ForLoop, Match, Fits, Steps, ForTurn;
    var t, h, c := ForTurn(p, k, env, s.body, iter, st.mem, fuel), Lowering.ForLoop(g, cx, s, it, cond), Config(cond, 0, st);
    n, c1 := 0, c;
    if fuel == 0 {
      NoFuel(p, k, env, s, s.body, iter, st.mem, Lib(p, k), h, c, why);
      return;
    }
    ForUnfold(p, k, env, s.body, iter, st.mem, fuel);
    if t.Ok? {
      var n1, ca := SimForTurn(p, k, cx, env, s, g, st, cond, it, iter, fuel);
      OperateKept(Reg(it), g.nregs, st, ca.st);
      var n2;
      n2, c1 := FaultForLoop(p, k, cx, env.(vals := t.value.1), s, g, ca.st, cond, it, iter, fuel - 1, why);
      n := n1 + n2;
      CutAgain(Lib(p, k), h, c, n1, ca, n2, c1, fuel, why);
    } else {
      n, c1 := FaultForTurn(p, k, cx, env, s, g, st, cond, it, iter, fuel, why);
    }
  }

  lemma FaultForTurn(p: Program, k: nat, cx: LCx, env: Env, s: Stmt, g: Graph, st: State, cond: nat, it: nat, iter: nat, fuel: nat, why: Option<Fault>)
    returns (n: nat, c1: Config)
    requires AtFor(p, k, cx, env, s, g, st, cond, it, iter) && fuel > 0
    requires Unfinished(ForTurn(p, k, env, s.body, iter, st.mem, fuel), why)
    ensures Cut(Lib(p, k), Lowering.ForLoop(g, cx, s, it, cond), Config(cond, 0, st), n, c1, fuel, why)
    decreases fuel, s.body, 5
  {
    hide Callees, Match, Fits, Here, Extends, Cut, Runs, Exec, LowerStmt, Find, Eval;
    var n1, c2 := ForBodyStart(p, k, cx, env, s, g, st, cond, it, iter);
    ForGrows(g, cx, s, it, cond);
    var inner := Inner(env.(vals := env.vals[|env.vals| - 1 := Next(st.mem, iter).0]));
    n, c1 := FaultArm(p, k, CxFor(cx, s, g.nregs + 1), inner, s.body, ForHead(g, it, cond), Config(cond, 0, st), n1, c2,
                      fuel, cond, cond + 2, why);
  }

  lemma FaultFor(p: Program, k: nat, cx: LCx, env: Env, s: Stmt, g: Graph, c: Config, fuel: nat, why: Option<Fault>)
    returns (n: nat, c1: Config)
    requires Ready(p, k, cx, env, g, c) && StmtReady(cx, s) && s.For?
    requires Unfinished(Exec(p, k, env, s, c.st.mem, fuel), why)
    ensures Cut(Lib(p, k), LowerStmt(g, cx, s).0, c, n, c1, fuel, why)
    decreases fuel, s, 1
  {
    hide Callees, Match, Fits, Here, Extends, Cut, Runs, Eval, Interp.ForLoop, ForStart, LowerFor, Nested;
    ForReady(cx, s, 0);
    var r := Eval(p, k, env, s.lo, c.st.mem, fuel);
    var start := ForStart(g, cx, s.lo, s.hi).0;
    IsOpen(p, k, cx, env, g, c);
    ForGraph(g, cx, s);
    if r.Ok? && Eval(p, k, env, s.hi, r.mem, fuel).Ok? && NewIter(Eval(p, k, env, s.hi, r.mem, fuel).mem, r.value, Eval(p, k, env, s.hi, r.mem, fuel).value).Ok? {
      var q := Eval(p, k, env, s.hi, r.mem, fuel);
      var n0, st := ForStartRuns(p, k, cx, env, s, g, c, fuel);
      n, c1 := FaultFromStart(p, k, cx, env, s, g, c, n0, st, |q.mem.iters|, fuel, why);
    } else {
      n, c1 := FaultForStart(p, k, cx, env, s, g, c, fuel, why);
      CutGrows(Lib(p, k), start, LowerFor(g, cx, s).0, c, n, c1, fuel, why);
    }
  }

  lemma FaultFromStart(p: Program, k: nat, cx: LCx, env: Env, s: Stmt, g: Graph, c: Config, n0: nat, st: State, iter: nat, fuel: nat, why: Option<Fault>)
    returns (n: nat, c1: Config)
    requires Ready(p, k, cx, env, g, c) && StmtReady(cx, s) && s.For?
    requires Runs(Lib(p, k), ForStart(g, cx, s.lo, s.hi).0, c, n0, Config(|g.blocks|, 0, st))
    requires KeptRegs(g.nregs, c.st, st) && KeptSlots(g.nslots, c.st, st)
    requires Operate(Reg(ForStart(g, cx, s.lo, s.hi).1), st) == Some(VIter(iter))
    requires Unfinished(Interp.ForLoop(p, k, Extend(env, Tag(s.x, false, env.depth), Undef), s.body, iter, st.mem, fuel), why)
    ensures Cut(Lib(p, k), LowerFor(g, cx, s).0, c, n, c1, fuel, why)
    decreases fuel, s, 0
  {
    hide Callees, Match, Fits, Here, Runs, AtFor, ForStart, LowerFor, Lowering.ForLoop, Interp.ForLoop, Cut, Extends;
    IsOpen(p, k, cx, env, g, c);
    var start, it := ForStart(g, cx, s.lo, s.hi).0, ForStart(g, cx, s.lo, s.hi).1;
    AtForStart(p, k, cx, env, s, g, c, st, iter);
    var n1;
    n1, c1 := FaultForLoop(p, k, cx, Extend(env, Tag(s.x, false, env.depth), Undef), s, start, st, |g.blocks|, it, iter, fuel, why);
    n := n0 + n1;
    ForGraph(g, cx, s);
    CutThen(Lib(p, k), start, LowerFor(g, cx, s).0, c, n0, Config(|g.blocks|, 0, st), n1, c1, fuel, why);
  }

  /** The bounds of a `for`, or its iterator. */
  lemma FaultForStart(p: Program, k: nat, cx: LCx, env: Env, s: Stmt, g: Graph, c: Config, fuel: nat, why: Option<Fault>)
    returns (n: nat, c1: Config)
    requires Ready(p, k, cx, env, g, c) && s.For? && ExprReady(cx, s.lo) && ExprReady(cx, s.hi)
    requires var r := Eval(p, k, env, s.lo, c.st.mem, fuel);
             if !r.Ok? then Unfinished(r, why)
             else
               var q := Eval(p, k, env, s.hi, r.mem, fuel);
               if q.Ok? then NewIter(q.mem, r.value, q.value).Fail? && why == Some(NewIter(q.mem, r.value, q.value).fault)
               else Unfinished(q, why)
    ensures Cut(Lib(p, k), ForStart(g, cx, s.lo, s.hi).0, c, n, c1, fuel, why)
  {
    hide Callees, Match, Fits, Here, Extends, Cut, Runs, Eval, Nested, LowerExpr, Create, NewIter, Waiting, Find, Open;
    var r, e := Eval(p, k, env, s.lo, c.st.mem, fuel), Bin(Add, s.lo, s.hi);
    var g0 := Create(g, 3);
    ReadyCreate(p, k, cx, env, g, c, 3);
    var g1, x := LowerExpr(g0, cx, s.lo).0, LowerExpr(g0, cx, s.lo).1;
    var g2, y := LowerExpr(g1, cx, s.hi).0, LowerExpr(g1, cx, s.hi).1;
    var i := IterI(g2.nregs, x, y);
    IsOpen(p, k, cx, env, g0, c);
    TwoNested(g0, cx, e, s.lo, s.hi);
    ThenOpen(g0, cx, e, s.lo, s.hi);
    EmitNested(g2, i);
    NestedTrans(g0, g2, Define(g2, i));
    if r.Ok? && Eval(p, k, env, s.hi, r.mem, fuel).Ok? {
      var q := Eval(p, k, env, s.hi, r.mem, fuel);
      n, c1 := SimTwo(p, k, cx, env, e, s.lo, s.hi, g0, c, fuel);
      ComputedKept(Lib(p, k), g0, g2, y, c, n, c1, q.value, q.mem);
      InstrBreaks(Lib(p, k), g2, Define(g2, i), i, c, n, c1, fuel);
    } else {
      n, c1 := FaultTwo(p, k, cx, env, e, s.lo, s.hi, g0, c, fuel, why);
      CutInside(Lib(p, k), g2, Define(g2, i), c, n, c1, fuel, why);
    }
    StillWaiting(g0, Define(g2, i), |g.blocks|);
    JumpKeeps(Define(g2, i), |g.blocks|);
    CutGrows(Lib(p, k), Define(g2, i), ForStart(g, cx, s.lo, s.hi).0, c, n, c1, fuel, why);
  }

  lemma JumpKeeps(g: Graph, b: nat)
    requires Open(g) && Waiting(g, b)
    ensures Extends(g, GoTo(g, Br(b), b))
  {
    GoToGrows(g, Br(b), b);
  }
}
