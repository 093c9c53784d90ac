/** Running the emitted blocks does what the interpreter does. */
module Simulation {
  import opened Basics
  import opened RegionTypes
  import opened Lang
  import opened Memory
  import opened Interp
  import opened Ir
  import opened Lowering
  import opened Growth
  import opened Homes
  import opened Running
  import opened FillLoop

  // ---------- Expressions ----------

  lemma {:induction false} SimExpr(p: Program, k: nat, cx: LCx, env: Env, e: Expr, g: Graph, c: Config, fuel: nat)
    returns (n: nat, c1: Config)
    requires Ready(p, k, cx, env, g, c) && ExprReady(cx, e)
    requires Eval(p, k, env, e, c.st.mem, fuel).Ok?
    ensures Computes(Lib(p, k), g, LowerExpr(g, cx, e).0, LowerExpr(g, cx, e).1, c, n, c1,
                     Eval(p, k, env, e, c.st.mem, fuel).value, Eval(p, k, env, e, c.st.mem, fuel).mem)
    decreases e, 2
  {
    n, c1 := 0, c;
    match e
    case Num(_) =>
    case Get(x) =>
      n, c1 := SimGet(p, k, cx, env, e, g, c, fuel);
    case Bin(op, a, b) =>
      n, c1 := SimTwoThen(p, k, cx, env, e, a, b, g, c, fuel);
    case Lit(es) =>
      n, c1 := SimLit(p, k, cx, env, e, g, c, fuel);
    case Fill(a, b) =>
      n, c1 := SimFill(p, k, cx, env, e, g, c, fuel);
    case Elem(a, b) =>
      n, c1 := SimTwoThen(p, k, cx, env, e, a, b, g, c, fuel);
    case Length(_) =>
      n, c1 := SimLength(p, k, cx, env, e, g, c, fuel);
    case Field(_, _) =>
      n, c1 := SimField(p, k, cx, env, e, g, c, fuel);
    case New(_, _) =>
      n, c1 := SimNew(p, k, cx, env, e, g, c, fuel);
    case Call(_, _, _) =>
      n, c1 := SimCall(p, k, cx, env, e, g, c, fuel);
  }

  lemma SimGet(p: Program, k: nat, cx: LCx, env: Env, e: Expr, g: Graph, c: Config, fuel: nat)
    returns (n: nat, c1: Config)
    requires Ready(p, k, cx, env, g, c) && ExprReady(cx, e) && e.Get?
    requires Eval(p, k, env, e, c.st.mem, fuel).Ok?
    ensures Computes(Lib(p, k), g, LowerExpr(g, cx, e).0, LowerExpr(g, cx, e).1, c, n, c1,
                     Eval(p, k, env, e, c.st.mem, fuel).value, Eval(p, k, env, e, c.st.mem, fuel).mem)
  {
    n, c1 := 0, c;
    var i := Find(cx.tags, e.x).value;
    assert Holds(cx.homes[i], env.vals[i], c.st);
    if cx.homes[i].InSlot? {
      n, c1 := SimDefine(Lib(p, k), g, LoadVar(g.nregs, cx.homes[i].slot), c, env.vals[i], c.st.mem);
    }
  }

  lemma SimNew(p: Program, k: nat, cx: LCx, env: Env, e: Expr, g: Graph, c: Config, fuel: nat)
    returns (n: nat, c1: Config)
    requires Ready(p, k, cx, env, g, c) && ExprReady(cx, e) && e.New?
    requires Eval(p, k, env, e, c.st.mem, fuel).Ok?
    ensures Computes(Lib(p, k), g, LowerExpr(g, cx, e).0, LowerExpr(g, cx, e).1, c, n, c1,
                     Eval(p, k, env, e, c.st.mem, fuel).value, Eval(p, k, env, e, c.st.mem, fuel).mem)
  {
    hide Find, FindVar, Declared, GetHandle, FindFn, LowerList, LowerFill, LowerTarget, LowerIf, LowerIfElse, LowerElse, LowerWhile, LowerFor, LowerOn, LowerSeq;
    var i := HandleSame(cx.handles, env.handles, CallRegions(e.regions, Interp.Default(env).0)[0]);
    var r := Eval(p, k, env, e, c.st.mem, fuel);
    n, c1 := SimDefine(Lib(p, k), g, NewI(g.nregs, HandleOf(cx, e.regions), e.cls), c, r.value, r.mem);
  }

  /** After an expression's code the scope still matches, and its operand is in range. */
  lemma ReadyAfter(p: Program, k: nat, cx: LCx, env: Env, e: Expr, g: Graph, c: Config, n: nat, c1: Config, v: Value, m: Mem)
    requires Ready(p, k, cx, env, g, c)
    requires Computes(Lib(p, k), g, LowerExpr(g, cx, e).0, LowerExpr(g, cx, e).1, c, n, c1, v, m)
    ensures Ready(p, k, cx, env, LowerExpr(g, cx, e).0, c1) && Nested(g, LowerExpr(g, cx, e).0)
    ensures OperandOk(LowerExpr(g, cx, e).1, LowerExpr(g, cx, e).0.nregs)
  {
    ExprNested(g, cx, e);
    ExprOperand(g, cx, e);
    FitsGrows(cx, g, LowerExpr(g, cx, e).0);
    MatchKept(cx, env, g, c.st, c1.st);
  }

  /** Two computations in a row; the first operand survives the second. */
  lemma ComputesThen(lib: Library, g: Graph, g1: Graph, h: Graph, x: Operand, y: Operand, c: Config, n: nat, ca: Config,
                     v: Value, m: Mem, k: nat, cb: Config, w: Value, m': Mem)
    requires Computes(lib, g, g1, x, c, n, ca, v, m) && Nested(g, g1) && OperandOk(x, g1.nregs)
    requires Computes(lib, g1, h, y, ca, k, cb, w, m') && Nested(g1, h)
    ensures Computes(lib, g, h, y, c, n + k, cb, w, m') && Operate(x, cb.st) == Some(v) && Nested(g, h)
  {
    RunsThen(lib, g1, h, c, n, ca, k, cb);
    AfterTrans(g, g1, c.st, ca.st, cb.st, m');
    OperateKept(x, g1.nregs, ca.st, cb.st);
    NestedTrans(g, g1, h);
  }

  lemma SimTwo(p: Program, k: nat, cx: LCx, env: Env, e: Expr, a: Expr, b: Expr, g: Graph, c: Config, fuel: nat)
    returns (n: nat, c1: Config)
    requires Ready(p, k, cx, env, g, c) && ExprReady(cx, a) && ExprReady(cx, b) && a < e && b < e
    requires Eval(p, k, env, a, c.st.mem, fuel).Ok?
    requires Eval(p, k, env, b, Eval(p, k, env, a, c.st.mem, fuel).mem, fuel).Ok?
    ensures Computes(Lib(p, k), g, LowerExpr(LowerExpr(g, cx, a).0, cx, b).0, LowerExpr(LowerExpr(g, cx, a).0, cx, b).1,
                     c, n, c1,
                     Eval(p, k, env, b, Eval(p, k, env, a, c.st.mem, fuel).mem, fuel).value,
                     Eval(p, k, env, b, Eval(p, k, env, a, c.st.mem, fuel).mem, fuel).mem)
    ensures Operate(LowerExpr(g, cx, a).1, c1.st) == Some(Eval(p, k, env, a, c.st.mem, fuel).value)
    ensures Nested(g, LowerExpr(LowerExpr(g, cx, a).0, cx, b).0)
    decreases e, 0
  {
    var r := Eval(p, k, env, a, c.st.mem, fuel);
    var n1, ca := SimExpr(p, k, cx, env, a, g, c, fuel);
    ReadyAfter(p, k, cx, env, a, g, c, n1, ca, r.value, r.mem);
    var g1, x := LowerExpr(g, cx, a).0, LowerExpr(g, cx, a).1;
    n, c1 := SimSecond(p, k, cx, env, e, b, g, g1, x, c, n1, ca, r.value, r.mem, fuel);
  }

  lemma SimSecond(p: Program, k: nat, cx: LCx, env: Env, e: Expr, b: Expr, g: Graph, g1: Graph, x: Operand,
                  c: Config, n1: nat, ca: Config, v: Value, m: Mem, fuel: nat)
    returns (n: nat, c1: Config)
    requires Ready(p, k, cx, env, g1, ca) && ExprReady(cx, b) && b < e
    requires Computes(Lib(p, k), g, g1, x, c, n1, ca, v, m) && Nested(g, g1) && OperandOk(x, g1.nregs)
    requires Eval(p, k, env, b, m, fuel).Ok?
    ensures Computes(Lib(p, k), g, LowerExpr(g1, cx, b).0, LowerExpr(g1, cx, b).1, c, n, c1,
                     Eval(p, k, env, b, m, fuel).value, Eval(p, k, env, b, m, fuel).mem)
    ensures Operate(x, c1.st) == Some(v) && Nested(g, LowerExpr(g1, cx, b).0)
    decreases e, 0, 0
  {
    hide Match, Fits, SameHandles, Here, Runs, Extends, Eval, LowerExpr;
    var q := Eval(p, k, env, b, m, fuel);
    var n2, cb := SimExpr(p, k, cx, env, b, g1, ca, fuel);
    ExprNested(g1, cx, b);
    var h, y := LowerExpr(g1, cx, b).0, LowerExpr(g1, cx, b).1;
    ComputesThen(Lib(p, k), g, g1, h, x, y, c, n1, ca, v, m, n2, cb, q.value, q.mem);
    n, c1 := n1 + n2, cb;
  }

  /** The instruction of an operator or element access. */
  function TwoInstr(e: Expr, dst: nat, x: Operand, y: Operand): Instr
    requires e.Bin? || e.Elem?
  {
    if e.Bin? then BinI(dst, e.op, x, y) else LoadI(dst, x, y)
  }

  lemma TwoCode(g: Graph, cx: LCx, e: Expr, a: Expr, b: Expr)
    requires (e.Bin? && e.l == a && e.r == b) || e == Elem(a, b)
    ensures var g1, x := LowerExpr(g, cx, a).0, LowerExpr(g, cx, a).1;
            var g2, y := LowerExpr(g1, cx, b).0, LowerExpr(g1, cx, b).1;
            LowerExpr(g, cx, e) == (Define(g2, TwoInstr(e, g2.nregs, x, y)), Reg(g2.nregs))
  {
  }

  /** With both operands evaluated, the instruction does what is left to do. */
  lemma TwoPerforms(p: Program, k: nat, env: Env, e: Expr, a: Expr, b: Expr, m: Mem, fuel: nat, dst: nat, x: Operand, y: Operand, st: State)
    requires k <= |p.fns| && EnvShape(env) && ((e.Bin? && e.l == a && e.r == b) || e == Elem(a, b))
    requires Eval(p, k, env, e, m, fuel).Ok? && Eval(p, k, env, a, m, fuel).Ok?
    requires var r := Eval(p, k, env, a, m, fuel);
             var q := Eval(p, k, env, b, r.mem, fuel);
             q.Ok? && st.mem == q.mem && Operate(x, st) == Some(r.value) && Operate(y, st) == Some(q.value)
    ensures var r := Eval(p, k, env, e, m, fuel);
            Perform(p.classes, TwoInstr(e, dst, x, y), st) == Some(Put(st, dst, r.value, r.mem))
  {
    hide BinOp, LoadCell, Deref, CheckCell;
  }

  lemma TwoOk(p: Program, k: nat, env: Env, e: Expr, a: Expr, b: Expr, m: Mem, fuel: nat)
    requires k <= |p.fns| && EnvShape(env) && ((e.Bin? && e.l == a && e.r == b) || e == Elem(a, b))
    requires Eval(p, k, env, e, m, fuel).Ok?
    ensures var r := Eval(p, k, env, a, m, fuel); r.Ok? && Eval(p, k, env, b, r.mem, fuel).Ok?
  {
    hide BinOp, LoadCell;
  }

  lemma ComputedKept(lib: Library, g: Graph, h: Graph, o: Operand, c: Config, n: nat, c1: Config, v: Value, m: Mem)
    requires Computes(lib, g, h, o, c, n, c1, v, m)
    ensures Runs(lib, h, c, n, c1) && Here(h, c1) && Open(h) && c1.st.mem == m && Operate(o, c1.st) == Some(v)
    ensures KeptRegs(g.nregs, c.st, c1.st) && KeptSlots(g.nslots, c.st, c1.st)
  {
  }

  lemma SimTwoThen(p: Program, k: nat, cx: LCx, env: Env, e: Expr, a: Expr, b: Expr, g: Graph, c: Config, fuel: nat)
    returns (n: nat, c1: Config)
    requires Ready(p, k, cx, env, g, c) && ExprReady(cx, e) && ((e.Bin? && e.l == a && e.r == b) || e == Elem(a, b))
    requires Eval(p, k, env, e, c.st.mem, fuel).Ok?
    ensures Computes(Lib(p, k), g, LowerExpr(g, cx, e).0, LowerExpr(g, cx, e).1, c, n, c1,
                     Eval(p, k, env, e, c.st.mem, fuel).value, Eval(p, k, env, e, c.st.mem, fuel).mem)
    decreases e, 1
  {
    hide Match, Here, Operate, Fits, Runs, Extends, Nested, Eval, LowerExpr, Perform, Find, Computes, KeptRegs, KeptSlots;
    TwoOk(p, k, env, e, a, b, c.st.mem, fuel);
    TwoCode(g, cx, e, a, b);
    var n1, c2 := SimTwo(p, k, cx, env, e, a, b, g, c, fuel);
    var g1, x := LowerExpr(g, cx, a).0, LowerExpr(g, cx, a).1;
    var g2, y := LowerExpr(g1, cx, b).0, LowerExpr(g1, cx, b).1;
    var r, q := Eval(p, k, env, e, c.st.mem, fuel), Eval(p, k, env, b, Eval(p, k, env, a, c.st.mem, fuel).mem, fuel);
    ComputedKept(Lib(p, k), g, g2, y, c, n1, c2, q.value, q.mem);
    TwoPerforms(p, k, env, e, a, b, c.st.mem, fuel, g2.nregs, x, y, c2.st);
    n, c1 := ThenDefine(Lib(p, k), g, g2, TwoInstr(e, g2.nregs, x, y), c, n1, c2, r.value, r.mem);
  }

  lemma PerformLength(lib: Library, d: nat, o: Operand, st: State, v: Value)
    requires Operate(o, st) == Some(v) && LoadLength(st.mem, v).Good?
    ensures Perform(lib.classes, LengthI(d, o), st) == Some(Put(st, d, LoadLength(st.mem, v).value, st.mem))
  {
  }

  lemma PerformField(lib: Library, d: nat, o: Operand, f: Name, st: State, v: Value)
    requires Operate(o, st) == Some(v) && LoadField(st.mem, v, f).Good?
    ensures Perform(lib.classes, LoadF(d, o, f), st) == Some(Put(st, d, LoadField(st.mem, v, f).value, st.mem))
  {
  }

  lemma SimLength(p: Program, k: nat, cx: LCx, env: Env, e: Expr, g: Graph, c: Config, fuel: nat)
    returns (n: nat, c1: Config)
    requires Ready(p, k, cx, env, g, c) && ExprReady(cx, e) && e.Length?
    requires Eval(p, k, env, e, c.st.mem, fuel).Ok?
    ensures Computes(Lib(p, k), g, LowerExpr(g, cx, e).0, LowerExpr(g, cx, e).1, c, n, c1,
                     Eval(p, k, env, e, c.st.mem, fuel).value, Eval(p, k, env, e, c.st.mem, fuel).mem)
    decreases e, 1
  {
    var q := Eval(p, k, env, e.arr, c.st.mem, fuel);
    var n1, c2 := SimExpr(p, k, cx, env, e.arr, g, c, fuel);
    ExprNested(g, cx, e.arr);
    var g1, x := LowerExpr(g, cx, e.arr).0, LowerExpr(g, cx, e.arr).1;
    PerformLength(Lib(p, k), g1.nregs, x, c2.st, q.value);
    var v := LoadLength(q.mem, q.value).value;
    n, c1 := ThenDefine(Lib(p, k), g, g1, LengthI(g1.nregs, x), c, n1, c2, v, q.mem);
  }

  lemma SimField(p: Program, k: nat, cx: LCx, env: Env, e: Expr, g: Graph, c: Config, fuel: nat)
    returns (n: nat, c1: Config)
    requires Ready(p, k, cx, env, g, c) && ExprReady(cx, e) && e.Field?
    requires Eval(p, k, env, e, c.st.mem, fuel).Ok?
    ensures Computes(Lib(p, k), g, LowerExpr(g, cx, e).0, LowerExpr(g, cx, e).1, c, n, c1,
                     Eval(p, k, env, e, c.st.mem, fuel).value, Eval(p, k, env, e, c.st.mem, fuel).mem)
    decreases e, 1
  {
    var q := Eval(p, k, env, e.obj, c.st.mem, fuel);
    var n1, c2 := SimExpr(p, k, cx, env, e.obj, g, c, fuel);
    ExprNested(g, cx, e.obj);
    var g1, x := LowerExpr(g, cx, e.obj).0, LowerExpr(g, cx, e.obj).1;
    PerformField(Lib(p, k), g1.nregs, x, e.f, c2.st, q.value);
    var v := LoadField(q.mem, q.value, e.f).value;
    n, c1 := ThenDefine(Lib(p, k), g, g1, LoadF(g1.nregs, x, e.f), c, n1, c2, v, q.mem);
  }

  /** The handle of the default region. */
  lemma DefaultSame(cx: LCx, env: Env, st: State)
    requires SameHandles(cx, env, st) && env.handles != []
    ensures Operate(Lowering.Default(cx).1, st) == Some(VRegion(Interp.Default(env).1))
  {
  }

  lemma SimFill(p: Program, k: nat, cx: LCx, env: Env, e: Expr, g: Graph, c: Config, fuel: nat)
    returns (n: nat, c1: Config)
    requires Ready(p, k, cx, env, g, c) && ExprReady(cx, e) && e.Fill?
    requires Eval(p, k, env, e, c.st.mem, fuel).Ok?
    ensures Computes(Lib(p, k), g, LowerExpr(g, cx, e).0, LowerExpr(g, cx, e).1, c, n, c1,
                     Eval(p, k, env, e, c.st.mem, fuel).value, Eval(p, k, env, e, c.st.mem, fuel).mem)
    decreases e, 1
  {
    var r := Eval(p, k, env, e.v, c.st.mem, fuel);
    var q := Eval(p, k, env, e.count, r.mem, fuel);
    var n1, c2 := SimTwo(p, k, cx, env, e, e.v, e.count, g, c, fuel);
    var g1, x := LowerExpr(g, cx, e.v).0, LowerExpr(g, cx, e.v).1;
    var g2, y := LowerExpr(g1, cx, e.count).0, LowerExpr(g1, cx, e.count).1;
    TwoOperands(g, cx, e, e.v, e.count);
    MatchKept(cx, env, g, c.st, c2.st);
    n, c1 := ThenFill(Lib(p, k), cx, env, g, g2, x, y, c, n1, c2, r.value, q.value, q.mem);
  }

  /** The fill loop after its value and count. */
  lemma ThenFill(lib: Library, cx: LCx, env: Env, g: Graph, g2: Graph, x: Operand, y: Operand,
                 c: Config, n1: nat, c2: Config, v: Value, len: Value, m: Mem)
    returns (n: nat, c1: Config)
    requires Computes(lib, g, g2, y, c, n1, c2, len, m) && Operate(x, c2.st) == Some(v) && Nested(g, g2)
    requires OperandOk(x, g2.nregs) && OperandOk(y, g2.nregs)
    requires EnvShape(env) && SameHandles(cx, env, c2.st)
    requires AllocArray(m, Interp.Default(env).1, v, len).Ok?
    ensures Computes(lib, g, LowerFill(g2, Lowering.Default(cx).1, x, y), Reg(g2.nregs), c, n, c1,
                     AllocArray(m, Interp.Default(env).1, v, len).value, AllocArray(m, Interp.Default(env).1, v, len).mem)
  {
    hide Match, Fits, SameHandles, Here, Runs, Extends;
    DefaultSame(cx, env, c2.st);
    var rid := Interp.Default(env).1;
    var n2;
    n2, c1 := FillRuns(lib, g2, Lowering.Default(cx).1, x, y, c2, rid, len.n, v);
    FillNested(g2, Lowering.Default(cx).1, x, y);
    n := n1 + n2;
    ComputesThen(lib, g, g2, LowerFill(g2, Lowering.Default(cx).1, x, y), y, Reg(g2.nregs), c, n1, c2,
                 len, m, n2, c1, VRef(m.next), AllocArray(m, rid, v, len).mem);
  }

  lemma TwoOperands(g: Graph, cx: LCx, e: Expr, a: Expr, b: Expr)
    requires Open(g) && a < e && b < e && Fits(cx, g.nregs, g.nslots)
    ensures OperandOk(LowerExpr(g, cx, a).1, LowerExpr(LowerExpr(g, cx, a).0, cx, b).0.nregs)
    ensures OperandOk(LowerExpr(LowerExpr(g, cx, a).0, cx, b).1, LowerExpr(LowerExpr(g, cx, a).0, cx, b).0.nregs)
  {
    var g1 := LowerExpr(g, cx, a).0;
    ExprNested(g, cx, a);
    ExprOperand(g, cx, a);
    FitsGrows(cx, g, g1);
    ExprNested(g1, cx, b);
    ExprOperand(g1, cx, b);
  }

  lemma {:induction false} SimList(p: Program, k: nat, cx: LCx, env: Env, es: seq<Expr>, g: Graph, c: Config, fuel: nat)
    returns (n: nat, c1: Config)
    requires Ready(p, k, cx, env, g, c) && forall e :: e in es ==> ExprReady(cx, e)
    requires EvalList(p, k, env, es, c.st.mem, fuel).Ok?
    ensures ListComputes(Lib(p, k), g, LowerList(g, cx, es).0, LowerList(g, cx, es).1, c, n, c1,
              EvalList(p, k, env, es, c.st.mem, fuel).value, EvalList(p, k, env, es, c.st.mem, fuel).mem)
    decreases es
  {
    if es == [] {
      n, c1 := 0, c;
    } else {
      var r := Eval(p, k, env, es[0], c.st.mem, fuel);
      var n1, c2 := SimExpr(p, k, cx, env, es[0], g, c, fuel);
      ReadyAfter(p, k, cx, env, es[0], g, c, n1, c2, r.value, r.mem);
      n, c1 := SimTail(p, k, cx, env, es, g, c, n1, c2, fuel);
    }
  }

  ghost predicate ListComputes(lib: Library, g: Graph, h: Graph, xs: seq<Operand>, c: Config, n: nat, c1: Config,
                               vs: seq<Value>, m: Mem) {
    Runs(lib, h, c, n, c1) && Here(h, c1) && After(g, c.st, c1.st, m) && HoldsAll(xs, vs, c1.st)
  }

  /** The rest of a list after its first element. */
  lemma SimTail(p: Program, k: nat, cx: LCx, env: Env, es: seq<Expr>, g: Graph, c: Config, n1: nat, c2: Config, fuel: nat)
    returns (n: nat, c1: Config)
    requires es != [] && k <= |p.fns| && EnvShape(env) && Ready(p, k, cx, env, LowerExpr(g, cx, es[0]).0, c2)
    requires forall e :: e in es ==> ExprReady(cx, e)
    requires EvalList(p, k, env, es, c.st.mem, fuel).Ok?
    requires Computes(Lib(p, k), g, LowerExpr(g, cx, es[0]).0, LowerExpr(g, cx, es[0]).1, c, n1, c2,
                      Eval(p, k, env, es[0], c.st.mem, fuel).value, Eval(p, k, env, es[0], c.st.mem, fuel).mem)
    requires Nested(g, LowerExpr(g, cx, es[0]).0) && OperandOk(LowerExpr(g, cx, es[0]).1, LowerExpr(g, cx, es[0]).0.nregs)
    ensures ListComputes(Lib(p, k), g, LowerList(g, cx, es).0, LowerList(g, cx, es).1, c, n, c1,
              EvalList(p, k, env, es, c.st.mem, fuel).value, EvalList(p, k, env, es, c.st.mem, fuel).mem)
    decreases es, 0
  {
    var r := Eval(p, k, env, es[0], c.st.mem, fuel);
    var g1, x := LowerExpr(g, cx, es[0]).0, LowerExpr(g, cx, es[0]).1;
    var q := EvalList(p, k, env, es[1..], r.mem, fuel);
    var n2;
    n2, c1 := SimList(p, k, cx, env, es[1..], g1, c2, fuel);
    ListNested(g1, cx, es[1..]);
    n := n1 + n2;
    ThenList(Lib(p, k), g, g1, LowerList(g1, cx, es[1..]).0, x, LowerList(g1, cx, es[1..]).1,
             c, n1, c2, r.value, r.mem, n2, c1, q.value, q.mem);
  }

  lemma ThenList(lib: Library, g: Graph, g1: Graph, h: Graph, x: Operand, xs: seq<Operand>,
                 c: Config, n1: nat, c2: Config, v: Value, m: Mem, n2: nat, c1: Config, vs: seq<Value>, m': Mem)
    requires Computes(lib, g, g1, x, c, n1, c2, v, m) && Nested(g, g1) && OperandOk(x, g1.nregs)
    requires Runs(lib, h, c2, n2, c1) && After(g1, c2.st, c1.st, m') && HoldsAll(xs, vs, c1.st) && Nested(g1, h)
    ensures Runs(lib, h, c, n1 + n2, c1) && After(g, c.st, c1.st, m') && HoldsAll([x] + xs, [v] + vs, c1.st)
  {
    OperateKept(x, g1.nregs, c2.st, c1.st);
    AfterTrans(g, g1, c.st, c2.st, c1.st, m');
    RunsThen(lib, g1, h, c, n1, c2, n2, c1);
  }

  lemma SimLit(p: Program, k: nat, cx: LCx, env: Env, e: Expr, g: Graph, c: Config, fuel: nat)
    returns (n: nat, c1: Config)
    requires Ready(p, k, cx, env, g, c) && ExprReady(cx, e) && e.Lit?
    requires Eval(p, k, env, e, c.st.mem, fuel).Ok?
    ensures Computes(Lib(p, k), g, LowerExpr(g, cx, e).0, LowerExpr(g, cx, e).1, c, n, c1,
                     Eval(p, k, env, e, c.st.mem, fuel).value, Eval(p, k, env, e, c.st.mem, fuel).mem)
    decreases e, 1
  {
    hide Find, FindVar, Declared, GetHandle, FindFn, Exec, Lowering.ForLoop, RunFn, EvalList, EvalTarget, StorePlace, Steps, Step, Perform, At;
    var r := EvalList(p, k, env, e.es, c.st.mem, fuel);
    var n1, c2 := SimList(p, k, cx, env, e.es, g, c, fuel);
    ListNested(g, cx, e.es);
    ListOperands(g, cx, e.es);
    var g1, xs := LowerList(g, cx, e.es).0, LowerList(g, cx, e.es).1;
    MatchKept(cx, env, g, c.st, c2.st);
    DefaultSame(cx, env, c2.st);
    var n2;
    n2, c1 := LitRuns(Lib(p, k), g1, Lowering.Default(cx).1, xs, c2, Interp.Default(env).1, r.value);
    var i := AllocI(g1.nregs, Lowering.Default(cx).1, Imm(|e.es|));
    EmitNested(g1, i);
    StoresNested(Define(g1, i), Reg(g1.nregs), xs, 0);
    n := n1 + n2;
    RunsThen(Lib(p, k), g1, LowerExpr(g, cx, e).0, c, n1, c2, n2, c1);
  }

  // ---------- Calls ----------

  lemma {:induction false} OperatesAll(xs: seq<Operand>, vs: seq<Value>, st: State)
    requires HoldsAll(xs, vs, st)
    ensures OperateAll(xs, st) == Some(vs)
  {
    if xs != [] {
      assert Operate(xs[0], st) == Some(vs[0]);
      OperatesAll(xs[1..], vs[1..], st);
      assert vs == [vs[0]] + vs[1..];
    }
  }

  /** A call finds the function that the interpreter finds, and passes it the same handle and
      arguments; where the interpreter finds none that fits, it passes nothing. */
  lemma CallPasses(p: Program, k: nat, cx: LCx, env: Env, e: Expr, i: Instr, st: State, vs: seq<Value>)
    requires k <= |p.fns| && env.handles != [] && SameHandles(cx, env, st) && ExprReady(cx, e) && e.Call?
    requires i.CallI? && i.fn == e.fn && i.region == HandleOf(cx, e.regions) && HoldsAll(i.args, vs, st)
    ensures var h, j := GetHandle(env.handles, CallRegions(e.regions, Interp.Default(env).0)[0]), FindFn(p, k, e.fn);
            && h.Some?
            && Passed(Lib(p, k), i, st)
               == if j.Some? && |vs| == |p.fns[j.value].params| then Some((j.value, h.value, vs)) else None
  {
    hide Find, LowerFn, FindFn, FindUnit, GetHandle;
    HandlesFound(cx, env, st, CallRegions(e.regions, Interp.Default(env).0)[0]);
    var x := HandleSame(cx.handles, env.handles, CallRegions(e.regions, Interp.Default(env).0)[0]);
    OperatesAll(i.args, vs, st);
    LibFinds(p, k, e.fn);
  }

  /** A name that has a handle in the code has one in the interpreter. */
  lemma HandlesFound(cx: LCx, env: Env, st: State, name: Name)
    requires SameHandles(cx, env, st) && name in HandleNames(cx)
    ensures GetHandle(env.handles, name).Some?
  {
    var i :| 0 <= i < |cx.handles| && cx.handles[i].0 == name;
    assert env.handles[i] in env.handles && env.handles[i].0 == name;
  }

  /** The arguments of a call, up to the call. */
  lemma ArgsRun(p: Program, k: nat, cx: LCx, env: Env, e: Expr, g: Graph, c: Config, fuel: nat)
    returns (n: nat, c1: Config)
    requires Ready(p, k, cx, env, g, c) && ExprReady(cx, e) && e.Call?
    requires EvalList(p, k, env, e.args, c.st.mem, fuel).Ok?
    ensures var r := EvalList(p, k, env, e.args, c.st.mem, fuel);
            var g1, xs := LowerList(g, cx, e.args).0, LowerList(g, cx, e.args).1;
            var h, j := GetHandle(env.handles, CallRegions(e.regions, Interp.Default(env).0)[0]), FindFn(p, k, e.fn);
            && ListComputes(Lib(p, k), g, g1, xs, c, n, c1, r.value, r.mem)
            && Runs(Lib(p, k), g1, c, n, c1) && Here(g1, c1) && Nested(g, g1) && Open(g1) && c1.st.mem == r.mem
            && Callees(p, k) && h.Some?
            && Passed(Lib(p, k), CallI(g1.nregs, e.fn, HandleOf(cx, e.regions), xs), c1.st)
               == if j.Some? && |r.value| == |p.fns[j.value].params| then Some((j.value, h.value, r.value)) else None
    decreases e, 0
  {
    hide Find, Fits, GetHandle, FindFn, Steps, Passed, LowerFn, Extends, LowerExpr, LowerList, Callees, Match, After, Eval, EvalList;
    var r := EvalList(p, k, env, e.args, c.st.mem, fuel);
    var g1, xs := LowerList(g, cx, e.args).0, LowerList(g, cx, e.args).1;
    ArgsReady(cx, e);
    n, c1 := SimList(p, k, cx, env, e.args, g, c, fuel);
    ListReady(p, k, cx, env, e.args, g, c, n, c1, r.value, r.mem);
    CallPasses(p, k, cx, env, e, CallI(g1.nregs, e.fn, HandleOf(cx, e.regions), xs), c1.st, r.value);
  }

  lemma SimCall(p: Program, k: nat, cx: LCx, env: Env, e: Expr, g: Graph, c: Config, fuel: nat)
    returns (n: nat, c1: Config)
    requires Ready(p, k, cx, env, g, c) && ExprReady(cx, e) && e.Call?
    requires Eval(p, k, env, e, c.st.mem, fuel).Ok?
    ensures Computes(Lib(p, k), g, LowerExpr(g, cx, e).0, LowerExpr(g, cx, e).1, c, n, c1,
                     Eval(p, k, env, e, c.st.mem, fuel).value, Eval(p, k, env, e, c.st.mem, fuel).mem)
    decreases e, 1
  {
    hide Find, Fits, GetHandle, FindFn, RunFn, Steps, Passed, LowerFn, Extends, Eval, LowerExpr, Callees, Match, After;
    CallCode(g, cx, e);
    CallEval(p, k, env, e, c.st.mem, fuel);
    var r := EvalList(p, k, env, e.args, c.st.mem, fuel);
    var g1, xs := LowerList(g, cx, e.args).0, LowerList(g, cx, e.args).1;
    var i := CallI(g1.nregs, e.fn, HandleOf(cx, e.regions), xs);
    var n1, c2 := ArgsRun(p, k, cx, env, e, g, c, fuel);
    var j, rid := FindFn(p, k, e.fn).value, GetHandle(env.handles, CallRegions(e.regions, Interp.Default(env).0)[0]).value;
    var n2;
    n2, c1 := CallRuns(p, k, g1, i, c2, j, rid, r.value, fuel);
    n := n1 + n2;
    ThenCall(Lib(p, k), g, g1, i, xs, c, n1, c2, r.value, n2, c1, RunFn(p, j, rid, r.value, r.mem, fuel));
  }

  lemma CallCode(g: Graph, cx: LCx, e: Expr)
    requires e.Call?
    ensures var g1, xs := LowerList(g, cx, e.args).0, LowerList(g, cx, e.args).1;
            LowerExpr(g, cx, e) == (Define(g1, CallI(g1.nregs, e.fn, HandleOf(cx, e.regions), xs)), Reg(g1.nregs))
  {
  }

  /** What the interpreter makes of a call. */
  lemma CallEval(p: Program, k: nat, env: Env, e: Expr, m: Mem, fuel: nat)
    requires k <= |p.fns| && EnvShape(env) && e.Call?
    ensures var r, w := EvalList(p, k, env, e.args, m, fuel), Eval(p, k, env, e, m, fuel);
            if r.Ok? then
              var j, h := FindFn(p, k, e.fn), GetHandle(env.handles, CallRegions(e.regions, Interp.Default(env).0)[0]);
              if j.None? || h.None? then w == Fail(Stuck)
              else
                && w == RunFn(p, j.value, h.value, r.value, r.mem, fuel)
                && (|r.value| != |p.fns[j.value].params| ==> w == Fail(Stuck))
            else if r.Fail? then w == Fail(r.fault)
            else w == Timeout
  {
    hide EvalList;
  }

  lemma ArgsReady(cx: LCx, e: Expr)
    requires ExprReady(cx, e) && e.Call?
    ensures forall a :: a in e.args ==> ExprReady(cx, a)
  {
  }

  /** After a list's code the scope still matches. */
  lemma ListReady(p: Program, k: nat, cx: LCx, env: Env, es: seq<Expr>, g: Graph, c: Config, n: nat, c1: Config, vs: seq<Value>, m: Mem)
    requires Ready(p, k, cx, env, g, c)
    requires ListComputes(Lib(p, k), g, LowerList(g, cx, es).0, LowerList(g, cx, es).1, c, n, c1, vs, m)
    ensures Nested(g, LowerList(g, cx, es).0) && Open(LowerList(g, cx, es).0) && Here(LowerList(g, cx, es).0, c1)
    ensures k <= |p.fns| && Callees(p, k) && EnvShape(env) && c1.st.mem == m
    ensures SameHandles(cx, env, c1.st) && HoldsAll(LowerList(g, cx, es).1, vs, c1.st)
  {
    hide Callees, Steps, LowerList;
    ListNested(g, cx, es);
    MatchKept(cx, env, g, c.st, c1.st);
  }

  /** The arguments, then the call. */
  lemma ThenCall(lib: Library, g: Graph, h: Graph, i: Instr, xs: seq<Operand>, c: Config, n1: nat, c2: Config, vs: seq<Value>,
                 n2: nat, c1: Config, r: Res<Value>)
    requires ListComputes(lib, g, h, xs, c, n1, c2, vs, c2.st.mem) && Nested(g, h) && r.Ok? && i.CallI? && i.dst == h.nregs
    requires Runs(lib, Define(h, i), c2, n2, c1) && Here(Define(h, i), c1) && c1.st == Put(c2.st, i.dst, r.value, r.mem)
    ensures Computes(lib, g, Define(h, i), Reg(h.nregs), c, n1 + n2, c1, r.value, r.mem)
  {
    hide Steps;
    EmitNested(h, i);
    RunsThen(lib, h, Define(h, i), c, n1, c2, n2, c1);
  }

  /** What a call that is emitted next does, when its function returns. */
  lemma CallRuns(p: Program, k: nat, g: Graph, i: Instr, c: Config, j: nat, rid: nat, vs: seq<Value>, fuel: nat)
    returns (n: nat, c1: Config)
    requires k <= |p.fns| && Callees(p, k) && Here(g, c) && i.CallI? && Passed(Lib(p, k), i, c.st) == Some((j, rid, vs)) && j < k
    requires |vs| == |p.fns[j].params| && RunFn(p, j, rid, vs, c.st.mem, fuel).Ok?
    ensures Runs(Lib(p, k), Define(g, i), c, n, c1) && Here(Define(g, i), c1)
    ensures var r := RunFn(p, j, rid, vs, c.st.mem, fuel); c1.st == Put(c.st, i.dst, r.value, r.mem)
  {
    hide RunFn, Steps, Step, Passed, LowerFn;
    assert Simulated(p, j, rid, vs, c.st.mem, fuel);
    var n2: nat, c2: Config :| FnDone(Lib(p, j), RunFn(p, j, rid, vs, c.st.mem, fuel), UnitOf(p.fns[j]).graph,
                                      Start(rid, vs, c.st.mem), fuel, n2, c2);
    LibBefore(p, k, j);
    var r := RunFn(p, j, rid, vs, c.st.mem, fuel);
    assert AtCall(Lib(p, k), Define(g, i), i, c, j, rid, vs);
    CallReturns(Lib(p, k), Define(g, i), i, c, j, rid, vs, n2, c2, r.value);
    n, c1 := n2 + 2, Config(c.block, c.idx + 1, Put(c.st, i.dst, r.value, r.mem));
  }

  /** An expression's code, and what it leaves for the code after it. */
  lemma RunExpr(p: Program, k: nat, cx: LCx, env: Env, e: Expr, g: Graph, c: Config, fuel: nat)
    returns (n: nat, c1: Config)
    requires Ready(p, k, cx, env, g, c) && ExprReady(cx, e)
    requires Eval(p, k, env, e, c.st.mem, fuel).Ok?
    ensures Computes(Lib(p, k), g, LowerExpr(g, cx, e).0, LowerExpr(g, cx, e).1, c, n, c1,
                     Eval(p, k, env, e, c.st.mem, fuel).value, Eval(p, k, env, e, c.st.mem, fuel).mem)
    ensures Ready(p, k, cx, env, LowerExpr(g, cx, e).0, c1) && Nested(g, LowerExpr(g, cx, e).0)
    ensures OperandOk(LowerExpr(g, cx, e).1, LowerExpr(g, cx, e).0.nregs)
  {
    n, c1 := SimExpr(p, k, cx, env, e, g, c, fuel);
    ReadyAfter(p, k, cx, env, e, g, c, n, c1, Eval(p, k, env, e, c.st.mem, fuel).value, Eval(p, k, env, e, c.st.mem, fuel).mem);
  }
}
