/** Lowering preserves the meaning of statements.

    If the interpreter finishes a statement, the emitted blocks run to the end of the code
    with the same memory and the same variables. */
module Correctness {
  import opened Basics
  import opened RegionTypes
  import opened Lang
  import opened Memory
  import opened Interp
  import opened Ir
  import opened Lowering
  import opened Growth
  import opened Homes
  import opened Running
  import opened Simulation

  // ---------- Scopes of statements ----------

  lemma MatchExtend(cx: LCx, env: Env, st: State, t: Tag, h: Home, v: Value)
    requires Match(cx, env, st) && (v != Undef ==> Holds(h, v, st))
    ensures Match(cx.(tags := cx.tags + [t], homes := cx.homes + [h]), Extend(env, t, v), st)
  {
  }

  /** Names of an arm that did not run have no value. */
  lemma MatchUndefs(cx: LCx, env: Env, st: State, ts: seq<Tag>, hs: seq<Home>)
    requires Match(cx, env, st) && |ts| == |hs|
    ensures Match(cx.(tags := cx.tags + ts, homes := cx.homes + hs),
                  env.(tags := env.tags + ts, vals := env.vals + Undefs(|ts|)), st)
  {
  }

  /** Leaving an inner scope. */
  lemma MatchLeave(cx: LCx, env: Env, inner: LCx, innerEnv: Env, st: State)
    requires Match(inner, innerEnv, st) && SameHandles(cx, env, st)
    requires cx.tags == env.tags && cx.depth == env.depth && |cx.homes| == |env.vals|
    requires cx.homes <= inner.homes && |env.vals| <= |innerEnv.vals|
    ensures Match(cx, env.(vals := innerEnv.vals[..|env.vals|]), st)
  {
    forall i | 0 <= i < |env.vals| && innerEnv.vals[i] != Undef
      ensures Holds(cx.homes[i], innerEnv.vals[i], st)
    {
      assert cx.homes[i] == inner.homes[i];
    }
  }

  lemma AfterTwo(cx: LCx, a: Stmt, hs: seq<Home>, b: Stmt, ks: seq<Home>, s: Stmt)
    requires Declared(s, cx.depth) == Declared(a, cx.depth) + Declared(b, cx.depth)
    ensures CxAfter(CxAfter(cx, a, hs), b, ks) == CxAfter(cx, s, hs + ks)
  {
    var ta, tb := Declared(a, cx.depth), Declared(b, cx.depth);
    assert cx.tags + ta + tb == cx.tags + (ta + tb);
    assert cx.homes + hs + ks == cx.homes + (hs + ks);
  }

  /** The outcome of a statement's code `h`, from `c` where graph `g` ended. */
  ghost predicate Done(lib: Library, r: Res<seq<Value>>, g: Graph, h: Graph, cx: LCx, env: Env,
                       c: Config, n: nat, c1: Config) {
    match r
    case Ok(vals, m) =>
      && Runs(lib, h, c, n, c1) && Here(h, c1) && KeptRegs(g.nregs, c.st, c1.st) && c1.st.mem == m
      && Match(cx, env.(vals := vals), c1.st)
    case _ => true
  }

  ghost predicate StmtDone(p: Program, k: nat, cx: LCx, env: Env, s: Stmt, g: Graph, c: Config, fuel: nat, n: nat, c1: Config)
    requires k <= |p.fns| && EnvShape(env)
  {
    Done(Lib(p, k), Exec(p, k, env, s, c.st.mem, fuel), g, LowerStmt(g, cx, s).0,
         CxAfter(cx, s, LowerStmt(g, cx, s).1), EnvAfter(env, s, []), c, n, c1)
  }

  // ---------- Statements ----------

  lemma {:induction false} SimStmt(p: Program, k: nat, cx: LCx, env: Env, s: Stmt, g: Graph, c: Config, fuel: nat)
    returns (n: nat, c1: Config)
    requires Ready(p, k, cx, env, g, c) && StmtReady(cx, s)
    ensures StmtDone(p, k, cx, env, s, g, c, fuel, n, c1)
    decreases fuel, s, 2
  {
    n, c1 := 0, c;
    match s
    case Skip =>
      assert CxAfter(cx, s, []) == cx && EnvAfter(env, s, env.vals) == env;
    case Seq(_, _) => n, c1 := SimSeq(p, k, cx, env, s, g, c, fuel);
    case Var(_, _) => n, c1 := SimVar(p, k, cx, env, s, g, c, fuel);
    case Let(_, _) => n, c1 := SimLet(p, k, cx, env, s, g, c, fuel);
    case Assign(_, _) => n, c1 := SimAssign(p, k, cx, env, s, g, c, fuel);
    case Do(_) => n, c1 := SimDo(p, k, cx, env, s, g, c, fuel);
    case If(_, _, els) =>
      if els.Skip? { n, c1 := SimIf(p, k, cx, env, s, g, c, fuel); } else { n, c1 := SimIfElse(p, k, cx, env, s, g, c, fuel); }
    case While(_, _) => n, c1 := SimWhile(p, k, cx, env, s, g, c, fuel);
    case For(_, _, _, _) => n, c1 := SimFor(p, k, cx, env, s, g, c, fuel);
    case On(_, _) => n, c1 := SimOn(p, k, cx, env, s, g, c, fuel);
  }

  /** After a statement the next one can start. */
  lemma ReadyNext(p: Program, k: nat, cx: LCx, env: Env, s: Stmt, g: Graph, c: Config, fuel: nat, n: nat, c1: Config)
    requires Ready(p, k, cx, env, g, c) && StmtDone(p, k, cx, env, s, g, c, fuel, n, c1)
    requires Exec(p, k, env, s, c.st.mem, fuel).Ok?
    ensures Ready(p, k, CxAfter(cx, s, LowerStmt(g, cx, s).1), EnvAfter(env, s, Exec(p, k, env, s, c.st.mem, fuel).value),
                  LowerStmt(g, cx, s).0, c1)
    ensures Nested(g, LowerStmt(g, cx, s).0)
  {
    StmtNested(g, cx, s);
    StmtHomes(g, cx, s);
    FitsAfter(g, cx, s);
  }

  lemma SimSeq(p: Program, k: nat, cx: LCx, env: Env, s: Stmt, g: Graph, c: Config, fuel: nat)
    returns (n: nat, c1: Config)
    requires Ready(p, k, cx, env, g, c) && StmtReady(cx, s) && s.Seq?
    ensures StmtDone(p, k, cx, env, s, g, c, fuel, n, c1)
    decreases fuel, s, 1
  {
    n, c1 := SimStmt(p, k, cx, env, s.s1, g, c, fuel);
    var r := Exec(p, k, env, s.s1, c.st.mem, fuel);
    var g1, hs := LowerStmt(g, cx, s.s1).0, LowerStmt(g, cx, s.s1).1;
    var cx1 := CxAfter(cx, s.s1, hs);
    StmtNested(g, cx, s.s1);
    StmtNested(g1, cx1, s.s2);
    var h := LowerStmt(g1, cx1, s.s2).0;
    if r.Ok? {
      ReadyNext(p, k, cx, env, s.s1, g, c, fuel, n, c1);
      var n2, c2 := SimStmt(p, k, cx1, EnvAfter(env, s.s1, r.value), s.s2, g1, c1, fuel);
      AfterTwo(cx, s.s1, hs, s.s2, LowerStmt(g1, cx1, s.s2).1, s);
      var q := Exec(p, k, EnvAfter(env, s.s1, r.value), s.s2, r.mem, fuel);
      if q.Ok? {
        RunsThen(Lib(p, k), g1, h, c, n, c1, n2, c2);
      }
      n, c1 := n + n2, c2;
    }
  }

  lemma SimVar(p: Program, k: nat, cx: LCx, env: Env, s: Stmt, g: Graph, c: Config, fuel: nat)
    returns (n: nat, c1: Config)
    requires Ready(p, k, cx, env, g, c) && StmtReady(cx, s) && s.Var?
    ensures StmtDone(p, k, cx, env, s, g, c, fuel, n, c1)
    decreases fuel, s, 1
  {
    hide Callees, Eval, LowerExpr, Steps, Extends, Fits, SameHandles, Open;
    n, c1 := 0, c;
    var r := Eval(p, k, env, s.e, c.st.mem, fuel);
    if r.Ok? {
      var n1, c2 := SimExpr(p, k, cx, env, s.e, g, c, fuel);
      ReadyAfter(p, k, cx, env, s.e, g, c, n1, c2, r.value, r.mem);
      var g1, o := LowerExpr(g, cx, s.e).0, LowerExpr(g, cx, s.e).1;
      var i := StoreVar(g1.nslots, o);
      var st := c2.st.(slots := c2.st.slots[g1.nslots := r.value]);
      n := RunsMore(Lib(p, k), g1, NewVar(g1, o), i, c, n1, c2, st);
      c1 := Config(c2.block, c2.idx + 1, st);
      MatchKept(cx, env, g1, c2.st, st);
      MatchExtend(cx, env, st, Tag(s.x, true, cx.depth), InSlot(g1.nslots), r.value);
    }
  }

  lemma SimLet(p: Program, k: nat, cx: LCx, env: Env, s: Stmt, g: Graph, c: Config, fuel: nat)
    returns (n: nat, c1: Config)
    requires Ready(p, k, cx, env, g, c) && StmtReady(cx, s) && s.Let?
    ensures StmtDone(p, k, cx, env, s, g, c, fuel, n, c1)
    decreases fuel, s, 1
  {
    n, c1 := 0, c;
    var r := Eval(p, k, env, s.e, c.st.mem, fuel);
    if r.Ok? {
      n, c1 := SimExpr(p, k, cx, env, s.e, g, c, fuel);
      ReadyAfter(p, k, cx, env, s.e, g, c, n, c1, r.value, r.mem);
      MatchExtend(cx, env, c1.st, Tag(s.x, false, cx.depth), InReg(LowerExpr(g, cx, s.e).1), r.value);
    }
  }

  lemma SimDo(p: Program, k: nat, cx: LCx, env: Env, s: Stmt, g: Graph, c: Config, fuel: nat)
    returns (n: nat, c1: Config)
    requires Ready(p, k, cx, env, g, c) && StmtReady(cx, s) && s.Do?
    ensures StmtDone(p, k, cx, env, s, g, c, fuel, n, c1)
    decreases fuel, s, 1
  {
    hide Callees, Match, Fits, SameHandles, Here, Runs, Extends, LowerExpr, Find, Nested;
    n, c1 := 0, c;
    var r := Eval(p, k, env, s.e, c.st.mem, fuel);
    if r.Ok? {
      n, c1 := SimExpr(p, k, cx, env, s.e, g, c, fuel);
      ReadyAfter(p, k, cx, env, s.e, g, c, n, c1, r.value, r.mem);
      assert CxAfter(cx, s, []) == cx && EnvAfter(env, s, env.vals) == env;
    }
  }

  // ---------- Assignment ----------

  /** The emitted address stands for the evaluated one. */
  ghost predicate SamePlace(cx: LCx, d: Dest, pl: Place, st: State) {
    match pl
    case NameP(i) => i < |cx.homes| && cx.homes[i].InSlot? && d == SlotD(cx.homes[i].slot)
    case CellP(a, i) => d.CellD? && Operate(d.arr, st) == Some(a) && Operate(d.idx, st) == Some(i)
    case FieldP(o, f) => d.FieldD? && d.f == f && Operate(d.obj, st) == Some(o)
  }

  predicate DestOk(d: Dest, nregs: nat) {
    match d
    case NoD => true
    case SlotD(_) => true
    case CellD(a, i) => OperandOk(a, nregs) && OperandOk(i, nregs)
    case FieldD(o, _) => OperandOk(o, nregs)
  }

  lemma SimTarget(p: Program, k: nat, cx: LCx, env: Env, t: Expr, g: Graph, c: Config, fuel: nat)
    returns (n: nat, c1: Config)
    requires Ready(p, k, cx, env, g, c) && TargetReady(cx, t)
    requires EvalTarget(p, k, env, t, c.st.mem, fuel).Ok?
    ensures Runs(Lib(p, k), LowerTarget(g, cx, t).0, c, n, c1) && Here(LowerTarget(g, cx, t).0, c1)
    ensures After(g, c.st, c1.st, EvalTarget(p, k, env, t, c.st.mem, fuel).mem)
    ensures SamePlace(cx, LowerTarget(g, cx, t).1, EvalTarget(p, k, env, t, c.st.mem, fuel).value, c1.st)
    ensures DestOk(LowerTarget(g, cx, t).1, LowerTarget(g, cx, t).0.nregs) && Nested(g, LowerTarget(g, cx, t).0)
  {
    TargetNested(g, cx, t);
    match t
    case Get(x) =>
      var i := Find(cx.tags, x).value;
      var l := LoadVar(g.nregs, cx.homes[i].slot);
      var v := if cx.homes[i].slot in c.st.slots then c.st.slots[cx.homes[i].slot] else Undef;
      n, c1 := SimDefine(Lib(p, k), g, l, c, v, c.st.mem);
    case Elem(a, b) => n, c1 := SimCell(p, k, cx, env, t, g, c, fuel);
    case Field(o, f) => n, c1 := SimFieldTarget(p, k, cx, env, t, g, c, fuel);
  }

  lemma SimCell(p: Program, k: nat, cx: LCx, env: Env, t: Expr, g: Graph, c: Config, fuel: nat)
    returns (n: nat, c1: Config)
    requires Ready(p, k, cx, env, g, c) && ExprReady(cx, t) && t.Elem?
    requires EvalTarget(p, k, env, t, c.st.mem, fuel).Ok?
    ensures Runs(Lib(p, k), LowerTarget(g, cx, t).0, c, n, c1) && Here(LowerTarget(g, cx, t).0, c1)
    ensures After(g, c.st, c1.st, EvalTarget(p, k, env, t, c.st.mem, fuel).mem)
    ensures SamePlace(cx, LowerTarget(g, cx, t).1, EvalTarget(p, k, env, t, c.st.mem, fuel).value, c1.st)
    ensures DestOk(LowerTarget(g, cx, t).1, LowerTarget(g, cx, t).0.nregs)
  {
    var a, b := t.arr, t.idx;
    var r := Eval(p, k, env, a, c.st.mem, fuel);
    var q := Eval(p, k, env, b, r.mem, fuel);
    var n1, c2 := SimTwo(p, k, cx, env, t, a, b, g, c, fuel);
    TwoOperands(g, cx, t, a, b);
    var g1, x := LowerExpr(g, cx, a).0, LowerExpr(g, cx, a).1;
    var g2, y := LowerExpr(g1, cx, b).0, LowerExpr(g1, cx, b).1;
    n, c1 := LoadCellRuns(Lib(p, k), g, g2, x, y, c, n1, c2, r.value, q.value, q.mem);
  }

  /** The load of an element target keeps the two operands of its address. */
  lemma LoadCellRuns(lib: Library, g: Graph, h: Graph, x: Operand, y: Operand, c: Config, n: nat, c1: Config, v: Value, j: Value, m: Mem)
    returns (k: nat, c2: Config)
    requires Computes(lib, g, h, y, c, n, c1, j, m) && Operate(x, c1.st) == Some(v) && Nested(g, h)
    requires OperandOk(x, h.nregs) && OperandOk(y, h.nregs) && LoadCell(m, v, j).Good?
    ensures Runs(lib, Define(h, LoadI(h.nregs, x, y)), c, k, c2) && Here(Define(h, LoadI(h.nregs, x, y)), c2)
    ensures After(g, c.st, c2.st, m) && Operate(x, c2.st) == Some(v) && Operate(y, c2.st) == Some(j)
  {
    PerformLoad(lib, h.nregs, x, y, c1.st, v, j);
    k, c2 := ThenDefine(lib, g, h, LoadI(h.nregs, x, y), c, n, c1, LoadCell(m, v, j).value, m);
  }

  lemma LoadFieldRuns(lib: Library, g: Graph, h: Graph, x: Operand, f: Name, c: Config, n: nat, c1: Config, v: Value, m: Mem)
    returns (k: nat, c2: Config)
    requires Computes(lib, g, h, x, c, n, c1, v, m) && Nested(g, h) && OperandOk(x, h.nregs) && LoadField(m, v, f).Good?
    ensures Runs(lib, Define(h, LoadF(h.nregs, x, f)), c, k, c2) && Here(Define(h, LoadF(h.nregs, x, f)), c2)
    ensures After(g, c.st, c2.st, m) && Operate(x, c2.st) == Some(v)
  {
    PerformField(lib, h.nregs, x, f, c1.st, v);
    k, c2 := ThenDefine(lib, g, h, LoadF(h.nregs, x, f), c, n, c1, LoadField(m, v, f).value, m);
  }

  lemma PerformLoad(lib: Library, d: nat, a: Operand, i: Operand, st: State, v: Value, j: Value)
    requires Operate(a, st) == Some(v) && Operate(i, st) == Some(j) && LoadCell(st.mem, v, j).Good?
    ensures Perform(lib.classes, LoadI(d, a, i), st) == Some(Put(st, d, LoadCell(st.mem, v, j).value, st.mem))
  {
  }

  lemma SimFieldTarget(p: Program, k: nat, cx: LCx, env: Env, t: Expr, g: Graph, c: Config, fuel: nat)
    returns (n: nat, c1: Config)
    requires Ready(p, k, cx, env, g, c) && ExprReady(cx, t) && t.Field?
    requires EvalTarget(p, k, env, t, c.st.mem, fuel).Ok?
    ensures Runs(Lib(p, k), LowerTarget(g, cx, t).0, c, n, c1) && Here(LowerTarget(g, cx, t).0, c1)
    ensures After(g, c.st, c1.st, EvalTarget(p, k, env, t, c.st.mem, fuel).mem)
    ensures SamePlace(cx, LowerTarget(g, cx, t).1, EvalTarget(p, k, env, t, c.st.mem, fuel).value, c1.st)
    ensures DestOk(LowerTarget(g, cx, t).1, LowerTarget(g, cx, t).0.nregs)
  {
    var q := Eval(p, k, env, t.obj, c.st.mem, fuel);
    var n1, c2 := RunExpr(p, k, cx, env, t.obj, g, c, fuel);
    var g1, x := LowerExpr(g, cx, t.obj).0, LowerExpr(g, cx, t.obj).1;
    n, c1 := LoadFieldRuns(Lib(p, k), g, g1, x, t.f, c, n1, c2, q.value, q.mem);
  }

  lemma SamePlaceKept(cx: LCx, d: Dest, pl: Place, n: nat, s: State, s1: State)
    requires SamePlace(cx, d, pl, s) && DestOk(d, n) && KeptRegs(n, s, s1)
    ensures SamePlace(cx, d, pl, s1)
  {
  }

  lemma SimAssign(p: Program, k: nat, cx: LCx, env: Env, s: Stmt, g: Graph, c: Config, fuel: nat)
    returns (n: nat, c1: Config)
    requires Ready(p, k, cx, env, g, c) && StmtReady(cx, s) && s.Assign?
    ensures StmtDone(p, k, cx, env, s, g, c, fuel, n, c1)
    decreases fuel, s, 1
  {
    hide Callees, Match, Fits, SameHandles, Here, Runs, Extends, Eval, Undefs;
    n, c1 := 0, c;
    var t := EvalTarget(p, k, env, s.target, c.st.mem, fuel);
    if t.Ok? {
      var n1, c2 := SimTarget(p, k, cx, env, s.target, g, c, fuel);
      var g1, d := LowerTarget(g, cx, s.target).0, LowerTarget(g, cx, s.target).1;
      MatchKept(cx, env, g, c.st, c2.st);
      FitsGrows(cx, g, g1);
      if Eval(p, k, env, s.e, t.mem, fuel).Ok? {
        n, c1 := AssignValue(p, k, cx, env, s.e, g, g1, d, t.value, c, n1, c2, fuel);
        assert CxAfter(cx, s, []) == cx;
        assert env.tags + [] == env.tags;
      }
    }
  }

  /** The value and the store of an assignment, after its target. */
  lemma {:induction false} AssignValue(p: Program, k: nat, cx: LCx, env: Env, e: Expr, g: Graph, g1: Graph, d: Dest, pl: Place,
                    c: Config, n1: nat, c2: Config, fuel: nat)
    returns (n: nat, c1: Config)
    requires Ready(p, k, cx, env, g1, c2) && ExprReady(cx, e) && Nested(g, g1)
    requires Runs(Lib(p, k), g1, c, n1, c2) && KeptRegs(g.nregs, c.st, c2.st)
    requires SamePlace(cx, d, pl, c2.st) && DestOk(d, g1.nregs) && (pl.NameP? ==> pl.i < |env.vals|)
    requires Eval(p, k, env, e, c2.st.mem, fuel).Ok?
    ensures var r := Eval(p, k, env, e, c2.st.mem, fuel);
            var h := EmitStore(LowerExpr(g1, cx, e).0, d, LowerExpr(g1, cx, e).1);
            match StorePlace(env.vals, pl, r.value, r.mem)
            case Ok(vals, m) =>
              && Runs(Lib(p, k), h, c, n, c1) && Here(h, c1)
              && KeptRegs(g.nregs, c.st, c1.st) && c1.st.mem == m && Match(cx, env.(vals := vals), c1.st)
            case _ => true
  {
    hide Callees, Fits, SameHandles, Steps, Step;
    hide Callees, Eval, LowerExpr, Steps, Step, Find, StorePlace;
    var r := Eval(p, k, env, e, c2.st.mem, fuel);
    var n2, c3 := RunExpr(p, k, cx, env, e, g1, c2, fuel);
    var g2, o := LowerExpr(g1, cx, e).0, LowerExpr(g1, cx, e).1;
    RunsThen(Lib(p, k), g1, g2, c, n1, c2, n2, c3);
    SamePlaceKept(cx, d, pl, g1.nregs, c2.st, c3.st);
    n, c1 := SimStore(Lib(p, k), cx, env, g2, d, pl, o, c, n1 + n2, c3, r.value);
  }

  /** The final store of an assignment. */
  lemma {:induction false} SimStore(lib: Library, cx: LCx, env: Env, g: Graph, d: Dest, pl: Place, o: Operand, c: Config, n: nat, c1: Config, v: Value)
    returns (k: nat, c2: Config)
    requires Runs(lib, g, c, n, c1) && Here(g, c1) && Fits(cx, g.nregs, g.nslots) && Match(cx, env, c1.st)
    requires SamePlace(cx, d, pl, c1.st) && Operate(o, c1.st) == Some(v) && (pl.NameP? ==> pl.i < |env.vals|)
    ensures match StorePlace(env.vals, pl, v, c1.st.mem)
            case Ok(vals, m) =>
              && Runs(lib, EmitStore(g, d, o), c, k, c2) && Here(EmitStore(g, d, o), c2)
              && c2.st.regs == c1.st.regs && c2.st.mem == m && Match(cx, env.(vals := vals), c2.st)
            case _ => true
  {
    k, c2 := n, c1;
    match pl
    case NameP(i) =>
      var st := c1.st.(slots := c1.st.slots[cx.homes[i].slot := v]);
      var ins := StoreVar(cx.homes[i].slot, o);
      k := RunsMore(lib, g, EmitStore(g, d, o), ins, c, n, c1, st);
      c2 := Config(c1.block, c1.idx + 1, st);
      MatchAssign(cx, env, c1.st, i, v);
    case CellP(a, j) =>
      var w := StoreCell(c1.st.mem, a, j, v);
      if w.Ok? {
        var st := c1.st.(mem := w.mem);
        k := RunsMore(lib, g, EmitStore(g, d, o), StoreI(d.arr, d.idx, o), c, n, c1, st);
        c2 := Config(c1.block, c1.idx + 1, st);
        MatchMem(cx, env, c1.st, w.mem);
      }
    case FieldP(b, f) =>
      var w := StoreField(c1.st.mem, b, f, v);
      if w.Ok? {
        var st := c1.st.(mem := w.mem);
        k := RunsMore(lib, g, EmitStore(g, d, o), StoreF(d.obj, f, o), c, n, c1, st);
        c2 := Config(c1.block, c1.idx + 1, st);
        MatchMem(cx, env, c1.st, w.mem);
      }
  }

  lemma MatchMem(cx: LCx, env: Env, st: State, m: Mem)
    requires Match(cx, env, st)
    ensures Match(cx, env.(vals := env.vals), st.(mem := m))
  {
    forall i | 0 <= i < |env.vals| && env.vals[i] != Undef
      ensures Holds(cx.homes[i], env.vals[i], st.(mem := m))
    {
      assert Holds(cx.homes[i], env.vals[i], st);
    }
  }

  /** A store to one variable's slot changes no other variable. */
  lemma MatchAssign(cx: LCx, env: Env, st: State, i: nat, v: Value)
    requires Match(cx, env, st) && Apart(cx.homes) && i < |env.vals| && cx.homes[i].InSlot?
    ensures Match(cx, env.(vals := env.vals[i := v]), st.(slots := st.slots[cx.homes[i].slot := v]))
  {
    var st1 := st.(slots := st.slots[cx.homes[i].slot := v]);
    var vals := env.vals[i := v];
    forall j | 0 <= j < |vals| && vals[j] != Undef
      ensures Holds(cx.homes[j], vals[j], st1)
    {
      if j != i { assert Holds(cx.homes[j], env.vals[j], st); }
    }
    assert SameHandles(cx, env, st1);
  }

  // ---------- Branches ----------

  lemma IfHeadRuns(p: Program, k: nat, cx: LCx, env: Env, e: Expr, g: Graph, waiting: nat, c: Config, fuel: nat)
    returns (n: nat, c1: Config)
    requires Ready(p, k, cx, env, g, c) && ExprReady(cx, e) && 2 <= waiting
    requires var r := Eval(p, k, env, e, c.st.mem, fuel); r.Ok? && r.value.VBool?
    ensures Runs(Lib(p, k), IfHead(g, cx, e, waiting), c, n, c1)
    ensures c1.block == (if Eval(p, k, env, e, c.st.mem, fuel).value.b then |g.blocks| else |g.blocks| + waiting - 1) && c1.idx == 0 && c1.sub.None?
    ensures After(g, c.st, c1.st, Eval(p, k, env, e, c.st.mem, fuel).mem) && Match(cx, env, c1.st)
  {
    hide Callees, Steps, Step, Perform, At, LowerList, LowerFill, LowerTarget, LowerIf, LowerIfElse, LowerElse, LowerWhile, LowerFor, LowerOn, LowerSeq, Open, Nested, Waiting, Match, Eval;
    var r := Eval(p, k, env, e, c.st.mem, fuel);
    var g1 := Append(Create(g, waiting), |g.blocks|);
    ReadyCreate(p, k, cx, env, g, c, waiting);
    ReadyAppend(p, k, cx, env, Create(g, waiting), c, |g.blocks|);
    var n1, c2 := RunExpr(p, k, cx, env, e, g1, c, fuel);
    var b, g2, o := |g.blocks|, LowerExpr(g1, cx, e).0, LowerExpr(g1, cx, e).1;
    StillWaiting(g1, g2, b);
    n := RunsEnter(Lib(p, k), g2, CondBr(o, b, b + waiting - 1), b, c, n1, c2);
    c1 := Config(if r.value.b then b else b + waiting - 1, 0, c2.st);
  }

  lemma ReadyAppend(p: Program, k: nat, cx: LCx, env: Env, g: Graph, c: Config, b: nat)
    requires Ready(p, k, cx, env, g, c)
    ensures Ready(p, k, cx, env, Append(g, b), c) && forall x: nat :: Waiting(g, x) ==> Waiting(Append(g, b), x)
  {
  }

  /** Creating blocks changes nothing for the code that is being emitted. */
  lemma ReadyCreate(p: Program, k: nat, cx: LCx, env: Env, g: Graph, c: Config, waiting: nat)
    requires Ready(p, k, cx, env, g, c)
    ensures Ready(p, k, cx, env, Create(g, waiting), c) && Nested(g, Create(g, waiting))
    ensures Create(g, waiting).nregs == g.nregs && Create(g, waiting).nslots == g.nslots
    ensures forall b :: |g.blocks| <= b < |g.blocks| + waiting ==> Waiting(Create(g, waiting), b)
  {
    CreateNested(g, waiting);
  }

  lemma BranchRuns(lib: Library, g: Graph, o: Operand, thn: nat, els: nat, next: nat, c: Config, n: nat, c1: Config, b: bool)
    returns (k: nat)
    requires Runs(lib, g, c, n, c1) && Here(g, c1) && Operate(o, c1.st) == Some(VBool(b)) && Waiting(g, next)
    ensures Runs(lib, GoTo(g, CondBr(o, thn, els), next), c, k, Config(if b then thn else els, 0, c1.st)) && k > n
  {
    k := RunsJump(lib, g, CondBr(o, thn, els), next, c, n, c1);
  }

  /** A statement run in the block that a branch entered, then a jump to the continue block. */
  lemma {:induction false} ArmRuns(p: Program, k: nat, cx: LCx, env: Env, a: Stmt, head: Graph, c: Config, n0: nat, c0: Config, fuel: nat, target: nat, next: nat)
    returns (n: nat, c1: Config)
    requires Ready(p, k, cx, env, head, c0) && StmtReady(cx, a)
    requires Runs(Lib(p, k), head, c, n0, c0) && Waiting(head, next)
    ensures match Exec(p, k, env, a, c0.st.mem, fuel)
            case Ok(vals, m) =>
              && Runs(Lib(p, k), GoTo(LowerStmt(head, cx, a).0, Br(target), next), c, n, c1) && n > n0
              && c1.block == target && c1.idx == 0 && c1.sub.None?
              && KeptRegs(head.nregs, c0.st, c1.st) && c1.st.mem == m
              && Match(CxAfter(cx, a, LowerStmt(head, cx, a).1), EnvAfter(env, a, vals), c1.st)
            case _ => true
    decreases fuel, a, 3
  {
    hide Callees, Match, Fits, Steps, Step, Waiting, SameHandles, Exec, LowerStmt, Find;
    var n1;
    n1, c1 := SimStmt(p, k, cx, env, a, head, c0, fuel);
    StmtNested(head, cx, a);
    var g1 := LowerStmt(head, cx, a).0;
    StillWaiting(head, g1, next);
    GoToGrows(g1, Br(target), next);
    var r := Exec(p, k, env, a, c0.st.mem, fuel);
    n := n0 + n1;
    if r.Ok? {
      RunsThen(Lib(p, k), head, g1, c, n0, c0, n1, c1);
      n := RunsJump(Lib(p, k), g1, Br(target), next, c, n, c1);
      c1 := Config(target, 0, c1.st);
    }
  }

  lemma SimIf(p: Program, k: nat, cx: LCx, env: Env, s: Stmt, g: Graph, c: Config, fuel: nat)
    returns (n: nat, c1: Config)
    requires Ready(p, k, cx, env, g, c) && StmtReady(cx, s) && s.If? && s.els.Skip?
    ensures StmtDone(p, k, cx, env, s, g, c, fuel, n, c1)
    decreases fuel, s, 1
  {
    n, c1 := 0, c;
    var r := Eval(p, k, env, s.c, c.st.mem, fuel);
    ReadyParts(p, k, cx, env, g, c);
    IfExec(p, k, env, s, c.st.mem, fuel);
    hide Callees, Match, Fits, Here, Runs, Extends, Eval, Exec, IfHead, LowerIf, StmtDone, Done, Nested, Open, Find, Ready;
    if r.Ok? && r.value.VBool? {
      var n0, c0 := IfHeadRuns(p, k, cx, env, s.c, g, 2, c, fuel);
      IfHeadNested(g, cx, s.c, 2);
      FitsGrows(cx, g, IfHead(g, cx, s.c, 2));
      IfDeclares(cx, env, s, LowerIf(g, cx, s).1);
      if r.value.b {
        n, c1 := ThenRuns(p, k, cx, env, s, g, c, n0, c0, fuel);
      } else {
        n, c1 := n0, c0;
        SkipRuns(p, k, cx, env, s, g, c, n0, c0, fuel);
        SkipIsDone(p, k, cx, env, s, g, c, n0, c0, fuel);
      }
    }
    IfIsDone(p, k, cx, env, s, g, c, n, c1, fuel);
  }

  lemma ReadyParts(p: Program, k: nat, cx: LCx, env: Env, g: Graph, c: Config)
    requires Ready(p, k, cx, env, g, c)
    ensures k <= |p.fns| && Callees(p, k) && EnvShape(env) && Open(g) && Fits(cx, g.nregs, g.nslots) && cx.depth == env.depth && cx.tags == env.tags
  {
  }

  /** What the interpreter makes of an `if` without else. */
  lemma {:induction false} IfExec(p: Program, k: nat, env: Env, s: Stmt, m: Mem, fuel: nat)
    requires k <= |p.fns| && EnvShape(env) && s.If? && s.els.Skip?
    ensures var r, q := Eval(p, k, env, s.c, m, fuel), Exec(p, k, env, s, m, fuel);
            if r.Ok? && r.value.VBool? then
              if r.value.b then q == Exec(p, k, env, s.thn, r.mem, fuel)
              else q == Ok(env.vals + Undefs(|Declared(s.thn, env.depth)|), r.mem)
            else !q.Ok?
  {
    hide Callees, Eval;
    var r := Eval(p, k, env, s.c, m, fuel);
    if r.Ok? && r.value.VBool? && r.value.b {
      var q := Exec(p, k, env, s.thn, r.mem, fuel);
      if q.Ok? { assert q.value + Undefs(0) == q.value; }
    }
  }

  lemma SkipIsDone(p: Program, k: nat, cx: LCx, env: Env, s: Stmt, g: Graph, c: Config, n: nat, c1: Config, fuel: nat)
    requires s.If? && s.els.Skip? && k <= |p.fns| && EnvShape(env) && cx.depth == env.depth
    requires Runs(Lib(p, k), LowerIf(g, cx, s).0, c, n, c1) && Here(LowerIf(g, cx, s).0, c1) && KeptRegs(g.nregs, c.st, c1.st)
    requires Match(CxAfter(cx, s.thn, LowerIf(g, cx, s).1),
                   EnvAfter(env, s.thn, env.vals + Undefs(|Declared(s.thn, cx.depth)|)), c1.st)
    ensures Done(Lib(p, k), Ok(env.vals + Undefs(|Declared(s.thn, env.depth)|), c1.st.mem), g, LowerIf(g, cx, s).0,
                 CxAfter(cx, s.thn, LowerIf(g, cx, s).1), EnvAfter(env, s.thn, []), c, n, c1)
  {
    hide Callees, Match, Runs, Here;
  }

  lemma IfIsDone(p: Program, k: nat, cx: LCx, env: Env, s: Stmt, g: Graph, c: Config, n: nat, c1: Config, fuel: nat)
    requires s.If? && s.els.Skip? && k <= |p.fns| && EnvShape(env) && cx.depth == env.depth
    requires var q := Exec(p, k, env, s, c.st.mem, fuel);
             q.Ok? ==> Done(Lib(p, k), q, g, LowerIf(g, cx, s).0, CxAfter(cx, s.thn, LowerIf(g, cx, s).1),
                             EnvAfter(env, s.thn, []), c, n, c1)
    ensures StmtDone(p, k, cx, env, s, g, c, fuel, n, c1)
  {
    hide Callees, Match, Runs, Here, Exec, LowerIf;
    IfDeclares(cx, env, s, LowerIf(g, cx, s).1);
  }

  lemma IfDeclares(cx: LCx, env: Env, s: Stmt, hs: seq<Home>)
    requires s.If? && s.els.Skip? && cx.depth == env.depth
    ensures CxAfter(cx, s, hs) == CxAfter(cx, s.thn, hs) && EnvAfter(env, s, []) == EnvAfter(env, s.thn, [])
    ensures |Declared(s.els, env.depth)| == 0
  {
    assert Declared(s, cx.depth) == Declared(s.thn, cx.depth) + [];
  }

  /** The arm of an `if` without else, when it is taken. */
  lemma ThenRuns(p: Program, k: nat, cx: LCx, env: Env, s: Stmt, g: Graph, c: Config, n0: nat, c0: Config, fuel: nat)
    returns (n: nat, c1: Config)
    requires s.If? && s.els.Skip? && StmtReady(cx, s) && k <= |p.fns| && Callees(p, k) && EnvShape(env) && Open(g)
    requires var head := IfHead(g, cx, s.c, 2);
             && Runs(Lib(p, k), head, c, n0, c0) && c0.block == |g.blocks| && c0.idx == 0 && c0.sub.None?
             && Fits(cx, head.nregs, head.nslots) && Match(cx, env, c0.st) && g.nregs <= head.nregs
    requires KeptRegs(g.nregs, c.st, c0.st)
    ensures Done(Lib(p, k), Exec(p, k, env, s.thn, c0.st.mem, fuel), g, LowerIf(g, cx, s).0,
                 CxAfter(cx, s.thn, LowerIf(g, cx, s).1), EnvAfter(env, s.thn, []), c, n, c1)
    decreases fuel, s, 0
  {
    hide Callees, Match, Fits, SameHandles, Here, Runs, Extends, Exec, LowerStmt, IfHead;
    var head, done := IfHead(g, cx, s.c, 2), |g.blocks| + 1;
    IfHeadNested(g, cx, s.c, 2);
    HereAtStart(head, c0);
    n, c1 := ArmRuns(p, k, cx, env, s.thn, head, c, n0, c0, fuel, done, done);
    IfGrows(g, cx, s);
    HereAtStart(LowerIf(g, cx, s).0, Config(done, 0, c1.st));
  }

  /** The arm of an `if` without else, when it is not taken. */
  lemma SkipRuns(p: Program, k: nat, cx: LCx, env: Env, s: Stmt, g: Graph, c: Config, n0: nat, c0: Config, fuel: nat)
    requires s.If? && s.els.Skip? && Open(g)
    requires Runs(Lib(p, k), IfHead(g, cx, s.c, 2), c, n0, c0) && c0.block == |g.blocks| + 1 && c0.idx == 0 && c0.sub.None?
    requires Match(cx, env, c0.st)
    ensures Runs(Lib(p, k), LowerIf(g, cx, s).0, c, n0, c0) && Here(LowerIf(g, cx, s).0, c0)
    ensures Match(CxAfter(cx, s.thn, LowerIf(g, cx, s).1),
                  EnvAfter(env, s.thn, env.vals + Undefs(|Declared(s.thn, cx.depth)|)), c0.st)
  {
    IfGrows(g, cx, s);
    StepsWiden(Lib(p, k), IfHead(g, cx, s.c, 2), LowerIf(g, cx, s).0, c, n0);
    HereAtStart(LowerIf(g, cx, s).0, c0);
    MatchUndefs(cx, env, c0.st, Declared(s.thn, cx.depth), LowerIf(g, cx, s).1);
  }

  lemma IfGrows(g: Graph, cx: LCx, s: Stmt)
    requires Open(g) && s.If? && s.els.Skip?
    ensures var head := IfHead(g, cx, s.c, 2);
            var h := LowerIf(g, cx, s).0;
            Extends(head, h) && Open(h) && h.cur == |g.blocks| + 1 && h.blocks[h.cur] == EMPTY_BLOCK
  {
    var head, done := IfHead(g, cx, s.c, 2), |g.blocks| + 1;
    IfHeadNested(g, cx, s.c, 2);
    StmtNested(head, cx, s.thn);
    var g1 := LowerStmt(head, cx, s.thn).0;
    StillWaiting(head, g1, done);
    GoToGrows(g1, Br(done), done);
  }

  lemma SimIfElse(p: Program, k: nat, cx: LCx, env: Env, s: Stmt, g: Graph, c: Config, fuel: nat)
    returns (n: nat, c1: Config)
    requires Ready(p, k, cx, env, g, c) && StmtReady(cx, s) && s.If? && !s.els.Skip?
    ensures StmtDone(p, k, cx, env, s, g, c, fuel, n, c1)
    decreases fuel, s, 1
  {
    n, c1 := 0, c;
    var r := Eval(p, k, env, s.c, c.st.mem, fuel);
    if r.Ok? && r.value.VBool? {
      var n0, c0 := IfHeadRuns(p, k, cx, env, s.c, g, 3, c, fuel);
      IfHeadNested(g, cx, s.c, 3);
      FitsGrows(cx, g, IfHead(g, cx, s.c, 3));
      if r.value.b {
        n, c1 := FirstArm(p, k, cx, env, s, g, c, n0, c0, fuel);
      } else {
        n, c1 := SecondArm(p, k, cx, env, s, g, c, n0, c0, fuel);
      }
    }
  }

  /** The graph between the arms, with the else block entered. */
  function Between(g: Graph, cx: LCx, s: Stmt): Graph
    requires s.If?
  {
    GoTo(ThenPart(g, cx, s).0, Br(|g.blocks| + 1), |g.blocks| + 2)
  }

  lemma BetweenGrows(g: Graph, cx: LCx, s: Stmt)
    requires Open(g) && s.If? && Fits(cx, g.nregs, g.nslots)
    ensures var m := Between(g, cx, s);
            var h := LowerIfElse(g, cx, s).0;
            && Extends(IfHead(g, cx, s.c, 3), m) && Extends(m, h)
            && Open(m) && m.cur == |g.blocks| + 2 && m.blocks[m.cur] == EMPTY_BLOCK && Waiting(m, |g.blocks| + 1)
            && Open(h) && h.cur == |g.blocks| + 1 && h.blocks[h.cur] == EMPTY_BLOCK && g.nregs <= m.nregs
            && Fits(CxAfter(cx, s.thn, ThenPart(g, cx, s).1), m.nregs, m.nslots)
  {
    hide LowerStmt, LowerExpr;
    var done := |g.blocks| + 1;
    ThenPartOk(g, cx, s);
    IfHeadNested(g, cx, s.c, 3);
    StmtNested(IfHead(g, cx, s.c, 3), cx, s.thn);
    var g1, hs := ThenPart(g, cx, s).0, ThenPart(g, cx, s).1;
    GoToGrows(g1, Br(done), done + 1);
    var m := Between(g, cx, s);
    StmtNested(m, CxAfter(cx, s.thn, hs), s.els);
    var g2 := LowerStmt(m, CxAfter(cx, s.thn, hs), s.els).0;
    StillWaiting(m, g2, done);
    GoToGrows(g2, Br(done), done);
  }

  ghost predicate AtArm(p: Program, k: nat, cx: LCx, env: Env, s: Stmt, g: Graph, c: Config, n0: nat, c0: Config) {
    && k <= |p.fns| && Callees(p, k) && EnvShape(env) && Open(g) && s.If? && !s.els.Skip? && StmtReady(cx, s)
    && Runs(Lib(p, k), IfHead(g, cx, s.c, 3), c, n0, c0) && c0.idx == 0 && c0.sub.None?
    && Fits(cx, g.nregs, g.nslots) && Fits(cx, IfHead(g, cx, s.c, 3).nregs, IfHead(g, cx, s.c, 3).nslots)
    && Match(cx, env, c0.st) && KeptRegs(g.nregs, c.st, c0.st)
  }

  lemma FirstArm(p: Program, k: nat, cx: LCx, env: Env, s: Stmt, g: Graph, c: Config, n0: nat, c0: Config, fuel: nat)
    returns (n: nat, c1: Config)
    requires AtArm(p, k, cx, env, s, g, c, n0, c0) && c0.block == |g.blocks|
    ensures var r := Exec(p, k, env, s.thn, c0.st.mem, fuel);
            Done(Lib(p, k),
                 if r.Ok? then Ok(r.value + Undefs(|Declared(s.els, env.depth)|), r.mem) else r,
                 g, LowerIfElse(g, cx, s).0, CxAfter(cx, s, LowerIfElse(g, cx, s).1), EnvAfter(env, s, []), c, n, c1)
    decreases fuel, s, 0
  {
    hide Callees, Match, Fits, SameHandles, Here, Runs, Extends, Exec, LowerStmt, LowerIfElse, LowerElse, ThenPart, Between, IfHead;
    SameDepth(cx, env, c0.st);
    var head, done := IfHead(g, cx, s.c, 3), |g.blocks| + 1;
    IfElseCode(g, cx, s);
    IfHeadNested(g, cx, s.c, 3);
    HereAtStart(head, c0);
    n, c1 := ArmRuns(p, k, cx, env, s.thn, head, c, n0, c0, fuel, done, done + 1);
    var r := Exec(p, k, env, s.thn, c0.st.mem, fuel);
    if r.Ok? {
      ArmToEnd(Lib(p, k), cx, s, g, c, n, c1);
      FirstArmScope(cx, env, s, ThenPart(g, cx, s).1, LowerElse(ThenPart(g, cx, s).0, CxAfter(cx, s.thn, ThenPart(g, cx, s).1), s, done).1,
                    r.value, c1.st);
    }
  }

  lemma SameDepth(cx: LCx, env: Env, st: State)
    requires Match(cx, env, st)
    ensures cx.depth == env.depth
  {
  }

  lemma IfElseCode(g: Graph, cx: LCx, s: Stmt)
    requires s.If?
    ensures var done, then_ := |g.blocks| + 1, LowerStmt(IfHead(g, cx, s.c, 3), cx, s.thn);
            && ThenPart(g, cx, s) == then_ && Between(g, cx, s) == GoTo(then_.0, Br(done), done + 1)
            && LowerIfElse(g, cx, s).1 == then_.1 + LowerElse(then_.0, CxAfter(cx, s.thn, then_.1), s, done).1
  {
  }

  lemma ArmToEnd(lib: Library, cx: LCx, s: Stmt, g: Graph, c: Config, n: nat, c1: Config)
    requires Open(g) && s.If? && Fits(cx, g.nregs, g.nslots) && Runs(lib, Between(g, cx, s), c, n, c1)
    ensures Runs(lib, LowerIfElse(g, cx, s).0, c, n, c1)
    ensures c1.block == |g.blocks| + 1 && c1.idx == 0 && c1.sub.None? ==> Here(LowerIfElse(g, cx, s).0, c1)
  {
    BetweenGrows(g, cx, s);
    StepsWiden(lib, Between(g, cx, s), LowerIfElse(g, cx, s).0, c, n);
    if c1.block == |g.blocks| + 1 && c1.idx == 0 && c1.sub.None? { HereAtStart(LowerIfElse(g, cx, s).0, c1); }
  }

  lemma FirstArmScope(cx: LCx, env: Env, s: Stmt, hs: seq<Home>, ks: seq<Home>, vals: seq<Value>, st: State)
    requires s.If? && Match(CxAfter(cx, s.thn, hs), EnvAfter(env, s.thn, vals), st)
    requires |ks| == |Declared(s.els, cx.depth)| && cx.depth == env.depth
    ensures Match(CxAfter(cx, s, hs + ks), EnvAfter(env, s, vals + Undefs(|Declared(s.els, env.depth)|)), st)
  {
    var ts := Declared(s.els, cx.depth);
    MatchUndefs(CxAfter(cx, s.thn, hs), EnvAfter(env, s.thn, vals), st, ts, ks);
    AfterTwo(cx, s.thn, hs, s.els, ks, s);
    assert env.tags + Declared(s.thn, env.depth) + ts == env.tags + Declared(s, env.depth);
  }

  lemma SecondArm(p: Program, k: nat, cx: LCx, env: Env, s: Stmt, g: Graph, c: Config, n0: nat, c0: Config, fuel: nat)
    returns (n: nat, c1: Config)
    requires AtArm(p, k, cx, env, s, g, c, n0, c0) && c0.block == |g.blocks| + 2
    ensures var env1 := EnvAfter(env, s.thn, env.vals + Undefs(|Declared(s.thn, env.depth)|));
            Done(Lib(p, k), Exec(p, k, env1, s.els, c0.st.mem, fuel),
                 g, LowerIfElse(g, cx, s).0, CxAfter(cx, s, LowerIfElse(g, cx, s).1), EnvAfter(env, s, []), c, n, c1)
    decreases fuel, s, 0
  {
    hide Callees, Exec, Lowering.ForLoop, RunFn, EvalList, EvalTarget, StorePlace, Steps, Step, Perform, At;
    var done, hs := |g.blocks| + 1, ThenPart(g, cx, s).1;
    var cx1 := CxAfter(cx, s.thn, hs);
    var env1 := EnvAfter(env, s.thn, env.vals + Undefs(|Declared(s.thn, env.depth)|));
    BetweenGrows(g, cx, s);
    var m := Between(g, cx, s);
    MatchUndefs(cx, env, c0.st, Declared(s.thn, cx.depth), hs);
    StepsWiden(Lib(p, k), IfHead(g, cx, s.c, 3), m, c, n0);
    HereAtStart(m, c0);
    n, c1 := ArmRuns(p, k, cx1, env1, s.els, m, c, n0, c0, fuel, done, done);
    var ks := LowerStmt(m, cx1, s.els).1;
    AfterTwo(cx, s.thn, hs, s.els, ks, s);
    assert env.tags + Declared(s.thn, env.depth) + Declared(s.els, env.depth) == env.tags + Declared(s, env.depth);
    HereAtStart(LowerIfElse(g, cx, s).0, Config(done, 0, c1.st));
  }

  // ---------- Regions ----------

  lemma SimOn(p: Program, k: nat, cx: LCx, env: Env, s: Stmt, g: Graph, c: Config, fuel: nat)
    returns (n: nat, c1: Config)
    requires Ready(p, k, cx, env, g, c) && StmtReady(cx, s) && s.On?
    ensures StmtDone(p, k, cx, env, s, g, c, fuel, n, c1)
    decreases fuel, s, 1
  {
    var rid, m1 := OpenRegion(c.st.mem).0, OpenRegion(c.st.mem).1;
    var g1, i := Define(g, OpenI(g.nregs)), OpenI(g.nregs);
    var n1, c2 := SimDefine(Lib(p, k), g, i, c, VRegion(rid), m1);
    EmitNested(g, i);
    OnEntry(p, k, cx, env, s.region, rid, g, c, c2);
    OnReady(cx, s, g.nregs);
    n, c1 := OnBody(p, k, cx, env, s, g, c, n1, c2, rid, fuel);
  }

  function OnEnv(env: Env, name: Name, rid: nat): Env { Inner(env).(handles := env.handles + [(name, rid)]) }

  /** The body of an `on` and the deletion. */
  lemma OnBody(p: Program, k: nat, cx: LCx, env: Env, s: Stmt, g: Graph, c: Config, n1: nat, c2: Config, rid: nat, fuel: nat)
    returns (n: nat, c1: Config)
    requires Ready(p, k, cx, env, g, c) && s.On? && StmtReady(CxOn(cx, s.region, g.nregs), s.body)
    requires Ready(p, k, CxOn(cx, s.region, g.nregs), OnEnv(env, s.region, rid), Define(g, OpenI(g.nregs)), c2)
    requires Runs(Lib(p, k), Define(g, OpenI(g.nregs)), c, n1, c2) && KeptRegs(g.nregs, c.st, c2.st)
    requires Operate(Reg(g.nregs), c2.st) == Some(VRegion(rid))
    ensures var r := Exec(p, k, OnEnv(env, s.region, rid), s.body, c2.st.mem, fuel);
            Done(Lib(p, k), OnResult(r, rid, |env.vals|), g, LowerOn(g, cx, s), CxAfter(cx, s, []), EnvAfter(env, s, []), c, n, c1)
    decreases fuel, s, 0
  {
    hide Callees, Find, FindVar, Declared, GetHandle, FindFn, Steps, Step, Perform, At;
    var g1, cx1, env1 := Define(g, OpenI(g.nregs)), CxOn(cx, s.region, g.nregs), OnEnv(env, s.region, rid);
    EmitNested(g, OpenI(g.nregs));
    var n2, c3 := SimStmt(p, k, cx1, env1, s.body, g1, c2, fuel);
    var r := Exec(p, k, env1, s.body, c2.st.mem, fuel);
    StmtNested(g1, cx1, s.body);
    var g2 := LowerStmt(g1, cx1, s.body).0;
    n, c1 := n1 + n2, c3;
    if r.Ok? {
      RunsThen(Lib(p, k), g1, g2, c, n1, c2, n2, c3);
      OperateKept(Reg(g.nregs), g1.nregs, c2.st, c3.st);
      n, c1 := OnExit(Lib(p, k), cx, env, s, g, g2, cx1, env1, LowerStmt(g1, cx1, s.body).1, c, n1 + n2, c3, rid, r);
    }
  }

  /** The interpreter's result for an `on`, from the result of its body. */
  function OnResult(r: Res<seq<Value>>, rid: nat, outer: nat): Res<seq<Value>>
    requires r.Ok? ==> outer <= |r.value|
  {
    var (vals, m) :- r;
    var (_, m1) :- CloseRegion(m, rid);
    Ok(vals[..outer], m1)
  }

  lemma OnEntry(p: Program, k: nat, cx: LCx, env: Env, name: Name, rid: nat, g: Graph, c: Config, c2: Config)
    requires Ready(p, k, cx, env, g, c) && Here(Define(g, OpenI(g.nregs)), c2)
    requires KeptRegs(g.nregs, c.st, c2.st) && KeptSlots(g.nslots, c.st, c2.st)
    requires Operate(Reg(g.nregs), c2.st) == Some(VRegion(rid))
    ensures Ready(p, k, CxOn(cx, name, g.nregs), Inner(env).(handles := env.handles + [(name, rid)]), Define(g, OpenI(g.nregs)), c2)
  {
    EmitNested(g, OpenI(g.nregs));
    MatchKept(cx, env, g, c.st, c2.st);
  }

  /** The deletion at the end of an `on`. */
  lemma OnExit(lib: Library, cx: LCx, env: Env, s: Stmt, g: Graph, h: Graph, cx1: LCx, env1: Env, hs: seq<Home>,
               c: Config, n: nat, c1: Config, rid: nat, r: Res<seq<Value>>)
    returns (k: nat, c2: Config)
    requires s.On? && r.Ok? && Runs(lib, h, c, n, c1) && Here(h, c1) && c1.st.mem == r.mem
    requires KeptRegs(g.nregs, c.st, c1.st) && Operate(Reg(g.nregs), c1.st) == Some(VRegion(rid))
    requires cx1 == CxOn(cx, s.region, g.nregs) && env1 == Inner(env).(handles := env.handles + [(s.region, rid)])
    requires Match(cx, env, c.st) && Fits(cx, g.nregs, g.nslots)
    requires Match(CxAfter(cx1, s.body, hs), EnvAfter(env1, s.body, r.value), c1.st) && |env.vals| <= |r.value|
    ensures var d := CloseRegion(r.mem, rid);
            Done(lib, OnResult(r, rid, |env.vals|), g, Emit(h, CloseI(Reg(g.nregs))),
                 CxAfter(cx, s, []), EnvAfter(env, s, []), c, k, c2)
  {
    k, c2 := n, c1;
    var d := CloseRegion(r.mem, rid);
    if d.Ok? {
      var st := c1.st.(mem := d.mem);
      k := RunsMore(lib, h, Emit(h, CloseI(Reg(g.nregs))), CloseI(Reg(g.nregs)), c, n, c1, st);
      c2 := Config(c1.block, c1.idx + 1, st);
      HandlesKept(cx, env, g.nregs, c.st, st);
      MatchMem(CxAfter(cx1, s.body, hs), EnvAfter(env1, s.body, r.value), c1.st, d.mem);
      MatchLeave(cx, env, CxAfter(cx1, s.body, hs), EnvAfter(env1, s.body, r.value), st);
      assert CxAfter(cx, s, []) == cx && EnvAfter(env, s, []).tags == env.tags;
    }
  }

  // ---------- Loops ----------

  /** Control at the start of a loop's condition block, with the other two blocks waiting. */
  ghost predicate AtLoop(p: Program, k: nat, cx: LCx, env: Env, s: Stmt, g: Graph, st: State, cond: nat) {
    && k <= |p.fns| && Callees(p, k) && EnvShape(env) && StmtReady(cx, s)
    && Open(g) && g.cur == cond && g.blocks[cond] == EMPTY_BLOCK && Waiting(g, cond + 1) && Waiting(g, cond + 2)
    && Fits(cx, g.nregs, g.nslots) && Match(cx, env, st)
  }

  /** The outcome of a loop: at the start of its continue block. */
  ghost predicate LoopDone(lib: Library, r: Res<seq<Value>>, nregs: nat, h: Graph, cx: LCx, env: Env,
                           c: Config, n: nat, c1: Config, exit: nat) {
    match r
    case Ok(vals, m) =>
      && Runs(lib, h, c, n, c1) && c1.block == exit && c1.idx == 0 && c1.sub.None? && KeptRegs(nregs, c.st, c1.st) && c1.st.mem == m
      && Match(cx, env.(vals := vals), c1.st)
    case _ => true
  }

  /** Another round of a loop after `n1` steps. */
  lemma LoopAgain(lib: Library, r: Res<seq<Value>>, nregs: nat, h: Graph, cx: LCx, env: Env,
                  c: Config, n1: nat, c1: Config, n2: nat, c2: Config, exit: nat)
    requires Runs(lib, h, c, n1, c1) && KeptRegs(nregs, c.st, c1.st)
    requires LoopDone(lib, r, nregs, h, cx, env, c1, n2, c2, exit)
    ensures LoopDone(lib, r, nregs, h, cx, env, c, n1 + n2, c2, exit)
  {
    if r.Ok? {
      StepsConcat(lib, h, c, n1, n2);
    }
  }

  lemma WhileHeadRuns(p: Program, k: nat, cx: LCx, env: Env, s: Stmt, g: Graph, st: State, cond: nat, fuel: nat)
    returns (n: nat, c1: Config)
    requires AtLoop(p, k, cx, env, s, g, st, cond) && s.While?
    requires var r := Eval(p, k, env, s.c, st.mem, fuel); r.Ok? && r.value.VBool?
    ensures Runs(Lib(p, k), WhileHead(g, cx, s.c, cond), Config(cond, 0, st), n, c1) && n > 0
    ensures c1.block == (if Eval(p, k, env, s.c, st.mem, fuel).value.b then cond + 1 else cond + 2) && c1.idx == 0 && c1.sub.None?
    ensures After(g, st, c1.st, Eval(p, k, env, s.c, st.mem, fuel).mem) && Match(cx, env, c1.st)
  {
    hide Callees, Match, Fits, SameHandles, Eval, LowerExpr, Steps, Find, Runs;
    var r := Eval(p, k, env, s.c, st.mem, fuel);
    var c := Config(cond, 0, st);
    HereAtStart(g, c);
    var n1, c2 := RunExpr(p, k, cx, env, s.c, g, c, fuel);
    var g1, o := LowerExpr(g, cx, s.c).0, LowerExpr(g, cx, s.c).1;
    StillWaiting(g, g1, cond + 1);
    n := BranchRuns(Lib(p, k), g1, o, cond + 1, cond + 2, cond + 1, c, n1, c2, r.value.b);
    c1 := Config(if r.value.b then cond + 1 else cond + 2, 0, c2.st);
  }

  /** How the graphs of a `while` extend each other. */
  lemma WhileGrows(g: Graph, cx: LCx, s: Stmt, cond: nat)
    requires Open(g) && s.While? && g.cur == cond && Waiting(g, cond + 1) && Waiting(g, cond + 2)
    ensures var head := WhileHead(g, cx, s.c, cond);
            var h := WhileLoop(g, cx, s, cond);
            && Extends(head, h) && Open(head) && head.cur == cond + 1 && head.blocks[head.cur] == EMPTY_BLOCK
            && Waiting(head, cond + 2) && g.nregs <= head.nregs && g.nslots <= head.nslots
  {
    WhileHeadGrows(g, cx, s.c, cond);
    var head := WhileHead(g, cx, s.c, cond);
    StmtNested(head, InnerCx(cx), s.body);
    var body := LowerStmt(head, InnerCx(cx), s.body).0;
    StillWaiting(head, body, cond + 2);
    GoToGrows(body, Br(cond), cond + 2);
  }

  /** One turn of a `while`: whether to go on, and the variables. */
  function WhileTurn(p: Program, k: nat, env: Env, s: Stmt, m: Mem, fuel: nat): Res<(bool, seq<Value>)>
    requires k <= |p.fns| && EnvShape(env) && s.While?
  {
    var (v, m1) :- Eval(p, k, env, s.c, m, fuel);
    if !v.VBool? then Fail(if v.VInt? then Width else Fault.Stuck)
    else if !v.b then Ok((false, env.vals), m1)
    else
      var (vals, m2) :- Exec(p, k, Inner(env), s.body, m1, fuel);
      Ok((true, vals[..|env.vals|]), m2)
  }

  lemma {:induction false} WhileUnfold(p: Program, k: nat, env: Env, s: Stmt, m: Mem, fuel: nat)
    requires k <= |p.fns| && EnvShape(env) && s.While? && fuel > 0
    ensures Exec(p, k, env, s, m, fuel) ==
            match WhileTurn(p, k, env, s, m, fuel)
            case Ok((false, vals), m1) => Ok(vals, m1)
            case Ok((true, vals), m1) => Exec(p, k, env.(vals := vals), s, m1, fuel - 1)
            case Fail(f) => Fail(f)
            case Timeout => Res.Timeout
    ensures var t := WhileTurn(p, k, env, s, m, fuel); t.Ok? ==> |t.value.1| == |env.vals|
  {
  }

  /** The outcome of one turn. */
  ghost predicate TurnDone(lib: Library, t: Res<(bool, seq<Value>)>, nregs: nat, h: Graph, cx: LCx, env: Env,
                           c: Config, n: nat, c1: Config, cond: nat) {
    match t
    case Ok((again, vals), m) =>
      && Runs(lib, h, c, n, c1) && n > 0 && c1.block == (if again then cond else cond + 2) && c1.idx == 0 && c1.sub.None?
      && KeptRegs(nregs, c.st, c1.st) && c1.st.mem == m && Match(cx, env.(vals := vals), c1.st)
    case _ => true
  }

  /** Without fuel a loop has not run. */
  lemma OutOfFuel(p: Program, k: nat, env: Env, s: Stmt, body: Stmt, it: nat, m: Mem, lib: Library, nregs: nat, h: Graph, cx: LCx,
                  c: Config, exit: nat)
    requires k <= |p.fns| && EnvShape(env)
    ensures s.While? ==> LoopDone(lib, Exec(p, k, env, s, m, 0), nregs, h, cx, env, c, 0, c, exit)
    ensures env.vals != [] ==> LoopDone(lib, Interp.ForLoop(p, k, env, body, it, m, 0), nregs, h, cx, env, c, 0, c, exit)
  {
  }

  lemma {:induction false} SimWhileLoop(p: Program, k: nat, cx: LCx, env: Env, s: Stmt, g: Graph, st: State, cond: nat, fuel: nat)
    returns (n: nat, c1: Config)
    requires AtLoop(p, k, cx, env, s, g, st, cond) && s.While?
    ensures LoopDone(Lib(p, k), Exec(p, k, env, s, st.mem, fuel), g.nregs, WhileLoop(g, cx, s, cond), cx, env,
                     Config(cond, 0, st), n, c1, cond + 2)
    decreases fuel, s, 0
  {
    hide Callees, Eval, WhileLoop, Steps, Fits, Exec, Match;
    n, c1 := 0, Config(cond, 0, st);
    if fuel == 0 {
      OutOfFuel(p, k, env, s, s.body, 0, st.mem, Lib(p, k), g.nregs, WhileLoop(g, cx, s, cond), cx, c1, cond + 2);
    } else {
      n, c1 := SimWhileTurn(p, k, cx, env, s, g, st, cond, fuel);
      WhileUnfold(p, k, env, s, st.mem, fuel);
      var t := WhileTurn(p, k, env, s, st.mem, fuel);
      if t.Ok? && t.value.0 {
        var env1 := env.(vals := t.value.1);
        var n2, c3 := SimWhileLoop(p, k, cx, env1, s, g, c1.st, cond, fuel - 1);
        LoopAgain(Lib(p, k), Exec(p, k, env1, s, t.mem, fuel - 1), g.nregs, WhileLoop(g, cx, s, cond), cx, env1,
                  Config(cond, 0, st), n, c1, n2, c3, cond + 2);
        n, c1 := n + n2, c3;
      }
    }
  }

  lemma SimWhileTurn(p: Program, k: nat, cx: LCx, env: Env, s: Stmt, g: Graph, st: State, cond: nat, fuel: nat)
    returns (n: nat, c1: Config)
    requires AtLoop(p, k, cx, env, s, g, st, cond) && s.While? && fuel > 0
    ensures TurnDone(Lib(p, k), WhileTurn(p, k, env, s, st.mem, fuel), g.nregs, WhileLoop(g, cx, s, cond), cx, env,
                     Config(cond, 0, st), n, c1, cond)
    decreases fuel, s.body, 5
  {
    n, c1 := 0, Config(cond, 0, st);
    var r := Eval(p, k, env, s.c, st.mem, fuel);
    if r.Ok? && r.value.VBool? {
      var n1, c2 := WhileHeadRuns(p, k, cx, env, s, g, st, cond, fuel);
      if r.value.b {
        n, c1 := WhileRound(p, k, cx, env, s, g, st, cond, fuel, n1, c2);
      } else {
        WhileGrows(g, cx, s, cond);
        StepsWiden(Lib(p, k), WhileHead(g, cx, s.c, cond), WhileLoop(g, cx, s, cond), Config(cond, 0, st), n1);
        n, c1 := n1, c2;
      }
    }
  }

  /** The body of a `while`, from its content block back to the condition. */
  lemma {:induction false} WhileRound(p: Program, k: nat, cx: LCx, env: Env, s: Stmt, g: Graph, st: State, cond: nat, fuel: nat, n1: nat, c2: Config)
    returns (n: nat, c1: Config)
    requires AtLoop(p, k, cx, env, s, g, st, cond) && s.While? && fuel > 0
    requires Runs(Lib(p, k), WhileHead(g, cx, s.c, cond), Config(cond, 0, st), n1, c2) && n1 > 0
    requires c2.block == cond + 1 && c2.idx == 0 && c2.sub.None? && KeptRegs(g.nregs, st, c2.st) && Match(cx, env, c2.st)
    ensures match Exec(p, k, Inner(env), s.body, c2.st.mem, fuel)
            case Ok(vals, m) =>
              && Runs(Lib(p, k), WhileLoop(g, cx, s, cond), Config(cond, 0, st), n, c1) && n > 0
              && c1 == Config(cond, 0, c1.st) && KeptRegs(g.nregs, st, c1.st) && c1.st.mem == m
              && Match(cx, env.(vals := vals[..|env.vals|]), c1.st)
            case _ => true
    decreases fuel, s.body, 4
  {
    hide Callees, Exec, LowerStmt, Steps, Step, Find, Eval;
    WhileGrows(g, cx, s, cond);
    var head := WhileHead(g, cx, s.c, cond);
    HereAtStart(head, c2);
    var inner := Inner(env);
    n, c1 := ArmRuns(p, k, InnerCx(cx), inner, s.body, head, Config(cond, 0, st), n1, c2, fuel, cond, cond + 2);
    var q := Exec(p, k, inner, s.body, c2.st.mem, fuel);
    if q.Ok? {
      HandlesKept(cx, env, g.nregs, st, c1.st);
      MatchLeave(cx, env, CxAfter(InnerCx(cx), s.body, LowerStmt(head, InnerCx(cx), s.body).1),
                 EnvAfter(inner, s.body, q.value), c1.st);
    }
  }

  lemma SimWhile(p: Program, k: nat, cx: LCx, env: Env, s: Stmt, g: Graph, c: Config, fuel: nat)
    returns (n: nat, c1: Config)
    requires Ready(p, k, cx, env, g, c) && StmtReady(cx, s) && s.While?
    ensures StmtDone(p, k, cx, env, s, g, c, fuel, n, c1)
    decreases fuel, s, 1
  {
    hide Callees, Match, SameHandles, Runs, Extends, Exec, WhileLoop, Steps, LoopDone;
    var cond := |g.blocks|;
    var start := LoopStart(g);
    LoopStartNested(g);
    FitsGrows(cx, g, start);
    var n0 := StartLoop(Lib(p, k), g, c);
    var n1;
    n1, c1 := SimWhileLoop(p, k, cx, env, s, start, c.st, cond, fuel);
    n := n0 + n1;
    WhileLoopFills(start, cx, s, cond);
    LoopEnds(Lib(p, k), Exec(p, k, env, s, c.st.mem, fuel), g, start, LowerWhile(g, cx, s), cx, env,
             c, n0, Config(cond, 0, c.st), n1, c1, cond + 2);
    assert CxAfter(cx, s, []) == cx && EnvAfter(env, s, []).tags == env.tags;
  }

  lemma StartLoop(lib: Library, g: Graph, c: Config) returns (n: nat)
    requires Here(g, c)
    ensures Runs(lib, LoopStart(g), c, n, Config(|g.blocks|, 0, c.st))
  {
    CreateNested(g, 3);
    assert Here(Create(g, 3), c);
    assert Steps(lib, Create(g, 3), c, 0) == Some(c);
    n := RunsJump(lib, Create(g, 3), Br(|g.blocks|), |g.blocks|, c, 0, c);
  }

  /** A loop from the code before it to its continue block. */
  lemma LoopEnds(lib: Library, r: Res<seq<Value>>, g: Graph, start: Graph, h: Graph, cx: LCx, env: Env,
                 c: Config, n0: nat, c0: Config, n1: nat, c1: Config, exit: nat)
    requires Runs(lib, start, c, n0, c0) && Extends(start, h) && g.nregs <= start.nregs && KeptRegs(g.nregs, c.st, c0.st)
    requires LoopDone(lib, r, start.nregs, h, cx, env, c0, n1, c1, exit)
    requires Open(h) && h.cur == exit && h.blocks[exit] == EMPTY_BLOCK
    ensures Done(lib, r, g, h, cx, env, c, n0 + n1, c1)
  {
    if r.Ok? {
      RunsThen(lib, start, h, c, n0, c0, n1, c1);
      HereAtStart(h, c1);
    }
  }

  // ---------- for ----------

  /** Control at the start of a `for`'s condition block: the iterator is in register `it`, and
      the loop name, last in scope, will be in register g.nregs + 1. */
  ghost predicate AtFor(p: Program, k: nat, cx: LCx, env: Env, s: Stmt, g: Graph, st: State, cond: nat, it: nat, iter: nat) {
    && k <= |p.fns| && Callees(p, k) && EnvShape(env) && StmtReady(cx, s) && s.For?
    && Open(g) && g.cur == cond && g.blocks[cond] == EMPTY_BLOCK && Waiting(g, cond + 1) && Waiting(g, cond + 2)
    && Fits(cx, g.nregs, g.nslots) && it < g.nregs && Operate(Reg(it), st) == Some(VIter(iter))
    && env.vals != [] && Match(ForCx(cx, s, g), env, st)
  }

  function ForCx(cx: LCx, s: Stmt, g: Graph): LCx { CxAfter(cx, s, [InReg(Reg(g.nregs + 1))]) }

  /** One turn of a `for`. */
  function ForTurn(p: Program, k: nat, env: Env, body: Stmt, it: nat, m: Mem, fuel: nat): Res<(bool, seq<Value>)>
    requires k <= |p.fns| && EnvShape(env) && env.vals != []
  {
    if !HasNext(m, it) then Ok((false, env.vals), m)
    else
      var (v, m1) := Next(m, it);
      var env1 := env.(vals := env.vals[|env.vals| - 1 := v]);
      var (vals, m2) :- Exec(p, k, Inner(env1), body, m1, fuel);
      Ok((true, vals[..|env.vals|]), m2)
  }

  lemma {:induction false} ForUnfold(p: Program, k: nat, env: Env, body: Stmt, it: nat, m: Mem, fuel: nat)
    requires k <= |p.fns| && EnvShape(env) && env.vals != [] && fuel > 0
    ensures Interp.ForLoop(p, k, env, body, it, m, fuel) ==
            match ForTurn(p, k, env, body, it, m, fuel)
            case Ok((false, vals), m1) => Ok(vals, m1)
            case Ok((true, vals), m1) => Interp.ForLoop(p, k, env.(vals := vals), body, it, m1, fuel - 1)
            case Fail(f) => Fail(f)
            case Timeout => Res.Timeout
    ensures var t := ForTurn(p, k, env, body, it, m, fuel); t.Ok? ==> |t.value.1| == |env.vals|
  {
  }

  /** The graphs inside a `for` head: before the branch, and at the start of the content block. */
  function ForTest(g: Graph, it: nat): Graph { Define(g, HasNextI(g.nregs, Reg(it))) }

  function ForContent(g: Graph, it: nat, cond: nat): Graph {
    GoTo(ForTest(g, it), CondBr(Reg(g.nregs), cond + 1, cond + 2), cond + 1)
  }

  lemma ForContentGrows(g: Graph, it: nat, cond: nat)
    requires Open(g) && Waiting(g, cond + 1) && Waiting(g, cond + 2)
    ensures var m := ForContent(g, it, cond);
            && Open(m) && m.cur == cond + 1 && m.blocks[m.cur] == EMPTY_BLOCK && m.nregs == g.nregs + 1
            && Waiting(ForTest(g, it), cond + 1) && Extends(m, ForHead(g, it, cond))
  {
    EmitNested(g, HasNextI(g.nregs, Reg(it)));
    StillWaiting(g, ForTest(g, it), cond + 1);
    GoToGrows(ForTest(g, it), CondBr(Reg(g.nregs), cond + 1, cond + 2), cond + 1);
    var m := ForContent(g, it, cond);
    EmitNested(m, NextI(m.nregs, Reg(it)));
  }

  /** The test of a `for`. */
  lemma ForTestRuns(lib: Library, g: Graph, st: State, cond: nat, it: nat, iter: nat)
    returns (n: nat, c1: Config)
    requires Open(g) && g.cur == cond && g.blocks[cond] == EMPTY_BLOCK && Waiting(g, cond + 1) && Waiting(g, cond + 2)
    requires Operate(Reg(it), st) == Some(VIter(iter))
    ensures Runs(lib, ForContent(g, it, cond), Config(cond, 0, st), n, c1) && n > 0
    ensures c1 == Config(if HasNext(st.mem, iter) then cond + 1 else cond + 2, 0,
                         Put(st, g.nregs, VBool(HasNext(st.mem, iter)), st.mem))
  {
    var c := Config(cond, 0, st);
    HereAtStart(g, c);
    ForContentGrows(g, it, cond);
    var b := HasNext(st.mem, iter);
    var n1, c2 := SimDefine(lib, g, HasNextI(g.nregs, Reg(it)), c, VBool(b), st.mem);
    n := BranchRuns(lib, ForTest(g, it), Reg(g.nregs), cond + 1, cond + 2, cond + 1, c, n1, c2, b);
    c1 := Config(if b then cond + 1 else cond + 2, 0, c2.st);
  }

  /** The test, then the next element. */
  lemma ForNextRuns(lib: Library, g: Graph, st: State, cond: nat, it: nat, iter: nat)
    returns (n: nat, c1: Config)
    requires Open(g) && g.cur == cond && g.blocks[cond] == EMPTY_BLOCK && Waiting(g, cond + 1) && Waiting(g, cond + 2)
    requires Operate(Reg(it), st) == Some(VIter(iter)) && it < g.nregs && HasNext(st.mem, iter)
    ensures Runs(lib, ForHead(g, it, cond), Config(cond, 0, st), n, c1) && Here(ForHead(g, it, cond), c1) && n > 0
    ensures c1.st == Put(Put(st, g.nregs, VBool(true), st.mem), g.nregs + 1, Next(st.mem, iter).0, Next(st.mem, iter).1)
  {
    var n1, c2 := ForTestRuns(lib, g, st, cond, it, iter);
    ForContentGrows(g, it, cond);
    var m := ForContent(g, it, cond);
    HereAtStart(m, c2);
    var s2 := Put(c2.st, m.nregs, Next(st.mem, iter).0, Next(st.mem, iter).1);
    n := RunsMore(lib, m, ForHead(g, it, cond), NextI(m.nregs, Reg(it)), Config(cond, 0, st), n1, c2, s2);
    c1 := Config(c2.block, c2.idx + 1, s2);
  }

  /** The test's own register is nobody's home. */
  lemma MatchForTest(cx: LCx, env: Env, s: Stmt, g: Graph, st: State, v: Value)
    requires Match(ForCx(cx, s, g), env, st) && Fits(cx, g.nregs, g.nslots) && s.For?
    ensures Match(ForCx(cx, s, g), env, Put(st, g.nregs, v, st.mem))
  {
    var st1 := Put(st, g.nregs, v, st.mem);
    var all := ForCx(cx, s, g).homes;
    forall i | 0 <= i < |env.vals| && env.vals[i] != Undef
      ensures Holds(all[i], env.vals[i], st1)
    {
      assert Holds(all[i], env.vals[i], st);
      if i < |cx.homes| { assert cx.homes[i] in cx.homes; }
    }
    HandlesKept(cx, env, g.nregs, st, st1);
  }

  /** The next element becomes the value of the loop name. */
  lemma MatchForNext(cx: LCx, env: Env, s: Stmt, g: Graph, st: State, v: Value, m: Mem)
    requires Match(ForCx(cx, s, g), env, st) && Fits(cx, g.nregs, g.nslots) && s.For? && env.vals != []
    ensures Match(ForCx(cx, s, g), env.(vals := env.vals[|env.vals| - 1 := v]), Put(st, g.nregs + 1, v, m))
  {
    var st1 := Put(st, g.nregs + 1, v, m);
    var all := ForCx(cx, s, g).homes;
    var vals := env.vals[|env.vals| - 1 := v];
    forall i | 0 <= i < |vals| && vals[i] != Undef
      ensures Holds(all[i], vals[i], st1)
    {
      if i < |cx.homes| { assert cx.homes[i] in cx.homes; assert Holds(all[i], env.vals[i], st); }
    }
    HandlesKept(cx, env, g.nregs, st, st1);
  }

  lemma ForGrows(g: Graph, cx: LCx, s: Stmt, it: nat, cond: nat)
    requires Open(g) && s.For? && g.cur == cond && Waiting(g, cond + 1) && Waiting(g, cond + 2)
    ensures Extends(ForHead(g, it, cond), Lowering.ForLoop(g, cx, s, it, cond)) && Extends(ForContent(g, it, cond), ForHead(g, it, cond))
    ensures LoopHead(g, ForHead(g, it, cond), cond) && ForHead(g, it, cond).nregs == g.nregs + 2
  {
    ForContentGrows(g, it, cond);
    ForHeadGrows(g, it, cond);
    var head := ForHead(g, it, cond);
    StmtNested(head, CxFor(cx, s, g.nregs + 1), s.body);
    var body := LowerStmt(head, CxFor(cx, s, g.nregs + 1), s.body).0;
    StillWaiting(head, body, cond + 2);
    GoToGrows(body, Br(cond), cond + 2);
  }

  lemma ForFits(cx: LCx, s: Stmt, g: Graph, head: Graph)
    requires Fits(cx, g.nregs, g.nslots) && s.For? && head.nregs == g.nregs + 2 && g.nslots <= head.nslots
    ensures Fits(CxFor(cx, s, g.nregs + 1), head.nregs, head.nslots)
  {
    FitsAdds(cx, Declared(s, cx.depth), [InReg(Reg(g.nregs + 1))], g, head);
  }

  /** The body of a `for`, from its head back to the condition. */
  lemma ForRound(p: Program, k: nat, cx: LCx, env: Env, s: Stmt, g: Graph, st: State, cond: nat, it: nat, iter: nat, fuel: nat)
    returns (n: nat, c1: Config)
    requires AtFor(p, k, cx, env, s, g, st, cond, it, iter) && fuel > 0 && HasNext(st.mem, iter)
    ensures TurnDone(Lib(p, k), ForTurn(p, k, env, s.body, iter, st.mem, fuel), g.nregs, Lowering.ForLoop(g, cx, s, it, cond),
                     ForCx(cx, s, g), env, Config(cond, 0, st), n, c1, cond)
    decreases fuel, s.body, 4
  {
    hide Callees, Match, Fits, SameHandles, Here, Runs, Extends, Exec, LowerStmt, Find, Eval;
    var n1, c2 := ForBodyStart(p, k, cx, env, s, g, st, cond, it, iter);
    var head, v := ForHead(g, it, cond), Next(st.mem, iter).0;
    ForGrows(g, cx, s, it, cond);
    var inner := Inner(env.(vals := env.vals[|env.vals| - 1 := v]));
    n, c1 := ArmRuns(p, k, CxFor(cx, s, g.nregs + 1), inner, s.body, head, Config(cond, 0, st), n1, c2, fuel, cond, cond + 2);
    var q := Exec(p, k, inner, s.body, c2.st.mem, fuel);
    if q.Ok? {
      ForLeave(cx, env, s, g, inner, LowerStmt(head, CxFor(cx, s, g.nregs + 1), s.body).1, q.value, st, c1.st);
    }
  }

  lemma ForBodyStart(p: Program, k: nat, cx: LCx, env: Env, s: Stmt, g: Graph, st: State, cond: nat, it: nat, iter: nat)
    returns (n: nat, c1: Config)
    requires AtFor(p, k, cx, env, s, g, st, cond, it, iter) && HasNext(st.mem, iter)
    ensures Runs(Lib(p, k), ForHead(g, it, cond), Config(cond, 0, st), n, c1) && n > 0
    ensures Ready(p, k, CxFor(cx, s, g.nregs + 1), Inner(env.(vals := env.vals[|env.vals| - 1 := Next(st.mem, iter).0])),
                  ForHead(g, it, cond), c1)
    ensures StmtReady(CxFor(cx, s, g.nregs + 1), s.body) && KeptRegs(g.nregs, st, c1.st) && c1.st.mem == Next(st.mem, iter).1
  {
    hide Callees, Steps, Extends, LowerStmt, Exec;
    n, c1 := ForNextRuns(Lib(p, k), g, st, cond, it, iter);
    ForHeadGrows(g, it, cond);
    ForFits(cx, s, g, ForHead(g, it, cond));
    ForReady(cx, s, g.nregs + 1);
    MatchForTest(cx, env, s, g, st, VBool(true));
    MatchForNext(cx, env, s, g, Put(st, g.nregs, VBool(true), st.mem), Next(st.mem, iter).0, Next(st.mem, iter).1);
  }

  lemma ForLeave(cx: LCx, env: Env, s: Stmt, g: Graph, inner: Env, hs: seq<Home>, vals: seq<Value>, st: State, s1: State)
    requires Match(ForCx(cx, s, g), env, st) && Fits(cx, g.nregs, g.nslots) && s.For? && KeptRegs(g.nregs, st, s1)
    requires Match(CxAfter(CxFor(cx, s, g.nregs + 1), s.body, hs), EnvAfter(inner, s.body, vals), s1)
    requires |env.vals| <= |vals|
    ensures Match(ForCx(cx, s, g), env.(vals := vals[..|env.vals|]), s1)
  {
    HandlesKept(cx, env, g.nregs, st, s1);
    MatchLeave(ForCx(cx, s, g), env, CxAfter(CxFor(cx, s, g.nregs + 1), s.body, hs), EnvAfter(inner, s.body, vals), s1);
  }

  lemma SimForTurn(p: Program, k: nat, cx: LCx, env: Env, s: Stmt, g: Graph, st: State, cond: nat, it: nat, iter: nat, fuel: nat)
    returns (n: nat, c1: Config)
    requires AtFor(p, k, cx, env, s, g, st, cond, it, iter) && fuel > 0
    ensures TurnDone(Lib(p, k), ForTurn(p, k, env, s.body, iter, st.mem, fuel), g.nregs, Lowering.ForLoop(g, cx, s, it, cond),
                     ForCx(cx, s, g), env, Config(cond, 0, st), n, c1, cond)
    decreases fuel, s.body, 5
  {
    hide Callees, Exec, Steps, Fits, LowerStmt, Extends, Lowering.ForLoop, ForHead;
    if HasNext(st.mem, iter) {
      n, c1 := ForRound(p, k, cx, env, s, g, st, cond, it, iter, fuel);
    } else {
      n, c1 := ForTestRuns(Lib(p, k), g, st, cond, it, iter);
      ForGrows(g, cx, s, it, cond);
      var c := Config(cond, 0, st);
      StepsWiden(Lib(p, k), ForContent(g, it, cond), ForHead(g, it, cond), c, n);
      StepsWiden(Lib(p, k), ForHead(g, it, cond), Lowering.ForLoop(g, cx, s, it, cond), c, n);
      MatchForTest(cx, env, s, g, st, VBool(false));
    }
  }

  lemma {:induction false} SimForLoop(p: Program, k: nat, cx: LCx, env: Env, s: Stmt, g: Graph, st: State, cond: nat, it: nat, iter: nat, fuel: nat)
    returns (n: nat, c1: Config)
    requires AtFor(p, k, cx, env, s, g, st, cond, it, iter)
    ensures LoopDone(Lib(p, k), Interp.ForLoop(p, k, env, s.body, iter, st.mem, fuel), g.nregs,
                     Lowering.ForLoop(g, cx, s, it, cond), ForCx(cx, s, g), env, Config(cond, 0, st), n, c1, cond + 2)
    decreases fuel, s.body, 6
  {
    hide Callees, Exec, Lowering.ForLoop, Interp.ForLoop, Steps, Fits, LowerStmt, Match;
    n, c1 := 0, Config(cond, 0, st);
    if fuel == 0 {
      OutOfFuel(p, k, env, s, s.body, iter, st.mem, Lib(p, k), g.nregs, Lowering.ForLoop(g, cx, s, it, cond), ForCx(cx, s, g), c1, cond + 2);
    } else {
      n, c1 := SimForTurn(p, k, cx, env, s, g, st, cond, it, iter, fuel);
      ForUnfold(p, k, env, s.body, iter, st.mem, fuel);
      var t := ForTurn(p, k, env, s.body, iter, st.mem, fuel);
      if t.Ok? && t.value.0 {
        var env1 := env.(vals := t.value.1);
        OperateKept(Reg(it), g.nregs, st, c1.st);
        var n2, c3 := SimForLoop(p, k, cx, env1, s, g, c1.st, cond, it, iter, fuel - 1);
        LoopAgain(Lib(p, k), Interp.ForLoop(p, k, env1, s.body, iter, t.mem, fuel - 1), g.nregs,
                  Lowering.ForLoop(g, cx, s, it, cond), ForCx(cx, s, g), env1,
                  Config(cond, 0, st), n, c1, n2, c3, cond + 2);
        n, c1 := n + n2, c3;
      }
    }
  }

  /** The bounds, the iterator and the jump to the condition. */
  lemma ForStartRuns(p: Program, k: nat, cx: LCx, env: Env, s: Stmt, g: Graph, c: Config, fuel: nat)
    returns (n: nat, st: State)
    requires Ready(p, k, cx, env, g, c) && s.For? && ExprReady(cx, s.lo) && ExprReady(cx, s.hi)
    requires Eval(p, k, env, s.lo, c.st.mem, fuel).Ok?
    requires Eval(p, k, env, s.hi, Eval(p, k, env, s.lo, c.st.mem, fuel).mem, fuel).Ok?
    requires var r := Eval(p, k, env, s.lo, c.st.mem, fuel);
             var q := Eval(p, k, env, s.hi, r.mem, fuel);
             NewIter(q.mem, r.value, q.value).Ok?
    ensures var r := Eval(p, k, env, s.lo, c.st.mem, fuel);
            var q := Eval(p, k, env, s.hi, r.mem, fuel);
            var t := NewIter(q.mem, r.value, q.value);
            && Runs(Lib(p, k), ForStart(g, cx, s.lo, s.hi).0, c, n, Config(|g.blocks|, 0, st))
            && After(g, c.st, st, t.mem) && Operate(Reg(ForStart(g, cx, s.lo, s.hi).1), st) == Some(t.value)
  {
    var r := Eval(p, k, env, s.lo, c.st.mem, fuel);
    var q := Eval(p, k, env, s.hi, r.mem, fuel);
    var t := NewIter(q.mem, r.value, q.value);
    var g0 := Create(g, 3);
    ReadyCreate(p, k, cx, env, g, c, 3);
    var n1, c2 := SimTwo(p, k, cx, env, Bin(Add, s.lo, s.hi), s.lo, s.hi, g0, c, fuel);
    var g1, x := LowerExpr(g0, cx, s.lo).0, LowerExpr(g0, cx, s.lo).1;
    var g2, y := LowerExpr(g1, cx, s.hi).0, LowerExpr(g1, cx, s.hi).1;
    n, st := IterRuns(Lib(p, k), g0, g2, x, y, |g.blocks|, c, n1, c2, r.value, q.value, q.mem);
  }

  lemma IterRuns(lib: Library, g: Graph, h: Graph, x: Operand, y: Operand, cond: nat, c: Config, n: nat, c1: Config, a: Value, b: Value, m: Mem)
    returns (k: nat, st: State)
    requires Computes(lib, g, h, y, c, n, c1, b, m) && Operate(x, c1.st) == Some(a) && Nested(g, h)
    requires NewIter(m, a, b).Ok? && Waiting(g, cond)
    ensures Runs(lib, GoTo(Define(h, IterI(h.nregs, x, y)), Br(cond), cond), c, k, Config(cond, 0, st))
    ensures After(g, c.st, st, NewIter(m, a, b).mem) && Operate(Reg(h.nregs), st) == Some(NewIter(m, a, b).value)
  {
    var i := IterI(h.nregs, x, y);
    var t := NewIter(m, a, b);
    assert Perform(lib.classes, i, c1.st) == Some(Put(c1.st, h.nregs, t.value, t.mem));
    var k1, c2 := ThenDefine(lib, g, h, i, c, n, c1, t.value, t.mem);
    EmitNested(h, i);
    NestedTrans(g, h, Define(h, i));
    StillWaiting(g, Define(h, i), cond);
    k := RunsJump(lib, Define(h, i), Br(cond), cond, c, k1, c2);
    st := c2.st;
  }

  /** What the interpreter makes of a `for`. */
  lemma {:induction false} ForExec(p: Program, k: nat, env: Env, s: Stmt, m: Mem, fuel: nat)
    requires k <= |p.fns| && EnvShape(env) && s.For?
    ensures var r, w := Eval(p, k, env, s.lo, m, fuel), Exec(p, k, env, s, m, fuel);
            if r.Ok? then
              var q := Eval(p, k, env, s.hi, r.mem, fuel);
              if q.Ok? && NewIter(q.mem, r.value, q.value).Ok? then
                var it := NewIter(q.mem, r.value, q.value);
                && it.value == VIter(|q.mem.iters|)
                && w == Interp.ForLoop(p, k, Extend(env, Tag(s.x, false, env.depth), Undef), s.body, |q.mem.iters|, it.mem, fuel)
              else !w.Ok?
            else !w.Ok?
  {
    hide Callees, Eval, Interp.ForLoop;
  }

  lemma ForIsDone(p: Program, k: nat, cx: LCx, env: Env, s: Stmt, g: Graph, c: Config, n: nat, c1: Config, fuel: nat)
    requires s.For? && k <= |p.fns| && EnvShape(env)
    requires var q := Exec(p, k, env, s, c.st.mem, fuel);
             q.Ok? ==> Done(Lib(p, k), q, g, LowerFor(g, cx, s).0, CxAfter(cx, s, LowerFor(g, cx, s).1),
                             EnvAfter(env, s, []), c, n, c1)
    ensures StmtDone(p, k, cx, env, s, g, c, fuel, n, c1)
  {
    hide Callees, Match, Runs, Here, Exec, LowerFor;
  }

  lemma SimFor(p: Program, k: nat, cx: LCx, env: Env, s: Stmt, g: Graph, c: Config, fuel: nat)
    returns (n: nat, c1: Config)
    requires Ready(p, k, cx, env, g, c) && StmtReady(cx, s) && s.For?
    ensures StmtDone(p, k, cx, env, s, g, c, fuel, n, c1)
    decreases fuel, s, 1
  {
    n, c1 := 0, c;
    ForReady(cx, s, 0);
    ReadyParts(p, k, cx, env, g, c);
    var r := Eval(p, k, env, s.lo, c.st.mem, fuel);
    ForExec(p, k, env, s, c.st.mem, fuel);
    hide Callees, Match, Fits, Here, Runs, Extends, Eval, Exec, Interp.ForLoop, ForStart, LowerFor, StmtDone, Done, Open, Find, Ready, NewIter;
    if r.Ok? {
      var q := Eval(p, k, env, s.hi, r.mem, fuel);
      if q.Ok? && NewIter(q.mem, r.value, q.value).Ok? {
        var n0, st := ForStartRuns(p, k, cx, env, s, g, c, fuel);
        var w := Interp.ForLoop(p, k, Extend(env, Tag(s.x, false, env.depth), Undef), s.body, |q.mem.iters|, st.mem, fuel);
        n, c1 := ForFromStart(p, k, cx, env, s, g, c, n0, st, |q.mem.iters|, fuel, w, LowerFor(g, cx, s).0);
        ForGraph(g, cx, s);
        ForDeclares(Lib(p, k), w, g, LowerFor(g, cx, s).0, CxAfter(cx, s, LowerFor(g, cx, s).1), env, s, c, n, c1);
      }
    }
    ForIsDone(p, k, cx, env, s, g, c, n, c1, fuel);
  }

  /** A `for` from the start of its condition block; `r` is the loop's outcome and `h` its code. */
  lemma ForFromStart(p: Program, k: nat, cx: LCx, env: Env, s: Stmt, g: Graph, c: Config, n0: nat, st: State, iter: nat, fuel: nat,
                     r: Res<seq<Value>>, h: Graph)
    returns (n: nat, c1: Config)
    requires Ready(p, k, cx, env, g, c) && StmtReady(cx, s) && s.For?
    requires Runs(Lib(p, k), ForStart(g, cx, s.lo, s.hi).0, c, n0, Config(|g.blocks|, 0, st))
    requires KeptRegs(g.nregs, c.st, st) && KeptSlots(g.nslots, c.st, st)
    requires Operate(Reg(ForStart(g, cx, s.lo, s.hi).1), st) == Some(VIter(iter))
    requires r == Interp.ForLoop(p, k, Extend(env, Tag(s.x, false, env.depth), Undef), s.body, iter, st.mem, fuel)
    requires h == LowerFor(g, cx, s).0
    ensures Done(Lib(p, k), r, g, h, ForCx(cx, s, ForStart(g, cx, s.lo, s.hi).0),
                 Extend(env, Tag(s.x, false, env.depth), Undef), c, n, c1)
    decreases fuel, s, 0
  {
    hide Callees, Match, Fits, Here, Runs, LoopDone, AtFor, ForStart, LowerFor, Lowering.ForLoop, Interp.ForLoop, ForCx, CxAfter, Extends, Done;
    ReadyParts(p, k, cx, env, g, c);
    var start, it := ForStart(g, cx, s.lo, s.hi).0, ForStart(g, cx, s.lo, s.hi).1;
    var env1 := Extend(env, Tag(s.x, false, env.depth), Undef);
    AtForStart(p, k, cx, env, s, g, c, st, iter);
    var n1;
    n1, c1 := SimForLoop(p, k, cx, env1, s, start, st, |g.blocks|, it, iter, fuel);
    n := n0 + n1;
    ForGraph(g, cx, s);
    LoopEnds(Lib(p, k), r, g, start, h, ForCx(cx, s, start), env1, c, n0, Config(|g.blocks|, 0, st), n1, c1, |g.blocks| + 2);
  }

  /** The loop name stays declared after the loop. */
  lemma ForDeclares(lib: Library, r: Res<seq<Value>>, g: Graph, h: Graph, cx: LCx, env: Env, s: Stmt,
                    c: Config, n: nat, c1: Config)
    requires s.For?
    requires Done(lib, r, g, h, cx, Extend(env, Tag(s.x, false, env.depth), Undef), c, n, c1)
    ensures Done(lib, r, g, h, cx, EnvAfter(env, s, []), c, n, c1)
  {
    hide Callees, Match, Here, Runs;
    if r.Ok? {
      assert EnvAfter(env, s, []).(vals := r.value)
          == Extend(env, Tag(s.x, false, env.depth), Undef).(vals := r.value);
    }
  }

  lemma ForGraph(g: Graph, cx: LCx, s: Stmt)
    requires Open(g) && s.For?
    ensures var h := LowerFor(g, cx, s).0;
            && Extends(ForStart(g, cx, s.lo, s.hi).0, h) && g.nregs <= ForStart(g, cx, s.lo, s.hi).0.nregs
            && Open(h) && h.cur == |g.blocks| + 2 && h.blocks[h.cur] == EMPTY_BLOCK
    ensures LowerFor(g, cx, s).0 == Lowering.ForLoop(ForStart(g, cx, s.lo, s.hi).0, cx, s, ForStart(g, cx, s.lo, s.hi).1, |g.blocks|)
    ensures CxAfter(cx, s, LowerFor(g, cx, s).1) == ForCx(cx, s, ForStart(g, cx, s.lo, s.hi).0)
  {
    hide Callees, Match, Fits, SameHandles, Here, Runs, Extends;
    ForStartNested(g, cx, s.lo, s.hi);
    ForLoopFills(ForStart(g, cx, s.lo, s.hi).0, cx, s, ForStart(g, cx, s.lo, s.hi).1, |g.blocks|);
  }

  lemma AtForStart(p: Program, k: nat, cx: LCx, env: Env, s: Stmt, g: Graph, c: Config, st: State, iter: nat)
    requires Ready(p, k, cx, env, g, c) && StmtReady(cx, s) && s.For?
    requires KeptRegs(g.nregs, c.st, st) && KeptSlots(g.nslots, c.st, st)
    requires Operate(Reg(ForStart(g, cx, s.lo, s.hi).1), st) == Some(VIter(iter))
    ensures AtFor(p, k, cx, Extend(env, Tag(s.x, false, env.depth), Undef), s, ForStart(g, cx, s.lo, s.hi).0, st,
                  |g.blocks|, ForStart(g, cx, s.lo, s.hi).1, iter)
  {
    var start := ForStart(g, cx, s.lo, s.hi).0;
    ForStartNested(g, cx, s.lo, s.hi);
    FitsGrows(cx, g, start);
    MatchKept(cx, env, g, c.st, st);
    MatchExtend(cx, env, st, Tag(s.x, false, env.depth), InReg(Reg(start.nregs + 1)), Undef);
  }

  // ---------- Halting ----------

  /** The run from `c` stops after `n` steps in `c1`. */
  ghost predicate HaltsAt(lib: Library, h: Graph, c: Config, n: nat, c1: Config) {
    Runs(lib, h, c, n, c1) && Step(lib, h, c1) == None
  }

  lemma HaltingIsFinal(lib: Library, h: Graph, c: Config, n: nat, c1: Config, k: nat)
    requires HaltsAt(lib, h, c, n, c1) && k > n
    ensures Steps(lib, h, c, k) == None
  {
    StepsConcat(lib, h, c, n, k - n);
  }

  lemma HereStops(lib: Library, h: Graph, c: Config)
    requires Here(h, c)
    ensures Step(lib, h, c) == None
  {
  }

  lemma HaltingIsUnique(lib: Library, h: Graph, c: Config, n: nat, c1: Config, k: nat, c2: Config)
    requires HaltsAt(lib, h, c, n, c1) && HaltsAt(lib, h, c, k, c2)
    ensures n == k && c1 == c2
  {
    if k > n { HaltingIsFinal(lib, h, c, n, c1, k); }
    if n > k { HaltingIsFinal(lib, h, c, k, c2, n); }
  }
}
