/** Runs of emitted blocks, and how the interpreter's state shows in them. */
module Running {
  import opened Basics
  import opened RegionTypes
  import opened Lang
  import opened Memory
  import opened Interp
  import opened Ir
  import opened Lowering
  import opened Growth
  import opened Homes

  /** Control is where the next instruction would be emitted. */
  ghost predicate Here(g: Graph, c: Config) {
    Open(g) && c.block == g.cur && c.idx == |g.blocks[g.cur].instrs| && c.sub.None?
  }

  ghost predicate Runs(lib: Library, g: Graph, c: Config, n: nat, c1: Config) {
    Steps(lib, g, c, n) == Some(c1)
  }

  lemma RunsThen(lib: Library, g: Graph, h: Graph, c: Config, n: nat, c1: Config, k: nat, c2: Config)
    requires Runs(lib, g, c, n, c1) && Extends(g, h) && Runs(lib, h, c1, k, c2)
    ensures Runs(lib, h, c, n + k, c2)
  {
    StepsWiden(lib, g, h, c, n);
    StepsConcat(lib, h, c, n, k);
  }

  /** One emitted instruction is one step. */
  lemma RunsInstr(lib: Library, g: Graph, h: Graph, i: Instr, c: Config, st: State) returns (n: nat)
    requires Here(g, c) && Perform(lib.classes, i, c.st) == Some(st) && h.blocks == Emit(g, i).blocks && h.cur == g.cur
    ensures Runs(lib, h, c, n, Config(c.block, c.idx + 1, st)) && Here(h, Config(c.block, c.idx + 1, st)) && n > 0
  {
    n := 1;
    assert At(h, c.block, c.idx) == Some(I(i));
    assert Step(lib, h, c) == Some(Config(c.block, c.idx + 1, st));
    assert Steps(lib, h, Config(c.block, c.idx + 1, st), 0) == Some(Config(c.block, c.idx + 1, st));
  }

  /** Appends one instruction to a run. */
  lemma RunsMore(lib: Library, g: Graph, h: Graph, i: Instr, c: Config, n: nat, c1: Config, st: State) returns (k: nat)
    requires Runs(lib, g, c, n, c1) && Here(g, c1) && Perform(lib.classes, i, c1.st) == Some(st)
    requires h.blocks == Emit(g, i).blocks && h.cur == g.cur
    ensures Runs(lib, h, c, k, Config(c1.block, c1.idx + 1, st)) && Here(h, Config(c1.block, c1.idx + 1, st)) && k > n
  {
    EmitNested(g, i);
    assert Extends(g, h) by { assert forall b: nat, x: nat :: At(h, b, x) == At(Emit(g, i), b, x); }
    var one := RunsInstr(lib, g, h, i, c1, st);
    k := n + one;
    RunsThen(lib, g, h, c, n, c1, one, Config(c1.block, c1.idx + 1, st));
  }

  function Target(t: Term, st: State): Option<nat> {
    match t
    case Br(b) => Some(b)
    case Ret(_) => None
    case CondBr(o, x, y) =>
      var v := Operate(o, st);
      if v.Some? && v.value.VBool? then Some(if v.value.b then x else y) else None
  }

  /** A terminator is one step. */
  lemma RunsJump(lib: Library, g: Graph, t: Term, b: nat, c: Config, n: nat, c1: Config) returns (k: nat)
    requires Runs(lib, g, c, n, c1) && Here(g, c1) && Waiting(g, b) && Target(t, c1.st).Some?
    ensures Runs(lib, GoTo(g, t, b), c, k, Config(Target(t, c1.st).value, 0, c1.st)) && k > n
  {
    GoToGrows(g, t, b);
    var h := GoTo(g, t, b);
    var c2 := Config(Target(t, c1.st).value, 0, c1.st);
    assert Step(lib, h, c1) == Some(c2);
    assert Steps(lib, h, c2, 0) == Some(c2);
    k := n + 1;
    RunsThen(lib, g, h, c, n, c1, 1, c2);
  }

  lemma RunsEnter(lib: Library, g: Graph, t: Term, b: nat, c: Config, n: nat, c1: Config) returns (k: nat)
    requires Runs(lib, g, c, n, c1) && Here(g, c1) && Waiting(g, b) && Target(t, c1.st).Some?
    ensures Runs(lib, Enter(g, t, b), c, k, Config(Target(t, c1.st).value, 0, c1.st)) && k > n
  {
    EnterGrows(g, t, b);
    var h := Enter(g, t, b);
    var c2 := Config(Target(t, c1.st).value, 0, c1.st);
    assert Step(lib, h, c1) == Some(c2);
    assert Steps(lib, h, c2, 0) == Some(c2);
    k := n + 1;
    RunsThen(lib, g, h, c, n, c1, 1, c2);
  }

  /** Control at the start of the block just entered. */
  lemma HereAtStart(g: Graph, c: Config)
    requires Open(g) && g.blocks[g.cur] == EMPTY_BLOCK && c.block == g.cur && c.idx == 0 && c.sub.None?
    ensures Here(g, c)
  {
  }

  // ---------- Calls ----------

  /** The run from `c` reaches a return after `n` steps, and returns `v`. */
  ghost predicate Returns(lib: Library, g: Graph, c: Config, n: nat, c1: Config, v: Value) {
    && Runs(lib, g, c, n, c1)
    && match At(g, c1.block, c1.idx)
       case Some(T(Ret(o))) => Returned(o, c1.st) == Some(v)
       case _ => false
  }

  /** Control is at something other than a return, and it cannot be executed. */
  ghost predicate StopsAt(lib: Library, h: Graph, c: Config) {
    && Step(lib, h, c) == None
    && match At(h, c.block, c.idx)
       case Some(I(_)) => true
       case Some(T(t)) => !t.Ret?
       case None => false
  }

  /** The run from `c` stops so after `n` steps, in `c1`, for the fault `f`. */
  ghost predicate Breaks(lib: Library, h: Graph, c: Config, n: nat, c1: Config, f: Fault) {
    Runs(lib, h, c, n, c1) && StopsAt(lib, h, c1) && Why(lib, h, c1) == f
  }

  /** The steps of a function are steps of the function that calls it. */
  lemma {:induction false} SubSteps(lib: Library, g: Graph, i: Instr, c: Config, j: nat, at: Config, n: nat)
    requires At(g, c.block, c.idx) == Some(I(i)) && i.CallI? && j < |lib.units|
    requires Steps(Before(lib, j), lib.units[j].graph, at, n).Some?
    ensures Steps(lib, g, c.(sub := Some(Callee(j, at))), n)
         == Some(c.(sub := Some(Callee(j, Steps(Before(lib, j), lib.units[j].graph, at, n).value))))
    decreases n
  {
    if n > 0 {
      var c1 := c.(sub := Some(Callee(j, at)));
      var next := Step(Before(lib, j), lib.units[j].graph, at).value;
      assert Step(lib, g, c1) == Some(c1.(sub := Some(Callee(j, next))));
      SubSteps(lib, g, i, c, j, next, n - 1);
    }
  }

  /** Control at an emitted call, and the function it goes into. */
  ghost predicate AtCall(lib: Library, g: Graph, i: Instr, c: Config, j: nat, rid: nat, vs: seq<Value>) {
    && i.CallI? && At(g, c.block, c.idx) == Some(I(i)) && c.sub.None?
    && Passed(lib, i, c.st) == Some((j, rid, vs)) && j < |lib.units|
  }

  /** Into the function, and `n` steps of it. */
  lemma CallGoesOn(lib: Library, g: Graph, i: Instr, c: Config, j: nat, rid: nat, vs: seq<Value>, n: nat, c1: Config)
    requires AtCall(lib, g, i, c, j, rid, vs)
    requires Runs(Before(lib, j), lib.units[j].graph, Start(rid, vs, c.st.mem), n, c1)
    ensures Runs(lib, g, c, n + 1, c.(sub := Some(Callee(j, c1))))
  {
    var c0 := c.(sub := Some(Callee(j, Start(rid, vs, c.st.mem))));
    assert Step(lib, g, c) == Some(c0);
    SubSteps(lib, g, i, c, j, Start(rid, vs, c.st.mem), n);
  }

  lemma CallReturns(lib: Library, g: Graph, i: Instr, c: Config, j: nat, rid: nat, vs: seq<Value>, n: nat, c1: Config, v: Value)
    requires AtCall(lib, g, i, c, j, rid, vs)
    requires Returns(Before(lib, j), lib.units[j].graph, Start(rid, vs, c.st.mem), n, c1, v)
    ensures Runs(lib, g, c, n + 2, Config(c.block, c.idx + 1, Put(c.st, i.dst, v, c1.st.mem)))
  {
    CallGoesOn(lib, g, i, c, j, rid, vs, n, c1);
    var c2 := c.(sub := Some(Callee(j, c1)));
    var c3 := Config(c.block, c.idx + 1, Put(c.st, i.dst, v, c1.st.mem));
    assert Step(lib, g, c2) == Some(c3);
    assert Steps(lib, g, c2, 1) == Some(c3) by { assert Steps(lib, g, c3, 0) == Some(c3); }
    StepsConcat(lib, g, c, n + 1, 1);
  }

  /** A function that stops stops its caller. */
  lemma CallBreaks(lib: Library, g: Graph, i: Instr, c: Config, j: nat, rid: nat, vs: seq<Value>, n: nat, c1: Config, f: Fault)
    requires AtCall(lib, g, i, c, j, rid, vs)
    requires Breaks(Before(lib, j), lib.units[j].graph, Start(rid, vs, c.st.mem), n, c1, f)
    ensures Breaks(lib, g, c, n + 1, c.(sub := Some(Callee(j, c1))), f)
  {
    CallGoesOn(lib, g, i, c, j, rid, vs, n, c1);
  }

  /** The outcome `r` of a function, on its code `g`.  Only a read of a variable without a value
      goes unnoticed by the code. */
  ghost predicate FnDone(lib: Library, r: Res<Value>, g: Graph, c: Config, fuel: nat, n: nat, c1: Config) {
    match r
    case Ok(v, m1) => Returns(lib, g, c, n, c1, v) && c1.st.mem == m1
    case Fail(f) => f != Uninit ==> Breaks(lib, g, c, n, c1, f)
    case Timeout => Runs(lib, g, c, n, c1) && n >= fuel
  }

  ghost predicate Simulated(p: Program, j: nat, rid: nat, vs: seq<Value>, m: Mem, fuel: nat)
    requires j < |p.fns|
  {
    exists n: nat, c1: Config ::
      FnDone(Lib(p, j), RunFn(p, j, rid, vs, m, fuel), UnitOf(p.fns[j]).graph, Start(rid, vs, m), fuel, n, c1)
  }

  /** The functions that function `k` can call do what the interpreter says. */
  ghost predicate Callees(p: Program, k: nat)
    requires k <= |p.fns|
  {
    forall j: nat, rid: nat, vs: seq<Value>, m: Mem, fuel: nat ::
      j < k && |vs| == |p.fns[j].params| ==> Simulated(p, j, rid, vs, m, fuel)
  }

  // ---------- The relation between states ----------

  ghost predicate KeptRegs(n: nat, s: State, s1: State) {
    forall r :: 0 <= r < n && r in s.regs ==> r in s1.regs && s1.regs[r] == s.regs[r]
  }

  ghost predicate KeptSlots(n: nat, s: State, s1: State) {
    forall x :: 0 <= x < n && x in s.slots ==> x in s1.slots && s1.slots[x] == s.slots[x]
  }

  ghost predicate Holds(h: Home, v: Value, st: State) {
    match h
    case InSlot(s) => s in st.slots && st.slots[s] == v
    case InReg(o) => Operate(o, st) == Some(v)
  }

  ghost predicate SameHandles(cx: LCx, env: Env, st: State) {
    && |cx.handles| == |env.handles|
    && forall i :: 0 <= i < |cx.handles| ==>
         cx.handles[i].0 == env.handles[i].0 && Operate(cx.handles[i].1, st) == Some(VRegion(env.handles[i].1))
  }

  /** Every variable that has a value has it in its home. */
  ghost predicate Match(cx: LCx, env: Env, st: State) {
    && cx.tags == env.tags && cx.depth == env.depth && |cx.homes| == |env.vals|
    && (forall i :: 0 <= i < |env.vals| && env.vals[i] != Undef ==> Holds(cx.homes[i], env.vals[i], st))
    && SameHandles(cx, env, st)
  }

  lemma OperateKept(o: Operand, n: nat, s: State, s1: State)
    requires OperandOk(o, n) && KeptRegs(n, s, s1) && Operate(o, s).Some?
    ensures Operate(o, s1) == Operate(o, s)
  {
  }

  lemma MatchKept(cx: LCx, env: Env, g: Graph, s: State, s1: State)
    requires Match(cx, env, s) && Fits(cx, g.nregs, g.nslots)
    requires KeptRegs(g.nregs, s, s1) && KeptSlots(g.nslots, s, s1)
    ensures Match(cx, env, s1)
  {
    forall i | 0 <= i < |env.vals| && env.vals[i] != Undef
      ensures Holds(cx.homes[i], env.vals[i], s1)
    {
      assert cx.homes[i] in cx.homes;
      assert Holds(cx.homes[i], env.vals[i], s);
    }
    HandlesKept(cx, env, g.nregs, s, s1);
  }

  lemma HandlesKept(cx: LCx, env: Env, n: nat, s: State, s1: State)
    requires SameHandles(cx, env, s) && KeptRegs(n, s, s1) && forall h :: h in cx.handles ==> OperandOk(h.1, n)
    ensures SameHandles(cx, env, s1)
  {
    forall i | 0 <= i < |cx.handles|
      ensures Operate(cx.handles[i].1, s1) == Some(VRegion(env.handles[i].1))
    {
      assert cx.handles[i] in cx.handles;
    }
  }

  lemma {:induction false} HandleSame<T(!new), U(!new)>(a: seq<(Name, T)>, b: seq<(Name, U)>, name: Name) returns (i: nat)
    requires |a| == |b| && forall i :: 0 <= i < |a| ==> a[i].0 == b[i].0
    requires GetHandle(b, name).Some?
    ensures i < |a| && GetHandle(a, name) == Some(a[i].1) && GetHandle(b, name) == Some(b[i].1)
    decreases |a|
  {
    var n := |a| - 1;
    if b[n].0 == name {
      i := n;
    } else {
      i := HandleSame(a[..n], b[..n], name);
    }
  }

  /** What an expression's code changes: memory as the interpreter says, and new registers
      and slots. */
  ghost predicate After(g: Graph, s: State, s1: State, m: Mem) {
    KeptRegs(g.nregs, s, s1) && KeptSlots(g.nslots, s, s1) && s1.mem == m
  }

  lemma AfterTrans(g: Graph, h: Graph, s: State, s1: State, s2: State, m: Mem)
    requires KeptRegs(g.nregs, s, s1) && KeptSlots(g.nslots, s, s1) && After(h, s1, s2, m)
    requires g.nregs <= h.nregs && g.nslots <= h.nslots
    ensures After(g, s, s2, m)
  {
  }

  /** Control is where the next code is emitted, and the scope matches. */
  ghost predicate Placed(cx: LCx, env: Env, g: Graph, c: Config) {
    EnvShape(env) && Here(g, c) && Fits(cx, g.nregs, g.nslots) && Match(cx, env, c.st)
  }

  ghost predicate Ready(p: Program, k: nat, cx: LCx, env: Env, g: Graph, c: Config) {
    k <= |p.fns| && Callees(p, k) && Placed(cx, env, g, c)
  }

  /** The code `h`, from `c`, ends after `n` steps in `c1` with the value `v` in `o`. */
  ghost predicate Computes(lib: Library, g: Graph, h: Graph, o: Operand, c: Config, n: nat, c1: Config, v: Value, m: Mem) {
    Runs(lib, h, c, n, c1) && Here(h, c1) && After(g, c.st, c1.st, m) && Operate(o, c1.st) == Some(v)
  }

  /** One instruction that defines a register. */
  lemma SimDefine(lib: Library, g: Graph, i: Instr, c: Config, v: Value, m: Mem) returns (n: nat, c1: Config)
    requires Here(g, c) && Perform(lib.classes, i, c.st) == Some(Put(c.st, g.nregs, v, m))
    ensures Computes(lib, g, Define(g, i), Reg(g.nregs), c, n, c1, v, m)
    ensures c1.st == Put(c.st, g.nregs, v, m) && n > 0
  {
    var st := Put(c.st, g.nregs, v, m);
    c1 := Config(c.block, c.idx + 1, st);
    n := RunsInstr(lib, g, Define(g, i), i, c, st);
  }

  /** A run followed by an instruction that defines a register. */
  lemma ThenDefine(lib: Library, g: Graph, h: Graph, i: Instr, c: Config, n: nat, c1: Config, v: Value, m: Mem)
    returns (k: nat, c2: Config)
    requires Runs(lib, h, c, n, c1) && Here(h, c1) && Nested(g, h)
    requires KeptRegs(g.nregs, c.st, c1.st) && KeptSlots(g.nslots, c.st, c1.st)
    requires Perform(lib.classes, i, c1.st) == Some(Put(c1.st, h.nregs, v, m))
    ensures Computes(lib, g, Define(h, i), Reg(h.nregs), c, k, c2, v, m) && c2.st == Put(c1.st, h.nregs, v, m)
  {
    var st := Put(c1.st, h.nregs, v, m);
    c2 := Config(c1.block, c1.idx + 1, st);
    k := RunsMore(lib, h, Define(h, i), i, c, n, c1, st);
  }
}
