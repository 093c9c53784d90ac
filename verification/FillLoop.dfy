/** The code of array expressions: the loop of `[x; n]` fills every cell, and terminates; a
    literal stores its elements in order. */
module FillLoop {
  import opened Basics
  import opened RegionTypes
  import opened Lang
  import opened Memory
  import opened Ir
  import opened Lowering
  import opened Growth
  import opened Homes
  import opened Running

  /** Memory with a new array of length n at `loc` whose first `i` cells hold `v`. */
  function Filled(m: Mem, rid: nat, loc: nat, v: Value, i: nat, n: nat): Mem
    requires i <= n
  {
    m.(heap := m.heap[loc := ArrO(rid, seq(i, _ => v) + seq(n - i, _ => Undef))], next := m.next + 1)
  }

  lemma FilledEnds(m: Mem, rid: nat, v: Value, n: nat)
    requires rid in m.live && n < TWO63
    ensures AllocArray(m, rid, Undef, VInt(n)) == Ok(VRef(m.next), Filled(m, rid, m.next, v, 0, n))
    ensures AllocArray(m, rid, v, VInt(n)) == Ok(VRef(m.next), Filled(m, rid, m.next, v, n, n))
  {
    assert seq(0, _ => v) + seq(n, _ => Undef) == seq(n, _ => Undef);
    assert seq(n, _ => v) + seq(0, _ => Undef) == seq(n, _ => v);
  }

  lemma FilledNext(m: Mem, rid: nat, loc: nat, v: Value, i: nat, n: nat)
    requires i < n
    ensures StoreCell(Filled(m, rid, loc, v, i, n), VRef(loc), VInt(i), v) == Ok((), Filled(m, rid, loc, v, i + 1, n))
  {
    var cells := seq(i, _ => v) + seq(n - i, _ => Undef);
    assert cells[i := v] == seq(i + 1, _ => v) + seq(n - i - 1, _ => Undef);
    var a, b := Filled(m, rid, loc, v, i, n), Filled(m, rid, loc, v, i + 1, n);
    assert a.heap[loc := ArrO(rid, cells[i := v])] == b.heap;
  }

  /** The test reads the counter and compares it with the length. */
  lemma TestRuns(lib: Library, g: Graph, slot: nat, n: Operand, cond: nat, c: Config, i: int, len: int)
    returns (k: nat, c1: Config)
    requires Here(g, c) && Waiting(g, cond + 1) && Waiting(g, cond + 2)
    requires slot in c.st.slots && c.st.slots[slot] == VInt(i)
    requires Operate(n, c.st) == Some(VInt(len)) && OperandOk(n, g.nregs)
    ensures Runs(lib, FillTest(g, slot, n, cond), c, k, c1)
    ensures c1.block == (if i < len then cond + 1 else cond + 2) && c1.idx == 0 && c1.sub.None?
    ensures KeptRegs(g.nregs, c.st, c1.st) && c1.st.slots == c.st.slots && c1.st.mem == c.st.mem
  {
    var i1 := LoadVar(g.nregs, slot);
    var g1 := Define(g, i1);
    var s1 := Put(c.st, g.nregs, VInt(i), c.st.mem);
    var k1 := Config(c.block, c.idx + 1, s1);
    k := RunsInstr(lib, g, g1, i1, c, s1);
    EmitNested(g, i1);
    var i2 := BinI(g1.nregs, Lt, Reg(g.nregs), n);
    var g2 := Define(g1, i2);
    var s2 := Put(s1, g1.nregs, VBool(i < len), s1.mem);
    var k2 := Config(c.block, c.idx + 2, s2);
    assert Operate(n, s1) == Some(VInt(len));
    k := RunsMore(lib, g1, g2, i2, c, k, k1, s2);
    EmitNested(g1, i2);
    NestedTrans(g, g1, g2);
    StillWaiting(g, g2, cond + 1);
    k := RunsJump(lib, g2, CondBr(Reg(g1.nregs), cond + 1, cond + 2), cond + 1, c, k, k2);
    c1 := Config(if i < len then cond + 1 else cond + 2, 0, s2);
  }

  /** The body stores the element and advances the counter. */
  lemma BodyRuns(lib: Library, g: Graph, slot: nat, arr: Operand, x: Operand, c: Config, i: nat, loc: nat, v: Value, m: Mem)
    returns (k: nat, c1: Config)
    requires Here(g, c) && slot in c.st.slots && c.st.slots[slot] == VInt(i) && i + 1 < TWO63
    requires Operate(arr, c.st) == Some(VRef(loc)) && OperandOk(arr, g.nregs)
    requires Operate(x, c.st) == Some(v) && OperandOk(x, g.nregs)
    requires StoreCell(c.st.mem, VRef(loc), VInt(i), v) == Ok((), m)
    ensures Runs(lib, FillBody(g, slot, arr, x), c, k, c1) && Here(FillBody(g, slot, arr, x), c1)
    ensures KeptRegs(g.nregs, c.st, c1.st) && c1.st.mem == m
    ensures c1.st.slots == c.st.slots[slot := VInt(i + 1)]
  {
    var i1 := LoadVar(g.nregs, slot);
    var g1 := Define(g, i1);
    var s1 := Put(c.st, g.nregs, VInt(i), c.st.mem);
    k := RunsInstr(lib, g, g1, i1, c, s1);
    var i2 := StoreI(arr, Reg(g.nregs), x);
    var g2 := Emit(g1, i2);
    var s2 := s1.(mem := m);
    k := RunsMore(lib, g1, g2, i2, c, k, Config(c.block, c.idx + 1, s1), s2);
    var i3 := LoadVar(g2.nregs, slot);
    var g3 := Define(g2, i3);
    var s3 := Put(s2, g2.nregs, VInt(i), m);
    k := RunsMore(lib, g2, g3, i3, c, k, Config(c.block, c.idx + 2, s2), s3);
    var i4 := BinI(g3.nregs, Add, Reg(g2.nregs), Imm(1));
    var g4 := Define(g3, i4);
    var s4 := Put(s3, g3.nregs, VInt(i + 1), m);
    k := RunsMore(lib, g3, g4, i4, c, k, Config(c.block, c.idx + 3, s3), s4);
    var i5 := StoreVar(slot, Reg(g3.nregs));
    var s5 := s4.(slots := s4.slots[slot := VInt(i + 1)]);
    k := RunsMore(lib, g4, Emit(g4, i5), i5, c, k, Config(c.block, c.idx + 4, s4), s5);
    c1 := Config(c.block, c.idx + 5, s5);
  }

  /** The graphs of the loop, and what stays fixed while it runs. */
  ghost predicate Looping(gs: Graph, slot: nat, n: Operand, arr: nat, x: Operand, cond: nat, st: State, len: nat, loc: nat, v: Value) {
    && Open(gs) && gs.cur == cond && gs.blocks[cond] == EMPTY_BLOCK && Waiting(gs, cond + 1) && Waiting(gs, cond + 2)
    && len < TWO63
    && OperandOk(n, gs.nregs) && Operate(n, st) == Some(VInt(len))
    && OperandOk(x, gs.nregs) && Operate(x, st) == Some(v)
    && arr < gs.nregs && Operate(Reg(arr), st) == Some(VRef(loc))
  }

  function LoopCode(gs: Graph, slot: nat, n: Operand, arr: nat, x: Operand, cond: nat): Graph {
    GoTo(FillBody(FillTest(gs, slot, n, cond), slot, Reg(arr), x), Br(cond), cond + 2)
  }

  lemma LoopCodeGrows(gs: Graph, slot: nat, n: Operand, arr: nat, x: Operand, cond: nat)
    requires Open(gs) && Waiting(gs, cond + 1) && Waiting(gs, cond + 2)
    ensures var gt := FillTest(gs, slot, n, cond);
            var gb := FillBody(gt, slot, Reg(arr), x);
            var h := LoopCode(gs, slot, n, arr, x, cond);
            && Open(gt) && gt.cur == cond + 1 && gt.blocks[gt.cur] == EMPTY_BLOCK && gs.nregs <= gt.nregs
            && Waiting(gb, cond + 2) && Extends(gt, h) && Extends(gb, h)
            && Open(h) && h.cur == cond + 2 && h.blocks[h.cur] == EMPTY_BLOCK
  {
    var gt := FillTest(gs, slot, n, cond);
    FillTestGrows(gs, slot, n, cond);
    FillBodyNested(gt, slot, Reg(arr), x);
    var gb := FillBody(gt, slot, Reg(arr), x);
    StillWaiting(gt, gb, cond + 2);
    GoToGrows(gb, Br(cond), cond + 2);
  }

  lemma ExtendsTrans(g: Graph, h: Graph, k: Graph)
    requires Extends(g, h) && Extends(h, k)
    ensures Extends(g, k)
  {
  }

  /** The allocation comes first in the code of `[x; n]`. */
  lemma FillFirst(g: Graph, region: Operand, x: Operand, n: Operand)
    requires Open(g)
    ensures Extends(Define(g, AllocI(g.nregs, region, n)), LowerFill(g, region, x, n))
  {
    hide Extends;
    var cond, i := |g.blocks|, AllocI(g.nregs, region, n);
    var g1 := Define(g, i);
    EmitNested(g, i);
    CreateNested(g1, 3);
    var g2 := Create(g1, 3);
    NewVarNested(g2, Imm(0));
    var g3 := NewVar(g2, Imm(0));
    StillWaiting(g2, g3, cond);
    GoToGrows(g3, Br(cond), cond);
    FillStartNested(g, region, n);
    var gs := FillStart(g, region, n);
    LoopCodeGrows(gs, g.nslots, n, g.nregs, x, cond);
    FillTestGrows(gs, g.nslots, n, cond);
    ExtendsTrans(g1, g2, g3);
    ExtendsTrans(g1, g3, gs);
    ExtendsTrans(g1, gs, FillTest(gs, g.nslots, n, cond));
    ExtendsTrans(g1, FillTest(gs, g.nslots, n, cond), LoopCode(gs, g.nslots, n, g.nregs, x, cond));
  }

  /** From the condition with counter i to the continue block, with all cells filled. */
  lemma {:induction false} LoopRuns(lib: Library, gs: Graph, slot: nat, n: Operand, arr: nat, x: Operand, cond: nat,
                                    st: State, i: nat, len: nat, m: Mem, rid: nat, loc: nat, v: Value)
    returns (k: nat, st1: State)
    requires Looping(gs, slot, n, arr, x, cond, st, len, loc, v) && i <= len
    requires slot in st.slots && st.slots[slot] == VInt(i) && st.mem == Filled(m, rid, loc, v, i, len)
    ensures Runs(lib, LoopCode(gs, slot, n, arr, x, cond), Config(cond, 0, st), k, Config(cond + 2, 0, st1))
    ensures KeptRegs(gs.nregs, st, st1) && st1.mem == Filled(m, rid, loc, v, len, len)
    ensures forall s :: s in st.slots && s != slot ==> s in st1.slots && st1.slots[s] == st.slots[s]
    decreases len - i
  {
    hide Steps, Step, Perform, At;
    if i == len {
      var c1;
      k, c1 := TestInLoop(lib, gs, slot, n, arr, x, cond, st, i, len, loc, v);
      st1 := c1.st;
    } else {
      var k1, c1 := RoundRuns(lib, gs, slot, n, arr, x, cond, st, i, len, m, rid, loc, v);
      var k2, s2 := LoopRuns(lib, gs, slot, n, arr, x, cond, c1.st, i + 1, len, m, rid, loc, v);
      StepsConcat(lib, LoopCode(gs, slot, n, arr, x, cond), Config(cond, 0, st), k1, k2);
      k, st1 := k1 + k2, s2;
    }
  }

  /** The test, run in the code of the whole loop. */
  lemma TestInLoop(lib: Library, gs: Graph, slot: nat, n: Operand, arr: nat, x: Operand, cond: nat,
                   st: State, i: nat, len: nat, loc: nat, v: Value)
    returns (k: nat, c1: Config)
    requires Looping(gs, slot, n, arr, x, cond, st, len, loc, v)
    requires slot in st.slots && st.slots[slot] == VInt(i)
    ensures Runs(lib, LoopCode(gs, slot, n, arr, x, cond), Config(cond, 0, st), k, c1)
    ensures c1.block == (if i < len then cond + 1 else cond + 2) && c1.idx == 0 && c1.sub.None?
    ensures KeptRegs(gs.nregs, st, c1.st) && c1.st.slots == st.slots && c1.st.mem == st.mem
  {
    LoopCodeGrows(gs, slot, n, arr, x, cond);
    k, c1 := TestRuns(lib, gs, slot, n, cond, Config(cond, 0, st), i, len);
    StepsWiden(lib, FillTest(gs, slot, n, cond), LoopCode(gs, slot, n, arr, x, cond), Config(cond, 0, st), k);
  }

  /** Once around the loop. */
  lemma RoundRuns(lib: Library, gs: Graph, slot: nat, n: Operand, arr: nat, x: Operand, cond: nat,
                  st: State, i: nat, len: nat, m: Mem, rid: nat, loc: nat, v: Value)
    returns (k: nat, c2: Config)
    requires Looping(gs, slot, n, arr, x, cond, st, len, loc, v) && i < len
    requires slot in st.slots && st.slots[slot] == VInt(i) && st.mem == Filled(m, rid, loc, v, i, len)
    ensures Runs(lib, LoopCode(gs, slot, n, arr, x, cond), Config(cond, 0, st), k, c2) && c2.block == cond && c2.idx == 0 && c2.sub.None?
    ensures Looping(gs, slot, n, arr, x, cond, c2.st, len, loc, v)
    ensures KeptRegs(gs.nregs, st, c2.st) && c2.st.mem == Filled(m, rid, loc, v, i + 1, len)
    ensures c2.st.slots == st.slots[slot := VInt(i + 1)]
  {
    hide Steps, Step, Perform, At, LoopCode;
    var k1, c1 := TestInLoop(lib, gs, slot, n, arr, x, cond, st, i, len, loc, v);
    var k2;
    k2, c2 := IterationRuns(lib, gs, slot, n, arr, x, cond, st, c1, i, len, m, rid, loc, v);
    StepsConcat(lib, LoopCode(gs, slot, n, arr, x, cond), Config(cond, 0, st), k1, k2);
    k := k1 + k2;
  }

  /** The body of one iteration, and the jump back. */
  lemma IterationRuns(lib: Library, gs: Graph, slot: nat, n: Operand, arr: nat, x: Operand, cond: nat,
                      st: State, c1: Config, i: nat, len: nat, m: Mem, rid: nat, loc: nat, v: Value)
    returns (k: nat, c2: Config)
    requires Looping(gs, slot, n, arr, x, cond, st, len, loc, v) && i < len
    requires slot in st.slots && st.slots[slot] == VInt(i) && st.mem == Filled(m, rid, loc, v, i, len)
    requires c1.block == cond + 1 && c1.idx == 0 && c1.sub.None?
    requires KeptRegs(gs.nregs, st, c1.st) && c1.st.slots == st.slots && c1.st.mem == st.mem
    ensures Runs(lib, LoopCode(gs, slot, n, arr, x, cond), c1, k, c2) && c2.block == cond && c2.idx == 0 && c2.sub.None?
    ensures Looping(gs, slot, n, arr, x, cond, c2.st, len, loc, v)
    ensures KeptRegs(gs.nregs, st, c2.st) && c2.st.mem == Filled(m, rid, loc, v, i + 1, len)
    ensures c2.st.slots == st.slots[slot := VInt(i + 1)]
  {
    var gt := FillTest(gs, slot, n, cond);
    LoopCodeGrows(gs, slot, n, arr, x, cond);
    HereAtStart(gt, c1);
    FilledNext(m, rid, loc, v, i, len);
    OperateKept(x, gs.nregs, st, c1.st);
    OperateKept(Reg(arr), gs.nregs, st, c1.st);
    var k1, cb := BodyRuns(lib, gt, slot, Reg(arr), x, c1, i, loc, v, Filled(m, rid, loc, v, i + 1, len));
    k := RunsJump(lib, FillBody(gt, slot, Reg(arr), x), Br(cond), cond + 2, c1, k1, cb);
    c2 := Config(cond, 0, cb.st);
    OperateKept(n, gs.nregs, st, c2.st);
    OperateKept(x, gs.nregs, st, c2.st);
    OperateKept(Reg(arr), gs.nregs, st, c2.st);
  }

  /** The start: allocation, counter and jump. */
  lemma StartRuns(lib: Library, g: Graph, region: Operand, n: Operand, c: Config, rid: nat, len: nat, v: Value)
    returns (k: nat, st: State)
    requires Here(g, c) && Operate(region, c.st) == Some(VRegion(rid)) && rid in c.st.mem.live
    requires Operate(n, c.st) == Some(VInt(len)) && len < TWO63 && OperandOk(n, g.nregs)
    ensures Runs(lib, FillStart(g, region, n), c, k, Config(|g.blocks|, 0, st))
    ensures KeptRegs(g.nregs, c.st, st) && Operate(Reg(g.nregs), st) == Some(VRef(c.st.mem.next))
    ensures st.slots == c.st.slots[g.nslots := VInt(0)]
    ensures st.mem == Filled(c.st.mem, rid, c.st.mem.next, v, 0, len)
  {
    FilledEnds(c.st.mem, rid, v, len);
    var i1 := AllocI(g.nregs, region, n);
    var g1 := Define(g, i1);
    var s1 := Put(c.st, g.nregs, VRef(c.st.mem.next), Filled(c.st.mem, rid, c.st.mem.next, v, 0, len));
    var k1 := Config(c.block, c.idx + 1, s1);
    k := RunsInstr(lib, g, g1, i1, c, s1);
    EmitNested(g, i1);
    var g2 := Create(g1, 3);
    CreateNested(g1, 3);
    StepsWiden(lib, g1, g2, c, k);
    var i2 := StoreVar(g2.nslots, Imm(0));
    var g3 := NewVar(g2, Imm(0));
    NewVarNested(g2, Imm(0));
    st := s1.(slots := s1.slots[g.nslots := VInt(0)]);
    k := RunsMore(lib, g2, g3, i2, c, k, k1, st);
    StillWaiting(g2, g3, |g.blocks|);
    k := RunsJump(lib, g3, Br(|g.blocks|), |g.blocks|, c, k, Config(c.block, c.idx + 2, st));
  }

  /** The whole of `[x; n]`. */
  lemma FillRuns(lib: Library, g: Graph, region: Operand, x: Operand, n: Operand, c: Config, rid: nat, len: nat, v: Value)
    returns (k: nat, c1: Config)
    requires Here(g, c) && Operate(region, c.st) == Some(VRegion(rid)) && rid in c.st.mem.live
    requires Operate(n, c.st) == Some(VInt(len)) && len < TWO63 && OperandOk(n, g.nregs)
    requires Operate(x, c.st) == Some(v) && OperandOk(x, g.nregs)
    ensures Computes(lib, g, LowerFill(g, region, x, n), Reg(g.nregs), c, k, c1, VRef(c.st.mem.next),
                     AllocArray(c.st.mem, rid, v, VInt(len)).mem)
  {
    hide Steps, Step, At, Perform, Extends;
    var gs := FillStart(g, region, n);
    FillStartNested(g, region, n);
    var k0, st := StartRuns(lib, g, region, n, c, rid, len, v);
    var k1, st1 := AllCells(lib, g, gs, x, n, c, st, rid, len, v);
    FillLinks(lib, g, gs, x, n, c, k0, st, k1, st1);
    FilledEnds(c.st.mem, rid, v, len);
    assert LowerFill(g, region, x, n) == LoopCode(gs, g.nslots, n, g.nregs, x, |g.blocks|);
    k, c1 := k0 + k1, Config(|g.blocks| + 2, 0, st1);
  }

  /** The loop from its start, with the state it is started in. */
  lemma AllCells(lib: Library, g: Graph, gs: Graph, x: Operand, n: Operand, c: Config, st: State, rid: nat, len: nat, v: Value)
    returns (k: nat, st1: State)
    requires Open(gs) && gs.cur == |g.blocks| && gs.blocks[gs.cur] == EMPTY_BLOCK && gs.nregs == g.nregs + 1
    requires Waiting(gs, |g.blocks| + 1) && Waiting(gs, |g.blocks| + 2)
    requires KeptRegs(g.nregs, c.st, st) && Operate(Reg(g.nregs), st) == Some(VRef(c.st.mem.next))
    requires Operate(n, c.st) == Some(VInt(len)) && len < TWO63 && OperandOk(n, g.nregs)
    requires Operate(x, c.st) == Some(v) && OperandOk(x, g.nregs)
    requires st.slots == c.st.slots[g.nslots := VInt(0)]
    requires st.mem == Filled(c.st.mem, rid, c.st.mem.next, v, 0, len)
    ensures Runs(lib, LoopCode(gs, g.nslots, n, g.nregs, x, |g.blocks|), Config(|g.blocks|, 0, st), k, Config(|g.blocks| + 2, 0, st1))
    ensures After(g, c.st, st1, Filled(c.st.mem, rid, c.st.mem.next, v, len, len))
    ensures Operate(Reg(g.nregs), st1) == Some(VRef(c.st.mem.next))
  {
    hide LoopCode, Steps, Operate, Here;
    OperateKept(x, g.nregs, c.st, st);
    OperateKept(n, g.nregs, c.st, st);
    k, st1 := LoopRuns(lib, gs, g.nslots, n, g.nregs, x, |g.blocks|, st, 0, len, c.st.mem, rid, c.st.mem.next, v);
    OperateKept(Reg(g.nregs), gs.nregs, st, st1);
  }

  lemma FillLinks(lib: Library, g: Graph, gs: Graph, x: Operand, n: Operand, c: Config, k0: nat, st: State, k1: nat, st1: State)
    requires Open(gs) && Waiting(gs, |g.blocks| + 1) && Waiting(gs, |g.blocks| + 2)
    requires Runs(lib, gs, c, k0, Config(|g.blocks|, 0, st))
    requires Runs(lib, LoopCode(gs, g.nslots, n, g.nregs, x, |g.blocks|), Config(|g.blocks|, 0, st), k1, Config(|g.blocks| + 2, 0, st1))
    ensures var h := LoopCode(gs, g.nslots, n, g.nregs, x, |g.blocks|);
            Runs(lib, h, c, k0 + k1, Config(|g.blocks| + 2, 0, st1)) && Here(h, Config(|g.blocks| + 2, 0, st1))
  {
    var cond := |g.blocks|;
    LoopCodeGrows(gs, g.nslots, n, g.nregs, x, cond);
    FillTestGrows(gs, g.nslots, n, cond);
    var h := LoopCode(gs, g.nslots, n, g.nregs, x, cond);
    RunsThen(lib, gs, h, c, k0, Config(cond, 0, st), k1, Config(cond + 2, 0, st1));
    HereAtStart(h, Config(cond + 2, 0, st1));
  }

  // ---------- Array literals ----------

  /** Memory with a new array at `loc` that has the first `i` of the values `vs`. */
  function Stored(m: Mem, rid: nat, loc: nat, vs: seq<Value>, i: nat): Mem
    requires i <= |vs|
  {
    m.(heap := m.heap[loc := ArrO(rid, vs[..i] + seq(|vs| - i, _ => Undef))], next := m.next + 1)
  }

  lemma StoredEnds(m: Mem, rid: nat, vs: seq<Value>)
    requires rid in m.live && |vs| < TWO63
    ensures AllocArray(m, rid, Undef, VInt(|vs|)) == Ok(VRef(m.next), Stored(m, rid, m.next, vs, 0))
    ensures Alloc(m, ArrO(rid, vs)) == Ok(VRef(m.next), Stored(m, rid, m.next, vs, |vs|))
  {
    assert vs[..0] + seq(|vs|, _ => Undef) == seq(|vs|, _ => Undef);
    assert vs[..|vs|] + seq(0, _ => Undef) == vs;
  }

  lemma StoredNext(m: Mem, rid: nat, loc: nat, vs: seq<Value>, i: nat)
    requires i < |vs|
    ensures StoreCell(Stored(m, rid, loc, vs, i), VRef(loc), VInt(i), vs[i]) == Ok((), Stored(m, rid, loc, vs, i + 1))
  {
    var cells := vs[..i] + seq(|vs| - i, _ => Undef);
    assert cells[i := vs[i]] == vs[..i + 1] + seq(|vs| - i - 1, _ => Undef);
    assert Stored(m, rid, loc, vs, i).heap[loc := ArrO(rid, cells[i := vs[i]])] == Stored(m, rid, loc, vs, i + 1).heap;
  }

  ghost predicate HoldsAll(xs: seq<Operand>, vs: seq<Value>, st: State) {
    |xs| == |vs| && forall i :: 0 <= i < |xs| ==> Operate(xs[i], st) == Some(vs[i])
  }

  lemma {:induction false} StoresRun(lib: Library, g: Graph, arr: Operand, xs: seq<Operand>, i: nat, c: Config,
                                     m: Mem, rid: nat, loc: nat, vs: seq<Value>)
    returns (k: nat, c1: Config)
    requires Here(g, c) && HoldsAll(xs, vs, c.st) && i <= |xs| && Operate(arr, c.st) == Some(VRef(loc))
    requires c.st.mem == Stored(m, rid, loc, vs, i)
    ensures Runs(lib, StoreAll(g, arr, xs, i), c, k, c1) && Here(StoreAll(g, arr, xs, i), c1)
    ensures c1.st == c.st.(mem := Stored(m, rid, loc, vs, |vs|))
    decreases |xs| - i
  {
    if i == |xs| {
      k, c1 := 0, c;
    } else {
      StoredNext(m, rid, loc, vs, i);
      var s := StoreI(arr, Imm(i), xs[i]);
      var st := c.st.(mem := Stored(m, rid, loc, vs, i + 1));
      var c2 := Config(c.block, c.idx + 1, st);
      assert HoldsAll(xs, vs, st) && Operate(arr, st) == Some(VRef(loc)) by { SameRegs(xs, vs, c.st, st); }
      var k1 := RunsInstr(lib, g, Emit(g, s), s, c, st);
      var k2;
      k2, c1 := StoresRun(lib, Emit(g, s), arr, xs, i + 1, c2, m, rid, loc, vs);
      StoresNested(Emit(g, s), arr, xs, i + 1);
      k := k1 + k2;
      RunsThen(lib, Emit(g, s), StoreAll(g, arr, xs, i), c, k1, c2, k2, c1);
    }
  }

  lemma SameRegs(xs: seq<Operand>, vs: seq<Value>, s: State, s1: State)
    requires HoldsAll(xs, vs, s) && s1.regs == s.regs
    ensures HoldsAll(xs, vs, s1)
  {
  }

  /** Allocation and stores of a literal whose elements are computed. */
  lemma LitRuns(lib: Library, g: Graph, region: Operand, xs: seq<Operand>, c: Config, rid: nat, vs: seq<Value>)
    returns (k: nat, c1: Config)
    requires Here(g, c) && HoldsAll(xs, vs, c.st) && AllOk(xs, g.nregs) && |xs| < TWO63
    requires Operate(region, c.st) == Some(VRegion(rid)) && rid in c.st.mem.live
    ensures Computes(lib, g, StoreAll(Define(g, AllocI(g.nregs, region, Imm(|xs|))), Reg(g.nregs), xs, 0), Reg(g.nregs),
                     c, k, c1, VRef(c.st.mem.next), Alloc(c.st.mem, ArrO(rid, vs)).mem)
  {
    var m := c.st.mem;
    StoredEnds(m, rid, vs);
    var i := AllocI(g.nregs, region, Imm(|xs|));
    var g1 := Define(g, i);
    EmitNested(g, i);
    var k1, c2 := SimDefine(lib, g, i, c, VRef(m.next), Stored(m, rid, m.next, vs, 0));
    forall j | 0 <= j < |xs|
      ensures Operate(xs[j], c2.st) == Some(vs[j])
    {
      assert xs[j] in xs;
      OperateKept(xs[j], g.nregs, c.st, c2.st);
    }
    var k2;
    k2, c1 := StoresRun(lib, g1, Reg(g.nregs), xs, 0, c2, m, rid, m.next, vs);
    StoresNested(g1, Reg(g.nregs), xs, 0);
    k := k1 + k2;
    RunsThen(lib, g1, StoreAll(g1, Reg(g.nregs), xs, 0), c, k1, c2, k2, c1);
  }
}
