/** Basic blocks, the builder that emits them, and their execution. */
module Ir {
  import opened Basics
  import opened RegionTypes
  import opened Lang
  import opened Memory

  /** Constants are operands; everything else that has a value is in a register. */
  datatype Operand = Imm(n: int) | Reg(r: nat)

  datatype Instr =
    | BinI(dst: nat, op: Op, a: Operand, b: Operand)
    | LoadVar(dst: nat, slot: nat)
    | StoreVar(slot: nat, a: Operand)
    | AllocI(dst: nat, region: Operand, count: Operand)         // cells are uninitialised
    | NewI(dst: nat, region: Operand, cls: Name)
    | LengthI(dst: nat, a: Operand)
    | LoadI(dst: nat, a: Operand, i: Operand)
    | StoreI(a: Operand, i: Operand, x: Operand)
    | LoadF(dst: nat, o: Operand, f: Name)
    | StoreF(o: Operand, f: Name, x: Operand)
    | OpenI(dst: nat)                                           // NewRegion
    | CloseI(region: Operand)                                   // DeleteRegion
    | IterI(dst: nat, lo: Operand, hi: Operand)                 // range
    | HasNextI(dst: nat, it: Operand)
    | NextI(dst: nat, it: Operand)
    | CallI(dst: nat, fn: Name, region: Operand, args: seq<Operand>)

  datatype Term = Br(target: nat) | CondBr(c: Operand, thn: nat, els: nat) | Ret(result: Option<Operand>)

  datatype Block = Block(instrs: seq<Instr>, term: Option<Term>)

  /** A function under construction: the blocks created so far, the order in which they were
      appended to the function, the insertion block, and the next free register and slot.
      Slots are the entry block's allocas. */
  datatype Graph = Graph(blocks: seq<Block>, order: seq<nat>, cur: nat, nregs: nat, nslots: nat)

  const EMPTY_BLOCK := Block([], None)

  /** The insertion block exists and has no terminator yet. */
  predicate Open(g: Graph) {
    g.cur < |g.blocks| && g.blocks[g.cur].term == None
  }

  // ---------- Builder steps ----------

  /** `k` new blocks that are not yet part of the function. */
  function Create(g: Graph, k: nat): Graph { g.(blocks := g.blocks + seq(k, _ => EMPTY_BLOCK)) }

  function Append(g: Graph, b: nat): Graph { g.(order := g.order + [b]) }

  function InsertAt(g: Graph, b: nat): Graph { g.(cur := b) }

  /** Appends an instruction to the insertion block. */
  function Emit(g: Graph, i: Instr): Graph {
    if g.cur < |g.blocks| then
      var b := g.blocks[g.cur];
      g.(blocks := g.blocks[g.cur := b.(instrs := b.instrs + [i])])
    else g
  }

  function Terminate(g: Graph, t: Term): Graph {
    if g.cur < |g.blocks| then g.(blocks := g.blocks[g.cur := g.blocks[g.cur].(term := Some(t))]) else g
  }

  /** Emits an instruction that defines the next register. */
  function Define(g: Graph, i: Instr): Graph {
    var h := Emit(g, i);
    h.(nregs := h.nregs + 1)
  }

  /** A new variable: a slot in the entry block, stored to here. */
  function NewVar(g: Graph, o: Operand): Graph {
    var h := Emit(g, StoreVar(g.nslots, o));
    h.(nslots := h.nslots + 1)
  }

  /** Ends the insertion block and goes on in block `b`, which is already part of the function. */
  function Enter(g: Graph, t: Term, b: nat): Graph {
    InsertAt(Terminate(g, t), b)
  }

  /** Ends the insertion block and goes on in block `b`, which joins the function. */
  function GoTo(g: Graph, t: Term, b: nat): Graph {
    InsertAt(Append(Terminate(g, t), b), b)
  }

  // ---------- Execution ----------

  datatype Item = I(instr: Instr) | T(term: Term)

  /** What is at position `i` of block `b`. */
  function At(g: Graph, b: nat, i: nat): Option<Item> {
    if b >= |g.blocks| then None
    else if i < |g.blocks[b].instrs| then Some(I(g.blocks[b].instrs[i]))
    else if i == |g.blocks[b].instrs| && g.blocks[b].term.Some? then Some(T(g.blocks[b].term.value))
    else None
  }

  datatype State = State(regs: map<nat, Value>, slots: map<nat, Value>, mem: Mem)

  /** Where control is in a function, and where it is in the function it is calling, if any. */
  datatype Config = Config(block: nat, idx: nat, st: State, sub: Option<Callee> := None)

  datatype Callee = Callee(fn: nat, at: Config)

  /** The code of one function. */
  datatype Unit = Unit(name: Name, arity: nat, graph: Graph)

  /** What code refers to by name: the classes, and the functions generated before it. */
  datatype Library = Library(classes: map<Name, map<Name, int>>, units: seq<Unit>)

  function Operate(o: Operand, st: State): Option<Value> {
    match o
    case Imm(n) => Some(VInt(n))
    case Reg(r) => if r in st.regs then Some(st.regs[r]) else None
  }

  function Put(st: State, dst: nat, v: Value, m: Mem): State {
    st.(regs := st.regs[dst := v], mem := m)
  }

  function PutResult(st: State, dst: nat, r: Res<Value>): Option<State> {
    if r.Ok? then Some(Put(st, dst, r.value, r.mem)) else None
  }

  function SetMem(st: State, r: Res<()>): Option<State> {
    if r.Ok? then Some(st.(mem := r.mem)) else None
  }

  /** One instruction that is no call; `None` when it faults. */
  function Perform(classes: map<Name, map<Name, int>>, i: Instr, st: State): Option<State> {
    match i
    case BinI(d, op, a, b) =>
      var x, y := Operate(a, st), Operate(b, st);
      if x.Some? && y.Some? then PutResult(st, d, Lift(BinOp(op, x.value, y.value), st.mem)) else None
    case LoadVar(d, s) => Some(Put(st, d, if s in st.slots then st.slots[s] else Undef, st.mem))
    case StoreVar(s, a) =>
      var x := Operate(a, st);
      if x.Some? then Some(st.(slots := st.slots[s := x.value])) else None
    case AllocI(d, r, n) =>
      var x, y := Operate(r, st), Operate(n, st);
      if x.Some? && x.value.VRegion? && y.Some?
      then PutResult(st, d, AllocArray(st.mem, x.value.rid, Undef, y.value)) else None
    case NewI(d, r, c) =>
      var x := Operate(r, st);
      if x.Some? && x.value.VRegion? && c in classes
      then PutResult(st, d, Alloc(st.mem, ClsO(x.value.rid, c, classes[c]))) else None
    case LengthI(d, a) =>
      var x := Operate(a, st);
      if x.Some? then PutResult(st, d, Lift(LoadLength(st.mem, x.value), st.mem)) else None
    case LoadI(d, a, i) =>
      var x, y := Operate(a, st), Operate(i, st);
      if x.Some? && y.Some? then PutResult(st, d, Lift(LoadCell(st.mem, x.value, y.value), st.mem)) else None
    case StoreI(a, i, v) =>
      var x, y, z := Operate(a, st), Operate(i, st), Operate(v, st);
      if x.Some? && y.Some? && z.Some? then SetMem(st, StoreCell(st.mem, x.value, y.value, z.value)) else None
    case LoadF(d, o, f) =>
      var x := Operate(o, st);
      if x.Some? then PutResult(st, d, Lift(LoadField(st.mem, x.value, f), st.mem)) else None
    case StoreF(o, f, v) =>
      var x, z := Operate(o, st), Operate(v, st);
      if x.Some? && z.Some? then SetMem(st, StoreField(st.mem, x.value, f, z.value)) else None
    case OpenI(d) =>
      var (rid, m) := OpenRegion(st.mem);
      Some(Put(st, d, VRegion(rid), m))
    case CloseI(r) =>
      var x := Operate(r, st);
      if x.Some? && x.value.VRegion? then SetMem(st, CloseRegion(st.mem, x.value.rid)) else None
    case IterI(d, lo, hi) =>
      var x, y := Operate(lo, st), Operate(hi, st);
      if x.Some? && y.Some? then PutResult(st, d, NewIter(st.mem, x.value, y.value)) else None
    case HasNextI(d, it) =>
      var x := Operate(it, st);
      if x.Some? && x.value.VIter? then Some(Put(st, d, VBool(HasNext(st.mem, x.value.it)), st.mem)) else None
    case NextI(d, it) =>
      var x := Operate(it, st);
      if x.Some? && x.value.VIter? && x.value.it < |st.mem.iters| then
        var (v, m) := Next(st.mem, x.value.it);
        Some(Put(st, d, v, m))
      else None
    case CallI(_, _, _, _) => None
  }

  // ---------- Calls ----------

  /** The latest function of that name. */
  function FindUnit(us: seq<Unit>, f: Name): (r: Option<nat>)
    ensures r.Some? ==> r.value < |us| && us[r.value].name == f && forall i :: r.value < i < |us| ==> us[i].name != f
    ensures r.None? ==> forall i :: 0 <= i < |us| ==> us[i].name != f
  {
    if us == [] then None
    else
      var n := |us| - 1;
      if us[n].name == f then Some(n) else FindUnit(us[..n], f)
  }

  function OperateAll(os: seq<Operand>, st: State): (r: Option<seq<Value>>)
    ensures r.Some? ==> |r.value| == |os|
  {
    if os == [] then Some([])
    else
      var v, vs := Operate(os[0], st), OperateAll(os[1..], st);
      if v.Some? && vs.Some? then Some([v.value] + vs.value) else None
  }

  /** The registers at the entry of a function: the region handle, then the arguments. */
  function EntryRegs(rid: nat, vs: seq<Value>): (regs: map<nat, Value>)
    ensures 0 in regs && regs[0] == VRegion(rid)
    ensures forall r :: 1 <= r <= |vs| ==> r in regs && regs[r] == vs[r - 1]
  {
    if vs == [] then map[0 := VRegion(rid)]
    else
      EntryRegs(rid, vs[..|vs| - 1])[|vs| := vs[|vs| - 1]]
  }

  function Start(rid: nat, vs: seq<Value>, m: Mem): Config { Config(0, 0, State(EntryRegs(rid, vs), map[], m)) }

  /** What a call instruction passes: the function, the region and the arguments. */
  function Passed(lib: Library, i: Instr, st: State): Option<(nat, nat, seq<Value>)>
    requires i.CallI?
  {
    var j, r, vs := FindUnit(lib.units, i.fn), Operate(i.region, st), OperateAll(i.args, st);
    if j.Some? && r.Some? && r.value.VRegion? && vs.Some? && |i.args| == lib.units[j.value].arity
    then Some((j.value, r.value.rid, vs.value)) else None
  }

  /** The value that a return hands to the caller. */
  function Returned(o: Option<Operand>, st: State): Option<Value> {
    if o.Some? then Operate(o.value, st) else Some(VVoid)
  }

  /** One step at a call: into the function, inside it, or back from it.  A function sees the
      functions before it. */
  function CallStep(lib: Library, i: Instr, c: Config): Option<Config>
    requires i.CallI?
    decreases c, 0
  {
    match c.sub
    case None =>
      var p := Passed(lib, i, c.st);
      if p.Some? then Some(c.(sub := Some(Callee(p.value.0, Start(p.value.1, p.value.2, c.st.mem))))) else None
    case Some(Callee(j, at)) =>
      if j >= |lib.units| then None
      else
        match At(lib.units[j].graph, at.block, at.idx)
        case Some(T(Ret(o))) =>
          var v := Returned(o, at.st);
          if v.Some? then Some(Config(c.block, c.idx + 1, Put(c.st, i.dst, v.value, at.st.mem))) else None
        case _ =>
          var n := Step(Before(lib, j), lib.units[j].graph, at);
          if n.Some? then Some(c.(sub := Some(Callee(j, n.value)))) else None
  }

  function Before(lib: Library, j: nat): Library
    requires j <= |lib.units|
  {
    lib.(units := lib.units[..j])
  }

  /** One step of the block graph; `None` at a fault, at a return, or where nothing has been emitted. */
  function Step(lib: Library, g: Graph, c: Config): Option<Config>
    decreases c, 1
  {
    match At(g, c.block, c.idx)
    case None => None
    case Some(I(i)) =>
      if i.CallI? then CallStep(lib, i, c)
      else
        var s := Perform(lib.classes, i, c.st);
        if s.Some? then Some(Config(c.block, c.idx + 1, s.value)) else None
    case Some(T(Br(b))) => Some(Config(b, 0, c.st))
    case Some(T(Ret(_))) => None
    case Some(T(CondBr(o, t, f))) =>
      var x := Operate(o, c.st);
      if x.Some? && x.value.VBool? then Some(Config(if x.value.b then t else f, 0, c.st)) else None
  }

  function Steps(lib: Library, g: Graph, c: Config, n: nat): Option<Config>
    decreases n
  {
    if n == 0 then Some(c)
    else
      var s := Step(lib, g, c);
      if s.Some? then Steps(lib, g, s.value, n - 1) else None
  }

  // ---------- Faults ----------

  function FaultOf<T>(r: Res<T>): Fault { if r.Fail? then r.fault else Stuck }

  /** Why an instruction that is no call cannot be performed. */
  function Cause(classes: map<Name, map<Name, int>>, i: Instr, st: State): Fault {
    match i
    case BinI(_, op, a, b) =>
      var x, y := Operate(a, st), Operate(b, st);
      if x.Some? && y.Some? then FaultOf(Lift(BinOp(op, x.value, y.value), st.mem)) else Stuck
    case AllocI(_, r, n) =>
      var x, y := Operate(r, st), Operate(n, st);
      if x.Some? && x.value.VRegion? && y.Some? then FaultOf(AllocArray(st.mem, x.value.rid, Undef, y.value)) else Stuck
    case NewI(_, r, c) =>
      var x := Operate(r, st);
      if x.Some? && x.value.VRegion? && c in classes then FaultOf(Alloc(st.mem, ClsO(x.value.rid, c, classes[c]))) else Stuck
    case LengthI(_, a) =>
      var x := Operate(a, st);
      if x.Some? then FaultOf(Lift(LoadLength(st.mem, x.value), st.mem)) else Stuck
    case LoadI(_, a, i) =>
      var x, y := Operate(a, st), Operate(i, st);
      if x.Some? && y.Some? then FaultOf(Lift(LoadCell(st.mem, x.value, y.value), st.mem)) else Stuck
    case StoreI(a, i, v) =>
      var x, y, z := Operate(a, st), Operate(i, st), Operate(v, st);
      if x.Some? && y.Some? && z.Some? then FaultOf(StoreCell(st.mem, x.value, y.value, z.value)) else Stuck
    case LoadF(_, o, f) =>
      var x := Operate(o, st);
      if x.Some? then FaultOf(Lift(LoadField(st.mem, x.value, f), st.mem)) else Stuck
    case StoreF(o, f, v) =>
      var x, z := Operate(o, st), Operate(v, st);
      if x.Some? && z.Some? then FaultOf(StoreField(st.mem, x.value, f, z.value)) else Stuck
    case CloseI(r) =>
      var x := Operate(r, st);
      if x.Some? && x.value.VRegion? then FaultOf(CloseRegion(st.mem, x.value.rid)) else Stuck
    case IterI(_, lo, hi) =>
      var x, y := Operate(lo, st), Operate(hi, st);
      if x.Some? && y.Some? then FaultOf(NewIter(st.mem, x.value, y.value)) else Stuck
    case _ => Stuck
  }

  /** Why control cannot go on from where it is; at a call, why the function called cannot. */
  function Why(lib: Library, g: Graph, c: Config): Fault
    decreases c
  {
    match At(g, c.block, c.idx)
    case Some(I(i)) =>
      if !i.CallI? then Cause(lib.classes, i, c.st)
      else if c.sub.Some? && c.sub.value.fn < |lib.units| then
        Why(Before(lib, c.sub.value.fn), lib.units[c.sub.value.fn].graph, c.sub.value.at)
      else Stuck
    case Some(T(CondBr(o, _, _))) =>
      var x := Operate(o, c.st);
      if x.Some? && x.value.VInt? then Width else Stuck
    case _ => Stuck
  }

  // ---------- Growth ----------

  /** `h` has everything that `g` has, in place. */
  ghost predicate Extends(g: Graph, h: Graph) {
    && |g.blocks| <= |h.blocks|
    && forall b: nat, i: nat :: At(g, b, i).Some? ==> At(h, b, i) == At(g, b, i)
  }

  lemma {:induction false} StepsWiden(lib: Library, g: Graph, h: Graph, c: Config, n: nat)
    requires Extends(g, h) && Steps(lib, g, c, n).Some?
    ensures Steps(lib, h, c, n) == Steps(lib, g, c, n)
    decreases n
  {
    if n > 0 {
      StepsWiden(lib, g, h, Step(lib, g, c).value, n - 1);
    }
  }

  lemma {:induction false} StepsConcat(lib: Library, g: Graph, c: Config, n: nat, k: nat)
    requires Steps(lib, g, c, n).Some?
    ensures Steps(lib, g, c, n + k) == Steps(lib, g, Steps(lib, g, c, n).value, k)
    decreases n
  {
    if n > 0 {
      StepsConcat(lib, g, Step(lib, g, c).value, n - 1, k);
    }
  }
}
