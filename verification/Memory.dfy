/** The run-time memory: regions, and the objects they own.

    Deleting a region removes every object allocated in it, so that a later access
    through a stale reference is a `Dangling` fault.  Locations and region numbers are
    never used twice. */
module Memory {
  import opened RegionTypes
  import opened Lang

  datatype Obj =
    | ArrO(rid: nat, cells: seq<Value>)
    | ClsO(rid: nat, cls: Name, fields: map<Name, int>)

  datatype Event = Opened(rid: nat) | Closed(rid: nat)

  /** `iters` holds the `rangeIterator` objects of running loops, as (i, end). */
  datatype Mem = Mem(heap: map<nat, Obj>, next: nat, live: set<nat>, nextRid: nat,
                     iters: seq<(int, int)>, log: seq<Event>)

  const EMPTY := Mem(map[], 0, {}, 0, [], [])

  /** The outcome of a run that may also change memory. */
  datatype Res<+T> = Ok(value: T, mem: Mem) | Fail(fault: Fault) | Timeout {
    predicate IsFailure() { !Ok? }
    function PropagateFailure<U>(): Res<U>
      requires IsFailure()
    {
      if Fail? then Res.Fail(fault) else Res.Timeout
    }
    function Extract(): (T, Mem)
      requires Ok?
    {
      (value, mem)
    }
  }

  function Lift<T>(r: Result<T>, m: Mem): Res<T> {
    match r
    case Good(v) => Ok(v, m)
    case Bad(f) => Fail(f)
  }

  function Alloc(m: Mem, obj: Obj): Res<Value> {
    if obj.rid !in m.live then Fail(Dangling)
    else Ok(VRef(m.next), m.(heap := m.heap[m.next := obj], next := m.next + 1))
  }

  /** An array of `n` cells that all hold `v`.  A length that is no 64-bit word fails. */
  function AllocArray(m: Mem, rid: nat, v: Value, n: Value): Res<Value> {
    if !n.VInt? then Fail(if n.VBool? then Width else Stuck)
    else if n.n < 0 || n.n >= TWO63 then Fail(Bounds)
    else Alloc(m, ArrO(rid, seq(n.n, _ => v)))
  }

  function Deref(m: Mem, v: Value): Result<Obj> {
    if !v.VRef? then Bad(Stuck) else if v.loc !in m.heap then Bad(Dangling) else Good(m.heap[v.loc])
  }

  function LoadLength(m: Mem, v: Value): Result<Value> {
    match Deref(m, v)
    case Bad(f) => Bad(f)
    case Good(o) => if o.ArrO? then Good(VInt(|o.cells|)) else Bad(Stuck)
  }

  /** Checks that `v[i]` is an element of a present array. */
  function CheckCell(m: Mem, v: Value, i: Value): Result<nat> {
    match Deref(m, v)
    case Bad(f) => Bad(f)
    case Good(o) =>
      if !o.ArrO? then Bad(Stuck)
      else if !i.VInt? then Bad(if i.VBool? then Width else Stuck)
      else if 0 <= i.n < |o.cells| then Good(i.n) else Bad(Bounds)
  }

  function LoadCell(m: Mem, v: Value, i: Value): Result<Value> {
    match CheckCell(m, v, i)
    case Bad(f) => Bad(f)
    case Good(j) => Good(m.heap[v.loc].cells[j])
  }

  function StoreCell(m: Mem, v: Value, i: Value, x: Value): Res<()> {
    match CheckCell(m, v, i)
    case Bad(f) => Fail(f)
    case Good(j) =>
      var o := m.heap[v.loc];
      Ok((), m.(heap := m.heap[v.loc := o.(cells := o.cells[j := x])]))
  }

  function LoadField(m: Mem, v: Value, f: Name): Result<Value> {
    match Deref(m, v)
    case Bad(e) => Bad(e)
    case Good(o) => if o.ClsO? && f in o.fields then Good(VInt(o.fields[f])) else Bad(Stuck)
  }

  function StoreField(m: Mem, v: Value, f: Name, x: Value): Res<()> {
    match LoadField(m, v, f)
    case Bad(e) => Fail(e)
    case Good(_) =>
      if !x.VInt? then Fail(if x.VBool? then Width else Stuck)
      else
        var o := m.heap[v.loc];
        Ok((), m.(heap := m.heap[v.loc := o.(fields := o.fields[f := x.n])]))
  }

  function OpenRegion(m: Mem): (r: (nat, Mem))
  {
    (m.nextRid,
     m.(live := m.live + {m.nextRid}, nextRid := m.nextRid + 1, log := m.log + [Opened(m.nextRid)]))
  }

  function CloseRegion(m: Mem, rid: nat): Res<()> {
    if rid !in m.live then Fail(Dangling)
    else
      Ok((), m.(heap := map l | l in m.heap && m.heap[l].rid != rid :: m.heap[l],
                live := m.live - {rid}, log := m.log + [Closed(rid)]))
  }

  // ---------- rangeIterator ----------

  /** `range(lo, hi)`. */
  function NewIter(m: Mem, lo: Value, hi: Value): Res<Value> {
    if lo.VInt? && hi.VInt? then Ok(VIter(|m.iters|), m.(iters := m.iters + [(lo.n, hi.n)]))
    else Fail(if (lo.VInt? || lo.VBool?) && (hi.VInt? || hi.VBool?) then Width else Stuck)
  }

  function HasNext(m: Mem, it: nat): bool {
    it < |m.iters| && m.iters[it].0 < m.iters[it].1
  }

  /** `next()`: returns `i` and advances it. */
  function Next(m: Mem, it: nat): (r: (Value, Mem))
    requires it < |m.iters|
  {
    var (i, end) := m.iters[it];
    (VInt(i), m.(iters := m.iters[it := (Wrap(i + 1), end)]))
  }
}
