/** The standard library's range iterator, as source code: running its functions does what the
    iterator operations of `Memory` do on a pair of words. */
module RangeIterator {
  import opened Basics
  import opened RegionTypes
  import opened Lang
  import opened Memory
  import opened Interp
  import opened Ir
  import opened Lowering
  import opened Running
  import opened Functions
  import opened Behaviour
  import opened Correctness

  const CLASS: Name := "rangeIterator"

  function This(): Expr { Get("this") }

  /** A method is a function with its instance as a parameter, in the instance's region. */
  function Method(name: Name, ret: Type, body: Stmt, result: Expr): Fn {
    Fn(name, ["this"], [("this", ClsT(CLASS, "this"))], ret, body, Some(result))
  }

  /** return i < end; */
  function HasNextFn(): Fn {
    Method("hasNext", IntT(1), Skip, Bin(Lt, Field(This(), "i"), Field(This(), "end")))
  }

  /** var ii = i; i = i + 1; return ii; */
  function NextFn(): Fn {
    Method("next", IntT(64),
      Seq(Var("ii", Field(This(), "i")), Assign(Field(This(), "i"), Bin(Add, Field(This(), "i"), Num(1)))), Get("ii"))
  }

  /** var r = rangeIterator(); r.i = start; r.end = end; return r; */
  function RangeFn(): Fn {
    Fn("range", ["fn_default"], [("start", IntT(64)), ("end", IntT(64))], ClsT(CLASS, "fn_default"),
      Seq(Var("r", New(CLASS, [])),
        Seq(Assign(Field(Get("r"), "i"), Get("start")), Assign(Field(Get("r"), "end"), Get("end")))), Some(Get("r")))
  }

  /** The object at `l` is an iterator that stands at `i` and ends at `end`. */
  predicate Stands(m: Mem, l: nat, i: int, end: int) {
    l in m.heap && m.heap[l].ClsO? && m.heap[l].cls == CLASS && m.heap[l].fields == map["i" := i, "end" := end]
  }

  lemma ThisField(p: Program, k: nat, env: Env, f: Name, m: Mem, fuel: nat, l: nat, i: int, end: int)
    requires k <= |p.fns| && EnvShape(env) && Find(env.tags, "this") == Some(0) && env.vals[0] == VRef(l)
    requires Stands(m, l, i, end) && (f == "i" || f == "end")
    ensures Eval(p, k, env, Field(This(), f), m, fuel) == Ok(VInt(if f == "i" then i else end), m)
  {
    assert Eval(p, k, env, This(), m, fuel) == Ok(VRef(l), m);
  }

  lemma FindThis(ts: seq<Tag>)
    requires 0 < |ts| <= 2 && ts[0] == Tag("this", false, 0) && (|ts| == 2 ==> ts[1] == Tag("ii", true, 0))
    ensures Find(ts, "this") == Some(0)
  {
    assert ts[..0] == [];
    if |ts| == 2 {
      assert ts[..1] == [ts[0]];
      FindThis(ts[..1]);
    }
  }

  /** hasNext compares, and changes nothing. */
  lemma HasNextRefines(p: Program, j: nat, rid: nat, l: nat, i: int, end: int, m: Mem, fuel: nat)
    requires j < |p.fns| && p.fns[j] == HasNextFn() && Stands(m, l, i, end)
    ensures RunFn(p, j, rid, [VRef(l)], m, fuel) == Ok(VBool(i < end), m)
    ensures forall it: nat :: it < |m.iters| && m.iters[it] == (i, end) ==> (i < end) == HasNext(m, it)
  {
    var fn := p.fns[j];
    var env := FnEnv(fn, rid, [VRef(l)]);
    assert env.tags == [Tag("this", false, 0)];
    FindThis(env.tags);
    assert EnvAfter(env, Skip, env.vals) == env;
    ThisField(p, j, env, "i", m, fuel, l, i, end);
    ThisField(p, j, env, "end", m, fuel, l, i, end);
    assert Exec(p, j, env, fn.body, m, fuel) == Ok(env.vals, m);
  }

  /** The iterator at `l` moved on by one. */
  function Moved(m: Mem, l: nat, i: int, end: int): Mem
    requires Stands(m, l, i, end)
  {
    m.(heap := m.heap[l := m.heap[l].(fields := map["i" := Wrap(i + 1), "end" := end])])
  }

  lemma NextBody(p: Program, j: nat, env: Env, l: nat, i: int, end: int, m: Mem, fuel: nat)
    requires j <= |p.fns| && EnvShape(env) && env.tags == [Tag("this", false, 0)] && env.vals == [VRef(l)] && env.depth == 0
    requires Stands(m, l, i, end)
    ensures Exec(p, j, env, NextFn().body, m, fuel) == Ok([VRef(l), VInt(i)], Moved(m, l, i, end))
  {
    FindThis(env.tags);
    ThisField(p, j, env, "i", m, fuel, l, i, end);
    var s1, s2 := NextFn().body.s1, NextFn().body.s2;
    assert Exec(p, j, env, s1, m, fuel) == Ok(env.vals + [VInt(i)], m);
    var env1 := EnvAfter(env, s1, env.vals + [VInt(i)]);
    assert env1.tags == [Tag("this", false, 0), Tag("ii", true, 0)] && env1.vals == [VRef(l), VInt(i)];
    FindThis(env1.tags);
    NextStore(p, j, env1, l, i, end, m, fuel);
  }

  lemma NextStore(p: Program, j: nat, env: Env, l: nat, i: int, end: int, m: Mem, fuel: nat)
    requires j <= |p.fns| && EnvShape(env) && Find(env.tags, "this") == Some(0) && env.vals[0] == VRef(l)
    requires Stands(m, l, i, end)
    ensures Exec(p, j, env, NextFn().body.s2, m, fuel) == Ok(env.vals, Moved(m, l, i, end))
  {
    var s2 := NextFn().body.s2;
    ThisField(p, j, env, "i", m, fuel, l, i, end);
    assert Eval(p, j, env, This(), m, fuel) == Ok(VRef(l), m);
    assert EvalTarget(p, j, env, s2.target, m, fuel) == Ok(FieldP(VRef(l), "i"), m);
    assert Eval(p, j, env, Num(1), m, fuel) == Ok(VInt(1), m);
    assert Eval(p, j, env, s2.e, m, fuel) == Ok(VInt(Wrap(i + 1)), m);
    assert m.heap[l].fields["i" := Wrap(i + 1)] == map["i" := Wrap(i + 1), "end" := end];
  }

  /** next returns the counter and moves it on by one; below `end` it cannot wrap around. */
  lemma NextRefines(p: Program, j: nat, rid: nat, l: nat, i: int, end: int, m: Mem, fuel: nat)
    requires j < |p.fns| && p.fns[j] == NextFn() && Stands(m, l, i, end) && IsWord(i) && IsWord(end)
    ensures RunFn(p, j, rid, [VRef(l)], m, fuel) == Ok(VInt(i), Moved(m, l, i, end))
    ensures Stands(Moved(m, l, i, end), l, Wrap(i + 1), end) && (i < end ==> Wrap(i + 1) == i + 1)
    ensures forall it: nat :: it < |m.iters| && m.iters[it] == (i, end) ==>
              Next(m, it).0 == VInt(i) && Next(m, it).1.iters[it] == (Wrap(i + 1), end)
  {
    var fn := p.fns[j];
    var env := FnEnv(fn, rid, [VRef(l)]);
    assert env.tags == [Tag("this", false, 0)];
    NextBody(p, j, env, l, i, end, m, fuel);
    var env2 := EnvAfter(env, fn.body, [VRef(l), VInt(i)]);
    assert env2.tags == [Tag("this", false, 0), Tag("ii", true, 0)];
    assert Find(env2.tags, "ii") == Some(1);
  }

  /** range makes an iterator that stands at `a` and ends at `b`, in the caller's region. */
  lemma RangeRefines(p: Program, j: nat, rid: nat, a: int, b: int, m: Mem, fuel: nat)
    requires j < |p.fns| && p.fns[j] == RangeFn() && rid in m.live
    requires CLASS in p.classes && p.classes[CLASS] == map["i" := 0, "end" := 0]
    ensures var r := RunFn(p, j, rid, [VInt(a), VInt(b)], m, fuel);
            r.Ok? && r.value == VRef(m.next) && Stands(r.mem, m.next, a, b) && r.mem.heap[m.next].rid == rid
  {
    hide Exec, Stands;
    var fn := p.fns[j];
    var env := FnEnv(fn, rid, [VInt(a), VInt(b)]);
    RangeBody(p, j, env, rid, a, b, m, fuel);
    var r := Exec(p, j, env, fn.body, m, fuel);
    var env1 := EnvAfter(env, fn.body, r.value);
    assert env1.tags == RangeTags();
    RangeNames();
    assert Eval(p, j, env1, fn.result.value, r.mem, fuel) == Ok(VRef(m.next), r.mem);
  }

  lemma RangeBody(p: Program, j: nat, env: Env, rid: nat, a: int, b: int, m: Mem, fuel: nat)
    requires j <= |p.fns| && rid in m.live && env == FnEnv(RangeFn(), rid, [VInt(a), VInt(b)])
    requires CLASS in p.classes && p.classes[CLASS] == map["i" := 0, "end" := 0]
    ensures var r := Exec(p, j, env, RangeFn().body, m, fuel);
            && r.Ok? && r.value == [VInt(a), VInt(b), VRef(m.next)]
            && Stands(r.mem, m.next, a, b) && r.mem.heap[m.next].rid == rid
  {
    hide Eval, EvalTarget, StorePlace, Find;
    var fn := RangeFn();
    assert env.tags == [Tag("start", false, 0), Tag("end", false, 0)];
    var m1 := Alloc(m, ClsO(rid, CLASS, p.classes[CLASS])).mem;
    NewRange(p, j, env, rid, m, fuel);
    var env1 := EnvAfter(env, fn.body.s1, env.vals + [VRef(m.next)]);
    assert env1.tags == RangeTags() && env1.vals == [VInt(a), VInt(b), VRef(m.next)];
    FillRange(p, j, env1, m.next, a, b, m1, fuel);
  }

  function RangeTags(): seq<Tag> { [Tag("start", false, 0), Tag("end", false, 0), Tag("r", true, 0)] }

  lemma RangeNames()
    ensures Find(RangeTags(), "start") == Some(0) && Find(RangeTags(), "end") == Some(1) && Find(RangeTags(), "r") == Some(2)
  {
    var ts := RangeTags();
    var one, two := ts[..1], ts[..2];
    assert ts[..2] == two && two[..1] == one && one[..0] == [];
    assert FindVar(one, "end", 0) == None && FindVar([], "start", 0) == None;
    assert Find(one, "start") == Some(0);
    assert Find(two, "start") == Some(0) && Find(two, "end") == Some(1);
  }

  lemma NewRange(p: Program, j: nat, env: Env, rid: nat, m: Mem, fuel: nat)
    requires j <= |p.fns| && EnvShape(env) && env.handles == [("fn_default", rid)] && rid in m.live && CLASS in p.classes
    ensures Exec(p, j, env, RangeFn().body.s1, m, fuel)
         == Ok(env.vals + [VRef(m.next)], Alloc(m, ClsO(rid, CLASS, p.classes[CLASS])).mem)
  {
    assert Innermost(env.handles, "fn_default", 0);
    assert Eval(p, j, env, New(CLASS, []), m, fuel) == Alloc(m, ClsO(rid, CLASS, p.classes[CLASS]));
  }

  lemma FillRange(p: Program, j: nat, env: Env, l: nat, a: int, b: int, m: Mem, fuel: nat)
    requires j <= |p.fns| && EnvShape(env) && env.tags == RangeTags() && env.vals == [VInt(a), VInt(b), VRef(l)]
    requires Stands(m, l, 0, 0)
    ensures var r := Exec(p, j, env, RangeFn().body.s2, m, fuel);
            r.Ok? && r.value == env.vals && Stands(r.mem, l, a, b) && r.mem.heap[l].rid == m.heap[l].rid
  {
    RangeNames();
    var s2 := RangeFn().body.s2;
    FieldSet(p, j, env, "i", "start", l, 0, 0, a, m, fuel);
    var m1 := Exec(p, j, env, s2.s1, m, fuel).mem;
    FieldSet(p, j, env, "end", "end", l, a, 0, b, m1, fuel);
    assert EnvAfter(env, s2.s1, env.vals) == env;
  }

  lemma FieldSet(p: Program, k: nat, env: Env, f: Name, x: Name, l: nat, i: int, end: int, v: int, m: Mem, fuel: nat)
    requires k <= |p.fns| && EnvShape(env) && |env.vals| == 3 && Find(env.tags, "r") == Some(2) && env.vals[2] == VRef(l)
    requires Find(env.tags, x).Some? && env.vals[Find(env.tags, x).value] == VInt(v)
    requires Stands(m, l, i, end) && (f == "i" || f == "end")
    ensures var fs := map["i" := if f == "i" then v else i, "end" := if f == "end" then v else end];
            Exec(p, k, env, Assign(Field(Get("r"), f), Get(x)), m, fuel)
            == Ok(env.vals, m.(heap := m.heap[l := m.heap[l].(fields := fs)]))
  {
    assert Eval(p, k, env, Get("r"), m, fuel) == Ok(VRef(l), m);
    assert EvalTarget(p, k, env, Field(Get("r"), f), m, fuel) == Ok(FieldP(VRef(l), f), m);
    assert Eval(p, k, env, Get(x), m, fuel) == Ok(VInt(v), m);
    assert m.heap[l].fields[f := v] == map["i" := if f == "i" then v else i, "end" := if f == "end" then v else end];
  }

  // ---------- A loop that calls them ----------

  /** What a `for` stands for: while (hasNext(it)) { let x = next(it); body } */
  function IteratorLoop(it: Name, x: Name, rs: seq<Name>, body: Stmt): Stmt {
    While(Call("hasNext", rs, [Get(it)]), Seq(Let(x, Call("next", rs, [Get(it)])), body))
  }

  /** The library functions are there to call. */
  ghost predicate HasLibrary(p: Program, k: nat) {
    && k <= |p.fns|
    && (var j := FindFn(p, k, "hasNext"); j.Some? && p.fns[j.value] == HasNextFn())
    && (var j := FindFn(p, k, "next"); j.Some? && p.fns[j.value] == NextFn())
  }

  /** `it` is an iterator object, at `i`, that ends at `end`. */
  ghost predicate AtIterator(env: Env, it: Name, rs: seq<Name>, l: nat, i: int, end: int, m: Mem) {
    && EnvShape(env) && GetHandle(env.handles, CallRegions(rs, Interp.Default(env).0)[0]).Some?
    && Find(env.tags, it).Some? && env.vals[Find(env.tags, it).value] == VRef(l)
    && Stands(m, l, i, end) && IsWord(i) && IsWord(end)
  }

  /** The scope of the body in the round for `i`. */
  function RoundEnv(env: Env, x: Name, i: int): Env { Extend(Inner(env), Tag(x, false, env.depth + 1), VInt(i)) }

  /** The body in the round for `i`, after next; its own names end with it. */
  function Round(p: Program, k: nat, env: Env, x: Name, body: Stmt, l: nat, i: int, end: int, m: Mem, fuel: nat): (r: Res<seq<Value>>)
    requires k <= |p.fns| && EnvShape(env) && Stands(m, l, i, end)
    ensures r.Ok? ==> |r.value| == |env.vals|
  {
    var (vals, m1) :- Exec(p, k, RoundEnv(env, x, i), body, Moved(m, l, i, end), fuel);
    Ok(vals[..|env.vals|], m1)
  }

  /** Each round of the body that finishes leaves the iterator where next put it. */
  ghost predicate LeavesIterator(p: Program, k: nat, env: Env, it: Name, x: Name, rs: seq<Name>, body: Stmt,
                                 l: nat, i: int, end: int, m: Mem, fuel: nat)
    requires k <= |p.fns| && AtIterator(env, it, rs, l, i, end, m) && fuel > end - i
    decreases end - i
  {
    i >= end ||
    var r := Round(p, k, env, x, body, l, i, end, m, fuel);
    r.Ok? ==>
      && AtIterator(env.(vals := r.value), it, rs, l, i + 1, end, r.mem)
      && LeavesIterator(p, k, env.(vals := r.value), it, x, rs, body, l, i + 1, end, r.mem, fuel - 1)
  }

  /** Runs `body` for i, i + 1, ..., end - 1, with the counter kept outside memory; the object
      in memory only follows it. */
  ghost function Counting(p: Program, k: nat, env: Env, it: Name, x: Name, rs: seq<Name>, body: Stmt,
                          l: nat, i: int, end: int, m: Mem, fuel: nat): (r: Res<seq<Value>>)
    requires k <= |p.fns| && AtIterator(env, it, rs, l, i, end, m) && fuel > end - i
    requires LeavesIterator(p, k, env, it, x, rs, body, l, i, end, m, fuel)
    decreases end - i
  {
    if i >= end then Ok(env.vals, m)
    else
      var (vals, m1) :- Round(p, k, env, x, body, l, i, end, m, fuel);
      Counting(p, k, env.(vals := vals), it, x, rs, body, l, i + 1, end, m1, fuel - 1)
  }

  lemma EvalThe(p: Program, k: nat, env: Env, f: Name, rs: seq<Name>, it: Name, l: nat, m: Mem, fuel: nat, j: nat)
    requires k <= |p.fns| && EnvShape(env) && FindFn(p, k, f) == Some(j)
    requires GetHandle(env.handles, CallRegions(rs, Interp.Default(env).0)[0]).Some?
    requires Find(env.tags, it).Some? && env.vals[Find(env.tags, it).value] == VRef(l)
    ensures exists rid :: Eval(p, k, env, Call(f, rs, [Get(it)]), m, fuel) == RunFn(p, j, rid, [VRef(l)], m, fuel)
  {
    hide RunFn, Find, FindFn, GetHandle;
    assert Eval(p, k, env, Get(it), m, fuel) == Ok(VRef(l), m);
    assert EvalList(p, k, env, [], m, fuel) == Ok([], m);
    assert [Get(it)][1..] == [] && [VRef(l)] + [] == [VRef(l)];
    assert EvalList(p, k, env, [Get(it)], m, fuel) == Ok([VRef(l)], m);
    var h := GetHandle(env.handles, CallRegions(rs, Interp.Default(env).0)[0]);
    assert Eval(p, k, env, Call(f, rs, [Get(it)]), m, fuel) == RunFn(p, j, h.value, [VRef(l)], m, fuel);
  }

  lemma EvalHasNext(p: Program, k: nat, env: Env, it: Name, rs: seq<Name>, l: nat, i: int, end: int, m: Mem, fuel: nat)
    requires HasLibrary(p, k) && AtIterator(env, it, rs, l, i, end, m)
    ensures Eval(p, k, env, Call("hasNext", rs, [Get(it)]), m, fuel) == Ok(VBool(i < end), m)
  {
    hide RunFn, Find, FindFn, GetHandle, Eval;
    var j := FindFn(p, k, "hasNext").value;
    EvalThe(p, k, env, "hasNext", rs, it, l, m, fuel, j);
    var rid :| Eval(p, k, env, Call("hasNext", rs, [Get(it)]), m, fuel) == RunFn(p, j, rid, [VRef(l)], m, fuel);
    HasNextRefines(p, j, rid, l, i, end, m, fuel);
  }

  lemma EvalNext(p: Program, k: nat, env: Env, it: Name, rs: seq<Name>, l: nat, i: int, end: int, m: Mem, fuel: nat)
    requires HasLibrary(p, k) && AtIterator(env, it, rs, l, i, end, m)
    ensures Eval(p, k, env, Call("next", rs, [Get(it)]), m, fuel) == Ok(VInt(i), Moved(m, l, i, end))
  {
    hide RunFn, Find, FindFn, GetHandle, Eval;
    var j := FindFn(p, k, "next").value;
    EvalThe(p, k, env, "next", rs, it, l, m, fuel, j);
    var rid :| Eval(p, k, env, Call("next", rs, [Get(it)]), m, fuel) == RunFn(p, j, rid, [VRef(l)], m, fuel);
    NextRefines(p, j, rid, l, i, end, m, fuel);
  }

  /** One round: next, then the body with its result. */
  lemma RoundRuns(p: Program, k: nat, env: Env, it: Name, x: Name, rs: seq<Name>, body: Stmt, l: nat, i: int, end: int, m: Mem, fuel: nat)
    requires HasLibrary(p, k) && AtIterator(env, it, rs, l, i, end, m)
    ensures Exec(p, k, Inner(env), IteratorLoop(it, x, rs, body).body, m, fuel)
         == Exec(p, k, RoundEnv(env, x, i), body, Moved(m, l, i, end), fuel)
  {
    hide Find, FindFn, GetHandle, Eval;
    var next := Let(x, Call("next", rs, [Get(it)]));
    EvalNext(p, k, Inner(env), it, rs, l, i, end, m, fuel);
    assert Exec(p, k, Inner(env), next, m, fuel) == Ok(env.vals + [VInt(i)], Moved(m, l, i, end));
    assert EnvAfter(Inner(env), next, env.vals + [VInt(i)]) == RoundEnv(env, x, i);
  }

  /** What the interpreter makes of the loop: it ends, or runs one round and goes on. */
  lemma {:induction false} IteratorLoopStep(p: Program, k: nat, env: Env, it: Name, x: Name, rs: seq<Name>, body: Stmt,
                                            l: nat, i: int, end: int, m: Mem, fuel: nat)
    requires HasLibrary(p, k) && AtIterator(env, it, rs, l, i, end, m) && fuel > 0
    ensures Exec(p, k, env, IteratorLoop(it, x, rs, body), m, fuel) ==
            if i >= end then Ok(env.vals, m)
            else
              var r := Round(p, k, env, x, body, l, i, end, m, fuel);
              if r.Ok? then Exec(p, k, env.(vals := r.value), IteratorLoop(it, x, rs, body), r.mem, fuel - 1) else r
  {
    hide Find, FindFn, GetHandle, Eval;
    EvalHasNext(p, k, env, it, rs, l, i, end, m, fuel);
    if i < end { RoundRuns(p, k, env, it, x, rs, body, l, i, end, m, fuel); }
  }

  /** The loop on an iterator object runs its body for exactly i, ..., end - 1, in that order. */
  lemma {:induction false} IteratorLoopIsCounting(p: Program, k: nat, env: Env, it: Name, x: Name, rs: seq<Name>, body: Stmt,
                                                  l: nat, i: int, end: int, m: Mem, fuel: nat)
    requires HasLibrary(p, k) && AtIterator(env, it, rs, l, i, end, m) && fuel > end - i && fuel > 0
    requires LeavesIterator(p, k, env, it, x, rs, body, l, i, end, m, fuel)
    ensures Exec(p, k, env, IteratorLoop(it, x, rs, body), m, fuel)
         == Counting(p, k, env, it, x, rs, body, l, i, end, m, fuel)
    decreases end - i
  {
    hide Find, FindFn, GetHandle, Exec, Round, IteratorLoop;
    IteratorLoopStep(p, k, env, it, x, rs, body, l, i, end, m, fuel);
    if i < end {
      var r := Round(p, k, env, x, body, l, i, end, m, fuel);
      if r.Ok? {
        IteratorLoopIsCounting(p, k, env.(vals := r.value), it, x, rs, body, l, i + 1, end, r.mem, fuel - 1);
      }
    }
  }

  // ---------- The compiled functions ----------

  /** The code emitted for next and hasNext returns what they return, with their memory. */
  lemma CompiledNext(p: Program, j: nat, rid: nat, l: nat, i: int, end: int, m: Mem) returns (n: nat, c1: Config)
    requires j < |p.fns| && CodeReady(p, j) && p.fns[j] == NextFn() && Stands(m, l, i, end) && IsWord(i) && IsWord(end)
    ensures Returns(Lib(p, j), LowerFn(NextFn()), Start(rid, [VRef(l)], m), n, c1, VInt(i))
    ensures c1.st.mem == Moved(m, l, i, end)
  {
    NextReady();
    NextRefines(p, j, rid, l, i, end, m, 0);
    n, c1 := FunctionRuns(p, j, rid, [VRef(l)], m, 0);
  }

  lemma CompiledHasNext(p: Program, j: nat, rid: nat, l: nat, i: int, end: int, m: Mem) returns (n: nat, c1: Config)
    requires j < |p.fns| && CodeReady(p, j) && p.fns[j] == HasNextFn() && Stands(m, l, i, end)
    ensures Returns(Lib(p, j), LowerFn(HasNextFn()), Start(rid, [VRef(l)], m), n, c1, VBool(i < end))
    ensures c1.st.mem == m
  {
    HasNextReady();
    HasNextRefines(p, j, rid, l, i, end, m, 0);
    n, c1 := FunctionRuns(p, j, rid, [VRef(l)], m, 0);
  }

  /** The blocks emitted for the loop, with its calls of the library's code, end where the counting
      ends, with its memory and variables. */
  lemma CompiledIteratorLoop(p: Program, k: nat, cx: LCx, env: Env, it: Name, x: Name, rs: seq<Name>, body: Stmt,
                             l: nat, i: int, end: int, fuel: nat, g: Graph, c: Config)
    requires HasLibrary(p, k) && AtIterator(env, it, rs, l, i, end, c.st.mem) && fuel > end - i && fuel > 0
    requires LeavesIterator(p, k, env, it, x, rs, body, l, i, end, c.st.mem, fuel)
    requires CodeReady(p, k) && Placed(cx, env, g, c) && StmtReady(cx, IteratorLoop(it, x, rs, body))
    requires Counting(p, k, env, it, x, rs, body, l, i, end, c.st.mem, fuel).Ok?
    ensures var r, s := Counting(p, k, env, it, x, rs, body, l, i, end, c.st.mem, fuel), IteratorLoop(it, x, rs, body);
            exists n, c1 ::
              && HaltsAt(Lib(p, k), LowerStmt(g, cx, s).0, c, n, c1) && Here(LowerStmt(g, cx, s).0, c1)
              && c1.st.mem == r.mem && Match(CxAfter(cx, s, LowerStmt(g, cx, s).1), EnvAfter(env, s, r.value), c1.st)
  {
    hide Exec, Counting, LeavesIterator, LowerStmt, HaltsAt, Here, Match, Placed, StmtReady, CodeReady, IteratorLoop;
    IteratorLoopIsCounting(p, k, env, it, x, rs, body, l, i, end, c.st.mem, fuel);
    LoweringPreserves(p, k, cx, env, IteratorLoop(it, x, rs, body), g, c, fuel);
  }

  lemma HasNextReady()
    ensures FnReady(HasNextFn())
  {
    var fn := HasNextFn();
    var ts := ParamTags(fn.params);
    assert ts == [Tag("this", false, 0)];
    FindThis(ts);
    assert ts + Declared(fn.body, 0) == ts;
    assert ExprOk(ts, ["this"], This());
    assert ExprOk(ts, ["this"], Field(This(), "i")) && ExprOk(ts, ["this"], Field(This(), "end"));
  }

  lemma NextReady()
    ensures FnReady(NextFn())
  {
    var fn := NextFn();
    var ts := ParamTags(fn.params);
    var us := [Tag("this", false, 0), Tag("ii", true, 0)];
    assert ts == [Tag("this", false, 0)];
    FindThis(ts);
    FindThis(us);
    assert HandleNames(EntryCx(fn)) == ["this"];
    assert ExprOk(ts, ["this"], This()) && ExprOk(us, ["this"], This());
    assert ExprOk(us, ["this"], Field(This(), "i"));
    assert ts + Declared(fn.body.s1, 0) == us && ts + Declared(fn.body, 0) == us;
    assert StmtOk(ts, 0, ["this"], fn.body.s1) && StmtOk(us, 0, ["this"], fn.body.s2);
    assert Find(us, "ii") == Some(1);
  }
}
