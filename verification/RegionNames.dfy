/** Why `on` names have to be new, which the code does not check. */
module RegionNames {
  import opened Basics
  import opened RegionTypes
  import opened Lang
  import opened Memory
  import opened Interp
  import opened Checker
  import opened RegionSafety

  // ---------- Reuse on runs ----------

  /** on name { x = [0]; } x[0]; */
  function Reuse(x: Name, name: Name): Stmt {
    Seq(On(name, Assign(Get(x), Lit([Num(0)]))), Do(Elem(Get(x), Num(0))))
  }

  /** A visible `var` that holds arrays of a region of that name. */
  ghost predicate HoldsArrays(cx: Cx, x: Name, name: Name)
    requires CxShape(cx)
  {
    var i := Find(cx.tags, x);
    i.Some? && cx.tags[i.value].isVar && cx.types[i.value] == ArrT(IntT(64), name)
  }

  lemma ReuseIsAccepted(p: Program, k: nat, cx: Cx, x: Name, name: Name)
    requires k <= |p.fns| && CxShape(cx) && !cx.strict && HoldsArrays(cx, x, name)
    ensures CheckStmt(p, k, cx, Reuse(x, name)) == Some([])
  {
    var arr := ArrT(IntT(64), name);
    var inner := InnerCx(cx).(handles := cx.handles + [name]);
    ArrayOfOne(p, k, inner, 0);
    SameType(arr, arr);
    assert TypeOf(p, k, inner, Get(x)) == Some(arr);
    assert CheckStmt(p, k, cx, Reuse(x, name).s1) == Some([]);
    assert CxAfter(cx, Reuse(x, name).s1, []) == cx;
    assert TypeOf(p, k, cx, Get(x)) == Some(arr) && TypeOf(p, k, cx, Num(0)) == Some(IntT(64));
    assert TypeOf(p, k, cx, Elem(Get(x), Num(0))) == Some(IntT(64));
    assert CheckStmt(p, k, cx, Reuse(x, name).s2) == Some([]);
  }

  lemma ArrayOfOne(p: Program, k: nat, cx: Cx, n: int)
    requires CxShape(cx) && k <= |p.fns|
    ensures TypeOf(p, k, cx, Lit([Num(n)])) == Some(ArrT(IntT(64), Checker.Default(cx)))
  {
    var es := [Num(n)];
    assert es[1..] == [];
    assert TypesOf(p, k, cx, es) == Some([IntT(64)] + []);
  }

  lemma LitOfOne(p: Program, k: nat, env: Env, n: int, m: Mem, fuel: nat)
    requires EnvShape(env) && k <= |p.fns|
    ensures Eval(p, k, env, Lit([Num(n)]), m, fuel) == Alloc(m, ArrO(Interp.Default(env).1, [VInt(Wrap(n))]))
  {
    var es := [Num(n)];
    assert es[1..] == [];
    var v := VInt(Wrap(n));
    assert [v] + [] == [v];
    assert Eval(p, k, env, es[0], m, fuel) == Ok(v, m);
    assert EvalList(p, k, env, es[1..], m, fuel) == Ok([], m);
    assert EvalList(p, k, env, es, m, fuel) == Ok([VInt(Wrap(n))] + [], m);
  }

  /** Its `on` leaves `x` referring to an array of the region it deleted. */
  lemma OnReplaces(p: Program, k: nat, env: Env, x: Name, name: Name, i: nat, m: Mem, fuel: nat)
    requires k <= |p.fns| && EnvShape(env) && Find(env.tags, x) == Some(i) && env.tags[i].isVar
    requires m.next !in m.heap
    ensures var r := Exec(p, k, env, Reuse(x, name).s1, m, fuel);
            r.Ok? && r.value == env.vals[i := VRef(m.next)] && m.next !in r.mem.heap
  {
    hide Find;
    var (rid, m1) := OpenRegion(m);
    var inner := Inner(env).(handles := env.handles + [(name, rid)]);
    LitOfOne(p, k, inner, 0, m1, fuel);
    var a := Eval(p, k, inner, Lit([Num(0)]), m1, fuel);
    assert EvalTarget(p, k, inner, Get(x), m1, fuel) == Ok(NameP(i), m1);
    assert Exec(p, k, inner, Reuse(x, name).s1.body, m1, fuel) == Ok(env.vals[i := a.value], a.mem);
    assert env.vals[i := a.value][..|env.vals|] == env.vals[i := a.value];
  }

  lemma ReuseDangles(p: Program, k: nat, env: Env, x: Name, name: Name, i: nat, m: Mem, fuel: nat)
    requires k <= |p.fns| && EnvShape(env) && Find(env.tags, x) == Some(i) && env.tags[i].isVar
    requires m.next !in m.heap
    ensures Exec(p, k, env, Reuse(x, name), m, fuel) == Fail(Dangling)
  {
    OnReplaces(p, k, env, x, name, i, m, fuel);
    hide Find;
    var r := Exec(p, k, env, Reuse(x, name).s1, m, fuel);
    var env1 := EnvAfter(env, Reuse(x, name).s1, r.value);
    assert env1.tags == env.tags;
    assert Eval(p, k, env1, Get(x), r.mem, fuel) == Ok(VRef(m.next), r.mem);
    assert Eval(p, k, env1, Num(0), r.mem, fuel) == Ok(VInt(0), r.mem);
    assert LoadCell(r.mem, VRef(m.next), VInt(0)) == Bad(Dangling);
    assert Eval(p, k, env1, Elem(Get(x), Num(0)), r.mem, fuel) == Fail(Dangling);
    assert Exec(p, k, env1, Reuse(x, name).s2, r.mem, fuel) == Fail(Dangling);
  }

  /** Wherever a visible `var` holds arrays of a region of the name, and whatever the state, the
      checks of the code accept a statement that opens the name again and ends in a read of a
      deleted region. */
  lemma ReusedNameDangles(p: Program, k: nat, cx: Cx, env: Env, x: Name, name: Name, m: Mem, rho: Places, sigma: Typing, fuel: nat)
    requires k <= |p.fns| && CxShape(cx) && EnvShape(env) && !cx.strict
    requires EnvOk(cx, env, rho, sigma, m.live) && MemOk(p, m, sigma) && HoldsArrays(cx, x, name)
    ensures CheckStmt(p, k, cx, Reuse(x, name)) == Some([])
    ensures Exec(p, k, env, Reuse(x, name), m, fuel) == Fail(Dangling)
  {
    ReuseIsAccepted(p, k, cx, x, name);
    ReuseDangles(p, k, env, x, name, Find(cx.tags, x).value, m, fuel);
  }

  /** on T { var a = [0]; on T { a = [0]; } a[0]; } */
  function Nested(): Program {
    Program(map[], [Fn("main", ["fn_default"], [], VoidT, On("T", Seq(Var("a", Lit([Num(0)])), Reuse("a", "T"))), None)])
  }

  lemma FindOnly(ts: seq<Tag>)
    requires |ts| == 1 && ts[0].isVar
    ensures Find(ts, ts[0].name) == Some(0)
  {
  }

  /** A whole program: the code accepts it, and its run reads an element of a deleted region. */
  lemma AcceptedProgramDangles()
    ensures ProgramOk(Nested(), false) && RunMain(Nested(), 0, 0) == Fail(Dangling)
  {
    NestedIsAccepted();
    var p := Nested();
    var (r0, m0) := OpenRegion(EMPTY);
    var env0 := FnEnv(p.fns[0], r0, []);
    var (r1, m1) := OpenRegion(m0);
    var env1 := Inner(env0).(handles := env0.handles + [("T", r1)]);
    var s := p.fns[0].body.body;
    LitOfOne(p, 0, env1, 0, m1, 0);
    var a := Eval(p, 0, env1, Lit([Num(0)]), m1, 0);
    assert Exec(p, 0, env1, s.s1, m1, 0) == Ok(env1.vals + [a.value], a.mem);
    var env2 := EnvAfter(env1, s.s1, env1.vals + [a.value]);
    assert env2.tags == [Tag("a", true, env1.depth)];
    FindOnly(env2.tags);
    ReuseDangles(p, 0, env2, "a", "T", 0, a.mem, 0);
    assert Exec(p, 0, env1, s, m1, 0) == Fail(Dangling);
  }

  lemma NestedIsAccepted()
    ensures ProgramOk(Nested(), false)
  {
    var p := Nested();
    var fn := p.fns[0];
    var cx0 := FnCx(fn, false);
    var cx1 := InnerCx(cx0).(handles := cx0.handles + ["T"]);
    var arr := ArrT(IntT(64), "T");
    ArrayOfOne(p, 0, cx1, 0);
    var cx2 := CxAfter(cx1, fn.body.body.s1, [arr]);
    FindOnly(cx2.tags);
    ReuseIsAccepted(p, 0, cx2, "a", "T");
    assert [arr] + [] == [arr];
    assert CheckStmt(p, 0, cx1, fn.body.body) == Some([arr]);
    assert CheckStmt(p, 0, cx0, fn.body) == Some([]);
  }

  // ---------- The exact condition ----------

  lemma {:induction false} InstDiffers(t: Type, rho: Places, name: Name, rid: nat)
    requires name in Regions(t) && Regions(t) <= rho.Keys && rho[name] != rid
    ensures Inst(t, rho[name := rid]) != Inst(t, rho)
  {
    if t.ArrT? && name in Regions(t.elem) {
      InstDiffers(t.elem, rho, name, rid);
    }
  }

  /** Opening a region under a name keeps every well-typed scope well typed if and only if no
      type in scope names it: the types and the name are all a caller has to look at. */
  lemma NewNameIsExact(types: seq<Type>, name: Name)
    ensures (forall t :: t in types ==> name !in Regions(t)) <==>
            forall vals, rho, sigma, rid :: ValsOk(vals, types, rho, sigma) && rid !in rho.Values ==>
                                              ValsOk(vals, types, rho[name := rid], sigma)
  {
    if forall t :: t in types ==> name !in Regions(t) {
      forall vals, rho, sigma, rid | ValsOk(vals, types, rho, sigma) && rid !in rho.Values
        ensures ValsOk(vals, types, rho[name := rid], sigma)
      {
        ValsFresh(vals, types, rho, name, rid, sigma);
      }
    } else {
      var i :| 0 <= i < |types| && name in Regions(types[i]);
      var rho: Places := map n | n in Regions(types[i]) :: 0;
      var sigma: Typing := map[0 := Inst(types[i], rho)];
      var vals := Undefs(|types|)[i := VRef(0)];
      assert Typed(vals[i], types[i], rho, sigma);
      assert ValsOk(vals, types, rho, sigma) && 1 !in rho.Values;
      InstDiffers(types[i], rho, name, 1);
      assert !Typed(vals[i], types[i], rho[name := 1], sigma);
      assert !ValsOk(vals, types, rho[name := 1], sigma);
    }
  }
}
