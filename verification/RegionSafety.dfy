/** Accepted programs never touch a deleted region.

    The invariant types memory by a store typing, a map from every location ever allocated
    to a type whose region names are replaced by region numbers.  It outlives the objects:
    a longer-lived array may keep references into a deleted region, and their locations
    keep their types.  What makes access safe is that a value bound to a name in scope has
    a type that names only live regions. */
module RegionSafety {
  import opened Basics
  import opened RegionTypes
  import opened Lang
  import opened Memory
  import opened Interp
  import opened Checking = Checker

  // ---------- Run-time types ----------

  datatype RType = RInt | RVoid | RArr(elem: RType, rid: nat) | RCls(cls: Name, rid: nat)

  type Places = map<Name, nat>        // region names in scope to region numbers
  type Typing = map<nat, RType>       // locations to run-time types

  function Inst(t: Type, rho: Places): RType
    requires Regions(t) <= rho.Keys
  {
    match t
    case IntT(_) => RInt
    case VoidT => RVoid
    case ArrT(e, r) => RArr(Inst(e, rho), rho[r])
    case ClsT(c, r) => RCls(c, rho[r])
  }

  predicate HasType(v: Value, t: RType, sigma: Typing) {
    match t
    case RInt => v.VInt? || v.VBool?
    case RVoid => v == VVoid
    case _ => v.VRef? && v.loc in sigma && sigma[v.loc] == t
  }

  predicate ObjOk(p: Program, o: Obj, t: RType, sigma: Typing) {
    match o
    case ArrO(r, cells) => t.RArr? && t.rid == r && forall c :: c in cells ==> HasType(c, t.elem, sigma)
    case ClsO(r, c, fs) => t == RCls(c, r) && c in p.classes && fs.Keys == p.classes[c].Keys
  }

  ghost predicate MemOk(p: Program, m: Mem, sigma: Typing) {
    && (forall l :: l in m.heap ==> l in sigma && ObjOk(p, m.heap[l], sigma[l], sigma))
    && (forall l :: l in sigma ==> l < m.next && (sigma[l].RArr? || sigma[l].RCls?) && sigma[l].rid < m.nextRid)
    && (forall l :: l in sigma && sigma[l].rid in m.live ==> l in m.heap)
    && (forall r :: r in m.live ==> r < m.nextRid)
  }

  /** A value of static type `t`: the type names only regions in scope. */
  ghost predicate Typed(v: Value, t: Type, rho: Places, sigma: Typing) {
    Regions(t) <= rho.Keys && HasType(v, Inst(t, rho), sigma)
  }

  ghost predicate ValsOk(vals: seq<Value>, types: seq<Type>, rho: Places, sigma: Typing) {
    |vals| == |types| && forall i :: 0 <= i < |vals| ==> vals[i] == Undef || Typed(vals[i], types[i], rho, sigma)
  }

  ghost predicate RegionsOk(cx: Cx, env: Env, rho: Places, live: set<nat>) {
    && |env.handles| == |cx.handles| > 0
    && (forall i :: 0 <= i < |cx.handles| ==>
          env.handles[i].0 == cx.handles[i] && cx.handles[i] in rho)
    && (forall i :: 0 <= i < |env.handles| && Innermost(env.handles, env.handles[i].0, i) ==>
          rho[env.handles[i].0] == env.handles[i].1)
    && rho.Values <= live
  }

  ghost predicate EnvOk(cx: Cx, env: Env, rho: Places, sigma: Typing, live: set<nat>) {
    && env.tags == cx.tags && env.depth == cx.depth && |cx.tags| == |cx.types|
    && ValsOk(env.vals, cx.types, rho, sigma)
    && RegionsOk(cx, env, rho, live)
  }

  ghost predicate Extends(s0: Typing, s1: Typing) {
    forall l :: l in s0 ==> l in s1 && s1[l] == s0[l]
  }

  ghost predicate Safe(f: Fault) { f != Dangling && f != Stuck }

  /** What every step keeps: memory stays well typed and the same regions are live. */
  ghost predicate Kept(p: Program, m0: Mem, m1: Mem, s0: Typing, s1: Typing) {
    Extends(s0, s1) && MemOk(p, m1, s1) && m1.live == m0.live
  }

  lemma EnvGrows(cx: Cx, env: Env, rho: Places, s0: Typing, s1: Typing, live: set<nat>)
    requires EnvOk(cx, env, rho, s0, live) && Extends(s0, s1)
    ensures EnvOk(cx, env, rho, s1, live)
  {
  }

  lemma TypedGrows(v: Value, t: Type, rho: Places, s0: Typing, s1: Typing)
    requires Typed(v, t, rho, s0) && Extends(s0, s1)
    ensures Typed(v, t, rho, s1)
  {
  }

  // ---------- Memory operations ----------

  lemma AllocSafe(p: Program, m: Mem, o: Obj, t: RType, s0: Typing) returns (s1: Typing)
    requires MemOk(p, m, s0) && ObjOk(p, o, t, s0) && o.rid in m.live
    ensures var r := Alloc(m, o);
            r.Ok? && Kept(p, m, r.mem, s0, s1) && HasType(r.value, t, s1)
  {
    s1 := s0[m.next := t];
  }

  lemma ArrayAccess(p: Program, m: Mem, v: Value, i: Value, t: RType, sigma: Typing)
    requires MemOk(p, m, sigma) && t.RArr? && t.rid in m.live
    requires HasType(v, t, sigma)
    ensures LoadLength(m, v).Good? && HasType(LoadLength(m, v).value, RInt, sigma)
    ensures HasType(i, RInt, sigma) ==>
              match LoadCell(m, v, i)
              case Good(c) => HasType(c, t.elem, sigma)
              case Bad(f) => Safe(f)
  {
    assert ObjOk(p, m.heap[v.loc], t, sigma);
  }

  lemma StoreCellSafe(p: Program, m: Mem, v: Value, i: Value, x: Value, t: RType, sigma: Typing)
    requires MemOk(p, m, sigma) && t.RArr? && t.rid in m.live
    requires HasType(v, t, sigma) && HasType(i, RInt, sigma) && HasType(x, t.elem, sigma)
    ensures match StoreCell(m, v, i, x)
            case Ok(_, m1) => Kept(p, m, m1, sigma, sigma)
            case Fail(f) => Safe(f)
            case Timeout => false
  {
    assert ObjOk(p, m.heap[v.loc], t, sigma);
  }

  lemma FieldAccess(p: Program, m: Mem, v: Value, f: Name, x: Value, t: RType, sigma: Typing)
    requires MemOk(p, m, sigma) && t.RCls? && t.rid in m.live
    requires HasType(v, t, sigma) && t.cls in p.classes && f in p.classes[t.cls]
    ensures LoadField(m, v, f).Good? && HasType(LoadField(m, v, f).value, RInt, sigma)
    ensures HasType(x, RInt, sigma) ==>
              match StoreField(m, v, f, x)
              case Ok(_, m1) => Kept(p, m, m1, sigma, sigma)
              case Fail(g) => Safe(g)
              case Timeout => false
  {
    assert ObjOk(p, m.heap[v.loc], t, sigma);
  }

  lemma OpenSafe(p: Program, m: Mem, sigma: Typing)
    requires MemOk(p, m, sigma)
    ensures var (rid, m1) := OpenRegion(m);
            MemOk(p, m1, sigma) && m1.live == m.live + {rid} && rid !in m.live
  {
  }

  /** Deleting a live region keeps memory well typed: references into it only lose their objects. */
  lemma CloseSafe(p: Program, m: Mem, rid: nat, sigma: Typing)
    requires MemOk(p, m, sigma) && rid in m.live
    ensures var r := CloseRegion(m, rid);
            r.Ok? && MemOk(p, r.mem, sigma) && r.mem.live == m.live - {rid}
  {
    var m1 := CloseRegion(m, rid).mem;
    forall l | l in sigma && sigma[l].rid in m1.live
      ensures l in m1.heap
    {
      assert l in m.heap && ObjOk(p, m.heap[l], sigma[l], sigma);
    }
  }

  lemma IterSafe(p: Program, m: Mem, m1: Mem, sigma: Typing)
    requires MemOk(p, m, sigma) && m1 == m.(iters := m1.iters)
    ensures Kept(p, m, m1, sigma, sigma)
  {
  }

  // ---------- Handles and calls ----------

  /** A handle found by the checker is found by the run, and is the named live region. */
  lemma HandleFound(cx: Cx, env: Env, rho: Places, live: set<nat>, name: Name)
    requires RegionsOk(cx, env, rho, live) && name in HandleSet(cx)
    ensures name in rho && GetHandle(env.handles, name) == Some(rho[name]) && rho[name] in live
  {
    var i :| 0 <= i < |cx.handles| && cx.handles[i] == name;
    assert env.handles[i] in env.handles;
    var h := GetHandle(env.handles, name).value;
    var j :| Innermost(env.handles, name, j) && env.handles[j].1 == h;
    assert Innermost(env.handles, env.handles[j].0, j) && rho[name] in rho.Values;
  }

  lemma DefaultHandle(cx: Cx, env: Env, rho: Places, live: set<nat>)
    requires RegionsOk(cx, env, rho, live)
    ensures Checking.Default(cx) == Interp.Default(env).0
    ensures Checking.Default(cx) in rho && rho[Checking.Default(cx)] == Interp.Default(env).1
    ensures Interp.Default(env).1 in live
  {
    var n := |env.handles| - 1;
    assert Innermost(env.handles, env.handles[n].0, n) && rho[env.handles[n].0] in rho.Values;
  }

  /** The callee's region numbers: those of the call-site names that have one. */
  function CalleePlaces(ds: seq<Name>, rs: seq<Name>, rho: Places): Places
    requires |ds| == |rs|
  {
    if ds == [] then map[]
    else
      var rest := CalleePlaces(ds[1..], rs[1..], rho);
      if rs[0] in rho then rest[ds[0] := rho[rs[0]]] else rest
  }

  lemma {:induction false} CalleePlacesAt(ds: seq<Name>, rs: seq<Name>, rho: Places)
    requires |ds| == |rs| && Distinct(ds)
    ensures var callee := CalleePlaces(ds, rs, rho);
            && (forall i :: 0 <= i < |ds| ==> (ds[i] in callee <==> rs[i] in rho))
            && (forall i :: 0 <= i < |ds| && rs[i] in rho ==> callee[ds[i]] == rho[rs[i]])
            && (forall d :: d in callee ==> d in ds)
            && callee.Values <= rho.Values
  {
    if ds != [] {
      CalleePlacesAt(ds[1..], rs[1..], rho);
      var rest, callee := CalleePlaces(ds[1..], rs[1..], rho), CalleePlaces(ds, rs, rho);
      forall i | 0 <= i < |ds|
        ensures ds[i] in callee <==> rs[i] in rho
        ensures rs[i] in rho ==> callee[ds[i]] == rho[rs[i]]
      {
        if i > 0 { assert ds[i] == ds[1..][i - 1] && rs[i] == rs[1..][i - 1] && ds[i] != ds[0]; }
      }
      forall v | v in callee.Values
        ensures v in rho.Values
      {
        var d :| d in callee && callee[d] == v;
        if d == ds[0] && rs[0] in rho { assert rs[0] in rho; } else { assert rest[d] in rest.Values; }
      }
    }
  }

  /** A substituted type means the same to the caller as the declared one to the callee. */
  lemma {:induction false} InstSubst(t: Type, ds: seq<Name>, rs: seq<Name>, rho: Places)
    requires |ds| == |rs| && Distinct(ds)
    requires forall d :: d in Regions(t) ==> Visible(d, ds, rs)
    ensures var callee := CalleePlaces(ds, rs, rho);
            && (Regions(Subst(t, ds, rs)) <= rho.Keys <==> Regions(t) <= callee.Keys)
            && (Regions(t) <= callee.Keys ==> Inst(Subst(t, ds, rs), rho) == Inst(t, callee))
  {
    DistinctIsConsistent(ds, rs);
    CalleePlacesAt(ds, rs, rho);
    match t
    case IntT(_) =>
    case VoidT =>
    case ArrT(e, r) =>
      InstSubst(e, ds, rs, rho);
      assert Visible(r, ds, rs);
      var i :| LastAt(rs, i) && ds[i] == r;
      SubstNameAt(ds, rs, i);
    case ClsT(_, r) =>
      assert Visible(r, ds, rs);
      var i :| LastAt(rs, i) && ds[i] == r;
      SubstNameAt(ds, rs, i);
  }

  /** An accepted call starts its callee in a well-typed environment whose one handle is live. */
  lemma CallEntry(cx: Cx, env: Env, fn: Fn, rs: seq<Name>, ts: seq<Type>, vs: seq<Value>,
                  rho: Places, sigma: Typing, live: set<nat>)
    returns (callee: Places)
    requires RegionsOk(cx, env, rho, live) && ValsOk(vs, ts, rho, sigma)
    requires forall v :: v in vs ==> v != Undef
    requires Distinct(fn.regions) && fn.regions != [] && |ts| == |fn.params|
    requires CallType(HandleSet(cx), Signature(fn), rs, ts).Accepted?
    ensures |rs| == |fn.regions| && callee == CalleePlaces(fn.regions, rs, rho)
    ensures rs[0] in rho && EnvOk(FnCx(fn, true), FnEnv(fn, rho[rs[0]], vs), callee, sigma, live)
  {
    var sig := Signature(fn);
    if |rs| == |sig.regions| { DistinctIsConsistent(sig.regions, rs); }
    CallIsSubstitution(HandleSet(cx), sig, rs, ts);
    HandleFound(cx, env, rho, live, rs[0]);
    callee := CalleePlaces(fn.regions, rs, rho);
    CalleePlacesAt(fn.regions, rs, rho);
    forall i | 0 <= i < |vs|
      ensures Typed(vs[i], sig.params[i], callee, sigma)
    {
      assert vs[i] in vs;
      InstSubst(sig.params[i], fn.regions, rs, rho);
    }
    forall v | v in callee.Values
      ensures v in live
    {
    }
  }

  /** The result of a call has the type the caller computed for it. */
  lemma CallExit(cx: Cx, fn: Fn, rs: seq<Name>, ts: seq<Type>, v: Value, rho: Places, sigma: Typing)
    requires Distinct(fn.regions) && |rs| == |fn.regions|
    requires CallType(HandleSet(cx), Signature(fn), rs, ts).Accepted?
    requires Typed(v, fn.ret, CalleePlaces(fn.regions, rs, rho), sigma)
    ensures Typed(v, CallType(HandleSet(cx), Signature(fn), rs, ts).ret, rho, sigma)
  {
    DistinctIsConsistent(fn.regions, rs);
    CallIsSubstitution(HandleSet(cx), Signature(fn), rs, ts);
    InstSubst(fn.ret, fn.regions, rs, rho);
  }

  /** An instance created by an accepted class call has the type the call was given. */
  lemma NewSafe(p: Program, cx: Cx, env: Env, c: Name, rs: seq<Name>, rho: Places, m: Mem, s0: Typing)
    returns (s1: Typing)
    requires MemOk(p, m, s0) && RegionsOk(cx, env, rho, m.live) && c in p.classes
    requires CallType(HandleSet(cx), NewSignature(c), rs, []).Accepted?
    ensures rs != [] && GetHandle(env.handles, rs[0]).Some?
    ensures var r := Alloc(m, ClsO(GetHandle(env.handles, rs[0]).value, c, p.classes[c]));
            && r.Ok? && Kept(p, m, r.mem, s0, s1)
            && Typed(r.value, CallType(HandleSet(cx), NewSignature(c), rs, []).ret, rho, s1)
  {
    var sig := NewSignature(c);
    if |rs| == 1 { DistinctIsConsistent(sig.regions, rs); }
    CallIsSubstitution(HandleSet(cx), sig, rs, []);
    HandleFound(cx, env, rho, m.live, rs[0]);
    SubstNameAt(sig.regions, rs, 0);
    s1 := AllocSafe(p, m, ClsO(rho[rs[0]], c, p.classes[c]), RCls(c, rho[rs[0]]), s0);
  }

  // ---------- Soundness ----------

  ghost predicate Ready(p: Program, k: nat, cx: Cx, env: Env, m: Mem, rho: Places, sigma: Typing) {
    ProgramOk(p, true) && k <= |p.fns| && CxShape(cx) && EnvShape(env) && cx.strict
    && EnvOk(cx, env, rho, sigma, m.live) && MemOk(p, m, sigma)
  }

  ghost predicate EvalOk(p: Program, r: Res<Value>, t: Type, m: Mem, rho: Places, s0: Typing, s1: Typing) {
    match r
    case Ok(v, m1) => Kept(p, m, m1, s0, s1) && v != Undef && Typed(v, t, rho, s1)
    case Fail(f) => Safe(f)
    case Timeout => true
  }

  ghost predicate ListOk(p: Program, r: Res<seq<Value>>, ts: seq<Type>, m: Mem, rho: Places, s0: Typing, s1: Typing) {
    match r
    case Ok(vs, m1) => Kept(p, m, m1, s0, s1) && ValsOk(vs, ts, rho, s1) && forall v :: v in vs ==> v != Undef
    case Fail(f) => Safe(f)
    case Timeout => true
  }

  ghost predicate ExecOk(p: Program, r: Res<seq<Value>>, types: seq<Type>, m: Mem, rho: Places, s0: Typing, s1: Typing) {
    match r
    case Ok(vals, m1) => Kept(p, m, m1, s0, s1) && ValsOk(vals, types, rho, s1)
    case Fail(f) => Safe(f)
    case Timeout => true
  }

  /** The run of a second expression after a first one. */
  ghost predicate PairOk(p: Program, k: nat, env: Env, a: Expr, b: Expr, t: Type, u: Type,
                         m: Mem, fuel: nat, rho: Places, s0: Typing, s1: Typing)
    requires k <= |p.fns| && EnvShape(env)
  {
    match Eval(p, k, env, a, m, fuel)
    case Ok(v, m1) =>
      (match Eval(p, k, env, b, m1, fuel)
       case Ok(w, m2) => Kept(p, m, m2, s0, s1) && Typed(v, t, rho, s1) && Typed(w, u, rho, s1)
       case Fail(f) => Safe(f)
       case Timeout => true)
    case Fail(f) => Safe(f)
    case Timeout => true
  }

  lemma EvalTwo(p: Program, k: nat, cx: Cx, env: Env, e: Expr, a: Expr, b: Expr,
                m: Mem, fuel: nat, rho: Places, s0: Typing)
    returns (s1: Typing)
    requires Ready(p, k, cx, env, m, rho, s0) && a < e && b < e
    requires TypeOf(p, k, cx, a).Some? && TypeOf(p, k, cx, b).Some?
    ensures PairOk(p, k, env, a, b, TypeOf(p, k, cx, a).value, TypeOf(p, k, cx, b).value, m, fuel, rho, s0, s1)
    decreases fuel, k, e, 0
  {
    s1 := EvalSound(p, k, cx, env, a, m, fuel, rho, s0);
    var r := Eval(p, k, env, a, m, fuel);
    if r.Ok? {
      EnvGrows(cx, env, rho, s0, s1, m.live);
      var s2 := EvalSound(p, k, cx, env, b, r.mem, fuel, rho, s1);
      if Eval(p, k, env, b, r.mem, fuel).Ok? {
        TypedGrows(r.value, TypeOf(p, k, cx, a).value, rho, s1, s2);
        s1 := s2;
      }
    }
  }

  lemma LitSafe(p: Program, cx: Cx, env: Env, ts: seq<Type>, vs: seq<Value>, m: Mem, rho: Places, s0: Typing)
    returns (s1: Typing)
    requires MemOk(p, m, s0) && RegionsOk(cx, env, rho, m.live) && ts != [] && ValsOk(vs, ts, rho, s0)
    requires (forall v :: v in vs ==> v != Undef) && forall t :: t in ts ==> t == ts[0]
    ensures EvalOk(p, Alloc(m, ArrO(Interp.Default(env).1, vs)), ArrT(ts[0], Checking.Default(cx)), m, rho, s0, s1)
  {
    DefaultHandle(cx, env, rho, m.live);
    forall c | c in vs
      ensures Typed(c, ts[0], rho, s0)
    {
      var i :| 0 <= i < |vs| && vs[i] == c;
      assert ts[i] in ts;
    }
    assert vs[0] in vs;
    var rid := Interp.Default(env).1;
    s1 := AllocSafe(p, m, ArrO(rid, vs), RArr(Inst(ts[0], rho), rid), s0);
  }

  lemma FillSafe(p: Program, cx: Cx, env: Env, t: Type, v: Value, n: Value, m: Mem, rho: Places, s0: Typing)
    returns (s1: Typing)
    requires MemOk(p, m, s0) && RegionsOk(cx, env, rho, m.live)
    requires Typed(v, t, rho, s0) && HasType(n, RInt, s0)
    ensures EvalOk(p, AllocArray(m, Interp.Default(env).1, v, n), ArrT(t, Checking.Default(cx)), m, rho, s0, s1)
  {
    DefaultHandle(cx, env, rho, m.live);
    var rid := Interp.Default(env).1;
    s1 := s0;
    if n.VInt? && n.n >= 0 {
      s1 := AllocSafe(p, m, ArrO(rid, seq(n.n, _ => v)), RArr(Inst(t, rho), rid), s0);
    }
  }

  lemma ElemSafe(p: Program, m: Mem, v: Value, i: Value, t: Type, rho: Places, sigma: Typing)
    requires MemOk(p, m, sigma) && t.ArrT? && rho.Values <= m.live
    requires Typed(v, t, rho, sigma) && HasType(i, RInt, sigma)
    ensures match LoadCell(m, v, i)
            case Good(c) => c != Undef && Typed(c, t.elem, rho, sigma)
            case Bad(f) => Safe(f)
  {
    ArrayAccess(p, m, v, i, Inst(t, rho), sigma);
  }

  lemma EvalSound(p: Program, k: nat, cx: Cx, env: Env, e: Expr, m: Mem, fuel: nat, rho: Places, s0: Typing)
    returns (s1: Typing)
    requires Ready(p, k, cx, env, m, rho, s0) && TypeOf(p, k, cx, e).Some?
    ensures EvalOk(p, Eval(p, k, env, e, m, fuel), TypeOf(p, k, cx, e).value, m, rho, s0, s1)
    decreases fuel, k, e, 2
  {
    s1 := s0;
    match e
    case Num(_) =>
    case Get(_) =>
    case Bin(_, a, b) => s1 := EvalTwo(p, k, cx, env, e, a, b, m, fuel, rho, s0);
    case Lit(_) => s1 := LitSound(p, k, cx, env, e, m, fuel, rho, s0);
    case Fill(_, _) => s1 := FillSound(p, k, cx, env, e, m, fuel, rho, s0);
    case Elem(_, _) => s1 := ElemSound(p, k, cx, env, e, m, fuel, rho, s0);
    case Length(_) => s1 := ChildSound(p, k, cx, env, e, m, fuel, rho, s0);
    case Field(_, _) => s1 := ChildSound(p, k, cx, env, e, m, fuel, rho, s0);
    case New(c, rs) =>
      DefaultHandle(cx, env, rho, m.live);
      s1 := NewSafe(p, cx, env, c, CallRegions(rs, Checking.Default(cx)), rho, m, s0);
    case Call(_, _, _) => s1 := CallExprSound(p, k, cx, env, e, m, fuel, rho, s0);
  }

  lemma LitSound(p: Program, k: nat, cx: Cx, env: Env, e: Expr, m: Mem, fuel: nat, rho: Places, s0: Typing)
    returns (s1: Typing)
    requires Ready(p, k, cx, env, m, rho, s0) && TypeOf(p, k, cx, e).Some? && e.Lit?
    ensures EvalOk(p, Eval(p, k, env, e, m, fuel), TypeOf(p, k, cx, e).value, m, rho, s0, s1)
    decreases fuel, k, e, 1
  {
    s1 := ListSound(p, k, cx, env, e.es, m, fuel, rho, s0);
    var r := EvalList(p, k, env, e.es, m, fuel);
    if r.Ok? {
      s1 := LitSafe(p, cx, env, TypesOf(p, k, cx, e.es).value, r.value, r.mem, rho, s1);
    }
  }

  lemma FillSound(p: Program, k: nat, cx: Cx, env: Env, e: Expr, m: Mem, fuel: nat, rho: Places, s0: Typing)
    returns (s1: Typing)
    requires Ready(p, k, cx, env, m, rho, s0) && TypeOf(p, k, cx, e).Some? && e.Fill?
    ensures EvalOk(p, Eval(p, k, env, e, m, fuel), TypeOf(p, k, cx, e).value, m, rho, s0, s1)
    decreases fuel, k, e, 1
  {
    s1 := EvalTwo(p, k, cx, env, e, e.v, e.count, m, fuel, rho, s0);
    var r := Eval(p, k, env, e.v, m, fuel);
    if r.Ok? {
      var q := Eval(p, k, env, e.count, r.mem, fuel);
      if q.Ok? {
        s1 := FillSafe(p, cx, env, TypeOf(p, k, cx, e.v).value, r.value, q.value, q.mem, rho, s1);
      }
    }
  }

  lemma ElemSound(p: Program, k: nat, cx: Cx, env: Env, e: Expr, m: Mem, fuel: nat, rho: Places, s0: Typing)
    returns (s1: Typing)
    requires Ready(p, k, cx, env, m, rho, s0) && TypeOf(p, k, cx, e).Some? && e.Elem?
    ensures EvalOk(p, Eval(p, k, env, e, m, fuel), TypeOf(p, k, cx, e).value, m, rho, s0, s1)
    decreases fuel, k, e, 1
  {
    s1 := EvalTwo(p, k, cx, env, e, e.arr, e.idx, m, fuel, rho, s0);
    var r := Eval(p, k, env, e.arr, m, fuel);
    if r.Ok? {
      var q := Eval(p, k, env, e.idx, r.mem, fuel);
      if q.Ok? {
        ElemSafe(p, q.mem, r.value, q.value, TypeOf(p, k, cx, e.arr).value, rho, s1);
      }
    }
  }

  lemma ChildSound(p: Program, k: nat, cx: Cx, env: Env, e: Expr, m: Mem, fuel: nat, rho: Places, s0: Typing)
    returns (s1: Typing)
    requires Ready(p, k, cx, env, m, rho, s0) && TypeOf(p, k, cx, e).Some? && (e.Length? || e.Field?)
    ensures EvalOk(p, Eval(p, k, env, e, m, fuel), TypeOf(p, k, cx, e).value, m, rho, s0, s1)
    decreases fuel, k, e, 1
  {
    var base := if e.Length? then e.arr else e.obj;
    s1 := EvalSound(p, k, cx, env, base, m, fuel, rho, s0);
    var r := Eval(p, k, env, base, m, fuel);
    if r.Ok? {
      var t := Inst(TypeOf(p, k, cx, base).value, rho);
      if e.Length? {
        ArrayAccess(p, r.mem, r.value, VInt(0), t, s1);
      } else {
        FieldAccess(p, r.mem, r.value, e.f, VInt(0), t, s1);
      }
    }
  }

  lemma CallExprSound(p: Program, k: nat, cx: Cx, env: Env, e: Expr, m: Mem, fuel: nat, rho: Places, s0: Typing)
    returns (s1: Typing)
    requires Ready(p, k, cx, env, m, rho, s0) && TypeOf(p, k, cx, e).Some? && e.Call?
    ensures EvalOk(p, Eval(p, k, env, e, m, fuel), TypeOf(p, k, cx, e).value, m, rho, s0, s1)
    decreases fuel, k, e, 1
  {
    hide MemOk, CallType, HasType, Inst, RunFn, EvalList, GetHandle, RegionsOk, ProgramOk, Find;
    DefaultHandle(cx, env, rho, m.live);
    s1 := ListSound(p, k, cx, env, e.args, m, fuel, rho, s0);
    var r := EvalList(p, k, env, e.args, m, fuel);
    if r.Ok? {
      EnvGrows(cx, env, rho, s0, s1, m.live);
      var j := FindFn(p, k, e.fn).value;
      var names := CallRegions(e.regions, Checking.Default(cx));
      var s2 := CallSound(p, k, e, j, cx, env, names, TypesOf(p, k, cx, e.args).value, r.value, r.mem, fuel, rho, s1);
      s1 := s2;
    }
  }

  lemma CallSound(p: Program, k: nat, e: Expr, j: nat, cx: Cx, env: Env, rs: seq<Name>, ts: seq<Type>, vs: seq<Value>,
                  m: Mem, fuel: nat, rho: Places, s0: Typing)
    returns (s1: Typing)
    requires ProgramOk(p, true) && j < k <= |p.fns| && MemOk(p, m, s0) && RegionsOk(cx, env, rho, m.live)
    requires ValsOk(vs, ts, rho, s0) && (forall v :: v in vs ==> v != Undef) && |ts| == |p.fns[j].params|
    requires rs != []
    requires CallType(HandleSet(cx), Signature(p.fns[j]), rs, ts).Accepted?
    ensures GetHandle(env.handles, rs[0]).Some?
    ensures EvalOk(p, RunFn(p, j, GetHandle(env.handles, rs[0]).value, vs, m, fuel),
                   CallType(HandleSet(cx), Signature(p.fns[j]), rs, ts).ret, m, rho, s0, s1)
    decreases fuel, k, e, 0
  {
    var fn := p.fns[j];
    assert FnOk(p, j, true);
    var callee := CallEntry(cx, env, fn, rs, ts, vs, rho, s0, m.live);
    if |rs| == |fn.regions| { DistinctIsConsistent(fn.regions, rs); }
    CallIsSubstitution(HandleSet(cx), Signature(fn), rs, ts);
    HandleFound(cx, env, rho, m.live, rs[0]);
    s1 := FnSound(p, j, callee, rho[rs[0]], vs, m, fuel, s0);
    var r := RunFn(p, j, rho[rs[0]], vs, m, fuel);
    if r.Ok? {
      CallExit(cx, fn, rs, ts, r.value, rho, s1);
    }
  }

  lemma FnSound(p: Program, j: nat, rho: Places, rid: nat, vs: seq<Value>, m: Mem, fuel: nat, s0: Typing)
    returns (s1: Typing)
    requires ProgramOk(p, true) && j < |p.fns| && MemOk(p, m, s0) && FnOk(p, j, true)
    requires |vs| == |p.fns[j].params|
    requires EnvOk(FnCx(p.fns[j], true), FnEnv(p.fns[j], rid, vs), rho, s0, m.live)
    ensures EvalOk(p, RunFn(p, j, rid, vs, m, fuel), p.fns[j].ret, m, rho, s0, s1)
    decreases fuel, j
  {
    var fn := p.fns[j];
    var env, cx := FnEnv(fn, rid, vs), FnCx(fn, true);
    s1 := ExecSound(p, j, cx, env, fn.body, m, fuel, rho, s0);
    var r := Exec(p, j, env, fn.body, m, fuel);
    var ts := CheckStmt(p, j, cx, fn.body).value;
    if r.Ok? && fn.result.Some? {
      var s2 := EvalSound(p, j, CxAfter(cx, fn.body, ts), EnvAfter(env, fn.body, r.value), fn.result.value,
                          r.mem, fuel, rho, s1);
      s1 := s2;
    }
  }

  lemma ListSound(p: Program, k: nat, cx: Cx, env: Env, es: seq<Expr>, m: Mem, fuel: nat, rho: Places, s0: Typing)
    returns (s1: Typing)
    requires Ready(p, k, cx, env, m, rho, s0) && TypesOf(p, k, cx, es).Some?
    ensures ListOk(p, EvalList(p, k, env, es, m, fuel), TypesOf(p, k, cx, es).value, m, rho, s0, s1)
    decreases fuel, k, es
  {
    s1 := s0;
    if es != [] {
      s1 := EvalSound(p, k, cx, env, es[0], m, fuel, rho, s0);
      var r := Eval(p, k, env, es[0], m, fuel);
      if r.Ok? {
        EnvGrows(cx, env, rho, s0, s1, m.live);
        var s2 := ListSound(p, k, cx, env, es[1..], r.mem, fuel, rho, s1);
        if EvalList(p, k, env, es[1..], r.mem, fuel).Ok? {
          TypedGrows(r.value, TypeOf(p, k, cx, es[0]).value, rho, s1, s2);
        }
        s1 := s2;
      }
    }
  }

  // ---------- Statements ----------

  lemma ExecSound(p: Program, k: nat, cx: Cx, env: Env, s: Stmt, m: Mem, fuel: nat, rho: Places, s0: Typing)
    returns (s1: Typing)
    requires Ready(p, k, cx, env, m, rho, s0) && CheckStmt(p, k, cx, s).Some?
    ensures ExecOk(p, Exec(p, k, env, s, m, fuel), cx.types + CheckStmt(p, k, cx, s).value, m, rho, s0, s1)
    decreases fuel, k, s, 1
  {
    s1 := s0;
    assert cx.types + [] == cx.types;
    match s
    case Skip =>
    case Seq(_, _) => s1 := SeqSound(p, k, cx, env, s, m, fuel, rho, s0);
    case Var(_, e) =>
      s1 := EvalSound(p, k, cx, env, e, m, fuel, rho, s0);
      if Eval(p, k, env, e, m, fuel).Ok? { EnvGrows(cx, env, rho, s0, s1, m.live); }
    case Let(_, e) =>
      s1 := EvalSound(p, k, cx, env, e, m, fuel, rho, s0);
      if Eval(p, k, env, e, m, fuel).Ok? { EnvGrows(cx, env, rho, s0, s1, m.live); }
    case Assign(_, _) => s1 := AssignSound(p, k, cx, env, s, m, fuel, rho, s0);
    case Do(e) =>
      s1 := EvalSound(p, k, cx, env, e, m, fuel, rho, s0);
      if Eval(p, k, env, e, m, fuel).Ok? { EnvGrows(cx, env, rho, s0, s1, m.live); }
    case If(_, _, _) => s1 := IfSound(p, k, cx, env, s, m, fuel, rho, s0);
    case While(_, _) => s1 := WhileSound(p, k, cx, env, s, m, fuel, rho, s0);
    case For(_, _, _, _) => s1 := ForStmtSound(p, k, cx, env, s, m, fuel, rho, s0);
    case On(_, _) => s1 := OnSound(p, k, cx, env, s, m, fuel, rho, s0);
  }

  lemma SeqSound(p: Program, k: nat, cx: Cx, env: Env, s: Stmt, m: Mem, fuel: nat, rho: Places, s0: Typing)
    returns (s1: Typing)
    requires Ready(p, k, cx, env, m, rho, s0) && CheckStmt(p, k, cx, s).Some? && s.Seq?
    ensures ExecOk(p, Exec(p, k, env, s, m, fuel), cx.types + CheckStmt(p, k, cx, s).value, m, rho, s0, s1)
    decreases fuel, k, s, 0
  {
    s1 := ExecSound(p, k, cx, env, s.s1, m, fuel, rho, s0);
    var r := Exec(p, k, env, s.s1, m, fuel);
    if r.Ok? {
      var ts := CheckStmt(p, k, cx, s.s1).value;
      var cx1 := CxAfter(cx, s.s1, ts);
      var s2 := ExecSound(p, k, cx1, EnvAfter(env, s.s1, r.value), s.s2, r.mem, fuel, rho, s1);
      s1 := s2;
      assert cx.types + ts + CheckStmt(p, k, cx1, s.s2).value == cx.types + CheckStmt(p, k, cx, s).value;
    }
  }

  lemma ForStmtSound(p: Program, k: nat, cx: Cx, env: Env, s: Stmt, m: Mem, fuel: nat, rho: Places, s0: Typing)
    returns (s1: Typing)
    requires Ready(p, k, cx, env, m, rho, s0) && CheckStmt(p, k, cx, s).Some? && s.For?
    ensures ExecOk(p, Exec(p, k, env, s, m, fuel), cx.types + CheckStmt(p, k, cx, s).value, m, rho, s0, s1)
    decreases fuel, k, s, 0
  {
    s1 := EvalSound(p, k, cx, env, s.lo, m, fuel, rho, s0);
    var r := Eval(p, k, env, s.lo, m, fuel);
    if r.Ok? {
      EnvGrows(cx, env, rho, s0, s1, m.live);
      s1 := EvalSound(p, k, cx, env, s.hi, r.mem, fuel, rho, s1);
      var q := Eval(p, k, env, s.hi, r.mem, fuel);
      if q.Ok? {
        EnvGrows(cx, env, rho, s0, s1, m.live);
        var it := NewIter(q.mem, r.value, q.value);
        if it.Ok? {
          IterSafe(p, q.mem, it.mem, s1);
          var cx1 := cx.(tags := cx.tags + [Tag(s.x, false, cx.depth)], types := cx.types + [IntT(64)]);
          var env1 := Extend(env, Tag(s.x, false, env.depth), Undef);
          var s2 := ForSound(p, k, cx1, env1, s.body, it.value.it, it.mem, fuel, rho, s1);
          s1 := s2;
        }
      }
    }
  }

  lemma IfSound(p: Program, k: nat, cx: Cx, env: Env, s: Stmt, m: Mem, fuel: nat, rho: Places, s0: Typing)
    returns (s1: Typing)
    requires Ready(p, k, cx, env, m, rho, s0) && CheckStmt(p, k, cx, s).Some? && s.If?
    ensures ExecOk(p, Exec(p, k, env, s, m, fuel), cx.types + CheckStmt(p, k, cx, s).value, m, rho, s0, s1)
    decreases fuel, k, s, 0
  {
    hide Find, FindVar, GetHandle, FindFn, TypeOf, Eval, MemOk;
    s1 := EvalSound(p, k, cx, env, s.c, m, fuel, rho, s0);
    var r := Eval(p, k, env, s.c, m, fuel);
    if r.Ok? && r.value.VBool? {
      EnvGrows(cx, env, rho, s0, s1, m.live);
      var ts := CheckStmt(p, k, cx, s.thn).value;
      var cx1 := CxAfter(cx, s.thn, ts);
      var us := CheckStmt(p, k, cx1, s.els).value;
      assert cx.types + ts + us == cx.types + (ts + us);
      if r.value.b {
        s1 := ExecSound(p, k, cx, env, s.thn, r.mem, fuel, rho, s1);
      } else {
        var env1 := EnvAfter(env, s.thn, env.vals + Undefs(|Declared(s.thn, env.depth)|));
        s1 := ExecSound(p, k, cx1, env1, s.els, r.mem, fuel, rho, s1);
      }
    }
  }

  lemma WhileSound(p: Program, k: nat, cx: Cx, env: Env, s: Stmt, m: Mem, fuel: nat, rho: Places, s0: Typing)
    returns (s1: Typing)
    requires Ready(p, k, cx, env, m, rho, s0) && CheckStmt(p, k, cx, s).Some? && s.While?
    ensures ExecOk(p, Exec(p, k, env, s, m, fuel), cx.types + CheckStmt(p, k, cx, s).value, m, rho, s0, s1)
    decreases fuel, k, s, 0
  {
    s1 := s0;
    assert cx.types + [] == cx.types;
    if fuel > 0 {
      s1 := EvalSound(p, k, cx, env, s.c, m, fuel, rho, s0);
      var r := Eval(p, k, env, s.c, m, fuel);
      if r.Ok? {
        EnvGrows(cx, env, rho, s0, s1, m.live);
        if r.value.VBool? && r.value.b {
          s1 := ExecSound(p, k, InnerCx(cx), Inner(env), s.body, r.mem, fuel, rho, s1);
          var q := Exec(p, k, Inner(env), s.body, r.mem, fuel);
          if q.Ok? {
            s1 := ExecSound(p, k, cx, env.(vals := q.value[..|env.vals|]), s, q.mem, fuel - 1, rho, s1);
          }
        }
      }
    }
  }

  /** The next element of the iterator, bound to the loop name. */
  lemma NextReady(p: Program, k: nat, cx: Cx, env: Env, it: nat, m: Mem, rho: Places, sigma: Typing)
    requires Ready(p, k, cx, env, m, rho, sigma) && cx.types != [] && cx.types[|cx.types| - 1] == IntT(64) && HasNext(m, it)
    ensures env.vals != []
    ensures var (v, m1) := Next(m, it);
            var env1 := env.(vals := env.vals[|env.vals| - 1 := v]);
            Ready(p, k, InnerCx(cx), Inner(env1), m1, rho, sigma) && Kept(p, m, m1, sigma, sigma)
  {
    IterSafe(p, m, Next(m, it).1, sigma);
  }

  /** After the body the loop can go round again. */
  lemma AgainReady(p: Program, k: nat, cx: Cx, env: Env, types: seq<Type>, r: Res<seq<Value>>, m: Mem, m1: Mem,
                   rho: Places, s0: Typing, s1: Typing)
    requires Ready(p, k, cx, env, m, rho, s0) && Kept(p, m, m1, s0, s0) && r.Ok? && cx.types <= types
    requires ExecOk(p, r, types, m1, rho, s0, s1) && |env.vals| <= |r.value|
    ensures Ready(p, k, cx, env.(vals := r.value[..|env.vals|]), r.mem, rho, s1) && Kept(p, m, r.mem, s0, s1)
  {
    hide ProgramOk;
  }

  lemma KeptThen(p: Program, r: Res<seq<Value>>, types: seq<Type>, m: Mem, m1: Mem, rho: Places, s0: Typing, s1: Typing, s2: Typing)
    requires Kept(p, m, m1, s0, s1) && ExecOk(p, r, types, m1, rho, s1, s2)
    ensures ExecOk(p, r, types, m, rho, s0, s2)
  {
  }

  lemma ForSound(p: Program, k: nat, cx: Cx, env: Env, body: Stmt, it: nat, m: Mem, fuel: nat, rho: Places, s0: Typing)
    returns (s1: Typing)
    requires Ready(p, k, cx, env, m, rho, s0) && CheckStmt(p, k, InnerCx(cx), body).Some?
    requires cx.types != [] && cx.types[|cx.types| - 1] == IntT(64)
    ensures ExecOk(p, ForLoop(p, k, env, body, it, m, fuel), cx.types, m, rho, s0, s1)
    decreases fuel, k, body, 2
  {
    hide EnvOk, MemOk, Kept, Exec, CheckStmt, ProgramOk;
    s1 := s0;
    if fuel > 0 && HasNext(m, it) {
      var (v, m1) := Next(m, it);
      NextReady(p, k, cx, env, it, m, rho, s0);
      var env1 := env.(vals := env.vals[|env.vals| - 1 := v]);
      s1 := ExecSound(p, k, InnerCx(cx), Inner(env1), body, m1, fuel, rho, s0);
      var q := Exec(p, k, Inner(env1), body, m1, fuel);
      if q.Ok? {
        AgainReady(p, k, cx, env, cx.types + CheckStmt(p, k, InnerCx(cx), body).value, q, m, m1, rho, s0, s1);
        var env2 := env.(vals := q.value[..|env.vals|]);
        var s2 := ForSound(p, k, cx, env2, body, it, q.mem, fuel - 1, rho, s1);
        KeptThen(p, ForLoop(p, k, env2, body, it, q.mem, fuel - 1), cx.types, m, q.mem, rho, s0, s1, s2);
        s1 := s2;
      }
    } else if fuel > 0 {
      NothingRun(p, k, cx, env, m, rho, s0);
    }
  }

  lemma NothingRun(p: Program, k: nat, cx: Cx, env: Env, m: Mem, rho: Places, sigma: Typing)
    requires Ready(p, k, cx, env, m, rho, sigma)
    ensures ExecOk(p, Ok(env.vals, m), cx.types, m, rho, sigma, sigma)
  {
  }

  /** A type that does not name a new region means the same with and without it. */
  lemma {:induction false} InstFresh(t: Type, rho: Places, name: Name, rid: nat)
    requires name !in Regions(t)
    ensures Regions(t) <= rho.Keys <==> Regions(t) <= rho[name := rid].Keys
    ensures Regions(t) <= rho.Keys ==> Inst(t, rho) == Inst(t, rho[name := rid])
  {
    if t.ArrT? {
      InstFresh(t.elem, rho, name, rid);
    }
  }

  lemma ValsFresh(vals: seq<Value>, types: seq<Type>, rho: Places, name: Name, rid: nat, sigma: Typing)
    requires |vals| == |types| && forall t :: t in types ==> name !in Regions(t)
    ensures ValsOk(vals, types, rho, sigma) <==> ValsOk(vals, types, rho[name := rid], sigma)
  {
    forall i | 0 <= i < |vals|
      ensures Typed(vals[i], types[i], rho, sigma) <==> Typed(vals[i], types[i], rho[name := rid], sigma)
    {
      assert types[i] in types;
      InstFresh(types[i], rho, name, rid);
    }
  }

  /** Inside `on` the new region is the innermost one of its name. */
  lemma OnRegions(cx: Cx, env: Env, rho: Places, live: set<nat>, name: Name, rid: nat)
    requires RegionsOk(cx, env, rho, live)
    ensures RegionsOk(InnerCx(cx).(handles := cx.handles + [name]),
                      Inner(env).(handles := env.handles + [(name, rid)]), rho[name := rid], live + {rid})
  {
    var hs := env.handles + [(name, rid)];
    forall i | 0 <= i < |hs| && Innermost(hs, hs[i].0, i)
      ensures rho[name := rid][hs[i].0] == hs[i].1
    {
      if i < |env.handles| {
        assert hs[|env.handles|].0 != hs[i].0;
        forall j | i < j < |env.handles| ensures env.handles[j].0 != env.handles[i].0 { assert hs[j] == env.handles[j]; }
        assert Innermost(env.handles, env.handles[i].0, i);
      }
    }
    forall v | v in rho[name := rid].Values ensures v in live + {rid} {
      if v != rid { assert v in rho.Values; }
    }
  }

  lemma OnSound(p: Program, k: nat, cx: Cx, env: Env, s: Stmt, m: Mem, fuel: nat, rho: Places, s0: Typing)
    returns (s1: Typing)
    requires Ready(p, k, cx, env, m, rho, s0) && CheckStmt(p, k, cx, s).Some? && s.On?
    ensures ExecOk(p, Exec(p, k, env, s, m, fuel), cx.types + CheckStmt(p, k, cx, s).value, m, rho, s0, s1)
    decreases fuel, k, s, 0
  {
    s1 := s0;
    assert cx.types + [] == cx.types;
    var (rid, m1) := OpenRegion(m);
    OpenSafe(p, m, s0);
    var cx1 := InnerCx(cx).(handles := cx.handles + [s.region]);
    var env1 := Inner(env).(handles := env.handles + [(s.region, rid)]);
    var rho1 := rho[s.region := rid];
    ValsFresh(env.vals, cx.types, rho, s.region, rid, s0);
    OnRegions(cx, env, rho, m.live, s.region, rid);
    s1 := ExecSound(p, k, cx1, env1, s.body, m1, fuel, rho1, s0);
    var q := Exec(p, k, env1, s.body, m1, fuel);
    if q.Ok? {
      CloseSafe(p, q.mem, rid, s1);
      assert m1.live - {rid} == m.live;
      var vals := q.value[..|env.vals|];
      ValsFresh(vals, cx.types, rho, s.region, rid, s1);
    }
  }

  lemma AssignSound(p: Program, k: nat, cx: Cx, env: Env, s: Stmt, m: Mem, fuel: nat, rho: Places, s0: Typing)
    returns (s1: Typing)
    requires Ready(p, k, cx, env, m, rho, s0) && CheckStmt(p, k, cx, s).Some? && s.Assign?
    ensures ExecOk(p, Exec(p, k, env, s, m, fuel), cx.types + CheckStmt(p, k, cx, s).value, m, rho, s0, s1)
    decreases fuel, k, s, 0
  {
    var t, e := s.target, s.e;
    assert cx.types + [] == cx.types;
    var a := TypeOf(p, k, cx, t).value;
    SameType(a, TypeOf(p, k, cx, e).value);
    s1 := TargetSound(p, k, cx, env, t, m, fuel, rho, s0);
    var r := EvalTarget(p, k, env, t, m, fuel);
    if r.Ok? {
      EnvGrows(cx, env, rho, s0, s1, m.live);
      var s2 := EvalSound(p, k, cx, env, e, r.mem, fuel, rho, s1);
      var q := Eval(p, k, env, e, r.mem, fuel);
      if q.Ok? {
        EnvGrows(cx, env, rho, s1, s2, m.live);
        StoreSafe(p, cx, env, r.value, a, q.value, q.mem, rho, s2);
      }
      s1 := s2;
    }
  }

  /** `doStore` compares without a renaming: equal means the same type. */
  lemma {:induction false} SameType(t: Type, u: Type)
    ensures Equals(t, u, map[]) <==> t == u
  {
    if t.ArrT? && u.ArrT? {
      SameType(t.elem, u.elem);
    }
  }

  /** The address of an assignment target, for a value of type `t`. */
  ghost predicate PlaceOk(p: Program, cx: Cx, pl: Place, t: Type, rho: Places, sigma: Typing) {
    match pl
    case NameP(i) => i < |cx.types| && cx.types[i] == t
    case CellP(a, i) =>
      HasType(i, RInt, sigma) && exists r :: Typed(a, ArrT(t, r), rho, sigma)
    case FieldP(o, f) =>
      t.IntT? && exists c, r :: Typed(o, ClsT(c, r), rho, sigma) && c in p.classes && f in p.classes[c]
  }

  lemma TargetSound(p: Program, k: nat, cx: Cx, env: Env, t: Expr, m: Mem, fuel: nat, rho: Places, s0: Typing)
    returns (s1: Typing)
    requires Ready(p, k, cx, env, m, rho, s0) && TypeOf(p, k, cx, t).Some? && Assignable(cx, t)
    ensures match EvalTarget(p, k, env, t, m, fuel)
            case Ok(pl, m1) => Kept(p, m, m1, s0, s1) && PlaceOk(p, cx, pl, TypeOf(p, k, cx, t).value, rho, s1)
            case Fail(f) => Safe(f)
            case Timeout => true
    decreases fuel, k, t, 2
  {
    s1 := s0;
    match t
    case Get(_) =>
    case Elem(a, b) =>
      s1 := EvalTwo(p, k, cx, env, t, a, b, m, fuel, rho, s0);
      var r := Eval(p, k, env, a, m, fuel);
      if r.Ok? {
        var q := Eval(p, k, env, b, r.mem, fuel);
        if q.Ok? {
          var ta := TypeOf(p, k, cx, a).value;
          ElemSafe(p, q.mem, r.value, q.value, ta, rho, s1);
          assert Typed(r.value, ArrT(ta.elem, ta.region), rho, s1);
        }
      }
    case Field(o, f) =>
      s1 := EvalSound(p, k, cx, env, o, m, fuel, rho, s0);
      var r := Eval(p, k, env, o, m, fuel);
      if r.Ok? {
        var to := TypeOf(p, k, cx, o).value;
        FieldAccess(p, r.mem, r.value, f, VInt(0), Inst(to, rho), s1);
        assert Typed(r.value, ClsT(to.cls, to.region), rho, s1);
      }
    case _ =>
  }

  lemma StoreSafe(p: Program, cx: Cx, env: Env, pl: Place, t: Type, v: Value, m: Mem, rho: Places, sigma: Typing)
    requires MemOk(p, m, sigma) && EnvOk(cx, env, rho, sigma, m.live)
    requires PlaceOk(p, cx, pl, t, rho, sigma) && Typed(v, t, rho, sigma)
    ensures ExecOk(p, StorePlace(env.vals, pl, v, m), cx.types, m, rho, sigma, sigma)
  {
    match pl
    case NameP(i) =>
    case CellP(a, i) =>
      var r :| Typed(a, ArrT(t, r), rho, sigma);
      StoreCellSafe(p, m, a, i, v, Inst(ArrT(t, r), rho), sigma);
    case FieldP(o, f) =>
      var c, r :| Typed(o, ClsT(c, r), rho, sigma) && c in p.classes && f in p.classes[c];
      FieldAccess(p, m, o, f, v, Inst(ClsT(c, r), rho), sigma);
  }

  // ---------- The theorem ----------

  /** A program run: `main` without parameters, in a region created for it and deleted
      after it returns. */
  function RunMain(p: Program, main: nat, fuel: nat): Res<Value>
    requires main < |p.fns|
  {
    var (rid, m) := OpenRegion(EMPTY);
    var (v, m1) :- RunFn(p, main, rid, [], m, fuel);
    var (_, m2) :- CloseRegion(m1, rid);
    Ok(v, m2)
  }

  /** No run of an accepted program accesses or deletes a deleted region, or applies an
      operation to a value of the wrong kind; and when the run ends no region is live. */
  lemma RegionSafety(p: Program, main: nat, fuel: nat)
    requires ProgramOk(p, true) && main < |p.fns| && p.fns[main].params == []
    ensures match RunMain(p, main, fuel)
            case Ok(_, m) => m.live == {}
            case Fail(f) => f != Dangling && f != Stuck
            case Timeout => true
  {
    var fn := p.fns[main];
    assert FnOk(p, main, true);
    var (rid, m) := OpenRegion(EMPTY);
    OpenSafe(p, EMPTY, map[]);
    var rho: Places := map[fn.regions[0] := rid];
    assert fn.regions[0] in fn.regions;
    assert EnvOk(FnCx(fn, true), FnEnv(fn, rid, []), rho, map[], m.live);
    var sigma := FnSound(p, main, rho, rid, [], m, fuel, map[]);
    var r := RunFn(p, main, rid, [], m, fuel);
    if r.Ok? {
      CloseSafe(p, r.mem, rid, sigma);
    }
  }
}
