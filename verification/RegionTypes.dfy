/** Types with region names, and the type check of a function call.

    A reference type carries the name of the region its object lives in.  A call
    renames regions: `DoCall` builds the map from call-site names to declared names,
    compares every argument type under that map, and renames the return type back
    with the inverse map.  The lemmas say what this amounts to: substitution of
    call-site names for declared names. */
module RegionTypes {
  import opened Basics
  import opened NameOrder

  type Name = string

  type Remap = map<Name, Name>

  datatype Type =
    | IntT(bits: nat)
    | VoidT
    | ArrT(elem: Type, region: Name)
    | ClsT(cls: Name, region: Name)

  function Regions(t: Type): set<Name> {
    match t
    case IntT(_) => {}
    case VoidT => {}
    case ArrT(e, r) => Regions(e) + {r}
    case ClsT(_, r) => {r}
  }

  /** The region test shared by array and class types.  An empty renaming compares
      names as they are; a name that a non-empty renaming lacks is equal to nothing. */
  predicate SameRegion(mine: Name, other: Name, remap: Remap) {
    if |remap| > 0 then mine in remap && remap[mine] == other else mine == other
  }

  /** `t->equals(u, remap)`, where `remap` renames the regions of `t`. */
  predicate Equals(t: Type, u: Type, remap: Remap) {
    match t
    case IntT(b) => u.IntT? && b == u.bits
    case VoidT => u.VoidT?
    case ArrT(e, r) => u.ArrT? && SameRegion(r, u.region, remap) && Equals(e, u.elem, remap)
    case ClsT(c, r) => u.ClsT? && SameRegion(r, u.region, remap) && c == u.cls
  }

  /** `t->withRemapRegions(remap)`; `None` when a region of `t` is not in the map. */
  function WithRemap(t: Type, remap: Remap): Option<Type> {
    match t
    case IntT(_) => Some(t)
    case VoidT => Some(t)
    case ArrT(e, r) =>
      var e' := WithRemap(e, remap);
      if e'.Some? && r in remap then Some(ArrT(e'.value, remap[r])) else None
    case ClsT(c, r) => if r in remap then Some(ClsT(c, remap[r])) else None
  }

  /** The declared part of a function type. */
  datatype FnSig = FnSig(regions: seq<Name>, params: seq<Type>, ret: Type)

  datatype CallResult =
    | Accepted(ret: Type)
    | NoHandle
    | RegionCount
    | ArgMismatch(arg: nat)
    | UnmappedReturn

  /** `regionsRemap[regions[i]] = this->regions[i]`, for i in order: later entries win. */
  function BuildRemap(rs: seq<Name>, ds: seq<Name>): Remap
    requires |rs| == |ds|
  {
    if rs == [] then map[]
    else BuildRemap(rs[..|rs| - 1], ds[..|ds| - 1])[rs[|rs| - 1] := ds[|ds| - 1]]
  }

  /** Position `i` of a region list that no later position repeats. */
  predicate LastAt(rs: seq<Name>, i: int) {
    0 <= i < |rs| && forall j :: i < j < |rs| ==> rs[j] != rs[i]
  }

  lemma {:induction false} BuildRemapAt(rs: seq<Name>, ds: seq<Name>)
    requires |rs| == |ds|
    ensures forall r :: r in BuildRemap(rs, ds) <==> r in rs
    ensures forall i :: LastAt(rs, i) ==> BuildRemap(rs, ds)[rs[i]] == ds[i]
    ensures forall r :: r in rs ==> exists i :: LastAt(rs, i) && rs[i] == r
  {
    if rs != [] {
      var n := |rs| - 1;
      var rs', ds' := rs[..n], ds[..n];
      BuildRemapAt(rs', ds');
      assert rs == rs' + [rs[n]];
      forall i | LastAt(rs, i)
        ensures BuildRemap(rs, ds)[rs[i]] == ds[i]
      {
        if i < n { assert LastAt(rs', i); assert rs[n] != rs[i]; }
      }
      forall r | r in rs
        ensures exists i :: LastAt(rs, i) && rs[i] == r
      {
        if r == rs[n] {
          assert LastAt(rs, n);
        } else {
          var i :| LastAt(rs', i) && rs'[i] == r;
          assert LastAt(rs, i);
        }
      }
    }
  }

  ghost predicate Injective(m: Remap) {
    forall p, q :: p in m && q in m && m[p] == m[q] ==> p == q
  }

  /** `p` is the greatest name sent to `d`. */
  ghost predicate Greatest(m: Remap, d: Name, p: Name) {
    p in m && m[p] == d && forall q :: q in m && m[q] == d ==> q == p || Before(q, p)
  }

  lemma GreatestExists(m: Remap, d: Name)
    requires d in m.Values
    ensures exists p :: Greatest(m, d, p)
  {
    var q :| q in m && m[q] == d;
    var keys := set q | q in m && m[q] == d;
    assert q in keys;
    var p := LastKey(keys);
    assert Greatest(m, d, p);
  }

  lemma GreatestIsUnique(m: Remap, d: Name, p: Name, q: Name)
    requires Greatest(m, d, p) && Greatest(m, d, q)
    ensures p == q
  {
    if p != q { BeforeIsStrict(p, q); }
  }

  /** The inverse map: where two names are sent to one, the loop in key order leaves the greater. */
  ghost function Invert(m: Remap): (inv: Remap)
    ensures inv.Keys == m.Values
    ensures forall d :: d in inv ==> Greatest(m, d, inv[d])
  {
    map d | d in m.Values :: GreatestOf(m, d)
  }

  ghost function GreatestOf(m: Remap, d: Name): (p: Name)
    requires d in m.Values
    ensures Greatest(m, d, p)
  {
    GreatestExists(m, d);
    var p :| Greatest(m, d, p);
    p
  }

  /** The inverse over the keys visited so far. */
  ghost predicate Inverted(m: Remap, done: set<Name>, inv: Remap) {
    && (forall p :: p in done && p in m ==> m[p] in inv)
    && (forall d :: d in inv ==> inv[d] in done && inv[d] in m && m[inv[d]] == d)
    && (forall d, q :: d in inv && q in done && q in m && m[q] == d ==> q == inv[d] || Before(q, inv[d]))
  }

  lemma InvertStep(m: Remap, keys: set<Name>, inv: Remap, p: Name)
    requires p in keys && keys <= m.Keys && Inverted(m, m.Keys - keys, inv)
    requires forall q, r :: q in m && q !in keys && r in keys ==> Before(q, r)
    ensures Inverted(m, m.Keys - (keys - {p}), inv[m[p] := p])
  {
  }

  lemma InvertedAll(m: Remap, inv: Remap)
    requires Inverted(m, m.Keys - {}, inv)
    ensures inv == Invert(m)
  {
    assert inv.Keys == m.Values;
    forall d | d in inv ensures inv[d] == Invert(m)[d] {
      assert Greatest(m, d, inv[d]);
      GreatestIsUnique(m, d, inv[d], Invert(m)[d]);
    }
  }

  lemma InvertInjective(m: Remap)
    requires Injective(m)
    ensures forall p :: p in m ==> m[p] in Invert(m) && Invert(m)[m[p]] == p
  {
    forall p | p in m
      ensures m[p] in Invert(m) && Invert(m)[m[p]] == p
    {
      assert m[p] in m.Values;
      assert Greatest(m, m[p], Invert(m)[m[p]]);
    }
  }

  lemma BuildRemapInjective(rs: seq<Name>, ds: seq<Name>)
    requires |rs| == |ds| && Distinct(ds)
    ensures Injective(BuildRemap(rs, ds))
  {
    BuildRemapAt(rs, ds);
    var m := BuildRemap(rs, ds);
    forall p, q | p in m && q in m && m[p] == m[q]
      ensures p == q
    {
      var i :| LastAt(rs, i) && rs[i] == p;
      var j :| LastAt(rs, j) && rs[j] == q;
      assert i == j;
    }
  }

  /** The first argument whose type differs from its parameter's, from `i` on. */
  function FirstMismatch(args: seq<Type>, params: seq<Type>, remap: Remap, i: nat): (r: Option<nat>)
    ensures r.Some? ==> i <= r.value < |args| && r.value < |params|
                        && !Equals(args[r.value], params[r.value], remap)
    ensures r.Some? ==> forall j :: i <= j < r.value ==> Equals(args[j], params[j], remap)
    ensures r.None? ==> forall j :: i <= j < |args| && j < |params| ==> Equals(args[j], params[j], remap)
    decreases |args| - i
  {
    if i >= |args| || i >= |params| then None
    else if !Equals(args[i], params[i], remap) then Some(i)
    else FirstMismatch(args, params, remap, i + 1)
  }

  /** What `doCall` decides.  `handles` are the region names the caller holds a handle for. */
  ghost function CallType(handles: set<Name>, sig: FnSig, rs: seq<Name>, args: seq<Type>): CallResult {
    if rs == [] || rs[0] !in handles then NoHandle
    else if |rs| != |sig.regions| then RegionCount
    else
      var remap := BuildRemap(rs, sig.regions);
      var bad := FirstMismatch(args, sig.params, remap, 0);
      if bad.Some? then ArgMismatch(bad.value)
      else
        match WithRemap(sig.ret, Invert(remap))
        case None => UnmappedReturn
        case Some(t) => Accepted(t)
  }

  // ---------- Calls are substitution ----------

  /** A call-site name stands for a declared one at its last position; earlier positions of the
      same name are hidden. */
  ghost predicate Stands(r: Name, d: Name, ds: seq<Name>, rs: seq<Name>)
    requires |ds| == |rs|
  {
    exists i :: LastAt(rs, i) && rs[i] == r && ds[i] == d
  }

  /** The declared regions that stay visible at a call. */
  ghost predicate Visible(d: Name, ds: seq<Name>, rs: seq<Name>)
    requires |ds| == |rs|
  {
    exists i :: LastAt(rs, i) && ds[i] == d
  }

  /** `a` is `p` with a call-site name that stands for it in the place of each declared region. */
  ghost predicate Instance(a: Type, p: Type, ds: seq<Name>, rs: seq<Name>)
    requires |ds| == |rs|
  {
    match p
    case IntT(b) => a == p
    case VoidT => a == p
    case ArrT(e, d) => a.ArrT? && Stands(a.region, d, ds, rs) && Instance(a.elem, e, ds, rs)
    case ClsT(c, d) => a.ClsT? && a.cls == c && Stands(a.region, d, ds, rs)
  }

  lemma RemapStands(r: Name, d: Name, ds: seq<Name>, rs: seq<Name>)
    requires |ds| == |rs|
    ensures r in BuildRemap(rs, ds) && BuildRemap(rs, ds)[r] == d <==> Stands(r, d, ds, rs)
  {
    BuildRemapAt(rs, ds);
    var m := BuildRemap(rs, ds);
    if r in m && m[r] == d {
      var i :| LastAt(rs, i) && rs[i] == r;
    }
  }

  /** Exactly which arguments a call accepts, whatever names repeat. */
  lemma {:induction false} ArgumentIsInstance(a: Type, p: Type, ds: seq<Name>, rs: seq<Name>)
    requires |ds| == |rs| > 0
    ensures Equals(a, p, BuildRemap(rs, ds)) <==> Instance(a, p, ds, rs)
  {
    var m := BuildRemap(rs, ds);
    BuildRemapAt(rs, ds);
    assert rs[0] in m;
    assert |m| > 0;
    match p
    case IntT(_) =>
    case VoidT =>
    case ArrT(e, d) =>
      if a.ArrT? {
        RemapStands(a.region, d, ds, rs);
        ArgumentIsInstance(a.elem, e, ds, rs);
      }
    case ClsT(_, d) =>
      if a.ClsT? { RemapStands(a.region, d, ds, rs); }
  }

  /** The return type is renamed exactly when all its regions are visible, and then to an instance. */
  lemma {:induction false} ReturnIsInstance(t: Type, ds: seq<Name>, rs: seq<Name>)
    requires |ds| == |rs|
    ensures var back := WithRemap(t, Invert(BuildRemap(rs, ds)));
            && (back.Some? <==> forall d :: d in Regions(t) ==> Visible(d, ds, rs))
            && (back.Some? ==> Instance(back.value, t, ds, rs))
  {
    hide Invert, BuildRemap, Visible, Stands;
    InverseStands(ds, rs);
    match t
    case IntT(_) =>
    case VoidT =>
    case ArrT(e, _) => ReturnIsInstance(e, ds, rs);
    case ClsT(_, _) =>
  }

  lemma InverseStands(ds: seq<Name>, rs: seq<Name>)
    requires |ds| == |rs|
    ensures var inv := Invert(BuildRemap(rs, ds));
            forall d :: (d in inv <==> Visible(d, ds, rs)) && (d in inv ==> Stands(inv[d], d, ds, rs))
  {
    var m := BuildRemap(rs, ds);
    var inv := Invert(m);
    BuildRemapAt(rs, ds);
    forall d
      ensures (d in inv <==> Visible(d, ds, rs)) && (d in inv ==> Stands(inv[d], d, ds, rs))
    {
      if d in inv { RemapStands(inv[d], d, ds, rs); }
      if Visible(d, ds, rs) {
        var i :| LastAt(rs, i) && ds[i] == d;
        assert m[rs[i]] in m.Values;
      }
    }
  }

  /** The whole call, whatever names repeat: `doCall` accepts exactly when the first region has
      a handle, the region counts agree, every compared argument is an instance of its
      parameter and the return type names only visible regions. */
  lemma CallIsInstance(handles: set<Name>, sig: FnSig, rs: seq<Name>, args: seq<Type>)
    ensures CallType(handles, sig, rs, args).Accepted? <==>
            && rs != [] && rs[0] in handles && |rs| == |sig.regions|
            && (forall i :: 0 <= i < |args| && i < |sig.params| ==> Instance(args[i], sig.params[i], sig.regions, rs))
            && (forall d :: d in Regions(sig.ret) ==> Visible(d, sig.regions, rs))
    ensures CallType(handles, sig, rs, args).Accepted? ==>
              |rs| == |sig.regions| && Instance(CallType(handles, sig, rs, args).ret, sig.ret, sig.regions, rs)
  {
    if rs != [] && |rs| == |sig.regions| {
      ReturnIsInstance(sig.ret, sig.regions, rs);
      forall i | 0 <= i < |args| && i < |sig.params|
        ensures Equals(args[i], sig.params[i], BuildRemap(rs, sig.regions))
           <==> Instance(args[i], sig.params[i], sig.regions, rs)
      {
        ArgumentIsInstance(args[i], sig.params[i], sig.regions, rs);
      }
    }
  }

  /** Of several call-site names that stand for a declared one, the greatest: the name by which the
      caller knows the region in the result. */
  ghost predicate Names(r: Name, d: Name, ds: seq<Name>, rs: seq<Name>)
    requires |ds| == |rs|
  {
    Stands(r, d, ds, rs) && forall q :: Stands(q, d, ds, rs) ==> q == r || Before(q, r)
  }

  /** `a` is `p` as the caller knows it. */
  ghost predicate Renamed(a: Type, p: Type, ds: seq<Name>, rs: seq<Name>)
    requires |ds| == |rs|
  {
    match p
    case IntT(b) => a == p
    case VoidT => a == p
    case ArrT(e, d) => a.ArrT? && Names(a.region, d, ds, rs) && Renamed(a.elem, e, ds, rs)
    case ClsT(c, d) => a.ClsT? && a.cls == c && Names(a.region, d, ds, rs)
  }

  lemma {:induction false} ReturnIsRenamed(t: Type, u: Type, ds: seq<Name>, rs: seq<Name>)
    requires |ds| == |rs|
    ensures WithRemap(t, Invert(BuildRemap(rs, ds))) == Some(u) <==> Renamed(u, t, ds, rs)
  {
    hide Invert, BuildRemap, Stands, Names;
    match t
    case IntT(_) =>
    case VoidT =>
    case ArrT(e, d) =>
      if u.ArrT? {
        InverseNames(u.region, d, ds, rs);
        ReturnIsRenamed(e, u.elem, ds, rs);
      }
    case ClsT(_, d) => if u.ClsT? { InverseNames(u.region, d, ds, rs); }
  }

  lemma InverseNames(r: Name, d: Name, ds: seq<Name>, rs: seq<Name>)
    requires |ds| == |rs|
    ensures var inv := Invert(BuildRemap(rs, ds)); d in inv && inv[d] == r <==> Names(r, d, ds, rs)
  {
    hide Stands;
    var m := BuildRemap(rs, ds);
    forall q ensures q in m && m[q] == d <==> Stands(q, d, ds, rs) { RemapStands(q, d, ds, rs); }
    if Names(r, d, ds, rs) {
      assert d in m.Values;
      GreatestIsUnique(m, d, r, Invert(m)[d]);
    }
  }

  /** Every compared argument before `n` is an instance of its parameter. */
  ghost predicate InstancesTo(sig: FnSig, rs: seq<Name>, args: seq<Type>, n: nat)
    requires |rs| == |sig.regions|
  {
    forall i :: 0 <= i < n && i < |args| && i < |sig.params| ==> Instance(args[i], sig.params[i], sig.regions, rs)
  }

  /** The caller has a handle for the first region passed. */
  ghost predicate HasHandle(handles: set<Name>, rs: seq<Name>) { rs != [] && rs[0] in handles }

  /** When each answer to a call is the right one. */
  ghost predicate Answers(handles: set<Name>, sig: FnSig, rs: seq<Name>, args: seq<Type>, res: CallResult) {
    match res
    case NoHandle => !HasHandle(handles, rs)
    case RegionCount => HasHandle(handles, rs) && |rs| != |sig.regions|
    case ArgMismatch(i) =>
      && HasHandle(handles, rs) && |rs| == |sig.regions| && i < |args| && i < |sig.params|
      && !Instance(args[i], sig.params[i], sig.regions, rs) && InstancesTo(sig, rs, args, i)
    case UnmappedReturn =>
      && HasHandle(handles, rs) && |rs| == |sig.regions| && InstancesTo(sig, rs, args, |args|)
      && exists d :: d in Regions(sig.ret) && !Visible(d, sig.regions, rs)
    case Accepted(t) =>
      && HasHandle(handles, rs) && |rs| == |sig.regions| && InstancesTo(sig, rs, args, |args|)
      && Renamed(t, sig.ret, sig.regions, rs)
  }

  /** Every call has exactly one answer, and it is the code's. */
  lemma AnswerIsExact(handles: set<Name>, sig: FnSig, rs: seq<Name>, args: seq<Type>, res: CallResult)
    ensures Answers(handles, sig, rs, args, res) <==> res == CallType(handles, sig, rs, args)
  {
    if rs != [] && |rs| == |sig.regions| {
      hide Instance, Invert, BuildRemap, Equals, Renamed, Visible, Regions;
      forall i | 0 <= i < |args| && i < |sig.params|
        ensures Equals(args[i], sig.params[i], BuildRemap(rs, sig.regions))
           <==> Instance(args[i], sig.params[i], sig.regions, rs)
      {
        ArgumentIsInstance(args[i], sig.params[i], sig.regions, rs);
      }
      ReturnIsInstance(sig.ret, sig.regions, rs);
      forall u ensures WithRemap(sig.ret, Invert(BuildRemap(rs, sig.regions))) == Some(u) <==> Renamed(u, sig.ret, sig.regions, rs) {
        ReturnIsRenamed(sig.ret, u, sig.regions, rs);
      }
    }
  }

  /** `FunctionType::doCall`, up to the emitted instructions. */
  method DoCall(handles: set<Name>, sig: FnSig, rs: seq<Name>, args: seq<Type>)
    returns (res: CallResult)
    ensures res == CallType(handles, sig, rs, args)
    ensures Answers(handles, sig, rs, args, res)
  {
    AnswerIsExact(handles, sig, rs, args, CallType(handles, sig, rs, args));
    if rs == [] || rs[0] !in handles {
      return NoHandle;
    }
    if |rs| != |sig.regions| {
      return RegionCount;
    }
    var remap: Remap := map[];
    for i := 0 to |rs|
      invariant remap == BuildRemap(rs[..i], sig.regions[..i])
    {
      assert rs[..i + 1][..i] == rs[..i] && sig.regions[..i + 1][..i] == sig.regions[..i];
      remap := remap[rs[i] := sig.regions[i]];
    }
    assert rs[..|rs|] == rs && sig.regions[..|rs|] == sig.regions;
    var k := 0;
    while k < |args| && k < |sig.params|
      invariant 0 <= k
      invariant FirstMismatch(args, sig.params, remap, 0) == FirstMismatch(args, sig.params, remap, k)
    {
      if !Equals(args[k], sig.params[k], remap) {
        return ArgMismatch(k);
      }
      k := k + 1;
    }
    var inverse: Remap := map[];
    var keys := remap.Keys;
    while keys != {}
      invariant keys <= remap.Keys
      invariant forall p, q :: p in remap && p !in keys && q in keys ==> Before(p, q)
      invariant Inverted(remap, remap.Keys - keys, inverse)
      decreases keys
    {
      ghost var first := FirstKey(keys);
      var p :| p in keys && forall q :: q in keys ==> q == p || Before(p, q);
      InvertStep(remap, keys, inverse, p);
      keys := keys - {p};
      inverse := inverse[remap[p] := p];
    }
    InvertedAll(remap, inverse);
    assert inverse == Invert(remap);
    var t := WithRemap(sig.ret, inverse);
    res := if t.Some? then Accepted(t.value) else UnmappedReturn;
  }

  // ---------- When an instance is a substitution ----------

  /** No declared region is visible through two call-site names. */
  ghost predicate Consistent(ds: seq<Name>, rs: seq<Name>)
    requires |ds| == |rs|
  {
    forall i, j :: LastAt(rs, i) && LastAt(rs, j) && ds[i] == ds[j] ==> i == j
  }

  lemma DistinctIsConsistent(ds: seq<Name>, rs: seq<Name>)
    requires |ds| == |rs| && Distinct(ds)
    ensures Consistent(ds, rs)
  {
  }

  /** Replace each declared region by the call-site name through which it is visible. */
  ghost function Subst(t: Type, ds: seq<Name>, rs: seq<Name>): Type
    requires |ds| == |rs|
  {
    match t
    case IntT(_) => t
    case VoidT => t
    case ArrT(e, r) => ArrT(Subst(e, ds, rs), SubstName(r, ds, rs))
    case ClsT(c, r) => ClsT(c, SubstName(r, ds, rs))
  }

  ghost function SubstName(d: Name, ds: seq<Name>, rs: seq<Name>): Name
    requires |ds| == |rs|
  {
    if Visible(d, ds, rs) then
      var i :| LastAt(rs, i) && ds[i] == d;
      rs[i]
    else d
  }

  lemma SubstNameAt(ds: seq<Name>, rs: seq<Name>, i: nat)
    requires |ds| == |rs| && Consistent(ds, rs) && LastAt(rs, i)
    ensures SubstName(ds[i], ds, rs) == rs[i]
  {
  }

  lemma {:induction false} InstanceIsSubst(a: Type, p: Type, ds: seq<Name>, rs: seq<Name>)
    requires |ds| == |rs| && Consistent(ds, rs)
    ensures Instance(a, p, ds, rs) <==> (forall d :: d in Regions(p) ==> Visible(d, ds, rs)) && a == Subst(p, ds, rs)
  {
    match p
    case IntT(_) =>
    case VoidT =>
    case ArrT(e, d) =>
      if a.ArrT? {
        StandsIsSubst(a.region, d, ds, rs);
        InstanceIsSubst(a.elem, e, ds, rs);
      }
    case ClsT(_, d) =>
      if a.ClsT? { StandsIsSubst(a.region, d, ds, rs); }
  }

  lemma StandsIsSubst(r: Name, d: Name, ds: seq<Name>, rs: seq<Name>)
    requires |ds| == |rs| && Consistent(ds, rs)
    ensures Stands(r, d, ds, rs) <==> Visible(d, ds, rs) && r == SubstName(d, ds, rs)
  {
    if Visible(d, ds, rs) {
      var i :| LastAt(rs, i) && ds[i] == d;
      SubstNameAt(ds, rs, i);
    }
  }

  lemma ArgumentIsSubstitution(a: Type, p: Type, ds: seq<Name>, rs: seq<Name>)
    requires |ds| == |rs| > 0 && Consistent(ds, rs)
    ensures Equals(a, p, BuildRemap(rs, ds))
       <==> (forall d :: d in Regions(p) ==> Visible(d, ds, rs)) && a == Subst(p, ds, rs)
  {
    ArgumentIsInstance(a, p, ds, rs);
    InstanceIsSubst(a, p, ds, rs);
  }

  /** With a consistent call, acceptance is substitution: every compared argument is its
      parameter's substitution, and the result type is the return type's. */
  lemma CallIsSubstitution(handles: set<Name>, sig: FnSig, rs: seq<Name>, args: seq<Type>)
    requires |rs| == |sig.regions| ==> Consistent(sig.regions, rs)
    ensures CallType(handles, sig, rs, args).Accepted? <==>
            && rs != [] && rs[0] in handles && |rs| == |sig.regions|
            && (forall i, d :: 0 <= i < |args| && i < |sig.params| && d in Regions(sig.params[i])
                  ==> Visible(d, sig.regions, rs))
            && (forall i :: 0 <= i < |args| && i < |sig.params| ==> args[i] == Subst(sig.params[i], sig.regions, rs))
            && (forall d :: d in Regions(sig.ret) ==> Visible(d, sig.regions, rs))
    ensures CallType(handles, sig, rs, args).Accepted? ==>
            CallType(handles, sig, rs, args).ret == Subst(sig.ret, sig.regions, rs)
  {
    CallIsInstance(handles, sig, rs, args);
    var r := CallType(handles, sig, rs, args);
    if |rs| == |sig.regions| {
      forall i | 0 <= i < |args| && i < |sig.params|
        ensures Instance(args[i], sig.params[i], sig.regions, rs)
           <==> (forall d :: d in Regions(sig.params[i]) ==> Visible(d, sig.regions, rs))
                && args[i] == Subst(sig.params[i], sig.regions, rs)
      {
        InstanceIsSubst(args[i], sig.params[i], sig.regions, rs);
      }
      if r.Accepted? { InstanceIsSubst(r.ret, sig.ret, sig.regions, rs); }
    }
  }

  /** The exact condition: the check takes one argument type for one parameter type if and
      only if no declared region is visible through two call-site names.  A caller can test it
      on the two name lists; distinct declared names are enough. */
  lemma CheckIsSoundIffConsistent(ds: seq<Name>, rs: seq<Name>)
    requires |ds| == |rs| > 0
    ensures Consistent(ds, rs) <==>
            forall a, b, p :: Equals(a, p, BuildRemap(rs, ds)) && Equals(b, p, BuildRemap(rs, ds)) ==> a == b
  {
    var m := BuildRemap(rs, ds);
    if Consistent(ds, rs) {
      forall a, b, p | Equals(a, p, m) && Equals(b, p, m)
        ensures a == b
      {
        ArgumentIsSubstitution(a, p, ds, rs);
        ArgumentIsSubstitution(b, p, ds, rs);
      }
    } else {
      var i, j :| LastAt(rs, i) && LastAt(rs, j) && ds[i] == ds[j] && i != j;
      var a, b, p := ArrT(IntT(64), rs[i]), ArrT(IntT(64), rs[j]), ArrT(IntT(64), ds[i]);
      assert Stands(rs[i], ds[i], ds, rs) && Stands(rs[j], ds[i], ds, rs);
      ArgumentIsInstance(a, p, ds, rs);
      ArgumentIsInstance(b, p, ds, rs);
      assert Equals(a, p, m) && Equals(b, p, m) && a != b;
    }
  }

  /** With distinct names on both sides nothing is hidden, and acceptance is substitution with
      no side condition. */
  lemma DistinctCallIsSubstitution(handles: set<Name>, sig: FnSig, rs: seq<Name>, args: seq<Type>)
    requires Distinct(sig.regions) && Distinct(rs)
    requires forall i :: 0 <= i < |sig.params| ==> Regions(sig.params[i]) <= (set d | d in sig.regions)
    requires Regions(sig.ret) <= (set d | d in sig.regions)
    ensures CallType(handles, sig, rs, args).Accepted? <==>
            && rs != [] && rs[0] in handles && |rs| == |sig.regions|
            && forall i :: 0 <= i < |args| && i < |sig.params| ==> args[i] == Subst(sig.params[i], sig.regions, rs)
    ensures CallType(handles, sig, rs, args).Accepted? ==>
            CallType(handles, sig, rs, args).ret == Subst(sig.ret, sig.regions, rs)
  {
    if |rs| == |sig.regions| {
      DistinctIsConsistent(sig.regions, rs);
      forall d | d in sig.regions
        ensures Visible(d, sig.regions, rs)
      {
        var i :| 0 <= i < |rs| && sig.regions[i] == d;
        assert LastAt(rs, i);
      }
    }
    CallIsSubstitution(handles, sig, rs, args);
  }

  /** Renaming to declared names and back is the identity, and so is the other way round. */
  lemma {:induction false} RemapRoundTrip(t: Type, m: Remap)
    requires Injective(m)
    ensures Regions(t) <= m.Keys ==>
              WithRemap(t, m).Some? && WithRemap(WithRemap(t, m).value, Invert(m)) == Some(t)
    ensures Regions(t) <= Invert(m).Keys ==>
              WithRemap(t, Invert(m)).Some? && WithRemap(WithRemap(t, Invert(m)).value, m) == Some(t)
  {
    InvertInjective(m);
    match t
    case IntT(_) =>
    case VoidT =>
    case ArrT(e, _) => RemapRoundTrip(e, m);
    case ClsT(_, _) =>
  }

  /** A call the code accepts although its arguments live in two regions and its parameters in
      one: the region is declared twice. */
  lemma RepeatedDeclarationUnsound()
    ensures var sig := FnSig(["A", "A"], [ArrT(IntT(64), "A"), ArrT(IntT(64), "A")], VoidT);
            var rs, args := ["X", "Y"], [ArrT(IntT(64), "X"), ArrT(IntT(64), "Y")];
            CallType({"X"}, sig, rs, args) == Accepted(VoidT) && !Consistent(sig.regions, rs)
  {
    var sig := FnSig(["A", "A"], [ArrT(IntT(64), "A"), ArrT(IntT(64), "A")], VoidT);
    var rs, args := ["X", "Y"], [ArrT(IntT(64), "X"), ArrT(IntT(64), "Y")];
    assert LastAt(rs, 0) && LastAt(rs, 1);
    assert Stands("X", "A", sig.regions, rs) && Stands("Y", "A", sig.regions, rs);
    CallIsInstance({"X"}, sig, rs, args);
  }
}
