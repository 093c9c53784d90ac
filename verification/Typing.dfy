/** What the checker accepts, said by rules: what each construct asks of its parts.

    The rules name no renaming map and no order of checks; a call is typed by instances of the
    declared types. */
module Typing {
  import opened Basics
  import opened RegionTypes
  import opened Lang
  import opened Checker

  // ---------- Expressions ----------

  /** The last function of that name before function `k`. */
  ghost predicate Calls(p: Program, k: nat, f: Name, j: int)
    requires k <= |p.fns|
  {
    0 <= j < k && p.fns[j].name == f && forall i :: j < i < k ==> p.fns[i].name != f
  }

  /** The regions that a call passes: those it names, or the innermost one. */
  ghost predicate Passes(cx: Cx, rs: seq<Name>, passed: seq<Name>)
    requires cx.handles != []
  {
    && (rs != [] ==> passed == rs)
    && (rs == [] ==> passed == [cx.handles[|cx.handles| - 1]])
  }

  /** `e` has type `t`. */
  ghost predicate HasType(p: Program, k: nat, cx: Cx, e: Expr, t: Type)
    requires k <= |p.fns| && CxShape(cx)
    decreases e, 1
  {
    match e
    case Num(_) => t == IntT(64)
    case Get(x) => Find(cx.tags, x).Some? && cx.types[Find(cx.tags, x).value] == t
    case Bin(_, l, r) => t.IntT? && HasType(p, k, cx, l, t) && exists b :: HasType(p, k, cx, r, IntT(b))
    case Lit(es) =>
      && es != [] && t.ArrT? && t.region == cx.handles[|cx.handles| - 1]
      && forall a :: a in es ==> HasType(p, k, cx, a, t.elem)
    case Fill(v, n) =>
      && t.ArrT? && t.region == cx.handles[|cx.handles| - 1]
      && HasType(p, k, cx, v, t.elem) && exists b :: HasType(p, k, cx, n, IntT(b))
    case Elem(a, i) => (exists r :: HasType(p, k, cx, a, ArrT(t, r))) && exists b :: HasType(p, k, cx, i, IntT(b))
    case Length(a) => t == IntT(64) && exists u, r :: HasType(p, k, cx, a, ArrT(u, r))
    case Field(o, f) => t == IntT(64) && exists c, r :: HasType(p, k, cx, o, ClsT(c, r)) && c in p.classes && f in p.classes[c]
    case New(c, rs) => c in p.classes && exists r :: t == ClsT(c, r) && r in cx.handles && Passes(cx, rs, [r])
    case Call(f, rs, args) =>
      && Find(cx.tags, f).None?
      && exists j, passed :: Calls(p, k, f, j) && Passes(cx, rs, passed) && CallHasType(p, k, cx, e, p.fns[j], passed, t)
  }

  /** A call of `fn`: the first region passed has a handle, there are as many regions as declared,
      each argument is an instance of its parameter, and `t` is the return type as the caller
      knows it. */
  ghost predicate CallHasType(p: Program, k: nat, cx: Cx, e: Expr, fn: Fn, passed: seq<Name>, t: Type)
    requires k <= |p.fns| && CxShape(cx) && e.Call?
    decreases e, 0
  {
    && |passed| == |fn.regions| > 0 && passed[0] in cx.handles && |e.args| == |fn.params|
    && (forall i :: 0 <= i < |e.args| ==> Fits(p, k, cx, e.args[i], fn.params[i].1, fn.regions, passed))
    && Renamed(t, fn.ret, fn.regions, passed)
  }

  /** The type of an argument is an instance of its parameter. */
  ghost predicate Fits(p: Program, k: nat, cx: Cx, e: Expr, param: Type, ds: seq<Name>, rs: seq<Name>)
    requires k <= |p.fns| && CxShape(cx) && |ds| == |rs|
    decreases e, 2
  {
    exists a :: HasType(p, k, cx, e, a) && Instance(a, param, ds, rs)
  }

  /** The checker computes a type if and only if the rules give it. */
  lemma {:induction false} TypeOfIsExact(p: Program, k: nat, cx: Cx, e: Expr, t: Type)
    requires k <= |p.fns| && CxShape(cx)
    ensures TypeOf(p, k, cx, e) == Some(t) <==> HasType(p, k, cx, e, t)
    decreases e, 3
  {
    match e
    case Num(_) =>
    case Get(_) =>
    case Bin(_, l, r) => TypeOfIsExact(p, k, cx, l, t); IntTyped(p, k, cx, e, r);
    case Lit(_) => LitIsExact(p, k, cx, e, t);
    case Fill(v, n) =>
      if t.ArrT? { TypeOfIsExact(p, k, cx, v, t.elem); }
      IntTyped(p, k, cx, e, n);
    case Elem(a, i) => ArrTyped(p, k, cx, e, a); IntTyped(p, k, cx, e, i);
    case Length(a) => ArrTyped(p, k, cx, e, a);
    case Field(o, _) => ClsTyped(p, k, cx, e, o);
    case New(_, _) => NewIsExact(p, k, cx, e, t);
    case Call(_, _, _) => CallIsExact(p, k, cx, e, t);
  }

  lemma IntTyped(p: Program, k: nat, cx: Cx, e: Expr, a: Expr)
    requires k <= |p.fns| && CxShape(cx) && a < e
    ensures (exists b :: HasType(p, k, cx, a, IntT(b))) <==> TypeOf(p, k, cx, a).Some? && TypeOf(p, k, cx, a).value.IntT?
    decreases e, 1
  {
    hide TypeOf, HasType;
    forall b ensures TypeOf(p, k, cx, a) == Some(IntT(b)) <==> HasType(p, k, cx, a, IntT(b)) { TypeOfIsExact(p, k, cx, a, IntT(b)); }
    var r := TypeOf(p, k, cx, a);
    if r.Some? && r.value.IntT? { assert HasType(p, k, cx, a, IntT(r.value.bits)); }
  }

  lemma ArrTyped(p: Program, k: nat, cx: Cx, e: Expr, a: Expr)
    requires k <= |p.fns| && CxShape(cx) && a < e
    ensures forall u, r :: HasType(p, k, cx, a, ArrT(u, r)) <==> TypeOf(p, k, cx, a) == Some(ArrT(u, r))
    decreases e, 1
  {
    hide TypeOf, HasType;
    forall u, r ensures HasType(p, k, cx, a, ArrT(u, r)) <==> TypeOf(p, k, cx, a) == Some(ArrT(u, r)) {
      TypeOfIsExact(p, k, cx, a, ArrT(u, r));
    }
  }

  lemma ClsTyped(p: Program, k: nat, cx: Cx, e: Expr, a: Expr)
    requires k <= |p.fns| && CxShape(cx) && a < e
    ensures forall c, r :: HasType(p, k, cx, a, ClsT(c, r)) <==> TypeOf(p, k, cx, a) == Some(ClsT(c, r))
    decreases e, 1
  {
    hide TypeOf, HasType;
    forall c, r ensures HasType(p, k, cx, a, ClsT(c, r)) <==> TypeOf(p, k, cx, a) == Some(ClsT(c, r)) {
      TypeOfIsExact(p, k, cx, a, ClsT(c, r));
    }
  }

  /** The types of a list are the types of its elements. */
  lemma {:induction false} ListIsExact(p: Program, k: nat, cx: Cx, es: seq<Expr>, ts: seq<Type>)
    requires k <= |p.fns| && CxShape(cx)
    ensures TypesOf(p, k, cx, es) == Some(ts) <==>
            |ts| == |es| && forall i :: 0 <= i < |es| ==> HasType(p, k, cx, es[i], ts[i])
    decreases es
  {
    hide TypeOf, HasType;
    if es == [] {
      assert |ts| == 0 ==> ts == [];
    } else if ts != [] {
      TypeOfIsExact(p, k, cx, es[0], ts[0]);
      ListIsExact(p, k, cx, es[1..], ts[1..]);
      assert ts == [ts[0]] + ts[1..];
      if |ts| == |es| && forall i :: 0 <= i < |es| ==> HasType(p, k, cx, es[i], ts[i]) {
        forall i | 0 <= i < |es| - 1 ensures HasType(p, k, cx, es[1..][i], ts[1..][i]) { assert HasType(p, k, cx, es[i + 1], ts[i + 1]); }
      }
      if TypesOf(p, k, cx, es) == Some(ts) {
        var rest := TypesOf(p, k, cx, es[1..]).value;
        assert ([TypeOf(p, k, cx, es[0]).value] + rest)[1..] == rest;
        forall i | 0 <= i < |es| ensures HasType(p, k, cx, es[i], ts[i]) {
          if i > 0 { assert HasType(p, k, cx, es[1..][i - 1], ts[1..][i - 1]); }
        }
      }
    }
  }

  /** A list is rejected exactly if one of its elements is. */
  lemma {:induction false} ListTyped(p: Program, k: nat, cx: Cx, es: seq<Expr>)
    requires k <= |p.fns| && CxShape(cx)
    ensures TypesOf(p, k, cx, es).Some? <==> forall a :: a in es ==> TypeOf(p, k, cx, a).Some?
  {
    hide TypeOf;
    if es != [] {
      ListTyped(p, k, cx, es[1..]);
      assert es == [es[0]] + es[1..];
      if forall a :: a in es ==> TypeOf(p, k, cx, a).Some? {
        assert TypeOf(p, k, cx, es[0]).Some?;
        forall a | a in es[1..] ensures TypeOf(p, k, cx, a).Some? { assert a in es; }
      }
      if TypesOf(p, k, cx, es).Some? {
        forall a | a in es ensures TypeOf(p, k, cx, a).Some? { assert a == es[0] || a in es[1..]; }
      }
    }
  }

  lemma LitIsExact(p: Program, k: nat, cx: Cx, e: Expr, t: Type)
    requires k <= |p.fns| && CxShape(cx) && e.Lit?
    ensures TypeOf(p, k, cx, e) == Some(t) <==> HasType(p, k, cx, e, t)
    decreases e, 1
  {
    if t.ArrT? && e.es != [] {
      var all := seq(|e.es|, _ => t.elem);
      ListIsExact(p, k, cx, e.es, all);
      var r := TypesOf(p, k, cx, e.es);
      if TypeOf(p, k, cx, e) == Some(t) {
        forall i | 0 <= i < |r.value| ensures r.value[i] == all[i] { assert r.value[i] in r.value; }
        assert r.value == all;
      }
      if r == Some(all) {
        assert all[0] == t.elem;
        forall a | a in e.es ensures HasType(p, k, cx, a, t.elem) {
          var i :| 0 <= i < |e.es| && e.es[i] == a;
          assert HasType(p, k, cx, e.es[i], all[i]);
        }
      }
      if forall a :: a in e.es ==> HasType(p, k, cx, a, t.elem) {
        forall i | 0 <= i < |e.es| ensures HasType(p, k, cx, e.es[i], all[i]) { assert e.es[i] in e.es; }
      }
    }
  }

  /** A class is instantiated in one region that has a handle. */
  lemma NewIsExact(p: Program, k: nat, cx: Cx, e: Expr, t: Type)
    requires k <= |p.fns| && CxShape(cx) && e.New?
    ensures TypeOf(p, k, cx, e) == Some(t) <==> HasType(p, k, cx, e, t)
    decreases e, 1
  {
    hide Invert, BuildRemap, InstancesTo, FirstMismatch;
    var sig, passed := NewSignature(e.cls), CallRegions(e.regions, Checker.Default(cx));
    assert Passes(cx, e.regions, passed);
    AnswerIsExact(HandleSet(cx), sig, passed, [], Accepted(t));
    assert |passed| == 1 ==> InstancesTo(sig, passed, [], 0) by { NoArguments(sig, passed); }
    if |passed| == 1 { OnlyRegion(passed[0], t, e.cls); assert passed == [passed[0]]; }
  }

  lemma NoArguments(sig: FnSig, rs: seq<Name>)
    ensures |rs| == |sig.regions| ==> InstancesTo(sig, rs, [], 0)
  {
  }

  lemma OnlyRegion(r: Name, t: Type, c: Name)
    ensures Renamed(t, ClsT(c, "fn_default"), ["fn_default"], [r]) <==> t == ClsT(c, r)
  {
    assert LastAt([r], 0);
    assert Stands(r, "fn_default", ["fn_default"], [r]);
    forall q | Stands(q, "fn_default", ["fn_default"], [r]) ensures q == r {
      var i :| LastAt([r], i) && [r][i] == q && ["fn_default"][i] == "fn_default";
      assert i == 0;
    }
    assert Names(r, "fn_default", ["fn_default"], [r]);
  }

  lemma {:induction false} FindsCalled(p: Program, k: nat, f: Name)
    requires k <= |p.fns|
    ensures forall j :: Calls(p, k, f, j) <==> FindFn(p, k, f) == Some(j)
  {
    if k > 0 && p.fns[k - 1].name != f { FindsCalled(p, k - 1, f); }
  }

  lemma CallIsExact(p: Program, k: nat, cx: Cx, e: Expr, t: Type)
    requires k <= |p.fns| && CxShape(cx) && e.Call?
    ensures TypeOf(p, k, cx, e) == Some(t) <==> HasType(p, k, cx, e, t)
    decreases e, 1
  {
    hide CallType, CallHasType, Find, FindFn;
    FindsCalled(p, k, e.fn);
    var passed := CallRegions(e.regions, Checker.Default(cx));
    assert Passes(cx, e.regions, passed);
    assert forall q :: Passes(cx, e.regions, q) ==> q == passed;
    var j := FindFn(p, k, e.fn);
    if j.Some? {
      assert Calls(p, k, e.fn, j.value);
      CallAccepted(p, k, cx, e, p.fns[j.value], passed, t);
    }
  }

  /** Acceptance of a call: its argument types, and the code's answer on them. */
  lemma CallAccepted(p: Program, k: nat, cx: Cx, e: Expr, fn: Fn, passed: seq<Name>, t: Type)
    requires k <= |p.fns| && CxShape(cx) && e.Call? && passed != []
    ensures CallHasType(p, k, cx, e, fn, passed, t) <==>
            var ts := TypesOf(p, k, cx, e.args);
            && ts.Some? && |e.args| == |fn.params|
            && CallType(HandleSet(cx), Signature(fn), passed, ts.value) == Accepted(t)
    decreases e, 0
  {
    hide CallType, TypeOf, HasType, Renamed;
    var sig, ts := Signature(fn), TypesOf(p, k, cx, e.args);
    ListTyped(p, k, cx, e.args);
    if ts.Some? && |e.args| == |fn.params| && |passed| == |fn.regions| {
      ListIsExact(p, k, cx, e.args, ts.value);
      AnswerIsExact(HandleSet(cx), sig, passed, ts.value, Accepted(t));
      forall i | 0 <= i < |e.args|
        ensures Instance(ts.value[i], sig.params[i], fn.regions, passed) <==>
                Fits(p, k, cx, e.args[i], fn.params[i].1, fn.regions, passed)
      {
        OneType(p, k, cx, e.args[i], ts.value[i]);
      }
      assert InstancesTo(sig, passed, ts.value, |ts.value|) <==>
             forall i :: 0 <= i < |e.args| ==> Instance(ts.value[i], sig.params[i], fn.regions, passed);
    } else if |e.args| == |fn.params| && |passed| == |fn.regions| {
      var a :| a in e.args && TypeOf(p, k, cx, a).None?;
      var i :| 0 <= i < |e.args| && e.args[i] == a;
      forall u ensures !HasType(p, k, cx, a, u) { TypeOfIsExact(p, k, cx, a, u); }
      assert !Fits(p, k, cx, e.args[i], fn.params[i].1, fn.regions, passed);
    } else {
      if ts.Some? { AnswerIsExact(HandleSet(cx), sig, passed, ts.value, Accepted(t)); }
    }
  }

  lemma OneType(p: Program, k: nat, cx: Cx, a: Expr, t: Type)
    requires k <= |p.fns| && CxShape(cx) && HasType(p, k, cx, a, t)
    ensures forall u :: HasType(p, k, cx, a, u) ==> u == t
    decreases a, 4
  {
    hide HasType, TypeOf;
    TypeOfIsExact(p, k, cx, a, t);
    forall u | HasType(p, k, cx, a, u) ensures u == t { TypeOfIsExact(p, k, cx, a, u); }
  }

  /** An expression has at most one type. */
  lemma TypesAreUnique(p: Program, k: nat, cx: Cx, e: Expr, t: Type, u: Type)
    requires k <= |p.fns| && CxShape(cx) && HasType(p, k, cx, e, t) && HasType(p, k, cx, e, u)
    ensures t == u
  {
    TypeOfIsExact(p, k, cx, e, t);
    TypeOfIsExact(p, k, cx, e, u);
  }

  // ---------- Statements ----------

  /** A target that can be stored to. */
  ghost predicate HasAddress(cx: Cx, t: Expr) {
    || (t.Get? && Find(cx.tags, t.x).Some? && cx.tags[Find(cx.tags, t.x).value].isVar)
    || t.Elem? || t.Field?
  }

  /** `s` is accepted, and the names it declares have the types `ts`. */
  ghost predicate Accepts(p: Program, k: nat, cx: Cx, s: Stmt, ts: seq<Type>)
    requires k <= |p.fns| && CxShape(cx)
    decreases s, 0
  {
    |ts| == |Declared(s, cx.depth)| &&
    match s
    case Skip => true
    case Seq(a, b) =>
      var n := |Declared(a, cx.depth)|;
      Accepts(p, k, cx, a, ts[..n]) && Accepts(p, k, CxAfter(cx, a, ts[..n]), b, ts[n..])
    case Var(_, e) => HasType(p, k, cx, e, ts[0])
    case Let(_, e) => HasType(p, k, cx, e, ts[0])
    case Assign(t, e) => HasAddress(cx, t) && exists u :: HasType(p, k, cx, t, u) && HasType(p, k, cx, e, u)
    case Do(e) => exists u :: HasType(p, k, cx, e, u)
    case If(c, a, b) =>
      var n := |Declared(a, cx.depth)|;
      && (exists w :: HasType(p, k, cx, c, IntT(w)))
      && Accepts(p, k, cx, a, ts[..n]) && Accepts(p, k, CxAfter(cx, a, ts[..n]), b, ts[n..])
    case While(c, body) =>
      (exists w :: HasType(p, k, cx, c, IntT(w))) && AcceptsSome(p, k, InnerCx(cx), body)
    case For(x, lo, hi, body) =>
      && HasType(p, k, cx, lo, IntT(64)) && HasType(p, k, cx, hi, IntT(64)) && ts == [IntT(64)]
      && AcceptsSome(p, k, InnerCx(CxAfter(cx, s, ts)), body)
    case On(name, body) =>
      && (cx.strict ==> forall t :: t in cx.types ==> name !in Regions(t))
      && AcceptsSome(p, k, InnerCx(cx).(handles := cx.handles + [name]), body)
  }

  ghost predicate AcceptsSome(p: Program, k: nat, cx: Cx, s: Stmt)
    requires k <= |p.fns| && CxShape(cx)
    decreases s, 1
  {
    exists ts :: Accepts(p, k, cx, s, ts)
  }

  /** The checker accepts a statement with these types if and only if the rules do. */
  lemma {:induction false} CheckIsExact(p: Program, k: nat, cx: Cx, s: Stmt, ts: seq<Type>)
    requires k <= |p.fns| && CxShape(cx)
    ensures CheckStmt(p, k, cx, s) == Some(ts) <==> Accepts(p, k, cx, s, ts)
    decreases s, 2
  {
    hide TypeOf, HasType, Find;
    assert |ts| == 0 ==> ts == [];
    match s
    case Skip =>
    case Seq(_, _) => TwoAreExact(p, k, cx, s, s.s1, s.s2, ts);
    case Var(_, e) => if |ts| == 1 { TypeOfIsExact(p, k, cx, e, ts[0]); assert ts == [ts[0]]; }
    case Let(_, e) => if |ts| == 1 { TypeOfIsExact(p, k, cx, e, ts[0]); assert ts == [ts[0]]; }
    case Assign(t, e) =>
      forall u ensures TypeOf(p, k, cx, t) == Some(u) <==> HasType(p, k, cx, t, u) { TypeOfIsExact(p, k, cx, t, u); }
      forall u ensures TypeOf(p, k, cx, e) == Some(u) <==> HasType(p, k, cx, e, u) { TypeOfIsExact(p, k, cx, e, u); }
      forall a, b ensures Equals(a, b, map[]) <==> a == b { EqualsIsSame(a, b); }
    case Do(e) =>
      forall u ensures TypeOf(p, k, cx, e) == Some(u) <==> HasType(p, k, cx, e, u) { TypeOfIsExact(p, k, cx, e, u); }
    case If(c, a, b) => IntTyped(p, k, cx, Bin(Add, c, c), c); TwoAreExact(p, k, cx, s, a, b, ts);
    case While(c, body) => IntTyped(p, k, cx, Bin(Add, c, c), c); BodyIsExact(p, k, InnerCx(cx), s, body);
    case For(_, _, _, _) => ForIsExact(p, k, cx, s, ts);
    case On(name, body) => BodyIsExact(p, k, InnerCx(cx).(handles := cx.handles + [name]), s, body);
  }

  lemma {:induction false} EqualsIsSame(a: Type, b: Type)
    ensures Equals(a, b, map[]) <==> a == b
  {
    match a
    case ArrT(e, _) => if b.ArrT? { EqualsIsSame(e, b.elem); }
    case _ =>
  }

  lemma ForIsExact(p: Program, k: nat, cx: Cx, s: Stmt, ts: seq<Type>)
    requires k <= |p.fns| && CxShape(cx) && s.For?
    ensures CheckStmt(p, k, cx, s) == Some(ts) <==> Accepts(p, k, cx, s, ts)
    decreases s, 1
  {
    hide TypeOf, HasType, Find;
    TypeOfIsExact(p, k, cx, s.lo, IntT(64));
    TypeOfIsExact(p, k, cx, s.hi, IntT(64));
    var cx1 := CxAfter(cx, s, [IntT(64)]);
    assert cx1 == cx.(tags := cx.tags + [Tag(s.x, false, cx.depth)], types := cx.types + [IntT(64)]);
    BodyIsExact(p, k, InnerCx(cx1), s, s.body);
  }

  /** Two statements in a row, or the arms of an `if`: the types of the first, then of the second. */
  ghost predicate CheckTwo(p: Program, k: nat, cx: Cx, a: Stmt, b: Stmt, ts: seq<Type>)
    requires k <= |p.fns| && CxShape(cx)
  {
    var us := CheckStmt(p, k, cx, a);
    us.Some? && var vs := CheckStmt(p, k, CxAfter(cx, a, us.value), b); vs.Some? && ts == us.value + vs.value
  }

  ghost predicate AcceptsTwo(p: Program, k: nat, cx: Cx, a: Stmt, b: Stmt, ts: seq<Type>)
    requires k <= |p.fns| && CxShape(cx)
  {
    var n := |Declared(a, cx.depth)|;
    && |ts| == n + |Declared(b, cx.depth)|
    && Accepts(p, k, cx, a, ts[..n]) && Accepts(p, k, CxAfter(cx, a, ts[..n]), b, ts[n..])
  }

  lemma TwoAreExact(p: Program, k: nat, cx: Cx, s: Stmt, a: Stmt, b: Stmt, ts: seq<Type>)
    requires k <= |p.fns| && CxShape(cx) && a < s && b < s
    ensures CheckTwo(p, k, cx, a, b, ts) <==> AcceptsTwo(p, k, cx, a, b, ts)
    decreases s, 1
  {
    if CheckTwo(p, k, cx, a, b, ts) { CheckedTwo(p, k, cx, s, a, b, ts); }
    if AcceptsTwo(p, k, cx, a, b, ts) { AcceptedTwo(p, k, cx, s, a, b, ts); }
  }

  lemma CheckedTwo(p: Program, k: nat, cx: Cx, s: Stmt, a: Stmt, b: Stmt, ts: seq<Type>)
    requires k <= |p.fns| && CxShape(cx) && a < s && b < s && CheckTwo(p, k, cx, a, b, ts)
    ensures AcceptsTwo(p, k, cx, a, b, ts)
    decreases s, 0
  {
    hide CheckStmt, Accepts;
    var us, n := CheckStmt(p, k, cx, a).value, |Declared(a, cx.depth)|;
    var vs := CheckStmt(p, k, CxAfter(cx, a, us), b).value;
    assert ts[..n] == us && ts[n..] == vs;
    CheckIsExact(p, k, cx, a, us);
    CheckIsExact(p, k, CxAfter(cx, a, us), b, vs);
  }

  lemma AcceptedTwo(p: Program, k: nat, cx: Cx, s: Stmt, a: Stmt, b: Stmt, ts: seq<Type>)
    requires k <= |p.fns| && CxShape(cx) && a < s && b < s && AcceptsTwo(p, k, cx, a, b, ts)
    ensures CheckTwo(p, k, cx, a, b, ts)
    decreases s, 0
  {
    hide CheckStmt, Accepts;
    var n := |Declared(a, cx.depth)|;
    CheckIsExact(p, k, cx, a, ts[..n]);
    CheckIsExact(p, k, CxAfter(cx, a, ts[..n]), b, ts[n..]);
    assert ts == ts[..n] + ts[n..];
  }

  lemma BodyIsExact(p: Program, k: nat, cx: Cx, s: Stmt, body: Stmt)
    requires k <= |p.fns| && CxShape(cx) && body < s
    ensures CheckStmt(p, k, cx, body).Some? <==> AcceptsSome(p, k, cx, body)
    decreases s, 0
  {
    hide CheckStmt, Accepts;
    forall us ensures CheckStmt(p, k, cx, body) == Some(us) <==> Accepts(p, k, cx, body, us) { CheckIsExact(p, k, cx, body, us); }
    if CheckStmt(p, k, cx, body).Some? { assert Accepts(p, k, cx, body, CheckStmt(p, k, cx, body).value); }
  }

  // ---------- Programs ----------

  /** A function: its body is accepted, and its result has the declared type up to the width of an
      integer; without a result it is declared to return nothing. */
  ghost predicate AcceptsFn(p: Program, k: nat, strict: bool)
    requires k < |p.fns|
  {
    var fn := p.fns[k];
    && fn.regions != [] && (strict ==> Distinct(fn.regions))
    && exists ts :: Accepts(p, k, FnCx(fn, strict), fn.body, ts)
         && if fn.result.None? then fn.ret == VoidT
            else exists t :: HasType(p, k, CxAfter(FnCx(fn, strict), fn.body, ts), fn.result.value, t)
                             && (t == fn.ret || (t.IntT? && fn.ret.IntT?))
  }

  lemma FnIsExact(p: Program, k: nat, strict: bool)
    requires k < |p.fns|
    ensures FnOk(p, k, strict) <==> AcceptsFn(p, k, strict)
  {
    hide CheckStmt, Accepts, TypeOf, HasType;
    var fn := p.fns[k];
    if fn.regions != [] {
      var cx := FnCx(fn, strict);
      forall ts ensures CheckStmt(p, k, cx, fn.body) == Some(ts) <==> Accepts(p, k, cx, fn.body, ts) { CheckIsExact(p, k, cx, fn.body, ts); }
      if CheckStmt(p, k, cx, fn.body).Some? {
        var ts := CheckStmt(p, k, cx, fn.body).value;
        assert Accepts(p, k, cx, fn.body, ts);
        if fn.result.Some? {
          var cx1, e := CxAfter(cx, fn.body, ts), fn.result.value;
          forall t ensures TypeOf(p, k, cx1, e) == Some(t) <==> HasType(p, k, cx1, e, t) { TypeOfIsExact(p, k, cx1, e, t); }
        }
      }
    }
  }

  /** The checker accepts exactly the programs that the rules accept. */
  lemma ProgramIsExact(p: Program, strict: bool)
    ensures ProgramOk(p, strict) <==> forall k :: 0 <= k < |p.fns| ==> AcceptsFn(p, k, strict)
  {
    hide FnOk, AcceptsFn;
    forall k | 0 <= k < |p.fns| ensures FnOk(p, k, strict) <==> AcceptsFn(p, k, strict) { FnIsExact(p, k, strict); }
  }
}
