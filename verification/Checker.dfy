/** The compile-time checks on types and regions, as made while code is generated. */
module Checker {
  import opened Basics
  import opened RegionTypes
  import opened Lang

  /** The names in scope with their types, and the regions with a handle, innermost last.
      `strict` asks for two things that the code leaves to the programmer: `on` names are new to
      the types in scope, and a function's declared region names are distinct. */
  datatype Cx = Cx(tags: seq<Tag>, types: seq<Type>, depth: nat, handles: seq<Name>, strict: bool)

  ghost predicate CxShape(cx: Cx) {
    |cx.tags| == |cx.types| && cx.handles != []
  }

  function Default(cx: Cx): Name
    requires cx.handles != []
  {
    cx.handles[|cx.handles| - 1]
  }

  function HandleSet(cx: Cx): set<Name> { set h | h in cx.handles }

  function Signature(fn: Fn): FnSig {
    FnSig(fn.regions, seq(|fn.params|, i requires 0 <= i < |fn.params| => fn.params[i].1), fn.ret)
  }

  /** A class name is called like a function with one region and no arguments. */
  function NewSignature(cls: Name): FnSig { FnSig(["fn_default"], [], ClsT(cls, "fn_default")) }

  /** The type of an expression, or `None` if it is rejected. */
  ghost function TypeOf(p: Program, k: nat, cx: Cx, e: Expr): Option<Type>
    requires k <= |p.fns| && CxShape(cx)
    decreases e
  {
    match e
    case Num(_) => Some(IntT(64))
    case Get(x) =>
      var i := Find(cx.tags, x);
      if i.Some? then Some(cx.types[i.value]) else None
    case Bin(_, l, r) =>
      var a, b := TypeOf(p, k, cx, l), TypeOf(p, k, cx, r);
      if a.Some? && b.Some? && a.value.IntT? && b.value.IntT? then a else None
    case Lit(es) =>
      var ts := TypesOf(p, k, cx, es);
      if ts.Some? && es != [] && (forall t :: t in ts.value ==> t == ts.value[0])
      then Some(ArrT(ts.value[0], Default(cx))) else None
    case Fill(v, n) =>
      var a, b := TypeOf(p, k, cx, v), TypeOf(p, k, cx, n);
      if a.Some? && b.Some? && b.value.IntT? then Some(ArrT(a.value, Default(cx))) else None
    case Elem(a, i) =>
      var s, t := TypeOf(p, k, cx, a), TypeOf(p, k, cx, i);
      if s.Some? && t.Some? && s.value.ArrT? && t.value.IntT? then Some(s.value.elem) else None
    case Length(a) =>
      var s := TypeOf(p, k, cx, a);
      if s.Some? && s.value.ArrT? then Some(IntT(64)) else None
    case Field(o, f) =>
      var s := TypeOf(p, k, cx, o);
      if s.Some? && s.value.ClsT? && s.value.cls in p.classes && f in p.classes[s.value.cls]
      then Some(IntT(64)) else None
    case New(c, rs) =>
      if c !in p.classes then None
      else
        var r := CallType(HandleSet(cx), NewSignature(c), CallRegions(rs, Default(cx)), []);
        if r.Accepted? then Some(r.ret) else None
    case Call(f, rs, args) =>
      var ts := TypesOf(p, k, cx, args);
      var j := FindFn(p, k, f);
      if ts.None? || j.None? || Find(cx.tags, f).Some? then None
      else
        var sig := Signature(p.fns[j.value]);
        var r := CallType(HandleSet(cx), sig, CallRegions(rs, Default(cx)), ts.value);
        if r.Accepted? && |args| == |sig.params| then Some(r.ret) else None
  }

  ghost function TypesOf(p: Program, k: nat, cx: Cx, es: seq<Expr>): (r: Option<seq<Type>>)
    requires k <= |p.fns| && CxShape(cx)
    ensures r.Some? ==> |r.value| == |es|
    decreases es
  {
    if es == [] then Some([])
    else
      var t := TypeOf(p, k, cx, es[0]);
      var ts := TypesOf(p, k, cx, es[1..]);
      if t.Some? && ts.Some? then Some([t.value] + ts.value) else None
  }

  function InnerCx(cx: Cx): Cx { cx.(depth := cx.depth + 1) }

  function CxAfter(cx: Cx, s: Stmt, ts: seq<Type>): Cx {
    cx.(tags := cx.tags + Declared(s, cx.depth), types := cx.types + ts)
  }

  /** A new `on` name: no type in scope names it. */
  ghost predicate FreshRegion(cx: Cx, name: Name) {
    forall t :: t in cx.types ==> name !in Regions(t)
  }

  /** The types of the names a statement declares, or `None` if it is rejected. */
  ghost function CheckStmt(p: Program, k: nat, cx: Cx, s: Stmt): (r: Option<seq<Type>>)
    requires k <= |p.fns| && CxShape(cx)
    ensures r.Some? ==> |r.value| == |Declared(s, cx.depth)|
    decreases s
  {
    match s
    case Skip => Some([])
    case Seq(a, b) =>
      var ts := CheckStmt(p, k, cx, a);
      if ts.None? then None
      else
        var us := CheckStmt(p, k, CxAfter(cx, a, ts.value), b);
        if us.None? then None else Some(ts.value + us.value)
    case Var(_, e) =>
      var t := TypeOf(p, k, cx, e);
      if t.Some? then Some([t.value]) else None
    case Let(_, e) =>
      var t := TypeOf(p, k, cx, e);
      if t.Some? then Some([t.value]) else None
    case Assign(t, e) =>
      var a, b := TypeOf(p, k, cx, t), TypeOf(p, k, cx, e);
      if a.Some? && b.Some? && Assignable(cx, t) && Equals(a.value, b.value, map[]) then Some([]) else None
    case Do(e) => if TypeOf(p, k, cx, e).Some? then Some([]) else None
    case If(c, a, b) =>
      var t := TypeOf(p, k, cx, c);
      var ts := CheckStmt(p, k, cx, a);
      if t.None? || !t.value.IntT? || ts.None? then None
      else
        var us := CheckStmt(p, k, CxAfter(cx, a, ts.value), b);
        if us.None? then None else Some(ts.value + us.value)
    case While(c, body) =>
      var t := TypeOf(p, k, cx, c);
      if t.Some? && t.value.IntT? && CheckStmt(p, k, InnerCx(cx), body).Some? then Some([]) else None
    case For(x, lo, hi, body) =>
      var a, b := TypeOf(p, k, cx, lo), TypeOf(p, k, cx, hi);
      if a == Some(IntT(64)) && b == Some(IntT(64)) then
        var cx1 := cx.(tags := cx.tags + [Tag(x, false, cx.depth)], types := cx.types + [IntT(64)]);
        if CheckStmt(p, k, InnerCx(cx1), body).Some? then Some([IntT(64)]) else None
      else None
    case On(name, body) =>
      var cx1 := InnerCx(cx).(handles := cx.handles + [name]);
      if (cx.strict ==> FreshRegion(cx, name)) && CheckStmt(p, k, cx1, body).Some? then Some([]) else None
  }

  /** Assignment targets have an address: `var` names, elements and fields. */
  predicate Assignable(cx: Cx, t: Expr) {
    match t
    case Get(x) => var i := Find(cx.tags, x); i.Some? && cx.tags[i.value].isVar
    case Elem(_, _) => true
    case Field(_, _) => true
    case _ => false
  }

  function FnCx(fn: Fn, strict: bool): Cx
    requires fn.regions != []
  {
    Cx(ParamTags(fn.params), Signature(fn).params, 0, [fn.regions[0]], strict)
  }

  /** A returned expression has the declared type; integer widths are not compared. */
  predicate ReturnMatches(t: Type, declared: Type) {
    t == declared || (t.IntT? && declared.IntT?)
  }

  ghost predicate FnOk(p: Program, k: nat, strict: bool)
    requires k < |p.fns|
  {
    var fn := p.fns[k];
    && fn.regions != []
    && (strict ==> Distinct(fn.regions))
    && var ts := CheckStmt(p, k, FnCx(fn, strict), fn.body);
    && ts.Some?
    && match fn.result
       case None => fn.ret == VoidT
       case Some(e) =>
         var t := TypeOf(p, k, CxAfter(FnCx(fn, strict), fn.body, ts.value), e);
         t.Some? && ReturnMatches(t.value, fn.ret)
  }

  /** `ProgramOk(p, false)` is the code's own checks, with homogeneous literals and returns of the
      declared type. */
  ghost predicate ProgramOk(p: Program, strict: bool) {
    forall k :: 0 <= k < |p.fns| ==> FnOk(p, k, strict)
  }
}
