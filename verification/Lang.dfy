/** The statement language after name and type resolution, its values, and scopes.

    Child access is split by the kind of its base (`Length` of an array, `Field` of an
    instance), and calling a class is `New`. */
module Lang {
  import opened Basics
  import opened RegionTypes

  datatype Op = Add | Sub | Mul | Div | Eq | Lt | Gt | Le | Ge

  datatype Expr =
    | Num(n: int)
    | Get(x: Name)
    | Bin(op: Op, l: Expr, r: Expr)
    | Lit(es: seq<Expr>)                                  // [a, b, c]
    | Fill(v: Expr, count: Expr)                          // [v; n]
    | Elem(arr: Expr, idx: Expr)
    | Length(arr: Expr)
    | Field(obj: Expr, f: Name)
    | New(cls: Name, regions: seq<Name>)
    | Call(fn: Name, regions: seq<Name>, args: seq<Expr>)

  datatype Stmt =
    | Skip
    | Seq(s1: Stmt, s2: Stmt)
    | Var(x: Name, e: Expr)
    | Let(x: Name, e: Expr)
    | Assign(target: Expr, e: Expr)
    | Do(e: Expr)
    | If(c: Expr, thn: Stmt, els: Stmt)                   // no else arm: `Skip`
    | While(c: Expr, body: Stmt)
    | For(x: Name, lo: Expr, hi: Expr, body: Stmt)        // for (x : range(lo, hi)) body
    | On(region: Name, body: Stmt)                        // on region = NewRegion() { body }

  /** A function; `result` is the operand of its final `return`, if it has one. */
  datatype Fn = Fn(name: Name, regions: seq<Name>, params: seq<(Name, Type)>, ret: Type,
                   body: Stmt, result: Option<Expr>)

  /** Classes map each int field to its initial value.  Functions come in source order. */
  datatype Program = Program(classes: map<Name, map<Name, int>>, fns: seq<Fn>)

  // ---------- Scopes ----------

  /** One declared name: `var` or not, and the nesting depth of the scope it is in. */
  datatype Tag = Tag(name: Name, isVar: bool, depth: nat)

  /** The last `var x` at depth `d`. */
  function FindVar(ts: seq<Tag>, x: Name, d: nat): (r: Option<nat>)
    ensures r.Some? ==> r.value < |ts| && ts[r.value].name == x
  {
    if ts == [] then None
    else
      var n := |ts| - 1;
      if ts[n] == Tag(x, true, d) then Some(n) else FindVar(ts[..n], x, d)
  }

  /** Name lookup: the innermost scope that has the name; inside one scope a `var`
      hides every value of that name, whichever was declared last. */
  function Find(ts: seq<Tag>, x: Name): (r: Option<nat>)
    ensures r.Some? ==> r.value < |ts| && ts[r.value].name == x
  {
    if ts == [] then None
    else
      var n := |ts| - 1;
      if ts[n].name != x then Find(ts[..n], x)
      else if ts[n].isVar then Some(n)
      else
        var v := FindVar(ts[..n], x, ts[n].depth);
        if v.Some? then v else Some(n)
  }

  /** The names a statement leaves in the scope it runs in.  Blocks and `if` arms open no
      scope of their own; a loop or `on` body does; `for` adds its name outside its body. */
  function Declared(s: Stmt, d: nat): seq<Tag> {
    match s
    case Skip => []
    case Seq(a, b) => Declared(a, d) + Declared(b, d)
    case Var(x, _) => [Tag(x, true, d)]
    case Let(x, _) => [Tag(x, false, d)]
    case Assign(_, _) => []
    case Do(_) => []
    case If(_, a, b) => Declared(a, d) + Declared(b, d)
    case While(_, _) => []
    case For(x, _, _, _) => [Tag(x, false, d)]
    case On(_, _) => []
  }

  /** The last of the regions of that name. */
  predicate Innermost<T>(handles: seq<(Name, T)>, name: Name, i: int) {
    && 0 <= i < |handles| && handles[i].0 == name
    && forall j :: i < j < |handles| ==> handles[j].0 != name
  }

  /** The innermost enclosing region of that name for which there is a handle. */
  function GetHandle<T>(handles: seq<(Name, T)>, name: Name): (r: Option<T>)
    ensures r.Some? <==> exists h :: h in handles && h.0 == name
    ensures r.Some? ==> exists i :: Innermost(handles, name, i) && handles[i].1 == r.value
  {
    if handles == [] then None
    else
      var n := |handles| - 1;
      if handles[n].0 == name then assert handles[n] in handles && Innermost(handles, name, n); Some(handles[n].1)
      else
        assert handles == handles[..n] + [handles[n]];
        assert forall i :: Innermost(handles[..n], name, i) ==> Innermost(handles, name, i);
        GetHandle(handles[..n], name)
  }

  /** The latest function of that name among the first `k`: a body sees only the functions
      generated before it, so there is no recursion. */
  function FindFn(p: Program, k: nat, f: Name): (r: Option<nat>)
    requires k <= |p.fns|
    ensures r.Some? ==> r.value < k && p.fns[r.value].name == f && forall i :: r.value < i < k ==> p.fns[i].name != f
    ensures r.None? ==> forall i :: 0 <= i < k ==> p.fns[i].name != f
  {
    if k == 0 then None
    else if p.fns[k - 1].name == f then Some(k - 1)
    else FindFn(p, k - 1, f)
  }

  /** A call or class instantiation without region arguments uses the default region. */
  function CallRegions(rs: seq<Name>, default: Name): (r: seq<Name>)
    ensures r != []
  {
    if rs == [] then [default] else rs
  }

  function ParamTags(ps: seq<(Name, Type)>): (ts: seq<Tag>)
    ensures |ts| == |ps|
  {
    seq(|ps|, i requires 0 <= i < |ps| => Tag(ps[i].0, false, 0))
  }

  // ---------- Values ----------

  datatype Value =
    | VInt(n: int)
    | VBool(b: bool)
    | VRef(loc: nat)
    | VVoid
    | VRegion(rid: nat)
    | VIter(it: nat)
    | Undef                       // a variable whose declaration was not executed

  const TWO63: int := 0x8000_0000_0000_0000
  const TWO64: int := 0x1_0000_0000_0000_0000

  ghost predicate IsWord(n: int) { -TWO63 <= n < TWO63 }

  /** Two's complement wrap-around of 64-bit arithmetic. */
  function Wrap(n: int): (r: int)
    ensures -TWO63 <= r < TWO63 && (n - r) % TWO64 == 0
    ensures -TWO63 <= n < TWO63 ==> r == n
  {
    (n + TWO63) % TWO64 - TWO63
  }

  function Abs(n: int): nat { if n < 0 then -n else n }

  /** Division truncating toward zero. */
  function TruncDiv(a: int, b: int): int
    requires b != 0
  {
    if (a < 0) == (b < 0) then Abs(a) / Abs(b) else -(Abs(a) / Abs(b))
  }

  datatype Fault =
    | Dangling                    // access to a deleted region, or a second deletion
    | Stuck                       // an operation on a value of the wrong kind
    | Uninit                      // a variable whose declaration was not executed
    | Bounds                      // index or length out of range
    | Arith                       // division by zero, or MIN / -1
    | Width                       // a comparison result used as a 64-bit integer, or the reverse

  datatype Result<+T> = Good(value: T) | Bad(fault: Fault)

  function BinOp(op: Op, a: Value, b: Value): Result<Value> {
    if a.VInt? && b.VInt? then
      var x, y := a.n, b.n;
      match op
      case Add => Good(VInt(Wrap(x + y)))
      case Sub => Good(VInt(Wrap(x - y)))
      case Mul => Good(VInt(Wrap(x * y)))
      case Div =>
        if y == 0 || (x == -TWO63 && y == -1) then Bad(Arith) else Good(VInt(Wrap(TruncDiv(x, y))))
      case Eq => Good(VBool(x == y))
      case Lt => Good(VBool(x < y))
      case Gt => Good(VBool(x > y))
      case Le => Good(VBool(x <= y))
      case Ge => Good(VBool(x >= y))
    else if (a.VInt? || a.VBool?) && (b.VInt? || b.VBool?) then Bad(Width)
    else Bad(Stuck)
  }
}
