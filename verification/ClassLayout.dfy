// Class layout and member lookup along the inheritance chain (src/ast/declarations/ClassNode.cpp).
module ClassLayout {
  import opened Basics
  import opened RegionTypes

  // A struct type: the super class's struct first, then one part per field.
  datatype Layout = Cell(size: nat) | Struct(parts: seq<Layout>)

  datatype ClassType = ClassType(
    super: Option<ClassType>, storeType: Layout, children: map<string, nat>, functions: map<string, int>)

  datatype Field = Field(name: string, size: nat)

  // What a child expression denotes: the address of a field, or a function with the receiver it is passed.
  datatype Child = Slot(path: seq<nat>, layout: Layout) | Bound(receiver: seq<nat>, f: int) | Missing

  function Size(l: Layout): nat {
    match l
    case Cell(n) => n
    case Struct(parts) => SizeAll(parts)
  }

  function SizeAll(parts: seq<Layout>): nat {
    if parts == [] then 0 else Size(parts[0]) + SizeAll(parts[1..])
  }

  // The offset and layout an element pointer path leads to.
  function Locate(l: Layout, path: seq<nat>): Option<(nat, Layout)>
    decreases |path|
  {
    if path == [] then Some((0, l))
    else if l.Struct? && path[0] < |l.parts| then
      match Locate(l.parts[path[0]], path[1..])
      case Some(at) => Some((SizeAll(l.parts[..path[0]]) + at.0, at.1))
      case None => None
    else None
  }

  ghost predicate Overlap(a: (nat, Layout), b: (nat, Layout)) {
    a.0 < b.0 + Size(b.1) && b.0 < a.0 + Size(a.1)
  }

  lemma {:induction false} SizeAllAppend(a: seq<Layout>, b: seq<Layout>)
    ensures SizeAll(a + b) == SizeAll(a) + SizeAll(b)
  {
    if a == [] {
      assert a + b == b;
    } else {
      assert (a + b)[1..] == a[1..] + b;
      SizeAllAppend(a[1..], b);
    }
  }

  lemma SizeBefore(parts: seq<Layout>, i: nat, j: nat)
    requires i < j <= |parts|
    ensures SizeAll(parts[..i]) + Size(parts[i]) <= SizeAll(parts[..j])
    ensures SizeAll(parts[..j]) <= SizeAll(parts)
  {
    assert parts[..i + 1] == parts[..i] + [parts[i]];
    assert [parts[i]][1..] == [];
    SizeAllAppend(parts[..i], [parts[i]]);
    assert parts[..j] == parts[..i + 1] + parts[i + 1..j];
    SizeAllAppend(parts[..i + 1], parts[i + 1..j]);
    assert parts == parts[..j] + parts[j..];
    SizeAllAppend(parts[..j], parts[j..]);
  }

  lemma {:induction false} LocateInside(l: Layout, path: seq<nat>)
    requires Locate(l, path).Some?
    ensures Locate(l, path).value.0 + Size(Locate(l, path).value.1) <= Size(l)
    decreases |path|
  {
    if path != [] {
      LocateInside(l.parts[path[0]], path[1..]);
      SizeBefore(l.parts, path[0], |l.parts|);
      assert l.parts[..|l.parts|] == l.parts;
    }
  }

  // Paths that part ways lead to places that do not overlap.
  lemma {:induction false} LocateDisjoint(l: Layout, p: seq<nat>, q: seq<nat>)
    requires Locate(l, p).Some? && Locate(l, q).Some?
    requires !(p <= q) && !(q <= p)
    ensures !Overlap(Locate(l, p).value, Locate(l, q).value)
    decreases |p|
  {
    LocateInside(l.parts[p[0]], p[1..]);
    LocateInside(l.parts[q[0]], q[1..]);
    if p[0] == q[0] {
      assert p == [p[0]] + p[1..] && q == [p[0]] + q[1..];
      LocateDisjoint(l.parts[p[0]], p[1..], q[1..]);
    } else if p[0] < q[0] {
      SizeBefore(l.parts, p[0], q[0]);
    } else {
      SizeBefore(l.parts, q[0], p[0]);
    }
  }

  lemma {:induction false} LocateConcat(l: Layout, p: seq<nat>, q: seq<nat>)
    requires Locate(l, p).Some?
    ensures Locate(l, p + q) ==
            match Locate(Locate(l, p).value.1, q)
            case Some(at) => Some((Locate(l, p).value.0 + at.0, at.1))
            case None => None
    decreases |p|
  {
    if p == [] {
      assert p + q == q;
    } else {
      assert (p + q)[1..] == p[1..] + q;
      LocateConcat(l.parts[p[0]], p[1..], q);
    }
  }

  function First(super: Option<ClassType>): nat { if super.Some? then 1 else 0 }

  // What ClassNode::codegen establishes: the super struct is part 0, and the fields number the other parts.
  ghost predicate ClassOk(c: ClassType) {
    && c.storeType.Struct?
    && (c.super.Some? ==>
          ClassOk(c.super.value) && |c.storeType.parts| > 0 && c.storeType.parts[0] == c.super.value.storeType)
    && (forall n :: n in c.children ==> First(c.super) <= c.children[n] < |c.storeType.parts|)
    && (forall m, n :: m in c.children && n in c.children && c.children[m] == c.children[n] ==> m == n)
  }

  // A field name denotes its last declaration.
  ghost predicate Numbered(children: map<string, nat>, first: nat, variables: seq<Field>) {
    && (forall i :: 0 <= i < |variables| ==> variables[i].name in children)
    && (forall n :: n in children ==>
          && first <= children[n] < first + |variables|
          && variables[children[n] - first].name == n
          && forall j :: children[n] - first < j < |variables| ==> variables[j].name != n)
  }

  ghost function Parts(super: Option<ClassType>, variables: seq<Field>): seq<Layout> {
    (if super.Some? then [super.value.storeType] else []) + Cells(variables)
  }

  ghost function Cells(variables: seq<Field>): (cells: seq<Layout>)
    ensures |cells| == |variables|
    ensures forall i :: 0 <= i < |variables| ==> cells[i] == Cell(variables[i].size)
    ensures SizeAll(cells) == TotalSize(variables)
  {
    if variables == [] then [] else [Cell(variables[0].size)] + Cells(variables[1..])
  }

  // ClassNode::codegen, from the fields its statements declare to the numbered struct.
  method CodegenClass(super: Option<ClassType>, variables: seq<Field>, functions: map<string, int>)
    returns (c: ClassType)
    requires super.Some? ==> ClassOk(super.value)
    ensures ClassOk(c) && c.super == super && c.functions == functions
    ensures Numbered(c.children, First(super), variables)
    ensures c.storeType.parts == Parts(super, variables)
    ensures Size(c.storeType) ==
            (if super.Some? then Size(super.value.storeType) else 0) + TotalSize(variables)
  {
    hide Numbered, Parts, Cells, ClassOk, Size, SizeAll, TotalSize;
    NothingNumbered(super);
    var types: seq<Layout> := if super.Some? then [super.value.storeType] else [];
    var idx := if super.Some? then 1 else 0;
    var children: map<string, nat> := map[];
    assert variables[..0] == [];
    for i := 0 to |variables|
      invariant idx == First(super) + i == |types|
      invariant Numbered(children, First(super), variables[..i])
      invariant types == Parts(super, variables[..i])
    {
      assert variables[..i + 1] == variables[..i] + [variables[i]];
      NumberedSnoc(children, First(super), variables[..i], variables[i]);
      CellsSnoc(super, variables[..i], variables[i]);
      children := children[variables[i].name := idx];
      idx := idx + 1;
      types := types + [Cell(variables[i].size)];
    }
    assert variables[..|variables|] == variables;
    c := ClassType(super, Struct(types), children, functions);
    BuiltOk(c, variables);
    PartsSize(super, variables);
  }

  lemma NothingNumbered(super: Option<ClassType>)
    ensures Numbered(map[], First(super), [])
    ensures Parts(super, []) == if super.Some? then [super.value.storeType] else []
  {
  }

  lemma NumberedSnoc(children: map<string, nat>, first: nat, variables: seq<Field>, v: Field)
    requires Numbered(children, first, variables)
    ensures Numbered(children[v.name := first + |variables|], first, variables + [v])
  {
  }

  lemma CellsSnoc(super: Option<ClassType>, variables: seq<Field>, v: Field)
    ensures Parts(super, variables + [v]) == Parts(super, variables) + [Cell(v.size)]
  {
    assert Cells(variables + [v]) == Cells(variables) + [Cell(v.size)];
  }

  lemma BuiltOk(c: ClassType, variables: seq<Field>)
    requires c.super.Some? ==> ClassOk(c.super.value)
    requires c.storeType == Struct(Parts(c.super, variables))
    requires Numbered(c.children, First(c.super), variables)
    ensures ClassOk(c)
  {
    hide Parts, Numbered, Cells, Size;
    PartsShape(c.super, variables);
    NumbersAreDistinct(c.children, First(c.super), variables);
  }

  lemma PartsShape(super: Option<ClassType>, variables: seq<Field>)
    ensures |Parts(super, variables)| == First(super) + |variables|
    ensures super.Some? ==> Parts(super, variables)[0] == super.value.storeType
  {
  }

  lemma NumbersAreDistinct(children: map<string, nat>, first: nat, variables: seq<Field>)
    requires Numbered(children, first, variables)
    ensures forall n :: n in children ==> first <= children[n] < first + |variables|
    ensures forall m, n :: m in children && n in children && children[m] == children[n] ==> m == n
  {
  }

  lemma PartsSize(super: Option<ClassType>, variables: seq<Field>)
    ensures Size(Struct(Parts(super, variables)))
            == (if super.Some? then Size(super.value.storeType) else 0) + TotalSize(variables)
  {
    if super.Some? {
      SizeAllAppend([super.value.storeType], Cells(variables));
      assert [super.value.storeType][1..] == [];
    } else {
      assert Parts(super, variables) == Cells(variables);
    }
  }

  function TotalSize(variables: seq<Field>): nat {
    if variables == [] then 0 else variables[0].size + TotalSize(variables[1..])
  }

  function Ancestor(c: ClassType, k: nat): Option<ClassType> {
    if k == 0 then Some(c)
    else match c.super
      case Some(s) => Ancestor(s, k - 1)
      case None => None
  }

  function Zeros(k: nat): (z: seq<nat>)
    ensures |z| == k && forall i :: 0 <= i < k ==> z[i] == 0
  {
    if k == 0 then [] else [0] + Zeros(k - 1)
  }

  predicate Defines(c: ClassType, name: string) { name in c.children || name in c.functions }

  ghost predicate Nearest(c: ClassType, name: string, k: nat) {
    && Ancestor(c, k).Some? && Defines(Ancestor(c, k).value, name)
    && forall j: nat :: j < k && Ancestor(c, j).Some? ==> !Defines(Ancestor(c, j).value, name)
  }

  // What a name denotes in a class k levels up: a field of it, at its place in the object, or, where it has no
  // such field, a function of it, with its part of the object, which starts where the object does.
  ghost predicate Denotes(c: ClassType, k: nat, name: string, r: Child)
    requires Ancestor(c, k).Some?
  {
    var a := Ancestor(c, k).value;
    match r
    case Slot(path, layout) =>
      name in a.children && path == FieldPath(c, k, name)
      && Locate(c.storeType, path).Some? && Locate(c.storeType, path).value.1 == layout
    case Bound(receiver, f) =>
      name !in a.children && name in a.functions && f == a.functions[name]
      && |receiver| == k && Locate(c.storeType, receiver) == Some((0, a.storeType))
    case Missing => false
  }

  lemma {:induction false} AncestorOk(c: ClassType, k: nat)
    requires ClassOk(c) && Ancestor(c, k).Some?
    ensures ClassOk(Ancestor(c, k).value)
    ensures Locate(c.storeType, Zeros(k)) == Some((0, Ancestor(c, k).value.storeType))
    ensures forall j: nat :: j < k ==> Ancestor(c, j).Some? && Ancestor(c, j).value.super.Some?
  {
    if k > 0 {
      AncestorOk(c.super.value, k - 1);
      assert Zeros(k)[1..] == Zeros(k - 1);
      forall j: nat | j < k ensures Ancestor(c, j).Some? && Ancestor(c, j).value.super.Some? {
        if j > 0 { assert Ancestor(c, j) == Ancestor(c.super.value, j - 1); }
      }
    }
  }

  lemma {:induction false} AncestorStep(c: ClassType, k: nat)
    requires Ancestor(c, k).Some?
    ensures Ancestor(c, k + 1) == Ancestor(c, k).value.super
  {
    if k > 0 { AncestorStep(c.super.value, k - 1); }
  }

  lemma {:induction false} NoAncestorAbove(c: ClassType, k: nat, j: nat)
    requires k <= j && Ancestor(c, k).None?
    ensures Ancestor(c, j).None?
  {
    if k > 0 && c.super.Some? { NoAncestorAbove(c.super.value, k - 1, j - 1); }
  }

  lemma ZerosSnoc(k: nat)
    ensures Zeros(k + 1) == Zeros(k) + [0]
  {
  }

  // ClassType::getChild. The nearest class that declares the name wins.
  method GetChild(c: ClassType, name: string) returns (r: Child)
    requires ClassOk(c)
    ensures r.Missing? <==> forall k: nat :: Ancestor(c, k).Some? ==> !Defines(Ancestor(c, k).value, name)
    ensures !r.Missing? ==>
              exists k: nat :: Nearest(c, name, k) && Denotes(c, k, name, r)
  {
    var here := Some(c);
    var this_: seq<nat> := [];
    ghost var k: nat := 0;
    while here.Some?
      invariant here == Ancestor(c, k) && this_ == Zeros(k)
      invariant forall j: nat :: j < k && Ancestor(c, j).Some? ==> !Defines(Ancestor(c, j).value, name)
      decreases here
    {
      AncestorOk(c, k);
      if name in here.value.children {
        var i := here.value.children[name];
        assert Nearest(c, name, k);
        FieldLocated(c, k, name);
        return Slot(this_ + [i], here.value.storeType.parts[i]);
      }
      if name in here.value.functions {
        assert Nearest(c, name, k);
        return Bound(this_, here.value.functions[name]);
      }
      AncestorStep(c, k);
      here := here.value.super;
      if here.Some? { this_ := this_ + [0]; }
      ZerosSnoc(k);
      k := k + 1;
      if here.None? { break; }
    }
    forall j: nat | Ancestor(c, j).Some? ensures !Defines(Ancestor(c, j).value, name) {
      if j >= k { NoAncestorAbove(c, k, j); }
    }
    return Missing;
  }

  ghost function FieldPath(c: ClassType, k: nat, name: string): seq<nat>
    requires Ancestor(c, k).Some? && name in Ancestor(c, k).value.children
  {
    Zeros(k) + [Ancestor(c, k).value.children[name]]
  }

  lemma FieldLocated(c: ClassType, k: nat, name: string)
    requires ClassOk(c) && Ancestor(c, k).Some? && name in Ancestor(c, k).value.children
    ensures ClassOk(Ancestor(c, k).value)
    ensures Locate(c.storeType, FieldPath(c, k, name)).Some?
    ensures Locate(c.storeType, FieldPath(c, k, name)).value.1
            == Ancestor(c, k).value.storeType.parts[Ancestor(c, k).value.children[name]]
  {
    AncestorOk(c, k);
    var a := Ancestor(c, k).value;
    LocateConcat(c.storeType, Zeros(k), [a.children[name]]);
    assert [a.children[name]][1..] == [];
  }

  // Every field of an object, inherited or hidden, lies inside it and apart from every other field.
  lemma FieldsAreDisjoint(c: ClassType, k: nat, m: string, l: nat, n: string)
    requires ClassOk(c)
    requires Ancestor(c, k).Some? && m in Ancestor(c, k).value.children
    requires Ancestor(c, l).Some? && n in Ancestor(c, l).value.children
    requires k != l || m != n
    ensures Locate(c.storeType, FieldPath(c, k, m)).Some? && Locate(c.storeType, FieldPath(c, l, n)).Some?
    ensures !Overlap(Locate(c.storeType, FieldPath(c, k, m)).value, Locate(c.storeType, FieldPath(c, l, n)).value)
    ensures Locate(c.storeType, FieldPath(c, k, m)).value.0 + Size(Locate(c.storeType, FieldPath(c, k, m)).value.1)
            <= Size(c.storeType)
  {
    FieldLocated(c, k, m);
    FieldLocated(c, l, n);
    LocateInside(c.storeType, FieldPath(c, k, m));
    AncestorOk(c, k);
    AncestorOk(c, l);
    var p, q := FieldPath(c, k, m), FieldPath(c, l, n);
    if k == l {
      assert p[k] != q[k];
    } else if k < l {
      assert p[k] >= 1 && q[k] == 0;
    } else {
      assert q[l] >= 1 && p[l] == 0;
    }
    LocateDisjoint(c.storeType, p, q);
  }

  // The receiver an inherited function is given points at its own class's part of the object, so that what the
  // function calls a field of its class is the very slot the caller sees.
  lemma InheritedReceiver(c: ClassType, k: nat, l: nat, name: string)
    requires ClassOk(c) && Ancestor(c, k).Some?
    requires Ancestor(Ancestor(c, k).value, l).Some? && name in Ancestor(Ancestor(c, k).value, l).value.children
    ensures ClassOk(Ancestor(c, k).value)
    ensures Ancestor(c, k + l) == Ancestor(Ancestor(c, k).value, l)
    ensures Zeros(k) + FieldPath(Ancestor(c, k).value, l, name) == FieldPath(c, k + l, name)
    ensures Locate(c.storeType, FieldPath(c, k + l, name))
            == Locate(Ancestor(c, k).value.storeType, FieldPath(Ancestor(c, k).value, l, name))
  {
    var a := Ancestor(c, k).value;
    AncestorOk(c, k);
    AncestorAdd(c, k, l);
    FieldLocated(a, l, name);
    LocateConcat(c.storeType, Zeros(k), FieldPath(a, l, name));
    assert Zeros(k) + Zeros(l) == Zeros(k + l);
    assert Zeros(k) + FieldPath(a, l, name) == FieldPath(c, k + l, name);
  }

  lemma {:induction false} AncestorAdd(c: ClassType, k: nat, l: nat)
    requires Ancestor(c, k).Some?
    ensures Ancestor(c, k + l) == Ancestor(Ancestor(c, k).value, l)
  {
    if k > 0 { AncestorAdd(c.super.value, k - 1, l); }
  }
}
