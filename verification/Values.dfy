/** What memory gives back: a read gives what was stored or allocated there last, in memory, in
    the interpreter and in the blocks. */
module Values {
  import opened Basics
  import opened RegionTypes
  import opened Lang
  import opened Memory
  import opened Interp
  import opened Ir
  import opened Lowering
  import opened Running
  import opened Simulation

  // ---------- Memory ----------

  /** A stored cell holds the value, and every other cell, length and field is as before. */
  lemma CellStored(m: Mem, a: Value, i: Value, x: Value, m1: Mem)
    requires StoreCell(m, a, i, x).Ok? && m1 == StoreCell(m, a, i, x).mem
    ensures LoadCell(m1, a, i) == Good(x)
    ensures forall b, j :: b != a || j != i ==> LoadCell(m1, b, j) == LoadCell(m, b, j)
    ensures forall b :: LoadLength(m1, b) == LoadLength(m, b)
    ensures forall b, f :: LoadField(m1, b, f) == LoadField(m, b, f)
  {
  }

  /** A stored field holds the value, and everything else is as before. */
  lemma FieldStored(m: Mem, o: Value, f: Name, x: Value, m1: Mem)
    requires StoreField(m, o, f, x).Ok? && m1 == StoreField(m, o, f, x).mem
    ensures LoadField(m1, o, f) == Good(x)
    ensures forall b, g :: b != o || g != f ==> LoadField(m1, b, g) == LoadField(m, b, g)
    ensures forall b, j :: LoadCell(m1, b, j) == LoadCell(m, b, j)
    ensures forall b :: LoadLength(m1, b) == LoadLength(m, b)
  {
  }

  /** A new array has the length and the cells it was made of, and no others. */
  lemma ArrayAllocated(m: Mem, rid: nat, cells: seq<Value>, v: Value, m1: Mem)
    requires Alloc(m, ArrO(rid, cells)) == Ok(v, m1) && m.next !in m.heap
    ensures LoadLength(m1, v) == Good(VInt(|cells|))
    ensures forall i :: 0 <= i < |cells| ==> LoadCell(m1, v, VInt(i)) == Good(cells[i])
    ensures forall i :: i < 0 || |cells| <= i ==> LoadCell(m1, v, VInt(i)) == Bad(Bounds)
    ensures forall b, j :: LoadCell(m, b, j).Good? ==> LoadCell(m1, b, j) == LoadCell(m, b, j)
  {
  }

  /** The length decides which elements there are; a store needs what a read needs. */
  lemma LengthGoverns(m: Mem, a: Value, i: int, x: Value)
    ensures LoadLength(m, a).Good? ==> LoadLength(m, a).value.VInt?
    ensures LoadCell(m, a, VInt(i)).Good? <==> LoadLength(m, a).Good? && 0 <= i < LoadLength(m, a).value.n
    ensures LoadCell(m, a, VInt(i)) == Bad(Bounds) <==> LoadLength(m, a).Good? && !(0 <= i < LoadLength(m, a).value.n)
    ensures LoadLength(m, a).Bad? ==> LoadCell(m, a, VInt(i)) == Bad(LoadLength(m, a).fault)
    ensures StoreCell(m, a, VInt(i), x).Ok? <==> LoadCell(m, a, VInt(i)).Good?
    ensures forall f :: StoreCell(m, a, VInt(i), x) == Fail(f) <==> LoadCell(m, a, VInt(i)) == Bad(f)
  {
  }

  lemma FieldGoverns(m: Mem, o: Value, f: Name, x: int)
    ensures StoreField(m, o, f, VInt(x)).Ok? <==> LoadField(m, o, f).Good?
    ensures forall e :: StoreField(m, o, f, VInt(x)) == Fail(e) <==> LoadField(m, o, f) == Bad(e)
  {
  }

  /** Objects can be made in exactly the regions that are open: a new region is one that was not, and
      deleting it closes it, and no other, for good. */
  lemma RegionStates(m: Mem, rid: nat, m1: Mem, m2: Mem, obj: Obj, n: int, x: Value)
    requires (forall r :: r in m.live ==> r < m.nextRid) && OpenRegion(m) == (rid, m1)
    requires CloseRegion(m1, rid) == Ok((), m2)
    ensures Alloc(m, obj.(rid := rid)) == Fail(Dangling) && Alloc(m1, obj.(rid := rid)).Ok?
    ensures Alloc(m2, obj.(rid := rid)) == Fail(Dangling) && CloseRegion(m2, rid) == Fail(Dangling)
    ensures obj.rid != rid ==> (Alloc(m, obj).Ok? <==> Alloc(m1, obj).Ok?) && (Alloc(m1, obj).Ok? <==> Alloc(m2, obj).Ok?)
    ensures AllocArray(m1, rid, x, VInt(n)).Ok? <==> 0 <= n < TWO63
    ensures n < 0 ==> AllocArray(m1, rid, x, VInt(n)) == Fail(Bounds)
  {
  }

  /** [v; n] has length n and holds v everywhere. */
  lemma ArrayFilled(m: Mem, rid: nat, x: Value, n: int, v: Value, m1: Mem)
    requires AllocArray(m, rid, x, VInt(n)) == Ok(v, m1)
    ensures 0 <= n && LoadLength(m1, v) == Good(VInt(n))
    ensures forall i :: LoadCell(m1, v, VInt(i)) == if 0 <= i < n then Good(x) else Bad(Bounds)
  {
  }

  /** Deleting a region takes away its objects, and leaves all others as they are. */
  lemma RegionClosed(m: Mem, rid: nat, m1: Mem)
    requires CloseRegion(m, rid).Ok? && m1 == CloseRegion(m, rid).mem
    ensures forall l: nat :: l in m.heap && m.heap[l].rid == rid ==> LoadLength(m1, VRef(l)) == Bad(Dangling)
    ensures forall l: nat, j :: l in m.heap && m.heap[l].rid != rid ==> LoadCell(m1, VRef(l), j) == LoadCell(m, VRef(l), j)
    ensures forall l: nat, f :: l in m.heap && m.heap[l].rid != rid ==> LoadField(m1, VRef(l), f) == LoadField(m, VRef(l), f)
  {
  }

  // ---------- The interpreter ----------

  /** The elements of a list are evaluated from the left, each in the memory the ones before left. */
  lemma {:induction false} ListElement(p: Program, k: nat, env: Env, es: seq<Expr>, m: Mem, fuel: nat, i: nat)
    requires k <= |p.fns| && EnvShape(env) && i < |es| && EvalList(p, k, env, es, m, fuel).Ok?
    ensures var before := EvalList(p, k, env, es[..i], m, fuel);
            && before.Ok? && before.value == EvalList(p, k, env, es, m, fuel).value[..i]
            && var r := Eval(p, k, env, es[i], before.mem, fuel);
               r.Ok? && r.value == EvalList(p, k, env, es, m, fuel).value[i]
               && (i + 1 == |es| ==> r.mem == EvalList(p, k, env, es, m, fuel).mem)
    decreases i
  {
    var r := Eval(p, k, env, es[0], m, fuel);
    var rest := EvalList(p, k, env, es[1..], r.mem, fuel);
    if i == 0 {
      assert es[..0] == [] && es[1..] == es[1..|es|];
      if |es| == 1 { assert es[1..] == []; }
    } else {
      ListElement(p, k, env, es[1..], r.mem, fuel, i - 1);
      assert es[..i][0] == es[0] && es[..i][1..] == es[1..][..i - 1];
      assert ([r.value] + rest.value)[..i] == [r.value] + rest.value[..i - 1];
    }
  }

  lemma ReadsArray(p: Program, k: nat, env: Env, a: Expr, i: int, m: Mem, fuel: nat)
    requires k <= |p.fns| && EnvShape(env) && IsWord(i) && Eval(p, k, env, a, m, fuel).Ok?
    ensures var r := Eval(p, k, env, a, m, fuel);
            && Eval(p, k, env, Length(a), m, fuel) == Lift(LoadLength(r.mem, r.value), r.mem)
            && Eval(p, k, env, Elem(a, Num(i)), m, fuel) == Lift(LoadCell(r.mem, r.value, VInt(i)), r.mem)
  {
    hide LoadCell, LoadLength;
    var r := Eval(p, k, env, a, m, fuel);
    assert Eval(p, k, env, Num(i), r.mem, fuel) == Ok(VInt(i), r.mem);
  }

  /** Element i of a literal is the value of its i-th expression, and the literal is as long as the
      list of them. */
  lemma LiteralElement(p: Program, k: nat, env: Env, es: seq<Expr>, i: int, m: Mem, fuel: nat)
    requires k <= |p.fns| && EnvShape(env) && IsWord(i) && Eval(p, k, env, Lit(es), m, fuel).Ok?
    ensures EvalList(p, k, env, es, m, fuel).Ok?
    ensures var vs, m1 := EvalList(p, k, env, es, m, fuel).value, Eval(p, k, env, Lit(es), m, fuel).mem;
            && Eval(p, k, env, Length(Lit(es)), m, fuel) == Ok(VInt(|es|), m1)
            && Eval(p, k, env, Elem(Lit(es), Num(i)), m, fuel) == if 0 <= i < |es| then Ok(vs[i], m1) else Fail(Bounds)
  {
    hide EvalList;
    ReadsArray(p, k, env, Lit(es), i, m, fuel);
  }

  lemma FillIsInteger(m: Mem, rid: nat, x: Value, n: Value)
    requires AllocArray(m, rid, x, n).Ok?
    ensures n.VInt?
  {
  }

  lemma FilledElement(p: Program, k: nat, env: Env, a: Expr, n: Expr, i: int, m: Mem, fuel: nat)
    requires k <= |p.fns| && EnvShape(env) && IsWord(i) && Eval(p, k, env, Fill(a, n), m, fuel).Ok?
    ensures Eval(p, k, env, a, m, fuel).Ok?
    ensures var r := Eval(p, k, env, a, m, fuel);
            var q, m1 := Eval(p, k, env, n, r.mem, fuel), Eval(p, k, env, Fill(a, n), m, fuel).mem;
            && q.Ok? && q.value.VInt?
            && Eval(p, k, env, Length(Fill(a, n)), m, fuel) == Ok(q.value, m1)
            && Eval(p, k, env, Elem(Fill(a, n), Num(i)), m, fuel) == if 0 <= i < q.value.n then Ok(r.value, m1) else Fail(Bounds)
  {
    hide LoadCell, LoadLength, AllocArray, GetHandle, Find;
    ReadsArray(p, k, env, Fill(a, n), i, m, fuel);
    var w, r := Eval(p, k, env, Fill(a, n), m, fuel), Eval(p, k, env, a, m, fuel);
    var q := Eval(p, k, env, n, r.mem, fuel);
    assert w == AllocArray(q.mem, Interp.Default(env).1, r.value, q.value);
    FillIsInteger(q.mem, Interp.Default(env).1, r.value, q.value);
    hide Eval;
    ArrayFilled(q.mem, Interp.Default(env).1, r.value, q.value.n, w.value, w.mem);
  }

  /** A field of a new instance has the initial value its class declares. */
  lemma NewField(p: Program, k: nat, env: Env, c: Name, rs: seq<Name>, f: Name, m: Mem, fuel: nat)
    requires k <= |p.fns| && EnvShape(env) && Eval(p, k, env, New(c, rs), m, fuel).Ok?
    requires c in p.classes && f in p.classes[c]
    ensures Eval(p, k, env, Field(New(c, rs), f), m, fuel) == Ok(VInt(p.classes[c][f]), Eval(p, k, env, New(c, rs), m, fuel).mem)
  {
    hide GetHandle;
  }

  lemma TargetNames(p: Program, k: nat, env: Env, x: Name, y: Name, m: Mem, fuel: nat)
    requires k <= |p.fns| && EnvShape(env) && EvalTarget(p, k, env, Elem(Get(x), Get(y)), m, fuel).Ok?
    ensures Find(env.tags, x).Some? && Find(env.tags, y).Some?
    ensures var a, j := env.vals[Find(env.tags, x).value], env.vals[Find(env.tags, y).value];
            && EvalTarget(p, k, env, Elem(Get(x), Get(y)), m, fuel) == Ok(CellP(a, j), m)
            && forall m1 :: Eval(p, k, env, Get(x), m1, fuel) == Ok(a, m1) && Eval(p, k, env, Get(y), m1, fuel) == Ok(j, m1)
  {
    hide LoadCell, Find;
    var r := Eval(p, k, env, Get(x), m, fuel);
    assert r.Ok? && r.mem == m;
    assert Eval(p, k, env, Get(y), m, fuel).Ok?;
  }

  /** After `x[y] = e` the element reads as the value of `e`. */
  lemma AssignedElement(p: Program, k: nat, env: Env, x: Name, y: Name, e: Expr, m: Mem, fuel: nat)
    requires k <= |p.fns| && EnvShape(env) && Exec(p, k, env, Assign(Elem(Get(x), Get(y)), e), m, fuel).Ok?
    ensures var r := Exec(p, k, env, Assign(Elem(Get(x), Get(y)), e), m, fuel);
            var v := Eval(p, k, env, e, m, fuel);
            v.Ok? && r.value == env.vals && Eval(p, k, env, Elem(Get(x), Get(y)), r.mem, fuel) == Ok(v.value, r.mem)
  {
    hide Find, LoadCell, StoreCell;
    TargetNames(p, k, env, x, y, m, fuel);
    var a, j := env.vals[Find(env.tags, x).value], env.vals[Find(env.tags, y).value];
    var v := Eval(p, k, env, e, m, fuel);
    var w := StoreCell(v.mem, a, j, v.value);
    CellStored(v.mem, a, j, v.value, w.mem);
  }

  /** After `x = e` the name has the value of `e`, and no other place has changed. */
  lemma AssignedName(p: Program, k: nat, env: Env, x: Name, e: Expr, m: Mem, fuel: nat)
    requires k <= |p.fns| && EnvShape(env) && Exec(p, k, env, Assign(Get(x), e), m, fuel).Ok?
    ensures var r, v := Exec(p, k, env, Assign(Get(x), e), m, fuel), Eval(p, k, env, e, m, fuel);
            && v.Ok? && r.mem == v.mem && |r.value| == |env.vals| && Find(env.tags, x).Some?
            && r.value[Find(env.tags, x).value] == v.value
            && forall i :: 0 <= i < |env.vals| && i != Find(env.tags, x).value ==> r.value[i] == env.vals[i]
  {
    hide Eval, Find;
  }

  /** After `o.f = e` the field reads as the value of `e`. */
  lemma AssignedField(p: Program, k: nat, env: Env, o: Name, f: Name, e: Expr, m: Mem, fuel: nat)
    requires k <= |p.fns| && EnvShape(env) && Exec(p, k, env, Assign(Field(Get(o), f), e), m, fuel).Ok?
    ensures var r, v := Exec(p, k, env, Assign(Field(Get(o), f), e), m, fuel), Eval(p, k, env, e, m, fuel);
            v.Ok? && r.value == env.vals && Eval(p, k, env, Field(Get(o), f), r.mem, fuel) == Ok(v.value, r.mem)
  {
    hide Find, LoadField, StoreField;
    var a := Eval(p, k, env, Get(o), m, fuel);
    assert a.Ok? && a.mem == m;
    var v := Eval(p, k, env, e, m, fuel);
    assert v.Ok?;
    var w := StoreField(v.mem, a.value, f, v.value);
    FieldStored(v.mem, a.value, f, v.value, w.mem);
    StoredField(v.mem, a.value, f, v.value);
    assert Eval(p, k, env, Get(o), w.mem, fuel) == Ok(a.value, w.mem);
  }

  lemma StoredField(m: Mem, o: Value, f: Name, x: Value)
    requires StoreField(m, o, f, x).Ok?
    ensures x.VInt?
  {
  }

  /** A declaration gives its name the value of its expression, unless a `var` of the same scope
      hides a `let`. */
  lemma DeclaredName(p: Program, k: nat, env: Env, s: Stmt, m: Mem, fuel: nat)
    requires k <= |p.fns| && EnvShape(env) && (s.Var? || s.Let?) && Exec(p, k, env, s, m, fuel).Ok?
    requires s.Let? ==> FindVar(env.tags, s.x, env.depth).None?
    ensures var r, v := Exec(p, k, env, s, m, fuel), Eval(p, k, env, s.e, m, fuel);
            && v.Ok? && r.mem == v.mem && r.value[..|env.vals|] == env.vals
            && (!v.value.Undef? ==> Eval(p, k, EnvAfter(env, s, r.value), Get(s.x), r.mem, fuel) == Ok(v.value, r.mem))
  {
    var v := Eval(p, k, env, s.e, m, fuel);
    hide Eval;
    LastDeclared(env.tags, Tag(s.x, s.Var?, env.depth));
    ReadsName(p, k, EnvAfter(env, s, env.vals + [v.value]), s.x, |env.vals|, v.mem, fuel);
  }

  lemma LastDeclared(ts: seq<Tag>, t: Tag)
    requires !t.isVar ==> FindVar(ts, t.name, t.depth).None?
    ensures Find(ts + [t], t.name) == Some(|ts|)
  {
    assert (ts + [t])[..|ts|] == ts;
  }

  lemma ReadsName(p: Program, k: nat, env: Env, x: Name, i: nat, m: Mem, fuel: nat)
    requires k <= |p.fns| && EnvShape(env) && Find(env.tags, x) == Some(i) && i < |env.vals|
    ensures !env.vals[i].Undef? ==> Eval(p, k, env, Get(x), m, fuel) == Ok(env.vals[i], m)
  {
  }

  /** In a function body, each parameter has the value of its argument; of parameters with one name,
      the last. */
  lemma ParameterValue(p: Program, k: nat, fn: Fn, rid: nat, vs: seq<Value>, i: nat, m: Mem, fuel: nat)
    requires k <= |p.fns| && fn.regions != [] && |vs| == |fn.params| && i < |vs| && !vs[i].Undef?
    requires forall j :: i < j < |vs| ==> fn.params[j].0 != fn.params[i].0
    ensures Eval(p, k, FnEnv(fn, rid, vs), Get(fn.params[i].0), m, fuel) == Ok(vs[i], m)
  {
    hide Find;
    FindsParameter(ParamTags(fn.params), fn.params[i].0, i);
    ReadsName(p, k, FnEnv(fn, rid, vs), fn.params[i].0, i, m, fuel);
  }

  lemma {:induction false} FindsParameter(ts: seq<Tag>, x: Name, i: nat)
    requires i < |ts| && ts[i].name == x && (forall t :: t in ts ==> !t.isVar) && forall j :: i < j < |ts| ==> ts[j].name != x
    ensures Find(ts, x) == Some(i)
  {
    if i + 1 < |ts| {
      FindsParameter(ts[..|ts| - 1], x, i);
    } else {
      NoVariable(ts[..i], x, ts[i].depth);
    }
  }

  lemma {:induction false} NoVariable(ts: seq<Tag>, x: Name, d: nat)
    requires forall t :: t in ts ==> !t.isVar
    ensures FindVar(ts, x, d).None?
  {
    if ts != [] { NoVariable(ts[..|ts| - 1], x, d); }
  }

  // ---------- The blocks ----------

  /** The code of an element of a literal leaves the value of its i-th expression in its operand. */
  lemma CompiledLiteralElement(p: Program, k: nat, cx: LCx, env: Env, es: seq<Expr>, i: nat, g: Graph, c: Config, fuel: nat)
    returns (n: nat, c1: Config)
    requires Ready(p, k, cx, env, g, c) && ExprReady(cx, Elem(Lit(es), Num(i))) && i < |es| && IsWord(i)
    requires Eval(p, k, env, Lit(es), c.st.mem, fuel).Ok?
    ensures var e, r := Elem(Lit(es), Num(i)), EvalList(p, k, env, es, c.st.mem, fuel);
            && r.Ok? && Runs(Lib(p, k), LowerExpr(g, cx, e).0, c, n, c1)
            && Operate(LowerExpr(g, cx, e).1, c1.st) == Some(r.value[i])
  {
    hide Eval, EvalList, LowerExpr, Match, Here, Steps, Callees;
    LiteralElement(p, k, env, es, i, c.st.mem, fuel);
    n, c1 := SimExpr(p, k, cx, env, Elem(Lit(es), Num(i)), g, c, fuel);
  }
}
