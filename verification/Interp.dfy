/** The meaning of programs, as an interpreter.  `fuel` bounds the number of iterations of
    each loop; a run that uses it up is a `Timeout`. */
module Interp {
  import opened Basics
  import opened RegionTypes
  import opened Lang
  import opened Memory

  /** The variables in scope with their values, and the regions with a handle, innermost last. */
  datatype Env = Env(tags: seq<Tag>, vals: seq<Value>, depth: nat, handles: seq<(Name, nat)>)

  ghost predicate EnvShape(env: Env) {
    |env.tags| == |env.vals| && env.handles != []
  }

  function Default(env: Env): (Name, nat)
    requires env.handles != []
  {
    env.handles[|env.handles| - 1]
  }

  function Inner(env: Env): (r: Env) { env.(depth := env.depth + 1) }

  function Undefs(n: nat): (r: seq<Value>)
    ensures |r| == n
  {
    seq(n, _ => Undef)
  }

  function EnvAfter(env: Env, s: Stmt, vals: seq<Value>): Env {
    env.(tags := env.tags + Declared(s, env.depth), vals := vals)
  }

  function Extend(env: Env, t: Tag, v: Value): Env {
    env.(tags := env.tags + [t], vals := env.vals + [v])
  }

  function Eval(p: Program, k: nat, env: Env, e: Expr, m: Mem, fuel: nat): Res<Value>
    requires k <= |p.fns| && EnvShape(env)
    decreases fuel, k, e
  {
    match e
    case Num(n) => Ok(VInt(Wrap(n)), m)
    case Get(x) =>
      var i := Find(env.tags, x);
      if i.None? then Fail(Stuck)
      else if env.vals[i.value].Undef? then Fail(Uninit)
      else Ok(env.vals[i.value], m)
    case Bin(op, l, r) =>
      var (a, m1) :- Eval(p, k, env, l, m, fuel);
      var (b, m2) :- Eval(p, k, env, r, m1, fuel);
      Lift(BinOp(op, a, b), m2)
    case Lit(es) =>
      var (vs, m1) :- EvalList(p, k, env, es, m, fuel);
      Alloc(m1, ArrO(Default(env).1, vs))
    case Fill(v, n) =>
      var (a, m1) :- Eval(p, k, env, v, m, fuel);
      var (c, m2) :- Eval(p, k, env, n, m1, fuel);
      AllocArray(m2, Default(env).1, a, c)
    case Elem(a, i) =>
      var (r, m1) :- Eval(p, k, env, a, m, fuel);
      var (j, m2) :- Eval(p, k, env, i, m1, fuel);
      Lift(LoadCell(m2, r, j), m2)
    case Length(a) =>
      var (r, m1) :- Eval(p, k, env, a, m, fuel);
      Lift(LoadLength(m1, r), m1)
    case Field(o, f) =>
      var (r, m1) :- Eval(p, k, env, o, m, fuel);
      Lift(LoadField(m1, r, f), m1)
    case New(c, rs) =>
      var h := GetHandle(env.handles, CallRegions(rs, Default(env).0)[0]);
      if h.None? || c !in p.classes then Fail(Stuck)
      else Alloc(m, ClsO(h.value, c, p.classes[c]))
    case Call(f, rs, args) =>
      var (vs, m1) :- EvalList(p, k, env, args, m, fuel);
      var j := FindFn(p, k, f);
      var h := GetHandle(env.handles, CallRegions(rs, Default(env).0)[0]);
      if j.None? || h.None? then Fail(Stuck)
      else RunFn(p, j.value, h.value, vs, m1, fuel)
  }

  function EvalList(p: Program, k: nat, env: Env, es: seq<Expr>, m: Mem, fuel: nat): (r: Res<seq<Value>>)
    requires k <= |p.fns| && EnvShape(env)
    ensures r.Ok? ==> |r.value| == |es|
    decreases fuel, k, es
  {
    if es == [] then Ok([], m)
    else
      var (v, m1) :- Eval(p, k, env, es[0], m, fuel);
      var (vs, m2) :- EvalList(p, k, env, es[1..], m1, fuel);
      Ok([v] + vs, m2)
  }

  /** The environment a function body starts in; only its first region has a handle. */
  function FnEnv(fn: Fn, rid: nat, vs: seq<Value>): Env
    requires fn.regions != []
  {
    Env(ParamTags(fn.params), vs, 0, [(fn.regions[0], rid)])
  }

  function RunFn(p: Program, j: nat, rid: nat, vs: seq<Value>, m: Mem, fuel: nat): Res<Value>
    requires j < |p.fns|
    decreases fuel, j
  {
    var fn := p.fns[j];
    if |vs| != |fn.params| || fn.regions == [] then Fail(Stuck)
    else
      var env := FnEnv(fn, rid, vs);
      var (vals, m1) :- Exec(p, j, env, fn.body, m, fuel);
      if fn.result.None? then Ok(VVoid, m1)
      else Eval(p, j, EnvAfter(env, fn.body, vals), fn.result.value, m1, fuel)
  }

  /** Store through an assignment target whose parts are already evaluated. */
  datatype Place = NameP(i: nat) | CellP(arr: Value, idx: Value) | FieldP(obj: Value, f: Name)

  /** Evaluates an assignment target up to its address. */
  function EvalTarget(p: Program, k: nat, env: Env, t: Expr, m: Mem, fuel: nat): (r: Res<Place>)
    requires k <= |p.fns| && EnvShape(env)
    ensures r.Ok? && r.value.NameP? ==> r.value.i < |env.vals|
    decreases fuel, k, t
  {
    match t
    case Get(x) =>
      var i := Find(env.tags, x);
      if i.None? || !env.tags[i.value].isVar then Fail(Stuck) else Ok(NameP(i.value), m)
    case Elem(a, i) =>
      var (r, m1) :- Eval(p, k, env, a, m, fuel);
      var (j, m2) :- Eval(p, k, env, i, m1, fuel);
      var (_, m3) :- Lift(LoadCell(m2, r, j), m2);
      Ok(CellP(r, j), m3)
    case Field(o, f) =>
      var (r, m1) :- Eval(p, k, env, o, m, fuel);
      var (_, m2) :- Lift(LoadField(m1, r, f), m1);
      Ok(FieldP(r, f), m2)
    case _ => Fail(Stuck)
  }

  function StorePlace(vals: seq<Value>, pl: Place, v: Value, m: Mem): (r: Res<seq<Value>>)
    requires pl.NameP? ==> pl.i < |vals|
    ensures r.Ok? ==> |r.value| == |vals|
  {
    match pl
    case NameP(i) => Ok(vals[i := v], m)
    case CellP(a, i) => var (_, m1) :- StoreCell(m, a, i, v); Ok(vals, m1)
    case FieldP(o, f) => var (_, m1) :- StoreField(m, o, f, v); Ok(vals, m1)
  }

  /** Runs a statement; the result is the values of all variables in scope after it. */
  function Exec(p: Program, k: nat, env: Env, s: Stmt, m: Mem, fuel: nat): (r: Res<seq<Value>>)
    requires k <= |p.fns| && EnvShape(env)
    ensures r.Ok? ==> |r.value| == |env.vals| + |Declared(s, env.depth)|
    decreases fuel, k, s, 0
  {
    match s
    case Skip => Ok(env.vals, m)
    case Seq(a, b) =>
      var (vals, m1) :- Exec(p, k, env, a, m, fuel);
      Exec(p, k, EnvAfter(env, a, vals), b, m1, fuel)
    case Var(x, e) =>
      var (v, m1) :- Eval(p, k, env, e, m, fuel);
      Ok(env.vals + [v], m1)
    case Let(x, e) =>
      var (v, m1) :- Eval(p, k, env, e, m, fuel);
      Ok(env.vals + [v], m1)
    case Assign(t, e) =>
      var (pl, m1) :- EvalTarget(p, k, env, t, m, fuel);
      var (v, m2) :- Eval(p, k, env, e, m1, fuel);
      StorePlace(env.vals, pl, v, m2)
    case Do(e) =>
      var (_, m1) :- Eval(p, k, env, e, m, fuel);
      Ok(env.vals, m1)
    case If(c, a, b) =>
      var (v, m1) :- Eval(p, k, env, c, m, fuel);
      if !v.VBool? then Fail(if v.VInt? then Width else Stuck)
      else if v.b then
        var (vals, m2) :- Exec(p, k, env, a, m1, fuel);
        Ok(vals + Undefs(|Declared(b, env.depth)|), m2)
      else
        Exec(p, k, EnvAfter(env, a, env.vals + Undefs(|Declared(a, env.depth)|)), b, m1, fuel)
    case While(c, body) =>
      if fuel == 0 then Timeout
      else
        var (v, m1) :- Eval(p, k, env, c, m, fuel);
        if !v.VBool? then Fail(if v.VInt? then Width else Stuck)
        else if !v.b then Ok(env.vals, m1)
        else
          var (vals, m2) :- Exec(p, k, Inner(env), body, m1, fuel);
          Exec(p, k, env.(vals := vals[..|env.vals|]), s, m2, fuel - 1)
    case For(x, lo, hi, body) =>
      var (a, m1) :- Eval(p, k, env, lo, m, fuel);
      var (b, m2) :- Eval(p, k, env, hi, m1, fuel);
      var (it, m3) :- NewIter(m2, a, b);
      ForLoop(p, k, Extend(env, Tag(x, false, env.depth), Undef), body, it.it, m3, fuel)
    case On(name, body) =>
      var (rid, m1) := OpenRegion(m);
      var (vals, m2) :- Exec(p, k, Inner(env).(handles := env.handles + [(name, rid)]), body, m1, fuel);
      var (_, m3) :- CloseRegion(m2, rid);
      Ok(vals[..|env.vals|], m3)
  }

  /** The loop of a `for`; its name is the last of `env`. */
  function ForLoop(p: Program, k: nat, env: Env, body: Stmt, it: nat, m: Mem, fuel: nat): (r: Res<seq<Value>>)
    requires k <= |p.fns| && EnvShape(env) && env.vals != []
    ensures r.Ok? ==> |r.value| == |env.vals|
    decreases fuel, k, body, 1
  {
    if fuel == 0 then Timeout
    else if !HasNext(m, it) then Ok(env.vals, m)
    else
      var (v, m1) := Next(m, it);
      var env1 := env.(vals := env.vals[|env.vals| - 1 := v]);
      var (vals, m2) :- Exec(p, k, Inner(env1), body, m1, fuel);
      ForLoop(p, k, env.(vals := vals[..|env.vals|]), body, it, m2, fuel - 1)
  }
}
