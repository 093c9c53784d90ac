/** The order in which a program is evaluated, and which statements run. */
module Control {
  import opened Basics
  import opened RegionTypes
  import opened Lang
  import opened Memory
  import opened Interp

  // ---------- Loops ----------

  /** After `n` rounds of `while (c) body` the condition has held `n` times, the body has run after
      each, and the variables hold `vals`. */
  ghost predicate Rounds(p: Program, k: nat, env: Env, s: Stmt, m: Mem, fuel: nat, n: nat, vals: seq<Value>, m1: Mem)
    requires k <= |p.fns| && EnvShape(env) && s.While? && n <= fuel
    decreases n
  {
    if n == 0 then vals == env.vals && m1 == m
    else
      var r := Round(p, k, env, s, m, fuel);
      r.Ok? && Rounds(p, k, env.(vals := r.value), s, r.mem, fuel - 1, n - 1, vals, m1)
  }

  /** One round: the variables of the body's scope are gone after it. */
  function Round(p: Program, k: nat, env: Env, s: Stmt, m: Mem, fuel: nat): (r: Res<seq<Value>>)
    requires k <= |p.fns| && EnvShape(env) && s.While?
    ensures r.Ok? ==> |r.value| == |env.vals|
  {
    var v := Eval(p, k, env, s.c, m, fuel);
    if v.Ok? && v.value == VBool(true) then
      var r := Exec(p, k, Inner(env), s.body, v.mem, fuel);
      if r.Ok? then Ok(r.value[..|env.vals|], r.mem) else r
    else Fail(Stuck)
  }

  /** The condition is false in this state, and evaluating it leaves `m2`. */
  ghost predicate Ends(p: Program, k: nat, env: Env, c: Expr, m1: Mem, fuel: nat, m2: Mem)
    requires k <= |p.fns| && EnvShape(env)
  {
    Eval(p, k, env, c, m1, fuel) == Ok(VBool(false), m2)
  }

  ghost predicate EndsAfter(p: Program, k: nat, env: Env, s: Stmt, m: Mem, fuel: nat, n: nat, vals: seq<Value>, m1: Mem, m2: Mem)
    requires k <= |p.fns| && EnvShape(env) && s.While?
  {
    && n < fuel && |vals| == |env.vals| && Rounds(p, k, env, s, m, fuel, n, vals, m1)
    && Ends(p, k, env.(vals := vals), s.c, m1, fuel - n, m2)
  }

  /** One round more at the front. */
  lemma RoundsStep(p: Program, k: nat, env: Env, s: Stmt, m: Mem, fuel: nat, n: nat, vals: seq<Value>, m1: Mem, m2: Mem)
    requires k <= |p.fns| && EnvShape(env) && s.While? && fuel > 0 && Round(p, k, env, s, m, fuel).Ok?
    ensures var r := Round(p, k, env, s, m, fuel);
            EndsAfter(p, k, env, s, m, fuel, n + 1, vals, m1, m2) <==>
            EndsAfter(p, k, env.(vals := r.value), s, r.mem, fuel - 1, n, vals, m1, m2)
  {
    hide Round, Exec, Eval;
    assert env.(vals := Round(p, k, env, s, m, fuel).value).(vals := vals) == env.(vals := vals);
  }

  ghost predicate EndsSometime(p: Program, k: nat, env: Env, s: Stmt, m: Mem, fuel: nat, vals: seq<Value>, m2: Mem)
    requires k <= |p.fns| && EnvShape(env) && s.While?
  {
    exists n: nat, m1 :: EndsAfter(p, k, env, s, m, fuel, n, vals, m1, m2)
  }

  lemma SometimeStep(p: Program, k: nat, env: Env, s: Stmt, m: Mem, fuel: nat, vals: seq<Value>, m2: Mem)
    requires k <= |p.fns| && EnvShape(env) && s.While? && fuel > 0
    ensures EndsSometime(p, k, env, s, m, fuel, vals, m2) <==>
            || (vals == env.vals && Ends(p, k, env, s.c, m, fuel, m2))
            || var r := Round(p, k, env, s, m, fuel);
               r.Ok? && EndsSometime(p, k, env.(vals := r.value), s, r.mem, fuel - 1, vals, m2)
  {
    hide Round, Ends;
    var r := Round(p, k, env, s, m, fuel);
    assert env.(vals := env.vals) == env;
    if EndsSometime(p, k, env, s, m, fuel, vals, m2) {
      var n: nat, m1 :| EndsAfter(p, k, env, s, m, fuel, n, vals, m1, m2);
      if n > 0 { RoundsStep(p, k, env, s, m, fuel, n - 1, vals, m1, m2); }
    }
    if vals == env.vals && Ends(p, k, env, s.c, m, fuel, m2) {
      assert EndsAfter(p, k, env, s, m, fuel, 0, vals, m, m2);
    }
    if r.Ok? && EndsSometime(p, k, env.(vals := r.value), s, r.mem, fuel - 1, vals, m2) {
      var n: nat, m1 :| EndsAfter(p, k, env.(vals := r.value), s, r.mem, fuel - 1, n, vals, m1, m2);
      RoundsStep(p, k, env, s, m, fuel, n, vals, m1, m2);
    }
  }

  /** A `while` finishes if and only if its condition holds for some number of rounds and then does
      not, and leaves what the last round and the last evaluation of the condition left. */
  lemma {:induction false} WhileIsRounds(p: Program, k: nat, env: Env, s: Stmt, m: Mem, fuel: nat, vals: seq<Value>, m2: Mem)
    requires k <= |p.fns| && EnvShape(env) && s.While?
    ensures Exec(p, k, env, s, m, fuel) == Ok(vals, m2) <==> EndsSometime(p, k, env, s, m, fuel, vals, m2)
    decreases fuel
  {
    hide EndsSometime;
    if fuel > 0 {
      var r := Round(p, k, env, s, m, fuel);
      SometimeStep(p, k, env, s, m, fuel, vals, m2);
      if r.Ok? { WhileIsRounds(p, k, env.(vals := r.value), s, r.mem, fuel - 1, vals, m2); }
    } else {
      assert !EndsSometime(p, k, env, s, m, fuel, vals, m2) by { NoTime(p, k, env, s, m, vals, m2); }
    }
  }

  lemma NoTime(p: Program, k: nat, env: Env, s: Stmt, m: Mem, vals: seq<Value>, m2: Mem)
    requires k <= |p.fns| && EnvShape(env) && s.While?
    ensures !EndsSometime(p, k, env, s, m, 0, vals, m2)
  {
  }

  // ---------- Arms ----------

  /** An `if` runs the arm its condition chooses, and the names that the other arm declares have no
      value after it. */
  lemma IfRunsOneArm(p: Program, k: nat, env: Env, c: Expr, a: Stmt, b: Stmt, yes: bool, m: Mem, m1: Mem, fuel: nat)
    requires k <= |p.fns| && EnvShape(env) && Eval(p, k, env, c, m, fuel) == Ok(VBool(yes), m1)
    ensures var other := Undefs(|Declared(if yes then b else a, env.depth)|);
            var inner := if yes then env else EnvAfter(env, a, env.vals + other);
            var arm, r := Exec(p, k, inner, if yes then a else b, m1, fuel), Exec(p, k, env, If(c, a, b), m, fuel);
            && (arm.Ok? <==> r.Ok?) && (arm.Timeout? <==> r.Timeout?) && (arm.Fail? ==> r == arm)
            && (arm.Ok? ==> r.mem == arm.mem && r.value == if yes then arm.value + other else arm.value)
  {
    hide Eval;
  }

  // ---------- Calls ----------

  /** A call runs the latest function of that name on the values of its arguments, in the innermost
      region of the name passed or by default in the innermost of all, and has the value of the
      function's result, or none. */
  lemma CallRuns(p: Program, k: nat, env: Env, f: Name, rs: seq<Name>, args: seq<Expr>, j: nat, i: nat, m: Mem, m1: Mem, vs: seq<Value>, fuel: nat)
    requires k <= |p.fns| && EnvShape(env) && EvalList(p, k, env, args, m, fuel) == Ok(vs, m1)
    requires j < k && p.fns[j].name == f && (forall l :: j < l < k ==> p.fns[l].name != f)
    requires Innermost(env.handles, if rs == [] then env.handles[|env.handles| - 1].0 else rs[0], i)
    requires |vs| == |p.fns[j].params| && p.fns[j].regions != []
    ensures var fn, r := p.fns[j], Eval(p, k, env, Call(f, rs, args), m, fuel);
            var start := FnEnv(fn, env.handles[i].1, vs);
            var body := Exec(p, j, start, fn.body, m1, fuel);
            && (body.Fail? ==> r == Fail(body.fault)) && (body.Timeout? ==> r == Timeout)
            && (body.Ok? && fn.result.None? ==> r == Ok(VVoid, body.mem))
            && (body.Ok? && fn.result.Some? ==>
                  r == Eval(p, j, EnvAfter(start, fn.body, body.value), fn.result.value, body.mem, fuel))
  {
    hide Exec, EvalList, Find, GetHandle, FindFn;
    HandleIs(env.handles, if rs == [] then env.handles[|env.handles| - 1].0 else rs[0], i);
    FunctionIs(p, k, f, j);
    CallUnfolds(p, k, env, f, rs, args, m, fuel);
    assert Eval(p, k, env, Call(f, rs, args), m, fuel) == RunFn(p, j, env.handles[i].1, vs, m1, fuel);
  }

  lemma HandleIs<T>(handles: seq<(Name, T)>, name: Name, i: int)
    requires Innermost(handles, name, i)
    ensures GetHandle(handles, name) == Some(handles[i].1)
  {
    hide GetHandle;
    assert handles[i] in handles;
    var l :| Innermost(handles, name, l) && handles[l].1 == GetHandle(handles, name).value;
  }

  lemma FunctionIs(p: Program, k: nat, f: Name, j: nat)
    requires k <= |p.fns| && j < k && p.fns[j].name == f && forall l :: j < l < k ==> p.fns[l].name != f
    ensures FindFn(p, k, f) == Some(j)
  {
    hide FindFn;
  }

  lemma CallUnfolds(p: Program, k: nat, env: Env, f: Name, rs: seq<Name>, args: seq<Expr>, m: Mem, fuel: nat)
    requires k <= |p.fns| && EnvShape(env) && EvalList(p, k, env, args, m, fuel).Ok?
    requires FindFn(p, k, f).Some? && GetHandle(env.handles, CallRegions(rs, Default(env).0)[0]).Some?
    ensures var vs := EvalList(p, k, env, args, m, fuel);
            Eval(p, k, env, Call(f, rs, args), m, fuel)
            == RunFn(p, FindFn(p, k, f).value, GetHandle(env.handles, CallRegions(rs, Default(env).0)[0]).value, vs.value, vs.mem, fuel)
  {
    hide EvalList, RunFn, Find;
  }

  /** An expression as a statement is a `let` of a name that is not seen. */
  lemma DoIsLet(p: Program, k: nat, env: Env, e: Expr, x: Name, m: Mem, fuel: nat)
    requires k <= |p.fns| && EnvShape(env)
    ensures var r, q := Exec(p, k, env, Do(e), m, fuel), Exec(p, k, env, Let(x, e), m, fuel);
            && (q.Ok? ==> r == Ok(q.value[..|env.vals|], q.mem)) && (q.Fail? ==> r == q) && (q.Timeout? ==> r == q)
  {
    hide Eval;
  }

  // ---------- Order ----------

  /** What is evaluated first in an expression, and what second. */
  function FirstOperand(e: Expr): Option<Expr> {
    match e
    case Bin(_, l, _) => Some(l)
    case Lit(es) => if es == [] then None else Some(es[0])
    case Fill(v, _) => Some(v)
    case Elem(a, _) => Some(a)
    case Length(a) => Some(a)
    case Field(o, _) => Some(o)
    case Call(_, _, args) => if args == [] then None else Some(args[0])
    case _ => None
  }

  function SecondOperand(e: Expr): Option<Expr> {
    match e
    case Bin(_, _, r) => Some(r)
    case Lit(es) => if |es| < 2 then None else Some(es[1])
    case Fill(_, n) => Some(n)
    case Elem(_, i) => Some(i)
    case Call(_, _, args) => if |args| < 2 then None else Some(args[1])
    case _ => None
  }

  /** Operands are evaluated from the left, each in the memory the one before left, and before the
      operation: the first that has no value is what the whole expression does. */
  lemma LeftToRight(p: Program, k: nat, env: Env, e: Expr, m: Mem, fuel: nat)
    requires k <= |p.fns| && EnvShape(env) && FirstOperand(e).Some?
    ensures var first := Eval(p, k, env, FirstOperand(e).value, m, fuel);
            && (!first.Ok? ==> Eval(p, k, env, e, m, fuel) == first)
            && (first.Ok? && SecondOperand(e).Some? ==>
                  var second := Eval(p, k, env, SecondOperand(e).value, first.mem, fuel);
                  !second.Ok? ==> Eval(p, k, env, e, m, fuel) == second)
  {
    hide Find, GetHandle, FindFn, BinOp, LoadCell, LoadField, LoadLength, AllocArray;
    if e.Lit? { ListInOrder(p, k, env, e.es, m, fuel); }
    if e.Call? { ListInOrder(p, k, env, e.args, m, fuel); }
  }

  lemma ListInOrder(p: Program, k: nat, env: Env, es: seq<Expr>, m: Mem, fuel: nat)
    requires k <= |p.fns| && EnvShape(env) && es != []
    ensures var first, all := Eval(p, k, env, es[0], m, fuel), EvalList(p, k, env, es, m, fuel);
            && (!first.Ok? ==> all == first.PropagateFailure())
            && (first.Ok? && |es| >= 2 ==>
                  var second := Eval(p, k, env, es[1], first.mem, fuel);
                  !second.Ok? ==> all == second.PropagateFailure())
  {
    hide Eval;
    if |es| >= 2 { assert es[1..][0] == es[1]; }
  }

  /** An assignment evaluates its target before its value, and stores last. */
  lemma TargetFirst(p: Program, k: nat, env: Env, t: Expr, e: Expr, m: Mem, fuel: nat)
    requires k <= |p.fns| && EnvShape(env)
    ensures var place, r := EvalTarget(p, k, env, t, m, fuel), Exec(p, k, env, Assign(t, e), m, fuel);
            && (place.Fail? ==> r.Fail? && r.fault == place.fault) && (place.Timeout? ==> r.Timeout?)
            && (place.Ok? ==>
                  var v := Eval(p, k, env, e, place.mem, fuel);
                  && (v.Fail? ==> r.Fail? && r.fault == v.fault) && (v.Timeout? ==> r.Timeout?)
                  && (v.Ok? ==> r == StorePlace(env.vals, place.value, v.value, v.mem)))
  {
    hide Eval, EvalTarget;
  }
}
