/** A `for` over `range(a, b)` is counting from a to b - 1. */
module ForRange {
  import opened RegionTypes
  import opened Lang
  import opened Memory
  import opened Interp
  import opened Lifetimes

  /** Runs `body` for i, i + 1, ..., end - 1, with the counter kept outside memory.  It
      terminates because the counter approaches `end`, not because fuel runs out. */
  ghost function Counting(p: Program, k: nat, env: Env, body: Stmt, it: nat, i: int, end: int, m: Mem, fuel: nat)
    : (r: Res<seq<Value>>)
    requires k <= |p.fns| && EnvShape(env) && env.vals != []
    requires Numbered(m) && it < |m.iters| && fuel > end - i
    decreases end - i
  {
    if i >= end then Ok(env.vals, m)
    else
      var env1 := env.(vals := env.vals[|env.vals| - 1 := VInt(i)]);
      var m1 := m.(iters := m.iters[it := (i + 1, end)]);
      ExecTidy(p, k, Inner(env1), body, m1, fuel);
      var (vals, m2) :- Exec(p, k, Inner(env1), body, m1, fuel);
      Counting(p, k, env.(vals := vals[..|env.vals|]), body, it, i + 1, end, m2, fuel - 1)
  }

  lemma {:induction false} LoopIsCounting(p: Program, k: nat, env: Env, body: Stmt, it: nat, i: int, end: int, m: Mem, fuel: nat)
    requires k <= |p.fns| && EnvShape(env) && env.vals != []
    requires Numbered(m) && it < |m.iters| && m.iters[it] == (i, end)
    requires IsWord(i) && IsWord(end) && fuel > end - i && fuel > 0
    ensures ForLoop(p, k, env, body, it, m, fuel) == Counting(p, k, env, body, it, i, end, m, fuel)
    decreases end - i
  {
    hide Exec, Find;
    if i < end {
      var (v, m1) := Next(m, it);
      assert v == VInt(i) && m1.iters[it] == (i + 1, end);
      var env1 := env.(vals := env.vals[|env.vals| - 1 := v]);
      var r := Exec(p, k, Inner(env1), body, m1, fuel);
      if r.Ok? {
        ExecTidy(p, k, Inner(env1), body, m1, fuel);
        assert r.mem.iters[it] == (i + 1, end);
        LoopIsCounting(p, k, env.(vals := r.value[..|env.vals|]), body, it, i + 1, end, r.mem, fuel - 1);
      }
    }
  }

  /** The whole statement, for bounds that evaluate to a and b: the body runs for exactly
      a, ..., b - 1, in that order (not at all when a >= b), whatever the body does. */
  lemma ForIsCounting(p: Program, k: nat, env: Env, s: Stmt, m: Mem, fuel: nat)
    requires k <= |p.fns| && EnvShape(env) && Numbered(m) && s.For?
    requires var r := Eval(p, k, env, s.lo, m, fuel);
             r.Ok? && r.value.VInt? && IsWord(r.value.n)
             && var q := Eval(p, k, env, s.hi, r.mem, fuel);
             q.Ok? && q.value.VInt? && IsWord(q.value.n) && fuel > q.value.n - r.value.n && fuel > 0
    ensures var r := Eval(p, k, env, s.lo, m, fuel);
            var q := Eval(p, k, env, s.hi, r.mem, fuel);
            var a, b := r.value.n, q.value.n;
            var m1 := q.mem.(iters := q.mem.iters + [(a, b)]);
            && Numbered(m1)
            && Exec(p, k, env, s, m, fuel)
            == Counting(p, k, Extend(env, Tag(s.x, false, env.depth), Undef), s.body, |q.mem.iters|, a, b, m1, fuel)
  {
    var r := Eval(p, k, env, s.lo, m, fuel);
    EvalTidy(p, k, env, s.lo, m, fuel);
    var q := Eval(p, k, env, s.hi, r.mem, fuel);
    EvalTidy(p, k, env, s.hi, r.mem, fuel);
    var m1 := NewIter(q.mem, r.value, q.value).mem;
    LoopIsCounting(p, k, Extend(env, Tag(s.x, false, env.depth), Undef), s.body, |q.mem.iters|,
                   r.value.n, q.value.n, m1, fuel);
  }
}
