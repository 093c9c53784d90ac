/** Region lifetimes are a stack, in every run of every program, checked or not.

    The log of a run is replayed against a stack: opening pushes a region, and deleting is
    only possible for the region on top. */
module Lifetimes {
  import opened Basics
  import opened RegionTypes
  import opened Lang
  import opened Memory
  import opened Interp
  import RegionSafety

  /** The stack of open regions after a log, or `None` if some deletion was out of order. */
  function Replay(log: seq<Event>, stack: seq<nat>): Option<seq<nat>> {
    if log == [] then Some(stack)
    else match log[0]
      case Opened(r) => Replay(log[1..], stack + [r])
      case Closed(r) =>
        if stack != [] && stack[|stack| - 1] == r then Replay(log[1..], stack[..|stack| - 1]) else None
  }

  ghost predicate Balanced(log: seq<Event>) {
    forall stack :: Replay(log, stack) == Some(stack)
  }

  function Opens(log: seq<Event>): seq<nat> {
    if log == [] then []
    else (if log[0].Opened? then [log[0].rid] else []) + Opens(log[1..])
  }

  function Closes(log: seq<Event>): seq<nat> {
    if log == [] then []
    else (if log[0].Closed? then [log[0].rid] else []) + Closes(log[1..])
  }

  function Range(lo: nat, hi: nat): seq<nat>
    requires lo <= hi
  {
    seq(hi - lo, i requires 0 <= i < hi - lo => lo + i)
  }

  lemma {:induction false} ReplayConcat(a: seq<Event>, b: seq<Event>, stack: seq<nat>)
    ensures Replay(a + b, stack) ==
            match Replay(a, stack) case None => None case Some(mid) => Replay(b, mid)
  {
    if a == [] {
      assert a + b == b;
    } else {
      assert (a + b)[1..] == a[1..] + b;
      match a[0]
      case Opened(r) => ReplayConcat(a[1..], b, stack + [r]);
      case Closed(r) => if stack != [] { ReplayConcat(a[1..], b, stack[..|stack| - 1]); }
    }
  }

  lemma {:induction false} OpensConcat(a: seq<Event>, b: seq<Event>)
    ensures Opens(a + b) == Opens(a) + Opens(b)
  {
    if a == [] {
      assert a + b == b;
    } else {
      assert (a + b)[1..] == a[1..] + b && (a + b)[0] == a[0];
      OpensConcat(a[1..], b);
      var first := if a[0].Opened? then [a[0].rid] else [];
      assert Opens(a + b) == first + (Opens(a[1..]) + Opens(b)) == (first + Opens(a[1..])) + Opens(b);
    }
  }

  lemma BalancedConcat(a: seq<Event>, b: seq<Event>)
    requires Balanced(a) && Balanced(b)
    ensures Balanced(a + b)
  {
    forall stack
      ensures Replay(a + b, stack) == Some(stack)
    {
      ReplayConcat(a, b, stack);
    }
  }

  lemma BalancedWrap(r: nat, a: seq<Event>)
    requires Balanced(a)
    ensures Balanced([Opened(r)] + a + [Closed(r)])
  {
    forall stack
      ensures Replay([Opened(r)] + a + [Closed(r)], stack) == Some(stack)
    {
      var top := stack + [r];
      ReplayConcat([Opened(r)] + a, [Closed(r)], stack);
      ReplayConcat([Opened(r)], a, stack);
      assert Replay(a, top) == Some(top);
      assert top[..|top| - 1] == stack;
      assert [Closed(r)][1..] == [] && [Opened(r)][1..] == [];
    }
  }

  /** How often `r` occurs. */
  function Times(s: seq<nat>, r: nat): nat {
    if s == [] then 0 else (if s[0] == r then 1 else 0) + Times(s[1..], r)
  }

  lemma {:induction false} TimesSnoc(s: seq<nat>, x: nat, r: nat)
    ensures Times(s + [x], r) == Times(s, r) + if x == r then 1 else 0
  {
    if s == [] {
      assert s + [x] == [x] && [x][1..] == [];
    } else {
      assert (s + [x])[1..] == s[1..] + [x];
      TimesSnoc(s[1..], x, r);
    }
  }

  lemma {:induction false} TimesRange(lo: nat, hi: nat, r: nat)
    requires lo <= hi
    ensures Times(Range(lo, hi), r) == if lo <= r < hi then 1 else 0
    decreases hi - lo
  {
    if lo < hi {
      assert Range(lo, hi)[1..] == Range(lo + 1, hi);
      TimesRange(lo + 1, hi, r);
    }
  }

  /** Along a replay nothing is lost: opened and initial regions are deleted or still open. */
  lemma {:induction false} ReplayConserves(log: seq<Event>, stack: seq<nat>, r: nat)
    requires Replay(log, stack).Some?
    ensures Times(Opens(log), r) + Times(stack, r) == Times(Closes(log), r) + Times(Replay(log, stack).value, r)
  {
    if log != [] {
      match log[0]
      case Opened(q) =>
        ReplayConserves(log[1..], stack + [q], r);
        TimesSnoc(stack, q, r);
        assert Opens(log)[1..] == Opens(log[1..]) && Closes(log) == Closes(log[1..]);
      case Closed(q) =>
        var below := stack[..|stack| - 1];
        assert stack == below + [q];
        ReplayConserves(log[1..], below, r);
        TimesSnoc(below, q, r);
        assert Closes(log)[1..] == Closes(log[1..]) && Opens(log) == Opens(log[1..]);
    }
  }

  /** What a completed run did from `m` to `m1`: it opened regions with consecutive new
      numbers, deleted all of them last-opened-first, and left older loop iterators alone. */
  ghost predicate Tidy(m: Mem, m1: Mem) {
    && Numbered(m1) && m1.live == m.live && m.nextRid <= m1.nextRid
    && m.log <= m1.log
    && Balanced(m1.log[|m.log|..])
    && Opens(m1.log[|m.log|..]) == Range(m.nextRid, m1.nextRid)
    && m.iters <= m1.iters
  }

  ghost predicate Numbered(m: Mem) {
    forall r :: r in m.live ==> r < m.nextRid
  }

  lemma TidyQuiet(m: Mem, m1: Mem)
    requires Numbered(m) && m1.live == m.live && m1.nextRid == m.nextRid && m1.log == m.log && m.iters <= m1.iters
    ensures Tidy(m, m1)
  {
    assert m1.log[|m.log|..] == [];
  }

  lemma TidyTrans(m: Mem, m1: Mem, m2: Mem)
    requires Tidy(m, m1) && Tidy(m1, m2)
    ensures Tidy(m, m2)
  {
    var a, b := m1.log[|m.log|..], m2.log[|m1.log|..];
    assert m2.log[|m.log|..] == a + b;
    BalancedConcat(a, b);
    OpensConcat(a, b);
    assert Range(m.nextRid, m2.nextRid) == Range(m.nextRid, m1.nextRid) + Range(m1.nextRid, m2.nextRid);
  }

  lemma TidyOn(m: Mem, m1: Mem)
    requires Numbered(m) && Tidy(OpenRegion(m).1, m1)
    ensures var r := CloseRegion(m1, m.nextRid);
            r.Ok? && Tidy(m, r.mem)
  {
    var (rid, m0) := OpenRegion(m);
    var m2 := CloseRegion(m1, rid).mem;
    var a := m1.log[|m0.log|..];
    assert m2.log[|m.log|..] == [Opened(rid)] + a + [Closed(rid)];
    BalancedWrap(rid, a);
    OpensConcat([Opened(rid)] + a, [Closed(rid)]);
    OpensConcat([Opened(rid)], a);
    assert [Opened(rid)][1..] == [] && [Closed(rid)][1..] == [];
    assert Range(m.nextRid, m1.nextRid) == [rid] + Range(m0.nextRid, m1.nextRid);
    assert m2.live == m.live;
  }

  lemma {:induction false} EvalTidy(p: Program, k: nat, env: Env, e: Expr, m: Mem, fuel: nat)
    requires k <= |p.fns| && EnvShape(env) && Numbered(m)
    ensures Eval(p, k, env, e, m, fuel).Ok? ==> Tidy(m, Eval(p, k, env, e, m, fuel).mem)
    decreases fuel, k, e
  {
    var r := Eval(p, k, env, e, m, fuel);
    if r.Ok? {
      match e
      case Num(_) => TidyQuiet(m, r.mem);
      case Get(_) => TidyQuiet(m, r.mem);
      case Bin(_, a, b) => EvalTidy2(p, k, env, e, a, b, m, fuel);
      case Lit(es) =>
        ListTidy(p, k, env, es, m, fuel);
        var m1 := EvalList(p, k, env, es, m, fuel).mem;
        TidyQuiet(m1, r.mem);
        TidyTrans(m, m1, r.mem);
      case Fill(a, b) =>
        EvalTidy2(p, k, env, e, a, b, m, fuel);
        var m2 := Eval(p, k, env, b, Eval(p, k, env, a, m, fuel).mem, fuel).mem;
        TidyQuiet(m2, r.mem);
        TidyTrans(m, m2, r.mem);
      case Elem(a, b) => EvalTidy2(p, k, env, e, a, b, m, fuel);
      case Length(a) => EvalTidy(p, k, env, a, m, fuel);
      case Field(a, _) => EvalTidy(p, k, env, a, m, fuel);
      case New(_, _) => TidyQuiet(m, r.mem);
      case Call(f, rs, args) =>
        ListTidy(p, k, env, args, m, fuel);
        var q := EvalList(p, k, env, args, m, fuel);
        var h := GetHandle(env.handles, CallRegions(rs, Default(env).0)[0]);
        FnTidy(p, FindFn(p, k, f).value, h.value, q.value, q.mem, fuel);
        TidyTrans(m, q.mem, r.mem);
    }
  }

  lemma EvalTidy2(p: Program, k: nat, env: Env, e: Expr, a: Expr, b: Expr, m: Mem, fuel: nat)
    requires k <= |p.fns| && EnvShape(env) && Numbered(m) && a < e && b < e
    requires Eval(p, k, env, a, m, fuel).Ok?
    requires Eval(p, k, env, b, Eval(p, k, env, a, m, fuel).mem, fuel).Ok?
    ensures Tidy(m, Eval(p, k, env, b, Eval(p, k, env, a, m, fuel).mem, fuel).mem)
    decreases fuel, k, e, 0
  {
    EvalTidy(p, k, env, a, m, fuel);
    var m1 := Eval(p, k, env, a, m, fuel).mem;
    EvalTidy(p, k, env, b, m1, fuel);
    TidyTrans(m, m1, Eval(p, k, env, b, m1, fuel).mem);
  }

  lemma {:induction false} ListTidy(p: Program, k: nat, env: Env, es: seq<Expr>, m: Mem, fuel: nat)
    requires k <= |p.fns| && EnvShape(env) && Numbered(m)
    ensures EvalList(p, k, env, es, m, fuel).Ok? ==> Tidy(m, EvalList(p, k, env, es, m, fuel).mem)
    decreases fuel, k, es
  {
    var r := EvalList(p, k, env, es, m, fuel);
    if r.Ok? {
      if es == [] {
        TidyQuiet(m, m);
      } else {
        EvalTidy(p, k, env, es[0], m, fuel);
        var m1 := Eval(p, k, env, es[0], m, fuel).mem;
        ListTidy(p, k, env, es[1..], m1, fuel);
        TidyTrans(m, m1, r.mem);
      }
    }
  }

  lemma {:induction false} FnTidy(p: Program, j: nat, rid: nat, vs: seq<Value>, m: Mem, fuel: nat)
    requires j < |p.fns| && Numbered(m)
    ensures RunFn(p, j, rid, vs, m, fuel).Ok? ==> Tidy(m, RunFn(p, j, rid, vs, m, fuel).mem)
    decreases fuel, j
  {
    var r := RunFn(p, j, rid, vs, m, fuel);
    if r.Ok? {
      var fn := p.fns[j];
      var env := FnEnv(fn, rid, vs);
      ExecTidy(p, j, env, fn.body, m, fuel);
      var q := Exec(p, j, env, fn.body, m, fuel);
      if fn.result.Some? {
        EvalTidy(p, j, EnvAfter(env, fn.body, q.value), fn.result.value, q.mem, fuel);
        TidyTrans(m, q.mem, r.mem);
      }
    }
  }

  lemma TargetTidy(p: Program, k: nat, env: Env, t: Expr, m: Mem, fuel: nat)
    requires k <= |p.fns| && EnvShape(env) && Numbered(m)
    ensures EvalTarget(p, k, env, t, m, fuel).Ok? ==> Tidy(m, EvalTarget(p, k, env, t, m, fuel).mem)
    decreases fuel, k, t, 2
  {
    var r := EvalTarget(p, k, env, t, m, fuel);
    if r.Ok? {
      match t
      case Elem(a, b) => EvalTidy2(p, k, env, t, a, b, m, fuel);
      case Field(o, _) => EvalTidy(p, k, env, o, m, fuel);
      case _ => TidyQuiet(m, m);
    }
  }

  lemma {:induction false} ExecTidy(p: Program, k: nat, env: Env, s: Stmt, m: Mem, fuel: nat)
    requires k <= |p.fns| && EnvShape(env) && Numbered(m)
    ensures Exec(p, k, env, s, m, fuel).Ok? ==> Tidy(m, Exec(p, k, env, s, m, fuel).mem)
    decreases fuel, k, s, 1
  {
    hide Find, Eval, EvalTarget, Balanced, Opens, Range;
    var r := Exec(p, k, env, s, m, fuel);
    if r.Ok? {
      match s
      case Skip => TidyQuiet(m, m);
      case Seq(a, b) =>
        ExecTidy(p, k, env, a, m, fuel);
        var q := Exec(p, k, env, a, m, fuel);
        ExecTidy(p, k, EnvAfter(env, a, q.value), b, q.mem, fuel);
        TidyTrans(m, q.mem, r.mem);
      case Var(_, e) => EvalTidy(p, k, env, e, m, fuel);
      case Let(_, e) => EvalTidy(p, k, env, e, m, fuel);
      case Assign(t, e) =>
        TargetTidy(p, k, env, t, m, fuel);
        var q := EvalTarget(p, k, env, t, m, fuel);
        EvalTidy(p, k, env, e, q.mem, fuel);
        var m2 := Eval(p, k, env, e, q.mem, fuel).mem;
        TidyQuiet(m2, r.mem);
        TidyTrans(m, q.mem, m2);
        TidyTrans(m, m2, r.mem);
      case Do(e) => EvalTidy(p, k, env, e, m, fuel);
      case If(c, a, b) => IfTidy(p, k, env, s, m, fuel);
      case While(c, body) => WhileTidy(p, k, env, s, m, fuel);
      case For(x, lo, hi, body) => ForTidy(p, k, env, s, m, fuel);
      case On(name, body) =>
        var (rid, m1) := OpenRegion(m);
        var env1 := Inner(env).(handles := env.handles + [(name, rid)]);
        ExecTidy(p, k, env1, body, m1, fuel);
        TidyOn(m, Exec(p, k, env1, body, m1, fuel).mem);
    }
  }

  lemma IfTidy(p: Program, k: nat, env: Env, s: Stmt, m: Mem, fuel: nat)
    requires k <= |p.fns| && EnvShape(env) && Numbered(m) && s.If? && Exec(p, k, env, s, m, fuel).Ok?
    ensures Tidy(m, Exec(p, k, env, s, m, fuel).mem)
    decreases fuel, k, s, 0
  {
    EvalTidy(p, k, env, s.c, m, fuel);
    var c := Eval(p, k, env, s.c, m, fuel);
    if c.value.b {
      ExecTidy(p, k, env, s.thn, c.mem, fuel);
    } else {
      var env1 := EnvAfter(env, s.thn, env.vals + Undefs(|Declared(s.thn, env.depth)|));
      ExecTidy(p, k, env1, s.els, c.mem, fuel);
    }
    TidyTrans(m, c.mem, Exec(p, k, env, s, m, fuel).mem);
  }

  lemma WhileTidy(p: Program, k: nat, env: Env, s: Stmt, m: Mem, fuel: nat)
    requires k <= |p.fns| && EnvShape(env) && Numbered(m) && s.While? && Exec(p, k, env, s, m, fuel).Ok?
    ensures Tidy(m, Exec(p, k, env, s, m, fuel).mem)
    decreases fuel, k, s, 0
  {
    EvalTidy(p, k, env, s.c, m, fuel);
    var c := Eval(p, k, env, s.c, m, fuel);
    if c.value.b {
      ExecTidy(p, k, Inner(env), s.body, c.mem, fuel);
      var q := Exec(p, k, Inner(env), s.body, c.mem, fuel);
      var env1 := env.(vals := q.value[..|env.vals|]);
      ExecTidy(p, k, env1, s, q.mem, fuel - 1);
      TidyTrans(m, c.mem, q.mem);
      TidyTrans(m, q.mem, Exec(p, k, env, s, m, fuel).mem);
    }
  }

  lemma ForTidy(p: Program, k: nat, env: Env, s: Stmt, m: Mem, fuel: nat)
    requires k <= |p.fns| && EnvShape(env) && Numbered(m) && s.For? && Exec(p, k, env, s, m, fuel).Ok?
    ensures Tidy(m, Exec(p, k, env, s, m, fuel).mem)
    decreases fuel, k, s, 0
  {
    EvalTidy(p, k, env, s.lo, m, fuel);
    var a := Eval(p, k, env, s.lo, m, fuel);
    EvalTidy(p, k, env, s.hi, a.mem, fuel);
    var b := Eval(p, k, env, s.hi, a.mem, fuel);
    TidyTrans(m, a.mem, b.mem);
    var it := NewIter(b.mem, a.value, b.value);
    TidyQuiet(b.mem, it.mem);
    LoopTidy(p, k, Extend(env, Tag(s.x, false, env.depth), Undef), s.body, it.value.it, b.mem, it.mem, fuel);
    TidyTrans(m, b.mem, Exec(p, k, env, s, m, fuel).mem);
  }

  /** The loop advances only its own iterator, which did not exist in `m0`. */
  lemma {:induction false} LoopTidy(p: Program, k: nat, env: Env, body: Stmt, it: nat, m0: Mem, m: Mem, fuel: nat)
    requires k <= |p.fns| && EnvShape(env) && env.vals != [] && Tidy(m0, m) && |m0.iters| <= it
    ensures ForLoop(p, k, env, body, it, m, fuel).Ok? ==> Tidy(m0, ForLoop(p, k, env, body, it, m, fuel).mem)
    decreases fuel, k, body, 2
  {
    if ForLoop(p, k, env, body, it, m, fuel).Ok? && HasNext(m, it) {
      var (v, m1) := Next(m, it);
      assert Tidy(m0, m1);
      var env1 := env.(vals := env.vals[|env.vals| - 1 := v]);
      ExecTidy(p, k, Inner(env1), body, m1, fuel);
      var q := Exec(p, k, Inner(env1), body, m1, fuel);
      TidyTrans(m0, m1, q.mem);
      LoopTidy(p, k, env.(vals := q.value[..|env.vals|]), body, it, m0, q.mem, fuel - 1);
    }
  }

  /** A statement leaves the live regions as they were and deletes every region it opened,
      last opened first. */
  lemma StatementLifetimes(p: Program, k: nat, env: Env, s: Stmt, m: Mem, fuel: nat)
    requires k <= |p.fns| && EnvShape(env) && Numbered(m)
    requires Exec(p, k, env, s, m, fuel).Ok?
    ensures var m1 := Exec(p, k, env, s, m, fuel).mem;
            && m1.live == m.live && m.log <= m1.log
            && forall stack :: Replay(m1.log[|m.log|..], stack) == Some(stack)
  {
    ExecTidy(p, k, env, s, m, fuel);
  }

  /** Over a whole run every region opened is deleted exactly once, in stack order. */
  lemma RunLifetimes(p: Program, main: nat, fuel: nat) returns (n: nat)
    requires main < |p.fns| && RegionSafety.RunMain(p, main, fuel).Ok?
    ensures var log := RegionSafety.RunMain(p, main, fuel).mem.log;
            && Replay(log, []) == Some([])
            && Opens(log) == Range(0, n)
            && forall r: nat :: Times(Closes(log), r) == if r < n then 1 else 0
  {
    var (rid, m) := OpenRegion(EMPTY);
    FnTidy(p, main, rid, [], m, fuel);
    var q := RunFn(p, main, rid, [], m, fuel);
    TidyOn(EMPTY, q.mem);
    var m1 := CloseRegion(q.mem, rid).mem;
    assert m1.log == m1.log[|EMPTY.log|..];
    n := m1.nextRid;
    forall r: nat
      ensures Times(Closes(m1.log), r) == if r < n then 1 else 0
    {
      ReplayConserves(m1.log, [], r);
      TimesRange(0, n, r);
    }
  }
}
