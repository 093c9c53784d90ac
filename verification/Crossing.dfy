/** Paths through emitted blocks that avoid a given register or slot.

    A path can cross the code of an expression without writing anything that was there before,
    and so it can cross the code of a statement, unless it reads something unwritten in it. */
module Crossing {
  import opened Basics
  import opened RegionTypes
  import opened Lang
  import opened Ir
  import opened Lowering
  import opened Growth
  import opened FillLoop
  import opened WellFormed
  import opened Dominance

  // ---------- Paths that avoid a cell ----------

  ghost predicate Avoids(g: Graph, a: set<Cell>, ps: seq<(nat, nat)>, p: (nat, nat), x: Cell) {
    Path(g, ps) && ps[0] == (0, 0) && ps[|ps| - 1] == p && x !in Written(g, ps, a)
  }

  /** Control can come from the entry to position `p` without writing `x`. */
  ghost predicate Reaches(g: Graph, a: set<Cell>, p: (nat, nat), x: Cell) {
    exists ps :: Avoids(g, a, ps, p, x)
  }

  /** The insertion point. */
  function End(g: Graph): (nat, nat) {
    if g.cur < |g.blocks| then (g.cur, |g.blocks[g.cur].instrs|) else (0, 0)
  }

  lemma {:induction false} PathWiden(g: Graph, h: Graph, ps: seq<(nat, nat)>, a: set<Cell>)
    requires Extends(g, h) && Path(g, ps)
    ensures Path(h, ps) && Written(h, ps, a) == Written(g, ps, a)
    decreases |ps|
  {
    forall k | 0 <= k < |ps| - 1 ensures Flows(h, ps[k], ps[k + 1]) {
      assert Flows(g, ps[k], ps[k + 1]);
      assert At(h, ps[k].0, ps[k].1) == At(g, ps[k].0, ps[k].1);
    }
    if |ps| > 1 {
      var qs, p := ps[..|ps| - 1], ps[|ps| - 2];
      forall k | 0 <= k < |qs| - 1 ensures Flows(g, qs[k], qs[k + 1]) { assert Flows(g, ps[k], ps[k + 1]); }
      PathWiden(g, h, qs, a);
      assert Flows(g, ps[|ps| - 2], ps[|ps| - 1]);
    }
  }

  lemma ReachesWiden(g: Graph, h: Graph, a: set<Cell>, p: (nat, nat), x: Cell)
    requires Extends(g, h) && Reaches(g, a, p, x)
    ensures Reaches(h, a, p, x)
  {
    var ps :| Avoids(g, a, ps, p, x);
    PathWiden(g, h, ps, a);
    assert Avoids(h, a, ps, p, x);
  }

  lemma ViolatedWiden(g: Graph, h: Graph, a: set<Cell>)
    requires Extends(g, h) && !DefinesFirst(g, a)
    ensures !DefinesFirst(h, a)
  {
    var ps: seq<(nat, nat)> :| !ReadsOnPath(g, a, ps);
    PathWiden(g, h, ps, a);
    var p := ps[|ps| - 1];
    assert At(h, p.0, p.1) == At(g, p.0, p.1);
    assert !ReadsOnPath(h, a, ps);
  }

  lemma ReachesStep(g: Graph, a: set<Cell>, p: (nat, nat), q: (nat, nat), x: Cell)
    requires Reaches(g, a, p, x) && Flows(g, p, q)
    requires match At(g, p.0, p.1) case Some(I(i)) => x !in Defs(i) case _ => true
    ensures Reaches(g, a, q, x)
  {
    var ps :| Avoids(g, a, ps, p, x);
    var qs := ps + [q];
    assert qs[..|qs| - 1] == ps;
    forall k | 0 <= k < |qs| - 1 ensures Flows(g, qs[k], qs[k + 1]) {
      if k < |ps| - 1 { assert Flows(g, ps[k], ps[k + 1]); }
    }
    assert Avoids(g, a, qs, q, x);
  }

  lemma ReadViolates(g: Graph, a: set<Cell>, p: (nat, nat), x: Cell)
    requires Reaches(g, a, p, x) && At(g, p.0, p.1).Some? && x in ItemUses(At(g, p.0, p.1).value)
    ensures !DefinesFirst(g, a)
  {
    var ps :| Avoids(g, a, ps, p, x);
    assert !ReadsOnPath(g, a, ps);
  }

  // ---------- Builder steps ----------

  lemma EmitReaches(g: Graph, h: Graph, a: set<Cell>, i: Instr, x: Cell)
    requires Open(g) && h.blocks == Emit(g, i).blocks && h.cur == g.cur && Reaches(g, a, End(g), x) && x !in Defs(i)
    ensures Reaches(h, a, End(h), x)
  {
    SameExtends(g, h, i);
    ReachesWiden(g, h, a, End(g), x);
    assert At(h, g.cur, End(g).1) == Some(I(i));
    ReachesStep(h, a, End(g), End(h), x);
  }

  lemma SameExtends(g: Graph, h: Graph, i: Instr)
    requires Open(g) && h.blocks == Emit(g, i).blocks
    ensures Extends(g, h)
  {
    EmitNested(g, i);
    assert forall b: nat, x: nat :: At(h, b, x) == At(Emit(g, i), b, x);
  }

  lemma EmitViolates(g: Graph, h: Graph, a: set<Cell>, i: Instr, x: Cell)
    requires Open(g) && h.blocks == Emit(g, i).blocks && Reaches(g, a, End(g), x) && x in Uses(i)
    ensures !DefinesFirst(h, a)
  {
    SameExtends(g, h, i);
    ReachesWiden(g, h, a, End(g), x);
    assert At(h, g.cur, End(g).1) == Some(I(i));
    ReadViolates(h, a, End(g), x);
  }

  lemma TermExtends(g: Graph, h: Graph, t: Term)
    requires Open(g) && h.blocks == Terminate(g, t).blocks
    ensures Extends(g, h) && At(h, End(g).0, End(g).1) == Some(T(t))
  {
    forall b: nat, i: nat | At(g, b, i).Some? ensures At(h, b, i) == At(g, b, i) {}
  }

  lemma JumpReaches(g: Graph, h: Graph, a: set<Cell>, t: Term, b: nat, x: Cell)
    requires Open(g) && h.blocks == Terminate(g, t).blocks && Reaches(g, a, End(g), x) && b in Targets(t)
    ensures Reaches(h, a, (b, 0), x)
  {
    TermExtends(g, h, t);
    ReachesWiden(g, h, a, End(g), x);
    ReachesStep(h, a, End(g), (b, 0), x);
  }

  lemma JumpViolates(g: Graph, h: Graph, a: set<Cell>, t: Term, x: Cell)
    requires Open(g) && h.blocks == Terminate(g, t).blocks && Reaches(g, a, End(g), x) && x in TermUses(t)
    ensures !DefinesFirst(h, a)
  {
    TermExtends(g, h, t);
    ReachesWiden(g, h, a, End(g), x);
    ReadViolates(h, a, End(g), x);
  }

  // ---------- Code that a path can cross ----------

  predicate Below(x: Cell, g: Graph) {
    match x
    case R(r) => r < g.nregs
    case S(s) => s < g.nslots
  }

  predicate Counts(g: Graph, h: Graph) { g.nregs <= h.nregs && g.nslots <= h.nslots }

  /** Whatever can be avoided up to the end of `g`, and is not new in `h`, can be avoided up to
      position `p` of `h`. */
  ghost predicate KeepsTo(g: Graph, h: Graph, p: (nat, nat), a: set<Cell>) {
    && Counts(g, h)
    && forall x :: Reaches(g, a, End(g), x) && (Below(x, g) || !Below(x, h)) ==> Reaches(h, a, p, x)
  }

  ghost predicate Keeps(g: Graph, h: Graph, a: set<Cell>) { KeepsTo(g, h, End(h), a) }

  lemma KeepsThen(g: Graph, h: Graph, k: Graph, p: (nat, nat), a: set<Cell>)
    requires Keeps(g, h, a) && KeepsTo(h, k, p, a)
    ensures KeepsTo(g, k, p, a)
  {
    hide Reaches;
  }

  lemma KeepsWiden(g: Graph, h: Graph, k: Graph, p: (nat, nat), a: set<Cell>)
    requires KeepsTo(g, h, p, a) && Extends(h, k) && Counts(h, k)
    ensures KeepsTo(g, k, p, a)
  {
    forall x | Reaches(g, a, End(g), x) && (Below(x, g) || !Below(x, k)) ensures Reaches(k, a, p, x) {
      ReachesWiden(h, k, a, p, x);
    }
  }

  lemma KeepsSelf(g: Graph, a: set<Cell>)
    ensures Keeps(g, g, a)
  {
  }

  lemma EmitKeeps(g: Graph, h: Graph, i: Instr, a: set<Cell>)
    requires Open(g) && h.blocks == Emit(g, i).blocks && h.cur == g.cur && Counts(g, h)
    requires forall x :: x in Defs(i) ==> !Below(x, g) && Below(x, h)
    ensures Keeps(g, h, a)
  {
    forall x | Reaches(g, a, End(g), x) && (Below(x, g) || !Below(x, h)) ensures Reaches(h, a, End(h), x) {
      EmitReaches(g, h, a, i, x);
    }
  }

  lemma DefineKeeps(g: Graph, i: Instr, a: set<Cell>)
    requires Open(g) && Dst(i) == Some(g.nregs)
    ensures Keeps(g, Define(g, i), a)
  {
    EmitKeeps(g, Define(g, i), i, a);
  }

  lemma NewVarKeeps(g: Graph, o: Operand, a: set<Cell>)
    requires Open(g)
    ensures Keeps(g, NewVar(g, o), a)
  {
    EmitKeeps(g, NewVar(g, o), StoreVar(g.nslots, o), a);
  }

  lemma CreateKeeps(g: Graph, k: nat, a: set<Cell>)
    requires Open(g)
    ensures Keeps(g, Create(g, k), a) && Keeps(g, Append(Create(g, k), |g.blocks|), a)
  {
    var h := Create(g, k);
    CreateNested(g, k);
    var h1 := Append(h, |g.blocks|);
    assert Extends(g, h1) by { assert forall b: nat, x: nat :: At(h1, b, x) == At(h, b, x); }
    KeepsSelf(g, a);
    KeepsWiden(g, g, h, End(g), a);
    KeepsWiden(g, g, h1, End(g), a);
  }

  lemma JumpKeeps(g: Graph, h: Graph, t: Term, b: nat, a: set<Cell>)
    requires Open(g) && h.blocks == Terminate(g, t).blocks && Counts(g, h) && b in Targets(t)
    ensures KeepsTo(g, h, (b, 0), a)
  {
    forall x | Reaches(g, a, End(g), x) && (Below(x, g) || !Below(x, h)) ensures Reaches(h, a, (b, 0), x) {
      JumpReaches(g, h, a, t, b, x);
    }
  }

  lemma GoToKeeps(g: Graph, t: Term, b: nat, a: set<Cell>)
    requires Open(g) && Waiting(g, b) && b in Targets(t)
    ensures Keeps(g, GoTo(g, t, b), a) && Keeps(g, Enter(g, t, b), a)
    ensures forall c :: c in Targets(t) ==> KeepsTo(g, GoTo(g, t, b), (c, 0), a) && KeepsTo(g, Enter(g, t, b), (c, 0), a)
  {
    forall c | c in Targets(t)
      ensures KeepsTo(g, GoTo(g, t, b), (c, 0), a) && KeepsTo(g, Enter(g, t, b), (c, 0), a)
    {
      JumpKeeps(g, GoTo(g, t, b), t, c, a);
      JumpKeeps(g, Enter(g, t, b), t, c, a);
    }
  }

  lemma NestedCounts(g: Graph, h: Graph)
    requires Nested(g, h)
    ensures Extends(g, h) && Counts(g, h) && Open(h)
  {
  }

  // ---------- Expressions can be crossed ----------

  lemma {:induction false} ExprKeeps(g: Graph, cx: LCx, e: Expr, a: set<Cell>)
    requires Open(g)
    ensures Keeps(g, LowerExpr(g, cx, e).0, a)
    decreases e, 1
  {
    hide Keeps;
    var h := LowerExpr(g, cx, e).0;
    KeepsSelf(g, a);
    match e
    case Get(x) =>
      if HomeOf(cx, x).Some? && HomeOf(cx, x).value.InSlot? { DefineKeeps(g, LoadVar(g.nregs, HomeOf(cx, x).value.slot), a); }
    case Bin(op, l, r) =>
      TwoKeep(g, cx, e, l, r, a);
      var g1, x := LowerExpr(g, cx, l).0, LowerExpr(g, cx, l).1;
      ThenDefineKeeps(g, LowerExpr(g1, cx, r).0, BinI(LowerExpr(g1, cx, r).0.nregs, op, x, LowerExpr(g1, cx, r).1), a);
    case Lit(es) => LitKeeps(g, cx, e, a);
    case Fill(l, r) =>
      TwoKeep(g, cx, e, l, r, a);
      var g1, x := LowerExpr(g, cx, l).0, LowerExpr(g, cx, l).1;
      var g2, n := LowerExpr(g1, cx, r).0, LowerExpr(g1, cx, r).1;
      FillKeeps(g2, Lowering.Default(cx).1, x, n, a);
      BothKeep(g, g2, h, a);
    case Elem(l, r) =>
      TwoKeep(g, cx, e, l, r, a);
      var g1, x := LowerExpr(g, cx, l).0, LowerExpr(g, cx, l).1;
      ThenDefineKeeps(g, LowerExpr(g1, cx, r).0, LoadI(LowerExpr(g1, cx, r).0.nregs, x, LowerExpr(g1, cx, r).1), a);
    case Length(l) =>
      OneKeeps(g, cx, e, l, a);
      ThenDefineKeeps(g, LowerExpr(g, cx, l).0, LengthI(LowerExpr(g, cx, l).0.nregs, LowerExpr(g, cx, l).1), a);
    case Field(l, f) =>
      OneKeeps(g, cx, e, l, a);
      ThenDefineKeeps(g, LowerExpr(g, cx, l).0, LoadF(LowerExpr(g, cx, l).0.nregs, LowerExpr(g, cx, l).1, f), a);
    case New(c, rs) => DefineKeeps(g, NewI(g.nregs, HandleOf(cx, rs), c), a);
    case Call(f, rs, args) =>
      ListKeeps(g, cx, args, a);
      var g1, xs := LowerList(g, cx, args).0, LowerList(g, cx, args).1;
      ThenDefineKeeps(g, g1, CallI(g1.nregs, f, HandleOf(cx, rs), xs), a);
    case _ =>
  }

  lemma BothKeep(g: Graph, h: Graph, k: Graph, a: set<Cell>)
    requires Keeps(g, h, a) && Keeps(h, k, a)
    ensures Keeps(g, k, a)
  {
    KeepsThen(g, h, k, End(k), a);
  }

  lemma ThenDefineKeeps(g: Graph, h: Graph, i: Instr, a: set<Cell>)
    requires Keeps(g, h, a) && Open(h) && Dst(i) == Some(h.nregs)
    ensures Keeps(g, Define(h, i), a)
  {
    hide Keeps;
    DefineKeeps(h, i, a);
    BothKeep(g, h, Define(h, i), a);
  }

  lemma OneKeeps(g: Graph, cx: LCx, e: Expr, l: Expr, a: set<Cell>)
    requires Open(g) && l < e
    ensures Keeps(g, LowerExpr(g, cx, l).0, a) && Open(LowerExpr(g, cx, l).0)
    decreases e, 0
  {
    ExprKeeps(g, cx, l, a);
    ExprNested(g, cx, l);
  }

  lemma TwoKeep(g: Graph, cx: LCx, e: Expr, l: Expr, r: Expr, a: set<Cell>)
    requires Open(g) && l < e && r < e
    ensures var g1 := LowerExpr(g, cx, l).0;
            && Keeps(g, g1, a) && Open(g1) && Keeps(g1, LowerExpr(g1, cx, r).0, a)
            && Keeps(g, LowerExpr(g1, cx, r).0, a) && Open(LowerExpr(g1, cx, r).0)
    decreases e, 0
  {
    hide Keeps, LowerExpr;
    var g1 := LowerExpr(g, cx, l).0;
    ExprKeeps(g, cx, l, a);
    ExprNested(g, cx, l);
    ExprKeeps(g1, cx, r, a);
    ExprNested(g1, cx, r);
    BothKeep(g, g1, LowerExpr(g1, cx, r).0, a);
  }

  lemma {:induction false} ListKeeps(g: Graph, cx: LCx, es: seq<Expr>, a: set<Cell>)
    requires Open(g)
    ensures Keeps(g, LowerList(g, cx, es).0, a) && Open(LowerList(g, cx, es).0)
    decreases es
  {
    hide Keeps;
    if es == [] {
      KeepsSelf(g, a);
    } else {
      var g1 := LowerExpr(g, cx, es[0]).0;
      ExprKeeps(g, cx, es[0], a);
      ExprNested(g, cx, es[0]);
      ListKeeps(g1, cx, es[1..], a);
      BothKeep(g, g1, LowerList(g1, cx, es[1..]).0, a);
    }
  }

  lemma {:induction false} StoresKeep(g: Graph, arr: Operand, xs: seq<Operand>, i: nat, a: set<Cell>)
    requires Open(g) && i <= |xs|
    ensures Keeps(g, StoreAll(g, arr, xs, i), a)
    decreases |xs| - i
  {
    hide Keeps;
    if i == |xs| {
      KeepsSelf(g, a);
    } else {
      var j := StoreI(arr, Imm(i), xs[i]);
      EmitKeeps(g, Emit(g, j), j, a);
      EmitNested(g, j);
      StoresKeep(Emit(g, j), arr, xs, i + 1, a);
      BothKeep(g, Emit(g, j), StoreAll(g, arr, xs, i), a);
    }
  }

  lemma LitKeeps(g: Graph, cx: LCx, e: Expr, a: set<Cell>)
    requires Open(g) && e.Lit?
    ensures Keeps(g, LowerExpr(g, cx, e).0, a)
    decreases e, 0
  {
    hide Keeps;
    var g1, xs := LowerList(g, cx, e.es).0, LowerList(g, cx, e.es).1;
    ListKeeps(g, cx, e.es, a);
    var i := AllocI(g1.nregs, Lowering.Default(cx).1, Imm(|e.es|));
    ThenDefineKeeps(g, g1, i, a);
    EmitNested(g1, i);
    StoresKeep(Define(g1, i), Reg(g1.nregs), xs, 0, a);
    BothKeep(g, Define(g1, i), StoreAll(Define(g1, i), Reg(g1.nregs), xs, 0), a);
  }

  /** Around the loop of `[v; n]`, and into its body. */
  lemma FillStartKeeps(g: Graph, region: Operand, n: Operand, a: set<Cell>)
    requires Open(g)
    ensures Keeps(g, FillStart(g, region, n), a)
  {
    hide Keeps, Nested;
    var i, c := AllocI(g.nregs, region, n), |g.blocks|;
    var g1 := Define(g, i);
    DefineKeeps(g, i, a);
    EmitNested(g, i);
    NestedCounts(g, g1);
    CreateKeeps(g1, 3, a);
    CreateNested(g1, 3);
    var g2 := Create(g1, 3);
    NestedCounts(g1, g2);
    BothKeep(g, g1, g2, a);
    NewVarKeeps(g2, Imm(0), a);
    NewVarNested(g2, Imm(0));
    var g3 := NewVar(g2, Imm(0));
    NestedCounts(g2, g3);
    BothKeep(g, g2, g3, a);
    StillWaiting(g2, g3, c);
    GoToKeeps(g3, Br(c), c, a);
    BothKeep(g, g3, GoTo(g3, Br(c), c), a);
  }

  lemma FillTestKeeps(g: Graph, slot: nat, n: Operand, c: nat, a: set<Cell>)
    requires Open(g) && Waiting(g, c + 1) && Waiting(g, c + 2)
    ensures var h := FillTest(g, slot, n, c);
            Keeps(g, h, a) && KeepsTo(g, h, (c + 2, 0), a)
  {
    hide Keeps, KeepsTo, Nested;
    var i := LoadVar(g.nregs, slot);
    var g1 := Define(g, i);
    DefineKeeps(g, i, a);
    EmitNested(g, i);
    NestedCounts(g, g1);
    var j := BinI(g1.nregs, Lt, Reg(g.nregs), n);
    var g2 := Define(g1, j);
    ThenDefineKeeps(g, g1, j, a);
    EmitNested(g1, j);
    NestedCounts(g1, g2);
    StillWaiting(g, g1, c + 1);
    StillWaiting(g1, g2, c + 1);
    var t := CondBr(Reg(g1.nregs), c + 1, c + 2);
    GoToKeeps(g2, t, c + 1, a);
    BothKeep(g, g2, GoTo(g2, t, c + 1), a);
    KeepsThen(g, g2, GoTo(g2, t, c + 1), (c + 2, 0), a);
  }

  lemma FillKeeps(g: Graph, region: Operand, x: Operand, n: Operand, a: set<Cell>)
    requires Open(g)
    ensures Keeps(g, LowerFill(g, region, x, n), a)
  {
    hide Keeps, KeepsTo, Nested, FillStart, FillTest, FillBody;
    var c, gs := |g.blocks|, FillStart(g, region, n);
    FillStartKeeps(g, region, n, a);
    FillStartNested(g, region, n);
    NestedCounts(g, gs);
    FillTestKeeps(gs, g.nslots, n, c, a);
    var gt, h := FillTest(gs, g.nslots, n, c), LowerFill(g, region, x, n);
    KeepsThen(g, gs, gt, (c + 2, 0), a);
    LoopCodeGrows(gs, g.nslots, n, g.nregs, x, c);
    FillNested(g, region, x, n);
    NestedCounts(g, h);
    FillCounts(gs, g, region, x, n);
    KeepsWiden(g, gt, h, (c + 2, 0), a);
    EndsAt(h, c + 2, g, a);
  }

  lemma FillCounts(gs: Graph, g: Graph, region: Operand, x: Operand, n: Operand)
    requires Open(g) && gs == FillStart(g, region, n)
    ensures Counts(FillTest(gs, g.nslots, n, |g.blocks|), LowerFill(g, region, x, n))
  {
    FillStartNested(g, region, n);
    FillTestGrows(gs, g.nslots, n, |g.blocks|);
    FillBodyNested(FillTest(gs, g.nslots, n, |g.blocks|), g.nslots, Reg(g.nregs), x);
  }

  lemma EndsAt(h: Graph, b: nat, g: Graph, a: set<Cell>)
    requires h.cur == b && b < |h.blocks| && h.blocks[b].instrs == [] && KeepsTo(g, h, (b, 0), a)
    ensures Keeps(g, h, a)
  {
  }

  // ---------- Statements can be crossed ----------

  /** Either some path reads what it has not written, or a path can cross. */
  ghost predicate Crosses(g: Graph, h: Graph, a: set<Cell>) { !DefinesFirst(h, a) || Keeps(g, h, a) }

  lemma CrossesThen(g: Graph, h: Graph, k: Graph, a: set<Cell>)
    requires Crosses(g, h, a) && Crosses(h, k, a) && Extends(h, k)
    ensures Crosses(g, k, a)
  {
    hide Keeps, DefinesFirst;
    if !DefinesFirst(h, a) { ViolatedWiden(h, k, a); } else if Keeps(h, k, a) { BothKeep(g, h, k, a); }
  }

  lemma KeepsCrosses(g: Graph, h: Graph, a: set<Cell>)
    requires Keeps(g, h, a)
    ensures Crosses(g, h, a)
  {
  }

  /** A path that goes on at block `b`, where the code `h` ends. */
  lemma ReachesEnd(g: Graph, k: Graph, h: Graph, b: nat, a: set<Cell>)
    requires KeepsTo(g, k, (b, 0), a) && Extends(k, h) && Counts(k, h)
    requires h.cur == b && b < |h.blocks| && h.blocks[b].instrs == []
    ensures Keeps(g, h, a)
  {
    hide KeepsTo, Keeps;
    KeepsWiden(g, k, h, (b, 0), a);
    EndsAt(h, b, g, a);
  }

  lemma {:induction false} StmtCrosses(g: Graph, cx: LCx, s: Stmt, a: set<Cell>)
    requires Open(g)
    ensures Crosses(g, LowerStmt(g, cx, s).0, a)
    decreases s, 2
  {
    hide Crosses, Keeps, LowerExpr;
    match s
    case Skip => KeepsSelf(g, a); KeepsCrosses(g, g, a);
    case Seq(x, y) =>
      var g1, cx1 := LowerStmt(g, cx, x).0, CxAfter(cx, x, LowerStmt(g, cx, x).1);
      StmtCrosses(g, cx, x, a);
      StmtNested(g, cx, x);
      StmtCrosses(g1, cx1, y, a);
      StmtNested(g1, cx1, y);
      CrossesThen(g, g1, LowerStmt(g1, cx1, y).0, a);
    case Var(_, e) =>
      var g1, o := LowerExpr(g, cx, e).0, LowerExpr(g, cx, e).1;
      ExprKeeps(g, cx, e, a);
      ExprNested(g, cx, e);
      NewVarKeeps(g1, o, a);
      BothKeep(g, g1, NewVar(g1, o), a);
      KeepsCrosses(g, NewVar(g1, o), a);
    case Let(_, e) => ExprKeeps(g, cx, e, a); KeepsCrosses(g, LowerExpr(g, cx, e).0, a);
    case Assign(_, _) => AssignCrosses(g, cx, s, a);
    case Do(e) => ExprKeeps(g, cx, e, a); KeepsCrosses(g, LowerExpr(g, cx, e).0, a);
    case If(_, _, els) => if els.Skip? { IfKeeps(g, cx, s, a); } else { IfElseCrosses(g, cx, s, a); }
    case While(_, _) => WhileKeeps(g, cx, s, a); KeepsCrosses(g, LowerWhile(g, cx, s), a);
    case For(_, _, _, _) => ForKeeps(g, cx, s, a); KeepsCrosses(g, LowerFor(g, cx, s).0, a);
    case On(_, _) => OnCrosses(g, cx, s, a);
  }

  /** The only store to a slot that is there before: the old value is loaded first. */
  lemma AssignCrosses(g: Graph, cx: LCx, s: Stmt, a: set<Cell>)
    requires Open(g) && s.Assign?
    ensures Crosses(g, LowerAssign(g, cx, s.target, s.e), a)
  {
    hide Crosses, Keeps, LowerExpr, LowerTarget, Nested;
    var g1, d := LowerTarget(g, cx, s.target).0, LowerTarget(g, cx, s.target).1;
    var g2, o := LowerExpr(g1, cx, s.e).0, LowerExpr(g1, cx, s.e).1;
    TargetKeeps(g, cx, s.target, a);
    TargetNested(g, cx, s.target);
    NestedCounts(g, g1);
    ExprKeeps(g1, cx, s.e, a);
    ExprNested(g1, cx, s.e);
    NestedCounts(g1, g2);
    BothKeep(g, g1, g2, a);
    StoreExtends(g2, d, o);
    if d.SlotD? {
      SlotLoaded(g, cx, s.target, a);
      if Reaches(g, a, End(g), S(d.slot)) {
        ViolatedWiden(g1, g2, a);
        ViolatedWiden(g2, EmitStore(g2, d, o), a);
        ViolatedCrosses(g, EmitStore(g2, d, o), a);
      } else {
        SlotStoreKeeps(g, g2, d.slot, o, a);
        KeepsCrosses(g, EmitStore(g2, d, o), a);
      }
    } else {
      StoreKeeps(g2, d, o, a);
      BothKeep(g, g2, EmitStore(g2, d, o), a);
      KeepsCrosses(g, EmitStore(g2, d, o), a);
    }
  }

  lemma ViolatedCrosses(g: Graph, h: Graph, a: set<Cell>)
    requires !DefinesFirst(h, a)
    ensures Crosses(g, h, a)
  {
  }

  lemma StoreExtends(g: Graph, d: Dest, o: Operand)
    requires Open(g)
    ensures Extends(g, EmitStore(g, d, o)) && Counts(g, EmitStore(g, d, o)) && Open(EmitStore(g, d, o))
  {
    match d
    case NoD =>
    case SlotD(s) => EmitNested(g, StoreVar(s, o));
    case CellD(x, i) => EmitNested(g, StoreI(x, i, o));
    case FieldD(b, f) => EmitNested(g, StoreF(b, f, o));
  }

  lemma StoreKeeps(g: Graph, d: Dest, o: Operand, a: set<Cell>)
    requires Open(g) && !d.SlotD?
    ensures Keeps(g, EmitStore(g, d, o), a)
  {
    hide Keeps;
    match d
    case NoD => KeepsSelf(g, a);
    case CellD(x, i) => EmitKeeps(g, EmitStore(g, d, o), StoreI(x, i, o), a);
    case FieldD(b, f) => EmitKeeps(g, EmitStore(g, d, o), StoreF(b, f, o), a);
  }

  lemma SlotStoreKeeps(g: Graph, h: Graph, s: nat, o: Operand, a: set<Cell>)
    requires Keeps(g, h, a) && Open(h) && !Reaches(g, a, End(g), S(s))
    ensures Keeps(g, Emit(h, StoreVar(s, o)), a)
  {
    var k := Emit(h, StoreVar(s, o));
    forall x | Reaches(g, a, End(g), x) && (Below(x, g) || !Below(x, k)) ensures Reaches(k, a, End(k), x) {
      EmitReaches(h, k, a, StoreVar(s, o), x);
    }
  }

  lemma SlotLoaded(g: Graph, cx: LCx, t: Expr, a: set<Cell>)
    requires Open(g) && LowerTarget(g, cx, t).1.SlotD?
    ensures Reaches(g, a, End(g), S(LowerTarget(g, cx, t).1.slot)) ==> !DefinesFirst(LowerTarget(g, cx, t).0, a)
  {
    hide DefinesFirst, Reaches;
    var s := LowerTarget(g, cx, t).1.slot;
    if Reaches(g, a, End(g), S(s)) { EmitViolates(g, LowerTarget(g, cx, t).0, a, LoadVar(g.nregs, s), S(s)); }
  }

  lemma TargetKeeps(g: Graph, cx: LCx, t: Expr, a: set<Cell>)
    requires Open(g)
    ensures Keeps(g, LowerTarget(g, cx, t).0, a)
  {
    hide Keeps;
    if t.Elem? || t.Field? {
      ExprKeeps(g, cx, t, a);
    } else if LowerTarget(g, cx, t).1.SlotD? {
      DefineKeeps(g, LoadVar(g.nregs, LowerTarget(g, cx, t).1.slot), a);
    } else {
      KeepsSelf(g, a);
    }
  }

  lemma OnCrosses(g: Graph, cx: LCx, s: Stmt, a: set<Cell>)
    requires Open(g) && s.On?
    ensures Crosses(g, LowerOn(g, cx, s), a)
    decreases s, 0
  {
    hide Crosses, Keeps, LowerStmt, Nested;
    var g1, cx1, i := Define(g, OpenI(g.nregs)), CxOn(cx, s.region, g.nregs), CloseI(Reg(g.nregs));
    var g2 := LowerStmt(g1, cx1, s.body).0;
    DefineKeeps(g, OpenI(g.nregs), a);
    EmitNested(g, OpenI(g.nregs));
    NestedCounts(g, g1);
    KeepsCrosses(g, g1, a);
    StmtCrosses(g1, cx1, s.body, a);
    StmtNested(g1, cx1, s.body);
    NestedCounts(g1, g2);
    CrossesThen(g, g1, g2, a);
    EmitKeeps(g2, Emit(g2, i), i, a);
    EmitNested(g2, i);
    NestedCounts(g2, Emit(g2, i));
    KeepsCrosses(g2, Emit(g2, i), a);
    CrossesThen(g, g2, Emit(g2, i), a);
  }

  // ---------- Branches ----------

  /** The condition of an `if`, before its branch. */
  function IfTest(g: Graph, cx: LCx, c: Expr, k: nat): (Graph, Operand) {
    LowerExpr(Append(Create(g, k), |g.blocks|), cx, c)
  }

  lemma IfHeadKeeps(g: Graph, cx: LCx, c: Expr, k: nat, a: set<Cell>)
    requires Open(g) && 2 <= k
    ensures var n, h, t := |g.blocks|, IfHead(g, cx, c, k), IfTest(g, cx, c, k).0;
            && Keeps(g, t, a) && Open(t) && h == Enter(t, CondBr(IfTest(g, cx, c, k).1, n, n + k - 1), n) && Waiting(t, n)
            && Keeps(t, h, a) && KeepsTo(t, h, (n + k - 1, 0), a) && Extends(t, h) && Counts(t, h) && Counts(h, t)
            && Keeps(g, h, a) && KeepsTo(g, h, (n + k - 1, 0), a)
  {
    hide Keeps, KeepsTo, Nested, LowerExpr;
    var n, g0 := |g.blocks|, Append(Create(g, k), |g.blocks|);
    CreateKeeps(g, k, a);
    CreateNested(g, k);
    NestedCounts(g, Create(g, k));
    AppendOpen(Create(g, k), n);
    var t, o := IfTest(g, cx, c, k).0, IfTest(g, cx, c, k).1;
    ExprKeeps(g0, cx, c, a);
    ExprNested(g0, cx, c);
    NestedCounts(g0, t);
    BothKeep(g, g0, t, a);
    StillWaiting(g0, t, n);
    var b := CondBr(o, n, n + k - 1);
    EnterGrows(t, b, n);
    GoToKeeps(t, b, n, a);
    BothKeep(g, t, Enter(t, b, n), a);
    KeepsThen(g, t, Enter(t, b, n), (n + k - 1, 0), a);
  }

  lemma AppendOpen(g: Graph, b: nat)
    requires Open(g)
    ensures Open(Append(g, b)) && forall x: nat :: Waiting(g, x) ==> Waiting(Append(g, b), x)
  {
  }

  /** The graph at the end of an `if` without else extends the one at its start. */
  lemma IfEnds(g: Graph, cx: LCx, s: Stmt)
    requires Open(g) && s.If? && s.els.Skip?
    ensures var h, k := LowerIf(g, cx, s).0, IfHead(g, cx, s.c, 2);
            var k1 := LowerStmt(k, cx, s.thn).0;
            && Extends(k, h) && Counts(k, h) && h.cur == |g.blocks| + 1 && Open(h) && h.blocks[h.cur] == EMPTY_BLOCK
            && Open(k) && Extends(k1, h) && Counts(k1, h)
  {
    hide LowerStmt, IfHead;
    var k, done := IfHead(g, cx, s.c, 2), |g.blocks| + 1;
    IfHeadNested(g, cx, s.c, 2);
    StmtNested(k, cx, s.thn);
    var k1 := LowerStmt(k, cx, s.thn).0;
    StillWaiting(k, k1, done);
    GoToGrows(k1, Br(done), done);
  }

  lemma IfKeeps(g: Graph, cx: LCx, s: Stmt, a: set<Cell>)
    requires Open(g) && s.If? && s.els.Skip?
    ensures Crosses(g, LowerStmt(g, cx, s).0, a) && Keeps(g, LowerIf(g, cx, s).0, a)
  {
    hide Keeps, KeepsTo, IfHead, LowerIf, Crosses;
    IfHeadKeeps(g, cx, s.c, 2, a);
    IfEnds(g, cx, s);
    ReachesEnd(g, IfHead(g, cx, s.c, 2), LowerIf(g, cx, s).0, |g.blocks| + 1, a);
    KeepsCrosses(g, LowerIf(g, cx, s).0, a);
  }

  /** The graph between the arms, at the start of the else block. */
  function Middle(g: Graph, cx: LCx, s: Stmt): Graph
    requires s.If?
  {
    GoTo(LowerStmt(IfHead(g, cx, s.c, 3), cx, s.thn).0, Br(|g.blocks| + 1), |g.blocks| + 2)
  }

  function MiddleCx(g: Graph, cx: LCx, s: Stmt): LCx
    requires s.If?
  {
    CxAfter(cx, s.thn, LowerStmt(IfHead(g, cx, s.c, 3), cx, s.thn).1)
  }

  lemma MiddleCode(g: Graph, cx: LCx, s: Stmt)
    requires s.If?
    ensures var m, cx1, done := Middle(g, cx, s), MiddleCx(g, cx, s), |g.blocks| + 1;
            && LowerIfElse(g, cx, s).0 == GoTo(LowerStmt(m, cx1, s.els).0, Br(done), done)
            && LowerIfElse(g, cx, s).1 == LowerStmt(IfHead(g, cx, s.c, 3), cx, s.thn).1 + LowerStmt(m, cx1, s.els).1
  {
  }

  lemma MiddleEnds(g: Graph, cx: LCx, s: Stmt)
    requires Open(g) && s.If?
    ensures var k, m, done := IfHead(g, cx, s.c, 3), Middle(g, cx, s), |g.blocks| + 1;
            var k1 := LowerStmt(k, cx, s.thn).0;
            && Open(k) && Extends(k, k1) && Counts(k, k1) && Open(k1) && Waiting(k1, done + 1)
            && Extends(k, m) && Counts(k, m) && Extends(k1, m) && Counts(k1, m) && Counts(m, k1)
            && Open(m) && m.cur == done + 1 && m.blocks[m.cur] == EMPTY_BLOCK && Waiting(m, done)
  {
    hide LowerStmt, IfHead;
    var k, done := IfHead(g, cx, s.c, 3), |g.blocks| + 1;
    IfHeadNested(g, cx, s.c, 3);
    StmtNested(k, cx, s.thn);
    var k1 := LowerStmt(k, cx, s.thn).0;
    StillWaiting(k, k1, done);
    StillWaiting(k, k1, done + 1);
    GoToGrows(k1, Br(done), done + 1);
    ExtendsTrans(k, k1, Middle(g, cx, s));
  }

  lemma IfElseEnds(g: Graph, cx: LCx, s: Stmt)
    requires Open(g) && s.If?
    ensures var m, cx1, h, done := Middle(g, cx, s), MiddleCx(g, cx, s), LowerIfElse(g, cx, s).0, |g.blocks| + 1;
            var m1 := LowerStmt(m, cx1, s.els).0;
            && Open(m1) && Waiting(m1, done) && h == GoTo(m1, Br(done), done)
            && Extends(m, m1) && Counts(m, m1) && Extends(m1, h) && Counts(m1, h) && Counts(h, m1)
            && Open(h) && h.cur == done && h.blocks[done] == EMPTY_BLOCK && Extends(m, h)
  {
    hide LowerStmt, IfHead, Middle, MiddleCx, LowerIfElse;
    var m, cx1, done := Middle(g, cx, s), MiddleCx(g, cx, s), |g.blocks| + 1;
    MiddleEnds(g, cx, s);
    MiddleCode(g, cx, s);
    StmtNested(m, cx1, s.els);
    var m1 := LowerStmt(m, cx1, s.els).0;
    StillWaiting(m, m1, done);
    GoToGrows(m1, Br(done), done);
    ExtendsTrans(m, m1, GoTo(m1, Br(done), done));
  }

  lemma {:induction false} IfElseCrosses(g: Graph, cx: LCx, s: Stmt, a: set<Cell>)
    requires Open(g) && s.If? && !s.els.Skip?
    ensures Crosses(g, LowerStmt(g, cx, s).0, a)
    decreases s, 1
  {
    hide Keeps, KeepsTo, IfHead, LowerIfElse, Crosses, Middle, MiddleCx;
    var k, m, cx1, done, h := IfHead(g, cx, s.c, 3), Middle(g, cx, s), MiddleCx(g, cx, s), |g.blocks| + 1, LowerIfElse(g, cx, s).0;
    IfHeadKeeps(g, cx, s.c, 3, a);
    MiddleEnds(g, cx, s);
    ReachesEnd(g, k, m, done + 1, a);
    KeepsCrosses(g, m, a);
    IfElseEnds(g, cx, s);
    StmtCrosses(m, cx1, s.els, a);
    var m1 := LowerStmt(m, cx1, s.els).0;
    CrossesThen(g, m, m1, a);
    GoToKeeps(m1, Br(done), done, a);
    KeepsCrosses(m1, h, a);
    CrossesThen(g, m1, h, a);
  }

  // ---------- Loops ----------

  lemma LoopStartKeeps(g: Graph, a: set<Cell>)
    requires Open(g)
    ensures Keeps(g, LoopStart(g), a)
  {
    hide Keeps, Nested;
    var c := |g.blocks|;
    CreateKeeps(g, 3, a);
    CreateNested(g, 3);
    NestedCounts(g, Create(g, 3));
    GoToKeeps(Create(g, 3), Br(c), c, a);
    BothKeep(g, Create(g, 3), LoopStart(g), a);
  }

  /** The condition of a `while`, into the body and out of the loop. */
  lemma WhileHeadKeeps(g: Graph, cx: LCx, e: Expr, c: nat, a: set<Cell>)
    requires Open(g) && Waiting(g, c + 1) && Waiting(g, c + 2)
    ensures var t, o, h := LowerExpr(g, cx, e).0, LowerExpr(g, cx, e).1, WhileHead(g, cx, e, c);
            && Keeps(g, t, a) && Open(t) && Waiting(t, c + 1) && h == GoTo(t, CondBr(o, c + 1, c + 2), c + 1)
            && Keeps(t, h, a) && Keeps(g, h, a) && KeepsTo(g, h, (c + 2, 0), a) && Extends(t, h) && Counts(t, h) && Counts(h, t)
  {
    hide Keeps, KeepsTo, Nested, LowerExpr;
    var t, o := LowerExpr(g, cx, e).0, LowerExpr(g, cx, e).1;
    ExprKeeps(g, cx, e, a);
    ExprNested(g, cx, e);
    NestedCounts(g, t);
    StillWaiting(g, t, c + 1);
    var b := CondBr(o, c + 1, c + 2);
    GoToGrows(t, b, c + 1);
    GoToKeeps(t, b, c + 1, a);
    BothKeep(g, t, GoTo(t, b, c + 1), a);
    KeepsThen(g, t, GoTo(t, b, c + 1), (c + 2, 0), a);
  }

  lemma WhileEnds(g: Graph, cx: LCx, s: Stmt)
    requires Open(g) && s.While?
    ensures var c, start, h := |g.blocks|, LoopStart(g), LowerWhile(g, cx, s);
            var k := WhileHead(start, cx, s.c, c);
            var k1 := LowerStmt(k, InnerCx(cx), s.body).0;
            && Open(start) && Waiting(start, c + 1) && Waiting(start, c + 2) && Open(k)
            && Extends(k, h) && Counts(k, h) && h.cur == c + 2 && Open(h) && h.blocks[h.cur] == EMPTY_BLOCK
            && Extends(k1, h) && Counts(k1, h)
  {
    hide LowerStmt, WhileHead, LoopStart, LowerWhile;
    var c, start := |g.blocks|, LoopStart(g);
    LoopStartNested(g);
    WhileHeadGrows(start, cx, s.c, c);
    var k := WhileHead(start, cx, s.c, c);
    StmtNested(k, InnerCx(cx), s.body);
    var k1 := LowerStmt(k, InnerCx(cx), s.body).0;
    StillWaiting(k, k1, c + 2);
    GoToGrows(k1, Br(c), c + 2);
    WhileCode(g, cx, s);
  }

  lemma WhileKeeps(g: Graph, cx: LCx, s: Stmt, a: set<Cell>)
    requires Open(g) && s.While?
    ensures Keeps(g, LowerWhile(g, cx, s), a)
  {
    hide Keeps, KeepsTo, WhileHead, LoopStart, LowerWhile;
    var c, start := |g.blocks|, LoopStart(g);
    WhileEnds(g, cx, s);
    LoopStartKeeps(g, a);
    WhileHeadKeeps(start, cx, s.c, c, a);
    var k := WhileHead(start, cx, s.c, c);
    KeepsThen(g, start, k, (c + 2, 0), a);
    ReachesEnd(g, k, LowerWhile(g, cx, s), c + 2, a);
  }

  /** The bounds of a `for`, before its iterator. */
  function ForBounds(g: Graph, cx: LCx, lo: Expr, hi: Expr): (Graph, Operand, Operand) {
    var (g1, x) := LowerExpr(Create(g, 3), cx, lo);
    var (g2, y) := LowerExpr(g1, cx, hi);
    (g2, x, y)
  }

  lemma ForStartKeeps(g: Graph, cx: LCx, lo: Expr, hi: Expr, a: set<Cell>)
    requires Open(g)
    ensures var t, start := ForBounds(g, cx, lo, hi).0, ForStart(g, cx, lo, hi).0;
            && Keeps(g, t, a) && Open(t) && Keeps(g, start, a)
            && Extends(Define(t, IterI(t.nregs, ForBounds(g, cx, lo, hi).1, ForBounds(g, cx, lo, hi).2)), start)
  {
    hide Keeps, KeepsTo, Nested, LowerExpr, Create;
    var c, g0, e := |g.blocks|, Create(g, 3), Bin(Add, lo, hi);
    CreateKeeps(g, 3, a);
    CreateNested(g, 3);
    NestedCounts(g, g0);
    TwoKeep(g0, cx, e, lo, hi, a);
    TwoNested(g0, cx, e, lo, hi);
    var t, x, y := ForBounds(g, cx, lo, hi).0, ForBounds(g, cx, lo, hi).1, ForBounds(g, cx, lo, hi).2;
    BothKeep(g, g0, t, a);
    var i := IterI(t.nregs, x, y);
    ThenDefineKeeps(g, t, i, a);
    EmitNested(t, i);
    NestedTrans(g0, t, Define(t, i));
    StillWaiting(g0, Define(t, i), c);
    NestedCounts(t, Define(t, i));
    GoToGrows(Define(t, i), Br(c), c);
    GoToKeeps(Define(t, i), Br(c), c, a);
    BothKeep(g, Define(t, i), GoTo(Define(t, i), Br(c), c), a);
  }

  /** The test of a `for`, into the body and out of the loop. */
  lemma ForHeadKeeps(g: Graph, it: nat, c: nat, a: set<Cell>)
    requires Open(g) && Waiting(g, c + 1) && Waiting(g, c + 2)
    ensures var h := ForHead(g, it, c);
            && Keeps(g, h, a) && h.nregs == g.nregs + 2 && h.nslots == g.nslots
            && forall x :: Reaches(g, a, End(g), x) && x != R(g.nregs) ==> Reaches(h, a, (c + 2, 0), x)
  {
    hide Keeps, KeepsTo, Nested;
    var i := HasNextI(g.nregs, Reg(it));
    var t := Define(g, i);
    DefineKeeps(g, i, a);
    EmitNested(g, i);
    NestedCounts(g, t);
    StillWaiting(g, t, c + 1);
    var b := CondBr(Reg(g.nregs), c + 1, c + 2);
    GoToGrows(t, b, c + 1);
    GoToKeeps(t, b, c + 1, a);
    var k := GoTo(t, b, c + 1);
    BothKeep(g, t, k, a);
    ThenDefineKeeps(g, k, NextI(k.nregs, Reg(it)), a);
    EmitNested(k, NextI(k.nregs, Reg(it)));
    NestedCounts(k, ForHead(g, it, c));
    forall x | Reaches(g, a, End(g), x) && x != R(g.nregs) ensures Reaches(ForHead(g, it, c), a, (c + 2, 0), x) {
      EmitReaches(g, t, a, i, x);
      JumpReaches(t, k, a, b, c + 2, x);
      ReachesWiden(k, ForHead(g, it, c), a, (c + 2, 0), x);
    }
  }

  lemma ForEnds(g: Graph, cx: LCx, s: Stmt)
    requires Open(g) && s.For?
    ensures var c, start, it, h := |g.blocks|, ForStart(g, cx, s.lo, s.hi).0, ForStart(g, cx, s.lo, s.hi).1, LowerFor(g, cx, s).0;
            var k := ForHead(start, it, c);
            var k1 := LowerStmt(k, CxFor(cx, s, start.nregs + 1), s.body).0;
            && Open(start) && Waiting(start, c + 1) && Waiting(start, c + 2) && Open(k)
            && Extends(k, h) && Counts(k, h) && h.cur == c + 2 && Open(h) && h.blocks[h.cur] == EMPTY_BLOCK
            && Extends(k1, h) && Counts(k1, h) && Extends(start, h)
  {
    hide LowerStmt, ForStart, ForHead, LowerFor;
    var c, start, it := |g.blocks|, ForStart(g, cx, s.lo, s.hi).0, ForStart(g, cx, s.lo, s.hi).1;
    ForStartNested(g, cx, s.lo, s.hi);
    ForHeadGrows(start, it, c);
    var k, cx1 := ForHead(start, it, c), CxFor(cx, s, start.nregs + 1);
    StmtNested(k, cx1, s.body);
    var k1 := LowerStmt(k, cx1, s.body).0;
    StillWaiting(k, k1, c + 2);
    GoToGrows(k1, Br(c), c + 2);
    ForCode(g, cx, s);
    ExtendsTrans(start, k, k1);
    ExtendsTrans(start, k1, LowerFor(g, cx, s).0);
  }

  /** Past a `for` whose body does not run; its name is not written either. */
  lemma ForKeeps(g: Graph, cx: LCx, s: Stmt, a: set<Cell>)
    requires Open(g) && s.For?
    ensures Keeps(g, LowerFor(g, cx, s).0, a)
    ensures var start, h := ForStart(g, cx, s.lo, s.hi).0, LowerFor(g, cx, s).0;
            forall x :: Reaches(start, a, End(start), x) && x != R(start.nregs) ==> Reaches(h, a, End(h), x)
  {
    hide KeepsTo, Keeps, ForStart, ForHead, LowerFor, Reaches, LowerStmt;
    var c, start, it, h := |g.blocks|, ForStart(g, cx, s.lo, s.hi).0, ForStart(g, cx, s.lo, s.hi).1, LowerFor(g, cx, s).0;
    ForEnds(g, cx, s);
    ForStartKeeps(g, cx, s.lo, s.hi, a);
    ForHeadKeeps(start, it, c, a);
    var k := ForHead(start, it, c);
    forall x | Reaches(start, a, End(start), x) && x != R(start.nregs) ensures Reaches(h, a, End(h), x) {
      ReachesWiden(k, h, a, (c + 2, 0), x);
    }
    StartThenEnd(g, start, h, a);
  }

  lemma StartThenEnd(g: Graph, start: Graph, h: Graph, a: set<Cell>)
    requires Keeps(g, start, a) && start.nregs < h.nregs && start.nslots <= h.nslots
    requires forall x :: Reaches(start, a, End(start), x) && x != R(start.nregs) ==> Reaches(h, a, End(h), x)
    ensures Keeps(g, h, a)
  {
    hide Reaches;
  }
}
