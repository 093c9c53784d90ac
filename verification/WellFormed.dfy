/** The emitted graph is well formed: every block created for a construct joins the function
    exactly once, ends in exactly one terminator (all but the insertion block), and jumps
    only to blocks that were created for the construct. */
module WellFormed {
  import opened Basics
  import opened RegionTypes
  import opened Lang
  import opened Ir
  import opened Lowering
  import opened Growth

  function Targets(t: Term): set<nat> {
    match t
    case Br(b) => {b}
    case Ret(_) => {}
    case CondBr(_, a, b) => {a, b}
  }

  /** Created between `g` and `h`. */
  predicate New(g: Graph, h: Graph, b: nat) { |g.blocks| <= b < |h.blocks| }

  ghost predicate Inside(g: Graph, h: Graph, t: Term) {
    forall b :: b in Targets(t) ==> New(g, h, b)
  }

  /** The blocks created since `g`, except those waiting, have joined the function, once each. */
  ghost predicate Placed(g: Graph, h: Graph, waiting: set<nat>) {
    && g.order <= h.order
    && (forall b: nat :: b in h.order[|g.order|..] <==> New(g, h, b) && b !in waiting)
    && Distinct(h.order[|g.order|..])
  }

  /** They end in terminators that jump to blocks created since `g`, except the insertion block. */
  ghost predicate Closed(g: Graph, h: Graph, waiting: set<nat>) {
    && (forall b: nat :: New(g, h, b) && b !in waiting && b != h.cur ==>
          h.blocks[b].term.Some? && Inside(g, h, h.blocks[b].term.value))
    && (g.cur < |g.blocks| <= |h.blocks| && h.cur != g.cur ==>
          h.blocks[g.cur].term.Some? && Inside(g, h, h.blocks[g.cur].term.value))
    && (forall b :: 0 <= b < |g.blocks| <= |h.blocks| && b != g.cur ==> h.blocks[b] == g.blocks[b])
  }

  /** `h` is `g` with more code, in which the blocks `waiting` are created but not yet filled,
      and of these `outside` are not yet part of the function. */
  ghost predicate Under(g: Graph, h: Graph, waiting: set<nat>, outside: set<nat>) {
    && |g.blocks| <= |h.blocks| && Open(h) && (h.cur == g.cur || New(g, h, h.cur))
    && (forall b :: b in waiting ==> New(g, h, b) && b != h.cur && h.blocks[b] == EMPTY_BLOCK)
    && outside <= waiting
    && Placed(g, h, outside) && Closed(g, h, waiting)
  }

  ghost predicate Partial(g: Graph, h: Graph, waiting: set<nat>) { Under(g, h, waiting, waiting) }

  /** A complete construct: no block of its own is waiting. */
  ghost predicate Complete(g: Graph, h: Graph) { Partial(g, h, {}) }

  lemma EmitPartial(g: Graph, h: Graph, w: set<nat>, i: Instr)
    requires Partial(g, h, w)
    ensures Partial(g, Emit(h, i), w) && Partial(g, Define(h, i), w)
  {
  }

  lemma NewVarPartial(g: Graph, h: Graph, w: set<nat>, o: Operand)
    requires Partial(g, h, w)
    ensures Partial(g, NewVar(h, o), w)
  {
    EmitPartial(g, h, w, StoreVar(h.nslots, o));
  }

  /** The `k` blocks from `n` on. */
  function Blocks(n: nat, k: nat): (bs: set<nat>)
    ensures forall b :: b in bs <==> n <= b < n + k
  {
    if k == 0 then {} else Blocks(n, k - 1) + {n + k - 1}
  }

  /** What still waits when the first of a construct's blocks is entered. */
  lemma Rest(n: nat)
    ensures Blocks(n, 2) - {n} == {n + 1} && Blocks(n, 3) - {n} == {n + 1, n + 2}
    ensures {n + 1, n + 2} - {n + 1} == {n + 2} && {n + 1, n + 2} - {n + 2} == {n + 1} && {n + 1} - {n + 1} == {}
    ensures {n + 2} - {n + 2} == {}
  {
  }

  /** Creating the blocks of a construct, before anything else of it is emitted. */
  lemma CreatePartial(g: Graph, h: Graph, k: nat)
    requires Complete(g, h)
    ensures Partial(g, Create(h, k), Blocks(|h.blocks|, k))
  {
  }

  lemma GoToPartial(g: Graph, h: Graph, w: set<nat>, t: Term, b: nat)
    requires Partial(g, h, w) && b in w && Inside(g, h, t)
    ensures Partial(g, GoTo(h, t, b), w - {b})
  {
    var k := GoTo(h, t, b);
    var a, z := h.order[|g.order|..], k.order[|g.order|..];
    assert z == a + [b];
    forall i, j | 0 <= i < j < |z| ensures z[i] != z[j] { if j == |a| { assert z[i] in a; } }
  }

  lemma ThenComplete(g: Graph, h: Graph, k: Graph, w: set<nat>)
    requires Partial(g, h, w) && Complete(h, k)
    ensures Partial(g, k, w)
  {
    ThenUnder(g, h, k, w, w);
  }

  lemma ThenUnder(g: Graph, h: Graph, k: Graph, w: set<nat>, u: set<nat>)
    requires Under(g, h, w, u) && Complete(h, k)
    ensures Under(g, k, w, u)
  {
    ThenPlaced(g, h, k, u);
    ThenClosed(g, h, k, w, u);
  }

  lemma ThenPlaced(g: Graph, h: Graph, k: Graph, w: set<nat>)
    requires Placed(g, h, w) && Placed(h, k, {}) && |g.blocks| <= |h.blocks| <= |k.blocks|
    requires forall b :: b in w ==> New(g, h, b)
    ensures Placed(g, k, w)
  {
    var a, b, z := h.order[|g.order|..], k.order[|h.order|..], k.order[|g.order|..];
    assert z == a + b;
    forall i, j | 0 <= i < j < |z|
      ensures z[i] != z[j]
    {
      if i < |a| <= j { assert z[i] in a && z[j] in b; }
    }
    forall x: nat
      ensures x in z <==> New(g, k, x) && x !in w
    {
      assert x in z <==> x in a || x in b;
    }
  }

  lemma ThenClosed(g: Graph, h: Graph, k: Graph, w: set<nat>, u: set<nat>)
    requires Under(g, h, w, u) && Complete(h, k)
    ensures Closed(g, k, w)
  {
    forall b: nat | New(g, k, b) && b !in w && b != k.cur
      ensures k.blocks[b].term.Some? && Inside(g, k, k.blocks[b].term.value)
    {
      if b < |h.blocks| && b != h.cur {
        assert New(g, h, b) && k.blocks[b] == h.blocks[b];
      }
    }
  }

  lemma NothingEmitted(g: Graph)
    requires Open(g)
    ensures Complete(g, g)
  {
    assert g.order[|g.order|..] == [];
  }

  // ---------- Expressions ----------

  lemma {:induction false} ExprComplete(g: Graph, cx: LCx, e: Expr)
    requires Open(g)
    ensures Complete(g, LowerExpr(g, cx, e).0)
    decreases e, 1
  {
    hide Placed, Closed;
    NothingEmitted(g);
    match e
    case Num(_) =>
    case Get(x) =>
      match HomeOf(cx, x) {
        case Some(InSlot(s)) => EmitPartial(g, g, {}, LoadVar(g.nregs, s));
        case _ =>
      }
    case Bin(op, a, b) =>
      TwoComplete(g, cx, e, a, b);
      var g1, x := LowerExpr(g, cx, a).0, LowerExpr(g, cx, a).1;
      var g2, y := LowerExpr(g1, cx, b).0, LowerExpr(g1, cx, b).1;
      EmitPartial(g, g2, {}, BinI(g2.nregs, op, x, y));
    case Lit(es) => LitComplete(g, cx, e);
    case Fill(a, b) =>
      TwoComplete(g, cx, e, a, b);
      var g1, x := LowerExpr(g, cx, a).0, LowerExpr(g, cx, a).1;
      var g2, y := LowerExpr(g1, cx, b).0, LowerExpr(g1, cx, b).1;
      FillComplete(g2, Lowering.Default(cx).1, x, y);
      ThenComplete(g, g2, LowerFill(g2, Lowering.Default(cx).1, x, y), {});
    case Elem(a, b) =>
      TwoComplete(g, cx, e, a, b);
      var g1, x := LowerExpr(g, cx, a).0, LowerExpr(g, cx, a).1;
      var g2, y := LowerExpr(g1, cx, b).0, LowerExpr(g1, cx, b).1;
      EmitPartial(g, g2, {}, LoadI(g2.nregs, x, y));
    case Length(a) =>
      ExprComplete(g, cx, a);
      var g1, x := LowerExpr(g, cx, a).0, LowerExpr(g, cx, a).1;
      EmitPartial(g, g1, {}, LengthI(g1.nregs, x));
    case Field(a, f) =>
      ExprComplete(g, cx, a);
      var g1, x := LowerExpr(g, cx, a).0, LowerExpr(g, cx, a).1;
      EmitPartial(g, g1, {}, LoadF(g1.nregs, x, f));
    case New(c, rs) => EmitPartial(g, g, {}, NewI(g.nregs, HandleOf(cx, rs), c));
    case Call(f, rs, args) =>
      ListComplete(g, cx, args);
      var g1, xs := LowerList(g, cx, args).0, LowerList(g, cx, args).1;
      EmitPartial(g, g1, {}, CallI(g1.nregs, f, HandleOf(cx, rs), xs));
  }

  lemma TwoComplete(g: Graph, cx: LCx, e: Expr, a: Expr, b: Expr)
    requires Open(g) && a < e && b < e
    ensures Complete(g, LowerExpr(LowerExpr(g, cx, a).0, cx, b).0)
    decreases e, 0
  {
    ExprComplete(g, cx, a);
    var g1 := LowerExpr(g, cx, a).0;
    ExprComplete(g1, cx, b);
    ThenComplete(g, g1, LowerExpr(g1, cx, b).0, {});
  }

  lemma LitComplete(g: Graph, cx: LCx, e: Expr)
    requires Open(g) && e.Lit?
    ensures Complete(g, LowerExpr(g, cx, e).0)
    decreases e, 0
  {
    ListComplete(g, cx, e.es);
    var g1, xs := LowerList(g, cx, e.es).0, LowerList(g, cx, e.es).1;
    var i := AllocI(g1.nregs, Lowering.Default(cx).1, Imm(|e.es|));
    EmitPartial(g, g1, {}, i);
    StoresComplete(g, Define(g1, i), Reg(g1.nregs), xs, 0);
  }

  lemma {:induction false} ListComplete(g: Graph, cx: LCx, es: seq<Expr>)
    requires Open(g)
    ensures Complete(g, LowerList(g, cx, es).0)
    decreases es
  {
    NothingEmitted(g);
    if es != [] {
      ExprComplete(g, cx, es[0]);
      var g1 := LowerExpr(g, cx, es[0]).0;
      ListComplete(g1, cx, es[1..]);
      ThenComplete(g, g1, LowerList(g1, cx, es[1..]).0, {});
    }
  }

  lemma {:induction false} StoresComplete(g: Graph, h: Graph, arr: Operand, xs: seq<Operand>, i: nat)
    requires Complete(g, h) && i <= |xs|
    ensures Complete(g, StoreAll(h, arr, xs, i))
    decreases |xs| - i
  {
    if i < |xs| {
      EmitPartial(g, h, {}, StoreI(arr, Imm(i), xs[i]));
      StoresComplete(g, Emit(h, StoreI(arr, Imm(i), xs[i])), arr, xs, i + 1);
    }
  }

  lemma FillComplete(g: Graph, region: Operand, x: Operand, n: Operand)
    requires Open(g)
    ensures Complete(g, LowerFill(g, region, x, n))
  {
    hide Placed, Closed;
    var c, g1 := |g.blocks|, FillStart(g, region, n);
    FillStartPartial(g, region, n);
    FillTestPartial(g, g1, {c + 1, c + 2}, g.nslots, n, c);
    Rest(c);
    FillRest(g, FillTest(g1, g.nslots, n, c), x, c);
    assert LowerFill(g, region, x, n) == GoTo(FillBody(FillTest(g1, g.nslots, n, c), g.nslots, Reg(g.nregs), x), Br(c), c + 2);
  }

  lemma FillRest(g: Graph, h: Graph, x: Operand, c: nat)
    requires Partial(g, h, {c + 2}) && c == |g.blocks|
    ensures Complete(g, GoTo(FillBody(h, g.nslots, Reg(g.nregs), x), Br(c), c + 2))
  {
    FillBodyPartial(g, h, {c + 2}, g.nslots, Reg(g.nregs), x);
    LoopClosed(g, FillBody(h, g.nslots, Reg(g.nregs), x), c);
  }

  lemma FillStartPartial(g: Graph, region: Operand, n: Operand)
    requires Open(g)
    ensures Partial(g, FillStart(g, region, n), {|g.blocks| + 1, |g.blocks| + 2})
  {
    hide Placed, Closed;
    var c, i := |g.blocks|, AllocI(g.nregs, region, n);
    NothingEmitted(g);
    EmitPartial(g, g, {}, i);
    CreatePartial(g, Define(g, i), 3);
    var g1 := Create(Define(g, i), 3);
    NewVarPartial(g, g1, Blocks(c, 3), Imm(0));
    GoToPartial(g, NewVar(g1, Imm(0)), Blocks(c, 3), Br(c), c);
    Rest(c);
  }

  lemma FillTestPartial(g: Graph, h: Graph, w: set<nat>, slot: nat, n: Operand, c: nat)
    requires Partial(g, h, w) && c + 1 in w && c + 2 in w
    ensures Partial(g, FillTest(h, slot, n, c), w - {c + 1})
  {
    hide Placed, Closed;
    EmitPartial(g, h, w, LoadVar(h.nregs, slot));
    var h1 := Define(h, LoadVar(h.nregs, slot));
    EmitPartial(g, h1, w, BinI(h1.nregs, Lt, Reg(h.nregs), n));
    GoToPartial(g, Define(h1, BinI(h1.nregs, Lt, Reg(h.nregs), n)), w, CondBr(Reg(h1.nregs), c + 1, c + 2), c + 1);
  }

  lemma FillBodyPartial(g: Graph, h: Graph, w: set<nat>, slot: nat, arr: Operand, x: Operand)
    requires Partial(g, h, w)
    ensures Partial(g, FillBody(h, slot, arr, x), w)
  {
    hide Placed, Closed;
    var g1 := Define(h, LoadVar(h.nregs, slot));
    EmitPartial(g, h, w, LoadVar(h.nregs, slot));
    var g2 := Emit(g1, StoreI(arr, Reg(h.nregs), x));
    EmitPartial(g, g1, w, StoreI(arr, Reg(h.nregs), x));
    var g3 := Define(g2, LoadVar(g2.nregs, slot));
    EmitPartial(g, g2, w, LoadVar(g2.nregs, slot));
    var i := BinI(g3.nregs, Add, Reg(g2.nregs), Imm(1));
    EmitPartial(g, g3, w, i);
    EmitPartial(g, Define(g3, i), w, StoreVar(slot, Reg(g3.nregs)));
  }

  // ---------- Statements ----------

  /** Every statement's code is complete: its blocks are appended once each, closed by one
      terminator each except the last, and jump among themselves. */
  lemma {:induction false} StmtComplete(g: Graph, cx: LCx, s: Stmt)
    requires Open(g)
    ensures Complete(g, LowerStmt(g, cx, s).0)
    decreases s, 2
  {
    hide Placed, Closed;
    NothingEmitted(g);
    match s
    case Skip =>
    case Seq(a, b) =>
      StmtComplete(g, cx, a);
      var g1, hs := LowerStmt(g, cx, a).0, LowerStmt(g, cx, a).1;
      StmtComplete(g1, CxAfter(cx, a, hs), b);
      ThenComplete(g, g1, LowerStmt(g1, CxAfter(cx, a, hs), b).0, {});
    case Var(_, e) =>
      ExprComplete(g, cx, e);
      NewVarPartial(g, LowerExpr(g, cx, e).0, {}, LowerExpr(g, cx, e).1);
    case Let(_, e) => ExprComplete(g, cx, e);
    case Assign(t, e) => AssignComplete(g, cx, t, e);
    case Do(e) => ExprComplete(g, cx, e);
    case If(_, _, els) => if els.Skip? { IfComplete(g, cx, s); } else { IfElseComplete(g, cx, s); }
    case While(_, _) => WhileComplete(g, cx, s);
    case For(_, _, _, _) => ForComplete(g, cx, s);
    case On(_, body) => OnComplete(g, cx, s);
  }

  lemma AssignComplete(g: Graph, cx: LCx, t: Expr, e: Expr)
    requires Open(g)
    ensures Complete(g, LowerAssign(g, cx, t, e))
  {
    hide Placed, Closed;
    TargetComplete(g, cx, t);
    var g1, d := LowerTarget(g, cx, t).0, LowerTarget(g, cx, t).1;
    ExprComplete(g1, cx, e);
    var g2, o := LowerExpr(g1, cx, e).0, LowerExpr(g1, cx, e).1;
    ThenComplete(g, g1, g2, {});
    match d
    case NoD =>
    case SlotD(x) => EmitPartial(g, g2, {}, StoreVar(x, o));
    case CellD(a, i) => EmitPartial(g, g2, {}, StoreI(a, i, o));
    case FieldD(x, f) => EmitPartial(g, g2, {}, StoreF(x, f, o));
  }

  lemma TargetComplete(g: Graph, cx: LCx, t: Expr)
    requires Open(g)
    ensures Complete(g, LowerTarget(g, cx, t).0)
  {
    NothingEmitted(g);
    match t
    case Get(x) =>
      match HomeOf(cx, x) {
        case Some(InSlot(s)) => EmitPartial(g, g, {}, LoadVar(g.nregs, s));
        case _ =>
      }
    case Elem(a, b) =>
      TwoComplete(g, cx, t, a, b);
      var g1, x := LowerExpr(g, cx, a).0, LowerExpr(g, cx, a).1;
      var g2, y := LowerExpr(g1, cx, b).0, LowerExpr(g1, cx, b).1;
      EmitPartial(g, g2, {}, LoadI(g2.nregs, x, y));
    case Field(a, f) =>
      ExprComplete(g, cx, a);
      var g1, x := LowerExpr(g, cx, a).0, LowerExpr(g, cx, a).1;
      EmitPartial(g, g1, {}, LoadF(g1.nregs, x, f));
    case _ =>
  }

  lemma OnComplete(g: Graph, cx: LCx, s: Stmt)
    requires Open(g) && s.On?
    ensures Complete(g, LowerOn(g, cx, s))
    decreases s, 1
  {
    NothingEmitted(g);
    var g1 := Define(g, OpenI(g.nregs));
    EmitPartial(g, g, {}, OpenI(g.nregs));
    StmtComplete(g1, CxOn(cx, s.region, g.nregs), s.body);
    var g2 := LowerStmt(g1, CxOn(cx, s.region, g.nregs), s.body).0;
    ThenComplete(g, g1, g2, {});
    EmitPartial(g, g2, {}, CloseI(Reg(g.nregs)));
  }

  lemma IfHeadPartial(g: Graph, cx: LCx, c: Expr, k: nat)
    requires Open(g) && 2 <= k
    ensures Partial(g, IfHead(g, cx, c, k), Blocks(|g.blocks|, k) - {|g.blocks|})
    ensures k == 2 ==> Partial(g, IfHead(g, cx, c, k), {|g.blocks| + 1})
    ensures k == 3 ==> Partial(g, IfHead(g, cx, c, k), {|g.blocks| + 1, |g.blocks| + 2})
  {
    hide Placed, Closed, Open, Nested, Waiting, Partial, LowerExpr, Create, Append;
    var n, g0 := |g.blocks|, Append(Create(g, k), |g.blocks|);
    var w := Blocks(n, k);
    NothingEmitted(g);
    CreatePartial(g, g, k);
    AppendUnder(g, Create(g, k), w, n);
    ExprComplete(g0, cx, c);
    var g1, o := LowerExpr(g0, cx, c).0, LowerExpr(g0, cx, c).1;
    ThenUnder(g, g0, g1, w, w - {n});
    EnterPartial(g, g1, w, CondBr(o, n, n + k - 1), n);
    Rest(n);
  }

  /** A waiting block joins the function before it is filled. */
  lemma AppendUnder(g: Graph, h: Graph, w: set<nat>, b: nat)
    requires Partial(g, h, w) && b in w
    ensures Under(g, Append(h, b), w, w - {b})
  {
    var k := Append(h, b);
    var a, z := h.order[|g.order|..], k.order[|g.order|..];
    assert z == a + [b];
    forall i, j | 0 <= i < j < |z| ensures z[i] != z[j] { if j == |a| { assert z[i] in a; } }
  }

  lemma EnterPartial(g: Graph, h: Graph, w: set<nat>, t: Term, b: nat)
    requires Under(g, h, w, w - {b}) && b in w && Inside(g, h, t)
    ensures Partial(g, Enter(h, t, b), w - {b})
  {
  }

  /** A condition, then the branch on it. */
  lemma BranchPartial(g: Graph, h: Graph, k: Graph, w: set<nat>, o: Operand, thn: nat, els: nat, next: nat, rest: set<nat>)
    requires Partial(g, h, w) && Complete(h, k) && thn in w && els in w && next in w && rest == w - {next}
    ensures Partial(g, GoTo(k, CondBr(o, thn, els), next), rest)
  {
    ThenComplete(g, h, k, w);
    GoToPartial(g, k, w, CondBr(o, thn, els), next);
  }

  /** An arm, then the jump to the continue block. */
  lemma ArmPartial(g: Graph, h: Graph, k: Graph, w: set<nat>, done: nat, next: nat, rest: set<nat>)
    requires Partial(g, h, w) && Complete(h, k) && done in w && next in w && rest == w - {next}
    ensures Partial(g, GoTo(k, Br(done), next), rest)
  {
    ThenComplete(g, h, k, w);
    GoToPartial(g, k, w, Br(done), next);
  }

  lemma IfComplete(g: Graph, cx: LCx, s: Stmt)
    requires Open(g) && s.If? && s.els.Skip?
    ensures Complete(g, LowerIf(g, cx, s).0)
    decreases s, 1
  {
    hide Placed, Closed;
    var n, g1 := |g.blocks|, IfHead(g, cx, s.c, 2);
    IfHeadPartial(g, cx, s.c, 2);
    StmtComplete(g1, cx, s.thn);
    Rest(n);
    ArmPartial(g, g1, LowerStmt(g1, cx, s.thn).0, {n + 1}, n + 1, n + 1, {});
    assert LowerIf(g, cx, s).0 == GoTo(LowerStmt(g1, cx, s.thn).0, Br(n + 1), n + 1);
  }

  lemma IfElseComplete(g: Graph, cx: LCx, s: Stmt)
    requires Open(g) && s.If?
    ensures Complete(g, LowerIfElse(g, cx, s).0)
    decreases s, 1
  {
    hide Placed, Closed;
    var n, g1 := |g.blocks|, IfHead(g, cx, s.c, 3);
    IfHeadPartial(g, cx, s.c, 3);
    StmtComplete(g1, cx, s.thn);
    var g2, hs := LowerStmt(g1, cx, s.thn).0, LowerStmt(g1, cx, s.thn).1;
    Rest(n);
    ArmPartial(g, g1, g2, {n + 1, n + 2}, n + 1, n + 2, {n + 1});
    ElseComplete(g, g2, CxAfter(cx, s.thn, hs), s, n + 1);
    assert LowerIfElse(g, cx, s).0 == LowerElse(g2, CxAfter(cx, s.thn, hs), s, n + 1).0;
  }

  lemma ElseComplete(g: Graph, h: Graph, cx: LCx, s: Stmt, done: nat)
    requires s.If? && Partial(g, GoTo(h, Br(done), done + 1), {done})
    ensures Complete(g, LowerElse(h, cx, s, done).0)
    decreases s, 0
  {
    hide Placed, Closed;
    var h1 := GoTo(h, Br(done), done + 1);
    StmtComplete(h1, cx, s.els);
    assert {done} - {done} == {};
    ArmPartial(g, h1, LowerStmt(h1, cx, s.els).0, {done}, done, done, {});
  }

  lemma LoopStartPartial(g: Graph)
    requires Open(g)
    ensures Partial(g, LoopStart(g), {|g.blocks| + 1, |g.blocks| + 2})
  {
    NothingEmitted(g);
    CreatePartial(g, g, 3);
    GoToPartial(g, Create(g, 3), Blocks(|g.blocks|, 3), Br(|g.blocks|), |g.blocks|);
    Rest(|g.blocks|);
  }

  lemma LoopClosed(g: Graph, h: Graph, n: nat)
    requires n == |g.blocks| && Partial(g, h, {n + 2})
    ensures Complete(g, GoTo(h, Br(n), n + 2))
  {
    GoToPartial(g, h, {n + 2}, Br(n), n + 2);
    Rest(n);
  }

  lemma WhileComplete(g: Graph, cx: LCx, s: Stmt)
    requires Open(g) && s.While?
    ensures Complete(g, LowerWhile(g, cx, s))
    decreases s, 1
  {
    hide Placed, Closed;
    var n, g1 := |g.blocks|, LoopStart(g);
    var w := {n + 1, n + 2};
    LoopStartPartial(g);
    ExprComplete(g1, cx, s.c);
    Rest(n);
    BranchPartial(g, g1, LowerExpr(g1, cx, s.c).0, w, LowerExpr(g1, cx, s.c).1, n + 1, n + 2, n + 1, {n + 2});
    BodyComplete(g, WhileHead(g1, cx, s.c, n), InnerCx(cx), s.body, n);
    assert LowerWhile(g, cx, s) == WhileLoop(g1, cx, s, n);
  }

  /** A loop body and the jump back. */
  lemma BodyComplete(g: Graph, head: Graph, cx: LCx, body: Stmt, n: nat)
    requires n == |g.blocks| && Partial(g, head, {n + 2})
    ensures Complete(g, GoTo(LowerStmt(head, cx, body).0, Br(n), n + 2))
    decreases body, 3
  {
    hide Placed, Closed;
    StmtComplete(head, cx, body);
    var h := LowerStmt(head, cx, body).0;
    ThenComplete(g, head, h, {n + 2});
    LoopClosed(g, h, n);
  }

  lemma ForStartPartial(g: Graph, cx: LCx, lo: Expr, hi: Expr)
    requires Open(g)
    ensures Partial(g, ForStart(g, cx, lo, hi).0, {|g.blocks| + 1, |g.blocks| + 2})
  {
    hide Placed, Closed;
    var w, g0 := Blocks(|g.blocks|, 3), Create(g, 3);
    NothingEmitted(g);
    CreatePartial(g, g, 3);
    TwoComplete(g0, cx, Bin(Add, lo, hi), lo, hi);
    var g1, x := LowerExpr(g0, cx, lo).0, LowerExpr(g0, cx, lo).1;
    var g2, y := LowerExpr(g1, cx, hi).0, LowerExpr(g1, cx, hi).1;
    EmitPartial(g0, g2, {}, IterI(g2.nregs, x, y));
    ArmPartial(g, g0, Define(g2, IterI(g2.nregs, x, y)), w, |g.blocks|, |g.blocks|, w - {|g.blocks|});
    Rest(|g.blocks|);
  }

  lemma ForComplete(g: Graph, cx: LCx, s: Stmt)
    requires Open(g) && s.For?
    ensures Complete(g, LowerFor(g, cx, s).0)
    decreases s, 1
  {
    hide Placed, Closed;
    var n := |g.blocks|;
    ForStartPartial(g, cx, s.lo, s.hi);
    var g1, it := ForStart(g, cx, s.lo, s.hi).0, ForStart(g, cx, s.lo, s.hi).1;
    ForHeadPartial(g, g1, {n + 1, n + 2}, it, n);
    Rest(n);
    BodyComplete(g, ForHead(g1, it, n), CxFor(cx, s, g1.nregs + 1), s.body, n);
  }

  lemma ForHeadPartial(g: Graph, h: Graph, w: set<nat>, it: nat, c: nat)
    requires Partial(g, h, w) && c + 1 in w && c + 2 in w
    ensures Partial(g, ForHead(h, it, c), w - {c + 1})
  {
    EmitPartial(g, h, w, HasNextI(h.nregs, Reg(it)));
    var h1 := Define(h, HasNextI(h.nregs, Reg(it)));
    GoToPartial(g, h1, w, CondBr(Reg(h.nregs), c + 1, c + 2), c + 1);
    var h2 := GoTo(h1, CondBr(Reg(h.nregs), c + 1, c + 2), c + 1);
    EmitPartial(g, h2, w - {c + 1}, NextI(h2.nregs, Reg(it)));
  }
}
