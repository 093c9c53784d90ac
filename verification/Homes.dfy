/** The emitted operands and slots exist, and every `var` keeps a slot of its own. */
module Homes {
  import opened Basics
  import opened RegionTypes
  import opened Lang
  import opened Ir
  import opened Lowering
  import opened Growth

  predicate OperandOk(o: Operand, nregs: nat) { o.Reg? ==> o.r < nregs }

  predicate HomeOk(h: Home, nregs: nat, nslots: nat) {
    match h
    case InSlot(s) => s < nslots
    case InReg(o) => OperandOk(o, nregs)
  }

  ghost predicate Apart(homes: seq<Home>) {
    forall i, j :: 0 <= i < j < |homes| && homes[i].InSlot? && homes[j].InSlot? ==> homes[i].slot != homes[j].slot
  }

  ghost predicate VarsInSlots(tags: seq<Tag>, homes: seq<Home>) {
    |tags| == |homes| && forall i :: 0 <= i < |tags| && tags[i].isVar ==> homes[i].InSlot?
  }

  /** The homes and handles of a scope exist, and no two names share a slot. */
  ghost predicate Fits(cx: LCx, nregs: nat, nslots: nat) {
    && VarsInSlots(cx.tags, cx.homes)
    && Apart(cx.homes)
    && (forall h :: h in cx.homes ==> HomeOk(h, nregs, nslots))
    && (forall h :: h in cx.handles ==> OperandOk(h.1, nregs))
  }

  lemma FitsGrows(cx: LCx, g: Graph, h: Graph)
    requires Fits(cx, g.nregs, g.nslots) && Nested(g, h)
    ensures Fits(cx, h.nregs, h.nslots)
  {
  }

  lemma {:induction false} ExprOperand(g: Graph, cx: LCx, e: Expr)
    requires Open(g) && Fits(cx, g.nregs, g.nslots)
    ensures OperandOk(LowerExpr(g, cx, e).1, LowerExpr(g, cx, e).0.nregs)
  {
    match e
    case Get(x) => if HomeOf(cx, x).Some? { assert HomeOf(cx, x).value in cx.homes; }
    case Lit(es) =>
      ListNested(g, cx, es);
      var (g1, xs) := LowerList(g, cx, es);
      var i := AllocI(g1.nregs, Lowering.Default(cx).1, Imm(|es|));
      EmitNested(g1, i);
      StoresNested(Define(g1, i), Reg(g1.nregs), xs, 0);
    case Fill(a, b) =>
      TwoNested(g, cx, e, a, b);
      var (g1, x) := LowerExpr(g, cx, a);
      var (g2, n) := LowerExpr(g1, cx, b);
      FillNested(g2, Lowering.Default(cx).1, x, n);
    case Call(_, _, args) => ListNested(g, cx, args);
    case _ =>
  }

  lemma {:induction false} ListOperands(g: Graph, cx: LCx, es: seq<Expr>)
    requires Open(g) && Fits(cx, g.nregs, g.nslots)
    ensures AllOk(LowerList(g, cx, es).1, LowerList(g, cx, es).0.nregs)
    decreases es
  {
    if es != [] {
      ExprOperand(g, cx, es[0]);
      ExprNested(g, cx, es[0]);
      var (g1, x) := LowerExpr(g, cx, es[0]);
      FitsGrows(cx, g, g1);
      ListNested(g1, cx, es[1..]);
      ListOperands(g1, cx, es[1..]);
      AllOkCons(x, LowerList(g1, cx, es[1..]).1, g1.nregs, LowerList(g1, cx, es[1..]).0.nregs);
    }
  }

  ghost predicate AllOk(xs: seq<Operand>, nregs: nat) {
    forall o :: o in xs ==> OperandOk(o, nregs)
  }

  lemma AllOkCons(x: Operand, xs: seq<Operand>, r: nat, r': nat)
    requires OperandOk(x, r) && r <= r' && AllOk(xs, r')
    ensures AllOk([x] + xs, r')
  {
  }

  /** The homes a statement adds: for the names it declares, and new. */
  ghost predicate NewHomes(tags: seq<Tag>, homes: seq<Home>, g: Graph, h: Graph) {
    && VarsInSlots(tags, homes)
    && Apart(homes)
    && forall x :: x in homes ==> HomeOk(x, h.nregs, h.nslots) && (x.InSlot? ==> g.nslots <= x.slot)
  }

  lemma NewHomesTwo(ts: seq<Tag>, hs: seq<Home>, us: seq<Tag>, ks: seq<Home>, g: Graph, h: Graph, k: Graph)
    requires NewHomes(ts, hs, g, h) && NewHomes(us, ks, h, k)
    requires g.nslots <= h.nslots <= k.nslots && h.nregs <= k.nregs
    ensures NewHomes(ts + us, hs + ks, g, k)
  {
    var all := hs + ks;
    forall i, j | 0 <= i < j < |all| && all[i].InSlot? && all[j].InSlot?
      ensures all[i].slot != all[j].slot
    {
      if i < |hs| <= j {
        assert hs[i] in hs && ks[j - |hs|] in ks;
      }
    }
  }

  lemma NewHomesBase(ts: seq<Tag>, hs: seq<Home>, base: Graph, g: Graph, h: Graph)
    requires NewHomes(ts, hs, g, h) && base.nslots <= g.nslots
    ensures NewHomes(ts, hs, base, h)
  {
  }

  lemma {:induction false} StmtHomes(g: Graph, cx: LCx, s: Stmt)
    requires Open(g) && Fits(cx, g.nregs, g.nslots)
    ensures NewHomes(Declared(s, cx.depth), LowerStmt(g, cx, s).1, g, LowerStmt(g, cx, s).0)
    decreases s, 2
  {
    match s
    case Let(_, e) => ExprOperand(g, cx, e);
    case Var(_, e) => ExprNested(g, cx, e); NewVarNested(LowerExpr(g, cx, e).0, LowerExpr(g, cx, e).1);
    case Seq(_, _) => SeqHomes(g, cx, s);
    case If(_, _, els) => if els.Skip? { IfHomes(g, cx, s); } else { IfElseHomes(g, cx, s); }
    case For(_, _, _, body) => ForHomes(g, cx, s);
    case _ =>
  }

  lemma SeqHomes(g: Graph, cx: LCx, s: Stmt)
    requires Open(g) && Fits(cx, g.nregs, g.nslots) && s.Seq?
    ensures NewHomes(Declared(s, cx.depth), LowerSeq(g, cx, s).1, g, LowerSeq(g, cx, s).0)
    decreases s, 0
  {
    StmtHomes(g, cx, s.s1);
    var (g1, hs) := LowerStmt(g, cx, s.s1);
    StmtNested(g, cx, s.s1);
    FitsAfter(g, cx, s.s1);
    var cx1 := CxAfter(cx, s.s1, hs);
    StmtHomes(g1, cx1, s.s2);
    StmtNested(g1, cx1, s.s2);
    var (g2, ks) := LowerStmt(g1, cx1, s.s2);
    NewHomesTwo(Declared(s.s1, cx.depth), hs, Declared(s.s2, cx.depth), ks, g, g1, g2);
  }

  /** After a statement the scope fits the grown graph. */
  lemma FitsAfter(g: Graph, cx: LCx, s: Stmt)
    requires Open(g) && Fits(cx, g.nregs, g.nslots)
    requires NewHomes(Declared(s, cx.depth), LowerStmt(g, cx, s).1, g, LowerStmt(g, cx, s).0) && Nested(g, LowerStmt(g, cx, s).0)
    ensures Fits(CxAfter(cx, s, LowerStmt(g, cx, s).1), LowerStmt(g, cx, s).0.nregs, LowerStmt(g, cx, s).0.nslots)
  {
    var (h, hs) := LowerStmt(g, cx, s);
    FitsAdds(cx, Declared(s, cx.depth), hs, g, h);
  }

  lemma FitsAdds(cx: LCx, ts: seq<Tag>, hs: seq<Home>, g: Graph, h: Graph)
    requires Fits(cx, g.nregs, g.nslots) && NewHomes(ts, hs, g, h) && g.nregs <= h.nregs && g.nslots <= h.nslots
    ensures Fits(cx.(tags := cx.tags + ts, homes := cx.homes + hs), h.nregs, h.nslots)
  {
    var all := cx.homes + hs;
    forall i, j | 0 <= i < j < |all| && all[i].InSlot? && all[j].InSlot?
      ensures all[i].slot != all[j].slot
    {
      if i < |cx.homes| <= j {
        assert cx.homes[i] in cx.homes && hs[j - |cx.homes|] in hs;
      }
    }
  }

  lemma IfHomes(g: Graph, cx: LCx, s: Stmt)
    requires Open(g) && Fits(cx, g.nregs, g.nslots) && s.If? && s.els.Skip?
    ensures NewHomes(Declared(s.thn, cx.depth), LowerIf(g, cx, s).1, g, LowerIf(g, cx, s).0)
    decreases s, 0
  {
    var g1 := IfHead(g, cx, s.c, 2);
    IfHeadNested(g, cx, s.c, 2);
    FitsGrows(cx, g, g1);
    StmtHomes(g1, cx, s.thn);
    StmtNested(g1, cx, s.thn);
  }

  lemma IfElseHomes(g: Graph, cx: LCx, s: Stmt)
    requires Open(g) && Fits(cx, g.nregs, g.nslots) && s.If?
    ensures NewHomes(Declared(s, cx.depth), LowerIfElse(g, cx, s).1, g, LowerIfElse(g, cx, s).0)
    decreases s, 1
  {
    hide NewHomes, LowerStmt, IfHead;
    var done := |g.blocks| + 1;
    var (g2, hs) := ThenPart(g, cx, s);
    ThenPartOk(g, cx, s);
    var cx1 := CxAfter(cx, s.thn, hs);
    ElseGrows(g2, cx1, s, done);
    ElseHomes(g2, cx1, s, done);
    var (g3, ks) := LowerElse(g2, cx1, s, done);
    NewHomesTwo(Declared(s.thn, cx.depth), hs, Declared(s.els, cx.depth), ks, g, g2, g3);
  }

  function ThenPart(g: Graph, cx: LCx, s: Stmt): (r: (Graph, seq<Home>))
    requires s.If?
    ensures |r.1| == |Declared(s.thn, cx.depth)|
  {
    LowerStmt(IfHead(g, cx, s.c, 3), cx, s.thn)
  }

  /** The state between the arms of an `if` with an else. */
  lemma ThenPartOk(g: Graph, cx: LCx, s: Stmt)
    requires Open(g) && Fits(cx, g.nregs, g.nslots) && s.If?
    ensures Nested(g, ThenPart(g, cx, s).0) && Waiting(ThenPart(g, cx, s).0, |g.blocks| + 1)
    ensures Waiting(ThenPart(g, cx, s).0, |g.blocks| + 2)
    ensures NewHomes(Declared(s.thn, cx.depth), ThenPart(g, cx, s).1, g, ThenPart(g, cx, s).0)
    ensures Fits(CxAfter(cx, s.thn, ThenPart(g, cx, s).1), ThenPart(g, cx, s).0.nregs, ThenPart(g, cx, s).0.nslots)
    decreases s, 0
  {
    var g1 := IfHead(g, cx, s.c, 3);
    IfHeadNested(g, cx, s.c, 3);
    FitsGrows(cx, g, g1);
    StmtHomes(g1, cx, s.thn);
    StmtNested(g1, cx, s.thn);
    FitsAfter(g1, cx, s.thn);
    var (g2, hs) := LowerStmt(g1, cx, s.thn);
    NestedTrans(g, g1, g2);
    StillWaiting(g1, g2, |g.blocks| + 1);
    StillWaiting(g1, g2, |g.blocks| + 2);
    NewHomesBase(Declared(s.thn, cx.depth), hs, g, g1, g2);
  }

  lemma ElseHomes(g: Graph, cx: LCx, s: Stmt, done: nat)
    requires Open(g) && s.If? && Waiting(g, done + 1) && Fits(cx, g.nregs, g.nslots)
    ensures NewHomes(Declared(s.els, cx.depth), LowerElse(g, cx, s, done).1, g, LowerElse(g, cx, s, done).0)
    decreases s, 0
  {
    var g1 := GoTo(g, Br(done), done + 1);
    GoToGrows(g, Br(done), done + 1);
    StmtHomes(g1, cx, s.els);
    StmtNested(g1, cx, s.els);
  }

  lemma ForHomes(g: Graph, cx: LCx, s: Stmt)
    requires Open(g) && s.For?
    ensures NewHomes(Declared(s, cx.depth), LowerFor(g, cx, s).1, g, LowerFor(g, cx, s).0)
  {
    hide LowerStmt, Fits, Extends;
    ForStartNested(g, cx, s.lo, s.hi);
    var (g1, it) := ForStart(g, cx, s.lo, s.hi);
    ForLoopFills(g1, cx, s, it, |g.blocks|);
  }
}
