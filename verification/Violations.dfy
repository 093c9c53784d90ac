/** The check of `Reading` is exact: where it fails, some path through the emitted blocks reads
    a register or slot that it has not written. */
module Violations {
  import opened Basics
  import opened RegionTypes
  import opened Lang
  import opened Ir
  import opened Lowering
  import opened Growth
  import opened FillLoop
  import opened WellFormed
  import opened Reading
  import opened Dominance
  import opened Crossing
  import Definite

  // ---------- What is not written ----------

  function HomeCell(h: Home): Option<Cell> {
    match h
    case InSlot(s) => Some(S(s))
    case InReg(Reg(r)) => Some(R(r))
    case InReg(Imm(_)) => None
  }

  /** The unmarked homes exist in `n`, and can be avoided up to position `p` of `k`. */
  ghost predicate HomesMissing(hs: seq<Home>, ms: seq<bool>, n: Graph, k: Graph, a: set<Cell>, p: (nat, nat)) {
    && |ms| == |hs|
    && forall i :: 0 <= i < |ms| && !ms[i] ==>
         HomeCell(hs[i]).Some? && Below(HomeCell(hs[i]).value, n) && Reaches(k, a, p, HomeCell(hs[i]).value)
  }

  ghost predicate Missing(cx: LCx, ok: seq<bool>, n: Graph, k: Graph, a: set<Cell>, p: (nat, nat)) {
    Kinds(cx.tags, cx.homes) && HomesMissing(cx.homes, ok, n, k, a, p)
  }

  /** So can everything that does not exist in `n` yet. */
  ghost predicate Fresh(n: Graph, k: Graph, a: set<Cell>, p: (nat, nat)) {
    forall x :: !Below(x, n) ==> Reaches(k, a, p, x)
  }

  ghost predicate Exact(g: Graph, cx: LCx, ok: seq<bool>, a: set<Cell>) {
    Open(g) && Missing(cx, ok, g, g, a, End(g)) && Fresh(g, g, a, End(g))
  }

  lemma MissingKept(g: Graph, h: Graph, p: (nat, nat), cx: LCx, ok: seq<bool>, a: set<Cell>)
    requires Exact(g, cx, ok, a) && KeepsTo(g, h, p, a)
    ensures Missing(cx, ok, h, h, a, p) && Fresh(h, h, a, p)
  {
    hide Reaches;
  }

  lemma ExactKept(g: Graph, h: Graph, cx: LCx, ok: seq<bool>, a: set<Cell>)
    requires Exact(g, cx, ok, a) && Keeps(g, h, a) && Open(h)
    ensures Exact(h, cx, ok, a)
  {
    MissingKept(g, h, End(h), cx, ok, a);
  }

  lemma MissingAdds(cx: LCx, ok: seq<bool>, n: Graph, m: Graph, k: Graph, a: set<Cell>, p: (nat, nat),
                    ts: seq<Tag>, hs: seq<Home>, ms: seq<bool>)
    requires Missing(cx, ok, n, k, a, p) && Counts(n, m) && Kinds(ts, hs) && |ms| == |ts| && HomesMissing(hs, ms, m, k, a, p)
    ensures Missing(cx.(tags := cx.tags + ts, homes := cx.homes + hs), ok + ms, m, k, a, p)
  {
    hide Reaches;
  }

  /** The operand is a register that can be avoided. */
  ghost predicate OperandMissing(h: Graph, o: Operand, a: set<Cell>) {
    o.Reg? && o.r < h.nregs && Reaches(h, a, End(h), R(o.r))
  }

  lemma OperandKept(g: Graph, h: Graph, o: Operand, a: set<Cell>)
    requires OperandMissing(g, o, a) && Keeps(g, h, a)
    ensures OperandMissing(h, o, a)
  {
  }

  lemma UseViolates(g: Graph, h: Graph, i: Instr, o: Operand, a: set<Cell>)
    requires Open(g) && h.blocks == Emit(g, i).blocks && OperandMissing(g, o, a) && Used(o) <= Uses(i)
    ensures !DefinesFirst(h, a)
  {
    hide DefinesFirst, Reaches;
    assert R(o.r) in Used(o);
    EmitViolates(g, h, a, i, R(o.r));
  }

  lemma BranchViolates(g: Graph, h: Graph, t: Term, o: Operand, a: set<Cell>)
    requires Open(g) && h.blocks == Terminate(g, t).blocks && OperandMissing(g, o, a) && Used(o) <= TermUses(t)
    ensures !DefinesFirst(h, a)
  {
    hide DefinesFirst, Reaches;
    assert R(o.r) in Used(o);
    JumpViolates(g, h, a, t, R(o.r));
  }

  // ---------- Expressions that fail the check ----------

  /** What one operand is: written, or avoidable. */
  ghost predicate Told(h: Graph, cx: LCx, ok: seq<bool>, e: Expr, o: Operand, a: set<Cell>) {
    ExprDefined(cx.tags, ok, e) && (OperandDefined(cx.tags, ok, e) || OperandMissing(h, o, a))
  }

  lemma ToldKept(g: Graph, h: Graph, cx: LCx, ok: seq<bool>, e: Expr, o: Operand, a: set<Cell>)
    requires Told(g, cx, ok, e, o, a) && Keeps(g, h, a)
    ensures Told(h, cx, ok, e, o, a)
  {
    if !OperandDefined(cx.tags, ok, e) { OperandKept(g, h, o, a); }
  }

  /** An instruction that uses the operand: either its value is defined, or a path violates. */
  lemma UseTells(g: Graph, h: Graph, i: Instr, cx: LCx, ok: seq<bool>, e: Expr, o: Operand, a: set<Cell>)
    requires Open(g) && h.blocks == Emit(g, i).blocks && Told(g, cx, ok, e, o, a) && Used(o) <= Uses(i)
    ensures ValueDefined(cx.tags, ok, e) || !DefinesFirst(h, a)
  {
    hide DefinesFirst, OperandMissing;
    if !OperandDefined(cx.tags, ok, e) { UseViolates(g, h, i, o, a); }
  }

  lemma {:induction false} ExprTold(g: Graph, cx: LCx, ok: seq<bool>, e: Expr, a: set<Cell>)
    requires Exact(g, cx, ok, a)
    ensures DefinesFirst(LowerExpr(g, cx, e).0, a) ==> Told(LowerExpr(g, cx, e).0, cx, ok, e, LowerExpr(g, cx, e).1, a)
    decreases e, 2
  {
    hide DefinesFirst, Told, Exact;
    match e
    case Num(_) => OpenEnd(g, cx, ok, a); ConstantTold(g, cx, ok, e, a);
    case Get(x) => GetTold(g, cx, ok, x, a);
    case Bin(_, l, r) => OperationTold(g, cx, ok, e, l, r, a);
    case Lit(es) => LitTold(g, cx, ok, e, a);
    case Fill(l, r) => FillTold(g, cx, ok, e, a);
    case Elem(l, r) => OperationTold(g, cx, ok, e, l, r, a);
    case Length(l) => LoadTold(g, cx, ok, e, l, a);
    case Field(l, _) => LoadTold(g, cx, ok, e, l, a);
    case New(_, _) => ConstantTold(LowerExpr(g, cx, e).0, cx, ok, e, a);
    case Call(_, _, _) => CallTold(g, cx, ok, e, a);
  }

  lemma OpenEnd(g: Graph, cx: LCx, ok: seq<bool>, a: set<Cell>)
    requires Exact(g, cx, ok, a)
    ensures Open(g)
  {
  }

  lemma ConstantTold(h: Graph, cx: LCx, ok: seq<bool>, e: Expr, a: set<Cell>)
    requires e.Num? || e.New?
    ensures Told(h, cx, ok, e, LowerExpr(h, cx, e).1, a) && forall o :: Told(h, cx, ok, e, o, a)
  {
  }

  lemma GetTold(g: Graph, cx: LCx, ok: seq<bool>, x: Name, a: set<Cell>)
    requires Exact(g, cx, ok, a)
    ensures var h, o := LowerExpr(g, cx, Get(x)).0, LowerExpr(g, cx, Get(x)).1;
            DefinesFirst(h, a) ==> Told(h, cx, ok, Get(x), o, a)
  {
    hide DefinesFirst, Reaches;
    var i := Find(cx.tags, x);
    if i.Some? && !ok[i.value] {
      match cx.homes[i.value]
      case InSlot(s) => EmitViolates(g, Define(g, LoadVar(g.nregs, s)), a, LoadVar(g.nregs, s), S(s));
      case InReg(_) =>
    }
  }

  /** Both operands, after the code of both. */
  lemma TwoTold(g: Graph, cx: LCx, ok: seq<bool>, e: Expr, l: Expr, r: Expr, a: set<Cell>)
    requires Exact(g, cx, ok, a) && l < e && r < e
    ensures var g1, x := LowerExpr(g, cx, l).0, LowerExpr(g, cx, l).1;
            var g2, y := LowerExpr(g1, cx, r).0, LowerExpr(g1, cx, r).1;
            && Open(g2) && Exact(g2, cx, ok, a)
            && (DefinesFirst(g2, a) ==> Told(g2, cx, ok, l, x, a) && Told(g2, cx, ok, r, y, a))
    decreases e, 0
  {
    hide DefinesFirst, Told, Exact, Keeps, LowerExpr;
    var g1, x := LowerExpr(g, cx, l).0, LowerExpr(g, cx, l).1;
    var g2, y := LowerExpr(g1, cx, r).0, LowerExpr(g1, cx, r).1;
    OpenEnd(g, cx, ok, a);
    TwoKeep(g, cx, e, l, r, a);
    ExactKept(g, g1, cx, ok, a);
    ExactKept(g1, g2, cx, ok, a);
    ExprTold(g, cx, ok, l, a);
    ExprTold(g1, cx, ok, r, a);
    if DefinesFirst(g2, a) {
      ExprNested(g1, cx, r);
      Unviolated(g1, g2, a);
      ToldKept(g1, g2, cx, ok, l, x, a);
    }
  }

  lemma Unviolated(g: Graph, h: Graph, a: set<Cell>)
    requires Nested(g, h) && DefinesFirst(h, a)
    ensures DefinesFirst(g, a)
  {
    if !DefinesFirst(g, a) { ViolatedWiden(g, h, a); }
  }

  lemma Unbroken(g: Graph, h: Graph, a: set<Cell>)
    requires Extends(g, h) && DefinesFirst(h, a)
    ensures DefinesFirst(g, a)
  {
    if !DefinesFirst(g, a) { ViolatedWiden(g, h, a); }
  }

  lemma OperationTold(g: Graph, cx: LCx, ok: seq<bool>, e: Expr, l: Expr, r: Expr, a: set<Cell>)
    requires Exact(g, cx, ok, a) && ((e.Bin? && e.l == l && e.r == r) || e == Elem(l, r))
    ensures DefinesFirst(LowerExpr(g, cx, e).0, a) ==> Told(LowerExpr(g, cx, e).0, cx, ok, e, LowerExpr(g, cx, e).1, a)
    decreases e, 1
  {
    hide DefinesFirst, Told, Exact, Keeps, ValueDefined, Find, Extends, Nested, Emit, GetHandle, LowerList, LowerFill, HomeOf;
    var g1, x := LowerExpr(g, cx, l).0, LowerExpr(g, cx, l).1;
    var g2, y := LowerExpr(g1, cx, r).0, LowerExpr(g1, cx, r).1;
    var i := if e.Bin? then BinI(g2.nregs, e.op, x, y) else LoadI(g2.nregs, x, y);
    TwoTold(g, cx, ok, e, l, r, a);
    if DefinesFirst(Define(g2, i), a) {
      EmitNested(g2, i);
      Unviolated(g2, Define(g2, i), a);
      UseTells(g2, Define(g2, i), i, cx, ok, l, x, a);
      UseTells(g2, Define(g2, i), i, cx, ok, r, y, a);
      PartsTold(Define(g2, i), cx, ok, e, a, LowerExpr(g, cx, e).1);
    }
  }

  /** An expression that is no name has an operand of its own. */
  lemma PartsTold(h: Graph, cx: LCx, ok: seq<bool>, e: Expr, a: set<Cell>, o: Operand)
    requires !e.Get? && ExprDefined(cx.tags, ok, e)
    ensures Told(h, cx, ok, e, o, a)
  {
  }

  lemma LoadTold(g: Graph, cx: LCx, ok: seq<bool>, e: Expr, l: Expr, a: set<Cell>)
    requires Exact(g, cx, ok, a) && (e == Length(l) || (e.Field? && e.obj == l))
    ensures DefinesFirst(LowerExpr(g, cx, e).0, a) ==> Told(LowerExpr(g, cx, e).0, cx, ok, e, LowerExpr(g, cx, e).1, a)
    decreases e, 1
  {
    hide DefinesFirst, Told, Exact, Keeps, ValueDefined, Find, Extends, Nested, Emit, GetHandle, LowerList, LowerFill, HomeOf;
    var g1, x := LowerExpr(g, cx, l).0, LowerExpr(g, cx, l).1;
    var i := if e.Length? then LengthI(g1.nregs, x) else LoadF(g1.nregs, x, e.f);
    OpenEnd(g, cx, ok, a);
    OneKeeps(g, cx, e, l, a);
    ExprTold(g, cx, ok, l, a);
    if DefinesFirst(Define(g1, i), a) {
      EmitNested(g1, i);
      Unviolated(g1, Define(g1, i), a);
      UseTells(g1, Define(g1, i), i, cx, ok, l, x, a);
      PartsTold(Define(g1, i), cx, ok, e, a, LowerExpr(g, cx, e).1);
    }
  }

  lemma {:induction false} ListTold(g: Graph, cx: LCx, ok: seq<bool>, es: seq<Expr>, a: set<Cell>)
    requires Exact(g, cx, ok, a)
    ensures var h, xs := LowerList(g, cx, es).0, LowerList(g, cx, es).1;
            && Open(h) && Exact(h, cx, ok, a)
            && (DefinesFirst(h, a) ==> forall i :: 0 <= i < |es| ==> Told(h, cx, ok, es[i], xs[i], a))
    decreases es
  {
    hide DefinesFirst, Told, Exact, Keeps, LowerExpr;
    OpenEnd(g, cx, ok, a);
    if es != [] {
      var g1, x := LowerExpr(g, cx, es[0]).0, LowerExpr(g, cx, es[0]).1;
      ExprKeeps(g, cx, es[0], a);
      ExprNested(g, cx, es[0]);
      ExactKept(g, g1, cx, ok, a);
      ExprTold(g, cx, ok, es[0], a);
      ListTold(g1, cx, ok, es[1..], a);
      var h := LowerList(g1, cx, es[1..]).0;
      ListNested(g1, cx, es[1..]);
      ListKeeps(g1, cx, es[1..], a);
      if DefinesFirst(h, a) {
        Unviolated(g1, h, a);
        ToldKept(g1, h, cx, ok, es[0], x, a);
        forall i | 0 <= i < |es| ensures Told(h, cx, ok, es[i], LowerList(g, cx, es).1[i], a) {
          if i > 0 { assert es[i] == es[1..][i - 1]; }
        }
      }
    }
  }

  lemma {:induction false} StoresTold(g: Graph, arr: Operand, xs: seq<Operand>, i: nat, j: nat, cx: LCx, ok: seq<bool>, e: Expr, a: set<Cell>)
    requires Open(g) && i <= j < |xs| && Told(g, cx, ok, e, xs[j], a) && DefinesFirst(StoreAll(g, arr, xs, i), a)
    ensures ValueDefined(cx.tags, ok, e)
    decreases j - i
  {
    hide DefinesFirst, Told, Keeps;
    var k := StoreI(arr, Imm(i), xs[i]);
    var g1 := Emit(g, k);
    EmitNested(g, k);
    StoresNested(g1, arr, xs, i + 1);
    Unviolated(g1, StoreAll(g, arr, xs, i), a);
    if i == j {
      UseTells(g, g1, k, cx, ok, e, xs[j], a);
    } else {
      EmitKeeps(g, g1, k, a);
      ToldKept(g, g1, cx, ok, e, xs[j], a);
      StoresTold(g1, arr, xs, i + 1, j, cx, ok, e, a);
    }
  }

  lemma LitTold(g: Graph, cx: LCx, ok: seq<bool>, e: Expr, a: set<Cell>)
    requires Exact(g, cx, ok, a) && e.Lit?
    ensures DefinesFirst(LowerExpr(g, cx, e).0, a) ==> Told(LowerExpr(g, cx, e).0, cx, ok, e, LowerExpr(g, cx, e).1, a)
    decreases e, 1
  {
    hide DefinesFirst, Told, Exact, Keeps, ValueDefined;
    var g1, xs := LowerList(g, cx, e.es).0, LowerList(g, cx, e.es).1;
    var i := AllocI(g1.nregs, Lowering.Default(cx).1, Imm(|e.es|));
    var g2 := Define(g1, i);
    ListTold(g, cx, ok, e.es, a);
    EmitNested(g1, i);
    DefineKeeps(g1, i, a);
    StoresNested(g2, Reg(g1.nregs), xs, 0);
    var h := StoreAll(g2, Reg(g1.nregs), xs, 0);
    if DefinesFirst(h, a) {
      Unviolated(g2, h, a);
      Unviolated(g1, g2, a);
      forall d | d in e.es ensures ValueDefined(cx.tags, ok, d) {
        var j :| 0 <= j < |e.es| && e.es[j] == d;
        ToldKept(g1, g2, cx, ok, d, xs[j], a);
        StoresTold(g2, Reg(g1.nregs), xs, 0, j, cx, ok, d, a);
      }
      PartsTold(h, cx, ok, e, a, Reg(g1.nregs));
    }
  }

  /** A call uses all of its arguments. */
  lemma CallTold(g: Graph, cx: LCx, ok: seq<bool>, e: Expr, a: set<Cell>)
    requires Exact(g, cx, ok, a) && e.Call?
    ensures DefinesFirst(LowerExpr(g, cx, e).0, a) ==> Told(LowerExpr(g, cx, e).0, cx, ok, e, LowerExpr(g, cx, e).1, a)
    decreases e, 1
  {
    hide DefinesFirst, Told, Exact, Keeps, ValueDefined, LowerList, Find, GetHandle, HandleOf;
    var g1, xs := LowerList(g, cx, e.args).0, LowerList(g, cx, e.args).1;
    var i := CallI(g1.nregs, e.fn, HandleOf(cx, e.regions), xs);
    var h := Define(g1, i);
    ListTold(g, cx, ok, e.args, a);
    EmitNested(g1, i);
    if DefinesFirst(h, a) {
      Unviolated(g1, h, a);
      forall d | d in e.args ensures ValueDefined(cx.tags, ok, d) {
        var j :| 0 <= j < |e.args| && e.args[j] == d;
        assert Used(xs[j]) <= Uses(i);
        UseTells(g1, h, i, cx, ok, d, xs[j], a);
      }
      PartsTold(h, cx, ok, e, a, Reg(g1.nregs));
    }
  }

  /** The count is used by the allocation, the value by the body of the loop. */
  lemma FillTold(g: Graph, cx: LCx, ok: seq<bool>, e: Expr, a: set<Cell>)
    requires Exact(g, cx, ok, a) && e.Fill?
    ensures DefinesFirst(LowerExpr(g, cx, e).0, a) ==> Told(LowerExpr(g, cx, e).0, cx, ok, e, LowerExpr(g, cx, e).1, a)
    decreases e, 1
  {
    hide DefinesFirst, Told, Exact, LowerFill;
    var g1, x := LowerExpr(g, cx, e.v).0, LowerExpr(g, cx, e.v).1;
    var g2, n := LowerExpr(g1, cx, e.count).0, LowerExpr(g1, cx, e.count).1;
    var region := Lowering.Default(cx).1;
    var i, h := AllocI(g2.nregs, region, n), LowerFill(g2, region, x, n);
    TwoTold(g, cx, ok, e, e.v, e.count, a);
    if DefinesFirst(h, a) {
      FillNested(g2, region, x, n);
      Unviolated(g2, h, a);
      FillFirst(g2, region, x, n);
      Unbroken(Define(g2, i), h, a);
      UseTells(g2, Define(g2, i), i, cx, ok, e.count, n, a);
      FillBodyTold(g2, region, x, n, cx, ok, e.v, a);
      PartsTold(h, cx, ok, e, a, LowerExpr(g, cx, e).1);
    }
  }

  lemma FillBodyTold(g: Graph, region: Operand, x: Operand, n: Operand, cx: LCx, ok: seq<bool>, e: Expr, a: set<Cell>)
    requires Open(g) && Told(g, cx, ok, e, x, a) && DefinesFirst(LowerFill(g, region, x, n), a)
    ensures ValueDefined(cx.tags, ok, e)
  {
    hide DefinesFirst, Told, Keeps, KeepsTo, FillStart, FillTest, Nested;
    var c, gs, arr := |g.blocks|, FillStart(g, region, n), Reg(g.nregs);
    FillStartKeeps(g, region, n, a);
    FillStartNested(g, region, n);
    NestedCounts(g, gs);
    FillTestKeeps(gs, g.nslots, n, c, a);
    var gt := FillTest(gs, g.nslots, n, c);
    LoopCodeGrows(gs, g.nslots, n, g.nregs, x, c);
    BothKeep(g, gs, gt, a);
    ToldKept(g, gt, cx, ok, e, x, a);
    var i, j := LoadVar(gt.nregs, g.nslots), StoreI(arr, Reg(gt.nregs), x);
    var g1 := Define(gt, i);
    DefineKeeps(gt, i, a);
    EmitNested(gt, i);
    NestedCounts(gt, g1);
    ToldKept(gt, g1, cx, ok, e, x, a);
    BodyStoreExtends(gt, g.nslots, arr, x);
    ExtendsTrans(Emit(g1, j), FillBody(gt, g.nslots, arr, x), LowerFill(g, region, x, n));
    Unbroken(Emit(g1, j), LowerFill(g, region, x, n), a);
    UseTells(g1, Emit(g1, j), j, cx, ok, e, x, a);
  }

  lemma BodyStoreExtends(g: Graph, slot: nat, arr: Operand, x: Operand)
    requires Open(g)
    ensures Extends(Emit(Define(g, LoadVar(g.nregs, slot)), StoreI(arr, Reg(g.nregs), x)), FillBody(g, slot, arr, x))
  {
    var g2 := Emit(Define(g, LoadVar(g.nregs, slot)), StoreI(arr, Reg(g.nregs), x));
    var g3 := Define(g2, LoadVar(g2.nregs, slot));
    EmitNested(g2, LoadVar(g2.nregs, slot));
    var i := BinI(g3.nregs, Add, Reg(g2.nregs), Imm(1));
    EmitNested(g3, i);
    NestedTrans(g2, g3, Define(g3, i));
    EmitNested(Define(g3, i), StoreVar(slot, Reg(g3.nregs)));
    NestedTrans(g2, Define(g3, i), Emit(Define(g3, i), StoreVar(slot, Reg(g3.nregs))));
  }

  // ---------- Statements that fail the check ----------

  /** The check holds of the statement, and after it the unmarked names are avoidable. */
  ghost predicate Judged(cx: LCx, ok: seq<bool>, s: Stmt, h: Graph, hs: seq<Home>, a: set<Cell>) {
    StmtDefined(cx.tags, ok, cx.depth, s) && Exact(h, CxAfter(cx, s, hs), ok + MarksOf(cx, ok, s), a)
  }

  lemma {:induction false} StmtTold(g: Graph, cx: LCx, ok: seq<bool>, s: Stmt, a: set<Cell>)
    requires Exact(g, cx, ok, a) && DefinesFirst(LowerStmt(g, cx, s).0, a)
    ensures Judged(cx, ok, s, LowerStmt(g, cx, s).0, LowerStmt(g, cx, s).1, a)
    decreases s, 3
  {
    hide DefinesFirst, Exact, Judged;
    match s
    case Skip => QuietTold(g, cx, ok, s, a);
    case Seq(_, _) => SeqTold(g, cx, ok, s, a);
    case Var(_, _) => VarTold(g, cx, ok, s, a);
    case Let(_, _) => LetTold(g, cx, ok, s, a);
    case Assign(_, _) => AssignTold(g, cx, ok, s, a); QuietTold(g, cx, ok, s, a);
    case Do(e) => ExprTold(g, cx, ok, e, a); IsDefined(LowerExpr(g, cx, e).0, cx, ok, e, LowerExpr(g, cx, e).1, a); QuietTold(g, cx, ok, s, a);
    case If(_, _, els) => if els.Skip? { IfTold(g, cx, ok, s, a); } else { IfElseTold(g, cx, ok, s, a); }
    case While(_, _) => WhileTold(g, cx, ok, s, a); QuietTold(g, cx, ok, s, a);
    case For(_, _, _, _) => ForTold(g, cx, ok, s, a);
    case On(_, _) => OnTold(g, cx, ok, s, a); QuietTold(g, cx, ok, s, a);
  }

  lemma IsDefined(h: Graph, cx: LCx, ok: seq<bool>, e: Expr, o: Operand, a: set<Cell>)
    requires Told(h, cx, ok, e, o, a)
    ensures ExprDefined(cx.tags, ok, e)
  {
  }

  /** A statement that declares nothing. */
  lemma QuietTold(g: Graph, cx: LCx, ok: seq<bool>, s: Stmt, a: set<Cell>)
    requires Exact(g, cx, ok, a) && Declared(s, cx.depth) == [] && StmtDefined(cx.tags, ok, cx.depth, s)
    requires DefinesFirst(LowerStmt(g, cx, s).0, a)
    ensures Judged(cx, ok, s, LowerStmt(g, cx, s).0, LowerStmt(g, cx, s).1, a)
  {
    hide DefinesFirst, Exact, Keeps, LowerStmt;
    var h, hs := LowerStmt(g, cx, s).0, LowerStmt(g, cx, s).1;
    OpenEnd(g, cx, ok, a);
    StmtCrosses(g, cx, s, a);
    StmtNested(g, cx, s);
    ExactKept(g, h, cx, ok, a);
    assert hs == [] && MarksOf(cx, ok, s) == [];
    assert CxAfter(cx, s, hs) == cx && ok + MarksOf(cx, ok, s) == ok;
  }

  lemma SeqTold(g: Graph, cx: LCx, ok: seq<bool>, s: Stmt, a: set<Cell>)
    requires Exact(g, cx, ok, a) && s.Seq? && DefinesFirst(LowerStmt(g, cx, s).0, a)
    ensures Judged(cx, ok, s, LowerStmt(g, cx, s).0, LowerStmt(g, cx, s).1, a)
    decreases s, 0
  {
    hide DefinesFirst, Exact, Nested;
    var g1, hs := LowerStmt(g, cx, s.s1).0, LowerStmt(g, cx, s.s1).1;
    var cx1, ok1 := CxAfter(cx, s.s1, hs), ok + MarksOf(cx, ok, s.s1);
    var g2, ks := LowerStmt(g1, cx1, s.s2).0, LowerStmt(g1, cx1, s.s2).1;
    OpenEnd(g, cx, ok, a);
    StmtNested(g, cx, s.s1);
    NestedCounts(g, g1);
    StmtNested(g1, cx1, s.s2);
    Unviolated(g1, g2, a);
    StmtTold(g, cx, ok, s.s1, a);
    StmtTold(g1, cx1, ok1, s.s2, a);
    SeqJoins(cx, ok, s, hs, ks);
  }

  lemma SeqJoins(cx: LCx, ok: seq<bool>, s: Stmt, hs: seq<Home>, ks: seq<Home>)
    requires s.Seq?
    ensures CxAfter(CxAfter(cx, s.s1, hs), s.s2, ks) == CxAfter(cx, s, hs + ks)
    ensures var ms := MarksOf(cx, ok, s.s1);
            ok + ms + MarksOf(CxAfter(cx, s.s1, hs), ok + ms, s.s2) == ok + MarksOf(cx, ok, s)
  {
    TwoJoin(cx, s, s.s1, hs, s.s2, ks);
  }

  lemma TwoJoin(cx: LCx, s: Stmt, x: Stmt, hs: seq<Home>, y: Stmt, ks: seq<Home>)
    requires Declared(s, cx.depth) == Declared(x, cx.depth) + Declared(y, cx.depth)
    ensures CxAfter(CxAfter(cx, x, hs), y, ks) == CxAfter(cx, s, hs + ks)
  {
    hide Declared;
    var ts, us := Declared(x, cx.depth), Declared(y, cx.depth);
    assert cx.tags + ts + us == cx.tags + (ts + us);
    assert cx.homes + hs + ks == cx.homes + (hs + ks);
  }

  /** One more name. */
  lemma ExactAdds(h: Graph, cx: LCx, ok: seq<bool>, s: Stmt, t: Tag, home: Home, m: bool, a: set<Cell>)
    requires Exact(h, cx, ok, a) && Declared(s, cx.depth) == [t] && (t.isVar <==> home.InSlot?)
    requires !m ==> HomeCell(home).Some? && Below(HomeCell(home).value, h) && Reaches(h, a, End(h), HomeCell(home).value)
    ensures Exact(h, CxAfter(cx, s, [home]), ok + [m], a)
  {
    hide Reaches;
    MissingAdds(cx, ok, h, h, h, a, End(h), [t], [home], [m]);
  }

  lemma VarTold(g: Graph, cx: LCx, ok: seq<bool>, s: Stmt, a: set<Cell>)
    requires Exact(g, cx, ok, a) && s.Var? && DefinesFirst(LowerStmt(g, cx, s).0, a)
    ensures Judged(cx, ok, s, LowerStmt(g, cx, s).0, LowerStmt(g, cx, s).1, a)
  {
    hide DefinesFirst, Exact, Keeps, Told, Nested, LowerExpr;
    var g1, o := LowerExpr(g, cx, s.e).0, LowerExpr(g, cx, s.e).1;
    var h := NewVar(g1, o);
    OpenEnd(g, cx, ok, a);
    ExprKeeps(g, cx, s.e, a);
    ExprNested(g, cx, s.e);
    NestedCounts(g, g1);
    NewVarNested(g1, o);
    NestedCounts(g1, h);
    NewVarKeeps(g1, o, a);
    BothKeep(g, g1, h, a);
    ExactKept(g, h, cx, ok, a);
    Unviolated(g1, h, a);
    ExprTold(g, cx, ok, s.e, a);
    UseTells(g1, h, StoreVar(g1.nslots, o), cx, ok, s.e, o, a);
    ExactAdds(h, cx, ok, s, Tag(s.x, true, cx.depth), InSlot(g1.nslots), true, a);
  }

  lemma LetTold(g: Graph, cx: LCx, ok: seq<bool>, s: Stmt, a: set<Cell>)
    requires Exact(g, cx, ok, a) && s.Let? && DefinesFirst(LowerStmt(g, cx, s).0, a)
    ensures Judged(cx, ok, s, LowerStmt(g, cx, s).0, LowerStmt(g, cx, s).1, a)
  {
    hide DefinesFirst, Exact, Keeps, Nested, LowerExpr, Reaches;
    var h, o := LowerExpr(g, cx, s.e).0, LowerExpr(g, cx, s.e).1;
    OpenEnd(g, cx, ok, a);
    ExprKeeps(g, cx, s.e, a);
    ExprNested(g, cx, s.e);
    NestedCounts(g, h);
    ExactKept(g, h, cx, ok, a);
    ExprTold(g, cx, ok, s.e, a);
    ExactAdds(h, cx, ok, s, Tag(s.x, false, cx.depth), InReg(o), OperandDefined(cx.tags, ok, s.e), a);
  }

  lemma AssignTold(g: Graph, cx: LCx, ok: seq<bool>, s: Stmt, a: set<Cell>)
    requires Exact(g, cx, ok, a) && s.Assign? && DefinesFirst(LowerStmt(g, cx, s).0, a)
    ensures StmtDefined(cx.tags, ok, cx.depth, s)
  {
    hide DefinesFirst, Exact, Keeps, Told, Nested, LowerExpr, LowerTarget;
    var g1, d := LowerTarget(g, cx, s.target).0, LowerTarget(g, cx, s.target).1;
    var g2, o := LowerExpr(g1, cx, s.e).0, LowerExpr(g1, cx, s.e).1;
    OpenEnd(g, cx, ok, a);
    TargetKeeps(g, cx, s.target, a);
    TargetNested(g, cx, s.target);
    NestedCounts(g, g1);
    ExactKept(g, g1, cx, ok, a);
    ExprNested(g1, cx, s.e);
    NestedCounts(g1, g2);
    StoreExtends(g2, d, o);
    Unbroken(g2, EmitStore(g2, d, o), a);
    Unviolated(g1, g2, a);
    ExprTold(g1, cx, ok, s.e, a);
    TargetKinds(g, cx, ok, s.target, a);
    if HasPlace(cx.tags, s.target) {
      ExprTold(g, cx, ok, s.target, a);
      IsDefined(g1, cx, ok, s.target, LowerExpr(g, cx, s.target).1, a);
      StoreTells(g2, d, cx, ok, s.e, o, a);
    } else {
      IsDefined(g2, cx, ok, s.e, o, a);
    }
  }

  lemma TargetKinds(g: Graph, cx: LCx, ok: seq<bool>, t: Expr, a: set<Cell>)
    requires Exact(g, cx, ok, a)
    ensures LowerTarget(g, cx, t).1 == NoD <==> !HasPlace(cx.tags, t)
    ensures HasPlace(cx.tags, t) ==> LowerTarget(g, cx, t).0 == LowerExpr(g, cx, t).0
  {
    hide Reaches;
  }

  lemma StoreTells(g: Graph, d: Dest, cx: LCx, ok: seq<bool>, e: Expr, o: Operand, a: set<Cell>)
    requires Open(g) && d != NoD && Told(g, cx, ok, e, o, a) && DefinesFirst(EmitStore(g, d, o), a)
    ensures ValueDefined(cx.tags, ok, e)
  {
    hide DefinesFirst, Told;
    var i := match d case SlotD(x) => StoreVar(x, o) case CellD(x, j) => StoreI(x, j, o) case FieldD(b, f) => StoreF(b, f, o)
             case NoD => CloseI(o);
    UseTells(g, EmitStore(g, d, o), i, cx, ok, e, o, a);
  }

  lemma OnTold(g: Graph, cx: LCx, ok: seq<bool>, s: Stmt, a: set<Cell>)
    requires Exact(g, cx, ok, a) && s.On? && DefinesFirst(LowerStmt(g, cx, s).0, a)
    ensures StmtDefined(cx.tags, ok, cx.depth, s)
    decreases s, 0
  {
    hide DefinesFirst, Keeps, Nested, Reaches;
    var g1, cx1, i := Define(g, OpenI(g.nregs)), CxOn(cx, s.region, g.nregs), CloseI(Reg(g.nregs));
    var g2 := LowerStmt(g1, cx1, s.body).0;
    DefineKeeps(g, OpenI(g.nregs), a);
    EmitNested(g, OpenI(g.nregs));
    NestedCounts(g, g1);
    ExactKept(g, g1, cx, ok, a);
    assert Exact(g1, cx1, ok, a);
    StmtNested(g1, cx1, s.body);
    NestedCounts(g1, g2);
    EmitNested(g2, i);
    Unviolated(g2, Emit(g2, i), a);
    StmtTold(g1, cx1, ok, s.body, a);
  }

  // ---------- if ----------

  /** A branch on a condition. */
  lemma ConditionTold(g: Graph, t: Graph, h: Graph, b: Term, cx: LCx, ok: seq<bool>, e: Expr, a: set<Cell>)
    requires Exact(g, cx, ok, a) && t == LowerExpr(g, cx, e).0 && Open(t) && h.blocks == Terminate(t, b).blocks && Extends(t, h)
    requires Used(LowerExpr(g, cx, e).1) <= TermUses(b) && DefinesFirst(h, a)
    ensures ValueDefined(cx.tags, ok, e)
  {
    hide DefinesFirst, Exact, OperandMissing;
    Unbroken(t, h, a);
    ExprTold(g, cx, ok, e, a);
    if !OperandDefined(cx.tags, ok, e) { BranchViolates(t, h, b, LowerExpr(g, cx, e).1, a); }
  }

  lemma IfHeadTold(g: Graph, cx: LCx, ok: seq<bool>, c: Expr, k: nat, a: set<Cell>)
    requires Exact(g, cx, ok, a) && 2 <= k && DefinesFirst(IfHead(g, cx, c, k), a)
    ensures var h, p := IfHead(g, cx, c, k), (|g.blocks| + k - 1, 0);
            && ValueDefined(cx.tags, ok, c) && Exact(h, cx, ok, a)
            && Missing(cx, ok, h, h, a, p) && Fresh(h, h, a, p)
  {
    hide DefinesFirst, Keeps, KeepsTo, Exact, Missing, Fresh, LowerExpr;
    var n, g0 := |g.blocks|, Append(Create(g, k), |g.blocks|);
    var h, t, o := IfHead(g, cx, c, k), IfTest(g, cx, c, k).0, IfTest(g, cx, c, k).1;
    OpenEnd(g, cx, ok, a);
    IfHeadKeeps(g, cx, c, k, a);
    CreateKeeps(g, k, a);
    CreateNested(g, k);
    NestedCounts(g, Create(g, k));
    AppendOpen(Create(g, k), n);
    ExactKept(g, g0, cx, ok, a);
    ConditionTold(g0, t, h, CondBr(o, n, n + k - 1), cx, ok, c, a);
    IfHeadNested(g, cx, c, k);
    NestedCounts(g, h);
    ExactKept(g, h, cx, ok, a);
    MissingKept(g, h, (n + k - 1, 0), cx, ok, a);
  }

  lemma IfTold(g: Graph, cx: LCx, ok: seq<bool>, s: Stmt, a: set<Cell>)
    requires Exact(g, cx, ok, a) && s.If? && s.els.Skip? && DefinesFirst(LowerStmt(g, cx, s).0, a)
    ensures Judged(cx, ok, s, LowerStmt(g, cx, s).0, LowerStmt(g, cx, s).1, a)
    decreases s, 1
  {
    hide DefinesFirst, Exact, Missing, Fresh, IfHead, LowerIf;
    var k, h, p := IfHead(g, cx, s.c, 2), LowerIf(g, cx, s).0, (|g.blocks| + 1, 0);
    OpenEnd(g, cx, ok, a);
    IfEnds(g, cx, s);
    Unbroken(k, h, a);
    IfHeadTold(g, cx, ok, s.c, 2, a);
    var k1, hs := LowerStmt(k, cx, s.thn).0, LowerStmt(k, cx, s.thn).1;
    Unbroken(k1, h, a);
    StmtTold(k, cx, ok, s.thn, a);
    LastingMissing(k, cx, ok, s.thn, k, a, p);
    StmtNested(k, cx, s.thn);
    Lasted(k, k1, h, cx, ok, s.thn, hs, p, a);
    IfMarks(cx, ok, s, hs);
    IfCode(g, cx, s);
    IfJudged(cx, ok, s, h, hs, a);
  }

  lemma IfJudged(cx: LCx, ok: seq<bool>, s: Stmt, h: Graph, hs: seq<Home>, a: set<Cell>)
    requires s.If? && s.els.Skip? && ValueDefined(cx.tags, ok, s.c) && StmtDefined(cx.tags, ok, cx.depth, s.thn)
    requires Exact(h, CxAfter(cx, s, hs), ok + MarksOf(cx, ok, s), a)
    ensures Judged(cx, ok, s, h, hs, a)
  {
    hide Exact;
    assert StmtDefined(cx.tags + Declared(s.thn, cx.depth), ok + LastingOf(cx, ok, s.thn), cx.depth, s.els);
  }


  lemma IfMarks(cx: LCx, ok: seq<bool>, s: Stmt, hs: seq<Home>)
    requires s.If? && s.els.Skip?
    ensures CxAfter(cx, s, hs) == CxAfter(cx, s.thn, hs) && MarksOf(cx, ok, s) == LastingOf(cx, ok, s.thn)
  {
    assert Declared(s, cx.depth) == Declared(s.thn, cx.depth) + [];
    var ms := LastingOf(cx, ok, s.thn);
    assert MarksOf(cx, ok, s) == ms + [] == ms;
  }

  /** At block `b` of `h`, which is where `h` ends. */
  lemma Lasted(k: Graph, k1: Graph, h: Graph, cx: LCx, ok: seq<bool>, x: Stmt, hs: seq<Home>, p: (nat, nat), a: set<Cell>)
    requires Missing(CxAfter(cx, x, hs), ok + LastingOf(cx, ok, x), k1, k, a, p) && Fresh(k, k, a, p)
    requires Extends(k, h) && Counts(k, k1) && Counts(k1, h) && Open(h) && End(h) == p
    ensures Exact(h, CxAfter(cx, x, hs), ok + LastingOf(cx, ok, x), a)
  {
    forall x | Reaches(k, a, p, x) ensures Reaches(h, a, p, x) { ReachesWiden(k, h, a, p, x); }
    hide Reaches;
  }

  /** After an arm, the names that do not last are avoidable where the arm was not run: there
      is nothing in its code that position `p` of `k` does not avoid. */
  lemma {:induction false} LastingMissing(g: Graph, cx: LCx, ok: seq<bool>, s: Stmt, k: Graph, a: set<Cell>, p: (nat, nat))
    requires Open(g) && Missing(cx, ok, g, k, a, p) && Fresh(g, k, a, p)
    ensures var h, hs := LowerStmt(g, cx, s).0, LowerStmt(g, cx, s).1;
            Missing(CxAfter(cx, s, hs), ok + LastingOf(cx, ok, s), h, k, a, p) && Fresh(h, k, a, p)
    decreases s
  {
    hide Missing, Fresh, LowerStmt;
    var h := LowerStmt(g, cx, s).0;
    StmtNested(g, cx, s);
    NestedCounts(g, h);
    FreshGrows(g, h, k, a, p);
    if s.Seq? {
      SeqHomes(g, cx, s);
      var g1, hs := LowerStmt(g, cx, s.s1).0, LowerStmt(g, cx, s.s1).1;
      StmtNested(g, cx, s.s1);
      NestedCounts(g, g1);
      LastingMissing(g, cx, ok, s.s1, k, a, p);
      SeqCode(g, cx, s);
      MissingTwo(g1, cx, ok, s, s.s1, hs, s.s2, h, k, a, p);
    } else if s.If? {
      IfMissing(g, cx, ok, s, k, a, p);
    } else {
      MissingOne(g, cx, ok, s, k, a, p);
    }
  }

  lemma SeqCode(g: Graph, cx: LCx, s: Stmt)
    requires s.Seq?
    ensures var g1, hs := LowerStmt(g, cx, s.s1).0, LowerStmt(g, cx, s.s1).1;
            LowerStmt(g, cx, s).0 == LowerStmt(g1, CxAfter(cx, s.s1, hs), s.s2).0
  {
  }

  lemma FreshGrows(n: Graph, m: Graph, k: Graph, a: set<Cell>, p: (nat, nat))
    requires Fresh(n, k, a, p) && Counts(n, m)
    ensures Fresh(m, k, a, p)
  {
    hide Reaches;
  }

  lemma MissingGrows(cx: LCx, ok: seq<bool>, n: Graph, m: Graph, k: Graph, a: set<Cell>, p: (nat, nat))
    requires Missing(cx, ok, n, k, a, p) && Counts(n, m)
    ensures Missing(cx, ok, m, k, a, p)
  {
    hide Reaches;
  }

  lemma MissingTwo(g1: Graph, cx: LCx, ok: seq<bool>, s: Stmt, x: Stmt, hs: seq<Home>, y: Stmt, h: Graph,
                   k: Graph, a: set<Cell>, p: (nat, nat))
    requires (s.Seq? && x == s.s1 && y == s.s2) || (s.If? && x == s.thn && y == s.els)
    requires |hs| == |Declared(x, cx.depth)| && Open(g1) && Fresh(g1, k, a, p)
    requires Missing(CxAfter(cx, x, hs), ok + LastingOf(cx, ok, x), g1, k, a, p)
    requires Counts(LowerStmt(g1, CxAfter(cx, x, hs), y).0, h)
    ensures Missing(CxAfter(cx, s, hs + LowerStmt(g1, CxAfter(cx, x, hs), y).1), ok + LastingOf(cx, ok, s), h, k, a, p)
    decreases s, 0
  {
    hide Missing, Fresh, LowerStmt;
    var cx1, ms := CxAfter(cx, x, hs), LastingOf(cx, ok, x);
    LastingMissing(g1, cx1, ok + ms, y, k, a, p);
    var ks := LowerStmt(g1, cx1, y).1;
    TwoJoin(cx, s, x, hs, y, ks);
    assert ok + ms + LastingOf(cx1, ok + ms, y) == ok + LastingOf(cx, ok, s);
    MissingGrows(CxAfter(cx1, y, ks), ok + ms + LastingOf(cx1, ok + ms, y), LowerStmt(g1, cx1, y).0, h, k, a, p);
  }

  lemma IfMissing(g: Graph, cx: LCx, ok: seq<bool>, s: Stmt, k: Graph, a: set<Cell>, p: (nat, nat))
    requires Open(g) && s.If? && Missing(cx, ok, g, k, a, p) && Fresh(g, k, a, p)
    ensures Missing(CxAfter(cx, s, LowerStmt(g, cx, s).1), ok + LastingOf(cx, ok, s), LowerStmt(g, cx, s).0, k, a, p)
    decreases s, 1
  {
    hide Missing, Fresh, LowerStmt, IfHead, Extends;
    var done, w := |g.blocks| + 1, if s.els.Skip? then 2 else 3;
    var g0 := IfHead(g, cx, s.c, w);
    IfHomes(g, cx, s);
    IfHeadNested(g, cx, s.c, w);
    NestedCounts(g, g0);
    MissingGrows(cx, ok, g, g0, k, a, p);
    FreshGrows(g, g0, k, a, p);
    LastingMissing(g0, cx, ok, s.thn, k, a, p);
    var g1, hs := LowerStmt(g0, cx, s.thn).0, LowerStmt(g0, cx, s.thn).1;
    if s.els.Skip? {
      IfEnds(g, cx, s);
      IfMarks(cx, ok, s, hs);
      IfCode(g, cx, s);
      assert LastingOf(cx, ok, s) == MarksOf(cx, ok, s);
      MissingGrows(CxAfter(cx, s.thn, hs), ok + LastingOf(cx, ok, s.thn), g1, LowerStmt(g, cx, s).0, k, a, p);
    } else {
      MiddleEnds(g, cx, s);
      IfElseEnds(g, cx, s);
      IfElseIs(g, cx, s);
      var m := Middle(g, cx, s);
      MissingGrows(CxAfter(cx, s.thn, hs), ok + LastingOf(cx, ok, s.thn), g1, m, k, a, p);
      FreshGrows(g1, m, k, a, p);
      MissingTwo(m, cx, ok, s, s.thn, hs, s.els, LowerStmt(g, cx, s).0, k, a, p);
    }
  }

  lemma IfCode(g: Graph, cx: LCx, s: Stmt)
    requires s.If? && s.els.Skip?
    ensures LowerStmt(g, cx, s).0 == LowerIf(g, cx, s).0
    ensures LowerStmt(g, cx, s).1 == LowerStmt(IfHead(g, cx, s.c, 2), cx, s.thn).1
  {
  }

  lemma IfElseIs(g: Graph, cx: LCx, s: Stmt)
    requires s.If? && !s.els.Skip?
    ensures LowerStmt(g, cx, s) == LowerIfElse(g, cx, s)
    ensures Middle(g, cx, s) == GoTo(LowerStmt(IfHead(g, cx, s.c, 3), cx, s.thn).0, Br(|g.blocks| + 1), |g.blocks| + 2)
    ensures MiddleCx(g, cx, s) == CxAfter(cx, s.thn, LowerStmt(IfHead(g, cx, s.c, 3), cx, s.thn).1)
  {
  }

  lemma MissingOne(g: Graph, cx: LCx, ok: seq<bool>, s: Stmt, k: Graph, a: set<Cell>, p: (nat, nat))
    requires Open(g) && Missing(cx, ok, g, k, a, p) && Fresh(g, k, a, p) && !s.Seq? && !s.If?
    ensures var h, hs := LowerStmt(g, cx, s).0, LowerStmt(g, cx, s).1;
            Missing(CxAfter(cx, s, hs), ok + LastingOf(cx, ok, s), h, k, a, p)
  {
    hide Missing, Reaches, Fresh, LowerStmt;
    var h, hs := LowerStmt(g, cx, s).0, LowerStmt(g, cx, s).1;
    StmtNested(g, cx, s);
    NestedCounts(g, h);
    NamesMissing(g, cx, ok, s, k, a, p);
    MissingAdds(cx, ok, g, h, k, a, p, Declared(s, cx.depth), hs, LastingOf(cx, ok, s));
  }

  lemma NamesMissing(g: Graph, cx: LCx, ok: seq<bool>, s: Stmt, k: Graph, a: set<Cell>, p: (nat, nat))
    requires Open(g) && Missing(cx, ok, g, k, a, p) && Fresh(g, k, a, p) && !s.Seq? && !s.If?
    ensures Kinds(Declared(s, cx.depth), LowerStmt(g, cx, s).1)
    ensures HomesMissing(LowerStmt(g, cx, s).1, LastingOf(cx, ok, s), LowerStmt(g, cx, s).0, k, a, p)
  {
    hide Missing, Reaches, LowerExpr, LowerFor;
    if s.Let? {
      OperandOwn(g, cx, ok, s.e, k, a, p);
    } else if s.Var? {
      ExprNested(g, cx, s.e);
      assert !Below(S(LowerExpr(g, cx, s.e).0.nslots), g);
    } else if s.For? {
      ForNameNew(g, cx, s);
    }
  }

  lemma ForNameNew(g: Graph, cx: LCx, s: Stmt)
    requires Open(g) && s.For?
    ensures var x := ForStart(g, cx, s.lo, s.hi).0.nregs + 1;
            LowerFor(g, cx, s).1 == [InReg(Reg(x))] && !Below(R(x), g) && Below(R(x), LowerFor(g, cx, s).0)
  {
    hide LowerStmt, LowerExpr;
    ForEnds(g, cx, s);
    ForCode(g, cx, s);
    ForStartNested(g, cx, s.lo, s.hi);
    ForHeadGrows(ForStart(g, cx, s.lo, s.hi).0, ForStart(g, cx, s.lo, s.hi).1, |g.blocks|);
  }

  /** An operand that does not last is new, or is the home of a name that is avoidable. */
  lemma OperandOwn(g: Graph, cx: LCx, ok: seq<bool>, e: Expr, k: Graph, a: set<Cell>, p: (nat, nat))
    requires Open(g) && Missing(cx, ok, g, k, a, p) && Fresh(g, k, a, p)
    ensures var h, o := LowerExpr(g, cx, e).0, LowerExpr(g, cx, e).1;
            !OperandLasts(cx.tags, ok, e) ==> o.Reg? && o.r < h.nregs && Reaches(k, a, p, R(o.r))
  {
    hide Reaches;
    if e.Get? {
      var i := Find(cx.tags, e.x);
      if i.Some? && cx.homes[i.value].InSlot? { assert !Below(R(g.nregs), g); }
    } else if !OperandLasts(cx.tags, ok, e) {
      OwnRegister(g, cx, e);
      assert !Below(R(LowerExpr(g, cx, e).1.r), g);
    }
  }

  lemma OwnRegister(g: Graph, cx: LCx, e: Expr)
    requires Open(g) && !e.Get? && !e.Num?
    ensures var h, o := LowerExpr(g, cx, e).0, LowerExpr(g, cx, e).1; o.Reg? && g.nregs <= o.r < h.nregs
  {
    match e
    case Lit(es) =>
      ListNested(g, cx, es);
      var (g1, xs) := LowerList(g, cx, es);
      var i := AllocI(g1.nregs, Lowering.Default(cx).1, Imm(|es|));
      EmitNested(g1, i);
      StoresNested(Define(g1, i), Reg(g1.nregs), xs, 0);
    case Fill(l, r) =>
      TwoNested(g, cx, e, l, r);
      var (g1, x) := LowerExpr(g, cx, l);
      var (g2, n) := LowerExpr(g1, cx, r);
      FillNested(g2, Lowering.Default(cx).1, x, n);
    case Bin(_, l, r) => TwoNested(g, cx, e, l, r);
    case Elem(l, r) => TwoNested(g, cx, e, l, r);
    case Length(l) => ExprNested(g, cx, l);
    case Field(l, _) => ExprNested(g, cx, l);
    case Call(_, _, args) => ListNested(g, cx, args);
    case _ =>
  }

  lemma IfElseTold(g: Graph, cx: LCx, ok: seq<bool>, s: Stmt, a: set<Cell>)
    requires Exact(g, cx, ok, a) && s.If? && !s.els.Skip? && DefinesFirst(LowerStmt(g, cx, s).0, a)
    ensures Judged(cx, ok, s, LowerStmt(g, cx, s).0, LowerStmt(g, cx, s).1, a)
    decreases s, 2
  {
    hide DefinesFirst, Exact, Missing, Fresh, IfHead, LowerIfElse, LowerStmt, Middle, MiddleCx;
    var k, m, cx1, h := IfHead(g, cx, s.c, 3), Middle(g, cx, s), MiddleCx(g, cx, s), LowerIfElse(g, cx, s).0;
    OpenEnd(g, cx, ok, a);
    IfElseIs(g, cx, s);
    MiddleEnds(g, cx, s);
    IfElseEnds(g, cx, s);
    var k1, hs := LowerStmt(k, cx, s.thn).0, LowerStmt(k, cx, s.thn).1;
    var m1 := LowerStmt(m, cx1, s.els).0;
    Unbroken(m1, h, a);
    Unbroken(m, m1, a);
    Unbroken(k1, m, a);
    Unbroken(k, k1, a);
    IfHeadTold(g, cx, ok, s.c, 3, a);
    StmtTold(k, cx, ok, s.thn, a);
    LastingMissing(k, cx, ok, s.thn, k, a, (|g.blocks| + 2, 0));
    Lasted(k, k1, m, cx, ok, s.thn, hs, (|g.blocks| + 2, 0), a);
    var ok1 := ok + LastingOf(cx, ok, s.thn);
    StmtTold(m, cx1, ok1, s.els, a);
    ThenEnds(g, cx, ok, s, k1, hs, a);
    ElseTold(g, cx, ok, s, k1, m, m1, h, cx1, ok1, a);
    BothTold(g, cx, ok, s, h, hs, a);
  }

  /** What is known where the then arm ends. */
  lemma ThenEnds(g: Graph, cx: LCx, ok: seq<bool>, s: Stmt, k1: Graph, hs: seq<Home>, a: set<Cell>)
    requires s.If? && Judged(cx, ok, s.thn, k1, hs, a)
    ensures Fresh(k1, k1, a, End(k1)) && StmtDefined(cx.tags, ok, cx.depth, s.thn)
  {
  }

  /** At the block after the arms: what is old is avoided through the else arm, what is new in
      the else arm is avoided through the then arm. */
  lemma ElseTold(g: Graph, cx: LCx, ok: seq<bool>, s: Stmt, k1: Graph, m: Graph, m1: Graph, h: Graph, cx1: LCx, ok1: seq<bool>, a: set<Cell>)
    requires Open(g) && s.If? && m == Middle(g, cx, s) && cx1 == MiddleCx(g, cx, s) && h == LowerIfElse(g, cx, s).0
    requires k1 == LowerStmt(IfHead(g, cx, s.c, 3), cx, s.thn).0 && m1 == LowerStmt(m, cx1, s.els).0
    requires Exact(m, cx1, ok1, a) && Fresh(k1, k1, a, End(k1)) && DefinesFirst(m1, a)
    ensures Exact(h, CxAfter(cx1, s.els, LowerStmt(m, cx1, s.els).1), ok1 + LastingOf(cx1, ok1, s.els), a)
  {
    hide DefinesFirst, IfHead, LowerIfElse, LowerStmt, Middle, MiddleCx, Missing, Fresh, Keeps, KeepsTo;
    var done := |g.blocks| + 1;
    MiddleEnds(g, cx, s);
    IfElseEnds(g, cx, s);
    StmtCrosses(m, cx1, s.els, a);
    GoToKeeps(m1, Br(done), done, a);
    BothKeep(m, m1, h, a);
    FreshThroughThen(g, cx, s, k1, m, h, a);
    AtEnd(m, h, cx1, ok1, a);
    LastingMissing(m, cx1, ok1, s.els, h, a, (done, 0));
    MissingGrows(CxAfter(cx1, s.els, LowerStmt(m, cx1, s.els).1), ok1 + LastingOf(cx1, ok1, s.els), m1, h, h, a, (done, 0));
    FreshGrows(m1, h, h, a, (done, 0));
  }

  lemma AtEnd(m: Graph, h: Graph, cx: LCx, ok: seq<bool>, a: set<Cell>)
    requires Exact(m, cx, ok, a) && Keeps(m, h, a)
    ensures Missing(cx, ok, m, h, a, End(h))
  {
    hide Reaches;
  }

  lemma FreshThroughThen(g: Graph, cx: LCx, s: Stmt, k1: Graph, m: Graph, h: Graph, a: set<Cell>)
    requires Open(g) && s.If? && m == Middle(g, cx, s) && h == LowerIfElse(g, cx, s).0
    requires k1 == LowerStmt(IfHead(g, cx, s.c, 3), cx, s.thn).0 && Fresh(k1, k1, a, End(k1))
    ensures Fresh(m, h, a, (|g.blocks| + 1, 0))
  {
    hide IfHead, LowerIfElse, LowerStmt, Reaches;
    var done := |g.blocks| + 1;
    MiddleEnds(g, cx, s);
    IfElseEnds(g, cx, s);
    forall x | !Below(x, m) ensures Reaches(h, a, (done, 0), x) {
      assert !Below(x, k1);
      JumpReaches(k1, m, a, Br(done), done, x);
      ReachesWiden(m, h, a, (done, 0), x);
    }
  }

  lemma BothTold(g: Graph, cx: LCx, ok: seq<bool>, s: Stmt, h: Graph, hs: seq<Home>, a: set<Cell>)
    requires s.If? && h == LowerIfElse(g, cx, s).0 && hs == LowerStmt(IfHead(g, cx, s.c, 3), cx, s.thn).1
    requires ValueDefined(cx.tags, ok, s.c) && StmtDefined(cx.tags, ok, cx.depth, s.thn)
    requires var cx1, ok1, m := MiddleCx(g, cx, s), ok + LastingOf(cx, ok, s.thn), Middle(g, cx, s);
             && StmtDefined(cx1.tags, ok1, cx1.depth, s.els)
             && Exact(h, CxAfter(cx1, s.els, LowerStmt(m, cx1, s.els).1), ok1 + LastingOf(cx1, ok1, s.els), a)
    ensures Judged(cx, ok, s, h, LowerIfElse(g, cx, s).1, a)
  {
    hide Exact, IfHead, LowerIfElse, LowerStmt, Middle;
    var cx1, m := MiddleCx(g, cx, s), Middle(g, cx, s);
    var ks, ms := LowerStmt(m, cx1, s.els).1, LastingOf(cx, ok, s.thn);
    MiddleCode(g, cx, s);
    TwoJoin(cx, s, s.thn, hs, s.els, ks);
    assert ok + ms + LastingOf(cx1, ok + ms, s.els) == ok + MarksOf(cx, ok, s);
  }

  // ---------- Loops ----------

  lemma WhileTold(g: Graph, cx: LCx, ok: seq<bool>, s: Stmt, a: set<Cell>)
    requires Exact(g, cx, ok, a) && s.While? && DefinesFirst(LowerStmt(g, cx, s).0, a)
    ensures StmtDefined(cx.tags, ok, cx.depth, s)
    decreases s, 0
  {
    hide DefinesFirst, Exact, Keeps, KeepsTo, LoopStart, WhileHead, LowerWhile;
    var c, start, h := |g.blocks|, LoopStart(g), LowerWhile(g, cx, s);
    OpenEnd(g, cx, ok, a);
    WhileEnds(g, cx, s);
    LoopStartKeeps(g, a);
    ExactKept(g, start, cx, ok, a);
    WhileHeadKeeps(start, cx, s.c, c, a);
    var k, t, o := WhileHead(start, cx, s.c, c), LowerExpr(start, cx, s.c).0, LowerExpr(start, cx, s.c).1;
    Unbroken(k, h, a);
    ConditionTold(start, t, k, CondBr(o, c + 1, c + 2), cx, ok, s.c, a);
    ExactKept(start, k, cx, ok, a);
    InnerExact(k, cx, ok, a);
    Unbroken(LowerStmt(k, InnerCx(cx), s.body).0, h, a);
    StmtTold(k, InnerCx(cx), ok, s.body, a);
  }

  lemma InnerExact(g: Graph, cx: LCx, ok: seq<bool>, a: set<Cell>)
    requires Exact(g, cx, ok, a)
    ensures Exact(g, InnerCx(cx), ok, a)
  {
  }

  lemma ForTold(g: Graph, cx: LCx, ok: seq<bool>, s: Stmt, a: set<Cell>)
    requires Exact(g, cx, ok, a) && s.For? && DefinesFirst(LowerStmt(g, cx, s).0, a)
    ensures Judged(cx, ok, s, LowerStmt(g, cx, s).0, LowerStmt(g, cx, s).1, a)
    decreases s, 1
  {
    hide DefinesFirst, Exact, Keeps, KeepsTo, ForStart, ForHead, LowerFor, Fresh, Missing;
    var c, start, it, h := |g.blocks|, ForStart(g, cx, s.lo, s.hi).0, ForStart(g, cx, s.lo, s.hi).1, LowerFor(g, cx, s).0;
    OpenEnd(g, cx, ok, a);
    ForEnds(g, cx, s);
    Unbroken(start, h, a);
    BoundsTold(g, cx, ok, s.lo, s.hi, a);
    ForStartKeeps(g, cx, s.lo, s.hi, a);
    ExactKept(g, start, cx, ok, a);
    ForHeadKeeps(start, it, c, a);
    var k, x := ForHead(start, it, c), start.nregs + 1;
    ExactKept(start, k, cx, ok, a);
    ExactAdds(k, cx, ok, s, Tag(s.x, false, cx.depth), InReg(Reg(x)), true, a);
    InnerExact(k, CxAfter(cx, s, [InReg(Reg(x))]), ok + [true], a);
    Unbroken(LowerStmt(k, CxFor(cx, s, x), s.body).0, h, a);
    StmtTold(k, CxFor(cx, s, x), ok + [true], s.body, a);
    ForKeeps(g, cx, s, a);
    ExactKept(g, h, cx, ok, a);
    ForCode(g, cx, s);
    NameAvoided(start, h, cx, ok, x, a);
    ExactAdds(h, cx, ok, s, Tag(s.x, false, cx.depth), InReg(Reg(x)), false, a);
  }

  /** The loop's name is not written when the body does not run. */
  lemma NameAvoided(start: Graph, h: Graph, cx: LCx, ok: seq<bool>, x: nat, a: set<Cell>)
    requires Exact(start, cx, ok, a) && x == start.nregs + 1
    requires forall y :: Reaches(start, a, End(start), y) && y != R(start.nregs) ==> Reaches(h, a, End(h), y)
    ensures Reaches(h, a, End(h), R(x))
  {
    hide Reaches;
    assert !Below(R(x), start);
  }

  lemma BoundsTold(g: Graph, cx: LCx, ok: seq<bool>, lo: Expr, hi: Expr, a: set<Cell>)
    requires Exact(g, cx, ok, a) && DefinesFirst(ForStart(g, cx, lo, hi).0, a)
    ensures ValueDefined(cx.tags, ok, lo) && ValueDefined(cx.tags, ok, hi)
  {
    hide DefinesFirst, Exact, Keeps, Told, LowerExpr, ForStart;
    var g0, e := Create(g, 3), Bin(Add, lo, hi);
    OpenEnd(g, cx, ok, a);
    CreateKeeps(g, 3, a);
    CreateNested(g, 3);
    NestedCounts(g, g0);
    ExactKept(g, g0, cx, ok, a);
    TwoTold(g0, cx, ok, e, lo, hi, a);
    ForStartKeeps(g, cx, lo, hi, a);
    var t, x, y := ForBounds(g, cx, lo, hi).0, ForBounds(g, cx, lo, hi).1, ForBounds(g, cx, lo, hi).2;
    var i := IterI(t.nregs, x, y);
    Unbroken(Define(t, i), ForStart(g, cx, lo, hi).0, a);
    EmitNested(t, i);
    Unviolated(t, Define(t, i), a);
    UseTells(t, Define(t, i), i, cx, ok, lo, x, a);
    UseTells(t, Define(t, i), i, cx, ok, hi, y, a);
  }

  // ---------- The theorem ----------

  lemma EntryExact(fn: Fn)
    requires fn.regions != []
    ensures Exact(Entry(fn), EntryCx(fn), Definite.AllSure(|fn.params|), Arguments(fn))
  {
    var g, a := Entry(fn), Arguments(fn);
    forall x | !Below(x, g) ensures Reaches(g, a, End(g), x) {
      assert Avoids(g, a, [(0, 0)], (0, 0), x);
    }
  }

  lemma {:induction false} UndefinedIsRead(fn: Fn)
    requires fn.regions != [] && DefinesFirst(LowerFn(fn), Arguments(fn))
    ensures FnDefined(fn)
  {
    hide DefinesFirst, Exact, LowerStmt, LowerExpr, Judged;
    var g, cx, ok, a := Entry(fn), EntryCx(fn), Definite.AllSure(|fn.params|), Arguments(fn);
    EntryExact(fn);
    OpenEnd(g, cx, ok, a);
    StmtNested(g, cx, fn.body);
    var h, hs := LowerStmt(g, cx, fn.body).0, LowerStmt(g, cx, fn.body).1;
    NestedCounts(g, h);
    if fn.result.None? {
      TermExtends(h, LowerFn(fn), Ret(None));
      Unbroken(h, LowerFn(fn), a);
      StmtTold(g, cx, ok, fn.body, a);
      IsJudged(cx, ok, fn.body, h, hs, a);
    } else {
      var cx1, e := CxAfter(cx, fn.body, hs), fn.result.value;
      var k, o := LowerExpr(h, cx1, e).0, LowerExpr(h, cx1, e).1;
      ExprNested(h, cx1, e);
      NestedCounts(h, k);
      TermExtends(k, LowerFn(fn), Ret(Some(o)));
      Unbroken(k, LowerFn(fn), a);
      Unviolated(h, k, a);
      StmtTold(g, cx, ok, fn.body, a);
      IsJudged(cx, ok, fn.body, h, hs, a);
      ConditionTold(h, k, LowerFn(fn), Ret(Some(o)), cx1, ok + MarksOf(cx, ok, fn.body), e, a);
    }
  }

  lemma IsJudged(cx: LCx, ok: seq<bool>, s: Stmt, h: Graph, hs: seq<Home>, a: set<Cell>)
    requires Judged(cx, ok, s, h, hs, a)
    ensures StmtDefined(cx.tags, ok, cx.depth, s) && Exact(h, CxAfter(cx, s, hs), ok + MarksOf(cx, ok, s), a)
  {
  }

  /** Every path through the code of a function writes what it reads before it reads it, if and
      only if the check of `Reading` holds of the function. */
  lemma DominatedIffDefined(fn: Fn)
    requires fn.regions != []
    ensures DefinesFirst(LowerFn(fn), Arguments(fn)) <==> FnDefined(fn)
  {
    if FnDefined(fn) { FunctionIsDominated(fn); }
    if DefinesFirst(LowerFn(fn), Arguments(fn)) { UndefinedIsRead(fn); }
  }
}
