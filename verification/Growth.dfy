/** What emitting code does to the graph and to the homes of names. */
module Growth {
  import opened Basics
  import opened RegionTypes
  import opened Lang
  import opened Ir
  import opened Lowering

  /** The code emitted for one construct only adds, ends in an open block, and touches no
      earlier block but the insertion block: the blocks that enclosing constructs have
      created and not yet filled stay as they are. */
  ghost predicate Nested(g: Graph, h: Graph) {
    && Extends(g, h) && Open(h) && g.nregs <= h.nregs && g.nslots <= h.nslots
    && (h.cur == g.cur || |g.blocks| <= h.cur)
    && forall b :: 0 <= b < |g.blocks| && b != g.cur ==> h.blocks[b] == g.blocks[b]
  }

  /** Created, and not yet filled. */
  ghost predicate Waiting(g: Graph, b: nat) {
    b < |g.blocks| && b != g.cur && g.blocks[b] == EMPTY_BLOCK
  }

  lemma NestedTrans(g: Graph, h: Graph, k: Graph)
    requires Nested(g, h) && Nested(h, k)
    ensures Nested(g, k)
  {
  }

  lemma EmitNested(g: Graph, i: Instr)
    requires Open(g)
    ensures Nested(g, Emit(g, i)) && Nested(g, Define(g, i)) && Emit(g, i).cur == g.cur
    ensures |Emit(g, i).blocks| == |g.blocks| && Emit(g, i).nregs == g.nregs && Emit(g, i).nslots == g.nslots
  {
  }

  lemma NewVarNested(g: Graph, o: Operand)
    requires Open(g)
    ensures Nested(g, NewVar(g, o)) && NewVar(g, o).cur == g.cur && |NewVar(g, o).blocks| == |g.blocks|
    ensures NewVar(g, o).nregs == g.nregs && NewVar(g, o).nslots == g.nslots + 1
  {
    EmitNested(g, StoreVar(g.nslots, o));
  }

  lemma CreateNested(g: Graph, k: nat)
    requires Open(g)
    ensures Nested(g, Create(g, k)) && |Create(g, k).blocks| == |g.blocks| + k
    ensures forall b :: |g.blocks| <= b < |g.blocks| + k ==> Waiting(Create(g, k), b)
  {
  }

  /** Going on in a block that was waiting. */
  lemma GoToGrows(g: Graph, t: Term, b: nat)
    requires Open(g) && Waiting(g, b)
    ensures var h := GoTo(g, t, b);
            && Extends(g, h) && Open(h) && h.cur == b && h.blocks[b] == EMPTY_BLOCK
            && |h.blocks| == |g.blocks| && h.nregs == g.nregs && h.nslots == g.nslots
            && (forall x :: 0 <= x < |g.blocks| && x != g.cur ==> h.blocks[x] == g.blocks[x])
            && At(h, g.cur, |g.blocks[g.cur].instrs|) == Some(T(t))
  {
  }

  lemma EnterGrows(g: Graph, t: Term, b: nat)
    requires Open(g) && Waiting(g, b)
    ensures var h := Enter(g, t, b);
            && Extends(g, h) && Open(h) && h.cur == b && h.blocks[b] == EMPTY_BLOCK
            && |h.blocks| == |g.blocks| && h.nregs == g.nregs && h.nslots == g.nslots
            && (forall x :: 0 <= x < |g.blocks| && x != g.cur ==> h.blocks[x] == g.blocks[x])
            && At(h, g.cur, |g.blocks[g.cur].instrs|) == Some(T(t))
  {
  }

  /** The same, seen from a graph that had not created `b`. */
  lemma GoToNested(base: Graph, g: Graph, t: Term, b: nat)
    requires Nested(base, g) && Waiting(g, b) && |base.blocks| <= b
    ensures Nested(base, GoTo(g, t, b))
  {
    GoToGrows(g, t, b);
  }

  /** What waits outside a construct still waits after it. */
  lemma StillWaiting(g: Graph, h: Graph, b: nat)
    requires Nested(g, h) && Waiting(g, b)
    ensures Waiting(h, b)
  {
  }

  // ---------- Expressions ----------

  lemma {:induction false} ExprNested(g: Graph, cx: LCx, e: Expr)
    requires Open(g)
    ensures Nested(g, LowerExpr(g, cx, e).0)
    decreases e, 1
  {
    match e
    case Num(_) =>
    case Get(x) =>
      match HomeOf(cx, x) {
        case Some(InSlot(s)) => EmitNested(g, LoadVar(g.nregs, s));
        case _ =>
      }
    case Bin(op, a, b) =>
      TwoNested(g, cx, e, a, b);
      var (g1, x) := LowerExpr(g, cx, a);
      var (g2, y) := LowerExpr(g1, cx, b);
      ThenEmit(g, g2, BinI(g2.nregs, op, x, y));
    case Lit(es) =>
      ListNested(g, cx, es);
      var (g1, xs) := LowerList(g, cx, es);
      var i := AllocI(g1.nregs, Lowering.Default(cx).1, Imm(|es|));
      ThenEmit(g, g1, i);
      StoresNested(Define(g1, i), Reg(g1.nregs), xs, 0);
      NestedTrans(g, Define(g1, i), StoreAll(Define(g1, i), Reg(g1.nregs), xs, 0));
    case Fill(a, b) =>
      TwoNested(g, cx, e, a, b);
      var (g1, x) := LowerExpr(g, cx, a);
      var (g2, n) := LowerExpr(g1, cx, b);
      FillNested(g2, Lowering.Default(cx).1, x, n);
      NestedTrans(g, g2, LowerFill(g2, Lowering.Default(cx).1, x, n));
    case Elem(a, b) =>
      TwoNested(g, cx, e, a, b);
      var (g1, x) := LowerExpr(g, cx, a);
      var (g2, y) := LowerExpr(g1, cx, b);
      ThenEmit(g, g2, LoadI(g2.nregs, x, y));
    case Length(a) =>
      ExprNested(g, cx, a);
      var (g1, x) := LowerExpr(g, cx, a);
      ThenEmit(g, g1, LengthI(g1.nregs, x));
    case Field(a, f) =>
      ExprNested(g, cx, a);
      var (g1, x) := LowerExpr(g, cx, a);
      ThenEmit(g, g1, LoadF(g1.nregs, x, f));
    case New(c, rs) =>
      EmitNested(g, NewI(g.nregs, HandleOf(cx, rs), c));
    case Call(f, rs, args) =>
      ListNested(g, cx, args);
      var (g1, xs) := LowerList(g, cx, args);
      ThenEmit(g, g1, CallI(g1.nregs, f, HandleOf(cx, rs), xs));
  }

  lemma ThenEmit(g: Graph, h: Graph, i: Instr)
    requires Nested(g, h)
    ensures Nested(g, Emit(h, i)) && Nested(g, Define(h, i))
  {
    EmitNested(h, i);
    NestedTrans(g, h, Emit(h, i));
    NestedTrans(g, h, Define(h, i));
  }

  lemma TwoNested(g: Graph, cx: LCx, e: Expr, a: Expr, b: Expr)
    requires Open(g) && a < e && b < e
    ensures Nested(g, LowerExpr(g, cx, a).0)
    ensures Nested(g, LowerExpr(LowerExpr(g, cx, a).0, cx, b).0)
    decreases e, 0
  {
    ExprNested(g, cx, a);
    var g1 := LowerExpr(g, cx, a).0;
    ExprNested(g1, cx, b);
    NestedTrans(g, g1, LowerExpr(g1, cx, b).0);
  }

  lemma {:induction false} ListNested(g: Graph, cx: LCx, es: seq<Expr>)
    requires Open(g)
    ensures Nested(g, LowerList(g, cx, es).0)
    decreases es
  {
    if es != [] {
      ExprNested(g, cx, es[0]);
      var g1 := LowerExpr(g, cx, es[0]).0;
      ListNested(g1, cx, es[1..]);
      NestedTrans(g, g1, LowerList(g1, cx, es[1..]).0);
    }
  }

  lemma {:induction false} StoresNested(g: Graph, arr: Operand, xs: seq<Operand>, i: nat)
    requires Open(g) && i <= |xs|
    ensures Nested(g, StoreAll(g, arr, xs, i)) && StoreAll(g, arr, xs, i).nregs == g.nregs
    decreases |xs| - i
  {
    if i < |xs| {
      var s := StoreI(arr, Imm(i), xs[i]);
      EmitNested(g, s);
      StoresNested(Emit(g, s), arr, xs, i + 1);
      NestedTrans(g, Emit(g, s), StoreAll(Emit(g, s), arr, xs, i + 1));
    }
  }

  lemma FillStartNested(g: Graph, region: Operand, n: Operand)
    requires Open(g)
    ensures var h := FillStart(g, region, n);
            && Nested(g, h) && h.cur == |g.blocks| && h.blocks[h.cur] == EMPTY_BLOCK
            && h.nregs == g.nregs + 1 && h.nslots == g.nslots + 1
            && Waiting(h, |g.blocks| + 1) && Waiting(h, |g.blocks| + 2)
  {
    var g1 := Define(g, AllocI(g.nregs, region, n));
    EmitNested(g, AllocI(g.nregs, region, n));
    var g2 := Create(g1, 3);
    CreateNested(g1, 3);
    var g3 := NewVar(g2, Imm(0));
    NewVarNested(g2, Imm(0));
    NestedTrans(g, g1, g2);
    NestedTrans(g, g2, g3);
    StillWaiting(g2, g3, |g.blocks|);
    StillWaiting(g2, g3, |g.blocks| + 1);
    StillWaiting(g2, g3, |g.blocks| + 2);
    GoToGrows(g3, Br(|g.blocks|), |g.blocks|);
    GoToNested(g, g3, Br(|g.blocks|), |g.blocks|);
  }

  lemma FillTestGrows(g: Graph, slot: nat, n: Operand, cond: nat)
    requires Open(g) && Waiting(g, cond + 1) && Waiting(g, cond + 2)
    ensures var h := FillTest(g, slot, n, cond);
            && Extends(g, h) && Open(h) && h.cur == cond + 1 && h.blocks[h.cur] == EMPTY_BLOCK
            && |h.blocks| == |g.blocks| && h.nregs == g.nregs + 2 && h.nslots == g.nslots
            && Waiting(h, cond + 2)
            && forall x :: 0 <= x < |g.blocks| && x != g.cur ==> h.blocks[x] == g.blocks[x]
  {
    var g1 := Define(g, LoadVar(g.nregs, slot));
    EmitNested(g, LoadVar(g.nregs, slot));
    var i := BinI(g1.nregs, Lt, Reg(g.nregs), n);
    EmitNested(g1, i);
    NestedTrans(g, g1, Define(g1, i));
    StillWaiting(g, Define(g1, i), cond + 1);
    StillWaiting(g, Define(g1, i), cond + 2);
    GoToGrows(Define(g1, i), CondBr(Reg(g1.nregs), cond + 1, cond + 2), cond + 1);
  }

  lemma FillBodyNested(g: Graph, slot: nat, arr: Operand, x: Operand)
    requires Open(g)
    ensures var h := FillBody(g, slot, arr, x);
            Nested(g, h) && h.cur == g.cur && |h.blocks| == |g.blocks| && h.nslots == g.nslots
  {
    var g1 := Define(g, LoadVar(g.nregs, slot));
    EmitNested(g, LoadVar(g.nregs, slot));
    var g2 := Emit(g1, StoreI(arr, Reg(g.nregs), x));
    EmitNested(g1, StoreI(arr, Reg(g.nregs), x));
    NestedTrans(g, g1, g2);
    var g3 := Define(g2, LoadVar(g2.nregs, slot));
    EmitNested(g2, LoadVar(g2.nregs, slot));
    NestedTrans(g, g2, g3);
    var g4 := Define(g3, BinI(g3.nregs, Add, Reg(g2.nregs), Imm(1)));
    EmitNested(g3, BinI(g3.nregs, Add, Reg(g2.nregs), Imm(1)));
    NestedTrans(g, g3, g4);
    EmitNested(g4, StoreVar(slot, Reg(g3.nregs)));
    NestedTrans(g, g4, Emit(g4, StoreVar(slot, Reg(g3.nregs))));
  }

  lemma FillNested(g: Graph, region: Operand, x: Operand, n: Operand)
    requires Open(g)
    ensures var h := LowerFill(g, region, x, n);
            Nested(g, h) && h.cur == |g.blocks| + 2 && h.blocks[h.cur] == EMPTY_BLOCK && g.nregs < h.nregs
  {
    var cond := |g.blocks|;
    var g1 := FillStart(g, region, n);
    FillStartNested(g, region, n);
    var g2 := FillTest(g1, g.nslots, n, cond);
    FillTestGrows(g1, g.nslots, n, cond);
    assert Nested(g, g2);
    var g3 := FillBody(g2, g.nslots, Reg(g.nregs), x);
    FillBodyNested(g2, g.nslots, Reg(g.nregs), x);
    NestedTrans(g, g2, g3);
    StillWaiting(g2, g3, cond + 2);
    GoToGrows(g3, Br(cond), cond + 2);
    GoToNested(g, g3, Br(cond), cond + 2);
  }

  // ---------- Statements ----------

  lemma TargetNested(g: Graph, cx: LCx, t: Expr)
    requires Open(g)
    ensures Nested(g, LowerTarget(g, cx, t).0)
  {
    match t
    case Get(x) =>
      match HomeOf(cx, x) {
        case Some(InSlot(s)) => EmitNested(g, LoadVar(g.nregs, s));
        case _ =>
      }
    case Elem(a, b) =>
      TwoNested(g, cx, t, a, b);
      var (g1, x) := LowerExpr(g, cx, a);
      var (g2, y) := LowerExpr(g1, cx, b);
      ThenEmit(g, g2, LoadI(g2.nregs, x, y));
    case Field(a, f) =>
      ExprNested(g, cx, a);
      var (g1, x) := LowerExpr(g, cx, a);
      ThenEmit(g, g1, LoadF(g1.nregs, x, f));
    case _ =>
  }

  /** The order of the blocks does not matter to what they contain. */
  lemma SameBlocks(g: Graph, h: Graph, k: Graph)
    requires Nested(g, h) && k.(order := h.order) == h
    ensures Nested(g, k) && forall b: nat :: Waiting(h, b) ==> Waiting(k, b)
  {
    assert forall b: nat, i: nat :: At(k, b, i) == At(h, b, i);
  }

  lemma IfHeadNested(g: Graph, cx: LCx, c: Expr, k: nat)
    requires Open(g) && 2 <= k
    ensures var h := IfHead(g, cx, c, k);
            && Nested(g, h) && h.cur == |g.blocks| && h.blocks[h.cur] == EMPTY_BLOCK
            && forall b :: |g.blocks| < b < |g.blocks| + k ==> Waiting(h, b)
  {
    hide LowerExpr;
    var n := |g.blocks|;
    var g1 := Append(Create(g, k), n);
    CreateNested(g, k);
    SameBlocks(g, Create(g, k), g1);
    ExprNested(g1, cx, c);
    var (g2, o) := LowerExpr(g1, cx, c);
    NestedTrans(g, g1, g2);
    forall b | n <= b < n + k ensures Waiting(g2, b) { StillWaiting(g1, g2, b); }
    EnterGrows(g2, CondBr(o, n, n + k - 1), n);
  }

  lemma LoopStartNested(g: Graph)
    requires Open(g)
    ensures var h := LoopStart(g);
            && Nested(g, h) && h.cur == |g.blocks| && h.blocks[h.cur] == EMPTY_BLOCK
            && h.nregs == g.nregs && h.nslots == g.nslots
            && Waiting(h, |g.blocks| + 1) && Waiting(h, |g.blocks| + 2)
  {
    CreateNested(g, 3);
    GoToGrows(Create(g, 3), Br(|g.blocks|), |g.blocks|);
    GoToNested(g, Create(g, 3), Br(|g.blocks|), |g.blocks|);
  }

  /** A loop's head ends in its content block, with the continue block waiting. */
  ghost predicate LoopHead(g: Graph, h: Graph, cond: nat) {
    && Extends(g, h) && Open(h) && h.cur == cond + 1 && h.blocks[h.cur].term == None
    && g.nregs <= h.nregs && g.nslots <= h.nslots && Waiting(h, cond + 2)
    && forall x :: 0 <= x < |g.blocks| && x != g.cur && x != cond + 1 ==> h.blocks[x] == g.blocks[x]
  }

  lemma WhileHeadGrows(g: Graph, cx: LCx, c: Expr, cond: nat)
    requires Open(g) && Waiting(g, cond + 1) && Waiting(g, cond + 2)
    ensures LoopHead(g, WhileHead(g, cx, c, cond), cond)
    ensures WhileHead(g, cx, c, cond).blocks[cond + 1] == EMPTY_BLOCK
  {
    ExprNested(g, cx, c);
    var (g1, o) := LowerExpr(g, cx, c);
    StillWaiting(g, g1, cond + 1);
    StillWaiting(g, g1, cond + 2);
    GoToGrows(g1, CondBr(o, cond + 1, cond + 2), cond + 1);
  }

  lemma ForStartNested(g: Graph, cx: LCx, lo: Expr, hi: Expr)
    requires Open(g)
    ensures var (h, it) := ForStart(g, cx, lo, hi);
            && Nested(g, h) && h.cur == |g.blocks| && h.blocks[h.cur] == EMPTY_BLOCK
            && g.nregs <= it < h.nregs
            && Waiting(h, |g.blocks| + 1) && Waiting(h, |g.blocks| + 2)
  {
    hide LowerExpr;
    var n := |g.blocks|;
    var g0 := Create(g, 3);
    CreateNested(g, 3);
    TwoNested(g0, cx, Bin(Add, lo, hi), lo, hi);
    var (g1, x) := LowerExpr(g0, cx, lo);
    var (g2, y) := LowerExpr(g1, cx, hi);
    var i := IterI(g2.nregs, x, y);
    ThenEmit(g0, g2, i);
    var g3 := Define(g2, i);
    NestedTrans(g, g0, g3);
    NestedTrans(g, g0, g2);
    StillWaiting(g0, g3, n);
    StillWaiting(g0, g3, n + 1);
    StillWaiting(g0, g3, n + 2);
    GoToGrows(g3, Br(n), n);
    GoToNested(g, g3, Br(n), n);
  }

  lemma ForHeadGrows(g: Graph, it: nat, cond: nat)
    requires Open(g) && Waiting(g, cond + 1) && Waiting(g, cond + 2)
    ensures LoopHead(g, ForHead(g, it, cond), cond) && ForHead(g, it, cond).nregs == g.nregs + 2
  {
    var i := HasNextI(g.nregs, Reg(it));
    EmitNested(g, i);
    var g1 := Define(g, i);
    StillWaiting(g, g1, cond + 1);
    StillWaiting(g, g1, cond + 2);
    var t := CondBr(Reg(g.nregs), cond + 1, cond + 2);
    GoToGrows(g1, t, cond + 1);
    EmitNested(GoTo(g1, t, cond + 1), NextI(g1.nregs, Reg(it)));
  }

  lemma {:induction false} StmtNested(g: Graph, cx: LCx, s: Stmt)
    requires Open(g)
    ensures Nested(g, LowerStmt(g, cx, s).0)
    decreases s, 2
  {
    match s
    case Skip =>
    case Seq(_, _) => SeqNested(g, cx, s);
    case Var(_, e) =>
      ExprNested(g, cx, e);
      var (g1, o) := LowerExpr(g, cx, e);
      NewVarNested(g1, o);
      NestedTrans(g, g1, NewVar(g1, o));
    case Let(_, e) => ExprNested(g, cx, e);
    case Assign(t, e) => AssignNested(g, cx, t, e);
    case Do(e) => ExprNested(g, cx, e);
    case If(_, _, els) => if els.Skip? { IfNested(g, cx, s); } else { IfElseNested(g, cx, s); }
    case While(_, _) => WhileNested(g, cx, s);
    case For(_, _, _, _) => ForNested(g, cx, s);
    case On(_, _) => OnNested(g, cx, s);
  }

  lemma SeqNested(g: Graph, cx: LCx, s: Stmt)
    requires Open(g) && s.Seq?
    ensures Nested(g, LowerSeq(g, cx, s).0)
    decreases s, 0
  {
    StmtNested(g, cx, s.s1);
    var (g1, hs) := LowerStmt(g, cx, s.s1);
    StmtNested(g1, CxAfter(cx, s.s1, hs), s.s2);
    NestedTrans(g, g1, LowerStmt(g1, CxAfter(cx, s.s1, hs), s.s2).0);
  }

  lemma AssignNested(g: Graph, cx: LCx, t: Expr, e: Expr)
    requires Open(g)
    ensures Nested(g, LowerAssign(g, cx, t, e))
  {
    TargetNested(g, cx, t);
    var (g1, d) := LowerTarget(g, cx, t);
    ExprNested(g1, cx, e);
    var (g2, o) := LowerExpr(g1, cx, e);
    NestedTrans(g, g1, g2);
    match d {
      case NoD =>
      case SlotD(x) => ThenEmit(g, g2, StoreVar(x, o));
      case CellD(a, i) => ThenEmit(g, g2, StoreI(a, i, o));
      case FieldD(x, f) => ThenEmit(g, g2, StoreF(x, f, o));
    }
  }

  lemma OnNested(g: Graph, cx: LCx, s: Stmt)
    requires Open(g) && s.On?
    ensures Nested(g, LowerOn(g, cx, s))
    decreases s, 0
  {
    var g1 := Define(g, OpenI(g.nregs));
    EmitNested(g, OpenI(g.nregs));
    StmtNested(g1, CxOn(cx, s.region, g.nregs), s.body);
    var g2 := LowerStmt(g1, CxOn(cx, s.region, g.nregs), s.body).0;
    NestedTrans(g, g1, g2);
    ThenEmit(g, g2, CloseI(Reg(g.nregs)));
  }

  lemma IfNested(g: Graph, cx: LCx, s: Stmt)
    requires Open(g) && s.If? && s.els.Skip?
    ensures Nested(g, LowerIf(g, cx, s).0)
    decreases s, 0
  {
    var done := |g.blocks| + 1;
    var g1 := IfHead(g, cx, s.c, 2);
    IfHeadNested(g, cx, s.c, 2);
    StmtNested(g1, cx, s.thn);
    var g2 := LowerStmt(g1, cx, s.thn).0;
    NestedTrans(g, g1, g2);
    StillWaiting(g1, g2, done);
    GoToNested(g, g2, Br(done), done);
  }

  lemma IfElseNested(g: Graph, cx: LCx, s: Stmt)
    requires Open(g) && s.If?
    ensures Nested(g, LowerIfElse(g, cx, s).0)
    decreases s, 1
  {
    var done := |g.blocks| + 1;
    var g1 := IfHead(g, cx, s.c, 3);
    IfHeadNested(g, cx, s.c, 3);
    StmtNested(g1, cx, s.thn);
    var (g2, hs) := LowerStmt(g1, cx, s.thn);
    NestedTrans(g, g1, g2);
    StillWaiting(g1, g2, done);
    StillWaiting(g1, g2, done + 1);
    ElseGrows(g2, CxAfter(cx, s.thn, hs), s, done);
    BaseGrows(g, g2, LowerElse(g2, CxAfter(cx, s.thn, hs), s, done).0);
  }

  /** Filling some of the waiting blocks that `base` did not have. */
  ghost predicate Fills(base: nat, g: Graph, h: Graph) {
    && Extends(g, h) && Open(h) && g.nregs <= h.nregs && g.nslots <= h.nslots
    && base <= h.cur
    && forall x :: 0 <= x < |g.blocks| && x < base && x != g.cur ==> h.blocks[x] == g.blocks[x]
  }

  lemma BaseGrows(base: Graph, g: Graph, h: Graph)
    requires Nested(base, g) && Fills(|base.blocks|, g, h)
    ensures Nested(base, h)
  {
  }

  lemma ElseGrows(g: Graph, cx: LCx, s: Stmt, done: nat)
    requires Open(g) && s.If? && Waiting(g, done) && Waiting(g, done + 1)
    ensures var h := LowerElse(g, cx, s, done).0;
            Fills(done, g, h) && h.cur == done && h.blocks[done] == EMPTY_BLOCK
    decreases s, 0
  {
    var g1 := GoTo(g, Br(done), done + 1);
    GoToGrows(g, Br(done), done + 1);
    StmtNested(g1, cx, s.els);
    var g2 := LowerStmt(g1, cx, s.els).0;
    StillWaiting(g1, g2, done);
    GoToGrows(g2, Br(done), done);
  }

  /** A loop from its condition block on. */
  lemma LoopFills(g: Graph, head: Graph, body: Graph, cond: nat)
    requires Open(g) && LoopHead(g, head, cond) && Nested(head, body) && g.cur == cond
    ensures Waiting(body, cond + 2)
    ensures var h := GoTo(body, Br(cond), cond + 2);
            Fills(cond, g, h) && h.cur == cond + 2 && h.blocks[h.cur] == EMPTY_BLOCK
  {
    StillWaiting(head, body, cond + 2);
    GoToGrows(body, Br(cond), cond + 2);
  }

  lemma WhileNested(g: Graph, cx: LCx, s: Stmt)
    requires Open(g) && s.While?
    ensures Nested(g, LowerWhile(g, cx, s))
    decreases s, 1
  {
    LoopStartNested(g);
    WhileLoopFills(LoopStart(g), cx, s, |g.blocks|);
    BaseGrows(g, LoopStart(g), LowerWhile(g, cx, s));
  }

  lemma WhileLoopFills(g: Graph, cx: LCx, s: Stmt, cond: nat)
    requires Open(g) && s.While? && g.cur == cond
    requires Waiting(g, cond + 1) && Waiting(g, cond + 2)
    ensures var h := WhileLoop(g, cx, s, cond);
            Fills(cond, g, h) && h.cur == cond + 2 && h.blocks[h.cur] == EMPTY_BLOCK
    decreases s, 0
  {
    WhileHeadGrows(g, cx, s.c, cond);
    var head := WhileHead(g, cx, s.c, cond);
    StmtNested(head, InnerCx(cx), s.body);
    LoopFills(g, head, LowerStmt(head, InnerCx(cx), s.body).0, cond);
  }

  lemma ForNested(g: Graph, cx: LCx, s: Stmt)
    requires Open(g) && s.For?
    ensures Nested(g, LowerFor(g, cx, s).0)
    decreases s, 1
  {
    ForStartNested(g, cx, s.lo, s.hi);
    var (g1, it) := ForStart(g, cx, s.lo, s.hi);
    ForLoopFills(g1, cx, s, it, |g.blocks|);
    BaseGrows(g, g1, ForLoop(g1, cx, s, it, |g.blocks|));
  }

  lemma ForLoopFills(g: Graph, cx: LCx, s: Stmt, it: nat, cond: nat)
    requires Open(g) && s.For? && g.cur == cond
    requires Waiting(g, cond + 1) && Waiting(g, cond + 2)
    ensures var h := ForLoop(g, cx, s, it, cond);
            Fills(cond, g, h) && h.cur == cond + 2 && h.blocks[h.cur] == EMPTY_BLOCK && g.nregs + 2 <= h.nregs
    decreases s, 0
  {
    ForHeadGrows(g, it, cond);
    var head := ForHead(g, it, cond);
    StmtNested(head, CxFor(cx, s, g.nregs + 1), s.body);
    LoopFills(g, head, LowerStmt(head, CxFor(cx, s, g.nregs + 1), s.body).0, cond);
  }
}
