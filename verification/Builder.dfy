/** The builder as it is used: one mutable function under construction, whose blocks,
    insertion point and counters change step by step.  Each method is proved to do what the
    functions of `Lowering` say, about which the theorems are stated. */
module Builder {
  import opened Basics
  import opened RegionTypes
  import opened Lang
  import opened Ir
  import opened Lowering

  class FunctionBuilder {
    var blocks: seq<Block>
    var order: seq<nat>
    var cur: nat
    var nregs: nat
    var nslots: nat

    ghost function G(): Graph
      reads this
    {
      Graph(blocks, order, cur, nregs, nslots)
    }

    ghost predicate Valid()
      reads this
    {
      cur < |blocks|
    }

    /** A function with its entry block; the region handle and the parameters have registers. */
    constructor (params: nat)
      ensures Valid() && Open(G()) && G() == Graph([EMPTY_BLOCK], [0], 0, params + 1, 0)
    {
      blocks, order, cur, nregs, nslots := [EMPTY_BLOCK], [0], 0, params + 1, 0;
    }

    // ---------- Builder steps ----------

    method CreateBlock() returns (b: nat)
      modifies this
      ensures b == old(|blocks|) && G() == Create(old(G()), 1)
    {
      b := |blocks|;
      blocks := blocks + [EMPTY_BLOCK];
      assert [EMPTY_BLOCK] == seq(1, _ => EMPTY_BLOCK);
    }

    /** The three blocks of a loop. */
    method CreateLoopBlocks() returns (cond: nat, content: nat, done: nat)
      modifies this
      ensures cond == old(|blocks|) && content == cond + 1 && done == cond + 2 && G() == Create(old(G()), 3)
    {
      cond := CreateBlock();
      content := CreateBlock();
      done := CreateBlock();
      assert blocks == old(blocks) + seq(3, _ => EMPTY_BLOCK);
    }

    method PushBack(b: nat)
      modifies this
      ensures G() == Append(old(G()), b)
    {
      order := order + [b];
    }

    method SetInsertPoint(b: nat)
      requires b < |blocks|
      modifies this
      ensures G() == InsertAt(old(G()), b) && Valid()
    {
      cur := b;
    }

    method Insert(i: Instr)
      requires Valid()
      modifies this
      ensures G() == Emit(old(G()), i) && Valid() && |blocks| == old(|blocks|)
    {
      blocks := blocks[cur := Block(blocks[cur].instrs + [i], blocks[cur].term)];
    }

    method SetTerminator(t: Term)
      requires Valid()
      modifies this
      ensures G() == Terminate(old(G()), t) && Valid() && |blocks| == old(|blocks|)
    {
      blocks := blocks[cur := Block(blocks[cur].instrs, Some(t))];
    }

    method InsertValue(i: Instr) returns (o: Operand)
      requires Valid()
      modifies this
      ensures G() == Define(old(G()), i) && o == Reg(old(nregs)) && Valid() && |blocks| == old(|blocks|)
    {
      o := Reg(nregs);
      Insert(i);
      nregs := nregs + 1;
    }

    method CreateAlloca(o: Operand) returns (slot: nat)
      requires Valid()
      modifies this
      ensures G() == NewVar(old(G()), o) && slot == old(nslots) && Valid() && |blocks| == old(|blocks|)
    {
      slot := nslots;
      Insert(StoreVar(slot, o));
      nslots := nslots + 1;
    }

    /** The usual end of a block: terminator, next block joins, insertion goes on there. */
    method JumpInto(t: Term, b: nat)
      requires Valid() && b < |blocks|
      modifies this
      ensures G() == GoTo(old(G()), t, b) && Valid() && |blocks| == old(|blocks|)
    {
      SetTerminator(t);
      PushBack(b);
      SetInsertPoint(b);
    }

    // ---------- Expressions ----------

    method CodegenExpr(cx: LCx, e: Expr) returns (o: Operand)
      requires Valid()
      modifies this
      ensures Valid() && old(|blocks|) <= |blocks|
      ensures G() == LowerExpr(old(G()), cx, e).0 && o == LowerExpr(old(G()), cx, e).1
      decreases e
    {
      match e
      case Num(n) => o := Imm(Wrap(n));
      case Get(x) =>
        var h := HomeOf(cx, x);
        match h {
          case Some(InSlot(s)) => o := InsertValue(LoadVar(nregs, s));
          case Some(InReg(v)) => o := v;
          case None => o := Imm(0);
        }
      case Bin(op, a, b) =>
        var x := CodegenExpr(cx, a);
        var y := CodegenExpr(cx, b);
        o := InsertValue(BinI(nregs, op, x, y));
      case Lit(es) => o := CodegenLiteral(cx, e);
      case Fill(a, b) =>
        var x := CodegenExpr(cx, a);
        var n := CodegenExpr(cx, b);
        o := CodegenFill(Lowering.Default(cx).1, x, n);
      case Elem(a, b) =>
        var x := CodegenExpr(cx, a);
        var y := CodegenExpr(cx, b);
        o := InsertValue(LoadI(nregs, x, y));
      case Length(a) =>
        var x := CodegenExpr(cx, a);
        o := InsertValue(LengthI(nregs, x));
      case Field(a, f) =>
        var x := CodegenExpr(cx, a);
        o := InsertValue(LoadF(nregs, x, f));
      case New(c, rs) => o := InsertValue(NewI(nregs, HandleOf(cx, rs), c));
      case Call(f, rs, args) =>
        var xs := CodegenList(cx, e, args);
        o := InsertValue(CallI(nregs, f, HandleOf(cx, rs), xs));
    }

    /** The elements of a literal or the arguments of a call, in order. */
    method CodegenList(cx: LCx, e: Expr, es: seq<Expr>) returns (xs: seq<Operand>)
      requires Valid() && forall x :: x in es ==> x < e
      modifies this
      ensures Valid() && old(|blocks|) <= |blocks|
      ensures (G(), xs) == LowerList(old(G()), cx, es)
      decreases e, 0
    {
      xs := [];
      ghost var g0 := G();
      for i := 0 to |es|
        invariant Valid() && old(|blocks|) <= |blocks|
        invariant (G(), xs) == LowerList(g0, cx, es[..i])
      {
        ListSnoc(g0, cx, es[..i], es[i]);
        assert es[..i + 1] == es[..i] + [es[i]];
        assert es[i] in es;
        var x := CodegenExpr(cx, es[i]);
        xs := xs + [x];
      }
      assert es[..|es|] == es;
    }

    /** Elements in order, then the allocation, then the stores. */
    method CodegenLiteral(cx: LCx, e: Expr) returns (o: Operand)
      requires Valid() && e.Lit?
      modifies this
      ensures Valid() && old(|blocks|) <= |blocks|
      ensures G() == LowerExpr(old(G()), cx, e).0 && o == LowerExpr(old(G()), cx, e).1
      decreases e, 1
    {
      var xs := CodegenList(cx, e, e.es);
      o := InsertValue(AllocI(nregs, Lowering.Default(cx).1, Imm(|e.es|)));
      ghost var g1 := G();
      for i := 0 to |xs|
        invariant Valid() && old(|blocks|) <= |blocks|
        invariant StoreAll(G(), o, xs, i) == StoreAll(g1, o, xs, 0)
      {
        Insert(StoreI(o, Imm(i), xs[i]));
      }
    }

    /** [x; n]: allocation, counter, and a loop of three blocks. */
    method CodegenFill(region: Operand, x: Operand, n: Operand) returns (o: Operand)
      requires Valid()
      modifies this
      ensures Valid() && old(|blocks|) <= |blocks|
      ensures G() == LowerFill(old(G()), region, x, n) && o == Reg(old(nregs))
    {
      o := InsertValue(AllocI(nregs, region, n));
      var cond, content, done := CreateLoopBlocks();
      var slot := CreateAlloca(Imm(0));
      JumpInto(Br(cond), cond);
      ghost var start := G();
      assert start == FillStart(old(G()), region, n);
      var i := InsertValue(LoadVar(nregs, slot));
      var c := InsertValue(BinI(nregs, Lt, i, n));
      JumpInto(CondBr(c, content, done), content);
      ghost var test := G();
      assert test == FillTest(start, slot, n, cond);
      i := InsertValue(LoadVar(nregs, slot));
      Insert(StoreI(o, i, x));
      i := InsertValue(LoadVar(nregs, slot));
      var j := InsertValue(BinI(nregs, Add, i, Imm(1)));
      Insert(StoreVar(slot, j));
      assert G() == FillBody(test, slot, o, x);
      JumpInto(Br(cond), done);
    }

    // ---------- Statements ----------

    method CodegenTarget(cx: LCx, t: Expr) returns (d: Dest)
      requires Valid()
      modifies this
      ensures Valid() && old(|blocks|) <= |blocks|
      ensures G() == LowerTarget(old(G()), cx, t).0 && d == LowerTarget(old(G()), cx, t).1
    {
      match t
      case Get(x) =>
        var h := HomeOf(cx, x);
        match h {
          case Some(InSlot(s)) =>
            var _ := InsertValue(LoadVar(nregs, s));
            d := SlotD(s);
          case _ => d := NoD;
        }
      case Elem(a, b) =>
        var x := CodegenExpr(cx, a);
        var y := CodegenExpr(cx, b);
        var _ := InsertValue(LoadI(nregs, x, y));
        d := CellD(x, y);
      case Field(a, f) =>
        var x := CodegenExpr(cx, a);
        var _ := InsertValue(LoadF(nregs, x, f));
        d := FieldD(x, f);
      case _ => d := NoD;
    }

    method CodegenStmt(cx: LCx, s: Stmt) returns (homes: seq<Home>)
      requires Valid()
      modifies this
      ensures Valid() && old(|blocks|) <= |blocks|
      ensures G() == LowerStmt(old(G()), cx, s).0 && homes == LowerStmt(old(G()), cx, s).1
      decreases s, 1
    {
      homes := [];
      match s
      case Skip =>
      case Seq(a, b) =>
        var hs := CodegenStmt(cx, a);
        var ks := CodegenStmt(CxAfter(cx, a, hs), b);
        homes := hs + ks;
      case Var(_, e) =>
        var o := CodegenExpr(cx, e);
        var slot := CreateAlloca(o);
        homes := [InSlot(slot)];
      case Let(_, e) =>
        var o := CodegenExpr(cx, e);
        homes := [InReg(o)];
      case Assign(t, e) =>
        var d := CodegenTarget(cx, t);
        var o := CodegenExpr(cx, e);
        match d {
          case NoD =>
          case SlotD(x) => Insert(StoreVar(x, o));
          case CellD(a, i) => Insert(StoreI(a, i, o));
          case FieldD(x, f) => Insert(StoreF(x, f, o));
        }
      case Do(e) =>
        var _ := CodegenExpr(cx, e);
      case If(_, _, els) => homes := CodegenIf(cx, s);
      case While(_, _) => CodegenWhile(cx, s);
      case For(_, _, _, _) => homes := CodegenFor(cx, s);
      case On(_, _) => CodegenOn(cx, s);
    }

    method CodegenIf(cx: LCx, s: Stmt) returns (homes: seq<Home>)
      requires Valid() && s.If?
      modifies this
      ensures Valid() && old(|blocks|) <= |blocks|
      ensures G() == LowerStmt(old(G()), cx, s).0 && homes == LowerStmt(old(G()), cx, s).1
      decreases s, 0
    {
      hide LowerStmt, LowerIf, LowerIfElse, LowerElse, LowerExpr;
      ghost var g0 := G();
      var thn, done, els := CreateIfBlocks(!s.els.Skip?);
      var c := CodegenExpr(cx, s.c);
      SetTerminator(CondBr(c, thn, els));
      SetInsertPoint(thn);
      assert G() == IfHead(g0, cx, s.c, if s.els.Skip? then 2 else 3);
      ghost var g1 := G();
      homes := CodegenStmt(cx, s.thn);
      if s.els.Skip? {
        JumpInto(Br(done), done);
        IfEmitted(g0, cx, s);
      } else {
        ghost var g2, hs := G(), homes;
        JumpInto(Br(done), els);
        var ks := CodegenStmt(CxAfter(cx, s.thn, homes), s.els);
        JumpInto(Br(done), done);
        homes := homes + ks;
        IfElseEmitted(g0, cx, s);
      }
    }

    /** Then, continue and maybe else; only the then block joins the function now. */
    method CreateIfBlocks(hasElse: bool) returns (thn: nat, done: nat, els: nat)
      requires Valid()
      modifies this
      ensures Valid() && thn == old(|blocks|) && done == thn + 1 && els == (if hasElse then thn + 2 else done)
      ensures G() == Append(Create(old(G()), if hasElse then 3 else 2), thn)
    {
      thn := CreateBlock();
      done := CreateBlock();
      els := done;
      if hasElse {
        els := CreateBlock();
      }
      PushBack(thn);
      assert blocks == old(blocks) + seq(if hasElse then 3 else 2, _ => EMPTY_BLOCK);
    }

    method CodegenWhile(cx: LCx, s: Stmt)
      requires Valid() && s.While?
      modifies this
      ensures Valid() && old(|blocks|) <= |blocks|
      ensures G() == LowerWhile(old(G()), cx, s)
      decreases s, 0
    {
      hide LowerStmt, LowerExpr;
      var cond, content, done := CreateLoopBlocks();
      JumpInto(Br(cond), cond);
      var c := CodegenExpr(cx, s.c);
      JumpInto(CondBr(c, content, done), content);
      var _ := CodegenStmt(InnerCx(cx), s.body);
      JumpInto(Br(cond), done);
    }

    method CodegenFor(cx: LCx, s: Stmt) returns (homes: seq<Home>)
      requires Valid() && s.For?
      modifies this
      ensures Valid() && old(|blocks|) <= |blocks|
      ensures G() == LowerFor(old(G()), cx, s).0 && homes == LowerFor(old(G()), cx, s).1
      decreases s, 0
    {
      hide LowerStmt, LowerExpr;
      var it, cond := CodegenIterator(cx, s);
      ghost var g1 := G();
      var v := CodegenNext(it, cond);
      homes := [InReg(Reg(v))];
      assert InnerCx(CxAfter(cx, s, homes)) == CxFor(cx, s, g1.nregs + 1);
      var _ := CodegenStmt(InnerCx(CxAfter(cx, s, homes)), s.body);
      JumpInto(Br(cond), cond + 2);
    }

    /** The blocks of a `for`, its iterator, and the jump to the condition. */
    method CodegenIterator(cx: LCx, s: Stmt) returns (it: nat, cond: nat)
      requires Valid() && s.For?
      modifies this
      ensures Valid() && old(|blocks|) <= cond && cond + 2 < |blocks|
      ensures (G(), it) == ForStart(old(G()), cx, s.lo, s.hi) && cond == old(|blocks|)
    {
      var content, done;
      cond, content, done := CreateLoopBlocks();
      var lo := CodegenExpr(cx, s.lo);
      var hi := CodegenExpr(cx, s.hi);
      it := nregs;
      var _ := InsertValue(IterI(it, lo, hi));
      JumpInto(Br(cond), cond);
    }

    /** hasNext, the branch on it, and next. */
    method CodegenNext(it: nat, cond: nat) returns (v: nat)
      requires Valid() && cond + 2 < |blocks|
      modifies this
      ensures Valid() && |blocks| == old(|blocks|)
      ensures G() == ForHead(old(G()), it, cond) && v == old(nregs) + 1
    {
      var c := InsertValue(HasNextI(nregs, Reg(it)));
      JumpInto(CondBr(c, cond + 1, cond + 2), cond + 1);
      v := nregs;
      var _ := InsertValue(NextI(v, Reg(it)));
    }

    method CodegenOn(cx: LCx, s: Stmt)
      requires Valid() && s.On?
      modifies this
      ensures Valid() && old(|blocks|) <= |blocks|
      ensures G() == LowerOn(old(G()), cx, s)
      decreases s, 0
    {
      var r := nregs;
      var region := InsertValue(OpenI(r));
      var _ := CodegenStmt(CxOn(cx, s.region, r), s.body);
      Insert(CloseI(region));
    }

    // ---------- Functions ----------

    method CodegenFunction(fn: Fn)
      requires Valid() && fn.regions != [] && G() == Entry(fn)
      modifies this
      ensures G() == LowerFn(fn)
    {
      var homes := CodegenStmt(EntryCx(fn), fn.body);
      if fn.result.Some? {
        var o := CodegenExpr(CxAfter(EntryCx(fn), fn.body, homes), fn.result.value);
        SetTerminator(Ret(Some(o)));
      } else {
        SetTerminator(Ret(None));
      }
    }
  }

  lemma IfEmitted(g: Graph, cx: LCx, s: Stmt)
    requires s.If? && s.els.Skip?
    ensures var done, arm := |g.blocks| + 1, LowerStmt(IfHead(g, cx, s.c, 2), cx, s.thn);
            LowerStmt(g, cx, s) == (GoTo(arm.0, Br(done), done), arm.1)
  {
  }

  lemma IfElseEmitted(g: Graph, cx: LCx, s: Stmt)
    requires s.If? && !s.els.Skip?
    ensures var done, arm := |g.blocks| + 1, LowerStmt(IfHead(g, cx, s.c, 3), cx, s.thn);
            var other := LowerStmt(GoTo(arm.0, Br(done), done + 1), CxAfter(cx, s.thn, arm.1), s.els);
            LowerStmt(g, cx, s) == (GoTo(other.0, Br(done), done), arm.1 + other.1)
  {
    var done, arm := |g.blocks| + 1, LowerStmt(IfHead(g, cx, s.c, 3), cx, s.thn);
    var other := LowerStmt(GoTo(arm.0, Br(done), done + 1), CxAfter(cx, s.thn, arm.1), s.els);
    assert LowerElse(arm.0, CxAfter(cx, s.thn, arm.1), s, done) == (GoTo(other.0, Br(done), done), other.1);
    assert LowerIfElse(g, cx, s) == (GoTo(other.0, Br(done), done), arm.1 + other.1);
  }

  /** Lowering one more element. */
  lemma {:induction false} ListSnoc(g: Graph, cx: LCx, es: seq<Expr>, e: Expr)
    ensures LowerList(g, cx, es + [e]).0 == LowerExpr(LowerList(g, cx, es).0, cx, e).0
    ensures LowerList(g, cx, es + [e]).1 == LowerList(g, cx, es).1 + [LowerExpr(LowerList(g, cx, es).0, cx, e).1]
    decreases es
  {
    if es == [] {
      assert ([] + [e])[1..] == [];
    } else {
      var g1 := LowerExpr(g, cx, es[0]).0;
      assert (es + [e])[1..] == es[1..] + [e];
      ListSnoc(g1, cx, es[1..], e);
      assert LowerList(g, cx, es + [e]).1 == [LowerExpr(g, cx, es[0]).1] + LowerList(g1, cx, es[1..] + [e]).1;
    }
  }
}
