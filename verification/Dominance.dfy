/** Definition before use: on every path through the emitted blocks, whatever the branches do,
    each register and each variable slot is written before it is read, and each register is
    written by one instruction only. */
module Dominance {
  import opened Basics
  import opened RegionTypes
  import opened Lang
  import opened Ir
  import opened Lowering
  import opened Growth
  import opened WellFormed
  import opened Reading
  import Definite

  /** A register or the slot of a variable. */
  datatype Cell = R(r: nat) | S(s: nat)

  function Used(o: Operand): set<Cell> { if o.Reg? then {R(o.r)} else {} }

  function UsedAll(os: seq<Operand>): set<Cell> { set o | o in os && o.Reg? :: R(o.r) }

  function Uses(i: Instr): set<Cell> {
    match i
    case BinI(_, _, a, b) => Used(a) + Used(b)
    case LoadVar(_, s) => {S(s)}
    case StoreVar(_, a) => Used(a)
    case AllocI(_, r, n) => Used(r) + Used(n)
    case NewI(_, r, _) => Used(r)
    case LengthI(_, a) => Used(a)
    case LoadI(_, a, i) => Used(a) + Used(i)
    case StoreI(a, i, x) => Used(a) + Used(i) + Used(x)
    case LoadF(_, o, _) => Used(o)
    case StoreF(o, _, x) => Used(o) + Used(x)
    case OpenI(_) => {}
    case CloseI(r) => Used(r)
    case IterI(_, lo, hi) => Used(lo) + Used(hi)
    case HasNextI(_, it) => Used(it)
    case NextI(_, it) => Used(it)
    case CallI(_, _, r, xs) => Used(r) + UsedAll(xs)
  }

  function Dst(i: Instr): Option<nat> {
    match i
    case StoreVar(_, _) => None
    case StoreI(_, _, _) => None
    case StoreF(_, _, _) => None
    case CloseI(_) => None
    case _ => Some(i.dst)
  }

  function Defs(i: Instr): set<Cell> {
    if i.StoreVar? then {S(i.slot)} else if Dst(i).Some? then {R(Dst(i).value)} else {}
  }

  function TermUses(t: Term): set<Cell> {
    match t
    case Br(_) => {}
    case CondBr(c, _, _) => Used(c)
    case Ret(o) => if o.Some? then Used(o.value) else {}
  }

  // ---------- Paths ----------

  function ItemUses(x: Item): set<Cell> {
    match x
    case I(i) => Uses(i)
    case T(t) => TermUses(t)
  }

  /** Control can go from one position to the other, if conditions may turn out either way. */
  predicate Flows(g: Graph, p: (nat, nat), q: (nat, nat)) {
    match At(g, p.0, p.1)
    case None => false
    case Some(I(_)) => q == (p.0, p.1 + 1)
    case Some(T(t)) => q.0 in Targets(t) && q.1 == 0
  }

  ghost predicate Path(g: Graph, ps: seq<(nat, nat)>) {
    ps != [] && forall k :: 0 <= k < |ps| - 1 ==> Flows(g, ps[k], ps[k + 1])
  }

  /** What the items before the last position of the path have written, or was there before. */
  function Written(g: Graph, ps: seq<(nat, nat)>, a: set<Cell>): set<Cell> {
    if |ps| <= 1 then a
    else
      var p := ps[|ps| - 2];
      Written(g, ps[..|ps| - 1], a) +
      match At(g, p.0, p.1)
      case Some(I(i)) => Defs(i)
      case _ => {}
  }

  // ---------- Promises ----------

  /** For each block that has been jumped to, what is written wherever control enters it. */
  type Promises = map<nat, set<Cell>>

  function Walk(code: seq<Instr>, a: set<Cell>): set<Cell> {
    if code == [] then a else Walk(code[..|code| - 1], a) + Defs(code[|code| - 1])
  }

  ghost predicate InstrsOk(code: seq<Instr>, a: set<Cell>) {
    forall i :: 0 <= i < |code| ==> Uses(code[i]) <= Walk(code[..i], a)
  }

  ghost predicate BlockOk(b: Block, a: set<Cell>, d: Promises) {
    && InstrsOk(b.instrs, a)
    && (b.term.Some? ==>
          && TermUses(b.term.value) <= Walk(b.instrs, a)
          && forall t :: t in Targets(b.term.value) ==> t in d && d[t] <= Walk(b.instrs, a))
  }

  ghost predicate Checked(g: Graph, d: Promises) {
    forall b :: b in d ==> b < |g.blocks| && BlockOk(g.blocks[b], d[b], d)
  }

  /** No register has two definitions, and those still free have none. */
  ghost predicate Single(g: Graph) {
    && (forall b, i :: 0 <= b < |g.blocks| && 0 <= i < |g.blocks[b].instrs| && Dst(g.blocks[b].instrs[i]).Some? ==>
          Dst(g.blocks[b].instrs[i]).value < g.nregs)
    && (forall b, i, c, j ::
          && 0 <= b < |g.blocks| && 0 <= i < |g.blocks[b].instrs|
          && 0 <= c < |g.blocks| && 0 <= j < |g.blocks[c].instrs|
          && Dst(g.blocks[b].instrs[i]).Some? && Dst(g.blocks[b].instrs[i]) == Dst(g.blocks[c].instrs[j])
          ==> b == c && i == j)
  }

  /** What is written when control reaches the insertion point. */
  function Now(g: Graph, d: Promises): set<Cell> {
    if g.cur in d && g.cur < |g.blocks| then Walk(g.blocks[g.cur].instrs, d[g.cur]) else {}
  }

  ghost predicate Live(g: Graph, d: Promises) {
    Open(g) && g.cur in d && Checked(g, d) && Single(g)
  }

  /** More code, with promises for new blocks only. */
  ghost predicate Grown(g: Graph, d: Promises, h: Graph, e: Promises) {
    && Live(h, e)
    && |g.blocks| <= |h.blocks|
    && (forall b :: b in d ==> b in e && e[b] == d[b])
    && (forall b :: b in e && b !in d ==> |g.blocks| <= b)
    && Now(g, d) <= Now(h, e)
  }

  // ---------- Builder steps ----------

  lemma WalkSnoc(code: seq<Instr>, i: Instr, a: set<Cell>)
    requires InstrsOk(code, a) && Uses(i) <= Walk(code, a)
    ensures InstrsOk(code + [i], a) && Walk(code + [i], a) == Walk(code, a) + Defs(i)
  {
    var js := code + [i];
    assert js[..|js| - 1] == code;
    forall k | 0 <= k < |js| ensures Uses(js[k]) <= Walk(js[..k], a) {
      if k < |code| { assert js[..k] == code[..k]; }
    }
  }

  lemma EmitChecked(g: Graph, d: Promises, i: Instr)
    requires Live(g, d) && Uses(i) <= Now(g, d)
    ensures Checked(Emit(g, i), d) && Now(Emit(g, i), d) == Now(g, d) + Defs(i) && Open(Emit(g, i))
  {
    hide InstrsOk, Walk, Single;
    WalkSnoc(g.blocks[g.cur].instrs, i, d[g.cur]);
  }

  lemma EmitSingle(g: Graph, i: Instr)
    requires Single(g) && Open(g) && Dst(i).None?
    ensures Single(Emit(g, i))
  {
  }

  lemma EmitLive(g: Graph, d: Promises, i: Instr)
    requires Live(g, d) && Uses(i) <= Now(g, d) && Dst(i).None?
    ensures Grown(g, d, Emit(g, i), d) && Now(Emit(g, i), d) == Now(g, d) + Defs(i)
  {
    hide Checked, Now;
    EmitChecked(g, d, i);
    EmitSingle(g, i);
  }

  lemma DefineLive(g: Graph, d: Promises, i: Instr)
    requires Live(g, d) && Uses(i) <= Now(g, d) && Dst(i) == Some(g.nregs)
    ensures Grown(g, d, Define(g, i), d) && Now(Define(g, i), d) == Now(g, d) + {R(g.nregs)}
  {
    hide InstrsOk, Walk;
    EmitChecked(g, d, i);
    var h := Define(g, i);
    assert h.blocks == Emit(g, i).blocks;
    assert Checked(h, d) && Now(h, d) == Now(Emit(g, i), d);
    hide Checked, Now;
    assert Single(h);
  }

  lemma NewVarLive(g: Graph, d: Promises, o: Operand)
    requires Live(g, d) && Used(o) <= Now(g, d)
    ensures Grown(g, d, NewVar(g, o), d) && Now(NewVar(g, o), d) == Now(g, d) + {S(g.nslots)}
  {
    EmitLive(g, d, StoreVar(g.nslots, o));
    assert NewVar(g, o).blocks == Emit(g, StoreVar(g.nslots, o)).blocks;
  }

  lemma CreateLive(g: Graph, d: Promises, k: nat)
    requires Live(g, d)
    ensures Grown(g, d, Create(g, k), d) && Now(Create(g, k), d) == Now(g, d)
  {
  }

  /** The promises after a jump: blocks jumped to for the first time are promised `a`. */
  function Promise(d: Promises, ts: set<nat>, a: set<Cell>): Promises {
    map b | b in d.Keys + ts :: if b in d then d[b] else a
  }

  /** What may be promised here, and is kept for the blocks that have a promise. */
  ghost predicate CanJump(g: Graph, d: Promises, t: Term, a: set<Cell>) {
    && Live(g, d) && TermUses(t) <= Now(g, d) && a <= Now(g, d)
    && forall x :: x in Targets(t) ==>
         if x in d then d[x] <= Now(g, d) else x < |g.blocks| && g.blocks[x] == EMPTY_BLOCK
  }

  lemma JumpChecked(g: Graph, d: Promises, t: Term, a: set<Cell>)
    requires CanJump(g, d, t, a)
    ensures Checked(Terminate(g, t), Promise(d, Targets(t), a))
  {
    var h, e := Terminate(g, t), Promise(d, Targets(t), a);
    forall b | b in e ensures b < |h.blocks| && BlockOk(h.blocks[b], e[b], e) {
      if b in d { assert BlockOk(g.blocks[b], d[b], d); }
    }
  }

  lemma JumpLive(g: Graph, d: Promises, t: Term, a: set<Cell>, b: nat)
    requires CanJump(g, d, t, a) && Waiting(g, b) && (b in d || b in Targets(t))
    ensures var e := Promise(d, Targets(t), a);
            && Live(GoTo(g, t, b), e) && Live(Enter(g, t, b), e)
            && Now(GoTo(g, t, b), e) == Now(Enter(g, t, b), e) == e[b]
  {
    var e, k := Promise(d, Targets(t), a), Terminate(g, t);
    JumpChecked(g, d, t, a);
    JumpSingle(g, t);
    hide Single, BlockOk;
    assert GoTo(g, t, b).blocks == Enter(g, t, b).blocks == k.blocks && k.blocks[b] == EMPTY_BLOCK;
    SameChecks(k, GoTo(g, t, b), e);
    SameChecks(k, Enter(g, t, b), e);
  }

  lemma SameChecks(g: Graph, h: Graph, d: Promises)
    requires g.blocks == h.blocks && g.nregs == h.nregs
    ensures Checked(g, d) == Checked(h, d) && Single(g) == Single(h)
  {
  }

  lemma JumpSingle(g: Graph, t: Term)
    requires Single(g) && Open(g)
    ensures Single(Terminate(g, t))
  {
  }

  lemma GrownTrans(g: Graph, d: Promises, h: Graph, e: Promises, k: Graph, f: Promises)
    requires Grown(g, d, h, e) && Grown(h, e, k, f)
    ensures Grown(g, d, k, f)
  {
  }

  // ---------- Names that are surely declared ----------

  predicate HomeIn(h: Home, a: set<Cell>) {
    match h
    case InSlot(s) => S(s) in a
    case InReg(o) => Used(o) <= a
  }

  /** Variables are in slots, and other names are operands. */
  ghost predicate Kinds(tags: seq<Tag>, homes: seq<Home>) {
    |tags| == |homes| && forall i :: 0 <= i < |tags| ==> (tags[i].isVar <==> homes[i].InSlot?)
  }

  /** The marked names have their homes written, and so have the region handles. */
  ghost predicate Usable(cx: LCx, ok: seq<bool>, a: set<Cell>) {
    && Kinds(cx.tags, cx.homes) && |ok| == |cx.tags|
    && (forall i :: 0 <= i < |ok| && ok[i] ==> HomeIn(cx.homes[i], a))
    && (forall h :: h in cx.handles ==> Used(h.1) <= a)
  }

  lemma UsableGrown(cx: LCx, ok: seq<bool>, a: set<Cell>, b: set<Cell>)
    requires Usable(cx, ok, a) && a <= b
    ensures Usable(cx, ok, b)
  {
    forall i | 0 <= i < |ok| && ok[i] ensures HomeIn(cx.homes[i], b) {
      assert HomeIn(cx.homes[i], a);
    }
  }

  // ---------- Expressions ----------

  lemma HandleIn(cx: LCx, ok: seq<bool>, a: set<Cell>, rs: seq<Name>)
    requires Usable(cx, ok, a)
    ensures Used(HandleOf(cx, rs)) <= a && Used(Lowering.Default(cx).1) <= a
  {
    if cx.handles != [] { assert cx.handles[|cx.handles| - 1] in cx.handles; }
  }

  lemma {:induction false} ExprDominates(g: Graph, d: Promises, cx: LCx, ok: seq<bool>, e: Expr) returns (f: Promises)
    requires Live(g, d) && Usable(cx, ok, Now(g, d)) && ExprDefined(cx.tags, ok, e)
    ensures Grown(g, d, LowerExpr(g, cx, e).0, f)
    ensures OperandDefined(cx.tags, ok, e) ==> Used(LowerExpr(g, cx, e).1) <= Now(LowerExpr(g, cx, e).0, f)
    decreases e, 2
  {
    hide Live, Now, Grown, Usable;
    match e
    case Num(_) => f := d; Nothing(g, d);
    case Get(x) => f := GetDominates(g, d, cx, ok, x);
    case Bin(op, a, b) =>
      var g2, x, y, e2 := TwoDominate(g, d, cx, ok, e, a, b);
      f := e2;
      ThenDefine(g, d, g2, f, BinI(g2.nregs, op, x, y));
    case Lit(es) => f := LitDominates(g, d, cx, ok, e);
    case Fill(a, b) => f := FillExprDominates(g, d, cx, ok, e);
    case Elem(a, b) =>
      var g2, x, y, e2 := TwoDominate(g, d, cx, ok, e, a, b);
      f := e2;
      ThenDefine(g, d, g2, f, LoadI(g2.nregs, x, y));
    case Length(a) =>
      f := ExprDominates(g, d, cx, ok, a);
      ThenDefine(g, d, LowerExpr(g, cx, a).0, f, LengthI(LowerExpr(g, cx, a).0.nregs, LowerExpr(g, cx, a).1));
    case Field(a, n) =>
      f := ExprDominates(g, d, cx, ok, a);
      ThenDefine(g, d, LowerExpr(g, cx, a).0, f, LoadF(LowerExpr(g, cx, a).0.nregs, LowerExpr(g, cx, a).1, n));
    case New(c, rs) =>
      HandleIn(cx, ok, Now(g, d), rs);
      Nothing(g, d);
      f := d;
      ThenDefine(g, d, g, d, NewI(g.nregs, HandleOf(cx, rs), c));
    case Call(_, _, _) => f := CallDominates(g, d, cx, ok, e);
  }

  lemma Nothing(g: Graph, d: Promises)
    requires Live(g, d)
    ensures Grown(g, d, g, d)
  {
  }

  lemma ThenDefine(g: Graph, d: Promises, h: Graph, f: Promises, i: Instr)
    requires Grown(g, d, h, f) && Uses(i) <= Now(h, f) && Dst(i) == Some(h.nregs)
    ensures Grown(g, d, Define(h, i), f) && Now(Define(h, i), f) == Now(h, f) + {R(h.nregs)}
    ensures R(h.nregs) in Now(Define(h, i), f)
  {
    hide Live, Now;
    DefineLive(h, f, i);
  }

  lemma ThenEmit(g: Graph, d: Promises, h: Graph, f: Promises, i: Instr)
    requires Grown(g, d, h, f) && Uses(i) <= Now(h, f) && Dst(i).None?
    ensures Grown(g, d, Emit(h, i), f) && Now(Emit(h, i), f) == Now(h, f) + Defs(i)
  {
    hide Live, Now;
    EmitLive(h, f, i);
  }

  lemma GetDominates(g: Graph, d: Promises, cx: LCx, ok: seq<bool>, x: Name) returns (f: Promises)
    requires Live(g, d) && Usable(cx, ok, Now(g, d)) && ExprDefined(cx.tags, ok, Get(x))
    ensures Grown(g, d, LowerExpr(g, cx, Get(x)).0, f)
    ensures OperandDefined(cx.tags, ok, Get(x)) ==> Used(LowerExpr(g, cx, Get(x)).1) <= Now(LowerExpr(g, cx, Get(x)).0, f)
  {
    hide Live, Now, Grown;
    f := d;
    Nothing(g, d);
    var i := Find(cx.tags, x);
    if i.Some? {
      assert ok[i.value] ==> HomeIn(cx.homes[i.value], Now(g, d));
      match cx.homes[i.value]
      case InSlot(s) => ThenDefine(g, d, g, d, LoadVar(g.nregs, s));
      case InReg(o) =>
    }
  }

  lemma {:induction false} TwoDominate(g: Graph, d: Promises, cx: LCx, ok: seq<bool>, e: Expr, a: Expr, b: Expr)
    returns (g2: Graph, x: Operand, y: Operand, f: Promises)
    requires Live(g, d) && Usable(cx, ok, Now(g, d)) && ValueDefined(cx.tags, ok, a) && ValueDefined(cx.tags, ok, b) && a < e && b < e
    ensures x == LowerExpr(g, cx, a).1 && g2 == LowerExpr(LowerExpr(g, cx, a).0, cx, b).0
    ensures y == LowerExpr(LowerExpr(g, cx, a).0, cx, b).1
    ensures Grown(g, d, g2, f) && Used(x) <= Now(g2, f) && Used(y) <= Now(g2, f)
    decreases e, 0
  {
    var f1 := ExprDominates(g, d, cx, ok, a);
    var g1 := LowerExpr(g, cx, a).0;
    hide Live, Now, Usable;
    UsableGrown(cx, ok, Now(g, d), Now(g1, f1));
    f := ExprDominates(g1, f1, cx, ok, b);
    g2, x, y := LowerExpr(g1, cx, b).0, LowerExpr(g, cx, a).1, LowerExpr(g1, cx, b).1;
    GrownTrans(g, d, g1, f1, g2, f);
  }

  ghost predicate AllIn(xs: seq<Operand>, a: set<Cell>) {
    forall o :: o in xs ==> Used(o) <= a
  }

  lemma {:induction false} ListDominates(g: Graph, d: Promises, cx: LCx, ok: seq<bool>, es: seq<Expr>) returns (f: Promises)
    requires Live(g, d) && Usable(cx, ok, Now(g, d)) && forall a :: a in es ==> ValueDefined(cx.tags, ok, a)
    ensures Grown(g, d, LowerList(g, cx, es).0, f)
    ensures AllIn(LowerList(g, cx, es).1, Now(LowerList(g, cx, es).0, f))
    decreases es
  {
    if es == [] {
      f := d;
      Nothing(g, d);
    } else {
      hide Live, Now, Usable;
      assert ValueDefined(cx.tags, ok, es[0]);
      var f1 := ExprDominates(g, d, cx, ok, es[0]);
      var g1, x := LowerExpr(g, cx, es[0]).0, LowerExpr(g, cx, es[0]).1;
      assert Live(g1, f1) && Now(g, d) <= Now(g1, f1);
      UsableGrown(cx, ok, Now(g, d), Now(g1, f1));
      f := ListDominates(g1, f1, cx, ok, es[1..]);
      GrownTrans(g, d, g1, f1, LowerList(g1, cx, es[1..]).0, f);
    }
  }

  lemma {:induction false} StoresDominate(g: Graph, d: Promises, h: Graph, f: Promises, arr: Operand, xs: seq<Operand>, i: nat)
    requires Grown(g, d, h, f) && i <= |xs| && Used(arr) <= Now(h, f) && AllIn(xs, Now(h, f))
    ensures Grown(g, d, StoreAll(h, arr, xs, i), f) && Used(arr) <= Now(StoreAll(h, arr, xs, i), f)
    decreases |xs| - i
  {
    hide Live, Now, Grown;
    if i < |xs| {
      assert xs[i] in xs;
      var k := StoreI(arr, Imm(i), xs[i]);
      ThenEmit(g, d, h, f, k);
      StoresDominate(g, d, Emit(h, k), f, arr, xs, i + 1);
    }
  }

  lemma {:induction false} LitDominates(g: Graph, d: Promises, cx: LCx, ok: seq<bool>, e: Expr) returns (f: Promises)
    requires Live(g, d) && Usable(cx, ok, Now(g, d)) && e.Lit? && ExprDefined(cx.tags, ok, e)
    ensures Grown(g, d, LowerExpr(g, cx, e).0, f)
    ensures Used(LowerExpr(g, cx, e).1) <= Now(LowerExpr(g, cx, e).0, f)
    decreases e, 0
  {
    f := ListDominates(g, d, cx, ok, e.es);
    var g1, xs := LowerList(g, cx, e.es).0, LowerList(g, cx, e.es).1;
    HandleIn(cx, ok, Now(g, d), []);
    assert Now(g, d) <= Now(g1, f);
    hide Live, Now, Grown, Usable;
    var i := AllocI(g1.nregs, Lowering.Default(cx).1, Imm(|e.es|));
    ThenDefine(g, d, g1, f, i);
    StoresDominate(g, d, Define(g1, i), f, Reg(g1.nregs), xs, 0);
  }

  lemma UsedAllIn(xs: seq<Operand>, a: set<Cell>)
    requires AllIn(xs, a)
    ensures UsedAll(xs) <= a
  {
    forall x | x in UsedAll(xs) ensures x in a {
      var o :| o in xs && o.Reg? && x == R(o.r);
      assert x in Used(o);
    }
  }

  /** The arguments in order, then the call. */
  lemma {:induction false} CallDominates(g: Graph, d: Promises, cx: LCx, ok: seq<bool>, e: Expr) returns (f: Promises)
    requires Live(g, d) && Usable(cx, ok, Now(g, d)) && e.Call? && ExprDefined(cx.tags, ok, e)
    ensures Grown(g, d, LowerExpr(g, cx, e).0, f)
    ensures Used(LowerExpr(g, cx, e).1) <= Now(LowerExpr(g, cx, e).0, f)
    decreases e, 0
  {
    f := ListDominates(g, d, cx, ok, e.args);
    var g1, xs := LowerList(g, cx, e.args).0, LowerList(g, cx, e.args).1;
    HandleIn(cx, ok, Now(g, d), e.regions);
    assert Now(g, d) <= Now(g1, f);
    hide Live, Now, Grown, Usable;
    UsedAllIn(xs, Now(g1, f));
    ThenDefine(g, d, g1, f, CallI(g1.nregs, e.fn, HandleOf(cx, e.regions), xs));
  }

  lemma {:induction false} FillExprDominates(g: Graph, d: Promises, cx: LCx, ok: seq<bool>, e: Expr) returns (f: Promises)
    requires Live(g, d) && Usable(cx, ok, Now(g, d)) && e.Fill? && ExprDefined(cx.tags, ok, e)
    ensures Grown(g, d, LowerExpr(g, cx, e).0, f)
    ensures Used(LowerExpr(g, cx, e).1) <= Now(LowerExpr(g, cx, e).0, f)
    decreases e, 1
  {
    var g2, x, n, f2 := TwoDominate(g, d, cx, ok, e, e.v, e.count);
    HandleIn(cx, ok, Now(g, d), []);
    assert Live(g2, f2) && Now(g, d) <= Now(g2, f2);
    hide Live, Now, Usable;
    f := FillDominates(g2, f2, Lowering.Default(cx).1, x, n);
    GrownTrans(g, d, g2, f2, LowerFill(g2, Lowering.Default(cx).1, x, n), f);
  }

  // ---------- The loop of `[v; n]` ----------

  /** A jump to new blocks, or back to a block whose promise is kept, going on in block b. */
  lemma ThenGoTo(g: Graph, d: Promises, h: Graph, f: Promises, t: Term, a: set<Cell>, b: nat) returns (e: Promises)
    requires Grown(g, d, h, f) && Waiting(h, b) && |g.blocks| <= b && (b in f || b in Targets(t))
    requires TermUses(t) <= Now(h, f) && Now(g, d) <= a <= Now(h, f)
    requires forall x :: x in Targets(t) ==> |g.blocks| <= x && if x in f then f[x] <= Now(h, f) else Waiting(h, x)
    requires b in f ==> Now(g, d) <= f[b]
    ensures e == Promise(f, Targets(t), a)
    ensures Grown(g, d, GoTo(h, t, b), e) && Now(GoTo(h, t, b), e) == e[b]
    ensures Grown(g, d, Enter(h, t, b), e) && Now(Enter(h, t, b), e) == e[b]
  {
    e := Promise(f, Targets(t), a);
    JumpLive(h, f, t, a, b);
  }

  lemma FillDominates(g: Graph, d: Promises, region: Operand, x: Operand, n: Operand) returns (f: Promises)
    requires Live(g, d) && Used(region) <= Now(g, d) && Used(x) <= Now(g, d) && Used(n) <= Now(g, d)
    ensures Grown(g, d, LowerFill(g, region, x, n), f)
    ensures R(g.nregs) in Now(LowerFill(g, region, x, n), f)
  {
    hide Live, Now, InstrsOk;
    var c := |g.blocks|;
    var a := Now(g, d) + {R(g.nregs), S(g.nslots)};
    var g1 := FillStart(g, region, n);
    var f1 := FillStartDominates(g, d, region, n);
    var g2 := FillTest(g1, g.nslots, n, c);
    var f2 := FillTestDominates(g, d, g1, f1, n, a);
    f := FillBodyDominates(g, d, g2, f2, x, a);
  }

  /** Emitting leaves the blocks that wait alone. */
  lemma EmitWaits(h: Graph, i: Instr)
    requires Open(h)
    ensures Emit(h, i).cur == h.cur && |Emit(h, i).blocks| == |h.blocks|
    ensures Emit(h, i).nregs == h.nregs && Emit(h, i).nslots == h.nslots
    ensures forall b :: Waiting(h, b) ==> Waiting(Emit(h, i), b) && Waiting(Define(h, i), b)
  {
  }

  lemma GoToWaits(h: Graph, t: Term, b: nat)
    requires Open(h)
    ensures GoTo(h, t, b).cur == b && |GoTo(h, t, b).blocks| == |h.blocks|
    ensures GoTo(h, t, b).nregs == h.nregs && GoTo(h, t, b).nslots == h.nslots
    ensures forall x :: Waiting(h, x) && x != b ==> Waiting(GoTo(h, t, b), x)
  {
  }

  lemma FillStartDominates(g: Graph, d: Promises, region: Operand, n: Operand) returns (f: Promises)
    requires Live(g, d) && Used(region) <= Now(g, d) && Used(n) <= Now(g, d)
    ensures var c, h := |g.blocks|, FillStart(g, region, n);
            && Grown(g, d, h, f) && c in f && f[c] == Now(h, f) == Now(g, d) + {R(g.nregs), S(g.nslots)}
            && h.cur == c && |h.blocks| == c + 3
            && Waiting(h, c + 1) && Waiting(h, c + 2) && c + 1 !in f && c + 2 !in f
  {
    hide Live, Now, Grown, Emit, Terminate, Waiting, Create, Append, InsertAt, NewVar, Define;
    var c, i := |g.blocks|, AllocI(g.nregs, region, n);
    var h := NewVar(Create(Define(g, i), 3), Imm(0));
    LiveOpen(g, d);
    StartWaits(g, i);
    FillAllocates(g, d, i);
    GrownOpen(g, d, h, d);
    f := ThenGoTo(g, d, h, d, Br(c), Now(h, d), c);
    GoToWaits(h, Br(c), c);
    assert FillStart(g, region, n) == GoTo(h, Br(c), c);
    assert f[c] == Now(h, d);
  }

  lemma FillAllocates(g: Graph, d: Promises, i: Instr)
    requires Live(g, d) && Uses(i) <= Now(g, d) && Dst(i) == Some(g.nregs)
    ensures var h := NewVar(Create(Define(g, i), 3), Imm(0));
            Grown(g, d, h, d) && Now(h, d) == Now(g, d) + {R(g.nregs), S(g.nslots)}
  {
    hide Live, Now, Grown, Emit;
    var g1 := Define(g, i);
    var g2 := Create(g1, 3);
    LiveOpen(g, d);
    EmitWaits(g, i);
    Nothing(g, d);
    ThenDefine(g, d, g, d, i);
    GrownOpen(g, d, g1, d);
    CreateLive(g1, d, 3);
    GrownOpen(g1, d, g2, d);
    NewVarLive(g2, d, Imm(0));
    GrownTrans(g1, d, g2, d, NewVar(g2, Imm(0)), d);
    GrownTrans(g, d, g1, d, NewVar(g2, Imm(0)), d);
  }

  lemma LiveOpen(g: Graph, d: Promises)
    requires Live(g, d)
    ensures Open(g) && forall b :: b in d ==> b < |g.blocks|
  {
  }

  lemma StartWaits(g: Graph, i: Instr)
    requires Open(g)
    ensures var h, c := NewVar(Create(Define(g, i), 3), Imm(0)), |g.blocks|;
            && Open(h) && h.cur == g.cur && |h.blocks| == c + 3 && Create(Define(g, i), 3).nslots == g.nslots
            && Waiting(h, c) && Waiting(h, c + 1) && Waiting(h, c + 2)
  {
  }

  lemma FillTestDominates(g: Graph, d: Promises, h: Graph, f: Promises, n: Operand, a: set<Cell>) returns (e: Promises)
    requires var c := |g.blocks|;
             && Grown(g, d, h, f) && c in f && f[c] == Now(h, f) == a && S(g.nslots) in a && Used(n) <= a
             && Now(g, d) <= a && h.cur == c && |h.blocks| == c + 3
             && Waiting(h, c + 1) && Waiting(h, c + 2) && c + 1 !in f && c + 2 !in f
    ensures var c, k := |g.blocks|, FillTest(h, g.nslots, n, |g.blocks|);
            && Grown(g, d, k, e) && c in e && e[c] == a && a <= Now(k, e)
            && k.cur == c + 1 && |k.blocks| == c + 3 && Waiting(k, c + 2) && c + 2 in e && a <= e[c + 2]
  {
    hide Live, Now, Grown, Emit, Terminate, Waiting, Append, InsertAt;
    var c, s := |g.blocks|, g.nslots;
    var i := LoadVar(h.nregs, s);
    var h1 := Define(h, i);
    var j := BinI(h1.nregs, Lt, Reg(h.nregs), n);
    var h2 := Define(h1, j);
    var t := CondBr(Reg(h1.nregs), c + 1, c + 2);
    GrownOpen(g, d, h, f);
    EmitWaits(h, i);
    ThenDefine(g, d, h, f, i);
    GrownOpen(g, d, h1, f);
    EmitWaits(h1, j);
    ThenDefine(g, d, h1, f, j);
    GrownOpen(g, d, h2, f);
    GoToWaits(h2, t, c + 1);
    e := ThenGoTo(g, d, h2, f, t, Now(h2, f), c + 1);
    assert e[c + 1] == Now(h2, f);
  }

  lemma GrownOpen(g: Graph, d: Promises, h: Graph, f: Promises)
    requires Grown(g, d, h, f)
    ensures Open(h) && |g.blocks| <= |h.blocks| && Now(g, d) <= Now(h, f) && Live(h, f)
    ensures forall b :: b in d ==> b in f && f[b] == d[b]
  {
  }

  lemma FillBodyDominates(g: Graph, d: Promises, h: Graph, f: Promises, x: Operand, a: set<Cell>) returns (e: Promises)
    requires var c := |g.blocks|;
             && Grown(g, d, h, f) && c in f && f[c] == a <= Now(h, f) && S(g.nslots) in a && R(g.nregs) in a
             && Used(x) <= a && Now(g, d) <= a
             && h.cur == c + 1 && |h.blocks| == c + 3 && Waiting(h, c + 2) && c + 2 in f && a <= f[c + 2]
    ensures var k := GoTo(FillBody(h, g.nslots, Reg(g.nregs), x), Br(|g.blocks|), |g.blocks| + 2);
            Grown(g, d, k, e) && R(g.nregs) in Now(k, e)
  {
    hide Live, Now;
    var s, arr := g.nslots, Reg(g.nregs);
    ThenDefine(g, d, h, f, LoadVar(h.nregs, s));
    var h1 := Define(h, LoadVar(h.nregs, s));
    ThenEmit(g, d, h1, f, StoreI(arr, Reg(h.nregs), x));
    var h2 := Emit(h1, StoreI(arr, Reg(h.nregs), x));
    ThenDefine(g, d, h2, f, LoadVar(h2.nregs, s));
    var h3 := Define(h2, LoadVar(h2.nregs, s));
    ThenDefine(g, d, h3, f, BinI(h3.nregs, Add, Reg(h2.nregs), Imm(1)));
    var h4 := Define(h3, BinI(h3.nregs, Add, Reg(h2.nregs), Imm(1)));
    ThenEmit(g, d, h4, f, StoreVar(s, Reg(h3.nregs)));
    var h5 := Emit(h4, StoreVar(s, Reg(h3.nregs)));
    assert h5 == FillBody(h, s, arr, x);
    assert Waiting(h5, |g.blocks| + 2);
    e := ThenGoTo(g, d, h5, f, Br(|g.blocks|), Now(h5, f), |g.blocks| + 2);
  }

  // ---------- Statements ----------

  /** What a statement's code keeps, and what it makes usable. */
  ghost predicate Dominates(g: Graph, d: Promises, cx: LCx, ok: seq<bool>, s: Stmt, h: Graph, homes: seq<Home>, f: Promises) {
    && Grown(g, d, h, f) && |homes| == |Declared(s, cx.depth)|
    && Usable(CxAfter(cx, s, homes), ok + MarksOf(cx, ok, s), Now(h, f))
  }

  function MarksOf(cx: LCx, ok: seq<bool>, s: Stmt): (r: seq<bool>)
    ensures |r| == |Declared(s, cx.depth)|
  {
    Marks(cx.tags, ok, cx.depth, s)
  }

  function LastingOf(cx: LCx, ok: seq<bool>, s: Stmt): (r: seq<bool>)
    ensures |r| == |Declared(s, cx.depth)|
  {
    Lasting(cx.tags, ok, cx.depth, s)
  }

  ghost predicate Sound(g: Graph, d: Promises, cx: LCx, ok: seq<bool>, s: Stmt) {
    Live(g, d) && Usable(cx, ok, Now(g, d)) && StmtDefined(cx.tags, ok, cx.depth, s)
  }

  lemma {:induction false} StmtDominates(g: Graph, d: Promises, cx: LCx, ok: seq<bool>, s: Stmt) returns (f: Promises)
    requires Sound(g, d, cx, ok, s)
    ensures Dominates(g, d, cx, ok, s, LowerStmt(g, cx, s).0, LowerStmt(g, cx, s).1, f)
    decreases s, 3
  {
    hide Live, Now, Grown, Usable, StmtDefined, Marks;
    match s
    case Skip => Nothing(g, d); f := d; NoNames(g, d, cx, ok, s, g, d);
    case Seq(_, _) => f := SeqDominates(g, d, cx, ok, s);
    case Var(_, _) => f := VarDominates(g, d, cx, ok, s);
    case Let(_, _) => f := VarDominates(g, d, cx, ok, s);
    case Assign(_, _) => f := AssignDominates(g, d, cx, ok, s);
    case Do(e) => f := DoDominates(g, d, cx, ok, s);
    case If(_, _, els) =>
      if els.Skip? { f := IfDominates(g, d, cx, ok, s); } else { f := IfElseDominates(g, d, cx, ok, s); }
    case While(_, _) => f := WhileDominates(g, d, cx, ok, s);
    case For(_, _, _, _) => f := ForDominates(g, d, cx, ok, s);
    case On(_, _) => f := OnDominates(g, d, cx, ok, s);
  }

  lemma NoNames(g: Graph, d: Promises, cx: LCx, ok: seq<bool>, s: Stmt, h: Graph, f: Promises)
    requires Sound(g, d, cx, ok, s) && Grown(g, d, h, f) && Declared(s, cx.depth) == []
    ensures Dominates(g, d, cx, ok, s, h, [], f)
  {
    assert CxAfter(cx, s, []) == cx && ok + MarksOf(cx, ok, s) == ok;
    UsableGrown(cx, ok, Now(g, d), Now(h, f));
  }

  lemma DoDominates(g: Graph, d: Promises, cx: LCx, ok: seq<bool>, s: Stmt) returns (f: Promises)
    requires Sound(g, d, cx, ok, s) && s.Do?
    ensures Dominates(g, d, cx, ok, s, LowerExpr(g, cx, s.e).0, [], f)
  {
    hide Live, Now, Grown, Usable;
    f := ExprDominates(g, d, cx, ok, s.e);
    NoNames(g, d, cx, ok, s, LowerExpr(g, cx, s.e).0, f);
  }

  lemma VarDominates(g: Graph, d: Promises, cx: LCx, ok: seq<bool>, s: Stmt) returns (f: Promises)
    requires Sound(g, d, cx, ok, s) && (s.Var? || s.Let?)
    ensures Dominates(g, d, cx, ok, s, LowerStmt(g, cx, s).0, LowerStmt(g, cx, s).1, f)
  {
    hide Live, Now, Grown, Usable;
    f := ExprDominates(g, d, cx, ok, s.e);
    var g1, o := LowerExpr(g, cx, s.e).0, LowerExpr(g, cx, s.e).1;
    GrownOpen(g, d, g1, f);
    var h, home := if s.Var? then NewVar(g1, o) else g1, if s.Var? then InSlot(g1.nslots) else InReg(o);
    assert LowerStmt(g, cx, s) == (h, [home]);
    if s.Var? {
      NewVarLive(g1, f, o);
      GrownTrans(g, d, g1, f, h, f);
    }
    GrownOpen(g, d, h, f);
    UsableAdds(cx, ok, Now(g, d), Now(h, f), Declared(s, cx.depth), [home], MarksOf(cx, ok, s));
  }

  /** New names whose marked ones are written. */
  lemma UsableAdds(cx: LCx, ok: seq<bool>, a: set<Cell>, b: set<Cell>, ts: seq<Tag>, hs: seq<Home>, ms: seq<bool>)
    requires Usable(cx, ok, a) && a <= b && |ts| == |hs| == |ms|
    requires Kinds(ts, hs) && forall i :: 0 <= i < |ms| && ms[i] ==> HomeIn(hs[i], b)
    ensures Usable(cx.(tags := cx.tags + ts, homes := cx.homes + hs), ok + ms, b)
  {
    UsableGrown(cx, ok, a, b);
  }

  lemma {:induction false} SeqDominates(g: Graph, d: Promises, cx: LCx, ok: seq<bool>, s: Stmt) returns (f: Promises)
    requires Sound(g, d, cx, ok, s) && s.Seq?
    ensures Dominates(g, d, cx, ok, s, LowerSeq(g, cx, s).0, LowerSeq(g, cx, s).1, f)
    decreases s, 0
  {
    hide Sound, Dominates;
    FirstSound(g, d, cx, ok, s);
    var f1 := StmtDominates(g, d, cx, ok, s.s1);
    var g1, hs := LowerStmt(g, cx, s.s1).0, LowerStmt(g, cx, s.s1).1;
    SecondSound(g, d, cx, ok, s, g1, hs, f1);
    f := StmtDominates(g1, f1, CxAfter(cx, s.s1, hs), ok + MarksOf(cx, ok, s.s1), s.s2);
    var g2, ks := LowerStmt(g1, CxAfter(cx, s.s1, hs), s.s2).0, LowerStmt(g1, CxAfter(cx, s.s1, hs), s.s2).1;
    BothDominate(g, d, cx, ok, s, g1, hs, f1, g2, ks, f);
  }

  lemma FirstSound(g: Graph, d: Promises, cx: LCx, ok: seq<bool>, s: Stmt)
    requires Sound(g, d, cx, ok, s) && s.Seq?
    ensures Sound(g, d, cx, ok, s.s1)
  {
  }

  lemma SecondSound(g: Graph, d: Promises, cx: LCx, ok: seq<bool>, s: Stmt, g1: Graph, hs: seq<Home>, f1: Promises)
    requires Sound(g, d, cx, ok, s) && s.Seq? && Dominates(g, d, cx, ok, s.s1, g1, hs, f1)
    ensures Sound(g1, f1, CxAfter(cx, s.s1, hs), ok + MarksOf(cx, ok, s.s1), s.s2)
  {
  }

  lemma BothDominate(g: Graph, d: Promises, cx: LCx, ok: seq<bool>, s: Stmt, g1: Graph, hs: seq<Home>, f1: Promises,
      g2: Graph, ks: seq<Home>, f: Promises)
    requires s.Seq? && Dominates(g, d, cx, ok, s.s1, g1, hs, f1)
    requires Dominates(g1, f1, CxAfter(cx, s.s1, hs), ok + MarksOf(cx, ok, s.s1), s.s2, g2, ks, f)
    ensures Dominates(g, d, cx, ok, s, g2, hs + ks, f)
  {
    hide Live, Now, Usable, Grown;
    GrownTrans(g, d, g1, f1, g2, f);
    var cx1 := CxAfter(cx, s.s1, hs);
    assert CxAfter(cx1, s.s2, ks) == CxAfter(cx, s, hs + ks);
    assert ok + MarksOf(cx, ok, s.s1) + MarksOf(cx1, ok + MarksOf(cx, ok, s.s1), s.s2) == ok + MarksOf(cx, ok, s);
  }

  ghost predicate DestIn(t: Dest, a: set<Cell>) {
    match t
    case CellD(x, y) => Used(x) <= a && Used(y) <= a
    case FieldD(x, _) => Used(x) <= a
    case _ => true
  }

  lemma TargetDominates(g: Graph, d: Promises, cx: LCx, ok: seq<bool>, t: Expr) returns (f: Promises)
    requires Live(g, d) && Usable(cx, ok, Now(g, d)) && (HasPlace(cx.tags, t) ==> ExprDefined(cx.tags, ok, t))
    ensures Grown(g, d, LowerTarget(g, cx, t).0, f) && DestIn(LowerTarget(g, cx, t).1, Now(LowerTarget(g, cx, t).0, f))
    ensures !HasPlace(cx.tags, t) ==> LowerTarget(g, cx, t).1 == NoD
  {
    hide Live, Now, Grown, Usable, LowerExpr;
    PlaceKinds(g, cx, ok, t, Now(g, d));
    hide Live, Now, Grown, Usable;
    Nothing(g, d);
    f := d;
    match t
    case Get(x) =>
      if LowerTarget(g, cx, t).1.SlotD? { f := GetDominates(g, d, cx, ok, x); }
    case Elem(a, b) =>
      var g2, x, y, e2 := TwoDominate(g, d, cx, ok, t, a, b);
      f := e2;
      ThenDefine(g, d, g2, f, LoadI(g2.nregs, x, y));
    case Field(a, n) =>
      f := ExprDominates(g, d, cx, ok, a);
      ThenDefine(g, d, LowerExpr(g, cx, a).0, f, LoadF(LowerExpr(g, cx, a).0.nregs, LowerExpr(g, cx, a).1, n));
    case _ =>
  }

  lemma PlaceKinds(g: Graph, cx: LCx, ok: seq<bool>, t: Expr, a: set<Cell>)
    requires Usable(cx, ok, a)
    ensures LowerTarget(g, cx, t).1 == NoD <==> !HasPlace(cx.tags, t)
    ensures t.Get? && HasPlace(cx.tags, t) ==> LowerTarget(g, cx, t).0 == LowerExpr(g, cx, t).0
    ensures t.Get? && !HasPlace(cx.tags, t) ==> LowerTarget(g, cx, t).0 == g
  {
  }

  lemma AssignDominates(g: Graph, d: Promises, cx: LCx, ok: seq<bool>, s: Stmt) returns (f: Promises)
    requires Sound(g, d, cx, ok, s) && s.Assign?
    ensures Dominates(g, d, cx, ok, s, LowerAssign(g, cx, s.target, s.e), [], f)
  {
    hide Live, Now, Usable, Grown, LowerExpr, LowerTarget;
    var f1 := TargetDominates(g, d, cx, ok, s.target);
    var g1, t := LowerTarget(g, cx, s.target).0, LowerTarget(g, cx, s.target).1;
    GrownOpen(g, d, g1, f1);
    UsableGrown(cx, ok, Now(g, d), Now(g1, f1));
    f := ExprDominates(g1, f1, cx, ok, s.e);
    var g2, o := LowerExpr(g1, cx, s.e).0, LowerExpr(g1, cx, s.e).1;
    GrownTrans(g, d, g1, f1, g2, f);
    GrownOpen(g1, f1, g2, f);
    match t {
      case NoD =>
      case SlotD(x) => ThenEmit(g, d, g2, f, StoreVar(x, o));
      case CellD(a, i) => ThenEmit(g, d, g2, f, StoreI(a, i, o));
      case FieldD(a, n) => ThenEmit(g, d, g2, f, StoreF(a, n, o));
    }
    NoNames(g, d, cx, ok, s, EmitStore(g2, t, o), f);
  }

  lemma {:induction false} OnDominates(g: Graph, d: Promises, cx: LCx, ok: seq<bool>, s: Stmt) returns (f: Promises)
    requires Sound(g, d, cx, ok, s) && s.On?
    ensures Dominates(g, d, cx, ok, s, LowerOn(g, cx, s), [], f)
    decreases s, 0
  {
    hide Sound, Dominates, Grown, Live, Now;
    var g0, r, cx1 := Define(g, OpenI(g.nregs)), Reg(g.nregs), CxOn(cx, s.region, g.nregs);
    OnSound(g, d, cx, ok, s);
    f := StmtDominates(g0, d, cx1, ok, s.body);
    var g1 := LowerStmt(g0, cx1, s.body).0;
    assert Grown(g0, d, g1, f) by { DominatesGrown(g0, d, cx1, ok, s.body, g1, LowerStmt(g0, cx1, s.body).1, f); }
    GrownTrans(g, d, g0, d, g1, f);
    GrownOpen(g0, d, g1, f);
    ThenEmit(g, d, g1, f, CloseI(r));
    NoNames(g, d, cx, ok, s, LowerOn(g, cx, s), f);
  }

  lemma DominatesGrown(g: Graph, d: Promises, cx: LCx, ok: seq<bool>, s: Stmt, h: Graph, hs: seq<Home>, f: Promises)
    requires Dominates(g, d, cx, ok, s, h, hs, f)
    ensures Grown(g, d, h, f) && |hs| == |Declared(s, cx.depth)|
  {
  }

  lemma OnSound(g: Graph, d: Promises, cx: LCx, ok: seq<bool>, s: Stmt)
    requires Sound(g, d, cx, ok, s) && s.On?
    ensures var h := Define(g, OpenI(g.nregs));
            Grown(g, d, h, d) && R(g.nregs) in Now(h, d) && Sound(h, d, CxOn(cx, s.region, g.nregs), ok, s.body)
  {
    hide Live, Now;
    Nothing(g, d);
    ThenDefine(g, d, g, d, OpenI(g.nregs));
    GrownOpen(g, d, Define(g, OpenI(g.nregs)), d);
    UsableGrown(cx, ok, Now(g, d), Now(Define(g, OpenI(g.nregs)), d));
  }

  // ---------- if ----------

  lemma CreateAppend(g: Graph, d: Promises, k: nat)
    requires Live(g, d)
    ensures var h := Append(Create(g, k), |g.blocks|);
            && Grown(g, d, h, d) && Now(h, d) == Now(g, d) && |h.blocks| == |g.blocks| + k
            && forall b: nat :: |g.blocks| <= b < |g.blocks| + k ==> Waiting(h, b) && b !in d
  {
    CreateLive(g, d, k);
    var h := Append(Create(g, k), |g.blocks|);
    assert Checked(h, d) && Single(h);
  }

  /** Both arms are promised what is written after the condition. */
  lemma IfHeadDominates(g: Graph, d: Promises, cx: LCx, ok: seq<bool>, c: Expr, k: nat) returns (f: Promises)
    requires 2 <= k && Live(g, d) && Usable(cx, ok, Now(g, d)) && ValueDefined(cx.tags, ok, c)
    ensures var h, n := IfHead(g, cx, c, k), |g.blocks|;
            && Grown(g, d, h, f) && |g.blocks| + k <= |h.blocks| && h.cur == n
            && (forall b: nat :: n < b < n + k ==> Waiting(h, b) && (b in f <==> b == n + k - 1))
            && n + k - 1 in f && f[n + k - 1] == Now(h, f)
  {
    hide Live, Now, Usable, Grown, Create, Append, Waiting, Nested, Open, LowerExpr;
    var n, g0 := |g.blocks|, Append(Create(g, k), |g.blocks|);
    CreateAppend(g, d, k);
    GrownOpen(g, d, g0, d);
    var f1 := ExprDominates(g0, d, cx, ok, c);
    ExprNested(g0, cx, c);
    var g1, o := LowerExpr(g0, cx, c).0, LowerExpr(g0, cx, c).1;
    GrownOpen(g0, d, g1, f1);
    forall b: nat | n <= b < n + k ensures Waiting(g1, b) && b !in f1 {
      StillWaiting(g0, g1, b);
      StillNew(g0, d, g1, f1, b);
    }
    GrownTrans(g, d, g0, d, g1, f1);
    f := ThenGoTo(g, d, g1, f1, CondBr(o, n, n + k - 1), Now(g1, f1), n);
    EnterWaits(g1, CondBr(o, n, n + k - 1), n);
    assert |Enter(g1, CondBr(o, n, n + k - 1), n).blocks| == |g1.blocks|;
  }

  lemma EnterWaits(h: Graph, t: Term, b: nat)
    ensures forall x :: Waiting(h, x) && x != b ==> Waiting(Enter(h, t, b), x)
  {
  }

  /** A block created before, and not promised anything, is not promised anything by code that
      creates its own blocks. */
  lemma StillNew(g: Graph, d: Promises, h: Graph, f: Promises, b: nat)
    requires Grown(g, d, h, f) && b < |g.blocks| && b !in d
    ensures b !in f
  {
  }

  lemma UsableTwo(cx: LCx, ok: seq<bool>, s: Stmt, x: Stmt, hs: seq<Home>, ms: seq<bool>, y: Stmt, ks: seq<Home>, ns: seq<bool>, a: set<Cell>)
    requires Usable(CxAfter(CxAfter(cx, x, hs), y, ks), ok + ms + ns, a)
    requires Declared(s, cx.depth) == Declared(x, cx.depth) + Declared(y, cx.depth)
    ensures Usable(CxAfter(cx, s, hs + ks), ok + (ms + ns), a)
  {
    hide Usable, Declared;
    var ts, us := Declared(x, cx.depth), Declared(y, cx.depth);
    assert cx.tags + ts + us == cx.tags + (ts + us);
    assert cx.homes + hs + ks == cx.homes + (hs + ks);
    assert ok + ms + ns == ok + (ms + ns);
  }

  /** Lasting names are written before the statement that declares them. */
  lemma {:induction false} LastingUsable(g: Graph, cx: LCx, ok: seq<bool>, s: Stmt, a: set<Cell>)
    requires Usable(cx, ok, a)
    ensures Usable(CxAfter(cx, s, LowerStmt(g, cx, s).1), ok + LastingOf(cx, ok, s), a)
    decreases s
  {
    hide Usable, LowerStmt;
    if s.Seq? {
      SeqHomes(g, cx, s);
      var g1, hs := LowerStmt(g, cx, s.s1).0, LowerStmt(g, cx, s.s1).1;
      LastingUsable(g, cx, ok, s.s1, a);
      LastingTwo(g, g1, cx, ok, s, s.s1, hs, s.s2, a);
    } else if s.If? {
      IfHomes(g, cx, s);
      var h := IfHead(g, cx, s.c, if s.els.Skip? then 2 else 3);
      var g1, hs := LowerStmt(h, cx, s.thn).0, LowerStmt(h, cx, s.thn).1;
      LastingUsable(h, cx, ok, s.thn, a);
      LastingTwo(h, GoTo(g1, Br(|g.blocks| + 1), |g.blocks| + 2), cx, ok, s, s.thn, hs, s.els, a);
    } else {
      LastingOne(g, cx, ok, s, a);
    }
  }

  lemma SeqHomes(g: Graph, cx: LCx, s: Stmt)
    requires s.Seq?
    ensures var g1, hs := LowerStmt(g, cx, s.s1).0, LowerStmt(g, cx, s.s1).1;
            LowerStmt(g, cx, s).1 == hs + LowerStmt(g1, CxAfter(cx, s.s1, hs), s.s2).1
  {
  }

  /** An `if` declares the names of its arms, else or no else. */
  lemma IfHomes(g: Graph, cx: LCx, s: Stmt)
    requires s.If?
    ensures var h := IfHead(g, cx, s.c, if s.els.Skip? then 2 else 3);
            var g1, hs := LowerStmt(h, cx, s.thn).0, LowerStmt(h, cx, s.thn).1;
            LowerStmt(g, cx, s).1
            == hs + LowerStmt(GoTo(g1, Br(|g.blocks| + 1), |g.blocks| + 2), CxAfter(cx, s.thn, hs), s.els).1
  {
    hide IfHead, GoTo, Declared;
    var done, h := |g.blocks| + 1, IfHead(g, cx, s.c, if s.els.Skip? then 2 else 3);
    var g1, hs := LowerStmt(h, cx, s.thn).0, LowerStmt(h, cx, s.thn).1;
    if s.els.Skip? {
      assert hs + [] == hs;
    } else {
      assert LowerStmt(g, cx, s) == LowerIfElse(g, cx, s);
      assert LowerIfElse(g, cx, s).1 == hs + LowerElse(g1, CxAfter(cx, s.thn, hs), s, done).1;
    }
  }

  lemma LastingTwo(g: Graph, g1: Graph, cx: LCx, ok: seq<bool>, s: Stmt, x: Stmt, hs: seq<Home>, y: Stmt, a: set<Cell>)
    requires (s.Seq? && x == s.s1 && y == s.s2) || (s.If? && x == s.thn && y == s.els)
    requires |hs| == |Declared(x, cx.depth)| && Usable(CxAfter(cx, x, hs), ok + LastingOf(cx, ok, x), a)
    ensures Usable(CxAfter(cx, s, hs + LowerStmt(g1, CxAfter(cx, x, hs), y).1), ok + LastingOf(cx, ok, s), a)
    decreases s, 0
  {
    hide Usable, LowerStmt;
    var cx1, ms := CxAfter(cx, x, hs), LastingOf(cx, ok, x);
    LastingUsable(g1, cx1, ok + ms, y, a);
    UsableTwo(cx, ok, s, x, hs, ms, y, LowerStmt(g1, cx1, y).1, LastingOf(cx1, ok + ms, y), a);
  }

  lemma LastingOne(g: Graph, cx: LCx, ok: seq<bool>, s: Stmt, a: set<Cell>)
    requires Usable(cx, ok, a) && !s.Seq? && !s.If?
    ensures Usable(CxAfter(cx, s, LowerStmt(g, cx, s).1), ok + LastingOf(cx, ok, s), a)
  {
    hide Usable;
    var ts, hs, ms := Declared(s, cx.depth), LowerStmt(g, cx, s).1, LastingOf(cx, ok, s);
    if s.For? { ForCode(g, cx, s); }
    assert Kinds(ts, hs);
    if s.Let? && OperandLasts(cx.tags, ok, s.e) { OperandLastsIn(g, cx, ok, s.e, a); }
    UsableAdds(cx, ok, a, a, ts, hs, ms);
  }

  lemma OperandLastsIn(g: Graph, cx: LCx, ok: seq<bool>, e: Expr, a: set<Cell>)
    requires Usable(cx, ok, a) && OperandLasts(cx.tags, ok, e)
    ensures Used(LowerExpr(g, cx, e).1) <= a
  {
    if e.Get? && Find(cx.tags, e.x).Some? {
      var i := Find(cx.tags, e.x).value;
      assert HomeIn(cx.homes[i], a);
    }
  }

  lemma {:induction false} IfDominates(g: Graph, d: Promises, cx: LCx, ok: seq<bool>, s: Stmt) returns (f: Promises)
    requires Sound(g, d, cx, ok, s) && s.If? && s.els.Skip?
    ensures Dominates(g, d, cx, ok, s, LowerIf(g, cx, s).0, LowerIf(g, cx, s).1, f)
    decreases s, 1
  {
    hide Live, Now, Usable;
    var done, h := |g.blocks| + 1, IfHead(g, cx, s.c, 2);
    var f1 := IfHeadDominates(g, d, cx, ok, s.c, 2);
    GrownOpen(g, d, h, f1);
    UsableGrown(cx, ok, Now(g, d), Now(h, f1));
    var f2 := StmtDominates(h, f1, cx, ok, s.thn);
    StmtNested(h, cx, s.thn);
    var g1, hs := LowerStmt(h, cx, s.thn).0, LowerStmt(h, cx, s.thn).1;
    StillWaiting(h, g1, done);
    GrownTrans(g, d, h, f1, g1, f2);
    GrownOpen(h, f1, g1, f2);
    f := ThenGoTo(g, d, g1, f2, Br(done), Now(g1, f2), done);
    LastingUsable(g, cx, ok, s, Now(h, f1));
  }

  lemma {:induction false} IfElseDominates(g: Graph, d: Promises, cx: LCx, ok: seq<bool>, s: Stmt) returns (f: Promises)
    requires Sound(g, d, cx, ok, s) && s.If? && !s.els.Skip?
    ensures Dominates(g, d, cx, ok, s, LowerIfElse(g, cx, s).0, LowerIfElse(g, cx, s).1, f)
    decreases s, 2
  {
    hide Live, Now, Usable;
    var done, h := |g.blocks| + 1, IfHead(g, cx, s.c, 3);
    var f1 := IfHeadDominates(g, d, cx, ok, s.c, 3);
    GrownOpen(g, d, h, f1);
    var a := Now(h, f1);
    UsableGrown(cx, ok, Now(g, d), a);
    var f2 := StmtDominates(h, f1, cx, ok, s.thn);
    StmtNested(h, cx, s.thn);
    var g1, hs := LowerStmt(h, cx, s.thn).0, LowerStmt(h, cx, s.thn).1;
    StillWaiting(h, g1, done);
    StillWaiting(h, g1, done + 1);
    GrownTrans(g, d, h, f1, g1, f2);
    GrownOpen(h, f1, g1, f2);
    LastingUsable(h, cx, ok, s.thn, a);
    f := ElseDominates(g, d, g1, f2, cx, ok, s, hs, a);
    LastingUsable(g, cx, ok, s, a);
  }

  lemma {:induction false} ElseDominates(g: Graph, d: Promises, h: Graph, e: Promises, cx: LCx, ok: seq<bool>, s: Stmt,
      hs: seq<Home>, a: set<Cell>) returns (f: Promises)
    requires s.If? && Usable(CxAfter(cx, s.thn, hs), ok + LastingOf(cx, ok, s.thn), a)
    requires StmtDefined(cx.tags + Declared(s.thn, cx.depth), ok + LastingOf(cx, ok, s.thn), cx.depth, s.els)
    requires Grown(g, d, h, e) && Now(g, d) <= a <= Now(h, e)
    requires var done := |g.blocks| + 1;
             Waiting(h, done) && Waiting(h, done + 1) && done !in e && done + 1 in e && e[done + 1] == a
    ensures var k := LowerElse(h, CxAfter(cx, s.thn, hs), s, |g.blocks| + 1).0;
            Grown(g, d, k, f) && Now(k, f) == a
    decreases s, 1
  {
    hide Live, Now, Usable;
    var done, cx1, ok1 := |g.blocks| + 1, CxAfter(cx, s.thn, hs), ok + LastingOf(cx, ok, s.thn);
    GrownOpen(g, d, h, e);
    var g1 := GoTo(h, Br(done), done + 1);
    GoToWaits(h, Br(done), done + 1);
    var f1 := ThenGoTo(g, d, h, e, Br(done), a, done + 1);
    GrownOpen(g, d, g1, f1);
    var f2 := StmtDominates(g1, f1, cx1, ok1, s.els);
    StmtNested(g1, cx1, s.els);
    var g2 := LowerStmt(g1, cx1, s.els).0;
    StillWaiting(g1, g2, done);
    GrownTrans(g, d, g1, f1, g2, f2);
    GrownOpen(g1, f1, g2, f2);
    f := ThenGoTo(g, d, g2, f2, Br(done), Now(g2, f2), done);
  }

  // ---------- Loops ----------

  lemma LoopStartDominates(g: Graph, d: Promises) returns (f: Promises)
    requires Live(g, d)
    ensures var h, c := LoopStart(g), |g.blocks|;
            && Grown(g, d, h, f) && h.cur == c && |h.blocks| == c + 3 && Open(h)
            && c in f && f[c] == Now(h, f) == Now(g, d)
            && Waiting(h, c + 1) && Waiting(h, c + 2) && c + 1 !in f && c + 2 !in f
  {
    var c, h := |g.blocks|, Create(g, 3);
    CreateLive(g, d, 3);
    LiveOpen(g, d);
    assert Waiting(h, c) && Waiting(h, c + 1) && Waiting(h, c + 2);
    hide Live, Now;
    GrownOpen(g, d, h, d);
    f := ThenGoTo(g, d, h, d, Br(c), Now(h, d), c);
    GoToWaits(h, Br(c), c);
    GrownOpen(g, d, LoopStart(g), f);
  }

  /** The loop's state where its body starts: the back edge is promised `a`, and the way out at
      least what is written before the loop. */
  ghost predicate InLoop(g: Graph, d: Promises, h: Graph, e: Promises, a: set<Cell>) {
    var c := |g.blocks|;
    && Grown(g, d, h, e) && c + 3 <= |h.blocks| && c in e && e[c] == a && Now(g, d) <= a <= Now(h, e)
    && Waiting(h, c + 2) && c + 2 in e && Now(g, d) <= e[c + 2]
  }

  /** The state before the loop's branch. */
  ghost predicate BeforeLoop(g: Graph, d: Promises, h: Graph, e: Promises, a: set<Cell>) {
    var c := |g.blocks|;
    && Grown(g, d, h, e) && c + 3 <= |h.blocks| && c in e && e[c] == a && Now(g, d) <= a <= Now(h, e)
    && Waiting(h, c + 1) && Waiting(h, c + 2) && c + 1 !in e && c + 2 !in e
  }

  lemma LoopBranch(g: Graph, d: Promises, h: Graph, e: Promises, o: Operand, a: set<Cell>) returns (f: Promises)
    requires BeforeLoop(g, d, h, e, a) && Used(o) <= Now(h, e)
    ensures var k := GoTo(h, CondBr(o, |g.blocks| + 1, |g.blocks| + 2), |g.blocks| + 1);
            InLoop(g, d, k, f, a) && Now(k, f) == Now(h, e)
  {
    hide Live, Now;
    var c, t := |g.blocks|, CondBr(o, |g.blocks| + 1, |g.blocks| + 2);
    GrownOpen(g, d, h, e);
    f := ThenGoTo(g, d, h, e, t, Now(h, e), c + 1);
    GoToWaits(h, t, c + 1);
  }

  /** Code in the condition block keeps that state. */
  lemma BeforeGrows(g: Graph, d: Promises, h: Graph, e: Promises, a: set<Cell>, k: Graph, f: Promises)
    requires BeforeLoop(g, d, h, e, a) && Grown(h, e, k, f) && Waiting(k, |g.blocks| + 1) && Waiting(k, |g.blocks| + 2)
    ensures BeforeLoop(g, d, k, f, a)
  {
    hide Live, Now;
    GrownTrans(g, d, h, e, k, f);
  }

  /** The body, the jump back, and the block after the loop. */
  lemma {:induction false} LoopBody(g: Graph, d: Promises, h: Graph, e: Promises, a: set<Cell>, cx: LCx, ok: seq<bool>, body: Stmt)
    returns (f: Promises)
    requires InLoop(g, d, h, e, a) && Sound(h, e, cx, ok, body)
    ensures var k := GoTo(LowerStmt(h, cx, body).0, Br(|g.blocks|), |g.blocks| + 2);
            Grown(g, d, k, f)
    decreases body, 4
  {
    hide Live, Now, Usable, Sound, Dominates;
    var c := |g.blocks|;
    var f1 := StmtDominates(h, e, cx, ok, body);
    GrownOpen(g, d, h, e);
    StmtNested(h, cx, body);
    var k := LowerStmt(h, cx, body).0;
    DominatesGrown(h, e, cx, ok, body, k, LowerStmt(h, cx, body).1, f1);
    StillWaiting(h, k, c + 2);
    GrownTrans(g, d, h, e, k, f1);
    GrownOpen(h, e, k, f1);
    f := ThenGoTo(g, d, k, f1, Br(c), Now(k, f1), c + 2);
  }

  lemma {:induction false} WhileDominates(g: Graph, d: Promises, cx: LCx, ok: seq<bool>, s: Stmt) returns (f: Promises)
    requires Sound(g, d, cx, ok, s) && s.While?
    ensures Dominates(g, d, cx, ok, s, LowerWhile(g, cx, s), [], f)
    decreases s, 1
  {
    hide Live, Now, Grown, Usable, Sound, Dominates, InLoop, LowerStmt, GoTo, LoopStart, WhileHead;
    WhileCode(g, cx, s);
    var f2 := WhileHeadDominates(g, d, cx, ok, s);
    f := LoopBody(g, d, WhileHead(LoopStart(g), cx, s.c, |g.blocks|), f2, Now(g, d), InnerCx(cx), ok, s.body);
    NoNames(g, d, cx, ok, s, LowerWhile(g, cx, s), f);
  }

  lemma WhileCode(g: Graph, cx: LCx, s: Stmt)
    requires s.While?
    ensures var c := |g.blocks|;
            LowerWhile(g, cx, s) == GoTo(LowerStmt(WhileHead(LoopStart(g), cx, s.c, c), InnerCx(cx), s.body).0, Br(c), c + 2)
  {
  }

  lemma ForCode(g: Graph, cx: LCx, s: Stmt)
    requires s.For?
    ensures var h, it, c := ForStart(g, cx, s.lo, s.hi).0, ForStart(g, cx, s.lo, s.hi).1, |g.blocks|;
            && LowerFor(g, cx, s).0
               == GoTo(LowerStmt(ForHead(h, it, c), CxFor(cx, s, h.nregs + 1), s.body).0, Br(c), c + 2)
            && LowerFor(g, cx, s).1 == [InReg(Reg(h.nregs + 1))]
  {
  }

  lemma WhileHeadDominates(g: Graph, d: Promises, cx: LCx, ok: seq<bool>, s: Stmt) returns (f: Promises)
    requires Sound(g, d, cx, ok, s) && s.While?
    ensures var head := WhileHead(LoopStart(g), cx, s.c, |g.blocks|);
            InLoop(g, d, head, f, Now(g, d)) && Sound(head, f, InnerCx(cx), ok, s.body)
  {
    hide Live, Now, Grown, Waiting, InLoop;
    var c, h := |g.blocks|, LoopStart(g);
    var f0 := LoopStartDominates(g, d);
    GrownOpen(g, d, h, f0);
    var f1 := ExprDominates(h, f0, cx, ok, s.c);
    ExprNested(h, cx, s.c);
    var g1, o := LowerExpr(h, cx, s.c).0, LowerExpr(h, cx, s.c).1;
    GrownOpen(h, f0, g1, f1);
    StillWaiting(h, g1, c + 1);
    StillWaiting(h, g1, c + 2);
    BeforeGrows(g, d, h, f0, Now(g, d), g1, f1);
    f := LoopBranch(g, d, g1, f1, o, Now(g, d));
    var head := WhileHead(h, cx, s.c, c);
    LoopOpen(g, d, head, f, Now(g, d));
    UsableGrown(cx, ok, Now(g, d), Now(head, f));
  }

  lemma BeforeOpen(g: Graph, d: Promises, h: Graph, e: Promises, a: set<Cell>)
    requires BeforeLoop(g, d, h, e, a)
    ensures Open(h)
  {
  }

  lemma LoopOpen(g: Graph, d: Promises, h: Graph, e: Promises, a: set<Cell>)
    requires InLoop(g, d, h, e, a)
    ensures Live(h, e) && Now(g, d) <= a <= Now(h, e) && Open(h)
  {
  }

  lemma ForStartDominates(g: Graph, d: Promises, cx: LCx, ok: seq<bool>, lo: Expr, hi: Expr) returns (f: Promises)
    requires Live(g, d) && Usable(cx, ok, Now(g, d)) && ValueDefined(cx.tags, ok, lo) && ValueDefined(cx.tags, ok, hi)
    ensures var h, it, c := ForStart(g, cx, lo, hi).0, ForStart(g, cx, lo, hi).1, |g.blocks|;
            BeforeLoop(g, d, h, f, Now(h, f)) && Open(h) && R(it) in Now(h, f)
  {
    hide Live, Now, Grown, Waiting, Usable, Create, Nested, Open, InstrsOk, Walk, Emit, Terminate, LowerExpr;
    var c, g0 := |g.blocks|, Create(g, 3);
    CreateWaits(g, d);
    GrownOpen(g, d, g0, d);
    var g2, x, y, f2 := TwoDominate(g0, d, cx, ok, Bin(Add, lo, hi), lo, hi);
    TwoNested(g0, cx, Bin(Add, lo, hi), lo, hi);
    GrownOpen(g0, d, g2, f2);
    var i := IterI(g2.nregs, x, y);
    ThenDefine(g0, d, g2, f2, i);
    EmitWaits(g2, i);
    var g3 := Define(g2, i);
    forall b: nat | c <= b < c + 3 ensures Waiting(g3, b) && b !in f2 {
      StillWaiting(g0, g2, b);
      StillNew(g0, d, g2, f2, b);
    }
    GrownTrans(g, d, g0, d, g3, f2);
    GrownOpen(g, d, g3, f2);
    assert c + 3 <= |g3.blocks| by { GrownOpen(g0, d, g3, f2); }
    f := ThenGoTo(g, d, g3, f2, Br(c), Now(g3, f2), c);
    GoToWaits(g3, Br(c), c);
    GrownOpen(g, d, GoTo(g3, Br(c), c), f);
  }

  lemma CreateWaits(g: Graph, d: Promises)
    requires Live(g, d)
    ensures var h, c := Create(g, 3), |g.blocks|;
            && Grown(g, d, h, d) && Now(h, d) == Now(g, d) && |h.blocks| == c + 3
            && forall b: nat :: c <= b < c + 3 ==> Waiting(h, b) && b !in d
  {
    CreateLive(g, d, 3);
  }

  lemma {:induction false} ForDominates(g: Graph, d: Promises, cx: LCx, ok: seq<bool>, s: Stmt) returns (f: Promises)
    requires Sound(g, d, cx, ok, s) && s.For?
    ensures Dominates(g, d, cx, ok, s, LowerFor(g, cx, s).0, LowerFor(g, cx, s).1, f)
    decreases s, 1
  {
    hide Live, Now, Grown, Usable, BeforeLoop, InLoop, LowerStmt, GoTo, ForStart, ForHead, CxFor;
    ForCode(g, cx, s);
    var f0 := ForStartDominates(g, d, cx, ok, s.lo, s.hi);
    var h, it := ForStart(g, cx, s.lo, s.hi).0, ForStart(g, cx, s.lo, s.hi).1;
    var head, f1 := ForHeadDominates(g, d, h, f0, cx, ok, s, it);
    f := LoopBody(g, d, head, f1, Now(h, f0), CxFor(cx, s, h.nregs + 1), ok + [true], s.body);
    var k, homes := LowerFor(g, cx, s).0, LowerFor(g, cx, s).1;
    GrownOpen(g, d, k, f);
    UsableAdds(cx, ok, Now(g, d), Now(k, f), Declared(s, cx.depth), homes, [false]);
  }

  lemma ForHeadDominates(g: Graph, d: Promises, h: Graph, e: Promises, cx: LCx, ok: seq<bool>, s: Stmt, it: nat)
    returns (head: Graph, f: Promises)
    requires s.For? && Sound(g, d, cx, ok, s)
    requires BeforeLoop(g, d, h, e, Now(h, e)) && Open(h) && R(it) in Now(h, e)
    ensures head == ForHead(h, it, |g.blocks|)
    ensures InLoop(g, d, head, f, Now(h, e)) && Sound(head, f, CxFor(cx, s, h.nregs + 1), ok + [true], s.body)
  {
    hide Live, Now, Usable, Waiting, Grown, BeforeLoop, InLoop, GoTo, Emit, StmtDefined;
    var c, i := |g.blocks|, HasNextI(h.nregs, Reg(it));
    var h1 := Define(h, i);
    ForTestDominates(g, d, h, e, i, it);
    EmitWaits(h, i);
    BeforeOpen(g, d, h1, e, Now(h, e));
    var t := CondBr(Reg(h.nregs), c + 1, c + 2);
    GoToWaits(h1, t, c + 1);
    f := LoopBranch(g, d, h1, e, Reg(h.nregs), Now(h, e));
    var h2 := GoTo(h1, t, c + 1);
    ForNextDominates(g, d, h2, f, Now(h, e), it);
    head := Define(h2, NextI(h2.nregs, Reg(it)));
    LoopOpen(g, d, head, f, Now(h, e));
    ForScope(g, d, cx, ok, s, Now(head, f), h.nregs + 1);
  }

  lemma ForTestDominates(g: Graph, d: Promises, h: Graph, e: Promises, i: Instr, it: nat)
    requires BeforeLoop(g, d, h, e, Now(h, e)) && Open(h) && R(it) in Now(h, e) && i == HasNextI(h.nregs, Reg(it))
    ensures var k := Define(h, i);
            BeforeLoop(g, d, k, e, Now(h, e)) && R(h.nregs) in Now(k, e) && Now(h, e) <= Now(k, e)
  {
    hide Live, Now, Waiting, Grown;
    var c := |g.blocks|;
    GrownOpen(g, d, h, e);
    Nothing(h, e);
    ThenDefine(h, e, h, e, i);
    EmitWaits(h, i);
    BeforeGrows(g, d, h, e, Now(h, e), Define(h, i), e);
  }

  lemma ForNextDominates(g: Graph, d: Promises, h: Graph, e: Promises, a: set<Cell>, it: nat)
    requires InLoop(g, d, h, e, a) && R(it) in a
    ensures var i := NextI(h.nregs, Reg(it));
            InLoop(g, d, Define(h, i), e, a) && R(h.nregs) in Now(Define(h, i), e)
  {
    var i := NextI(h.nregs, Reg(it));
    EmitWaits(h, i);
    hide Live, Now;
    ThenDefine(g, d, h, e, i);
  }

  lemma ForScope(g: Graph, d: Promises, cx: LCx, ok: seq<bool>, s: Stmt, b: set<Cell>, r: nat)
    requires s.For? && Sound(g, d, cx, ok, s) && Now(g, d) <= b && R(r) in b
    ensures Usable(CxFor(cx, s, r), ok + [true], b)
    ensures StmtDefined(CxFor(cx, s, r).tags, ok + [true], CxFor(cx, s, r).depth, s.body)
  {
    hide Live, Now;
    UsableAdds(cx, ok, Now(g, d), b, Declared(s, cx.depth), [InReg(Reg(r))], [true]);
  }

  // ---------- Main results ----------

  /** Where a path is, its block has a promise and the items before its place there are written. */
  lemma {:induction false} PathWritten(h: Graph, f: Promises, ps: seq<(nat, nat)>, start: nat, at: nat, a: set<Cell>)
    requires Checked(h, f) && Path(h, ps) && ps[0] == (start, at) && start in f && at <= |h.blocks[start].instrs|
    requires Walk(h.blocks[start].instrs[..at], f[start]) <= a
    ensures var p := ps[|ps| - 1];
            && p.0 in f && p.1 <= |h.blocks[p.0].instrs|
            && Walk(h.blocks[p.0].instrs[..p.1], f[p.0]) <= Written(h, ps, a)
    decreases |ps|
  {
    if |ps| > 1 {
      var qs := ps[..|ps| - 1];
      assert Path(h, qs) && qs[0] == ps[0];
      PathWritten(h, f, qs, start, at, a);
      var q, p := ps[|ps| - 2], ps[|ps| - 1];
      assert qs[|qs| - 1] == q && Flows(h, q, p);
      assert BlockOk(h.blocks[q.0], f[q.0], f);
      var code := h.blocks[q.0].instrs;
      if q.1 < |code| {
        assert code[..q.1 + 1][..q.1] == code[..q.1];
      } else {
        assert code[..q.1] == code;
        assert p.0 in f && f[p.0] <= Walk(code, f[q.0]);
        assert h.blocks[p.0].instrs[..0] == [];
      }
    }
  }

  /** On every path through a statement's code, what an instruction or branch reads has been
      written on the way, or was written before. */
  lemma DefinedBeforeUse(g: Graph, d: Promises, cx: LCx, ok: seq<bool>, s: Stmt, ps: seq<(nat, nat)>)
    requires Sound(g, d, cx, ok, s)
    requires Path(LowerStmt(g, cx, s).0, ps) && ps[0] == (g.cur, |g.blocks[g.cur].instrs|)
    ensures var h, p := LowerStmt(g, cx, s).0, ps[|ps| - 1];
            At(h, p.0, p.1).Some? ==> ItemUses(At(h, p.0, p.1).value) <= Written(h, ps, Now(g, d))
    ensures Single(LowerStmt(g, cx, s).0)
  {
    var f := StmtDominates(g, d, cx, ok, s);
    StmtNested(g, cx, s);
    var h, p, n := LowerStmt(g, cx, s).0, ps[|ps| - 1], |g.blocks[g.cur].instrs|;
    var code := h.blocks[g.cur].instrs;
    SameCode(g, h);
    hide LowerStmt, StmtDefined, Usable;
    PathWritten(h, f, ps, g.cur, n, Now(g, d));
    assert BlockOk(h.blocks[p.0], f[p.0], f);
    if p.1 == |h.blocks[p.0].instrs| { assert h.blocks[p.0].instrs[..p.1] == h.blocks[p.0].instrs; }
  }

  /** The code that was there is still there. */
  lemma SameCode(g: Graph, h: Graph)
    requires Extends(g, h) && g.cur < |g.blocks|
    ensures var n := |g.blocks[g.cur].instrs|;
            n <= |h.blocks[g.cur].instrs| && h.blocks[g.cur].instrs[..n] == g.blocks[g.cur].instrs
  {
    var was, now := g.blocks[g.cur].instrs, h.blocks[g.cur].instrs;
    forall i | 0 <= i < |was| ensures i < |now| && now[i] == was[i] {
      assert At(g, g.cur, i) == Some(I(was[i]));
      assert At(h, g.cur, i) == Some(I(was[i]));
    }
    if |was| > 0 { assert At(h, g.cur, |was| - 1) == At(g, g.cur, |was| - 1); }
  }

  function Arguments(fn: Fn): set<Cell> { set r | 0 <= r < |fn.params| + 1 :: R(r) }

  /** What the item at the end of the path reads was written on the way, or was there before. */
  ghost predicate ReadsOnPath(h: Graph, a: set<Cell>, ps: seq<(nat, nat)>) {
    Path(h, ps) && ps[0] == (0, 0) && At(h, ps[|ps| - 1].0, ps[|ps| - 1].1).Some? ==>
      ItemUses(At(h, ps[|ps| - 1].0, ps[|ps| - 1].1).value) <= Written(h, ps, a)
  }

  /** Definition before use, on every path from the entry. */
  ghost predicate DefinesFirst(h: Graph, a: set<Cell>) {
    forall ps :: ReadsOnPath(h, a, ps)
  }

  lemma CheckedDefinesFirst(h: Graph, f: Promises, a: set<Cell>)
    requires Checked(h, f) && 0 in f && f[0] <= a
    ensures DefinesFirst(h, a)
  {
    forall ps: seq<(nat, nat)> | Path(h, ps) && ps[0] == (0, 0)
      ensures ReadsOnPath(h, a, ps)
    {
      assert h.blocks[0].instrs[..0] == [];
      PathWritten(h, f, ps, 0, 0, a);
      var p := ps[|ps| - 1];
      assert BlockOk(h.blocks[p.0], f[p.0], f);
      if p.1 == |h.blocks[p.0].instrs| { assert h.blocks[p.0].instrs[..p.1] == h.blocks[p.0].instrs; }
    }
  }

  /** The final return. */
  lemma ReturnChecked(h: Graph, f: Promises, t: Term)
    requires Live(h, f) && t.Ret? && TermUses(t) <= Now(h, f)
    ensures Checked(Terminate(h, t), f) && Single(Terminate(h, t))
  {
    JumpChecked(h, f, t, {});
    assert Promise(f, Targets(t), {}) == f;
    JumpSingle(h, t);
  }

  lemma EntrySound(fn: Fn)
    requires fn.regions != [] && FnDefined(fn)
    ensures Sound(Entry(fn), map[0 := Arguments(fn)], EntryCx(fn), Definite.AllSure(|fn.params|), fn.body)
  {
    assert Walk([], Arguments(fn)) == Arguments(fn);
  }

  /** A function that is defined throughout is in proper form: each register has one
      definition, and every path from the entry defines before it uses. */
  lemma FunctionIsDominated(fn: Fn)
    requires fn.regions != [] && FnDefined(fn)
    ensures Single(LowerFn(fn)) && DefinesFirst(LowerFn(fn), Arguments(fn))
  {
    var g, d, ok, cx := Entry(fn), map[0 := Arguments(fn)], Definite.AllSure(|fn.params|), EntryCx(fn);
    EntrySound(fn);
    hide Sound, Dominates, Live, Usable, Checked, Now, Single, DefinesFirst, LowerStmt;
    var f := StmtDominates(g, d, cx, ok, fn.body);
    var h, hs := LowerStmt(g, cx, fn.body).0, LowerStmt(g, cx, fn.body).1;
    BodyEnds(fn, h, hs, f);
    GrownOpen(g, d, h, f);
    if fn.result.None? {
      ReturnChecked(h, f, Ret(None));
      CheckedDefinesFirst(LowerFn(fn), f, Arguments(fn));
    } else {
      var cx1, e := CxAfter(cx, fn.body, hs), fn.result.value;
      var k := ExprDominates(h, f, cx1, ok + MarksOf(cx, ok, fn.body), e);
      GrownOpen(h, f, LowerExpr(h, cx1, e).0, k);
      ReturnChecked(LowerExpr(h, cx1, e).0, k, Ret(Some(LowerExpr(h, cx1, e).1)));
      CheckedDefinesFirst(LowerFn(fn), k, Arguments(fn));
    }
  }

  lemma BodyEnds(fn: Fn, h: Graph, hs: seq<Home>, f: Promises)
    requires fn.regions != [] && FnDefined(fn)
    requires var ok := Definite.AllSure(|fn.params|);
             Dominates(Entry(fn), map[0 := Arguments(fn)], EntryCx(fn), ok, fn.body, h, hs, f)
    ensures Grown(Entry(fn), map[0 := Arguments(fn)], h, f)
    ensures var cx, ok := EntryCx(fn), Definite.AllSure(|fn.params|);
            var cx1, ok1 := CxAfter(cx, fn.body, hs), ok + MarksOf(cx, ok, fn.body);
            && Usable(cx1, ok1, Now(h, f))
            && (fn.result.Some? ==> ValueDefined(cx1.tags, ok1, fn.result.value))
  {
  }

  /** Without that, the property fails: a name declared in the arm of an `if` and read after it
      is read undefined on the path around the arm. */
  lemma ArmNameIsUndefined()
    ensures var fn := ArmName();
            var h, ps := LowerStmt(Entry(fn), EntryCx(fn), fn.body).0, [(0, 0), (0, 1), (2, 0)];
            && !FnDefined(fn)
            && Path(h, ps) && At(h, 2, 0).Some?
            && !(ItemUses(At(h, 2, 0).value) <= Written(h, ps, Arguments(fn)))
  {
    hide Written, Path, FnDefined, IfHead;
    var fn := ArmName();
    var g, cx, s := Entry(fn), EntryCx(fn), fn.body;
    var a, y := Tag("a", false, 0), Tag("y", false, 0);
    FindTwo(a, y);
    ArmNameIsUnsure(a, y);
    ArmCode();
    var g2 := LowerStmt(g, cx, s.s1).0;
    var cx1 := CxAfter(cx, s.s1, [InReg(Reg(3))]);
    assert cx1.tags == [a, y];
    LowerSum(g2, cx1, Add, "y", 1, Reg(3));
    var h := Define(g2, BinI(4, Add, Reg(3), Imm(1)));
    assert LowerStmt(g, cx, s).0 == h;
    assert h.blocks[2] == Block([BinI(4, Add, Reg(3), Imm(1))], None);
    AroundTheArm(h, Arguments(fn));
  }

  /** The code of the `if`, up to the block after it. */
  lemma ArmCode()
    ensures var fn := ArmName();
            var g, hs := LowerStmt(Entry(fn), EntryCx(fn), fn.body.s1).0, LowerStmt(Entry(fn), EntryCx(fn), fn.body.s1).1;
            && hs == [InReg(Reg(3))] && g.cur == 2 && g.nregs == 4 && |g.blocks| == 3 && g.blocks[2] == EMPTY_BLOCK
            && g.blocks[0] == Block([BinI(2, Lt, Reg(1), Imm(0))], Some(CondBr(Reg(2), 1, 2)))
  {
    hide At, LowerFor, LowerWhile, LowerIfElse, LowerOn;
    var fn := ArmName();
    var g, cx, s := Entry(fn), EntryCx(fn), fn.body.s1;
    var a := Tag("a", false, 0);
    assert cx.tags == [a] && cx.homes == [InReg(Reg(1))];
    FindOne(a);
    var g0 := Append(Create(g, 2), 1);
    LowerSum(g0, cx, Lt, "a", 0, Reg(1));
    var g1 := IfHead(g, cx, s.c, 2);
    assert g1 == Enter(Define(g0, BinI(2, Lt, Reg(1), Imm(0))), CondBr(Reg(2), 1, 2), 1);
    LowerSum(g1, cx, Add, "a", 1, Reg(1));
    var g2 := GoTo(Define(g1, BinI(3, Add, Reg(1), Imm(1))), Br(2), 2);
    assert LowerIf(g, cx, s) == (g2, [InReg(Reg(3))]);
  }

  lemma ArmNameIsUnsure(a: Tag, y: Tag)
    requires a == Tag("a", false, 0) && y == Tag("y", false, 0) && Find([a, y], "y") == Some(1)
    ensures !FnDefined(ArmName())
  {
    var s := ArmName().body;
    var ts, ok := ParamTags(ArmName().params), Definite.AllSure(1);
    assert ts == [a] && ok == [true];
    assert !ValueDefined([a, y], [true, false], Get("y"));
    assert !ExprDefined([a, y], [true, false], s.s2.e);
    assert Declared(s.s1, 0) == [y] + [] && Lasting([a], [true], 0, s.s1) == [false] + [];
    assert [a] + Declared(s.s1, 0) == [a, y] && [true] + Marks([a], [true], 0, s.s1) == [true, false];
    assert !StmtDefined([a, y], [true, false], 0, s.s2);
  }

  function ArmName(): Fn {
    Fn("f", ["r"], [("a", IntT(64))], VoidT,
      Seq(If(Bin(Lt, Get("a"), Num(0)), Let("y", Bin(Add, Get("a"), Num(1))), Skip), Do(Bin(Add, Get("y"), Num(1)))), None)
  }

  lemma FindOne(a: Tag)
    ensures Find([a], a.name) == Some(0) && forall x :: x != a.name ==> Find([a], x) == None
  {
    assert [a][..0] == [];
  }

  lemma FindTwo(a: Tag, y: Tag)
    requires !y.isVar && a.name != y.name && !a.isVar
    ensures Find([a, y], y.name) == Some(1)
  {
    assert [a, y][..1] == [a] && [a][..0] == [];
    assert FindVar([a], y.name, y.depth) == None;
  }

  lemma LowerSum(g: Graph, cx: LCx, op: Op, x: Name, n: int, o: Operand)
    requires HomeOf(cx, x) == Some(InReg(o))
    ensures LowerExpr(g, cx, Bin(op, Get(x), Num(n))) == (Define(g, BinI(g.nregs, op, o, Imm(Wrap(n)))), Reg(g.nregs))
  {
    assert LowerExpr(g, cx, Get(x)) == (g, o);
    assert LowerExpr(g, cx, Num(n)) == (g, Imm(Wrap(n)));
  }

  lemma AroundTheArm(h: Graph, a: set<Cell>)
    requires |h.blocks| == 3 && R(3) !in a
    requires h.blocks[0] == Block([BinI(2, Lt, Reg(1), Imm(0))], Some(CondBr(Reg(2), 1, 2)))
    requires h.blocks[2] == Block([BinI(4, Add, Reg(3), Imm(1))], None)
    ensures var ps := [(0, 0), (0, 1), (2, 0)];
            Path(h, ps) && At(h, 2, 0).Some? && !(ItemUses(At(h, 2, 0).value) <= Written(h, ps, a))
  {
    var ps: seq<(nat, nat)> := [(0, 0), (0, 1), (2, 0)];
    assert Flows(h, ps[0], ps[1]) && Flows(h, ps[1], ps[2]);
    assert ps[..2] == [(0, 0), (0, 1)] && ps[..2][..1] == [(0, 0)];
    assert Written(h, ps[..2][..1], a) == a;
    assert R(3) !in Written(h, ps[..2], a);
    assert R(3) in ItemUses(At(h, 2, 0).value);
  }
}
