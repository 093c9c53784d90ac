/** How statements and expressions are emitted as basic blocks. */
module Lowering {
  import opened Basics
  import opened RegionTypes
  import opened Lang
  import opened Ir

  /** Where a name lives: a slot for `var`, an operand for `let`, parameters and loop names. */
  datatype Home = InSlot(slot: nat) | InReg(op: Operand)

  datatype LCx = LCx(tags: seq<Tag>, homes: seq<Home>, depth: nat, handles: seq<(Name, Operand)>)

  ghost predicate CxShape(cx: LCx) {
    |cx.tags| == |cx.homes| && cx.handles != []
  }

  function Default(cx: LCx): (Name, Operand) {
    if cx.handles == [] then ("", Imm(0)) else cx.handles[|cx.handles| - 1]
  }

  /** The home of a name; where the code stops on an unresolved name, `None`. */
  function HomeOf(cx: LCx, x: Name): Option<Home> {
    var i := Find(cx.tags, x);
    if i.Some? && i.value < |cx.homes| then Some(cx.homes[i.value]) else None
  }

  /** The handle a class instantiation or a call passes. */
  function HandleOf(cx: LCx, rs: seq<Name>): Operand {
    var h := GetHandle(cx.handles, CallRegions(rs, Default(cx).0)[0]);
    if h.Some? then h.value else Imm(0)
  }

  function InnerCx(cx: LCx): LCx { cx.(depth := cx.depth + 1) }

  function CxAfter(cx: LCx, s: Stmt, homes: seq<Home>): LCx {
    cx.(tags := cx.tags + Declared(s, cx.depth), homes := cx.homes + homes)
  }

  function CxOn(cx: LCx, name: Name, r: nat): LCx {
    InnerCx(cx).(handles := cx.handles + [(name, Reg(r))])
  }

  // ---------- What can be lowered here ----------

  /** Names resolve, a called name is not hidden by a variable or value, and regions passed have
      a handle.  The lowering below is meant for constructs that meet this; on the others the
      code stops. */
  predicate ExprOk(ts: seq<Tag>, regions: seq<Name>, e: Expr)
    requires regions != []
  {
    match e
    case Num(_) => true
    case Get(x) => Find(ts, x).Some?
    case Bin(_, a, b) => ExprOk(ts, regions, a) && ExprOk(ts, regions, b)
    case Lit(es) => 0 < |es| < TWO63 && forall a :: a in es ==> ExprOk(ts, regions, a)
    case Fill(a, b) => ExprOk(ts, regions, a) && ExprOk(ts, regions, b)
    case Elem(a, b) => ExprOk(ts, regions, a) && ExprOk(ts, regions, b)
    case Length(a) => ExprOk(ts, regions, a)
    case Field(a, _) => ExprOk(ts, regions, a)
    case New(_, rs) => CallRegions(rs, regions[|regions| - 1])[0] in regions
    case Call(f, rs, args) =>
      && Find(ts, f).None? && CallRegions(rs, regions[|regions| - 1])[0] in regions
      && forall a :: a in args ==> ExprOk(ts, regions, a)
  }

  predicate TargetOk(ts: seq<Tag>, regions: seq<Name>, t: Expr)
    requires regions != []
  {
    match t
    case Get(x) => var i := Find(ts, x); i.Some? && ts[i.value].isVar
    case Elem(_, _) => ExprOk(ts, regions, t)
    case Field(_, _) => ExprOk(ts, regions, t)
    case _ => false
  }

  predicate StmtOk(ts: seq<Tag>, d: nat, regions: seq<Name>, s: Stmt)
    requires regions != []
    decreases s
  {
    match s
    case Skip => true
    case Seq(a, b) => StmtOk(ts, d, regions, a) && StmtOk(ts + Declared(a, d), d, regions, b)
    case Var(_, e) => ExprOk(ts, regions, e)
    case Let(_, e) => ExprOk(ts, regions, e)
    case Assign(t, e) => TargetOk(ts, regions, t) && ExprOk(ts, regions, e)
    case Do(e) => ExprOk(ts, regions, e)
    case If(c, a, b) =>
      ExprOk(ts, regions, c) && StmtOk(ts, d, regions, a) && StmtOk(ts + Declared(a, d), d, regions, b)
    case While(c, body) => ExprOk(ts, regions, c) && StmtOk(ts, d + 1, regions, body)
    case For(x, lo, hi, body) =>
      ExprOk(ts, regions, lo) && ExprOk(ts, regions, hi) && StmtOk(ts + [Tag(x, false, d)], d + 1, regions, body)
    case On(name, body) => StmtOk(ts, d + 1, regions + [name], body)
  }

  function HandleNames(cx: LCx): (r: seq<Name>)
    ensures |r| == |cx.handles|
    ensures forall n :: n in r ==> GetHandle(cx.handles, n).Some?
  {
    var r := seq(|cx.handles|, i requires 0 <= i < |cx.handles| => cx.handles[i].0);
    assert forall i :: 0 <= i < |r| ==> cx.handles[i] in cx.handles && r[i] == cx.handles[i].0;
    r
  }

  ghost predicate ExprReady(cx: LCx, e: Expr) {
    CxShape(cx) && ExprOk(cx.tags, HandleNames(cx), e)
  }

  ghost predicate TargetReady(cx: LCx, t: Expr) {
    CxShape(cx) && TargetOk(cx.tags, HandleNames(cx), t)
  }

  ghost predicate StmtReady(cx: LCx, s: Stmt) {
    CxShape(cx) && StmtOk(cx.tags, cx.depth, HandleNames(cx), s)
  }

  lemma OnReady(cx: LCx, s: Stmt, r: nat)
    requires StmtReady(cx, s) && s.On?
    ensures StmtReady(CxOn(cx, s.region, r), s.body)
  {
    assert HandleNames(CxOn(cx, s.region, r)) == HandleNames(cx) + [s.region];
  }

  function CxFor(cx: LCx, s: Stmt, r: nat): LCx { InnerCx(CxAfter(cx, s, [InReg(Reg(r))])) }

  lemma ForReady(cx: LCx, s: Stmt, r: nat)
    requires StmtReady(cx, s) && s.For?
    ensures StmtReady(CxFor(cx, s, r), s.body) && ExprReady(cx, s.lo) && ExprReady(cx, s.hi)
  {
    assert HandleNames(CxFor(cx, s, r)) == HandleNames(cx);
  }

  // ---------- Expressions ----------

  function LowerExpr(g: Graph, cx: LCx, e: Expr): (Graph, Operand)
    decreases e
  {
    match e
    case Num(n) => (g, Imm(Wrap(n)))
    case Get(x) =>
      (match HomeOf(cx, x)
       case Some(InSlot(s)) => (Define(g, LoadVar(g.nregs, s)), Reg(g.nregs))
       case Some(InReg(o)) => (g, o)
       case None => (g, Imm(0)))
    case Bin(op, a, b) =>
      var (g1, x) := LowerExpr(g, cx, a);
      var (g2, y) := LowerExpr(g1, cx, b);
      (Define(g2, BinI(g2.nregs, op, x, y)), Reg(g2.nregs))
    case Lit(es) =>
      var (g1, xs) := LowerList(g, cx, es);
      var g2 := Define(g1, AllocI(g1.nregs, Default(cx).1, Imm(|es|)));
      (StoreAll(g2, Reg(g1.nregs), xs, 0), Reg(g1.nregs))
    case Fill(a, b) =>
      var (g1, x) := LowerExpr(g, cx, a);
      var (g2, n) := LowerExpr(g1, cx, b);
      (LowerFill(g2, Default(cx).1, x, n), Reg(g2.nregs))
    case Elem(a, b) =>
      var (g1, x) := LowerExpr(g, cx, a);
      var (g2, y) := LowerExpr(g1, cx, b);
      (Define(g2, LoadI(g2.nregs, x, y)), Reg(g2.nregs))
    case Length(a) =>
      var (g1, x) := LowerExpr(g, cx, a);
      (Define(g1, LengthI(g1.nregs, x)), Reg(g1.nregs))
    case Field(a, f) =>
      var (g1, x) := LowerExpr(g, cx, a);
      (Define(g1, LoadF(g1.nregs, x, f)), Reg(g1.nregs))
    case New(c, rs) =>
      (Define(g, NewI(g.nregs, HandleOf(cx, rs), c)), Reg(g.nregs))
    case Call(f, rs, args) =>
      var (g1, xs) := LowerList(g, cx, args);
      (Define(g1, CallI(g1.nregs, f, HandleOf(cx, rs), xs)), Reg(g1.nregs))
  }

  function LowerList(g: Graph, cx: LCx, es: seq<Expr>): (r: (Graph, seq<Operand>))
    ensures |r.1| == |es|
    decreases es
  {
    if es == [] then (g, [])
    else
      var (g1, x) := LowerExpr(g, cx, es[0]);
      var (g2, xs) := LowerList(g1, cx, es[1..]);
      (g2, [x] + xs)
  }

  /** The element stores of an array literal, from element `i` on. */
  function StoreAll(g: Graph, arr: Operand, xs: seq<Operand>, i: nat): Graph
    requires i <= |xs|
    decreases |xs| - i
  {
    if i == |xs| then g else StoreAll(Emit(g, StoreI(arr, Imm(i), xs[i])), arr, xs, i + 1)
  }

  /** The allocation and the loop of `[x; n]`, up to the start of the condition block; the
      blocks are condition, content and continue. */
  function FillStart(g: Graph, region: Operand, n: Operand): Graph {
    var g1 := Define(g, AllocI(g.nregs, region, n));
    GoTo(NewVar(Create(g1, 3), Imm(0)), Br(|g.blocks|), |g.blocks|)
  }

  function FillTest(g: Graph, slot: nat, n: Operand, cond: nat): Graph {
    var g1 := Define(g, LoadVar(g.nregs, slot));
    var g2 := Define(g1, BinI(g1.nregs, Lt, Reg(g.nregs), n));
    GoTo(g2, CondBr(Reg(g1.nregs), cond + 1, cond + 2), cond + 1)
  }

  /** arr[i] = x; i = i + 1 */
  function FillBody(g: Graph, slot: nat, arr: Operand, x: Operand): Graph {
    var g1 := Define(g, LoadVar(g.nregs, slot));
    var g2 := Emit(g1, StoreI(arr, Reg(g.nregs), x));
    var g3 := Define(g2, LoadVar(g2.nregs, slot));
    var g4 := Define(g3, BinI(g3.nregs, Add, Reg(g2.nregs), Imm(1)));
    Emit(g4, StoreVar(slot, Reg(g3.nregs)))
  }

  function LowerFill(g: Graph, region: Operand, x: Operand, n: Operand): Graph {
    var cond := |g.blocks|;
    var g1 := FillTest(FillStart(g, region, n), g.nslots, n, cond);
    GoTo(FillBody(g1, g.nslots, Reg(g.nregs), x), Br(cond), cond + 2)
  }

  // ---------- Statements ----------

  /** The address of an assignment target; only a `var`, an element or a field has one. */
  datatype Dest = NoD | SlotD(slot: nat) | CellD(arr: Operand, idx: Operand) | FieldD(obj: Operand, f: Name)

  /** The target is evaluated like an expression, so its old value is loaded too. */
  function LowerTarget(g: Graph, cx: LCx, t: Expr): (Graph, Dest)
  {
    match t
    case Get(x) =>
      (match HomeOf(cx, x)
       case Some(InSlot(s)) => (Define(g, LoadVar(g.nregs, s)), SlotD(s))
       case _ => (g, NoD))
    case Elem(a, b) =>
      var (g1, x) := LowerExpr(g, cx, a);
      var (g2, y) := LowerExpr(g1, cx, b);
      (Define(g2, LoadI(g2.nregs, x, y)), CellD(x, y))
    case Field(a, f) =>
      var (g1, x) := LowerExpr(g, cx, a);
      (Define(g1, LoadF(g1.nregs, x, f)), FieldD(x, f))
    case _ => (g, NoD)
  }

  function EmitStore(g: Graph, d: Dest, x: Operand): Graph {
    match d
    case NoD => g
    case SlotD(s) => Emit(g, StoreVar(s, x))
    case CellD(a, i) => Emit(g, StoreI(a, i, x))
    case FieldD(o, f) => Emit(g, StoreF(o, f, x))
  }

  /** The condition of an `if` with `k` new blocks (then, continue and maybe else), up to the
      start of the then block, which joins the function before the condition is emitted.
      Without an else block the last one is the continue block. */
  function IfHead(g: Graph, cx: LCx, c: Expr, k: nat): Graph
    requires 2 <= k
  {
    var n := |g.blocks|;
    var (g1, o) := LowerExpr(Append(Create(g, k), n), cx, c);
    Enter(g1, CondBr(o, n, n + k - 1), n)
  }

  /** The start of a loop's condition block; content and continue blocks wait. */
  function LoopStart(g: Graph): Graph {
    GoTo(Create(g, 3), Br(|g.blocks|), |g.blocks|)
  }

  function WhileHead(g: Graph, cx: LCx, c: Expr, cond: nat): Graph
  {
    var (g1, o) := LowerExpr(g, cx, c);
    GoTo(g1, CondBr(o, cond + 1, cond + 2), cond + 1)
  }

  /** The iterator of a `for` and its register, up to the start of the condition block. */
  function ForStart(g: Graph, cx: LCx, lo: Expr, hi: Expr): (Graph, nat)
  {
    var (g1, x) := LowerExpr(Create(g, 3), cx, lo);
    var (g2, y) := LowerExpr(g1, cx, hi);
    (GoTo(Define(g2, IterI(g2.nregs, x, y)), Br(|g.blocks|), |g.blocks|), g2.nregs)
  }

  /** hasNext and next; the loop name is the register of next, which is g.nregs + 1. */
  function ForHead(g: Graph, it: nat, cond: nat): Graph {
    var g1 := Define(g, HasNextI(g.nregs, Reg(it)));
    var g2 := GoTo(g1, CondBr(Reg(g.nregs), cond + 1, cond + 2), cond + 1);
    Define(g2, NextI(g2.nregs, Reg(it)))
  }

  /** Lowers a statement: the graph after it, and the homes of the names it declares. */
  function LowerStmt(g: Graph, cx: LCx, s: Stmt): (r: (Graph, seq<Home>))
    ensures |r.1| == |Declared(s, cx.depth)|
    decreases s, 2
  {
    match s
    case Skip => (g, [])
    case Seq(_, _) => LowerSeq(g, cx, s)
    case Var(_, e) =>
      var (g1, o) := LowerExpr(g, cx, e);
      (NewVar(g1, o), [InSlot(g1.nslots)])
    case Let(_, e) =>
      var (g1, o) := LowerExpr(g, cx, e);
      (g1, [InReg(o)])
    case Assign(t, e) => (LowerAssign(g, cx, t, e), [])
    case Do(e) => (LowerExpr(g, cx, e).0, [])
    case If(_, _, els) => if els.Skip? then LowerIf(g, cx, s) else LowerIfElse(g, cx, s)
    case While(_, _) => (LowerWhile(g, cx, s), [])
    case For(_, _, _, _) => LowerFor(g, cx, s)
    case On(_, _) => (LowerOn(g, cx, s), [])
  }

  function LowerAssign(g: Graph, cx: LCx, t: Expr, e: Expr): Graph
  {
    var (g1, d) := LowerTarget(g, cx, t);
    var (g2, o) := LowerExpr(g1, cx, e);
    EmitStore(g2, d, o)
  }

  function LowerSeq(g: Graph, cx: LCx, s: Stmt): (r: (Graph, seq<Home>))
    requires s.Seq?
    ensures |r.1| == |Declared(s, cx.depth)|
    decreases s, 0
  {
    var (g1, hs) := LowerStmt(g, cx, s.s1);
    var (g2, ks) := LowerStmt(g1, CxAfter(cx, s.s1, hs), s.s2);
    (g2, hs + ks)
  }

  function LowerWhile(g: Graph, cx: LCx, s: Stmt): Graph
    requires s.While?
    decreases s, 1
  {
    WhileLoop(LoopStart(g), cx, s, |g.blocks|)
  }

  /** From the start of the condition block on. */
  function WhileLoop(g: Graph, cx: LCx, s: Stmt, cond: nat): Graph
    requires s.While?
    decreases s, 0
  {
    var g1 := LowerStmt(WhileHead(g, cx, s.c, cond), InnerCx(cx), s.body).0;
    GoTo(g1, Br(cond), cond + 2)
  }

  function LowerOn(g: Graph, cx: LCx, s: Stmt): Graph
    requires s.On?
    decreases s, 0
  {
    var g1 := LowerStmt(Define(g, OpenI(g.nregs)), CxOn(cx, s.region, g.nregs), s.body).0;
    Emit(g1, CloseI(Reg(g.nregs)))
  }

  function LowerIf(g: Graph, cx: LCx, s: Stmt): (r: (Graph, seq<Home>))
    requires s.If? && s.els.Skip?
    ensures |r.1| == |Declared(s, cx.depth)|
    decreases s, 0
  {
    var done := |g.blocks| + 1;
    var (g1, hs) := LowerStmt(IfHead(g, cx, s.c, 2), cx, s.thn);
    (GoTo(g1, Br(done), done), hs)
  }

  function LowerIfElse(g: Graph, cx: LCx, s: Stmt): (r: (Graph, seq<Home>))
    requires s.If?
    ensures |r.1| == |Declared(s, cx.depth)|
    decreases s, 1
  {
    var done := |g.blocks| + 1;
    var (g1, hs) := LowerStmt(IfHead(g, cx, s.c, 3), cx, s.thn);
    var (g2, ks) := LowerElse(g1, CxAfter(cx, s.thn, hs), s, done);
    (g2, hs + ks)
  }

  /** From the end of the then arm on; the else block is done + 1. */
  function LowerElse(g: Graph, cx: LCx, s: Stmt, done: nat): (r: (Graph, seq<Home>))
    requires s.If?
    ensures |r.1| == |Declared(s.els, cx.depth)|
    decreases s, 0
  {
    var (g1, ks) := LowerStmt(GoTo(g, Br(done), done + 1), cx, s.els);
    (GoTo(g1, Br(done), done), ks)
  }

  function LowerFor(g: Graph, cx: LCx, s: Stmt): (r: (Graph, seq<Home>))
    requires s.For?
    ensures |r.1| == |Declared(s, cx.depth)|
    decreases s, 1
  {
    var (g1, it) := ForStart(g, cx, s.lo, s.hi);
    (ForLoop(g1, cx, s, it, |g.blocks|), [InReg(Reg(g1.nregs + 1))])
  }

  /** From the start of the condition block on. */
  function ForLoop(g: Graph, cx: LCx, s: Stmt, it: nat, cond: nat): Graph
    requires s.For?
    decreases s, 0
  {
    var g1 := LowerStmt(ForHead(g, it, cond), CxFor(cx, s, g.nregs + 1), s.body).0;
    GoTo(g1, Br(cond), cond + 2)
  }

  // ---------- Functions ----------

  /** A function before its body: the region handle and the arguments are its first registers. */
  function Entry(fn: Fn): Graph { Graph([EMPTY_BLOCK], [0], 0, |fn.params| + 1, 0) }

  function EntryCx(fn: Fn): LCx
    requires fn.regions != []
  {
    LCx(ParamTags(fn.params), seq(|fn.params|, i requires 0 <= i < |fn.params| => InReg(Reg(i + 1))), 0,
      [(fn.regions[0], Reg(0))])
  }

  /** A whole function: its body, then the operand of its `return`. */
  function LowerFn(fn: Fn): Graph
    requires fn.regions != []
  {
    var (g, hs) := LowerStmt(Entry(fn), EntryCx(fn), fn.body);
    match fn.result
    case None => Terminate(g, Ret(None))
    case Some(e) =>
      var (h, o) := LowerExpr(g, CxAfter(EntryCx(fn), fn.body, hs), e);
      Terminate(h, Ret(Some(o)))
  }

  ghost predicate FnReady(fn: Fn) {
    && fn.regions != [] && StmtReady(EntryCx(fn), fn.body)
    && (fn.result.Some? ==> ExprOk(ParamTags(fn.params) + Declared(fn.body, 0), [fn.regions[0]], fn.result.value))
  }

  /** A function as the code of later functions sees it. */
  function UnitOf(fn: Fn): Unit {
    Unit(fn.name, |fn.params|, if fn.regions == [] then Graph([], [], 0, 0, 0) else LowerFn(fn))
  }

  /** What the code of function `k` can refer to. */
  function Lib(p: Program, k: nat): (lib: Library)
    ensures k <= |p.fns| ==> |lib.units| == k
    ensures lib.classes == p.classes
  {
    Library(p.classes, seq(if k <= |p.fns| then k else 0, i requires 0 <= i < |p.fns| => UnitOf(p.fns[i])))
  }

  lemma {:induction false} LibFinds(p: Program, k: nat, f: Name)
    requires k <= |p.fns|
    ensures FindUnit(Lib(p, k).units, f) == FindFn(p, k, f)
  {
    if k > 0 {
      assert Lib(p, k).units[..k - 1] == Lib(p, k - 1).units;
      LibFinds(p, k - 1, f);
    }
  }

  lemma LibBefore(p: Program, k: nat, j: nat)
    requires j <= k <= |p.fns|
    ensures Before(Lib(p, k), j) == Lib(p, j)
  {
    assert Lib(p, k).units[..j] == Lib(p, j).units;
  }
}
