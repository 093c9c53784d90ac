/** A program that passes every check: calls with and without region arguments, an instance, `on`,
    `for`, `while` and `if`. */
module Sample {
  import opened Basics
  import opened RegionTypes
  import opened Lang
  import opened Checker
  import opened Typing
  import Definite
  import Compiled

  const WORD: Type := IntT(64)
  const PAIR: Name := "Pair"

  function Words(r: Name): Type { ArrT(WORD, r) }

  /** fn first @A (i64[A] a) { a.length; return a[0]; } */
  function First(): Fn { Fn("first", ["A"], [("a", Words("A"))], WORD, Do(Length(Get("a"))), Some(Elem(Get("a"), Num(0)))) }

  /** on R { let b = [s; 5]; for (i : range(0, b.length)) b[i] = first@R(b); s = first@R(b); } */
  function Region(): Stmt {
    On("R", Seq(Let("b", Fill(Get("s"), Num(5))),
      Seq(Loop(), Assign(Get("s"), Call("first", ["R"], [Get("b")])))))
  }

  function Loop(): Stmt {
    For("i", Num(0), Length(Get("b")), Assign(Elem(Get("b"), Get("i")), Call("first", ["R"], [Get("b")])))
  }

  /** while (s > 0) if (s < 9) s = s - 1; else s = p.f; */
  function Countdown(): Stmt {
    While(Bin(Gt, Get("s"), Num(0)),
      If(Bin(Lt, Get("s"), Num(9)), Assign(Get("s"), Bin(Sub, Get("s"), Num(1))), Assign(Get("s"), Field(Get("p"), "f"))))
  }

  /** var s = first([3, 4]); let p = Pair(); ... */
  function Body(): Stmt {
    Seq(Var("s", Call("first", [], [Lit([Num(3), Num(4)])])),
      Seq(Let("p", New(PAIR, [])), Seq(Region(), Countdown())))
  }

  function Whole(): Program {
    Program(map[PAIR := map["f" := 0]], [First(), Fn("main", ["d"], [], VoidT, Body(), None)])
  }

  // ---------- The rules, forwards ----------

  lemma GetRule(p: Program, k: nat, cx: Cx, x: Name, i: nat, t: Type)
    requires k <= |p.fns| && CxShape(cx) && Find(cx.tags, x) == Some(i) && i < |cx.types| && cx.types[i] == t
    ensures HasType(p, k, cx, Get(x), t)
  {
  }

  lemma NumRule(p: Program, k: nat, cx: Cx, n: int)
    requires k <= |p.fns| && CxShape(cx)
    ensures HasType(p, k, cx, Num(n), WORD)
  {
  }

  lemma BinRule(p: Program, k: nat, cx: Cx, op: Op, l: Expr, r: Expr)
    requires k <= |p.fns| && CxShape(cx) && HasType(p, k, cx, l, WORD) && HasType(p, k, cx, r, WORD)
    ensures HasType(p, k, cx, Bin(op, l, r), WORD)
  {
  }

  lemma FillRule(p: Program, k: nat, cx: Cx, v: Expr, n: Expr)
    requires k <= |p.fns| && CxShape(cx) && HasType(p, k, cx, v, WORD) && HasType(p, k, cx, n, WORD)
    ensures HasType(p, k, cx, Fill(v, n), Words(cx.handles[|cx.handles| - 1]))
  {
  }

  lemma LitRule(p: Program, k: nat, cx: Cx, a: Expr, b: Expr)
    requires k <= |p.fns| && CxShape(cx) && HasType(p, k, cx, a, WORD) && HasType(p, k, cx, b, WORD)
    ensures HasType(p, k, cx, Lit([a, b]), Words(cx.handles[|cx.handles| - 1]))
  {
  }

  lemma ElemRule(p: Program, k: nat, cx: Cx, a: Expr, i: Expr, r: Name)
    requires k <= |p.fns| && CxShape(cx) && HasType(p, k, cx, a, Words(r)) && HasType(p, k, cx, i, WORD)
    ensures HasType(p, k, cx, Elem(a, i), WORD)
  {
  }

  lemma LengthRule(p: Program, k: nat, cx: Cx, a: Expr, r: Name)
    requires k <= |p.fns| && CxShape(cx) && HasType(p, k, cx, a, Words(r))
    ensures HasType(p, k, cx, Length(a), WORD)
  {
  }

  lemma FieldRule(p: Program, k: nat, cx: Cx, o: Expr, c: Name, f: Name, r: Name)
    requires k <= |p.fns| && CxShape(cx) && HasType(p, k, cx, o, ClsT(c, r)) && c in p.classes && f in p.classes[c]
    ensures HasType(p, k, cx, Field(o, f), WORD)
  {
  }

  lemma NewRule(p: Program, k: nat, cx: Cx, c: Name)
    requires k <= |p.fns| && CxShape(cx) && c in p.classes
    ensures HasType(p, k, cx, New(c, []), ClsT(c, cx.handles[|cx.handles| - 1]))
  {
    assert Passes(cx, [], [cx.handles[|cx.handles| - 1]]);
  }

  lemma SetRule(p: Program, k: nat, cx: Cx, t: Expr, e: Expr)
    requires k <= |p.fns| && CxShape(cx) && HasAddress(cx, t) && HasType(p, k, cx, t, WORD) && HasType(p, k, cx, e, WORD)
    ensures Accepts(p, k, cx, Assign(t, e), [])
  {
  }

  lemma DeclareRule(p: Program, k: nat, cx: Cx, s: Stmt, e: Expr, t: Type)
    requires k <= |p.fns| && CxShape(cx) && (s.Var? || s.Let?) && s.e == e && HasType(p, k, cx, e, t)
    ensures Accepts(p, k, cx, s, [t])
  {
  }

  lemma DoRule(p: Program, k: nat, cx: Cx, e: Expr, t: Type)
    requires k <= |p.fns| && CxShape(cx) && HasType(p, k, cx, e, t)
    ensures Accepts(p, k, cx, Do(e), [])
  {
  }

  lemma SeqRule(p: Program, k: nat, cx: Cx, s: Stmt, ts: seq<Type>, us: seq<Type>)
    requires k <= |p.fns| && CxShape(cx) && s.Seq? && |ts| == |Declared(s.s1, cx.depth)|
    requires Accepts(p, k, cx, s.s1, ts) && Accepts(p, k, CxAfter(cx, s.s1, ts), s.s2, us)
    ensures Accepts(p, k, cx, s, ts + us)
  {
    var n := |Declared(s.s1, cx.depth)|;
    assert (ts + us)[..n] == ts && (ts + us)[n..] == us;
    assert |us| == |Declared(s.s2, cx.depth)|;
  }

  lemma IfRule(p: Program, k: nat, cx: Cx, c: Expr, a: Stmt, b: Stmt)
    requires k <= |p.fns| && CxShape(cx) && HasType(p, k, cx, c, WORD)
    requires Declared(a, cx.depth) == [] && Accepts(p, k, cx, a, []) && Accepts(p, k, cx, b, [])
    ensures Accepts(p, k, cx, If(c, a, b), [])
  {
    var none: seq<Type> := [];
    assert none[..0] == none && none[0..] == none;
    assert CxAfter(cx, a, []) == cx;
  }

  lemma WhileRule(p: Program, k: nat, cx: Cx, c: Expr, body: Stmt, ts: seq<Type>)
    requires k <= |p.fns| && CxShape(cx) && HasType(p, k, cx, c, WORD) && Accepts(p, k, InnerCx(cx), body, ts)
    ensures Accepts(p, k, cx, While(c, body), [])
  {
    assert AcceptsSome(p, k, InnerCx(cx), body);
  }

  lemma ForRule(p: Program, k: nat, cx: Cx, x: Name, lo: Expr, hi: Expr, body: Stmt, ts: seq<Type>)
    requires k <= |p.fns| && CxShape(cx) && HasType(p, k, cx, lo, WORD) && HasType(p, k, cx, hi, WORD)
    requires Accepts(p, k, InnerCx(CxAfter(cx, For(x, lo, hi, body), [WORD])), body, ts)
    ensures Accepts(p, k, cx, For(x, lo, hi, body), [WORD])
  {
    assert AcceptsSome(p, k, InnerCx(CxAfter(cx, For(x, lo, hi, body), [WORD])), body);
  }

  lemma OnRule(p: Program, k: nat, cx: Cx, r: Name, body: Stmt, ts: seq<Type>)
    requires k <= |p.fns| && CxShape(cx) && forall t :: t in cx.types ==> r !in Regions(t)
    requires Accepts(p, k, InnerCx(cx).(handles := cx.handles + [r]), body, ts)
    ensures Accepts(p, k, cx, On(r, body), [])
  {
    assert AcceptsSome(p, k, InnerCx(cx).(handles := cx.handles + [r]), body);
  }

  /** One region passed for one declared region. */
  lemma OneRegion(r: Name, d: Name)
    ensures Stands(r, d, [d], [r]) && Names(r, d, [d], [r])
  {
    assert LastAt([r], 0);
    forall q | Stands(q, d, [d], [r]) ensures q == r {
      var i :| LastAt([r], i) && [r][i] == q && [d][i] == d;
    }
  }

  lemma CallRule(p: Program, cx: Cx, rs: seq<Name>, a: Expr, r: Name)
    requires 1 <= |p.fns| && p.fns[0] == First() && CxShape(cx)
    requires Find(cx.tags, "first").None? && r in cx.handles && Passes(cx, rs, [r]) && HasType(p, 1, cx, a, Words(r))
    ensures HasType(p, 1, cx, Call("first", rs, [a]), WORD)
  {
    hide Find, Stands, Names;
    OneRegion(r, "A");
    assert Calls(p, 1, "first", 0);
    assert Instance(Words(r), Words("A"), ["A"], [r]);
    assert Typing.Fits(p, 1, cx, a, Words("A"), ["A"], [r]);
    assert CallHasType(p, 1, cx, Call("first", rs, [a]), p.fns[0], [r], WORD);
  }

  // ---------- Its functions ----------

  lemma FirstIsAccepted(p: Program)
    requires p.fns != [] && p.fns[0] == First()
    ensures AcceptsFn(p, 0, true)
  {
    hide HasType, Accepts;
    var cx := FnCx(First(), true);
    assert cx.tags == [Tag("a", false, 0)] && cx.types == [Words("A")];
    assert Find(cx.tags, "a") == Some(0);
    GetRule(p, 0, cx, "a", 0, Words("A"));
    NumRule(p, 0, cx, 0);
    ElemRule(p, 0, cx, Get("a"), Num(0), "A");
    LengthRule(p, 0, cx, Get("a"), "A");
    DoRule(p, 0, cx, Length(Get("a")), WORD);
    assert CxAfter(cx, First().body, []) == cx;
  }

  /** The scope of `main` after its first two declarations, inside the region, and inside its loop. */
  function Scope(): Cx {
    Cx([Tag("s", true, 0), Tag("p", false, 0)], [WORD, ClsT(PAIR, "d")], 0, ["d"], true)
  }

  function Inside(): Cx {
    Cx(Scope().tags + [Tag("b", false, 1)], Scope().types + [Words("R")], 1, ["d", "R"], true)
  }

  function InLoop(): Cx {
    Cx(Inside().tags + [Tag("i", false, 1)], Inside().types + [WORD], 2, ["d", "R"], true)
  }

  /** A name declared last, by a value whose name is new. */
  lemma LastName(ts: seq<Tag>, t: Tag)
    requires !t.isVar && forall u :: u in ts ==> u.name != t.name
    ensures Find(ts + [t], t.name) == Some(|ts|)
    ensures forall x :: x != t.name ==> Find(ts + [t], x) == Find(ts, x)
  {
    assert (ts + [t])[..|ts|] == ts;
    NoVar(ts, t.name, t.depth);
  }

  lemma {:induction false} NoVar(ts: seq<Tag>, x: Name, d: nat)
    requires forall t :: t in ts ==> t.name != x
    ensures FindVar(ts, x, d).None?
  {
    if ts != [] { NoVar(ts[..|ts| - 1], x, d); }
  }

  predicate Known(ts: seq<Tag>) {
    Find(ts, "s") == Some(0) && Find(ts, "p") == Some(1) && Find(ts, "first").None?
  }

  lemma NamesInScope()
    ensures Known(Scope().tags) && Known(Inside().tags) && Known(InLoop().tags)
    ensures Find(Inside().tags, "b") == Some(2) && Find(InLoop().tags, "b") == Some(2) && Find(InLoop().tags, "i") == Some(3)
  {
    var one := [Tag("s", true, 0)];
    assert Find(one, "s") == Some(0) && Find(one, "first").None?;
    LastName(one, Tag("p", false, 0));
    assert Scope().tags == one + [Tag("p", false, 0)];
    LastName(Scope().tags, Tag("b", false, 1));
    LastName(Inside().tags, Tag("i", false, 1));
  }

  lemma CountdownIsAccepted(p: Program)
    requires 1 <= |p.fns| && PAIR in p.classes && "f" in p.classes[PAIR]
    ensures Accepts(p, 1, Scope(), Countdown(), [])
  {
    hide HasType, Accepts, Find;
    NamesInScope();
    var cx0, cx, s := Scope(), InnerCx(Scope()), Get("s");
    GetRule(p, 1, cx0, "s", 0, WORD);
    NumRule(p, 1, cx0, 0);
    BinRule(p, 1, cx0, Gt, s, Num(0));
    GetRule(p, 1, cx, "s", 0, WORD);
    NumRule(p, 1, cx, 9);
    NumRule(p, 1, cx, 1);
    BinRule(p, 1, cx, Lt, s, Num(9));
    BinRule(p, 1, cx, Sub, s, Num(1));
    GetRule(p, 1, cx, "p", 1, ClsT(PAIR, "d"));
    FieldRule(p, 1, cx, Get("p"), PAIR, "f", "d");
    SetRule(p, 1, cx, s, Bin(Sub, s, Num(1)));
    SetRule(p, 1, cx, s, Field(Get("p"), "f"));
    IfRule(p, 1, cx, Bin(Lt, s, Num(9)), Assign(s, Bin(Sub, s, Num(1))), Assign(s, Field(Get("p"), "f")));
    WhileRule(p, 1, cx0, Bin(Gt, s, Num(0)), Countdown().body, []);
  }

  lemma LoopIsAccepted(p: Program)
    requires 1 <= |p.fns| && p.fns[0] == First()
    ensures Accepts(p, 1, Inside(), Loop(), [WORD])
  {
    hide HasType, Accepts, Find;
    NamesInScope();
    var cx, b, i := InLoop(), Get("b"), Get("i");
    GetRule(p, 1, cx, "b", 2, Words("R"));
    GetRule(p, 1, cx, "i", 3, WORD);
    ElemRule(p, 1, cx, b, i, "R");
    CallRule(p, cx, ["R"], b, "R");
    SetRule(p, 1, cx, Elem(b, i), Call("first", ["R"], [b]));
    NumRule(p, 1, Inside(), 0);
    GetRule(p, 1, Inside(), "b", 2, Words("R"));
    LengthRule(p, 1, Inside(), b, "R");
    assert InnerCx(CxAfter(Inside(), Loop(), [WORD])) == cx;
    ForRule(p, 1, Inside(), "i", Num(0), Length(b), Loop().body, []);
  }

  lemma LoopAndCallAreAccepted(p: Program)
    requires 1 <= |p.fns| && p.fns[0] == First()
    ensures Accepts(p, 1, Inside(), Region().body.s2, [WORD] + [])
  {
    hide HasType, Accepts, Find, Loop;
    NamesInScope();
    LoopIsAccepted(p);
    AfterLoop();
    var after := CxAfter(Inside(), Loop(), [WORD]);
    GetRule(p, 1, after, "b", 2, Words("R"));
    GetRule(p, 1, after, "s", 0, WORD);
    CallRule(p, after, ["R"], Get("b"), "R");
    SetRule(p, 1, after, Get("s"), Call("first", ["R"], [Get("b")]));
    SeqRule(p, 1, Inside(), Region().body.s2, [WORD], []);
  }

  lemma RegionIsAccepted(p: Program)
    requires 1 <= |p.fns| && p.fns[0] == First()
    ensures Accepts(p, 1, Scope(), Region(), [])
  {
    hide HasType, Accepts, Find, Loop;
    NamesInScope();
    var cx0, body := InnerCx(Scope()).(handles := Scope().handles + ["R"]), Region().body;
    GetRule(p, 1, cx0, "s", 0, WORD);
    NumRule(p, 1, cx0, 5);
    FillRule(p, 1, cx0, Get("s"), Num(5));
    DeclareRule(p, 1, cx0, body.s1, body.s1.e, Words("R"));
    assert CxAfter(cx0, body.s1, [Words("R")]) == Inside();
    LoopAndCallAreAccepted(p);
    SeqRule(p, 1, cx0, body, [Words("R")], [WORD] + []);
    OnRule(p, 1, Scope(), "R", body, [Words("R")] + ([WORD] + []));
  }

  lemma AfterLoop()
    ensures CxAfter(Inside(), Loop(), [WORD]) == InLoop().(depth := 1) && |Declared(Loop(), 1)| == 1
  {
  }

  lemma MainIsAccepted(p: Program)
    requires |p.fns| == 2 && p.fns[0] == First() && p.fns[1] == Fn("main", ["d"], [], VoidT, Body(), None)
    requires PAIR in p.classes && "f" in p.classes[PAIR]
    ensures AcceptsFn(p, 1, true)
  {
    hide HasType, Accepts, Region, Countdown;
    var cx0, s, lit := Cx([], [], 0, ["d"], true), Body(), Lit([Num(3), Num(4)]);
    assert FnCx(p.fns[1], true) == cx0;
    NumRule(p, 1, cx0, 3);
    NumRule(p, 1, cx0, 4);
    LitRule(p, 1, cx0, Num(3), Num(4));
    CallRule(p, cx0, [], lit, "d");
    DeclareRule(p, 1, cx0, s.s1, s.s1.e, WORD);
    var cx1 := CxAfter(cx0, s.s1, [WORD]);
    NewRule(p, 1, cx1, PAIR);
    DeclareRule(p, 1, cx1, s.s2.s1, s.s2.s1.e, ClsT(PAIR, "d"));
    assert CxAfter(cx1, s.s2.s1, [ClsT(PAIR, "d")]) == Scope();
    RegionIsAccepted(p);
    CountdownIsAccepted(p);
    NothingDeclared();
    SeqRule(p, 1, Scope(), s.s2.s2, [], []);
    SeqRule(p, 1, cx1, s.s2, [ClsT(PAIR, "d")], [] + []);
    SeqRule(p, 1, cx0, s, [WORD], [ClsT(PAIR, "d")] + ([] + []));
  }

  lemma NothingDeclared()
    ensures Declared(Region(), 0) == [] && Declared(Countdown(), 0) == [] && CxAfter(Scope(), Region(), []) == Scope()
  {
  }

  // ---------- Names with values ----------

  lemma FirstIsSure()
    ensures Definite.FnSure(First())
  {
    var fn := First();
    assert ParamTags(fn.params) + Declared(fn.body, 0) == [Tag("a", false, 0)];
    assert Definite.AllSure(1) + Definite.Marks(fn.body, 0) == [true] && Definite.AllSure(1) == [true];
    assert Find([Tag("a", false, 0)], "a") == Some(0);
  }

  lemma MainIsSure(fn: Fn)
    requires fn == Fn("main", ["d"], [], VoidT, Body(), None)
    ensures Definite.FnSure(fn)
  {
    hide Find, Region, Countdown;
    var s := Body();
    var none: seq<bool> := [];
    assert ParamTags(fn.params) == [] && Definite.AllSure(0) == none;
    assert Definite.StmtSure([], none, 0, s.s1);
    var ts := [] + Declared(s.s1, 0);
    assert ts == [Tag("s", true, 0)] && none + Definite.Marks(s.s1, 0) == [true];
    assert ts + Declared(s.s2.s1, 0) == Scope().tags && [true] + Definite.Marks(s.s2.s1, 0) == [true, true];
    RegionIsSure();
    CountdownIsSure();
    NothingMarked();
    assert Scope().tags + [] == Scope().tags && [true, true] + none == [true, true];
    assert Definite.StmtSure(Scope().tags, [true, true], 0, s.s2.s2);
    assert Definite.StmtSure(ts, [true], 0, s.s2);
  }

  lemma NothingMarked()
    ensures Declared(Region(), 0) == [] && Definite.Marks(Region(), 0) == []
  {
  }

  lemma RegionIsSure()
    ensures Definite.StmtSure(Scope().tags, [true, true], 0, Region())
  {
    hide Find, Loop;
    NamesInScope();
    var body := Region().body;
    assert Scope().tags + Declared(body.s1, 1) == Inside().tags && [true, true] + Definite.Marks(body.s1, 1) == [true, true, true];
    LoopIsSure();
    AfterLoop();
    assert Inside().tags + Declared(Loop(), 1) == InLoop().tags;
    assert [true, true, true] + Definite.Marks(Loop(), 1) == [true, true, true, false];
    assert Definite.StmtSure(InLoop().tags, [true, true, true, false], 1, body.s2.s2);
    assert Definite.StmtSure(Inside().tags, [true, true, true], 1, body.s2);
  }

  lemma LoopIsSure()
    ensures Definite.StmtSure(Inside().tags, [true, true, true], 1, Loop()) && Definite.Marks(Loop(), 1) == [false]
    ensures Declared(Loop(), 1) == [Tag("i", false, 1)]
  {
    hide Find;
    NamesInScope();
    assert [true, true, true] + [true] == [true, true, true, true];
    assert Definite.StmtSure(InLoop().tags, [true, true, true, true], 2, Loop().body);
  }

  lemma CountdownIsSure()
    ensures Definite.StmtSure(Scope().tags, [true, true], 0, Countdown())
  {
    hide Find;
    NamesInScope();
    var body := Countdown().body;
    assert Scope().tags + Declared(body.thn, 1) == Scope().tags && Definite.Unsure(0) == [];
    assert [true, true] + Definite.Unsure(|Declared(body.thn, 1)|) == [true, true];
  }

  // ---------- All checks ----------

  lemma SampleIsSmall()
    ensures Compiled.SmallStmt(Body())
  {
    hide Region, Countdown;
    var s := Body();
    assert Compiled.SmallStmt(s.s1) && Compiled.SmallStmt(s.s2.s1);
    RegionIsSmall();
    CountdownIsSmall();
    assert Compiled.SmallStmt(s.s2.s2);
    assert Compiled.SmallStmt(s.s2);
  }

  lemma CountdownIsSmall()
    ensures Compiled.SmallStmt(Countdown())
  {
    var body := Countdown().body;
    assert Compiled.SmallStmt(body.thn) && Compiled.SmallStmt(body.els) && Compiled.SmallExpr(body.c);
  }

  lemma RegionIsSmall()
    ensures Compiled.SmallStmt(Region())
  {
    hide Loop;
    LoopIsSmall();
    var body := Region().body;
    assert Compiled.SmallStmt(body.s1) && Compiled.SmallStmt(body.s2.s2);
    assert Compiled.SmallStmt(body.s2);
  }

  lemma LoopIsSmall()
    ensures Compiled.SmallStmt(Loop())
  {
    assert Compiled.SmallStmt(Loop().body);
  }

  /** The program meets the conditions of the theorems about compiled programs. */
  lemma SampleIsAccepted(p: Program)
    requires p == Whole()
    ensures ProgramOk(p, true) && Definite.FnsSure(p, |p.fns|) && Compiled.Small(p)
  {
    hide AcceptsFn, ProgramOk, Definite.FnSure, Compiled.SmallStmt, Body;
    FirstIsAccepted(p);
    MainIsAccepted(p);
    ProgramIsExact(p, true);
    FirstIsSure();
    MainIsSure(p.fns[1]);
    SampleIsSmall();
    FirstIsSmall();
  }

  lemma FirstIsSmall()
    ensures Compiled.SmallStmt(First().body) && Compiled.SmallExpr(First().result.value)
  {
  }
}
