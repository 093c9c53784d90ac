// The parser reads exactly the trees the grammar derives, so the grammar is unambiguous.
module Parsing {
  import opened Basics
  import opened Grammar

  // ---------- Soundness ----------

  lemma {:induction false} SoundParse(level: nat, ts: seq<Token>, i: nat)
    requires Parse(level, ts, i).Some?
    ensures Derives(level, ts, i, Parse(level, ts, i).value.1, Parse(level, ts, i).value.0)
    decreases if i < |ts| then |ts| - i else 0, Rank(level), 0
  {
    if level >= 3 {
      var a := ParseAtom(ts, i).value;
      SoundAtom(ts, i);
      SoundPostfix(ts, i, a.1, a.0);
      DerivesAtLevel3(level, ts, i, Parse(level, ts, i).value.1, Parse(level, ts, i).value.0);
    } else {
      var a := Parse(level + 1, ts, i).value;
      SoundParse(level + 1, ts, i);
      SoundBinary(level, ts, i, a.1, a.0);
    }
  }

  lemma DerivesAtLevel3(level: nat, ts: seq<Token>, i: nat, j: nat, t: Tree)
    requires level >= 3 && j <= |ts|
    ensures Derives(level, ts, i, j, t) == Derives(3, ts, i, j, t)
  {
  }

  lemma {:induction false} SoundBinary(level: nat, ts: seq<Token>, start: nat, i: nat, l: Tree)
    requires level < 3 && i <= |ts| && Derives(level, ts, start, i, l)
    requires ParseBinary(level, ts, i, l).Some?
    ensures Derives(level, ts, start, ParseBinary(level, ts, i, l).value.1, ParseBinary(level, ts, i, l).value.0)
    decreases |ts| - i, 10, 0
  {
    if i < |ts| && OperatorAt(level, ts[i]).Some? {
      var a := Parse(level + 1, ts, i + 1).value;
      SoundParse(level + 1, ts, i + 1);
      var b := Binary(OperatorAt(level, ts[i]).value, l, a.0);
      assert DerivesBinary(level, ts, start, a.1, b);
      SoundBinary(level, ts, start, a.1, b);
    }
  }

  lemma {:induction false} SoundPostfix(ts: seq<Token>, start: nat, i: nat, base: Tree)
    requires i <= |ts| && Derives(3, ts, start, i, base)
    requires ParsePostfix(ts, i, base).Some?
    ensures Derives(3, ts, start, ParsePostfix(ts, i, base).value.1, ParsePostfix(ts, i, base).value.0)
    decreases |ts| - i, 0, 1
  {
    if i == |ts| {
    } else if ts[i] == Dot {
      var b := Child(base, ts[i + 1].s);
      assert DerivesPostfix(ts, start, i + 2, b);
      SoundPostfix(ts, start, i + 2, b);
    } else if ts[i] == LBracket {
      SoundElement(ts, start, i, base);
    } else if ts[i] == LParen || ts[i].AmpIdentifier? {
      var rs := ParseRegions(ts, i).value;
      SoundRegions(ts, i);
      SoundCall(ts, start, i, rs.1, base, rs.0);
    }
  }

  lemma {:induction false} SoundElement(ts: seq<Token>, start: nat, i: nat, base: Tree)
    requires i < |ts| && ts[i] == LBracket && Derives(3, ts, start, i, base)
    requires ParsePostfix(ts, i, base).Some?
    ensures Derives(3, ts, start, ParsePostfix(ts, i, base).value.1, ParsePostfix(ts, i, base).value.0)
    decreases |ts| - i, 0, 0
  {
    hide Derives, Parse;
    var a := Parse(0, ts, i + 1).value;
    SoundParse(0, ts, i + 1);
    IntroElement(ts, start, i, a.1 + 1, base, a.0);
    SoundPostfix(ts, start, a.1 + 1, Element(base, a.0));
  }

  lemma {:induction false} SoundCall(ts: seq<Token>, start: nat, m: nat, p: nat, fn: Tree, regions: seq<string>)
    requires m <= p <= |ts| && Derives(3, ts, start, m, fn) && Regions(ts, m, p, regions)
    requires ParseCall(ts, p, fn, regions).Some?
    ensures Derives(3, ts, start, ParseCall(ts, p, fn, regions).value.1, ParseCall(ts, p, fn, regions).value.0)
    decreases |ts| - p, 0, 0
  {
    hide Derives, DerivesArgs, Regions, ParseArgs, ParsePostfix;
    if p + 1 < |ts| && ts[p + 1] == RParen {
      IntroCall(ts, start, m, p, p + 2, fn, regions, []);
      SoundPostfix(ts, start, p + 2, Call(fn, regions, []));
    } else {
      var a := ParseArgs(ts, p + 1).value;
      SoundArgs(ts, p + 1);
      ArgsNonempty(ts, p + 1, a.1, a.0);
      IntroCall(ts, start, m, p, a.1 + 1, fn, regions, a.0);
      SoundPostfix(ts, start, a.1 + 1, Call(fn, regions, a.0));
    }
  }

  lemma ArgsNonempty(ts: seq<Token>, i: nat, j: nat, args: seq<Tree>)
    requires j <= |ts| && DerivesArgs(ts, i, j, args)
    ensures args != []
  {
  }

  lemma IntroCall(ts: seq<Token>, start: nat, m: nat, p: nat, j: nat, fn: Tree, regions: seq<string>, args: seq<Tree>)
    requires m <= p && p + 1 < j <= |ts| && ts[p] == LParen && ts[j - 1] == RParen
    requires Derives(3, ts, start, m, fn) && Regions(ts, m, p, regions)
    requires if args == [] then p + 1 == j - 1 else DerivesArgs(ts, p + 1, j - 1, args)
    ensures Derives(3, ts, start, j, Call(fn, regions, args))
  {
    hide Regions, DerivesArgs;
    assert DerivesCall(ts, start, j, fn, regions, args);
  }

  lemma IntroElement(ts: seq<Token>, start: nat, m: nat, j: nat, arr: Tree, idx: Tree)
    requires m < j - 1 < |ts| && ts[m] == LBracket && ts[j - 1] == RBracket
    requires Derives(3, ts, start, m, arr) && Derives(0, ts, m + 1, j - 1, idx)
    ensures Derives(3, ts, start, j, Element(arr, idx))
  {
    assert DerivesElement(ts, start, j, arr, idx);
  }

  lemma {:induction false} SoundAtom(ts: seq<Token>, i: nat)
    requires ParseAtom(ts, i).Some?
    ensures DerivesAtom(ts, i, ParseAtom(ts, i).value.1, ParseAtom(ts, i).value.0)
    decreases if i < |ts| then |ts| - i else 0, 0, 0
  {
    if ts[i] == LParen {
      SoundParse(0, ts, i + 1);
    } else if ts[i] == LBracket {
      SoundBracket(ts, i + 1);
    }
  }

  lemma {:induction false} SoundBracket(ts: seq<Token>, i: nat)
    requires ParseBracket(ts, i).Some?
    ensures DerivesBracket(ts, i, ParseBracket(ts, i).value.1 - 1, ParseBracket(ts, i).value.0)
    ensures ts[ParseBracket(ts, i).value.1 - 1] == RBracket
    decreases if i < |ts| then |ts| - i else 0, 20, 0
  {
    var a := Parse(0, ts, i).value;
    SoundParse(0, ts, i);
    if a.1 < |ts| && ts[a.1] == Semicolon {
      var b := Parse(0, ts, a.1 + 1).value;
      SoundParse(0, ts, a.1 + 1);
      assert DerivesInitializer(ts, i, b.1, a.0, b.0);
    } else {
      SoundMoreArgs(ts, i, a.1, [a.0]);
    }
  }

  lemma {:induction false} SoundArgs(ts: seq<Token>, i: nat)
    requires ParseArgs(ts, i).Some?
    ensures DerivesArgs(ts, i, ParseArgs(ts, i).value.1, ParseArgs(ts, i).value.0)
    decreases if i < |ts| then |ts| - i else 0, 20, 0
  {
    SoundParse(0, ts, i);
    SoundMoreArgs(ts, i, Parse(0, ts, i).value.1, [Parse(0, ts, i).value.0]);
  }

  lemma {:induction false} SoundMoreArgs(ts: seq<Token>, start: nat, i: nat, args: seq<Tree>)
    requires i <= |ts| && DerivesArgs(ts, start, i, args) && ParseMoreArgs(ts, i, args).Some?
    ensures DerivesArgs(ts, start, ParseMoreArgs(ts, i, args).value.1, ParseMoreArgs(ts, i, args).value.0)
    decreases |ts| - i, 0, 0
  {
    if i < |ts| && ts[i] == Comma {
      var a := Parse(0, ts, i + 1).value;
      SoundParse(0, ts, i + 1);
      var more := args + [a.0];
      assert more[..|more| - 1] == args;
      assert DerivesArgs(ts, start, a.1, more);
      SoundMoreArgs(ts, start, a.1, more);
    }
  }

  lemma {:induction false} SoundRegions(ts: seq<Token>, i: nat)
    requires i <= |ts| && ParseRegions(ts, i).Some?
    ensures Regions(ts, i, ParseRegions(ts, i).value.1, ParseRegions(ts, i).value.0)
  {
    if i < |ts| && ts[i].AmpIdentifier? { SoundMoreRegions(ts, i, i + 1, [ts[i].s]); }
  }

  lemma {:induction false} SoundMoreRegions(ts: seq<Token>, start: nat, i: nat, rs: seq<string>)
    requires start <= i <= |ts| && RegionList(ts, start, i, rs) && ParseMoreRegions(ts, i, rs).Some?
    ensures RegionList(ts, start, ParseMoreRegions(ts, i, rs).value.1, ParseMoreRegions(ts, i, rs).value.0)
    decreases |ts| - i
  {
    if i < |ts| && ts[i] == Comma {
      var more := rs + [ts[i + 1].s];
      assert more[..|more| - 1] == rs;
      SoundMoreRegions(ts, start, i + 2, more);
    }
  }

  // ---------- Completeness ----------

  // A token that goes on with an expression of this level or a tighter one.
  predicate Continues(level: nat, t: Token) {
    || t == Dot || t == LBracket || t == LParen || t.AmpIdentifier?
    || (level <= 2 && OperatorAt(2, t).Some?)
    || (level <= 1 && OperatorAt(1, t).Some?)
    || (level <= 0 && OperatorAt(0, t).Some?)
  }

  function Rest(level: nat, ts: seq<Token>, j: nat, t: Tree): Option<(Tree, nat)>
    requires j <= |ts|
  {
    if level >= 3 then ParsePostfix(ts, j, t) else ParseBinary(level, ts, j, t)
  }

  // Once the parser has read the tokens of a derivation it holds the derived tree, and goes on from there.
  lemma {:induction false} CompleteParse(level: nat, ts: seq<Token>, i: nat, j: nat, t: Tree)
    requires level <= 3 && j <= |ts| && Derives(level, ts, i, j, t)
    requires level < 3 && j < |ts| ==> !Continues(level + 1, ts[j])
    ensures Parse(level, ts, i) == Rest(level, ts, j, t)
    decreases if i < j then j - i else 0, Rank(level)
  {
    if level == 3 {
      if DerivesAtom(ts, i, j, t) {
        CompleteAtom(ts, i, j, t);
      } else {
        CompletePostfix(ts, i, j, t);
      }
    } else if Derives(level + 1, ts, i, j, t) {
      CompleteParse(level + 1, ts, i, j, t);
    } else {
      CompleteBinary(level, ts, i, j, t);
    }
  }

  lemma {:induction false} CompleteBinary(level: nat, ts: seq<Token>, i: nat, j: nat, t: Tree)
    requires level < 3 && i < j <= |ts| && DerivesBinary(level, ts, i, j, t)
    requires j < |ts| ==> !Continues(level + 1, ts[j])
    ensures Parse(level, ts, i) == ParseBinary(level, ts, j, t)
    decreases j - i, 0
  {
    var m: nat :| i < m < j - 1 && OperatorAt(level, ts[m]) == Some(t.op)
      && Derives(level, ts, i, m, t.l) && Derives(level + 1, ts, m + 1, j, t.r);
    CompleteParse(level, ts, i, m, t.l);
    CompleteParse(level + 1, ts, m + 1, j, t.r);
    assert Parse(level + 1, ts, m + 1) == Some((t.r, j));
  }

  lemma CompleteExpression(ts: seq<Token>, i: nat, j: nat, t: Tree)
    requires j <= |ts| && Derives(0, ts, i, j, t)
    requires j < |ts| ==> !Continues(0, ts[j])
    ensures Parse(0, ts, i) == Some((t, j))
    decreases if i < j then j - i else 0, 8
  {
    CompleteParse(0, ts, i, j, t);
  }

  lemma {:induction false} CompletePostfix(ts: seq<Token>, i: nat, j: nat, t: Tree)
    requires i < j <= |ts| && DerivesPostfix(ts, i, j, t)
    ensures Parse(3, ts, i) == ParsePostfix(ts, j, t)
    decreases j - i, 0, 1
  {
    match t
    case Child(base, name) =>
      CompleteParse(3, ts, i, j - 2, base);
    case Element(arr, idx) =>
      CompleteElement(ts, i, j, arr, idx);
    case Call(fn, regions, args) =>
      CompleteCall(ts, i, j, fn, regions, args);
  }

  lemma {:induction false} CompleteElement(ts: seq<Token>, i: nat, j: nat, arr: Tree, idx: Tree)
    requires i < j <= |ts| && DerivesElement(ts, i, j, arr, idx)
    ensures Parse(3, ts, i) == ParsePostfix(ts, j, Element(arr, idx))
    decreases j - i, 0, 0
  {
    var m: nat :| i < m < j - 1 && ts[m] == LBracket && Derives(3, ts, i, m, arr) && Derives(0, ts, m + 1, j - 1, idx);
    CompleteParse(3, ts, i, m, arr);
    CompleteExpression(ts, m + 1, j - 1, idx);
  }

  lemma {:induction false} CompleteCall(ts: seq<Token>, i: nat, j: nat, fn: Tree, regions: seq<string>, args: seq<Tree>)
    requires i < j <= |ts| && DerivesCall(ts, i, j, fn, regions, args)
    ensures Parse(3, ts, i) == ParsePostfix(ts, j, Call(fn, regions, args))
    decreases j - i, 0, 0
  {
    hide Derives, DerivesArgs, Parse, ParsePostfix, ParseCall, ParseRegions, Regions;
    var m: nat, p: nat :|
      && i < m <= p < j - 1 && ts[p] == LParen
      && Derives(3, ts, i, m, fn)
      && Regions(ts, m, p, regions)
      && (if args == [] then p + 1 == j - 1 else DerivesArgs(ts, p + 1, j - 1, args));
    CompleteParse(3, ts, i, m, fn);
    CompleteRegions(ts, m, p, regions);
    if args != [] { CompleteArgList(ts, p + 1, j - 1, args); }
    CallStep(ts, m, p, j, fn, regions, args);
  }

  lemma {:induction false} CompleteArgList(ts: seq<Token>, i: nat, j: nat, args: seq<Tree>)
    requires j < |ts| && DerivesArgs(ts, i, j, args) && ts[j] == RParen
    ensures ParseArgs(ts, i) == Some((args, j)) && ts[i] != RParen
    decreases if i < j then j - i else 0, 20
  {
    hide Derives, Parse, DerivesArgs;
    var m := CompleteArgs(ts, i, j, args);
    NoParse(ts, i);
  }

  lemma CallStep(ts: seq<Token>, m: nat, p: nat, j: nat, fn: Tree, regions: seq<string>, args: seq<Tree>)
    requires m <= p && p + 1 < j <= |ts| && ts[p] == LParen && ts[j - 1] == RParen
    requires ts[m] == LParen || ts[m].AmpIdentifier?
    requires ParseRegions(ts, m) == Some((regions, p))
    requires if args == [] then p + 1 == j - 1 else ts[p + 1] != RParen && ParseArgs(ts, p + 1) == Some((args, j - 1))
    ensures ParsePostfix(ts, m, fn) == ParsePostfix(ts, j, Call(fn, regions, args))
  {
    hide Parse, ParseArgs, ParseRegions;
    assert ParseCall(ts, p, fn, regions) == ParsePostfix(ts, j, Call(fn, regions, args));
  }

  // No expression starts with a closing parenthesis.
  lemma NoParse(ts: seq<Token>, i: nat)
    requires i < |ts|
    ensures ts[i] == RParen ==> Parse(0, ts, i).None?
  {
    assert ts[i] == RParen ==> Parse(3, ts, i).None?;
    assert ts[i] == RParen ==> Parse(2, ts, i).None?;
    assert ts[i] == RParen ==> Parse(1, ts, i).None?;
  }

  lemma {:induction false} CompleteAtom(ts: seq<Token>, i: nat, j: nat, t: Tree)
    requires i < j <= |ts| && DerivesAtom(ts, i, j, t)
    ensures ParseAtom(ts, i) == Some((t, j))
    decreases j - i, 0
  {
    if ts[i] == LParen {
      CompleteExpression(ts, i + 1, j - 1, t);
    } else if ts[i] == LBracket {
      CompleteBracket(ts, i + 1, j - 1, t);
    }
  }

  lemma {:induction false} CompleteBracket(ts: seq<Token>, i: nat, j: nat, t: Tree)
    requires i < j < |ts| && DerivesBracket(ts, i, j, t) && ts[j] == RBracket
    ensures ParseBracket(ts, i) == Some((t, j + 1))
    decreases j - i, 21
  {
    if t.Literal? {
      CompleteLiteral(ts, i, j, t.args);
    } else {
      CompleteInitializer(ts, i, j, t.v, t.count);
    }
  }

  lemma {:induction false} CompleteLiteral(ts: seq<Token>, i: nat, j: nat, args: seq<Tree>)
    requires i < j < |ts| && DerivesArgs(ts, i, j, args) && ts[j] == RBracket
    ensures ParseBracket(ts, i) == Some((Literal(args), j + 1))
    decreases j - i, 20
  {
    hide Derives, Parse, DerivesArgs;
    var m := CompleteArgs(ts, i, j, args);
  }

  lemma {:induction false} CompleteInitializer(ts: seq<Token>, i: nat, j: nat, v: Tree, count: Tree)
    requires i < j < |ts| && DerivesInitializer(ts, i, j, v, count) && ts[j] == RBracket
    ensures ParseBracket(ts, i) == Some((Initializer(v, count), j + 1))
    decreases j - i, 20
  {
    hide Derives, Parse, ParseMoreArgs;
    var m: nat :| i < m < j - 1 && ts[m] == Semicolon && Derives(0, ts, i, m, v) && Derives(0, ts, m + 1, j, count);
    CompleteExpression(ts, i, m, v);
    CompleteExpression(ts, m + 1, j, count);
  }

  lemma MoreArgsStep(ts: seq<Token>, i: nat, args: seq<Tree>, a: Tree, j: nat)
    requires i < |ts| && ts[i] == Comma && Parse(0, ts, i + 1) == Some((a, j))
    ensures ParseMoreArgs(ts, i, args) == ParseMoreArgs(ts, j, args + [a])
  {
    hide Parse;
  }

  // `m` is the end of the first argument.
  lemma {:induction false} CompleteArgs(ts: seq<Token>, i: nat, j: nat, args: seq<Tree>) returns (m: nat)
    requires j <= |ts| && DerivesArgs(ts, i, j, args)
    requires j < |ts| ==> !Continues(0, ts[j])
    ensures args != [] && Parse(0, ts, i) == Some((args[0], m)) && i < m <= j && (m < j ==> ts[m] == Comma)
    ensures ParseMoreArgs(ts, m, [args[0]]) == ParseMoreArgs(ts, j, args)
    decreases if i < j then j - i else 0, 10
  {
    hide Derives, Parse, ParseMoreArgs, DerivesArgs;
    var c := SplitArgs(ts, i, j, args);
    var n := |args| - 1;
    CompleteExpression(ts, if n == 0 then i else c + 1, j, args[n]);
    if n == 0 {
      m := j;
      assert args == [args[0]];
    } else {
      m := CompleteArgs(ts, i, c, args[..n]);
      MoreArgsStep(ts, c, args[..n], args[n], j);
      assert args[..n] + [args[n]] == args;
    }
  }

  lemma SplitArgs(ts: seq<Token>, i: nat, j: nat, args: seq<Tree>) returns (c: nat)
    requires j <= |ts| && DerivesArgs(ts, i, j, args)
    ensures i < j && args != []
    ensures |args| == 1 ==> Derives(0, ts, i, j, args[0])
    ensures |args| > 1 ==>
              && i < c < j - 1 && ts[c] == Comma
              && DerivesArgs(ts, i, c, args[..|args| - 1]) && Derives(0, ts, c + 1, j, args[|args| - 1])
  {
    hide Derives;
    var n := |args| - 1;
    c := 0;
    if n > 0 {
      c :| i < c < j - 1 && ts[c] == Comma && DerivesArgs(ts, i, c, args[..n]) && Derives(0, ts, c + 1, j, args[n]);
    }
  }

  lemma {:induction false} CompleteRegions(ts: seq<Token>, m: nat, p: nat, rs: seq<string>)
    requires m <= p < |ts| && Regions(ts, m, p, rs) && ts[p] == LParen
    ensures ParseRegions(ts, m) == Some((rs, p))
    ensures ts[m] == LParen || ts[m].AmpIdentifier?
  {
    if rs != [] { CompleteRegionList(ts, m, p, rs); }
  }

  lemma {:induction false} CompleteRegionList(ts: seq<Token>, m: nat, p: nat, rs: seq<string>)
    requires m <= p <= |ts| && RegionList(ts, m, p, rs)
    ensures m < p && ts[m].AmpIdentifier?
    ensures ParseMoreRegions(ts, m + 1, [ts[m].s]) == ParseMoreRegions(ts, p, rs)
    decreases |rs|
  {
    if |rs| == 1 {
      assert rs == [rs[0]];
    } else {
      CompleteRegionList(ts, m, p - 2, rs[..|rs| - 1]);
      assert rs[..|rs| - 1] + [rs[|rs| - 1]] == rs;
    }
  }

  // ---------- Main results ----------

  // The whole token list as one expression.
  function ParseAll(ts: seq<Token>): Option<Tree> {
    match Parse(0, ts, 0)
    case Some(a) => if a.1 == |ts| then Some(a.0) else None
    case None => None
  }

  lemma ParserIsTheGrammar(ts: seq<Token>, t: Tree)
    ensures ParseAll(ts) == Some(t) <==> Derives(0, ts, 0, |ts|, t)
  {
    if ParseAll(ts) == Some(t) { SoundParse(0, ts, 0); }
    if Derives(0, ts, 0, |ts|, t) { CompleteExpression(ts, 0, |ts|, t); }
  }

  lemma GrammarIsUnambiguous(ts: seq<Token>, t: Tree, u: Tree)
    requires Derives(0, ts, 0, |ts|, t) && Derives(0, ts, 0, |ts|, u)
    ensures t == u
  {
    ParserIsTheGrammar(ts, t);
    ParserIsTheGrammar(ts, u);
  }

  // A tighter expression is an expression of every looser level.
  lemma {:induction false} Loosen(level: nat, tight: nat, ts: seq<Token>, i: nat, j: nat, t: Tree)
    requires level <= tight <= 3 && i < j <= |ts| && Derives(tight, ts, i, j, t)
    ensures Derives(level, ts, i, j, t)
    decreases tight - level
  {
    if level < tight { Loosen(level + 1, tight, ts, i, j, t); }
  }

  lemma ChainDerives(level: nat, ts: seq<Token>, i: nat, m: nat, j: nat, l: Tree, op: Operator, r: Tree)
    requires level < 3 && i < m < j - 1 < |ts| && OperatorAt(level, ts[m]) == Some(op)
    requires Derives(level, ts, i, m, l) && Derives(level + 1, ts, m + 1, j, r)
    ensures Derives(level, ts, i, j, Binary(op, l, r))
  {
    assert DerivesBinary(level, ts, i, j, Binary(op, l, r));
  }

  // Of two operators the tighter one binds first, and of two as tight the left one: `*` and `/` before `+` and
  // `-`, and those before the comparisons.
  lemma Precedence(
    ts: seq<Token>, m: nat, n: nat, a: Tree, b: Tree, c: Tree, k1: nat, op1: Operator, k2: nat, op2: Operator)
    requires 0 < m < n - 1 < |ts| - 2 && k1 < 3 && k2 < 3
    requires Derives(3, ts, 0, m, a) && Derives(3, ts, m + 1, n, b) && Derives(3, ts, n + 1, |ts|, c)
    requires OperatorAt(k1, ts[m]) == Some(op1) && OperatorAt(k2, ts[n]) == Some(op2)
    ensures ParseAll(ts) ==
            Some(if k1 >= k2 then Binary(op2, Binary(op1, a, b), c) else Binary(op1, a, Binary(op2, b, c)))
  {
    hide Derives, ParseAll;
    Loosen(k1, 3, ts, 0, m, a);
    Loosen(k2 + 1, 3, ts, n + 1, |ts|, c);
    if k1 >= k2 {
      Loosen(k1 + 1, 3, ts, m + 1, n, b);
      ChainDerives(k1, ts, 0, m, n, a, op1, b);
      Loosen(k2, k1, ts, 0, n, Binary(op1, a, b));
      ChainDerives(k2, ts, 0, n, |ts|, Binary(op1, a, b), op2, c);
      Loosen(0, k2, ts, 0, |ts|, Binary(op2, Binary(op1, a, b), c));
      ParserIsTheGrammar(ts, Binary(op2, Binary(op1, a, b), c));
    } else {
      Loosen(k2, 3, ts, m + 1, n, b);
      ChainDerives(k2, ts, m + 1, n, |ts|, b, op2, c);
      Loosen(k1 + 1, k2, ts, m + 1, |ts|, Binary(op2, b, c));
      ChainDerives(k1, ts, 0, m, |ts|, a, op1, Binary(op2, b, c));
      Loosen(0, k1, ts, 0, |ts|, Binary(op1, a, Binary(op2, b, c)));
      ParserIsTheGrammar(ts, Binary(op1, a, Binary(op2, b, c)));
    }
  }
}
