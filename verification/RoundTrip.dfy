// Writing an expression, and reading the text back.
module RoundTrip {
  import opened Basics
  import opened Grammar
  import opened Parsing
  import opened Lexer

  // How each operator is written.
  function Spelling(op: Operator): (s: string)
    ensures s != []
  {
    match op
    case OpEq => "=="
    case OpLt => "<"
    case OpGt => ">"
    case OpLe => "<="
    case OpGe => ">="
    case OpAdd => "+"
    case OpSub => "-"
    case OpMul => "*"
    case OpDiv => "/"
  }

  predicate IsName(s: string) { IsRegion(s) && !Reserved(s) }

  predicate Reserved(s: string) {
    || s == "fn" || s == "return" || s == "let" || s == "var" || s == "class"
    || s == "if" || s == "else" || s == "while" || s == "for" || s == "on"
  }

  lemma ReservedAreKeywords(s: string)
    ensures Reserved(s) <==> s in KEYWORDS
  {
  }

  const LOWER := "abcdefghijklmnopqrstuvwxyz"
  const UPPER := "ABCDEFGHIJKLMNOPQRSTUVWXYZ"
  const DIGITS := "0123456789"

  // Names are made of the letters and digits of ASCII and the underscore, and start with a letter.
  lemma Alphabet(c: char)
    ensures IsRegion([c]) <==> c in LOWER || c in UPPER
    ensures IsRegion(['a', c]) <==> c in LOWER || c in UPPER || c in DIGITS || c == '_'
  {
    hide LOWER, UPPER, DIGITS;
    assert [c][0] == c && ['a', c][0] == 'a' && ['a', c][1] == c && c in ['a', c];
    InLower(c);
    InUpper(c);
    InDigits(c);
  }

  // The digits of octal, binary and hexadecimal literals.
  lemma Digits(c: char)
    ensures In(Octals, c) <==> c in "01234567"
    ensures In(Binaries, c) <==> c in "01"
    ensures In(Hexes, c) <==> c in DIGITS || c in "abcdefABCDEF"
  {
    hide DIGITS;
    InDigits(c);
    var hex, octal := "abcdefABCDEF", "01234567";
    if 'a' <= c <= 'f' { assert hex[c as int - 'a' as int] == c; }
    if 'A' <= c <= 'F' { assert hex[6 + c as int - 'A' as int] == c; }
    if '0' <= c <= '7' { assert octal[c as int - '0' as int] == c; }
  }

  lemma InDigits(c: char)
    ensures '0' <= c <= '9' <==> c in DIGITS
  {
    if '0' <= c <= '9' { assert DIGITS[c as int - '0' as int] == c; }
  }

  lemma InLower(c: char)
    ensures 'a' <= c <= 'z' <==> c in LOWER
  {
    if 'a' <= c <= 'z' { assert LOWER[c as int - 'a' as int] == c; }
  }

  lemma InUpper(c: char)
    ensures 'A' <= c <= 'Z' <==> c in UPPER
  {
    if 'A' <= c <= 'Z' { assert UPPER[c as int - 'A' as int] == c; }
  }

  // A region name follows an @, so a keyword is one too.
  predicate IsRegion(s: string) { s != [] && Letter(s[0]) && forall c :: c in s ==> Word(c) }

  // The expressions that a text can stand for: literals in range, proper names, no empty array literal.
  predicate Writable(t: Tree) {
    match t
    case ConstInt(n) => 0 <= n <= INT_MAX
    case Str(s) => '"' !in s && '\\' !in s
    case Name(s) => IsName(s)
    case Binary(op, l, r) => Writable(l) && Writable(r)
    case Child(base, name) => Writable(base) && IsName(name)
    case Element(arr, idx) => Writable(arr) && Writable(idx)
    case Call(fn, regions, args) =>
      Writable(fn) && (forall r :: r in regions ==> IsRegion(r)) && forall a :: a in args ==> Writable(a)
    case Literal(args) => args != [] && forall a :: a in args ==> Writable(a)
    case Initializer(v, count) => Writable(v) && Writable(count)
  }

  function Write(t: Tree): (s: string)
    requires Writable(t)
    decreases t
  {
    match t
    case ConstInt(n) => Decimal(n)
    case Str(s) => "\"" + s + "\""
    case Name(s) => s
    case Binary(op, l, r) => "(" + (Infix(op, Write(l), Write(r)) + ")")
    case Child(base, name) => Write(base) + ("." + name)
    case Element(arr, idx) => Write(arr) + ("[" + (Write(idx) + "]"))
    case Call(fn, regions, args) => Write(fn) + (WriteRegions(regions) + ("(" + (WriteArgs(args) + ")")))
    case Literal(args) => "[" + (WriteArgs(args) + "]")
    case Initializer(v, count) => "[" + (Write(v) + (";" + (Write(count) + "]")))
  }

  function Infix(op: Operator, l: string, r: string): string { l + (" " + (Spelling(op) + (" " + r))) }

  function WriteArgs(args: seq<Tree>): string
    requires forall a :: a in args ==> Writable(a)
    decreases args
  {
    if args == [] then ""
    else if |args| == 1 then Write(args[0])
    else WriteArgs(args[..|args| - 1]) + ("," + Write(args[|args| - 1]))
  }

  function WriteRegions(rs: seq<string>): string {
    if rs == [] then ""
    else if |rs| == 1 then "@" + rs[0]
    else WriteRegions(rs[..|rs| - 1]) + ("," + ("@" + rs[|rs| - 1]))
  }

  // ---------- Its tokens ----------

  function OperatorToken(op: Operator): Token {
    match op
    case OpEq => Equals
    case OpLt => Lt
    case OpGt => Gt
    case OpLe => Le
    case OpGe => Ge
    case OpAdd => Plus
    case OpSub => Minus
    case OpMul => Multiply
    case OpDiv => Divide
  }

  function TokensOf(t: Tree): (ts: seq<Token>)
    requires Writable(t)
    ensures ts != []
    decreases t
  {
    match t
    case ConstInt(n) => [Number(n)]
    case Str(s) => [Text(s)]
    case Name(s) => [Identifier(s)]
    case Binary(op, l, r) => [LParen] + (TokensOf(l) + ([OperatorToken(op)] + (TokensOf(r) + [RParen])))
    case Child(base, name) => TokensOf(base) + ([Dot] + [Identifier(name)])
    case Element(arr, idx) => TokensOf(arr) + ([LBracket] + (TokensOf(idx) + [RBracket]))
    case Call(fn, regions, args) => TokensOf(fn) + (TokensOfRegions(regions) + ([LParen] + (TokensOfArgs(args) + [RParen])))
    case Literal(args) => [LBracket] + (TokensOfArgs(args) + [RBracket])
    case Initializer(v, count) => [LBracket] + (TokensOf(v) + ([Semicolon] + (TokensOf(count) + [RBracket])))
  }

  function TokensOfArgs(args: seq<Tree>): (ts: seq<Token>)
    requires forall a :: a in args ==> Writable(a)
    ensures args != [] ==> ts != []
    decreases args
  {
    if args == [] then []
    else if |args| == 1 then TokensOf(args[0])
    else TokensOfArgs(args[..|args| - 1]) + ([Comma] + TokensOf(args[|args| - 1]))
  }

  function TokensOfRegions(rs: seq<string>): (ts: seq<Token>)
    ensures rs != [] ==> ts != []
  {
    if rs == [] then []
    else if |rs| == 1 then [AmpIdentifier(rs[0])]
    else TokensOfRegions(rs[..|rs| - 1]) + ([Comma] + [AmpIdentifier(rs[|rs| - 1])])
  }

  // ---------- Lexing ----------

  // The text s has the text t at i.
  ghost predicate Has(s: string, i: nat, t: string) { i + |t| <= |s| && s[i..i + |t|] == t }

  lemma HasParts(s: string, i: nat, a: string, b: string)
    requires Has(s, i, a + b)
    ensures Has(s, i, a) && Has(s, i + |a|, b)
  {
    assert s[i..i + |a|] == (a + b)[..|a|];
    assert s[i + |a|..i + |a| + |b|] == (a + b)[|a|..];
  }

  // Nothing after the text goes on with its last word.
  predicate Stops(s: string, i: nat) { i >= |s| || !Word(s[i]) }

  lemma {:induction false} RunIs(k: Class, s: string, i: nat, e: nat)
    requires i <= e <= |s| && (forall j :: i <= j < e ==> In(k, s[j])) && (e < |s| ==> !In(k, s[e]))
    ensures Run(k, s, i) == e
    decreases e - i
  {
    if i < e { RunIs(k, s, i + 1, e); }
  }

  lemma LexSpace(s: string, i: nat, last: int)
    requires Has(s, i, " ")
    ensures i + 1 <= |s| && Tokens(s, i, last) == Tokens(s, i + 1, last)
  {
    assert s[i] == " "[0];
  }

  // From i the text lexes to the tokens, and goes on at i + n.
  ghost predicate Lexes(s: string, i: nat, n: nat, ts: seq<Token>, last: int, now: int) {
    i + n <= |s| && Tokens(s, i, last) == ts + Tokens(s, i + n, now)
  }

  lemma LexesThen(s: string, i: nat, n: nat, ts: seq<Token>, last: int, mid: int, m: nat, us: seq<Token>, now: int)
    requires Lexes(s, i, n, ts, last, mid) && Lexes(s, i + n, m, us, mid, now)
    ensures Lexes(s, i, n + m, ts + us, last, now)
  {
    assert ts + (us + Tokens(s, i + n + m, now)) == (ts + us) + Tokens(s, i + n + m, now);
  }

  predicate Single(c: char, t: Token) {
    (c, t) in [('(', LParen), (')', RParen), ('.', Dot), ('[', LBracket), (']', RBracket), (',', Comma), (';', Semicolon)]
  }

  // One match that makes a token.
  lemma LexOne(s: string, i: nat, e: nat, rule: Rule, t: Token, last: int)
    requires i < e <= |s| && Match(s, i) == (rule, e) && rule != White && rule != Comment
    requires TokenOf(s, i, rule, e, last) == Some(t) && !t.Number?
    ensures Lexes(s, i, e - i, [t], last, last)
  {
    hide Match, TokenOf;
    assert Lex(s, i, last) == (Some(t), e);
  }

  // A character that is a token of its own.
  lemma LexSingle(s: string, i: nat, c: char, t: Token, last: int)
    requires Has(s, i, [c]) && Single(c, t)
    ensures Lexes(s, i, 1, [t], last, last)
  {
    hide Tokens, Lexes;
    CharAt(s, i, c);
    MatchSingle(s, i, t);
    LexOne(s, i, i + 1, Fixed(t), t, last);
  }

  lemma MatchSingle(s: string, i: nat, t: Token)
    requires i < |s| && Single(s[i], t)
    ensures Match(s, i) == (Fixed(t), i + 1)
  {
  }

  // A name after an @ loses it.
  lemma LexRegion(s: string, i: nat, r: string, last: int)
    requires IsRegion(r) && Has(s, i, "@" + r) && Stops(s, i + 1 + |r|)
    ensures Lexes(s, i, 1 + |r|, [AmpIdentifier(r)], last, last)
  {
    hide Tokens, Lexes;
    var e := i + 1 + |r|;
    HasParts(s, i, "@", r);
    CharAt(s, i, '@');
    assert forall j :: i + 1 <= j < e ==> s[j] == r[j - i - 1] && s[j] in r;
    RunIs(Words, s, i + 2, e);
    assert Match(s, i) == (AmpRule, e);
    LexOne(s, i, e, AmpRule, AmpIdentifier(r), last);
  }

  // A keyword is itself.
  lemma LexKeyword(s: string, i: nat, t: string, last: int)
    requires Reserved(t) && Has(s, i, t) && Stops(s, i + |t|)
    ensures Lexes(s, i, |t|, [Keyword(t)], last, last)
  {
    hide Tokens, Lexes, Match, Reserved, Has, Stops, KEYWORDS;
    ReservedAreKeywords(t);
    KeywordIsWord(t);
    WordIs(s, i, t);
    LexOne(s, i, i + |t|, KeyRule, Keyword(t), last);
  }

  // A word is matched as a whole, as a keyword or as an identifier.
  lemma WordIs(s: string, i: nat, t: string)
    requires t != "" && Letter(t[0]) && (forall c :: c in t ==> Word(c)) && Has(s, i, t) && Stops(s, i + |t|)
    ensures i + |t| <= |s| && s[i..i + |t|] == t && Match(s, i) == (if t in KEYWORDS then KeyRule else WordRule, i + |t|)
  {
    hide Match, KEYWORDS;
    var e := i + |t|;
    forall j | i <= j < e ensures Word(s[j]) { assert s[j] == t[j - i] && t[j - i] in t; }
    assert s[i] == t[0];
    MatchWord(s, i, e);
  }

  // A zero and octal digits are read in base 8, up to the first character that is none.
  lemma LexOctal(s: string, i: nat, n: nat, last: int)
    requires Has(s, i, "0" + Octal(n))
    requires i + 1 + |Octal(n)| < |s| ==> !In(Octals, s[i + 1 + |Octal(n)|])
    ensures Lexes(s, i, 1 + |Octal(n)|, [Number(n)], last, n)
  {
    hide Octal, ValueOf;
    var d, e := Octal(n), i + 1 + |Octal(n)|;
    OctalRoundTrip(n);
    LeadingZero(8, d);
    HasParts(s, i, "0", d);
    CharAt(s, i, '0');
    forall j | i + 1 <= j < e ensures In(Octals, s[j]) { assert s[j] == d[j - i - 1] && d[j - i - 1] in d; }
    RunIs(Octals, s, i + 1, e);
    assert s[i + 1] == d[0] && d[0] in d;
    assert Match(s, i) == (OctRule, e);
    assert Lex(s, i, last) == (Some(Number(n)), e);
  }

  // Binary and hexadecimal literals are as long as their digits, and have the value of the number before.
  lemma LexUnvalued(s: string, i: nat, x: char, d: string, last: int)
    requires x in "bBxX" && d != [] && Has(s, i, ['0', x] + d)
    requires forall c :: c in d ==> In(if x in "bB" then Binaries else Hexes, c)
    requires i + 2 + |d| < |s| ==> !In(if x in "bB" then Binaries else Hexes, s[i + 2 + |d|])
    ensures Lexes(s, i, 2 + |d|, [Number(last)], last, last)
  {
    var e, k := i + 2 + |d|, if x in "bB" then Binaries else Hexes;
    HasParts(s, i, ['0', x], d);
    assert s[i] == s[i..i + 2][0] && s[i + 1] == s[i..i + 2][1];
    forall j | i + 2 <= j < e ensures In(k, s[j]) { assert s[j] == d[j - i - 2] && d[j - i - 2] in d; }
    RunIs(k, s, i + 2, e);
    MatchPrefixed(s, i, k, e);
    assert Lex(s, i, last) == (Some(Number(last)), e);
  }

  lemma MatchPrefixed(s: string, i: nat, k: Class, e: nat)
    requires i + 2 < e <= |s| && s[i] == '0' && Run(k, s, i + 2) == e && In(k, s[i + 2])
    requires (k == Binaries && s[i + 1] in "bB") || (k == Hexes && s[i + 1] in "xX")
    ensures Match(s, i) == (if k == Binaries then BinRule else HexRule, e)
  {
  }

  // Every quote follows a backslash that is no part of an escape before it, and no such backslash is last.
  predicate Quotable(t: string, escape: bool) {
    if t == [] then !escape
    else if t[0] == '"' then escape && Quotable(t[1..], false)
    else Quotable(t[1..], t[0] == '\\')
  }

  // Such a text is read back from its literal, line ends and escaped quotes included.
  lemma LexText(s: string, i: nat, text: string, last: int)
    requires Quotable(text, false) && !HasPair(text)
    requires Has(s, i, "\"" + (Escape(text) + "\""))
    ensures Lexes(s, i, |Escape(text)| + 2, [Text(text)], last, last)
  {
    hide Has, Tokens, Match, Unescape, Escape, Lexes, HasPair, Stops, Ends, Body, StringEnd, Quotable;
    var x := Escape(text);
    HasParts(s, i, "\"", x + "\"");
    HasParts(s, i + 1, x, "\"");
    CharAt(s, i, '"');
    CharAt(s, i + 1 + |x|, '"');
    EscapeKeeps(text, false);
    assert s[i + 1..i + 1 + |x|] == x by { HasText(s, i + 1, x); }
    QuotedEnds(s, i + 1, i + 1 + |x|, false);
    MatchQuoted(s, i, i + 2 + |x|);
    UnescapeInverts(text);
    LexOne(s, i, i + 2 + |x|, StringRule, Text(text), last);
  }

  lemma HasText(s: string, i: nat, t: string)
    requires Has(s, i, t)
    ensures i + |t| <= |s| && s[i..i + |t|] == t
  {
  }

  lemma MatchQuoted(s: string, i: nat, e: nat)
    requires i < |s| && s[i] == '"' && StringEnd(s, i + 1, false) == Some(e)
    ensures Match(s, i) == (StringRule, e)
  {
  }

  lemma {:induction false} EscapeKeeps(t: string, escape: bool)
    requires Quotable(t, escape)
    ensures Quotable(Escape(t), escape)
  {
    if t != [] {
      hide Escape, Quotable;
      var x := Escape(t[1..]);
      assert t == [t[0]] + t[1..];
      QuotableCons(t[0], t[1..], escape);
      EscapeCons(t);
      if t[0] == '\n' {
        EscapeKeeps(t[1..], false);
        QuotableCons('n', x, true);
        QuotableCons('\\', ['n'] + x, escape);
      } else {
        EscapeKeeps(t[1..], if t[0] == '"' then false else t[0] == '\\');
        QuotableCons(t[0], x, escape);
      }
    }
  }

  lemma QuotableCons(c: char, x: string, escape: bool)
    ensures Quotable([c] + x, escape) <==> if c == '"' then escape && Quotable(x, false) else Quotable(x, c == '\\')
  {
    assert ([c] + x)[1..] == x;
  }

  lemma EscapeCons(t: string)
    requires t != []
    ensures Escape(t) == if t[0] == '\n' then ['\\'] + (['n'] + Escape(t[1..])) else [t[0]] + Escape(t[1..])
  {
  }

  lemma {:induction false} QuotedEnds(s: string, i: nat, e: nat, escape: bool)
    requires i <= e < |s| && s[e] == '"' && Quotable(s[i..e], escape)
    ensures StringEnd(s, i, escape) == Some(e + 1)
    decreases e - i
  {
    if i < e {
      assert s[i..e][1..] == s[i + 1..e];
      QuotedEnds(s, i + 1, e, s[i] == '\\');
    }
  }

  lemma MatchWord(s: string, i: nat, e: nat)
    requires i < e <= |s| && Letter(s[i]) && (forall j :: i <= j < e ==> Word(s[j])) && Stops(s, e)
    ensures Match(s, i) == (if s[i..e] in KEYWORDS then KeyRule else WordRule, e)
  {
    RunIs(Words, s, i + 1, e);
  }

  // White space and comments in front of a token change nothing.
  lemma LexSkips(s: string, i: nat, n: nat, last: int)
    requires i + n <= |s| && Skipped(s, i, n)
    ensures Lexes(s, i, n, [], last, last)
    decreases n
  {
    hide Tokens, Match;
    if n > 0 {
      if (s[i] == ' ' || s[i] == '\n') && Skipped(s, i + 1, n - 1) {
        LexSkips(s, i + 1, n - 1, last);
        MatchBlank(s, i);
        SkipOne(s, i, i + 1, White, last);
      } else {
        var k: nat :| IsComment(s, i, k) && k <= n && Skipped(s, i + k, n - k);
        LexSkips(s, i + k, n - k, last);
        MatchComment(s, i, k);
        SkipOne(s, i, i + k, Comment, last);
      }
    } else {
      assert [] + Tokens(s, i, last) == Tokens(s, i, last);
    }
  }

  lemma MatchBlank(s: string, i: nat)
    requires i < |s| && (s[i] == ' ' || s[i] == '\n')
    ensures Match(s, i) == (White, i + 1)
  {
  }

  lemma MatchComment(s: string, i: nat, k: nat)
    requires IsComment(s, i, k)
    ensures Match(s, i) == (Comment, i + k)
  {
    RunIs(NotNewline, s, i + 2, i + k - 1);
  }

  lemma SkipOne(s: string, i: nat, e: nat, rule: Rule, last: int)
    requires i < e <= |s| && Match(s, i) == (rule, e) && (rule == White || rule == Comment)
    ensures Tokens(s, i, last) == Tokens(s, e, last)
  {
    hide Match, TokenOf;
    assert Lex(s, i, last) == Lex(s, e, last);
  }

  ghost predicate IsComment(s: string, i: nat, k: nat) {
    && 3 <= k && i + k <= |s| && s[i] == '/' && s[i + 1] == '/' && s[i + k - 1] == '\n'
    && forall j :: i + 2 <= j < i + k - 1 ==> s[j] != '\n'
  }

  // n characters of blanks, line ends and whole comments.
  ghost predicate Skipped(s: string, i: nat, n: nat)
    requires i + n <= |s|
    decreases n
  {
    || n == 0
    || ((s[i] == ' ' || s[i] == '\n') && Skipped(s, i + 1, n - 1))
    || exists k: nat :: IsComment(s, i, k) && k <= n && Skipped(s, i + k, n - k)
  }

  // An operator between blanks.
  lemma LexOperator(s: string, i: nat, op: Operator, last: int)
    requires Has(s, i, " ") && Has(s, i + 1, Spelling(op)) && Has(s, i + 1 + |Spelling(op)|, " ")
    ensures Lexes(s, i, |Spelling(op)| + 2, [OperatorToken(op)], last, last)
  {
    hide Tokens, Match, Spelling, OperatorToken;
    var n := |Spelling(op)|;
    LexSpace(s, i, last);
    MatchOperator(s, i + 1, op);
    NoNumber(op);
    LexOne(s, i + 1, i + 1 + n, Fixed(OperatorToken(op)), OperatorToken(op), last);
    LexSpace(s, i + 1 + n, last);
  }

  lemma NoNumber(op: Operator)
    ensures !OperatorToken(op).Number?
  {
  }

  lemma MatchOperator(s: string, i: nat, op: Operator)
    requires Has(s, i, Spelling(op)) && Has(s, i + |Spelling(op)|, " ")
    ensures Match(s, i) == (Fixed(OperatorToken(op)), i + |Spelling(op)|)
  {
    var t := Spelling(op);
    CharAt(s, i + |t|, ' ');
    assert s[i] == s[i..i + |t|][0] == t[0];
    if |t| == 2 { assert s[i + 1] == s[i..i + |t|][1] == t[1]; }
  }

  lemma CharAt(s: string, i: nat, c: char)
    requires Has(s, i, [c])
    ensures i < |s| && s[i] == c
  {
    assert s[i] == [c][0];
  }

  lemma LexNumber(s: string, i: nat, n: nat, last: int)
    requires Has(s, i, Decimal(n)) && Stops(s, i + |Decimal(n)|)
    ensures i + |Decimal(n)| <= |s| && Tokens(s, i, last) == [Number(n)] + Tokens(s, i + |Decimal(n)|, n)
  {
    hide Lexer.Match, Decimal, ValueOf, Word, Stops;
    NumberMatches(s, i, n);
    DecimalRoundTrip(n);
    if n == 0 { OctalZero(); }
    assert Lex(s, i, last) == (Some(Number(n)), i + |Decimal(n)|);
  }

  lemma NumberMatches(s: string, i: nat, n: nat)
    requires Has(s, i, Decimal(n)) && Stops(s, i + |Decimal(n)|)
    ensures i + |Decimal(n)| <= |s| && Decimal(n) != []
    ensures Match(s, i) == (if n == 0 then OctRule else DecRule, i + |Decimal(n)|)
  {
    hide Lexer.Match, Decimal, ValueOf;
    var d := Decimal(n);
    var e := i + |d|;
    DecimalRoundTrip(n);
    forall j | i <= j < e ensures Digit(s[j]) { assert s[j] == d[j - i] && d[j - i] in d; }
    assert s[i] == d[0];
    DigitsMatch(s, i, e);
  }

  lemma DigitsMatch(s: string, i: nat, e: nat)
    requires i < e <= |s| && Stops(s, e) && (forall j :: i <= j < e ==> Digit(s[j])) && (s[i] == '0' ==> e == i + 1)
    ensures Match(s, i) == (if s[i] == '0' then OctRule else DecRule, e)
  {
    RunIs(if s[i] == '0' then Octals else Decimals, s, i + 1, e);
    assert Match(s, i) == MatchNumber(s, i);
  }

  lemma OctalZero()
    ensures ValueOf(8, "0") == 0
  {
    assert "0"[..0] == [];
    assert ValueOf(8, "0"[..0]) == 0;
  }

  lemma LexName(s: string, i: nat, name: string, last: int)
    requires IsName(name) && Has(s, i, name) && Stops(s, i + |name|)
    ensures i + |name| <= |s| && Tokens(s, i, last) == [Identifier(name)] + Tokens(s, i + |name|, last)
  {
    hide Tokens, Match, Reserved, Has, Stops, KEYWORDS;
    ReservedAreKeywords(name);
    WordIs(s, i, name);
    LexOne(s, i, i + |name|, WordRule, Identifier(name), last);
  }

  lemma {:induction false} PlainString(s: string, i: nat, e: nat)
    requires i <= e < |s| && s[e] == '"' && forall j :: i <= j < e ==> s[j] != '"' && s[j] != '\\'
    ensures StringEnd(s, i, false) == Some(e + 1)
    decreases e - i
  {
    if i < e { PlainString(s, i + 1, e); }
  }

  lemma {:induction false} PlainUnescape(s: string)
    requires '\\' !in s
    ensures Unescape(s) == s
  {
    if s != [] {
      assert s[0] in s;
      PlainUnescape(s[1..]);
      assert s == [s[0]] + s[1..];
    }
  }

  lemma StringMatches(s: string, i: nat, text: string)
    requires '"' !in text && '\\' !in text
    requires Has(s, i, "\"") && Has(s, i + 1, text) && Has(s, i + 1 + |text|, "\"")
    ensures i < |s| && Match(s, i) == (StringRule, i + |text| + 2) && s[i + 1..i + 1 + |text|] == text
  {
    var e := i + |text| + 1;
    CharAt(s, i, '"');
    CharAt(s, e, '"');
    assert forall j :: i + 1 <= j < e ==> s[j] == text[j - i - 1] && s[j] in text;
    PlainString(s, i + 1, e);
  }

  lemma LexString(s: string, i: nat, text: string, last: int)
    requires '"' !in text && '\\' !in text && Has(s, i, "\"" + text + "\"")
    ensures i + |text| + 2 <= |s| && Tokens(s, i, last) == [Text(text)] + Tokens(s, i + |text| + 2, last)
  {
    hide Has, Lexer.Match, Unescape;
    assert "\"" + text + "\"" == "\"" + (text + "\"");
    HasParts(s, i, "\"", text + "\"");
    HasParts(s, i + 1, text, "\"");
    StringMatches(s, i, text);
    PlainUnescape(text);
    assert Lex(s, i, last) == (Some(Text(text)), i + |text| + 2);
  }

  // A written expression lexes to its tokens, whatever follows, unless it goes on with the last word.
  lemma {:induction false} LexWritten(s: string, i: nat, t: Tree, last: int) returns (now: int)
    requires Writable(t) && Has(s, i, Write(t)) && Stops(s, i + |Write(t)|)
    ensures Lexes(s, i, |Write(t)|, TokensOf(t), last, now)
    decreases t, 1
  {
    hide Tokens, Has, Stops, IsName, Decimal, Lexer.Match;
    now := last;
    match t
    case ConstInt(n) => LexNumber(s, i, n, last); now := n;
    case Str(text) => LexString(s, i, text, last);
    case Name(name) => LexName(s, i, name, last);
    case Binary(_, _, _) => now := LexBinary(s, i, t, last);
    case Child(_, _) => now := LexChild(s, i, t, last);
    case Element(_, _) => now := LexElement(s, i, t, last);
    case Call(_, _, _) => now := LexCall(s, i, t, last);
    case Literal(_) => now := LexLiteral(s, i, t, last);
    case Initializer(_, _) => now := LexInitializer(s, i, t, last);
  }

  // The two operands and the operator between them.
  lemma {:induction false} LexInfix(s: string, i: nat, t: Tree, op: Operator, l: Tree, r: Tree, last: int) returns (now: int)
    requires l < t && r < t && Writable(l) && Writable(r) && Has(s, i, Infix(op, Write(l), Write(r)))
    requires Stops(s, i + |Infix(op, Write(l), Write(r))|)
    ensures Lexes(s, i, |Infix(op, Write(l), Write(r))|, TokensOf(l) + ([OperatorToken(op)] + TokensOf(r)), last, now)
    decreases t, 0, 0
  {
    hide Tokens, Has, Write, TokensOf, Lexes, Lexer.Match, Writable, Spelling;
    var a, b, o := Write(l), Write(r), Spelling(op);
    HasParts(s, i, a, " " + (o + (" " + b)));
    HasParts(s, i + |a|, " ", o + (" " + b));
    HasParts(s, i + |a| + 1, o, " " + b);
    HasParts(s, i + |a| + 1 + |o|, " ", b);
    CharAt(s, i + |a|, ' ');
    var mid := LexWritten(s, i, l, last);
    LexOperator(s, i + |a|, op, mid);
    now := LexWritten(s, i + |a| + |o| + 2, r, mid);
    LexesThen(s, i + |a|, |o| + 2, [OperatorToken(op)], mid, mid, |b|, TokensOf(r), now);
    LexesThen(s, i, |a|, TokensOf(l), last, mid, |o| + 2 + |b|, [OperatorToken(op)] + TokensOf(r), now);
  }

  // A piece between two single characters.
  lemma LexBetween(s: string, i: nat, open: char, n: nat, close: char, x: Token, ts: seq<Token>, y: Token, last: int, now: int)
    requires Single(open, x) && Single(close, y) && Has(s, i, [open]) && Has(s, i + 1 + n, [close])
    requires Lexes(s, i + 1, n, ts, last, now)
    ensures Lexes(s, i, n + 2, [x] + (ts + [y]), last, now)
  {
    hide Tokens, Has, Lexes, Single;
    LexSingle(s, i, open, x, last);
    LexSingle(s, i + 1 + n, close, y, now);
    LexesThen(s, i + 1, n, ts, last, now, 1, [y], now);
    LexesThen(s, i, 1, [x], last, last, n + 1, ts + [y], now);
  }

  // A single character, and then a piece.
  lemma LexAfter(s: string, i: nat, open: char, x: Token, n: nat, ts: seq<Token>, last: int, now: int)
    requires Single(open, x) && Has(s, i, [open]) && Lexes(s, i + 1, n, ts, last, now)
    ensures Lexes(s, i, n + 1, [x] + ts, last, now)
  {
    hide Tokens, Has, Lexes, Single;
    LexSingle(s, i, open, x, last);
    LexesThen(s, i, 1, [x], last, last, n, ts, now);
  }

  // A piece, and another between two single characters.
  lemma LexFour(s: string, i: nat, n: nat, ts: seq<Token>, c: char, x: Token, m: nat, us: seq<Token>, d: char, y: Token,
                last: int, mid: int, now: int)
    requires Lexes(s, i, n, ts, last, mid) && Lexes(s, i + n + 1, m, us, mid, now)
    requires Single(c, x) && Single(d, y) && Has(s, i + n, [c]) && Has(s, i + n + 1 + m, [d])
    ensures Lexes(s, i, n + m + 2, ts + ([x] + (us + [y])), last, now)
  {
    hide Tokens, Has, Lexes, Single;
    LexBetween(s, i + n, c, m, d, x, us, y, mid, now);
    LexesThen(s, i, n, ts, last, mid, m + 2, [x] + (us + [y]), now);
  }

  lemma HasFour(s: string, i: nat, a: string, c: string, b: string, d: string)
    requires Has(s, i, a + (c + (b + d)))
    ensures Has(s, i, a) && Has(s, i + |a|, c) && Has(s, i + |a| + |c|, b) && Has(s, i + |a| + |c| + |b|, d)
  {
    hide Has;
    HasParts(s, i, a, c + (b + d));
    HasParts(s, i + |a|, c, b + d);
    HasParts(s, i + |a| + |c|, b, d);
  }

  lemma SingleStops(s: string, i: nat, c: char, t: Token)
    requires Has(s, i, [c]) && Single(c, t)
    ensures Stops(s, i)
  {
    CharAt(s, i, c);
  }

  lemma {:induction false} LexBinary(s: string, i: nat, t: Tree, last: int) returns (now: int)
    requires t.Binary? && Writable(t) && Has(s, i, Write(t))
    ensures Lexes(s, i, |Write(t)|, TokensOf(t), last, now)
    decreases t, 0, 1
  {
    hide Tokens, Has, Lexes, Lexer.Match, Spelling;
    var x := Infix(t.op, Write(t.l), Write(t.r));
    HasParts(s, i, "(", x + ")");
    HasParts(s, i + 1, x, ")");
    SingleStops(s, i + 1 + |x|, ')', RParen);
    now := LexInfix(s, i + 1, t, t.op, t.l, t.r, last);
    LexBetween(s, i, '(', |x|, ')', LParen, TokensOf(t.l) + ([OperatorToken(t.op)] + TokensOf(t.r)), RParen, last, now);
    Regroup(TokensOf(t.l), [OperatorToken(t.op)], TokensOf(t.r), [RParen]);
  }

  lemma Regroup(a: seq<Token>, b: seq<Token>, c: seq<Token>, d: seq<Token>)
    ensures (a + (b + c)) + d == a + (b + (c + d))
  {
  }

  lemma {:induction false} LexChild(s: string, i: nat, t: Tree, last: int) returns (now: int)
    requires t.Child? && Writable(t) && Has(s, i, Write(t)) && Stops(s, i + |Write(t)|)
    ensures Lexes(s, i, |Write(t)|, TokensOf(t), last, now)
    decreases t, 0
  {
    hide Tokens, Has, Lexes, Lexer.Match;
    var b := Write(t.base);
    HasParts(s, i, b, "." + t.name);
    HasParts(s, i + |b|, ".", t.name);
    SingleStops(s, i + |b|, '.', Dot);
    now := LexWritten(s, i, t.base, last);
    LexSingle(s, i + |b|, '.', Dot, now);
    LexName(s, i + |b| + 1, t.name, now);
    LexesThen(s, i + |b|, 1, [Dot], now, now, |t.name|, [Identifier(t.name)], now);
    LexesThen(s, i, |b|, TokensOf(t.base), last, now, 1 + |t.name|, [Dot] + [Identifier(t.name)], now);
  }

  lemma {:induction false} LexElement(s: string, i: nat, t: Tree, last: int) returns (now: int)
    requires t.Element? && Writable(t) && Has(s, i, Write(t))
    ensures Lexes(s, i, |Write(t)|, TokensOf(t), last, now)
    decreases t, 0
  {
    hide Tokens, Has, Lexes, Lexer.Match, Stops;
    var a, x := Write(t.arr), Write(t.idx);
    HasFour(s, i, a, "[", x, "]");
    SingleStops(s, i + |a|, '[', LBracket);
    SingleStops(s, i + |a| + 1 + |x|, ']', RBracket);
    var mid := LexWritten(s, i, t.arr, last);
    now := LexWritten(s, i + |a| + 1, t.idx, mid);
    LexFour(s, i, |a|, TokensOf(t.arr), '[', LBracket, |x|, TokensOf(t.idx), ']', RBracket, last, mid, now);
  }

  lemma {:induction false} LexLiteral(s: string, i: nat, t: Tree, last: int) returns (now: int)
    requires t.Literal? && Writable(t) && Has(s, i, Write(t))
    ensures Lexes(s, i, |Write(t)|, TokensOf(t), last, now)
    decreases t, 0
  {
    hide Tokens, Has, Lexes, Lexer.Match, WriteArgs, TokensOfArgs;
    var x := WriteArgs(t.args);
    HasParts(s, i, "[", x + "]");
    HasParts(s, i + 1, x, "]");
    SingleStops(s, i + 1 + |x|, ']', RBracket);
    now := LexArgs(s, i + 1, t.args, last);
    LexBetween(s, i, '[', |x|, ']', LBracket, TokensOfArgs(t.args), RBracket, last, now);
  }

  lemma {:induction false} LexInitializer(s: string, i: nat, t: Tree, last: int) returns (now: int)
    requires t.Initializer? && Writable(t) && Has(s, i, Write(t))
    ensures Lexes(s, i, |Write(t)|, TokensOf(t), last, now)
    decreases t, 0
  {
    hide Tokens, Has, Lexes, Lexer.Match, Stops;
    var a, b := Write(t.v), Write(t.count);
    HasParts(s, i, "[", a + (";" + (b + "]")));
    HasFour(s, i + 1, a, ";", b, "]");
    SingleStops(s, i + 1 + |a|, ';', Semicolon);
    SingleStops(s, i + 2 + |a| + |b|, ']', RBracket);
    var mid := LexWritten(s, i + 1, t.v, last);
    now := LexWritten(s, i + 2 + |a|, t.count, mid);
    LexFour(s, i + 1, |a|, TokensOf(t.v), ';', Semicolon, |b|, TokensOf(t.count), ']', RBracket, last, mid, now);
    LexAfter(s, i, '[', LBracket, |a| + |b| + 2, TokensOf(t.v) + ([Semicolon] + (TokensOf(t.count) + [RBracket])), last, now);
  }

  lemma {:induction false} LexCall(s: string, i: nat, t: Tree, last: int) returns (now: int)
    requires t.Call? && Writable(t) && Has(s, i, Write(t))
    ensures Lexes(s, i, |Write(t)|, TokensOf(t), last, now)
    decreases t, 0
  {
    hide Tokens, Has, Lexes, Lexer.Match, WriteArgs, TokensOfArgs, WriteRegions, TokensOfRegions, Stops;
    var a, b, x := Write(t.fn), WriteRegions(t.regions), WriteArgs(t.args);
    HasParts(s, i, a, b + ("(" + (x + ")")));
    HasFour(s, i + |a|, b, "(", x, ")");
    SingleStops(s, i + |a| + |b|, '(', LParen);
    SingleStops(s, i + |a| + |b| + 1 + |x|, ')', RParen);
    RegionsStop(s, i + |a|, t.regions);
    var mid := LexWritten(s, i, t.fn, last);
    LexRegions(s, i + |a|, t.regions, mid);
    now := LexArgs(s, i + |a| + |b| + 1, t.args, mid);
    var bs, xs := TokensOfRegions(t.regions), TokensOfArgs(t.args);
    LexFour(s, i + |a|, |b|, bs, '(', LParen, |x|, xs, ')', RParen, mid, mid, now);
    LexesThen(s, i, |a|, TokensOf(t.fn), last, mid, |b| + |x| + 2, bs + ([LParen] + (xs + [RParen])), now);
  }

  lemma {:induction false} LexArgs(s: string, i: nat, args: seq<Tree>, last: int) returns (now: int)
    requires (forall a :: a in args ==> Writable(a)) && Has(s, i, WriteArgs(args)) && Stops(s, i + |WriteArgs(args)|)
    ensures Lexes(s, i, |WriteArgs(args)|, TokensOfArgs(args), last, now)
    decreases args
  {
    hide Tokens, Has, Lexes, Lexer.Match, Write, TokensOf, Writable;
    if args == [] {
      now := last;
      LexNothing(s, i, last);
    } else if |args| == 1 {
      now := LexWritten(s, i, args[0], last);
    } else {
      var n := |args| - 1;
      var a, x := WriteArgs(args[..n]), Write(args[n]);
      HasParts(s, i, a, "," + x);
      HasParts(s, i + |a|, ",", x);
      SingleStops(s, i + |a|, ',', Comma);
      var mid := LexArgs(s, i, args[..n], last);
      LexSingle(s, i + |a|, ',', Comma, mid);
      now := LexWritten(s, i + |a| + 1, args[n], mid);
      LexesThen(s, i + |a|, 1, [Comma], mid, mid, |x|, TokensOf(args[n]), now);
      LexesThen(s, i, |a|, TokensOfArgs(args[..n]), last, mid, 1 + |x|, [Comma] + TokensOf(args[n]), now);
    }
  }

  lemma LexNothing(s: string, i: nat, last: int)
    requires Has(s, i, "")
    ensures Lexes(s, i, 0, [], last, last)
  {
    assert [] + Tokens(s, i, last) == Tokens(s, i, last);
  }

  lemma {:induction false} LexRegions(s: string, i: nat, rs: seq<string>, last: int)
    requires (forall r :: r in rs ==> IsRegion(r)) && Has(s, i, WriteRegions(rs)) && Stops(s, i + |WriteRegions(rs)|)
    ensures Lexes(s, i, |WriteRegions(rs)|, TokensOfRegions(rs), last, last)
  {
    hide Tokens, Has, Lexes, Lexer.Match, IsRegion, Stops;
    if rs == [] {
      LexNothing(s, i, last);
    } else if |rs| == 1 {
      LexRegion(s, i, rs[0], last);
    } else {
      var n := |rs| - 1;
      var a, x := WriteRegions(rs[..n]), "@" + rs[n];
      HasParts(s, i, a, "," + x);
      HasParts(s, i + |a|, ",", x);
      SingleStops(s, i + |a|, ',', Comma);
      LexRegions(s, i, rs[..n], last);
      LexSingle(s, i + |a|, ',', Comma, last);
      LexRegion(s, i + |a| + 1, rs[n], last);
      LexesThen(s, i + |a|, 1, [Comma], last, last, |x|, [AmpIdentifier(rs[n])], last);
      LexesThen(s, i, |a|, TokensOfRegions(rs[..n]), last, last, 1 + |x|, [Comma] + [AmpIdentifier(rs[n])], last);
    }
  }

  // The function of a call ends where its regions or its arguments begin.
  lemma {:induction false} RegionsStop(s: string, i: nat, rs: seq<string>)
    requires Has(s, i, WriteRegions(rs)) && (rs == [] ==> Stops(s, i + |WriteRegions(rs)|))
    ensures Stops(s, i)
  {
    if |rs| == 1 {
      HasParts(s, i, "@", rs[0]);
      CharAt(s, i, '@');
    } else if |rs| > 1 {
      HasParts(s, i, WriteRegions(rs[..|rs| - 1]), "," + ("@" + rs[|rs| - 1]));
      RegionsStop(s, i, rs[..|rs| - 1]);
    }
  }

  // ---------- Parsing the tokens ----------

  ghost predicate HasTokens(ts: seq<Token>, i: nat, us: seq<Token>) { i + |us| <= |ts| && ts[i..i + |us|] == us }

  lemma HasTokensParts(ts: seq<Token>, i: nat, a: seq<Token>, b: seq<Token>)
    requires HasTokens(ts, i, a + b)
    ensures HasTokens(ts, i, a) && HasTokens(ts, i + |a|, b)
  {
    assert ts[i..i + |a|] == (a + b)[..|a|];
    assert ts[i + |a|..i + |a| + |b|] == (a + b)[|a|..];
  }

  lemma FiveParts(ts: seq<Token>, i: nat, p: Token, a: seq<Token>, q: Token, b: seq<Token>, r: Token)
    requires HasTokens(ts, i, [p] + (a + ([q] + (b + [r]))))
    ensures i + |a| + |b| + 3 <= |ts| && ts[i] == p && ts[i + 1 + |a|] == q && ts[i + 2 + |a| + |b|] == r
    ensures HasTokens(ts, i + 1, a) && HasTokens(ts, i + 2 + |a|, b)
  {
    hide HasTokens;
    HasTokensParts(ts, i, [p], a + ([q] + (b + [r])));
    TokenAt(ts, i, p);
    FourParts(ts, i + 1, a, q, b, r);
  }

  lemma FourParts(ts: seq<Token>, i: nat, a: seq<Token>, q: Token, b: seq<Token>, r: Token)
    requires HasTokens(ts, i, a + ([q] + (b + [r])))
    ensures i + |a| + |b| + 2 <= |ts| && ts[i + |a|] == q && ts[i + 1 + |a| + |b|] == r
    ensures HasTokens(ts, i, a) && HasTokens(ts, i + 1 + |a|, b)
  {
    hide HasTokens;
    var m := i + |a|;
    HasTokensParts(ts, i, a, [q] + (b + [r]));
    HasTokensParts(ts, m, [q], b + [r]);
    HasTokensParts(ts, m + 1, b, [r]);
    TokenAt(ts, m, q);
    TokenAt(ts, m + 1 + |b|, r);
  }

  lemma TokenAt(ts: seq<Token>, i: nat, t: Token)
    requires HasTokens(ts, i, [t])
    ensures i < |ts| && ts[i] == t
  {
    assert ts[i] == [t][0];
  }

  lemma {:induction false} TokensDerive(ts: seq<Token>, i: nat, t: Tree)
    requires Writable(t) && HasTokens(ts, i, TokensOf(t))
    ensures Derives(3, ts, i, i + |TokensOf(t)|, t)
    decreases t, 1
  {
    match t
    case ConstInt(_) => assert ts[i] == TokensOf(t)[0];
    case Str(_) => assert ts[i] == TokensOf(t)[0];
    case Name(_) => assert ts[i] == TokensOf(t)[0];
    case Binary(_, _, _) => BinaryDerives(ts, i, t);
    case Child(_, _) => ChildDerives(ts, i, t);
    case Element(_, _) => ElementDerives(ts, i, t);
    case Call(_, _, _) => CallDerives(ts, i, t);
    case Literal(_) => LiteralDerives(ts, i, t);
    case Initializer(_, _) => InitializerDerives(ts, i, t);
  }

  // An operand or index may stand at any looser level.
  lemma {:induction false} WholeDerives(ts: seq<Token>, i: nat, t: Tree)
    requires Writable(t) && HasTokens(ts, i, TokensOf(t))
    ensures Derives(0, ts, i, i + |TokensOf(t)|, t)
    decreases t, 2
  {
    hide Derives, TokensOf;
    TokensDerive(ts, i, t);
    Loosen(0, 3, ts, i, i + |TokensOf(t)|, t);
  }

  lemma {:induction false} BinaryDerives(ts: seq<Token>, i: nat, t: Tree)
    requires t.Binary? && Writable(t) && HasTokens(ts, i, TokensOf(t))
    ensures Derives(3, ts, i, i + |TokensOf(t)|, t)
    decreases t, 0, 1
  {
    hide Derives, HasTokens;
    var l, r := TokensOf(t.l), TokensOf(t.r);
    var m := i + 1 + |l|;
    var e := m + 1 + |r|;
    FiveParts(ts, i, LParen, l, OperatorToken(t.op), r, RParen);
    InfixDerives(ts, i + 1, m, e, t);
    ParensDerive(ts, i, e + 1, t);
  }

  function LevelOf(op: Operator): nat { if op.OpAdd? || op.OpSub? then 1 else if op.OpMul? || op.OpDiv? then 2 else 0 }

  lemma OperatorThere(op: Operator)
    ensures OperatorAt(LevelOf(op), OperatorToken(op)) == Some(op)
  {
  }

  lemma {:induction false} InfixDerives(ts: seq<Token>, i: nat, m: nat, e: nat, t: Tree)
    requires t.Binary? && Writable(t)
    requires i + |TokensOf(t.l)| == m < |ts| && m + 1 + |TokensOf(t.r)| == e <= |ts|
    requires HasTokens(ts, i, TokensOf(t.l)) && HasTokens(ts, m + 1, TokensOf(t.r)) && ts[m] == OperatorToken(t.op)
    ensures Derives(0, ts, i, e, t)
    decreases t, 0, 0
  {
    hide Derives, HasTokens, TokensOf, OperatorAt, OperatorToken;
    TokensDerive(ts, i, t.l);
    TokensDerive(ts, m + 1, t.r);
    var level := LevelOf(t.op);
    OperatorThere(t.op);
    Loosen(level, 3, ts, i, m, t.l);
    Loosen(level + 1, 3, ts, m + 1, e, t.r);
    ChainDerives(level, ts, i, m, e, t.l, t.op, t.r);
    Loosen(0, level, ts, i, e, t);
  }

  lemma ParensDerive(ts: seq<Token>, i: nat, j: nat, t: Tree)
    requires i + 3 <= j <= |ts| && ts[i] == LParen && ts[j - 1] == RParen && Derives(0, ts, i + 1, j - 1, t)
    ensures Derives(3, ts, i, j, t)
  {
    assert DerivesAtom(ts, i, j, t);
  }

  lemma {:induction false} ChildDerives(ts: seq<Token>, i: nat, t: Tree)
    requires t.Child? && Writable(t) && HasTokens(ts, i, TokensOf(t))
    ensures Derives(3, ts, i, i + |TokensOf(t)|, t)
    decreases t, 0
  {
    hide HasTokens, Derives;
    var b := TokensOf(t.base);
    HasTokensParts(ts, i, b, [Dot] + [Identifier(t.name)]);
    HasTokensParts(ts, i + |b|, [Dot], [Identifier(t.name)]);
    TokenAt(ts, i + |b|, Dot);
    TokenAt(ts, i + |b| + 1, Identifier(t.name));
    TokensDerive(ts, i, t.base);
    ChildIsPostfix(ts, i, i + |b| + 2, t);
  }

  lemma ChildIsPostfix(ts: seq<Token>, i: nat, j: nat, t: Tree)
    requires t.Child? && i + 2 < j <= |ts| && ts[j - 2] == Dot && ts[j - 1] == Identifier(t.name)
    requires Derives(3, ts, i, j - 2, t.base)
    ensures Derives(3, ts, i, j, t)
  {
    assert DerivesPostfix(ts, i, j, t);
  }

  lemma {:induction false} ElementDerives(ts: seq<Token>, i: nat, t: Tree)
    requires t.Element? && Writable(t) && HasTokens(ts, i, TokensOf(t))
    ensures Derives(3, ts, i, i + |TokensOf(t)|, t)
    decreases t, 0
  {
    hide HasTokens, Derives;
    var a, x := TokensOf(t.arr), TokensOf(t.idx);
    var m := i + |a|;
    FourParts(ts, i, a, LBracket, x, RBracket);
    TokensDerive(ts, i, t.arr);
    WholeDerives(ts, m + 1, t.idx);
    ElementIsPostfix(ts, i, m, m + 2 + |x|, t);
  }

  lemma ElementIsPostfix(ts: seq<Token>, i: nat, m: nat, j: nat, t: Tree)
    requires t.Element? && i < m < j - 1 && j <= |ts| && ts[m] == LBracket && ts[j - 1] == RBracket
    requires Derives(3, ts, i, m, t.arr) && Derives(0, ts, m + 1, j - 1, t.idx)
    ensures Derives(3, ts, i, j, t)
  {
    assert DerivesElement(ts, i, j, t.arr, t.idx);
    assert DerivesPostfix(ts, i, j, t);
  }

  lemma {:induction false} LiteralDerives(ts: seq<Token>, i: nat, t: Tree)
    requires t.Literal? && Writable(t) && HasTokens(ts, i, TokensOf(t))
    ensures Derives(3, ts, i, i + |TokensOf(t)|, t)
    decreases t, 0
  {
    hide HasTokens, DerivesArgs;
    var x := TokensOfArgs(t.args);
    HasTokensParts(ts, i, [LBracket], x + [RBracket]);
    HasTokensParts(ts, i + 1, x, [RBracket]);
    TokenAt(ts, i, LBracket);
    TokenAt(ts, i + 1 + |x|, RBracket);
    ArgsDerive(ts, i + 1, t.args);
    BracketIsAtom(ts, i, i + 2 + |x|, t);
  }

  lemma BracketIsAtom(ts: seq<Token>, i: nat, j: nat, t: Tree)
    requires i + 3 <= j <= |ts| && ts[i] == LBracket && ts[j - 1] == RBracket && DerivesBracket(ts, i + 1, j - 1, t)
    ensures Derives(3, ts, i, j, t)
  {
    assert DerivesAtom(ts, i, j, t);
  }

  lemma {:induction false} InitializerDerives(ts: seq<Token>, i: nat, t: Tree)
    requires t.Initializer? && Writable(t) && HasTokens(ts, i, TokensOf(t))
    ensures Derives(3, ts, i, i + |TokensOf(t)|, t)
    decreases t, 0
  {
    hide HasTokens, Derives;
    var a, b := TokensOf(t.v), TokensOf(t.count);
    var m := i + 1 + |a|;
    FiveParts(ts, i, LBracket, a, Semicolon, b, RBracket);
    WholeDerives(ts, i + 1, t.v);
    WholeDerives(ts, m + 1, t.count);
    InitializerIsBracket(ts, i + 1, m, m + 1 + |b|, t);
    BracketIsAtom(ts, i, m + 2 + |b|, t);
  }

  lemma InitializerIsBracket(ts: seq<Token>, i: nat, m: nat, j: nat, t: Tree)
    requires t.Initializer? && i < m < j - 1 && j <= |ts| && ts[m] == Semicolon
    requires Derives(0, ts, i, m, t.v) && Derives(0, ts, m + 1, j, t.count)
    ensures DerivesBracket(ts, i, j, t)
  {
    assert DerivesInitializer(ts, i, j, t.v, t.count);
  }

  lemma {:induction false} ArgsDerive(ts: seq<Token>, i: nat, args: seq<Tree>)
    requires (forall a :: a in args ==> Writable(a)) && args != [] && HasTokens(ts, i, TokensOfArgs(args))
    ensures DerivesArgs(ts, i, i + |TokensOfArgs(args)|, args)
    decreases args
  {
    hide HasTokens, Derives, TokensOf, Writable;
    if |args| == 1 {
      WholeDerives(ts, i, args[0]);
    } else {
      var n := |args| - 1;
      var a, x := TokensOfArgs(args[..n]), TokensOf(args[n]);
      HasTokensParts(ts, i, a, [Comma] + x);
      HasTokensParts(ts, i + |a|, [Comma], x);
      TokenAt(ts, i + |a|, Comma);
      ArgsDerive(ts, i, args[..n]);
      WholeDerives(ts, i + |a| + 1, args[n]);
    }
  }

  lemma {:induction false} CallDerives(ts: seq<Token>, i: nat, t: Tree)
    requires t.Call? && Writable(t) && HasTokens(ts, i, TokensOf(t))
    ensures Derives(3, ts, i, i + |TokensOf(t)|, t)
    decreases t, 0
  {
    hide HasTokens, Derives, DerivesArgs, Regions, TokensOfArgs, TokensOfRegions;
    if t.args == [] { assert TokensOfArgs(t.args) == [] by { NoArgs(); } }
    var a, b, x := TokensOf(t.fn), TokensOfRegions(t.regions), TokensOfArgs(t.args);
    var m := i + |a|;
    var q := m + |b|;
    HasTokensParts(ts, i, a, b + ([LParen] + (x + [RParen])));
    FourParts(ts, m, b, LParen, x, RParen);
    TokensDerive(ts, i, t.fn);
    RegionsDerive(ts, m, t.regions);
    if t.args != [] { ArgsDerive(ts, q + 1, t.args); }
    CallIsPostfix(ts, i, m, q, q + 2 + |x|, t);
  }

  lemma NoArgs()
    ensures TokensOfArgs([]) == []
  {
  }

  lemma CallIsPostfix(ts: seq<Token>, i: nat, m: nat, q: nat, j: nat, t: Tree)
    requires t.Call? && i < m <= q < j - 1 && j <= |ts| && ts[q] == LParen && ts[j - 1] == RParen
    requires Derives(3, ts, i, m, t.fn) && Regions(ts, m, q, t.regions)
    requires if t.args == [] then q + 1 == j - 1 else DerivesArgs(ts, q + 1, j - 1, t.args)
    ensures Derives(3, ts, i, j, t)
  {
    assert DerivesCall(ts, i, j, t.fn, t.regions, t.args);
    assert DerivesPostfix(ts, i, j, t);
  }

  lemma {:induction false} RegionsDerive(ts: seq<Token>, i: nat, rs: seq<string>)
    requires HasTokens(ts, i, TokensOfRegions(rs))
    ensures i + |TokensOfRegions(rs)| <= |ts| && Regions(ts, i, i + |TokensOfRegions(rs)|, rs)
  {
    if |rs| == 1 {
      TokenAt(ts, i, AmpIdentifier(rs[0]));
    } else if |rs| > 1 {
      var n := |rs| - 1;
      var a := TokensOfRegions(rs[..n]);
      HasTokensParts(ts, i, a, [Comma] + [AmpIdentifier(rs[n])]);
      HasTokensParts(ts, i + |a|, [Comma], [AmpIdentifier(rs[n])]);
      TokenAt(ts, i + |a|, Comma);
      TokenAt(ts, i + |a| + 1, AmpIdentifier(rs[n]));
      RegionsDerive(ts, i, rs[..n]);
    }
  }

  // ---------- Main results ----------

  // Reading a text as one expression.
  function Read(s: string): Option<Tree> { ParseAll(Tokens(s, 0, 0)) }

  // Every expression that can be written is read back from its text.
  lemma WriteThenRead(t: Tree)
    requires Writable(t)
    ensures Read(Write(t)) == Some(t)
  {
    hide Tokens, Write, TokensOf, Writable, Derives, ParseAll, Lexes;
    var s, ts := Write(t), TokensOf(t);
    WholeText(s);
    var now := LexWritten(s, 0, t, 0);
    LexesAll(s, ts, 0, now);
    assert HasTokens(ts, 0, ts) by { assert ts[0..0 + |ts|] == ts; }
    WholeDerives(ts, 0, t);
    ParserIsTheGrammar(ts, t);
  }

  lemma WholeText(s: string)
    ensures Has(s, 0, s) && Stops(s, |s|)
  {
    assert s[0..0 + |s|] == s;
  }

  lemma LexesAll(s: string, ts: seq<Token>, last: int, now: int)
    requires Lexes(s, 0, |s|, ts, last, now)
    ensures Tokens(s, 0, last) == ts
  {
    assert ts + [] == ts;
  }

  // An operator between two expressions, without parentheses around them, is read as that operator.
  lemma OperatorIsRead(op: Operator, l: Tree, r: Tree)
    requires Writable(l) && Writable(r)
    ensures Read(Write(l) + " " + Spelling(op) + " " + Write(r)) == Some(Binary(op, l, r))
  {
    hide Tokens, Write, TokensOf, Derives, ParseAll, Lexes, Spelling, OperatorToken;
    var t, a, b := Binary(op, l, r), TokensOf(l), TokensOf(r);
    var s, ts := Infix(op, Write(l), Write(r)), a + ([OperatorToken(op)] + b);
    assert Write(l) + " " + Spelling(op) + " " + Write(r) == s;
    WholeText(s);
    var now := LexInfix(s, 0, t, op, l, r, 0);
    LexesAll(s, ts, 0, now);
    assert HasTokens(ts, 0, ts) by { assert ts[0..0 + |ts|] == ts; }
    HasTokensParts(ts, 0, a, [OperatorToken(op)] + b);
    HasTokensParts(ts, |a|, [OperatorToken(op)], b);
    TokenAt(ts, |a|, OperatorToken(op));
    InfixDerives(ts, 0, |a|, |ts|, t);
    ParserIsTheGrammar(ts, t);
  }

  // So expressions that are written alike are the same.
  lemma WriteIsInjective(t: Tree, u: Tree)
    requires Writable(t) && Writable(u) && Write(t) == Write(u)
    ensures t == u
  {
    WriteThenRead(t);
    WriteThenRead(u);
  }

  // ---------- The compiler's own print ----------

  // The expressions that toString prints in full: it drops or misprints parts of the others.
  predicate Printable(t: Tree) {
    match t
    case ConstInt(n) => 0 <= n <= INT_MAX
    case Str(s) => '"' !in s && '\\' !in s
    case Name(s) => IsName(s)
    case Binary(op, l, r) => OperatorChar(op) != '?' && Printable(l) && Printable(r)
    case Child(base, name) => Printable(base) && IsName(name)
    case _ => false
  }

  function OperatorChar(op: Operator): char {
    match op
    case OpAdd => '+'
    case OpSub => '-'
    case OpMul => '*'
    case OpDiv => '/'
    case _ => '?'
  }

  // toString
  function Print(t: Tree): (s: string)
    requires Printable(t)
  {
    match t
    case ConstInt(n) => Decimal(n)
    case Str(s) => "\"" + s + "\""
    case Name(s) => s
    case Binary(op, l, r) => "(" + Print(l) + " " + [OperatorChar(op)] + " " + Print(r) + ")"
    case Child(base, name) => Print(base) + "." + name
  }

  // What toString prints in full is what one would write.
  lemma {:induction false} PrintIsWrite(t: Tree)
    requires Printable(t)
    ensures Writable(t) && Print(t) == Write(t)
  {
    match t
    case Binary(op, l, r) =>
      PrintIsWrite(l);
      PrintIsWrite(r);
      assert Spelling(op) == [OperatorChar(op)];
    case Child(base, _) => PrintIsWrite(base);
    case _ =>
  }

  // Printing and reading back gives the same expression.
  lemma PrintThenRead(t: Tree)
    requires Printable(t)
    ensures Read(Print(t)) == Some(t)
  {
    PrintIsWrite(t);
    WriteThenRead(t);
  }

  // So expressions that print alike are the same.
  lemma PrintIsInjective(t: Tree, u: Tree)
    requires Printable(t) && Printable(u) && Print(t) == Print(u)
    ensures t == u
  {
    PrintThenRead(t);
    PrintThenRead(u);
  }
}
