// The lexer (src/lexer.re): longest-match rules and the actions that compute token values.
module Lexer {
  import opened Basics
  import opened Grammar

  const INT_MAX: int := 0x7fff_ffff

  const KEYWORDS: set<string> := {"fn", "return", "let", "var", "class", "if", "else", "while", "for", "on"}

  // ---------- Characters ----------

  predicate Letter(c: char) { 'a' <= c <= 'z' || 'A' <= c <= 'Z' }
  predicate Digit(c: char) { '0' <= c <= '9' }
  predicate Word(c: char) { Letter(c) || Digit(c) || c == '_' }
  predicate HexDigit(c: char) { Digit(c) || 'a' <= c <= 'f' || 'A' <= c <= 'F' }

  datatype Class = Decimals | Octals | Binaries | Hexes | Words | NotNewline

  predicate In(k: Class, c: char) {
    match k
    case Decimals => Digit(c)
    case Octals => '0' <= c <= '7'
    case Binaries => c == '0' || c == '1'
    case Hexes => HexDigit(c)
    case Words => Word(c)
    case NotNewline => c != '\n'
  }

  // The end of the longest run of such characters.
  function Run(k: Class, s: string, i: nat): (e: nat)
    requires i <= |s|
    ensures i <= e <= |s| && (forall j :: i <= j < e ==> In(k, s[j])) && (e < |s| ==> !In(k, s[e]))
    decreases |s| - i
  {
    if i < |s| && In(k, s[i]) then Run(k, s, i + 1) else i
  }

  // ---------- String literals ----------

  // A string body: escaped characters other than newline, and characters other than the quote.
  ghost predicate Body(s: string, i: nat, j: nat)
    requires j <= |s|
    decreases if i < j then j - i else 0
  {
    || i == j
    || (i < j && s[i] != '"' && Body(s, i + 1, j))
    || (i + 1 < j && s[i] == '\\' && s[i + 1] != '\n' && Body(s, i + 2, j))
  }

  // The string that starts before i can end before e.
  ghost predicate Ends(s: string, i: nat, e: nat) {
    0 < e <= |s| && s[e - 1] == '"' && Body(s, i, e - 1)
  }

  // The longest match. `escape` says that the character before may start an escape.
  function StringEnd(s: string, i: nat, escape: bool): (r: Option<nat>)
    requires i <= |s|
    ensures r.Some? ==> i < r.value <= |s|
    decreases |s| - i
  {
    if i == |s| then None
    else if s[i] == '"' then
      if escape && StringEnd(s, i + 1, false).Some? then StringEnd(s, i + 1, false) else Some(i + 1)
    else StringEnd(s, i + 1, s[i] == '\\')
  }

  // The same when the character before i may start an escape.
  ghost predicate MayEnd(s: string, i: nat, escape: bool, e: nat) {
    Ends(s, i, e) || (escape && i < |s| && s[i] != '\n' && Ends(s, i + 1, e))
  }

  lemma BodyStep(s: string, i: nat, escape: bool, e: nat)
    requires i < |s| && MayEnd(s, i, escape, e)
    ensures if s[i] == '"' then e == i + 1 || (escape && MayEnd(s, i + 1, false, e)) else MayEnd(s, i + 1, s[i] == '\\', e)
  {
    if Ends(s, i, e) && i != e - 1 && !Body(s, i + 1, e - 1) {
      assert Ends(s, i + 2, e);
    }
  }

  lemma {:induction false} StringEndIsLongest(s: string, i: nat, escape: bool)
    requires i <= |s|
    ensures forall e: nat :: MayEnd(s, i, escape, e) ==>
                               StringEnd(s, i, escape).Some? && e <= StringEnd(s, i, escape).value
    ensures StringEnd(s, i, escape).Some? ==> MayEnd(s, i, escape, StringEnd(s, i, escape).value)
    decreases |s| - i
  {
    if i < |s| {
      StringEndIsLongest(s, i + 1, s[i] == '\\');
      forall e: nat | MayEnd(s, i, escape, e)
        ensures StringEnd(s, i, escape).Some? && e <= StringEnd(s, i, escape).value
      {
        BodyStep(s, i, escape, e);
      }
      if StringEnd(s, i, escape).Some? {
        StringEndReached(s, i, escape);
      }
    }
  }

  lemma StringEndReached(s: string, i: nat, escape: bool)
    requires i < |s| && StringEnd(s, i, escape).Some?
    requires var r := StringEnd(s, i + 1, s[i] == '\\'); r.Some? ==> MayEnd(s, i + 1, s[i] == '\\', r.value)
    ensures MayEnd(s, i, escape, StringEnd(s, i, escape).value)
  {
    var e := StringEnd(s, i, escape).value;
    if e == i + 1 {
      assert Body(s, i, e - 1);
    } else if s[i] != '"' {
      assert Body(s, i, e - 1);
    }
  }

  // A literal is matched to the last place it could end, and matched at all if it could end anywhere.
  lemma StringLiteralIsLongestMatch(s: string, i: nat)
    requires i <= |s|
    ensures StringEnd(s, i, false).None? <==> forall e: nat :: !Ends(s, i, e)
    ensures StringEnd(s, i, false).Some? ==>
              && Ends(s, i, StringEnd(s, i, false).value)
              && forall e: nat :: Ends(s, i, e) ==> e <= StringEnd(s, i, false).value
  {
    StringEndIsLongest(s, i, false);
    forall e: nat | Ends(s, i, e) ensures MayEnd(s, i, false, e) {}
  }

  // Each backslash-n pair, left to right, becomes a newline.
  function Unescape(s: string): (r: string)
    ensures |r| <= |s|
  {
    if s == [] then []
    else if |s| >= 2 && s[0] == '\\' && s[1] == 'n' then ['\n'] + Unescape(s[2..])
    else [s[0]] + Unescape(s[1..])
  }

  // Newlines written as backslash-n.
  function Escape(s: string): string {
    if s == [] then [] else (if s[0] == '\n' then "\\n" else [s[0]]) + Escape(s[1..])
  }

  predicate HasPair(s: string) {
    |s| >= 2 && ((s[0] == '\\' && s[1] == 'n') || HasPair(s[1..]))
  }

  // Escaped text is read back unless it holds a backslash followed by n.
  lemma {:induction false} UnescapeInverts(s: string)
    ensures Unescape(Escape(s)) == s <==> !HasPair(s)
  {
    if s != [] {
      UnescapeInverts(s[1..]);
      var t := Escape(s);
      if s[0] == '\n' {
        assert t[2..] == Escape(s[1..]);
      } else {
        assert t[1..] == Escape(s[1..]);
        if s[0] == '\\' && |s| >= 2 && s[1] != 'n' {
          assert t[1] != 'n';
        }
      }
      assert s == [s[0]] + s[1..];
      if !(s[0] == '\\' && |s| >= 2 && s[1] == 'n') {
        assert Unescape(t) == [s[0]] + Unescape(Escape(s[1..]));
        assert ([s[0]] + Unescape(Escape(s[1..])))[1..] == Unescape(Escape(s[1..]));
      } else {
        assert t[1] == 'n';
      }
    }
  }

  // The next step of the loop below, which has written `out` and read up to i.
  lemma UnescapeStep(text: string, i: nat, out: string)
    requires i < |text| && out + Unescape(text[i..]) == Unescape(text)
    ensures if i + 1 < |text| && text[i] == '\\' && text[i + 1] == 'n'
            then out + ['\n'] + Unescape(text[i + 2..]) == Unescape(text)
            else out + [text[i]] + Unescape(text[i + 1..]) == Unescape(text)
  {
    hide Unescape;
    UnescapeHead(text, i);
    var pair := i + 1 < |text| && text[i] == '\\' && text[i + 1] == 'n';
    var c := if pair then '\n' else text[i];
    var rest := Unescape(if pair then text[i + 2..] else text[i + 1..]);
    AppendAssociates(out, [c], rest);
  }

  lemma AppendAssociates(a: string, b: string, c: string)
    ensures a + b + c == a + (b + c)
  {
  }

  lemma UnescapeHead(text: string, i: nat)
    requires i < |text|
    ensures Unescape(text[i..]) ==
            if i + 1 < |text| && text[i] == '\\' && text[i + 1] == 'n' then ['\n'] + Unescape(text[i + 2..])
            else [text[i]] + Unescape(text[i + 1..])
  {
    assert text[i..][1..] == text[i + 1..];
    if i + 1 < |text| { assert text[i..][2..] == text[i + 2..]; }
  }

  // make_str. The text is followed by a zero, as the caller copies it.
  method MakeStr(src: array<char>, len: nat) returns (str: array<char>, n: nat)
    requires len < src.Length && src[len] == '\0'
    ensures fresh(str) && str.Length == len + 1 && n <= len
    ensures str[..n] == Unescape(src[..len]) && str[n] == '\0'
  {
    hide Unescape;
    str := new char[len + 1];
    var oi, i := 0, 0;
    ghost var text := src[..len];
    ghost var out: string := [];
    while i < len
      invariant 0 <= oi <= i <= len && oi == |out|
      invariant forall k :: 0 <= k < oi ==> str[k] == out[k]
      invariant out + Unescape(text[i..]) == Unescape(text)
    {
      UnescapeStep(text, i, out);
      if src[i] == '\\' && src[i + 1] == 'n' {
        str[oi] := '\n';
        i := i + 1;
      } else {
        str[oi] := src[i];
      }
      out := out + [str[oi]];
      oi := oi + 1;
      i := i + 1;
    }
    str[oi] := '\0';
    n := oi;
    UnescapeEmpty();
    assert text[i..] == [] && out + [] == out;
    assert str[..n] == out;
  }

  // The action of the string rule: copy what stands between the quotes, then unescape it.
  method ReadString(s: string, tok: nat, cursor: nat) returns (text: string)
    requires tok + 1 < cursor <= |s|
    ensures text == Unescape(s[tok + 1..cursor - 1])
  {
    var len := cursor - tok - 2;
    var val := new char[len + 1];
    forall i | 0 <= i < len { val[i] := s[tok + 1 + i]; }
    val[len] := '\0';
    assert val[..len] == s[tok + 1..cursor - 1];
    var str, n := MakeStr(val, len);
    text := str[..n];
  }

  lemma UnescapeEmpty()
    ensures Unescape([]) == []
  {
  }

  // ---------- Numbers ----------

  function DigitValue(c: char): int { c as int - '0' as int }

  function ValueOf(base: nat, s: string): int {
    if s == [] then 0 else ValueOf(base, s[..|s| - 1]) * base + DigitValue(s[|s| - 1])
  }

  function Decimal(n: nat): string {
    if n < 10 then [('0' as int + n) as char] else Decimal(n / 10) + [('0' as int + n % 10) as char]
  }

  lemma {:induction false} DecimalRoundTrip(n: nat)
    ensures ValueOf(10, Decimal(n)) == n
    ensures forall c :: c in Decimal(n) ==> Digit(c)
    ensures |Decimal(n)| > 0 && (Decimal(n)[0] == '0' <==> n == 0) && (n == 0 ==> Decimal(n) == "0")
  {
    if n >= 10 {
      DecimalRoundTrip(n / 10);
      var d := Decimal(n);
      assert d[..|d| - 1] == Decimal(n / 10);
    } else {
      assert Decimal(n)[..0] == [];
      assert ValueOf(10, Decimal(n)[..0]) == 0;
    }
  }

  function Octal(n: nat): string {
    if n < 8 then [('0' as int + n) as char] else Octal(n / 8) + [('0' as int + n % 8) as char]
  }

  lemma {:induction false} OctalRoundTrip(n: nat)
    ensures ValueOf(8, Octal(n)) == n && |Octal(n)| > 0
    ensures forall c :: c in Octal(n) ==> In(Octals, c)
  {
    if n >= 8 {
      OctalRoundTrip(n / 8);
      var d := Octal(n);
      assert d[..|d| - 1] == Octal(n / 8);
    } else {
      assert Octal(n)[..0] == [];
      assert ValueOf(8, Octal(n)[..0]) == 0;
    }
  }

  // A zero in front changes no value.
  lemma {:induction false} LeadingZero(base: nat, t: string)
    ensures ValueOf(base, "0" + t) == ValueOf(base, t)
  {
    if t == [] {
      assert "0" + t == "0" && "0"[..0] == [];
      assert ValueOf(base, "0"[..0]) == 0;
    } else {
      var n := |t| - 1;
      LeadingZero(base, t[..n]);
      assert ("0" + t)[..|t|] == "0" + t[..n] && ("0" + t)[|t|] == t[n];
    }
  }

  /** A further digit makes a value no smaller. */
  lemma ValueGrows(base: nat, s: string)
    requires base >= 1 && s != [] && Digit(s[|s| - 1]) && ValueOf(base, s[..|s| - 1]) >= 0
    ensures 0 <= ValueOf(base, s[..|s| - 1]) <= ValueOf(base, s)
  {
    var v := ValueOf(base, s[..|s| - 1]);
    assert v <= v * base;
  }

  lemma {:induction false} PrefixIsSmaller(base: nat, s: string, k: nat)
    requires base >= 1 && k <= |s| && forall c :: c in s ==> Digit(c)
    ensures 0 <= ValueOf(base, s[..k]) <= ValueOf(base, s)
    decreases |s|
  {
    hide ValueOf, Digit;
    if s == [] {
      NoDigits(base, s);
      assert s[..k] == s;
    } else {
      var p := s[..|s| - 1];
      forall c | c in p ensures Digit(c) {}
      assert s[|s| - 1] in s;
      PrefixIsSmaller(base, p, if k < |s| then k else |p|);
      assert p[..|p|] == p;
      ValueGrows(base, s);
      if k == |s| { assert s[..k] == s; } else { assert p[..k] == s[..k]; }
    }
  }

  lemma NoDigits(base: nat, s: string)
    requires s == []
    ensures ValueOf(base, s) == 0
  {
  }

  // The loops of the decimal and octal rules. The value is an `int`: a literal must fit, and then so does every
  // value on the way.
  method ReadNumber(base: nat, s: string, start: nat, cursor: nat) returns (value: int)
    requires base == 8 || base == 10
    requires start <= cursor <= |s| && forall c :: c in s[start..cursor] ==> Digit(c)
    requires ValueOf(base, s[start..cursor]) <= INT_MAX
    ensures value == ValueOf(base, s[start..cursor])
  {
    value := 0;
    var tok := start;
    ghost var text := s[start..cursor];
    while tok < cursor
      invariant start <= tok <= cursor
      invariant value == ValueOf(base, text[..tok - start])
      invariant 0 <= value <= INT_MAX
    {
      PrefixIsSmaller(base, text, tok + 1 - start);
      assert text[..tok + 1 - start][..tok - start] == text[..tok - start];
      value := value * base + DigitValue(s[tok]);
      tok := tok + 1;
    }
    assert text[..tok - start] == text;
  }

  // ---------- Rules ----------

  datatype Rule =
    | White | Comment | BinRule | DecRule | OctRule | HexRule | KeyRule | WordRule | AmpRule | Fixed(token: Token)
    | StringRule | End

  predicate Follows(s: string, i: nat, c: char) { i < |s| && s[i] == c }

  // The place of a rule in the file; no two tokens have the same fixed text.
  function Place(r: Rule): nat {
    match r
    case White => 0
    case Comment => 1
    case BinRule => 2
    case DecRule => 3
    case OctRule => 4
    case HexRule => 5
    case KeyRule => 6
    case WordRule => 7
    case AmpRule => 8
    case Fixed(_) => 9
    case StringRule => 10
    case End => 11
  }

  function FixedText(t: Token): string {
    match t
    case Plus => "+"
    case Minus => "-"
    case Multiply => "*"
    case Divide => "/"
    case Assign => "="
    case Dot => "."
    case Comma => ","
    case Equals => "=="
    case Lt => "<"
    case Gt => ">"
    case Le => "<="
    case Ge => ">="
    case LParen => "("
    case RParen => ")"
    case LBrace => "{"
    case RBrace => "}"
    case LBracket => "["
    case RBracket => "]"
    case Colon => ":"
    case Semicolon => ";"
    case Beak => "->"
    case _ => ""
  }

  ghost predicate All(k: Class, s: string, i: nat, e: nat)
    requires e <= |s|
  {
    forall j :: i <= j < e ==> In(k, s[j])
  }

  // The language of each rule: it can match the text from i to e. Quoted by ', as the prefixes of
  // binary and hexadecimal literals are, a letter stands for both of its cases.
  ghost predicate Matches(r: Rule, s: string, i: nat, e: nat)
    requires i <= |s|
  {
    i <= e <= |s| &&
    match r
    case White => e == i + 1 && (s[i] == ' ' || s[i] == '\n')
    case Comment => i + 3 <= e && s[i] == '/' && s[i + 1] == '/' && All(NotNewline, s, i + 2, e - 1) && s[e - 1] == '\n'
    case BinRule => i + 3 <= e && s[i] == '0' && (s[i + 1] == 'b' || s[i + 1] == 'B') && All(Binaries, s, i + 2, e)
    case DecRule => i < e && '1' <= s[i] <= '9' && All(Decimals, s, i + 1, e)
    case OctRule => i < e && s[i] == '0' && All(Octals, s, i + 1, e)
    case HexRule => i + 3 <= e && s[i] == '0' && (s[i + 1] == 'x' || s[i + 1] == 'X') && All(Hexes, s, i + 2, e)
    case KeyRule => s[i..e] in KEYWORDS
    case WordRule => i < e && Letter(s[i]) && All(Words, s, i + 1, e)
    case AmpRule => i + 2 <= e && s[i] == '@' && Letter(s[i + 1]) && All(Words, s, i + 2, e)
    case Fixed(t) => FixedText(t) != "" && s[i..e] == FixedText(t)
    case StringRule => i + 1 < e && s[i] == '"' && Ends(s, i + 1, e)
    case End => e == i + 1 || (e == i == |s|)
  }

  // The rule that re2c chooses at i, and where its match ends.
  function Match(s: string, i: nat): (r: (Rule, nat))
    requires i <= |s|
    ensures i <= r.1 <= |s| && (r.0 != End ==> i < r.1) && (r.0 == StringRule ==> i + 1 < r.1)
  {
    if i == |s| then (End, i)
    else
      var c := s[i];
      if c == ' ' || c == '\n' then (White, i + 1)
      else if c == '/' then MatchSlash(s, i)
      else if Digit(c) then MatchNumber(s, i)
      else if Letter(c) then
        var e := Run(Words, s, i + 1);
        (if s[i..e] in KEYWORDS then KeyRule else WordRule, e)
      else if c == '@' then
        if i + 1 < |s| && Letter(s[i + 1]) then (AmpRule, Run(Words, s, i + 2)) else (End, i + 1)
      else if c == '"' then
        match StringEnd(s, i + 1, false)
        case Some(e) => (StringRule, e)
        case None => (End, i + 1)
      else MatchFixed(s, i)
  }

  // A comment needs its newline; a slash without one divides.
  function MatchSlash(s: string, i: nat): (r: (Rule, nat))
    requires i < |s|
    ensures r.0 != End && r.0 != StringRule && i < r.1 <= |s|
  {
    if Follows(s, i + 1, '/') && Run(NotNewline, s, i + 2) < |s| then (Comment, Run(NotNewline, s, i + 2) + 1)
    else (Fixed(Divide), i + 1)
  }

  function MatchNumber(s: string, i: nat): (r: (Rule, nat))
    requires i < |s| && Digit(s[i])
    ensures r.0 != End && r.0 != StringRule && i < r.1 <= |s|
  {
    if s[i] != '0' then (DecRule, Run(Decimals, s, i + 1))
    else if (Follows(s, i + 1, 'b') || Follows(s, i + 1, 'B')) && i + 2 < |s| && In(Binaries, s[i + 2])
    then (BinRule, Run(Binaries, s, i + 2))
    else if (Follows(s, i + 1, 'x') || Follows(s, i + 1, 'X')) && i + 2 < |s| && In(Hexes, s[i + 2])
    then (HexRule, Run(Hexes, s, i + 2))
    else (OctRule, Run(Octals, s, i + 1))
  }

  function MatchFixed(s: string, i: nat): (r: (Rule, nat))
    requires i < |s|
    ensures i < r.1 <= |s| && (r.0 == End || r.0.Fixed?)
  {
    match s[i]
    case '+' => (Fixed(Plus), i + 1)
    case '-' => if Follows(s, i + 1, '>') then (Fixed(Beak), i + 2) else (Fixed(Minus), i + 1)
    case '*' => (Fixed(Multiply), i + 1)
    case '=' => if Follows(s, i + 1, '=') then (Fixed(Equals), i + 2) else (Fixed(Assign), i + 1)
    case '<' => if Follows(s, i + 1, '=') then (Fixed(Le), i + 2) else (Fixed(Lt), i + 1)
    case '>' => if Follows(s, i + 1, '=') then (Fixed(Ge), i + 2) else (Fixed(Gt), i + 1)
    case '.' => (Fixed(Dot), i + 1)
    case ',' => (Fixed(Comma), i + 1)
    case '(' => (Fixed(LParen), i + 1)
    case ')' => (Fixed(RParen), i + 1)
    case '{' => (Fixed(LBrace), i + 1)
    case '}' => (Fixed(RBrace), i + 1)
    case '[' => (Fixed(LBracket), i + 1)
    case ']' => (Fixed(RBracket), i + 1)
    case ':' => (Fixed(Colon), i + 1)
    case ';' => (Fixed(Semicolon), i + 1)
    case _ => (End, i + 1)
  }

  // ---------- The longest match ----------

  lemma RunReaches(k: Class, s: string, i: nat, e: nat)
    requires i <= e <= |s| && All(k, s, i, e)
    ensures e <= Run(k, s, i)
  {
  }

  lemma KeywordIsWord(t: string)
    requires t in KEYWORDS
    ensures t != "" && Letter(t[0]) && forall c :: c in t ==> Word(c)
  {
  }

  // What one rule can match is no longer than the chosen match, and if it is as long, the rule is
  // the chosen one or comes after it.
  ghost predicate Beats(m: (Rule, nat), r: Rule, e: nat) {
    e < m.1 || (e == m.1 && (r == m.0 || Place(m.0) < Place(r)))
  }

  lemma BeatsNumber(s: string, i: nat, r: Rule, e: nat)
    requires i < |s| && Matches(r, s, i, e) && (r.BinRule? || r.DecRule? || r.OctRule? || r.HexRule?)
    ensures Beats(Match(s, i), r, e)
  {
    match r
    case BinRule => RunReaches(Binaries, s, i + 2, e);
    case DecRule => RunReaches(Decimals, s, i + 1, e);
    case OctRule => RunReaches(Octals, s, i + 1, e);
    case HexRule => RunReaches(Hexes, s, i + 2, e);
  }

  lemma BeatsWord(s: string, i: nat, r: Rule, e: nat)
    requires i < |s| && Matches(r, s, i, e) && (r.KeyRule? || r.WordRule?)
    ensures Beats(Match(s, i), r, e)
  {
    if r.KeyRule? {
      KeywordIsWord(s[i..e]);
      forall j | i <= j < e ensures Word(s[j]) { assert s[j] == s[i..e][j - i]; }
      assert s[i] == s[i..e][0];
    }
    RunReaches(Words, s, i + 1, e);
  }

  lemma BeatsFixed(s: string, i: nat, t: Token, e: nat)
    requires i < |s| && Matches(Fixed(t), s, i, e)
    ensures Beats(Match(s, i), Fixed(t), e)
  {
    assert |s[i..e]| == |FixedText(t)|;
    assert s[i] == FixedText(t)[0];
    assert e == i + 2 ==> s[i + 1] == s[i..e][1] == FixedText(t)[1];
  }

  // re2c's choice: of all rules and all ends, the longest match, and of several rules with a match
  // of that length the first in the file.
  lemma MatchIsLongest(s: string, i: nat)
    requires i <= |s|
    ensures var m := Match(s, i);
            Matches(m.0, s, i, m.1) && forall r, e: nat :: Matches(r, s, i, e) ==> Beats(m, r, e)
  {
    MatchMatches(s, i);
    forall r, e: nat | Matches(r, s, i, e)
      ensures Beats(Match(s, i), r, e)
    {
      if i < |s| {
        RuleIsBeaten(s, i, r, e);
      } else if r.KeyRule? {
        KeywordIsWord(s[i..e]);
      }
    }
  }

  lemma RuleIsBeaten(s: string, i: nat, r: Rule, e: nat)
    requires i < |s| && Matches(r, s, i, e)
    ensures Beats(Match(s, i), r, e)
  {
    match r
    case Comment => RunReaches(NotNewline, s, i + 2, e - 1);
    case AmpRule => RunReaches(Words, s, i + 2, e);
    case Fixed(t) => BeatsFixed(s, i, t, e);
    case StringRule => StringLiteralIsLongestMatch(s, i + 1);
    case BinRule => BeatsNumber(s, i, r, e);
    case DecRule => BeatsNumber(s, i, r, e);
    case OctRule => BeatsNumber(s, i, r, e);
    case HexRule => BeatsNumber(s, i, r, e);
    case KeyRule => BeatsWord(s, i, r, e);
    case WordRule => BeatsWord(s, i, r, e);
    case White =>
    case End =>
  }

  lemma MatchMatches(s: string, i: nat)
    requires i <= |s|
    ensures Matches(Match(s, i).0, s, i, Match(s, i).1)
  {
    hide FixedText, MatchFixed, StringEnd, Ends;
    if i < |s| {
      assert s[i..i + 1] == [s[i]];
      if s[i] == '"' { StringLiteralIsLongestMatch(s, i + 1); } else { FixedMatches(s, i); }
      SlashText();
    }
  }

  lemma SlashText()
    ensures FixedText(Divide) == "/"
  {
  }

  lemma FixedMatches(s: string, i: nat)
    requires i < |s|
    ensures var m := MatchFixed(s, i);
            m.0.Fixed? ==> FixedText(m.0.token) != "" && s[i..m.1] == FixedText(m.0.token)
    ensures MatchFixed(s, i).0.End? ==> MatchFixed(s, i).1 == i + 1
  {
    assert s[i..i + 1] == [s[i]];
    if i + 1 < |s| { assert s[i..i + 2] == [s[i], s[i + 1]]; }
  }

  // The token of a match. Binary and hexadecimal literals set no value: they keep the one before.
  function TokenOf(s: string, i: nat, rule: Rule, e: nat, last: int): Option<Token>
    requires i <= e <= |s|
  {
    match rule
    case DecRule => Some(Number(ValueOf(10, s[i..e])))
    case OctRule => Some(Number(ValueOf(8, s[i..e])))
    case BinRule => Some(Number(last))
    case HexRule => Some(Number(last))
    case KeyRule => Some(Keyword(s[i..e]))
    case WordRule => Some(Identifier(s[i..e]))
    case AmpRule => if i < e then Some(AmpIdentifier(s[i + 1..e])) else None
    case StringRule => if i + 1 < e then Some(Text(Unescape(s[i + 1..e - 1]))) else None
    case Fixed(t) => Some(t)
    case _ => None
  }

  // lex: the next token after white space and comments, and the place after it.
  function Lex(s: string, i: nat, last: int): (r: (Option<Token>, nat))
    requires i <= |s|
    ensures i <= r.1 <= |s| && (r.0.Some? ==> i < r.1)
    decreases |s| - i
  {
    var m := Match(s, i);
    if m.0 == White || m.0 == Comment then Lex(s, m.1, last)
    else (TokenOf(s, i, m.0, m.1, last), m.1)
  }

  function LastValue(t: Token, last: int): int { if t.Number? then t.n else last }

  // All tokens up to the end of the text, or to a character that starts none.
  function Tokens(s: string, i: nat, last: int): seq<Token>
    requires i <= |s|
    decreases |s| - i
  {
    match Lex(s, i, last)
    case (Some(t), e) => [t] + Tokens(s, e, LastValue(t, last))
    case (None, _) => []
  }

  lemma NumberIsDigits(s: string, i: nat)
    requires i <= |s| && (Match(s, i).0 == DecRule || Match(s, i).0 == OctRule)
    ensures forall c :: c in s[i..Match(s, i).1] ==> Digit(c)
  {
  }

  // lex, with the loops that skip white space and read numbers.
  method NextToken(s: string, start: nat, last: int) returns (token: Option<Token>, cursor: nat)
    requires start <= |s|
    requires match Lex(s, start, last).0 case Some(Number(n)) => n <= INT_MAX case _ => true
    ensures (token, cursor) == Lex(s, start, last)
  {
    hide Match, Unescape, ValueOf;
    cursor := start;
    var m := Match(s, cursor);
    while m.0 == White || m.0 == Comment
      invariant start <= cursor <= |s| && m == Match(s, cursor)
      invariant Lex(s, cursor, last) == Lex(s, start, last)
      decreases |s| - cursor
    {
      cursor := m.1;
      m := Match(s, cursor);
    }
    var tok := cursor;
    cursor := m.1;
    if m.0 == DecRule || m.0 == OctRule {
      NumberIsDigits(s, tok);
      var n := ReadNumber(if m.0 == DecRule then 10 else 8, s, tok, cursor);
      token := Some(Number(n));
    } else if m.0 == StringRule {
      var text := ReadString(s, tok, cursor);
      token := Some(Text(text));
    } else {
      token := TokenOf(s, tok, m.0, cursor, last);
    }
  }
}
