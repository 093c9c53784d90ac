/** The order in which a `std::map` with string keys is visited. */
module NameOrder {
  /** The order of `std::string`. */
  predicate Before(a: string, b: string) {
    b != [] && (a == [] || a[0] < b[0] || (a[0] == b[0] && Before(a[1..], b[1..])))
  }

  /** One is a proper prefix of the other, or has the lesser character where they first differ. */
  ghost predicate Lexicographic(a: string, b: string) {
    exists n: nat :: n <= |a| && n < |b| && a[..n] == b[..n] && (n == |a| || a[n] < b[n])
  }

  lemma {:induction false} BeforeIsLexicographic(a: string, b: string)
    ensures Before(a, b) <==> Lexicographic(a, b)
  {
    if b == [] || a == [] {
      if b != [] { assert a[..0] == b[..0]; }
    } else {
      BeforeIsLexicographic(a[1..], b[1..]);
      if a[0] == b[0] && Before(a[1..], b[1..]) {
        var n: nat :| n <= |a[1..]| && n < |b[1..]| && a[1..][..n] == b[1..][..n] && (n == |a[1..]| || a[1..][n] < b[1..][n]);
        assert a[..n + 1] == [a[0]] + a[1..][..n] && b[..n + 1] == [b[0]] + b[1..][..n];
      } else if a[0] < b[0] {
        assert a[..0] == b[..0];
      }
      if Lexicographic(a, b) {
        var n: nat :| n <= |a| && n < |b| && a[..n] == b[..n] && (n == |a| || a[n] < b[n]);
        if n > 0 {
          assert a[0] == a[..n][0] && b[0] == b[..n][0];
          assert a[1..][..n - 1] == a[..n][1..] && b[1..][..n - 1] == b[..n][1..];
          assert n - 1 <= |a[1..]| && n - 1 < |b[1..]|;
          assert Lexicographic(a[1..], b[1..]);
        }
      }
    }
  }

  lemma {:induction false} BeforeIsTotal(a: string, b: string)
    ensures a == b || Before(a, b) || Before(b, a)
  {
    if a != [] && b != [] && a[0] == b[0] {
      BeforeIsTotal(a[1..], b[1..]);
      assert a == [a[0]] + a[1..] && b == [b[0]] + b[1..];
    }
  }

  lemma {:induction false} BeforeIsTransitive(a: string, b: string, c: string)
    requires Before(a, b) && Before(b, c)
    ensures Before(a, c)
  {
    if a != [] && a[0] == b[0] == c[0] { BeforeIsTransitive(a[1..], b[1..], c[1..]); }
  }

  lemma {:induction false} BeforeIsStrict(a: string, b: string)
    requires Before(a, b)
    ensures a != b && !Before(b, a)
  {
    if a != [] && a[0] == b[0] { BeforeIsStrict(a[1..], b[1..]); }
  }

  /** Keys are visited in order, so that a `std::map` loop knows its next key. */
  lemma {:induction false} FirstKey(keys: set<string>) returns (k: string)
    requires keys != {}
    ensures k in keys && forall q :: q in keys ==> q == k || Before(k, q)
    decreases |keys|
  {
    k :| k in keys;
    var rest := keys - {k};
    assert forall q :: q in keys ==> q == k || q in rest;
    if rest != {} {
      var f := FirstKey(rest);
      BeforeIsTotal(f, k);
      var first := if Before(f, k) then f else k;
      forall q | q in keys
        ensures q == first || Before(first, q)
      {
        if first == k && q != k && q != f { BeforeIsTransitive(k, f, q); }
      }
      k := first;
    }
  }

  lemma LastKey(keys: set<string>) returns (k: string)
    requires keys != {}
    ensures k in keys && forall q :: q in keys ==> q == k || Before(q, k)
    decreases |keys|
  {
    k :| k in keys;
    var rest := keys - {k};
    assert forall q :: q in keys ==> q == k || q in rest;
    if rest != {} {
      var f := LastKey(rest);
      BeforeIsTotal(f, k);
      var last := if Before(k, f) then f else k;
      forall q | q in keys
        ensures q == last || Before(q, last)
      {
        if last == k && q != k && q != f { BeforeIsTransitive(q, f, k); }
      }
      k := last;
    }
  }
}
