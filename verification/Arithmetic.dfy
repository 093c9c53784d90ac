/** The operators on words, by the laws they obey. */
module Arithmetic {
  import opened Lang

  /** What an operator gives on two words. */
  predicate Gives(op: Op, x: int, y: int, z: Value) { BinOp(op, VInt(x), VInt(y)) == Good(z) }

  /** The word that wrapping gives is the only one that differs by a multiple of 2^64. */
  lemma WrapIsTheWord(n: int, r: int)
    ensures r == Wrap(n) <==> IsWord(r) && (n - r) % TWO64 == 0
  {
    if IsWord(r) && (n - r) % TWO64 == 0 {
      var q, t := (n - r) / TWO64, (n - Wrap(n)) / TWO64;
      assert n == q * TWO64 + r && n == t * TWO64 + Wrap(n);
      assert (q - t) * TWO64 == Wrap(n) - r;
    }
  }

  lemma WrapSame(a: int, b: int, q: int)
    requires a == b + q * TWO64
    ensures Wrap(a) == Wrap(b)
  {
    var r := Wrap(b);
    assert a - r == (b - r) + q * TWO64;
    var t := (b - r) / TWO64;
    assert a - r == (t + q) * TWO64;
    Multiple(t + q);
    WrapIsTheWord(a, r);
  }

  lemma Multiple(q: int)
    ensures (q * TWO64) % TWO64 == 0
  {
  }

  lemma WrapDiffers(n: int) returns (q: int)
    ensures n == Wrap(n) + q * TWO64
  {
    q := (n - Wrap(n)) / TWO64;
  }

  /** Adding one is the next word, and after the greatest comes the least; subtraction undoes
      addition. */
  lemma Sums(x: int, y: int)
    requires IsWord(x) && IsWord(y)
    ensures Gives(Add, x, 0, VInt(x)) && Gives(Add, x, 1, VInt(if x + 1 == TWO63 then -TWO63 else x + 1))
    ensures exists z :: IsWord(z) && Gives(Add, x, y, VInt(z)) && Gives(Add, y, x, VInt(z)) && Gives(Sub, z, y, VInt(x))
    ensures y + 1 < TWO63 ==> exists z, w :: Gives(Add, x, y, VInt(z)) && Gives(Add, x, y + 1, VInt(w)) && Gives(Add, z, 1, VInt(w))
  {
    var z := Wrap(x + y);
    var q := WrapDiffers(x + y);
    WrapSame(x, z - y, q);
    assert IsWord(z) && Gives(Add, x, y, VInt(z)) && Gives(Sub, z, y, VInt(x));
    if y + 1 < TWO63 {
      var w := Wrap(x + (y + 1));
      WrapSame(x + (y + 1), z + 1, q);
      assert Gives(Add, x, y, VInt(z)) && Gives(Add, x, y + 1, VInt(w)) && Gives(Add, z, 1, VInt(w));
    }
  }

  /** Multiplication is repeated addition, in both directions. */
  lemma Products(x: int, y: int)
    requires IsWord(x) && IsWord(y)
    ensures Gives(Mul, x, 0, VInt(0)) && Gives(Mul, x, 1, VInt(x))
    ensures exists z :: IsWord(z) && Gives(Mul, x, y, VInt(z))
              && (y + 1 < TWO63 ==> exists w :: Gives(Mul, x, y + 1, VInt(w)) && Gives(Add, z, x, VInt(w)))
              && (-TWO63 < y ==> exists w :: Gives(Mul, x, y - 1, VInt(w)) && Gives(Sub, z, x, VInt(w)))
  {
    var z := Wrap(x * y);
    var q := WrapDiffers(x * y);
    if y + 1 < TWO63 {
      NextProduct(x, y, 1);
      WrapSame(x * (y + 1), z + x, q);
      assert Gives(Mul, x, y + 1, VInt(Wrap(x * (y + 1)))) && Gives(Add, z, x, VInt(Wrap(x * (y + 1))));
    }
    if -TWO63 < y {
      NextProduct(x, y, -1);
      WrapSame(x * (y - 1), z - x, q);
      assert Gives(Mul, x, y - 1, VInt(Wrap(x * (y - 1)))) && Gives(Sub, z, x, VInt(Wrap(x * (y - 1))));
    }
    assert Gives(Mul, x, y, VInt(z));
  }

  lemma NextProduct(x: int, y: int, d: int)
    ensures x * (y + d) == x * y + x * d
  {
  }

  /** Division: the quotient times the divisor, and a remainder smaller than the divisor with the
      sign of the dividend, make the dividend.  It fails by zero, and when the quotient of the
      least word by -1 is no word. */
  lemma Quotients(x: int, y: int)
    requires IsWord(x) && IsWord(y)
    ensures BinOp(Div, VInt(x), VInt(y)) == Bad(Arith) <==> y == 0 || (y == -1 && !IsWord(-x))
    ensures y != 0 && (y != -1 || IsWord(-x)) ==>
              exists q, r :: IsWord(q) && Gives(Div, x, y, VInt(q)) && x == q * y + r && Abs(r) < Abs(y)
                             && (r < 0 ==> x < 0) && (r > 0 ==> x > 0)
  {
    if y != 0 {
      var q := TruncDiv(x, y);
      var r := Truncates(x, y, q);
      if IsWord(-x) || y != -1 {
        QuotientIsWord(x, y, q, r);
        assert Gives(Div, x, y, VInt(q));
      }
    }
  }

  lemma Truncates(x: int, y: int, q: int) returns (r: int)
    requires y != 0 && q == TruncDiv(x, y)
    ensures x == q * y + r && Abs(r) < Abs(y) && (r < 0 ==> x < 0) && (r > 0 ==> x > 0) && Abs(q) <= Abs(x)
  {
    DivMod(Abs(x), Abs(y));
    r := Assemble(x, y, q, Abs(x) / Abs(y), Abs(x) % Abs(y));
  }

  lemma Assemble(x: int, y: int, q: int, d: int, rem: int) returns (r: int)
    requires y != 0 && q == (if (x < 0) == (y < 0) then d else -d)
    requires Abs(x) == d * Abs(y) + rem && 0 <= rem < Abs(y) && d >= 0
    ensures x == q * y + r && Abs(r) < Abs(y) && (r < 0 ==> x < 0) && (r > 0 ==> x > 0) && Abs(q) <= Abs(x)
  {
    r := if x < 0 then 0 - rem else rem;
    Signs(x, y, q, d, Abs(y));
    Shrinks(Abs(x), Abs(y), d, rem);
  }

  lemma DivMod(a: nat, b: nat)
    requires b > 0
    ensures a == (a / b) * b + a % b && 0 <= a % b < b && a / b >= 0
  {
  }

  lemma Shrinks(a: int, b: int, d: int, rem: int)
    requires b > 0 && a == d * b + rem && rem >= 0 && d >= 0
    ensures d <= a
  {
    assert d * b == d + d * (b - 1);
    assert d * (b - 1) >= 0;
  }

  lemma Signs(x: int, y: int, q: int, d: int, b: int)
    requires b == (if y < 0 then -y else y) && q == if (x < 0) == (y < 0) then d else -d
    ensures q * y == if x < 0 then -(d * b) else d * b
  {
  }

  lemma QuotientIsWord(x: int, y: int, q: int, r: int)
    requires IsWord(x) && y != 0 && x == q * y + r && Abs(r) < Abs(y) && Abs(q) <= Abs(x)
    requires (r < 0 ==> x < 0) && (r > 0 ==> x > 0) && (IsWord(-x) || y != -1)
    ensures IsWord(q)
  {
  }

  function Plus(x: int, d: nat): int { x + d }

  /** The comparisons: less is to be reached by adding something positive, and the others follow. */
  lemma Comparisons(x: int, y: int)
    ensures Gives(Lt, x, y, VBool(true)) <==> exists d: nat :: d > 0 && Plus(x, d) == y
    ensures Gives(Lt, x, y, VBool(true)) || Gives(Lt, x, y, VBool(false))
    ensures forall b :: Gives(Gt, x, y, VBool(b)) <==> Gives(Lt, y, x, VBool(b))
    ensures forall b :: Gives(Le, x, y, VBool(b)) <==> Gives(Gt, x, y, VBool(!b))
    ensures forall b :: Gives(Ge, x, y, VBool(b)) <==> Gives(Lt, x, y, VBool(!b))
    ensures Gives(Eq, x, y, VBool(true)) <==> Gives(Le, x, y, VBool(true)) && Gives(Ge, x, y, VBool(true))
    ensures Gives(Eq, x, y, VBool(true)) || Gives(Eq, x, y, VBool(false))
  {
    if x < y { assert Plus(x, y - x) == y; }
  }

  /** Which operands an operator takes: integers; a comparison result has another width, and
      anything else is of the wrong kind. */
  lemma Operands(op: Op, a: Value, b: Value)
    ensures BinOp(op, a, b) == Bad(Width) <==> (a.VInt? || a.VBool?) && (b.VInt? || b.VBool?) && (a.VBool? || b.VBool?)
    ensures BinOp(op, a, b) == Bad(Stuck) <==> !(a.VInt? || a.VBool?) || !(b.VInt? || b.VBool?)
    ensures BinOp(op, a, b) == Bad(Arith) ==> op == Div
  {
  }
}
