/** The 0/1 knapsack programs compute optima, by rolling, fresh and retained rows. */
module Knapsack {
  import opened Lang

  // ---------- Choices of items ----------

  /** A choice of the first |sel| items. */
  type Choice = seq<bool>

  function Weight(ws: seq<int>, sel: Choice): int
    requires |sel| <= |ws|
  {
    if sel == [] then 0
    else
      var n := |sel| - 1;
      Weight(ws, sel[..n]) + if sel[n] then ws[n] else 0
  }

  function Gain(vs: seq<int>, sel: Choice): int
    requires |sel| <= |vs|
  {
    Weight(vs, sel)
  }

  /** `best` is the greatest gain of any choice among the first `k` items of weight at most `w`. */
  ghost predicate IsBest(ws: seq<int>, vs: seq<int>, k: nat, w: int, best: int)
    requires k <= |ws| && k <= |vs|
  {
    && (exists sel: Choice :: |sel| == k && Weight(ws, sel) <= w && Gain(vs, sel) == best)
    && (forall sel: Choice :: |sel| == k && Weight(ws, sel) <= w ==> Gain(vs, sel) <= best)
  }

  /** The table entry for the first `k` items and capacity `w`. */
  function Opt(ws: seq<int>, vs: seq<int>, k: nat, w: int): int
    requires k <= |ws| && k <= |vs|
  {
    if k == 0 then 0
    else
      var skip := Opt(ws, vs, k - 1, w);
      if ws[k - 1] <= w then
        var take := Opt(ws, vs, k - 1, w - ws[k - 1]) + vs[k - 1];
        if skip < take then take else skip
      else skip
  }

  ghost predicate NonNegative(ws: seq<int>) { forall i :: 0 <= i < |ws| ==> 0 <= ws[i] }

  lemma {:induction false} OptAttained(ws: seq<int>, vs: seq<int>, k: nat, w: int) returns (sel: Choice)
    requires k <= |ws| && k <= |vs| && 0 <= w
    ensures |sel| == k && Weight(ws, sel) <= w && Gain(vs, sel) == Opt(ws, vs, k, w)
  {
    if k == 0 {
      sel := [];
    } else {
      var take := ws[k - 1] <= w && Opt(ws, vs, k - 1, w) < Opt(ws, vs, k - 1, w - ws[k - 1]) + vs[k - 1];
      var rest := OptAttained(ws, vs, k - 1, if take then w - ws[k - 1] else w);
      sel := rest + [take];
      assert sel[..k - 1] == rest;
    }
  }

  lemma {:induction false} WeightNonNegative(ws: seq<int>, sel: Choice)
    requires |sel| <= |ws| && NonNegative(ws)
    ensures 0 <= Weight(ws, sel)
  {
    if sel != [] {
      WeightNonNegative(ws, sel[..|sel| - 1]);
    }
  }

  lemma {:induction false} OptBounds(ws: seq<int>, vs: seq<int>, sel: Choice, w: int)
    requires |sel| <= |ws| && |sel| <= |vs| && NonNegative(ws) && Weight(ws, sel) <= w
    ensures Gain(vs, sel) <= Opt(ws, vs, |sel|, w)
    decreases |sel|
  {
    if sel != [] {
      var n := |sel| - 1;
      var rest := sel[..n];
      WeightNonNegative(ws, rest);
      OptBounds(ws, vs, rest, if sel[n] then w - ws[n] else w);
    }
  }

  /** The table entries are the optima over all choices. */
  lemma OptIsBest(ws: seq<int>, vs: seq<int>, k: nat, w: int)
    requires k <= |ws| && k <= |vs| && 0 <= w && NonNegative(ws)
    ensures IsBest(ws, vs, k, w, Opt(ws, vs, k, w))
  {
    var sel := OptAttained(ws, vs, k, w);
    forall s: Choice | |s| == k && Weight(ws, s) <= w
      ensures Gain(vs, s) <= Opt(ws, vs, k, w)
    {
      OptBounds(ws, vs, s, w);
    }
  }

  // ---------- 64-bit arithmetic ----------

  function Positive(vs: seq<int>, k: nat): nat
    requires k <= |vs|
  {
    if k == 0 then 0 else Positive(vs, k - 1) + if vs[k - 1] > 0 then vs[k - 1] else 0
  }

  /** The values are 64-bit words, and so is the sum of the positive ones. */
  ghost predicate Fits(vs: seq<int>) {
    Positive(vs, |vs|) < TWO63 && forall i :: 0 <= i < |vs| ==> -TWO63 <= vs[i]
  }

  lemma {:induction false} PositiveGrows(vs: seq<int>, k: nat, n: nat)
    requires k <= n <= |vs|
    ensures Positive(vs, k) <= Positive(vs, n)
    decreases n
  {
    if k < n {
      PositiveGrows(vs, k, n - 1);
    }
  }

  lemma {:induction false} OptRange(ws: seq<int>, vs: seq<int>, k: nat, w: int)
    requires k <= |ws| && k <= |vs|
    ensures 0 <= Opt(ws, vs, k, w) <= Positive(vs, k)
  {
    if k > 0 {
      OptRange(ws, vs, k - 1, w);
      if ws[k - 1] <= w { OptRange(ws, vs, k - 1, w - ws[k - 1]); }
    }
  }

  /** No sum the programs form overflows. */
  lemma NoOverflow(ws: seq<int>, vs: seq<int>, k: nat, w: int)
    requires k < |ws| && k < |vs| && Fits(vs)
    ensures Wrap(Opt(ws, vs, k, w) + vs[k]) == Opt(ws, vs, k, w) + vs[k]
  {
    OptRange(ws, vs, k, w);
    PositiveGrows(vs, k + 1, |vs|);
  }

  // ---------- The programs ----------

  ghost predicate Row(a: array<int>, ws: seq<int>, vs: seq<int>, k: nat)
    requires k <= |ws| && k <= |vs|
    reads a
  {
    forall w :: 0 <= w < a.Length ==> a[w] == Opt(ws, vs, k, w)
  }

  /** One row of the table from the row before it. */
  method FillRow(current: array<int>, previous: array<int>, weights: array<int>, values: array<int>, item: nat)
    requires item < values.Length <= weights.Length && NonNegative(weights[..]) && Fits(values[..])
    requires current != previous && current != weights && current != values && current.Length == previous.Length
    requires Row(previous, weights[..], values[..], item)
    modifies current
    ensures Row(current, weights[..], values[..], item + 1)
  {
    ghost var ws, vs := weights[..], values[..];
    var w := 0;
    while w < current.Length
      invariant 0 <= w <= current.Length
      invariant weights[..] == ws && values[..] == vs && Row(previous, ws, vs, item)
      invariant forall i :: 0 <= i < w ==> current[i] == Opt(ws, vs, item + 1, i)
    {
      current[w] := previous[w];
      if weights[item] <= w {
        NoOverflow(ws, vs, item, w - weights[item]);
        if current[w] < Wrap(previous[w - weights[item]] + values[item]) {
          current[w] := Wrap(previous[w - weights[item]] + values[item]);
        }
      }
      w := w + 1;
    }
  }

  method Zeros(n: nat) returns (a: array<int>)
    ensures fresh(a) && a.Length == n && forall i :: 0 <= i < n ==> a[i] == 0
  {
    a := new int[n](_ => 0);
  }

  /** Two rows that change roles after every item. */
  method SolveSwapping(weights: array<int>, values: array<int>, maxWeight: int) returns (result: array<int>)
    requires values.Length <= weights.Length && -1 <= maxWeight
    requires NonNegative(weights[..]) && Fits(values[..])
    ensures fresh(result) && result.Length == maxWeight + 1
    ensures Row(result, weights[..], values[..], values.Length)
    ensures forall w :: 0 <= w <= maxWeight ==> IsBest(weights[..], values[..], values.Length, w, result[w])
  {
    var current := Zeros(maxWeight + 1);
    var previous := Zeros(maxWeight + 1);
    var tmp := Zeros(maxWeight + 1);
    ghost var ws, vs := weights[..], values[..];
    var item := 0;
    while item < values.Length
      invariant 0 <= item <= values.Length
      invariant fresh(current) && fresh(previous) && current != previous
      invariant current.Length == previous.Length == maxWeight + 1
      invariant weights[..] == ws && values[..] == vs && Row(previous, ws, vs, item)
    {
      FillRow(current, previous, weights, values, item);
      tmp := current;
      current := previous;
      previous := tmp;
      item := item + 1;
    }
    result := previous;
    forall w | 0 <= w <= maxWeight
      ensures IsBest(ws, vs, values.Length, w, result[w])
    {
      OptIsBest(ws, vs, values.Length, w);
    }
  }

  /** A new row for every item. */
  method SolveFresh(weights: array<int>, values: array<int>, maxWeight: int) returns (result: array<int>)
    requires values.Length <= weights.Length && -1 <= maxWeight
    requires NonNegative(weights[..]) && Fits(values[..])
    ensures fresh(result) && result.Length == maxWeight + 1
    ensures Row(result, weights[..], values[..], values.Length)
    ensures forall w :: 0 <= w <= maxWeight ==> IsBest(weights[..], values[..], values.Length, w, result[w])
  {
    var current := Zeros(maxWeight + 1);
    var previous := Zeros(maxWeight + 1);
    ghost var ws, vs := weights[..], values[..];
    var item := 0;
    while item < values.Length
      invariant 0 <= item <= values.Length
      invariant fresh(current) && fresh(previous) && current != previous
      invariant current.Length == previous.Length == maxWeight + 1
      invariant weights[..] == ws && values[..] == vs && Row(previous, ws, vs, item)
    {
      FillRow(current, previous, weights, values, item);
      previous := current;
      current := Zeros(maxWeight + 1);
      item := item + 1;
    }
    result := previous;
    forall w | 0 <= w <= maxWeight
      ensures IsBest(ws, vs, values.Length, w, result[w])
    {
      OptIsBest(ws, vs, values.Length, w);
    }
  }

  /** Every row is kept: row k is the table for the first k + 1 items, and rows are different
      arrays. */
  method SolveKeeping(weights: array<int>, values: array<int>, maxWeight: int) returns (all: array<array?<int>>)
    requires values.Length <= weights.Length && -1 <= maxWeight
    requires NonNegative(weights[..]) && Fits(values[..])
    ensures fresh(all) && all.Length == values.Length
    ensures forall k :: 0 <= k < all.Length ==>
              all[k] != null && fresh(all[k]) && all[k].Length == maxWeight + 1 && Row(all[k], weights[..], values[..], k + 1)
    ensures forall j, k :: 0 <= j < k < all.Length ==> all[j] != all[k]
    ensures forall k, w :: 0 <= k < all.Length && 0 <= w <= maxWeight ==>
              IsBest(weights[..], values[..], k + 1, w, all[k][w])
  {
    all := new array?<int>[values.Length](_ => null);
    var current := Zeros(maxWeight + 1);
    var previous := Zeros(maxWeight + 1);
    ghost var ws, vs := weights[..], values[..];
    var item := 0;
    while item < values.Length
      invariant 0 <= item <= values.Length
      invariant fresh(current) && fresh(previous) && current != previous && fresh(all)
      invariant current.Length == previous.Length == maxWeight + 1
      invariant weights[..] == ws && values[..] == vs && Row(previous, ws, vs, item)
      invariant forall k :: 0 <= k < item ==>
                  all[k] != null && fresh(all[k]) && all[k] != current && all[k].Length == maxWeight + 1 && Row(all[k], ws, vs, k + 1)
      invariant forall j, k :: 0 <= j < k < item ==> all[j] != all[k]
    {
      FillRow(current, previous, weights, values, item);
      all[item] := current;
      previous := current;
      current := Zeros(maxWeight + 1);
      item := item + 1;
    }
    forall k, w | 0 <= k < all.Length && 0 <= w <= maxWeight
      ensures IsBest(ws, vs, k + 1, w, all[k][w])
    {
      OptIsBest(ws, vs, k + 1, w);
    }
  }

  lemma BestIsUnique(ws: seq<int>, vs: seq<int>, k: nat, w: int, a: int, b: int)
    requires k <= |ws| && k <= |vs| && IsBest(ws, vs, k, w, a) && IsBest(ws, vs, k, w, b)
    ensures a == b
  {
    var s: Choice :| |s| == k && Weight(ws, s) <= w && Gain(vs, s) == a;
    var t: Choice :| |t| == k && Weight(ws, t) <= w && Gain(vs, t) == b;
  }

  /** A row is the table's if and only if each of its entries is best. */
  lemma RowIsBest(a: array<int>, ws: seq<int>, vs: seq<int>, k: nat)
    requires k <= |ws| && k <= |vs| && NonNegative(ws)
    ensures Row(a, ws, vs, k) <==> forall w :: 0 <= w < a.Length ==> IsBest(ws, vs, k, w, a[w])
  {
    forall w | 0 <= w < a.Length
      ensures IsBest(ws, vs, k, w, a[w]) <==> a[w] == Opt(ws, vs, k, w)
    {
      OptIsBest(ws, vs, k, w);
      if IsBest(ws, vs, k, w, a[w]) { BestIsUnique(ws, vs, k, w, a[w], Opt(ws, vs, k, w)); }
    }
  }

  /** The results of two of the programs agree: an optimum table in one array, and an array of
      best gains found in any way. */
  lemma RowsAgree(a: array<int>, b: array<int>, ws: seq<int>, vs: seq<int>, k: nat)
    requires k <= |ws| && k <= |vs| && NonNegative(ws) && a.Length == b.Length && Row(a, ws, vs, k)
    requires forall w :: 0 <= w < b.Length ==> IsBest(ws, vs, k, w, b[w])
    ensures a[..] == b[..]
  {
    RowIsBest(b, ws, vs, k);
  }
}
