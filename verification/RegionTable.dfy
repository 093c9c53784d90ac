// The region runtime: a growable table of the blocks allocated in a region (src/rtlib/regions.c).
module RegionTable {
  import opened Basics

  // The C allocator. An address is never handed out while it is live, and only a live one may be freed.
  class Allocator {
    var live: set<nat>
    var next: nat
    var frees: seq<nat>

    ghost predicate Valid()
      reads this
    {
      forall a :: a in live ==> a < next
    }

    constructor ()
      ensures Valid() && live == {} && frees == []
    {
      live, next, frees := {}, 0, [];
    }

    method Malloc() returns (a: nat)
      requires Valid()
      modifies this
      ensures Valid() && a !in old(live) && live == old(live) + {a} && frees == old(frees)
    {
      a := next;
      next := next + 1;
      live := live + {a};
    }

    // The block may stay where it is or move.
    method Realloc(a: nat) returns (b: nat)
      requires Valid() && a in live
      modifies this
      ensures Valid() && (b == a || b !in old(live))
      ensures live == old(live) - {a} + {b} && frees == old(frees)
    {
      b := a;
      if * {
        b := next;
        next := next + 1;
        live := live - {a} + {b};
      }
    }

    method Free(a: nat)
      requires Valid() && a in live
      modifies this
      ensures Valid() && live == old(live) - {a} && frees == old(frees) + [a]
    {
      live := live - {a};
      frees := frees + [a];
    }
  }

  const INITIAL: nat := 64
  const FACTOR: nat := 4
  const INT_MAX: nat := 0x7fff_ffff

  // Capacity after n allocations into a new region, and how many entries growing has moved by then.
  function CapacityAfter(n: nat): nat {
    if n == 0 then INITIAL
    else if CapacityAfter(n - 1) == n - 1 then FACTOR * CapacityAfter(n - 1)
    else CapacityAfter(n - 1)
  }

  function MovedAfter(n: nat): nat {
    if n == 0 then 0
    else if CapacityAfter(n - 1) == n - 1 then MovedAfter(n - 1) + (n - 1)
    else MovedAfter(n - 1)
  }

  function Power(k: nat): nat { if k == 0 then INITIAL else FACTOR * Power(k - 1) }

  // The capacity is the least number of the form 64 * 4^k that holds n entries.
  lemma {:induction false} CapacityIsLeastPower(n: nat) returns (k: nat)
    ensures CapacityAfter(n) == Power(k)
    ensures n <= Power(k)
    ensures forall j: nat :: j < k ==> Power(j) < n
  {
    if n == 0 {
      k := 0;
    } else {
      k := CapacityIsLeastPower(n - 1);
      if CapacityAfter(n - 1) == n - 1 {
        forall j: nat | j < k + 1 ensures Power(j) < n { if j < k { assert Power(j) < n - 1; } }
        k := k + 1;
        assert Power(k) == FACTOR * Power(k - 1) && Power(k - 1) == n - 1;
        PowerPositive(k - 1);
      }
    }
  }

  lemma {:induction false} PowerPositive(k: nat)
    ensures Power(k) >= INITIAL
  {
    if k > 0 { PowerPositive(k - 1); }
  }

  // Growing is amortised: it moves fewer than 4/3 entries per allocation, and never wastes more than three
  // quarters of the table.
  lemma {:induction false} AmortisedGrowth(n: nat)
    ensures 3 * MovedAfter(n) == CapacityAfter(n) - 64
    ensures CapacityAfter(n) == 64 || CapacityAfter(n) <= 4 * n
    ensures n <= CapacityAfter(n)
    ensures 3 * MovedAfter(n) <= 4 * n
  {
    if n > 0 { AmortisedGrowth(n - 1); }
  }

  // The table of one region. The entries are the blocks handed out, oldest first.
  class Region {
    var size: int
    var capacity: nat
    var entries: array<nat>
    var table: nat
    const self: nat
    const heap: Allocator
    ghost var moved: nat

    ghost function Blocks(): seq<nat>
      requires 0 <= size <= entries.Length
      reads this, entries
    {
      entries[..size]
    }

    ghost predicate Valid()
      reads this, entries, heap
    {
      && 0 <= size <= INT_MAX && entries.Length == capacity
      && capacity == CapacityAfter(size) && moved == MovedAfter(size) && size <= capacity
      && heap.Valid()
      && Distinct(Blocks() + [table, self])
      && (forall b :: b in Blocks() + [table, self] ==> b in heap.live)
    }

    // NewRegion
    constructor (heap: Allocator)
      requires heap.Valid()
      modifies heap
      ensures Valid() && Blocks() == [] && capacity == 64 && fresh(entries) && this.heap == heap
      ensures table != self && {table, self} !! old(heap.live) && heap.live == old(heap.live) + {table, self}
      ensures heap.frees == old(heap.frees)
    {
      var r := heap.Malloc();
      var t := heap.Malloc();
      this.heap := heap;
      self := r;
      table := t;
      size := 0;
      capacity := INITIAL;
      entries := new nat[INITIAL];
      moved := 0;
      new;
      assert Blocks() + [table, self] == [t, r];
    }

    method RegionAlloc() returns (a: nat)
      requires Valid() && size < INT_MAX
      modifies this, entries, heap
      ensures Valid() && (entries == old(entries) || fresh(entries))
      ensures Blocks() == old(Blocks()) + [a]
      ensures a !in old(heap.live) - {old(table)} && a != table && heap.frees == old(heap.frees)
      ensures table == old(table) || table !in old(heap.live)
      ensures heap.live == old(heap.live) - {old(table)} + {table, a}
    {
      ghost var before := Blocks();
      assert self != table && table in heap.live && self in heap.live by { LastTwo(before, table, self); }
      if size == capacity {
        capacity := capacity * 4;
        table := heap.Realloc(table);
        var wider := new nat[capacity];
        forall i | 0 <= i < size { wider[i] := entries[i]; }
        entries := wider;
        moved := moved + size;
      }
      assert Blocks() == before;
      a := heap.Malloc();
      entries[size] := a;
      size := size + 1;
      assert size <= CapacityAfter(size) by { AmortisedGrowth(size); }
      assert Blocks() == before + [a];
      NewBlockIsDistinct(before, old(table), self, table, a, old(heap.live));
    }

    // DeleteRegion. Free demands a live block, so no block is freed twice.
    method DeleteRegion()
      requires Valid()
      modifies heap
      ensures heap.Valid()
      ensures heap.frees == old(heap.frees) + Blocks() + [table, self]
      ensures heap.live == old(heap.live) - Members(Blocks()) - {table, self}
    {
      ghost var all := Blocks() + [table, self];
      var i := 0;
      while i < size
        invariant 0 <= i <= size && heap.Valid()
        invariant heap.frees == old(heap.frees) + Blocks()[..i]
        invariant heap.live == old(heap.live) - Members(Blocks()[..i])
      {
        assert entries[i] == all[i] && all[i] in all;
        forall b | b in Members(Blocks()[..i]) ensures b != entries[i] {
          var j :| 0 <= j < i && Blocks()[j] == b;
          assert all[j] == b;
        }
        heap.Free(entries[i]);
        assert Blocks()[..i + 1] == Blocks()[..i] + [entries[i]];
        i := i + 1;
      }
      assert Blocks()[..i] == Blocks();
      assert all[size] == table && all[size + 1] == self;
      assert table in all && self in all;
      forall b | b in Members(Blocks()) ensures b != table && b != self {
        var j :| 0 <= j < size && Blocks()[j] == b;
        assert all[j] == b;
      }
      heap.Free(table);
      heap.Free(self);
    }
  }

  ghost function Members(s: seq<nat>): set<nat> { set b | b in s }

  lemma LastTwo(blocks: seq<nat>, table: nat, self: nat)
    requires Distinct(blocks + [table, self])
    ensures table != self && table in blocks + [table, self] && self in blocks + [table, self]
  {
    var all := blocks + [table, self];
    assert all[|blocks|] == table && all[|blocks| + 1] == self;
  }

  lemma NewBlockIsDistinct(blocks: seq<nat>, was: nat, self: nat, now: nat, a: nat, live: set<nat>)
    requires Distinct(blocks + [was, self])
    requires forall b :: b in blocks + [was, self] ==> b in live
    requires now == was || now !in live
    requires a !in live - {was} && a != now
    ensures Distinct(blocks + [a] + [now, self])
    ensures forall b :: b in blocks + [a] + [now, self] ==> b in live - {was} + {now, a}
  {
    var old_ := blocks + [was, self];
    var s := blocks + [a] + [now, self];
    var n := |blocks|;
    assert old_[n] == was && old_[n + 1] == self;
    forall i | 0 <= i < n ensures s[i] == blocks[i] == old_[i] && blocks[i] in live && blocks[i] != was { assert old_[i] in old_; }
    assert was in old_ && self in old_ && s[n] == a && s[n + 1] == now && s[n + 2] == self;
  }

  // A region of any number of blocks leaves nothing behind, and frees each of its blocks exactly once.
  method RegionLifetime(heap: Allocator, n: nat) returns (ghost blocks: seq<nat>)
    requires heap.Valid() && n <= INT_MAX
    modifies heap
    ensures heap.Valid() && heap.live == old(heap.live)
    ensures |blocks| == n && Members(blocks) !! old(heap.live)
    ensures |heap.frees| == |old(heap.frees)| + n + 2 && old(heap.frees) <= heap.frees
    ensures blocks == heap.frees[|old(heap.frees)|..][..n]
    ensures Distinct(heap.frees[|old(heap.frees)|..])
  {
    var r := new Region(heap);
    for i := 0 to n
      invariant r.Valid() && r.heap == heap && r.size == i && fresh(r) && fresh(r.entries)
      invariant heap.live == old(heap.live) + Members(r.Blocks()) + {r.table, r.self}
      invariant Members(r.Blocks()) + {r.table, r.self} !! old(heap.live)
      invariant heap.frees == old(heap.frees)
    {
      ghost var before, t := r.Blocks(), r.table;
      ghost var live := heap.live;
      var all := before + [t, r.self];
      assert all[i] == t;
      forall b | b in Members(before) ensures b != t { var j :| 0 <= j < i && before[j] == b; assert all[j] == b; }
      assert r.self != t by { assert all[i + 1] == r.self; }
      var a := r.RegionAlloc();
      assert Members(r.Blocks()) == Members(before) + {a};
    }
    blocks := r.Blocks();
    ghost var whole := blocks + [r.table, r.self];
    r.DeleteRegion();
    assert heap.frees == old(heap.frees) + whole;
    assert heap.frees[|old(heap.frees)|..] == whole;
  }
}
