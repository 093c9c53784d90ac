// The chain of code generation contexts (src/CodegenContext.cpp): what a name and a region name mean in it, and
// that it agrees with the flat scopes of `Lang`.
module Scopes {
  import opened Basics
  import opened RegionTypes
  import opened Lang

  datatype Entry = Entry(tag: Tag, value: nat)

  function Tags(es: seq<Entry>): (ts: seq<Tag>)
    ensures |ts| == |es| && forall i :: 0 <= i < |es| ==> ts[i] == es[i].tag
  {
    seq(|es|, i requires 0 <= i < |es| => es[i].tag)
  }

  // The flat reading of a lookup: the value declared at the place `Find` gives, and whether it can be assigned.
  function Meaning(es: seq<Entry>, x: Name): Option<(nat, bool)> {
    match Find(Tags(es), x)
    case Some(i) => Some((es[i].value, es[i].tag.isVar))
    case None => None
  }

  // The value of the last entry of that name and kind.
  function Last(es: seq<Entry>, x: Name, isVar: bool): Option<nat> {
    if es == [] then None
    else
      var e := es[|es| - 1];
      if e.tag.name == x && e.tag.isVar == isVar then Some(e.value) else Last(es[..|es| - 1], x, isVar)
  }

  function At(m: map<Name, nat>, x: Name): Option<nat> { if x in m then Some(m[x]) else None }

  class Context {
    const parent: Context?
    const defaultRegion: Name
    const region: Option<nat>
    var variables: map<Name, nat>
    var values: map<Name, nat>
    // What was declared in this context, oldest first; its nesting depth; it and the contexts around it; and the
    // regions opened by them, outermost first.
    ghost var declared: seq<Entry>
    ghost const depth: nat
    ghost const chain: set<Context>
    ghost const handles: seq<(Name, nat)>

    ghost predicate Valid()
      reads this, chain
      decreases chain
    {
      && this in chain
      && (parent == null ==> depth == 0 && chain == {this} && region.None? && handles == [] && variables == map[])
      && (parent != null ==>
            && parent in chain && parent.chain < chain && chain == parent.chain + {this} && this !in parent.chain
            && parent.Valid() && depth == parent.depth + 1
            && (|| (region.Some? && handles == parent.handles + [(defaultRegion, region.value)])
                || (handles == parent.handles && defaultRegion == parent.defaultRegion && region == parent.region)))
      && (forall e :: e in declared ==> e.tag.depth == depth)
      && (forall x :: At(variables, x) == Last(declared, x, true))
      && (forall x :: At(values, x) == Last(declared, x, false))
    }

    ghost function Entries(): seq<Entry>
      requires Valid()
      reads this, chain
      decreases chain
    {
      (if parent == null then [] else parent.Entries()) + declared
    }

    // The context of a module.
    constructor Root()
      ensures Valid() && Entries() == [] && handles == [] && fresh(chain) && parent == null
    {
      parent, defaultRegion, region := null, "", None;
      variables, values, declared := map[], map[], [];
      depth, handles, chain := 0, [], {this};
    }

    // The body of a loop: a new scope in the same region.
    constructor Child(parent: Context)
      requires parent.Valid()
      ensures Valid() && this.parent == parent && depth == parent.depth + 1 && chain == parent.chain + {this}
      ensures Entries() == parent.Entries() && handles == parent.handles
    {
      this.parent, defaultRegion, region := parent, parent.defaultRegion, parent.region;
      variables, values, declared := map[], map[], [];
      depth, handles, chain := parent.depth + 1, parent.handles, parent.chain + {this};
    }

    // The body of `on`, or of a function: a new scope whose default region is the one named.
    constructor In(parent: Context, name: Name, handle: nat)
      requires parent.Valid()
      ensures Valid() && this.parent == parent && depth == parent.depth + 1 && chain == parent.chain + {this}
      ensures Entries() == parent.Entries() && handles == parent.handles + [(name, handle)]
    {
      this.parent, defaultRegion, region := parent, name, Some(handle);
      variables, values, declared := map[], map[], [];
      depth, handles, chain := parent.depth + 1, parent.handles + [(name, handle)], parent.chain + {this};
    }

    method AddVariable(name: Name, value: nat)
      requires Valid() && parent != null
      modifies this
      ensures Valid() && Entries() == old(Entries()) + [Entry(Tag(name, true, depth), value)]
    {
      variables := variables[name := value];
      Declare(name, true, value);
    }

    method AddValue(name: Name, value: nat)
      requires Valid()
      modifies this
      ensures Valid() && Entries() == old(Entries()) + [Entry(Tag(name, false, depth), value)]
    {
      values := values[name := value];
      Declare(name, false, value);
    }

    ghost method Declare(name: Name, isVar: bool, value: nat)
      modifies this`declared
      ensures declared == old(declared) + [Entry(Tag(name, isVar, depth), value)]
      ensures forall x, v :: Last(declared, x, v) ==
                             if x == name && v == isVar then Some(value) else Last(old(declared), x, v)
    {
      declared := declared + [Entry(Tag(name, isVar, depth), value)];
      assert declared[..|declared| - 1] == old(declared);
    }

    // getValue: variables before values, then the context around. It means what the flat scopes say.
    method GetValue(name: Name) returns (r: Option<(nat, bool)>)
      requires Valid()
      ensures r == Meaning(Entries(), name)
      decreases chain
    {
      ghost var outer := if parent == null then [] else parent.Entries();
      if parent != null { DepthsBelow(parent); }
      InnermostScope(outer, declared, depth, name);
      if name in variables {
        return Some((variables[name], true));
      }
      if name in values {
        return Some((values[name], false));
      }
      if parent == null {
        return None;
      }
      r := parent.GetValue(name);
    }

    // getRegionHandle: the innermost region of that name.
    method GetRegionHandle(name: Name) returns (r: Option<nat>)
      requires Valid()
      ensures r == GetHandle(handles, name)
      decreases chain
    {
      r := if defaultRegion == name then region else None;
      if r.None? && parent != null {
        r := parent.GetRegionHandle(name);
      } else if r.Some? {
        SameRegionHandle(this);
      }
    }
  }

  // A context without a region of its own stands in the region opened last around it.
  lemma {:induction false} SameRegionHandle(ctx: Context)
    requires ctx.Valid()
    ensures ctx.region.None? ==> ctx.handles == []
    ensures ctx.region.Some? ==>
              ctx.handles != [] && ctx.handles[|ctx.handles| - 1] == (ctx.defaultRegion, ctx.region.value)
    decreases ctx.chain
  {
    if ctx.parent != null { SameRegionHandle(ctx.parent); }
  }

  lemma {:induction false} DepthsBelow(ctx: Context)
    requires ctx.Valid()
    ensures forall e :: e in ctx.Entries() ==> e.tag.depth <= ctx.depth
    decreases ctx.chain
  {
    if ctx.parent != null { DepthsBelow(ctx.parent); }
  }

  // A lookup in the flat scopes is a lookup in the innermost scope first, `var` before `let`.
  lemma {:induction false} InnermostScope(outer: seq<Entry>, own: seq<Entry>, d: nat, x: Name)
    requires forall e :: e in own ==> e.tag.depth == d
    requires forall e :: e in outer ==> e.tag.depth < d
    ensures Meaning(outer + own, x) ==
            if Last(own, x, true).Some? then Some((Last(own, x, true).value, true))
            else if Last(own, x, false).Some? then Some((Last(own, x, false).value, false))
            else Meaning(outer, x)
  {
    if own == [] {
      assert outer + own == outer;
    } else {
      var n := |own| - 1;
      var all := outer + own;
      var e := own[n];
      assert all[|all| - 1] == e && all[..|all| - 1] == outer + own[..n];
      assert Tags(all)[..|all| - 1] == Tags(outer + own[..n]);
      assert e in own;
      if e.tag.name != x {
        InnermostScope(outer, own[..n], d, x);
      } else if !e.tag.isVar {
        LastVariable(outer, own[..n], d, x);
      }
    }
  }

  lemma {:induction false} LastVariable(outer: seq<Entry>, own: seq<Entry>, d: nat, x: Name)
    requires forall e :: e in own ==> e.tag.depth == d
    requires forall e :: e in outer ==> e.tag.depth < d
    ensures match FindVar(Tags(outer + own), x, d)
            case Some(i) => Last(own, x, true) == Some((outer + own)[i].value) && (outer + own)[i].tag.isVar
            case None => Last(own, x, true) == None
  {
    var all := outer + own;
    if own == [] {
      assert all == outer;
      NoVariable(outer, d, x);
    } else {
      var n := |own| - 1;
      assert all[|all| - 1] == own[n] && all[..|all| - 1] == outer + own[..n];
      assert Tags(all)[..|all| - 1] == Tags(outer + own[..n]);
      assert own[n] in own;
      LastVariable(outer, own[..n], d, x);
    }
  }

  lemma {:induction false} NoVariable(es: seq<Entry>, d: nat, x: Name)
    requires forall e :: e in es ==> e.tag.depth < d
    ensures FindVar(Tags(es), x, d).None?
  {
    if es != [] {
      var n := |es| - 1;
      assert es[n] in es;
      assert Tags(es)[..n] == Tags(es[..n]);
      NoVariable(es[..n], d, x);
    }
  }

  // The entries are kept, and these names were added.
  ghost predicate Grown(was: seq<Entry>, now: seq<Entry>, more: seq<Tag>) {
    was <= now && Tags(now) == Tags(was) + more
  }

  lemma GrownBy(was: seq<Entry>, more: seq<Entry>)
    ensures Grown(was, was + more, Tags(more))
    ensures more == [] ==> was + more == was && Tags(more) == []
    ensures |more| == 1 ==> Tags(more) == [more[0].tag]
  {
  }

  lemma GrownTwice(was: seq<Entry>, mid: seq<Entry>, now: seq<Entry>, more: seq<Tag>, yet: seq<Tag>)
    requires Grown(was, mid, more) && Grown(mid, now, yet)
    ensures Grown(was, now, more + yet) && was <= mid <= now
  {
  }

  // The entries added from `from` on have values of their own, handed out in order between lo and hi.
  ghost predicate InOrder(es: seq<Entry>, from: nat, lo: nat, hi: nat) {
    && lo <= hi && from <= |es|
    && (forall i :: from <= i < |es| ==> lo <= es[i].value < hi)
    && forall i, j :: from <= i < j < |es| ==> es[i].value < es[j].value
  }

  lemma InOrderTwice(was: seq<Entry>, mid: seq<Entry>, now: seq<Entry>, lo: nat, n: nat, hi: nat)
    requires was <= mid <= now && InOrder(mid, |was|, lo, n) && InOrder(now, |mid|, n, hi)
    ensures InOrder(now, |was|, lo, hi)
  {
    forall i | |was| <= i < |mid| ensures lo <= now[i].value < n { assert now[i] == mid[i]; }
    forall i, j | |was| <= i < j < |mid| ensures now[i].value < now[j].value { assert now[i] == mid[i] && now[j] == mid[j]; }
  }

  // What generating code for a statement does to the contexts. The values are numbered from `next` on. A loop or
  // `on` body leaves the context around it alone, and a `for` adds its own name to it and nothing else.
  method Generate(ctx: Context, s: Stmt, next: nat) returns (n: nat)
    requires ctx.Valid() && ctx.parent != null
    modifies ctx
    ensures ctx.Valid()
    ensures Grown(old(ctx.Entries()), ctx.Entries(), Declared(s, ctx.depth))
    ensures InOrder(ctx.Entries(), |old(ctx.Entries())|, next, n)
    decreases s, 1
  {
    hide Context.Valid, Context.Entries, Tags, Find, FindVar, Last;
    ghost var was := ctx.Entries();
    n := next;
    match s
    case Skip => GrownBy(was, []);
    case Assign(_, _) => GrownBy(was, []);
    case Do(_) => GrownBy(was, []);
    case Seq(a, b) => n := GenerateTwo(ctx, s, a, b, n);
    case If(_, a, b) => n := GenerateTwo(ctx, s, a, b, n);
    case Var(x, _) =>
      ctx.AddVariable(x, n);
      GrownBy(was, [Entry(Tag(x, true, ctx.depth), n)]);
      n := n + 1;
    case Let(x, _) =>
      ctx.AddValue(x, n);
      GrownBy(was, [Entry(Tag(x, false, ctx.depth), n)]);
      n := n + 1;
    case While(_, _) =>
      n := GenerateWhile(ctx, s, n);
      GrownBy(was, []);
    case For(x, _, _, _) =>
      GrownBy(was, [Entry(Tag(x, false, ctx.depth), n)]);
      n := GenerateFor(ctx, s, n);
    case On(_, _) =>
      n := GenerateOn(ctx, s, n);
      GrownBy(was, []);
  }

  // One statement after the other, or the two arms of an `if`: neither opens a scope.
  method GenerateTwo(ctx: Context, ghost s: Stmt, a: Stmt, b: Stmt, next: nat) returns (n: nat)
    requires ctx.Valid() && ctx.parent != null && a < s && b < s
    modifies ctx
    ensures ctx.Valid()
    ensures Grown(old(ctx.Entries()), ctx.Entries(), Declared(a, ctx.depth) + Declared(b, ctx.depth))
    ensures InOrder(ctx.Entries(), |old(ctx.Entries())|, next, n)
    decreases s, 0
  {
    hide Context.Valid, Context.Entries, Grown, InOrder, Declared;
    ghost var was := ctx.Entries();
    var mid := Generate(ctx, a, next);
    ghost var between := ctx.Entries();
    n := Generate(ctx, b, mid);
    GrownTwice(was, between, ctx.Entries(), Declared(a, ctx.depth), Declared(b, ctx.depth));
    InOrderTwice(was, between, ctx.Entries(), next, mid, n);
  }

  method GenerateWhile(ctx: Context, s: Stmt, next: nat) returns (n: nat)
    requires ctx.Valid() && ctx.parent != null && s.While?
    ensures ctx.Valid() && ctx.Entries() == old(ctx.Entries()) && next <= n
    decreases s, 0
  {
    var inner := new Context.Child(ctx);
    n := Generate(inner, s.body, next);
  }

  method GenerateFor(ctx: Context, s: Stmt, next: nat) returns (n: nat)
    requires ctx.Valid() && ctx.parent != null && s.For?
    modifies ctx
    ensures ctx.Valid() && ctx.Entries() == old(ctx.Entries()) + [Entry(Tag(s.x, false, ctx.depth), next)] && next < n
    decreases s, 0
  {
    var inner := new Context.Child(ctx);
    ctx.AddValue(s.x, next);
    n := Generate(inner, s.body, next + 1);
  }

  method GenerateOn(ctx: Context, s: Stmt, next: nat) returns (n: nat)
    requires ctx.Valid() && ctx.parent != null && s.On?
    ensures ctx.Valid() && ctx.Entries() == old(ctx.Entries()) && next < n
    decreases s, 0
  {
    var inner := new Context.In(ctx, s.region, next);
    n := Generate(inner, s.body, next + 1);
  }
}
