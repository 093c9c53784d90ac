// The expression grammar (src/parser.yy:203-285) and a deterministic parser for it.
module Grammar {
  import opened Basics

  datatype Token =
    | Number(n: int) | Text(s: string) | Identifier(s: string) | AmpIdentifier(s: string) | Keyword(s: string)
    | Plus | Minus | Multiply | Divide | Assign | Dot | Comma | Equals | Lt | Gt | Le | Ge
    | LParen | RParen | LBrace | RBrace | LBracket | RBracket | Colon | Semicolon | Beak

  datatype Operator = OpEq | OpLt | OpGt | OpLe | OpGe | OpAdd | OpSub | OpMul | OpDiv

  datatype Tree =
    | ConstInt(n: int)
    | Str(s: string)
    | Name(s: string)
    | Binary(op: Operator, l: Tree, r: Tree)
    | Child(base: Tree, name: string)
    | Element(arr: Tree, idx: Tree)
    | Call(fn: Tree, regions: seq<string>, args: seq<Tree>)
    | Literal(args: seq<Tree>)
    | Initializer(v: Tree, count: Tree)

  // The binary operators of each level: 0 comparison, 1 add_expr, 2 mult_expr.
  function OperatorAt(level: nat, t: Token): Option<Operator> {
    if level == 0 then
      match t
      case Equals => Some(OpEq)
      case Lt => Some(OpLt)
      case Gt => Some(OpGt)
      case Le => Some(OpLe)
      case Ge => Some(OpGe)
      case _ => None
    else if level == 1 then
      match t
      case Plus => Some(OpAdd)
      case Minus => Some(OpSub)
      case _ => None
    else if level == 2 then
      match t
      case Multiply => Some(OpMul)
      case Divide => Some(OpDiv)
      case _ => None
    else None
  }

  function Rank(level: nat): nat { if level >= 3 then 1 else 5 - level }

  // ---------- The productions ----------

  // The tokens from i to j derive the tree: levels 0 to 2 are `comparison`, `add_expr` and `mult_expr`, and the
  // others `atom_expr`.
  ghost predicate Derives(level: nat, ts: seq<Token>, i: nat, j: nat, t: Tree)
    requires j <= |ts|
    decreases if i < j then j - i else 0, Rank(level), 0
  {
    && i < j
    && if level >= 3 then DerivesAtom(ts, i, j, t) || DerivesPostfix(ts, i, j, t)
       else Derives(level + 1, ts, i, j, t) || DerivesBinary(level, ts, i, j, t)
  }

  ghost predicate DerivesBinary(level: nat, ts: seq<Token>, i: nat, j: nat, t: Tree)
    requires i < j <= |ts|
    decreases j - i, 0
  {
    && t.Binary?
    && exists m: nat ::
      && i < m < j - 1
      && OperatorAt(level, ts[m]) == Some(t.op)
      && Derives(level, ts, i, m, t.l)
      && Derives(level + 1, ts, m + 1, j, t.r)
  }

  ghost predicate DerivesPostfix(ts: seq<Token>, i: nat, j: nat, t: Tree)
    requires i < j <= |ts|
    decreases j - i, 0, 1
  {
    match t
    case Child(base, name) =>
      j - i >= 3 && ts[j - 2] == Dot && ts[j - 1] == Identifier(name) && Derives(3, ts, i, j - 2, base)
    case Element(arr, idx) => DerivesElement(ts, i, j, arr, idx)
    case Call(fn, regions, args) => DerivesCall(ts, i, j, fn, regions, args)
    case _ => false
  }

  ghost predicate DerivesElement(ts: seq<Token>, i: nat, j: nat, arr: Tree, idx: Tree)
    requires i < j <= |ts|
    decreases j - i, 0, 0
  {
    && ts[j - 1] == RBracket
    && exists m: nat ::
      i < m < j - 1 && ts[m] == LBracket && Derives(3, ts, i, m, arr) && Derives(0, ts, m + 1, j - 1, idx)
  }

  ghost predicate DerivesCall(ts: seq<Token>, i: nat, j: nat, fn: Tree, regions: seq<string>, args: seq<Tree>)
    requires i < j <= |ts|
    decreases j - i, 0, 0
  {
    && ts[j - 1] == RParen
    && exists m: nat, p: nat ::
      && i < m <= p < j - 1 && ts[p] == LParen
      && Derives(3, ts, i, m, fn)
      && Regions(ts, m, p, regions)
      && (if args == [] then p + 1 == j - 1 else DerivesArgs(ts, p + 1, j - 1, args))
  }

  ghost predicate DerivesAtom(ts: seq<Token>, i: nat, j: nat, t: Tree)
    requires i < j <= |ts|
    decreases j - i, 0, 1
  {
    match ts[i]
    case Number(n) => j == i + 1 && t == ConstInt(n)
    case Text(s) => j == i + 1 && t == Str(s)
    case Identifier(s) => j == i + 1 && t == Name(s)
    case LParen => j - i >= 3 && ts[j - 1] == RParen && Derives(0, ts, i + 1, j - 1, t)
    case LBracket => j - i >= 3 && ts[j - 1] == RBracket && DerivesBracket(ts, i + 1, j - 1, t)
    case _ => false
  }

  // What stands between the brackets of an array literal or initializer.
  ghost predicate DerivesBracket(ts: seq<Token>, i: nat, j: nat, t: Tree)
    requires i < j <= |ts|
    decreases j - i, 20
  {
    match t
    case Literal(args) => DerivesArgs(ts, i, j, args)
    case Initializer(v, count) => DerivesInitializer(ts, i, j, v, count)
    case _ => false
  }

  ghost predicate DerivesInitializer(ts: seq<Token>, i: nat, j: nat, v: Tree, count: Tree)
    requires i < j <= |ts|
    decreases j - i, 0
  {
    exists m: nat ::
      i < m < j - 1 && ts[m] == Semicolon && Derives(0, ts, i, m, v) && Derives(0, ts, m + 1, j, count)
  }

  // call_args
  ghost predicate DerivesArgs(ts: seq<Token>, i: nat, j: nat, args: seq<Tree>)
    requires j <= |ts|
    decreases if i < j then j - i else 0, 10, 0
  {
    && i < j && args != []
    && if |args| == 1 then Derives(0, ts, i, j, args[0])
       else exists m: nat ::
           && i < m < j - 1 && ts[m] == Comma
           && DerivesArgs(ts, i, m, args[..|args| - 1])
           && Derives(0, ts, m + 1, j, args[|args| - 1])
  }

  // region_decl
  ghost predicate Regions(ts: seq<Token>, i: nat, j: nat, rs: seq<string>)
    requires i <= j <= |ts|
  {
    if rs == [] then i == j else RegionList(ts, i, j, rs)
  }

  // region_list
  ghost predicate RegionList(ts: seq<Token>, i: nat, j: nat, rs: seq<string>)
    requires i <= j <= |ts|
    decreases |rs|
  {
    && rs != [] && i < j && ts[j - 1] == AmpIdentifier(rs[|rs| - 1])
    && if |rs| == 1 then j == i + 1
       else j - i >= 3 && ts[j - 2] == Comma && RegionList(ts, i, j - 2, rs[..|rs| - 1])
  }

  // ---------- The parser ----------

  // Each function returns what it has read and the place after it.

  function Parse(level: nat, ts: seq<Token>, i: nat): (r: Option<(Tree, nat)>)
    ensures r.Some? ==> i < r.value.1 <= |ts|
    decreases if i < |ts| then |ts| - i else 0, Rank(level), 0
  {
    if level >= 3 then
      match ParseAtom(ts, i)
      case Some(a) => ParsePostfix(ts, a.1, a.0)
      case None => None
    else
      match Parse(level + 1, ts, i)
      case Some(a) => ParseBinary(level, ts, a.1, a.0)
      case None => None
  }

  // The rest of a chain of operators of one level, after `l`.
  function ParseBinary(level: nat, ts: seq<Token>, i: nat, l: Tree): (r: Option<(Tree, nat)>)
    requires i <= |ts|
    ensures r.Some? ==> i <= r.value.1 <= |ts|
    decreases |ts| - i, 10, 0
  {
    if i < |ts| && OperatorAt(level, ts[i]).Some? then
      match Parse(level + 1, ts, i + 1)
      case Some(a) => ParseBinary(level, ts, a.1, Binary(OperatorAt(level, ts[i]).value, l, a.0))
      case None => None
    else Some((l, i))
  }

  // The rest of a chain of calls, elements and children, after `base`.
  function ParsePostfix(ts: seq<Token>, i: nat, base: Tree): (r: Option<(Tree, nat)>)
    requires i <= |ts|
    ensures r.Some? ==> i <= r.value.1 <= |ts|
    decreases |ts| - i, 0, 1
  {
    if i == |ts| then Some((base, i))
    else if ts[i] == Dot then
      if i + 1 < |ts| && ts[i + 1].Identifier? then ParsePostfix(ts, i + 2, Child(base, ts[i + 1].s)) else None
    else if ts[i] == LBracket then
      match Parse(0, ts, i + 1)
      case Some(a) => if a.1 < |ts| && ts[a.1] == RBracket then ParsePostfix(ts, a.1 + 1, Element(base, a.0)) else None
      case None => None
    else if ts[i] == LParen || ts[i].AmpIdentifier? then
      match ParseRegions(ts, i)
      case Some(rs) => ParseCall(ts, rs.1, base, rs.0)
      case None => None
    else Some((base, i))
  }

  // The argument list of a call, from its opening parenthesis on.
  function ParseCall(ts: seq<Token>, p: nat, fn: Tree, regions: seq<string>): (r: Option<(Tree, nat)>)
    requires p <= |ts|
    ensures r.Some? ==> p <= r.value.1 <= |ts|
    decreases |ts| - p, 0, 0
  {
    if p == |ts| || ts[p] != LParen then None
    else if p + 1 < |ts| && ts[p + 1] == RParen then ParsePostfix(ts, p + 2, Call(fn, regions, []))
    else
      match ParseArgs(ts, p + 1)
      case Some(a) => if a.1 < |ts| && ts[a.1] == RParen then ParsePostfix(ts, a.1 + 1, Call(fn, regions, a.0)) else None
      case None => None
  }

  function ParseAtom(ts: seq<Token>, i: nat): (r: Option<(Tree, nat)>)
    ensures r.Some? ==> i < r.value.1 <= |ts|
    decreases if i < |ts| then |ts| - i else 0, 0, 0
  {
    if i >= |ts| then None
    else
      match ts[i]
      case Number(n) => Some((ConstInt(n), i + 1))
      case Text(s) => Some((Str(s), i + 1))
      case Identifier(s) => Some((Name(s), i + 1))
      case LParen =>
        (match Parse(0, ts, i + 1)
         case Some(a) => if a.1 < |ts| && ts[a.1] == RParen then Some((a.0, a.1 + 1)) else None
         case None => None)
      case LBracket => ParseBracket(ts, i + 1)
      case _ => None
  }

  // An array literal or initializer, after its opening bracket.
  function ParseBracket(ts: seq<Token>, i: nat): (r: Option<(Tree, nat)>)
    ensures r.Some? ==> i < r.value.1 <= |ts|
    decreases if i < |ts| then |ts| - i else 0, 20, 0
  {
    match Parse(0, ts, i)
    case None => None
    case Some(a) =>
      if a.1 < |ts| && ts[a.1] == Semicolon then
        match Parse(0, ts, a.1 + 1)
        case Some(b) => if b.1 < |ts| && ts[b.1] == RBracket then Some((Initializer(a.0, b.0), b.1 + 1)) else None
        case None => None
      else
        match ParseMoreArgs(ts, a.1, [a.0])
        case Some(b) => if b.1 < |ts| && ts[b.1] == RBracket then Some((Literal(b.0), b.1 + 1)) else None
        case None => None
  }

  function ParseArgs(ts: seq<Token>, i: nat): (r: Option<(seq<Tree>, nat)>)
    ensures r.Some? ==> i < r.value.1 <= |ts|
    decreases if i < |ts| then |ts| - i else 0, 20, 0
  {
    match Parse(0, ts, i)
    case Some(a) => ParseMoreArgs(ts, a.1, [a.0])
    case None => None
  }

  function ParseMoreArgs(ts: seq<Token>, i: nat, args: seq<Tree>): (r: Option<(seq<Tree>, nat)>)
    requires i <= |ts|
    ensures r.Some? ==> i <= r.value.1 <= |ts|
    decreases |ts| - i, 0, 0
  {
    if i < |ts| && ts[i] == Comma then
      match Parse(0, ts, i + 1)
      case Some(a) => ParseMoreArgs(ts, a.1, args + [a.0])
      case None => None
    else Some((args, i))
  }

  function ParseRegions(ts: seq<Token>, i: nat): (r: Option<(seq<string>, nat)>)
    requires i <= |ts|
    ensures r.Some? ==> i <= r.value.1 <= |ts|
  {
    if i < |ts| && ts[i].AmpIdentifier? then ParseMoreRegions(ts, i + 1, [ts[i].s]) else Some(([], i))
  }

  function ParseMoreRegions(ts: seq<Token>, i: nat, rs: seq<string>): (r: Option<(seq<string>, nat)>)
    requires i <= |ts|
    ensures r.Some? ==> i <= r.value.1 <= |ts|
    decreases |ts| - i
  {
    if i < |ts| && ts[i] == Comma then
      if i + 1 < |ts| && ts[i + 1].AmpIdentifier? then ParseMoreRegions(ts, i + 2, rs + [ts[i + 1].s]) else None
    else Some((rs, i))
  }
}
