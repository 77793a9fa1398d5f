/** Static blocks: the names a block defines, and the depth/index paths that stand
    for names at run time. */
module GnoScopes {
  import opened GnoValues

  /** Types are known by their type id; values by their identity. */
  type TypeId = nat

  datatype Typed = Typed(t: Option<TypeId>, v: Option<nat>)

  /** The names of one block with their parallel arrays; `numNames` is a uint16. */
  datatype Names = Names(
    names: seq<string>,
    consts: seq<string>,
    values: seq<Typed>,
    types: seq<Option<TypeId>>,
    numNames: nat)

  const MAX_NAMES: nat := 0x1_0000
  const MAX_DEPTH: nat := 0xff

  /** A resolved path, or the Go panic of an undeclared name or too deep a chain. */
  datatype PathResult = BlockPath(depth: nat, index: nat) | UversePath(index: nat) | NoPath

  datatype Definition = Definition(isConst: bool, name: string, st: Option<TypeId>, tv: Typed)

  // ---------------------------------------------------------------- one block

  function FindName(names: seq<string>, n: string): (r: Option<nat>)
    ensures r.Some? ==> r.value < |names| && names[r.value] == n
    ensures r.None? <==> n !in names
  {
    if names == [] then None
    else if names[0] == n then Some(0)
    else match FindName(names[1..], n)
      case None => None
      case Some(i) => Some(i + 1)
  }

  ghost predicate Distinct(names: seq<string>) {
    forall i, j | 0 <= i < j < |names| :: names[i] != names[j]
  }

  /** What Define2 keeps: names distinct and never blank, arrays parallel, and every
      index representable in 16 bits. */
  ghost predicate WellFormed(b: Names) {
    && Distinct(b.names)
    && "" !in b.names && "_" !in b.names
    && |b.values| == |b.names| == |b.types|
    && (forall c | c in b.consts :: c in b.names)
    && |b.names| <= MAX_NAMES
    && b.numNames == |b.names| % MAX_NAMES
  }

  const EMPTY: Names := Names([], [], [], [], 0)

  /** Define2; None is a panic. */
  function Define(b: Names, d: Definition): Option<Names> {
    if d.name == "" || b.numNames != |b.names| || (d.tv.t.None? && d.tv.v.Some?) then None
    else if d.name == "_" then Some(b)
    else match FindName(b.names, d.name)
      case Some(i) =>
        if d.isConst != (d.name in b.consts) || i >= |b.values| || i >= |b.types| then None
        else if b.values[i].t.Some? && d.tv != b.values[i] then None
        else Some(b.(values := b.values[i := d.tv], types := b.types[i := d.st]))
      case None =>
        Some(Names(b.names + [d.name], if d.isConst then b.consts + [d.name] else b.consts,
                   b.values + [d.tv], b.types + [d.st], (b.numNames + 1) % MAX_NAMES))
  }

  /** Names keep their slots, and a value once typed is never changed. */
  ghost predicate Extends(b: Names, b2: Names) {
    && |b.names| <= |b2.names| && b2.names[..|b.names|] == b.names
    && |b.values| <= |b2.values|
    && forall i | 0 <= i < |b.values| && b.values[i].t.Some? :: b2.values[i] == b.values[i]
  }

  lemma DefineKeeps(b: Names, d: Definition)
    requires WellFormed(b) && Define(b, d).Some?
    ensures WellFormed(Define(b, d).value)
    ensures Extends(b, Define(b, d).value)
  {
    var b2 := Define(b, d).value;
    if d.name != "_" && d.name !in b.names {
      assert b2.names[..|b.names|] == b.names;
      assert |b.names| < MAX_NAMES;
    } else {
      assert b2.names[..|b.names|] == b.names;
    }
  }

  /** Exactly when Define2 panics. A block that already has 65536 names can take no
      more definitions, not even of names it has or of `_`: its count wrapped to 0. */
  lemma DefinePanicsIff(b: Names, d: Definition)
    requires WellFormed(b)
    ensures Define(b, d).None? <==>
            || d.name == "" || |b.names| == MAX_NAMES
            || (d.tv.t.None? && d.tv.v.Some?)
            || (d.name in b.names
                && (d.isConst != (d.name in b.consts)
                    || exists i | 0 <= i < |b.names| :: b.names[i] == d.name && b.values[i].t.Some? && b.values[i] != d.tv))
  {
    var r := FindName(b.names, d.name);
    if r.Some? {
      assert forall i | 0 <= i < |b.names| && b.names[i] == d.name :: i == r.value;
    }
  }

  /** `k` names, told apart by their length. */
  function Filled(k: nat): Names {
    Names(seq(k, i requires 0 <= i < k => Letters(i)), [], seq(k, _ => Typed(None, None)), seq(k, _ => None), k % MAX_NAMES)
  }

  function Letters(i: nat): string {
    seq(i + 1, _ => 'a')
  }

  function Variable(name: string): Definition {
    Definition(false, name, None, Typed(None, None))
  }

  lemma FilledIsWellFormed(k: nat)
    requires k <= MAX_NAMES
    ensures WellFormed(Filled(k))
  {
    var b := Filled(k);
    assert forall i | 0 <= i < k :: |b.names[i]| == i + 1 && b.names[i][0] == 'a';
  }

  /** One definition after the other fills a block with 65536 names; then it takes none
      more, neither a new one nor one it has. */
  lemma FullBlockPanics(k: nat, name: string)
    ensures k < MAX_NAMES ==> Define(Filled(k), Variable(Letters(k))) == Some(Filled(k + 1))
    ensures WellFormed(Filled(MAX_NAMES)) && Define(Filled(MAX_NAMES), Variable(name)).None?
  {
    FilledIsWellFormed(MAX_NAMES);
    if k < MAX_NAMES {
      FilledIsWellFormed(k);
      assert |Letters(k)| == k + 1 && Letters(k)[0] == 'a';
      assert forall i | 0 <= i < k :: |Filled(k).names[i]| == i + 1;
      var b := Define(Filled(k), Variable(Letters(k))).value;
      assert b.names == Filled(k + 1).names && b.values == Filled(k + 1).values && b.types == Filled(k + 1).types;
    }
  }

  /** What a block says of a name: its value, its static type, and whether it is constant. */
  function Entry(b: Names, n: string): Option<(Typed, Option<TypeId>, bool)>
    requires |b.values| == |b.names| == |b.types|
  {
    match FindName(b.names, n)
    case None => None
    case Some(i) => Some((b.values[i], b.types[i], n in b.consts))
  }

  lemma {:induction false} FindAppended(names: seq<string>, m: string, n: string)
    ensures FindName(names + [m], n) ==
            if n in names then FindName(names, n) else if n == m then Some(|names|) else None
  {
    if names != [] {
      assert (names + [m])[1..] == names[1..] + [m];
      FindAppended(names[1..], m, n);
    }
  }

  /** A block is a map from names to entries: a definition sets the entry of its name,
      unless that is blank, and no other. */
  lemma DefineSetsEntry(b: Names, d: Definition, n: string)
    requires WellFormed(b) && Define(b, d).Some?
    ensures WellFormed(Define(b, d).value)
    ensures Entry(Define(b, d).value, n) ==
            if n == d.name && n != "_" then Some((d.tv, d.st, d.isConst)) else Entry(b, n)
  {
    DefineKeeps(b, d);
    FindAppended(b.names, d.name, n);
    if d.name in b.names && n in b.names && n != d.name {
      assert FindName(b.names, n) != FindName(b.names, d.name);
    }
  }

  // ---------------------------------------------------------------- chains of blocks

  /** The innermost block of the chain that defines the name, and its slot there. */
  function Locate(bs: seq<Names>, n: string): (r: Option<(nat, nat)>)
    ensures r.Some? ==>
      && r.value.0 < |bs| && FindName(bs[r.value.0].names, n) == Some(r.value.1)
      && forall k | 0 <= k < r.value.0 :: n !in bs[k].names
    ensures r.None? ==> forall k | 0 <= k < |bs| :: n !in bs[k].names
    decreases |bs|
  {
    if bs == [] then None
    else match FindName(bs[0].names, n)
      case Some(i) => Some((0, i))
      case None =>
        match Locate(bs[1..], n)
        case None => None
        case Some((k, i)) => Some((k + 1, i))
  }

  /** What GetPathForName gives on a chain: the limit of 255 is on the depth of the
      block found; a chain of 255 blocks or more hides the uverse. */
  function PathForName(bs: seq<Names>, uverse: seq<string>, n: string): PathResult {
    if n == "_" then BlockPath(0, 0)
    else match Locate(bs, n)
      case Some((k, i)) => if k < MAX_DEPTH then BlockPath(k + 1, i) else NoPath
      case None =>
        if |bs| >= MAX_DEPTH then NoPath
        else match FindName(uverse, n)
          case Some(i) => UversePath(i)
          case None => NoPath
  }

  /** The static type of a name; None is the panic of an undeclared one. */
  function TypeOfName(bs: seq<Names>, uverse: seq<string>, utypes: seq<Option<TypeId>>, n: string): Option<Option<TypeId>> {
    match Locate(bs, n)
    case Some((k, i)) => if i < |bs[k].types| then Some(bs[k].types[i]) else None
    case None =>
      match FindName(uverse, n)
      case Some(i) => if i < |utypes| then Some(utypes[i]) else None
      case None => None
  }

  function TypeAtPath(bs: seq<Names>, depth: nat, index: nat): Option<Option<TypeId>> {
    if 1 <= depth <= |bs| && index < |bs[depth - 1].types| then Some(bs[depth - 1].types[index]) else None
  }

  ghost predicate ChainWellFormed(bs: seq<Names>) {
    forall k | 0 <= k < |bs| :: WellFormed(bs[k])
  }

  /** Within the depth limit, the path of a name leads to the type of the name, in
      a slot that bears the name, and fits 8 and 16 bits; and a block path is
      given exactly to names found within the limit. */
  lemma PathAgreesWithName(bs: seq<Names>, uverse: seq<string>, utypes: seq<Option<TypeId>>, n: string)
    requires ChainWellFormed(bs) && n != "_"
    ensures var p := PathForName(bs, uverse, n);
            p.BlockPath? ==>
              && 1 <= p.depth <= |bs| && p.depth <= 0xff && p.index <= 0xffff
              && p.index < |bs[p.depth - 1].names| && bs[p.depth - 1].names[p.index] == n
              && TypeAtPath(bs, p.depth, p.index).Some?
              && TypeAtPath(bs, p.depth, p.index) == TypeOfName(bs, uverse, utypes, n)
    ensures PathForName(bs, uverse, n).BlockPath? <==> exists k | 0 <= k < |bs| && k < MAX_DEPTH :: n in bs[k].names
    ensures PathForName(bs, uverse, n).UversePath? <==>
            n in uverse && |bs| < MAX_DEPTH && forall k | 0 <= k < |bs| :: n !in bs[k].names
  {
    var r := Locate(bs, n);
    if r.Some? {
      assert WellFormed(bs[r.value.0]);
    }
  }

  // ---------------------------------------------------------------- growing chains

  /** One Define2 on block `at` of the chain; a panic changes nothing. */
  function DefineAt(bs: seq<Names>, at: nat, d: Definition): (r: seq<Names>)
    requires at < |bs|
    ensures |r| == |bs|
  {
    match Define(bs[at], d)
    case None => bs
    case Some(b) => bs[at := b]
  }

  function DefineAll(bs: seq<Names>, steps: seq<(nat, Definition)>): (r: seq<Names>)
    requires forall s | s in steps :: s.0 < |bs|
    ensures |r| == |bs|
    decreases |steps|
  {
    if steps == [] then bs
    else DefineAll(DefineAt(bs, steps[0].0, steps[0].1), steps[1..])
  }

  ghost predicate ChainExtends(bs: seq<Names>, bs2: seq<Names>) {
    |bs| == |bs2| && forall k | 0 <= k < |bs| :: Extends(bs[k], bs2[k])
  }

  lemma {:induction false} DefinesKeep(bs: seq<Names>, steps: seq<(nat, Definition)>)
    requires ChainWellFormed(bs) && forall s | s in steps :: s.0 < |bs|
    ensures ChainWellFormed(DefineAll(bs, steps)) && ChainExtends(bs, DefineAll(bs, steps))
    decreases |steps|
  {
    if steps != [] {
      var at, d := steps[0].0, steps[0].1;
      var bs1 := DefineAt(bs, at, d);
      if Define(bs[at], d).Some? {
        DefineKeeps(bs[at], d);
      }
      DefinesKeep(bs1, steps[1..]);
      var bs2 := DefineAll(bs1, steps[1..]);
      forall k | 0 <= k < |bs|
        ensures Extends(bs[k], bs2[k])
      {
        assert Extends(bs[k], bs1[k]) && Extends(bs1[k], bs2[k]);
        ExtendsTrans(bs[k], bs1[k], bs2[k]);
      }
    }
  }

  lemma ExtendsTrans(b: Names, b1: Names, b2: Names)
    requires Extends(b, b1) && Extends(b1, b2)
    ensures Extends(b, b2)
  {
    assert b2.names[..|b.names|] == b2.names[..|b1.names|][..|b.names|];
  }

  function NewChain(len: nat): seq<Names> {
    seq(len, _ => EMPTY)
  }

  /** A name defined in the 256th block of a chain has a type and no path, and so has a
      name of the uverse under 255 blocks. */
  lemma DeepNamesHaveNoPath()
    ensures var bs := NewChain(MAX_DEPTH) + [Filled(1)];
            && ChainWellFormed(bs)
            && TypeOfName(bs, [], [], Letters(0)) == Some(None) && PathForName(bs, [], Letters(0)) == NoPath
    ensures var bs := NewChain(MAX_DEPTH);
            && ChainWellFormed(bs)
            && TypeOfName(bs, ["x"], [None], "x") == Some(None) && PathForName(bs, ["x"], "x") == NoPath
  {
    FilledIsWellFormed(1);
    assert WellFormed(EMPTY);
    var bs := NewChain(MAX_DEPTH) + [Filled(1)];
    assert bs[MAX_DEPTH] == Filled(1) && Filled(1).names[0] == Letters(0);
    assert Letters(0)[0] == 'a' && Letters(0) != "_";
    assert Letters(0) in bs[MAX_DEPTH].names;
    assert forall k | 0 <= k < MAX_DEPTH :: bs[k] == EMPTY;
  }

  /** So in every chain that definitions can build, paths agree with names. */
  lemma BuiltChainsResolve(len: nat, steps: seq<(nat, Definition)>, uverse: seq<string>, utypes: seq<Option<TypeId>>, n: string)
    requires n != "_" && forall s | s in steps :: s.0 < len
    ensures var bs := DefineAll(NewChain(len), steps);
            && ChainWellFormed(bs)
            && var p := PathForName(bs, uverse, n);
               p.BlockPath? ==> TypeAtPath(bs, p.depth, p.index) == TypeOfName(bs, uverse, utypes, n)
  {
    DefinesKeep(NewChain(len), steps);
    PathAgreesWithName(DefineAll(NewChain(len), steps), uverse, utypes, n);
  }

  /** An issued path keeps denoting the slot of its name, whatever is defined later
      anywhere in the chain; and it stays the path of the name unless a block
      further in comes to define it. */
  lemma IssuedPathsStay(bs: seq<Names>, uverse: seq<string>, n: string, steps: seq<(nat, Definition)>)
    requires ChainWellFormed(bs) && n != "_" && PathForName(bs, uverse, n).BlockPath?
    requires forall s | s in steps :: s.0 < |bs|
    ensures var p, bs2 := PathForName(bs, uverse, n), DefineAll(bs, steps);
            && p.index < |bs2[p.depth - 1].names| && bs2[p.depth - 1].names[p.index] == n
            && (PathForName(bs2, uverse, n) == p <==> forall k | 0 <= k < p.depth - 1 :: n !in bs2[k].names)
  {
    hide DefineAll, WellFormed;
    DefinesKeep(bs, steps);
    var p, bs2 := PathForName(bs, uverse, n), DefineAll(bs, steps);
    var k := p.depth - 1;
    assert Extends(bs[k], bs2[k]);
    assert bs2[k].names[p.index] == bs2[k].names[..|bs[k].names|][p.index];
    PathOfSlot(bs2, uverse, n, k, p.index);
  }

  lemma PathOfSlot(bs: seq<Names>, uverse: seq<string>, n: string, k: nat, i: nat)
    requires ChainWellFormed(bs) && n != "_" && k < |bs| && k < MAX_DEPTH
    requires i < |bs[k].names| && bs[k].names[i] == n
    ensures PathForName(bs, uverse, n) == BlockPath(k + 1, i) <==> forall j | 0 <= j < k :: n !in bs[j].names
  {
    assert WellFormed(bs[k]);
    var r := Locate(bs, n);
    if r.Some? && r.value.0 == k {
      assert bs[k].names[r.value.1] == n;
    }
  }

  // ---------------------------------------------------------------- the mutable blocks

  class StaticBlock {
    const parent: StaticBlock?
    const isFile: bool
    var names: seq<string>
    var consts: seq<string>
    var values: seq<Typed>
    var types: seq<Option<TypeId>>
    var numNames: nat
    var externs: seq<string>
    /** The block and its ancestors, innermost first. */
    ghost const chain: seq<StaticBlock>

    constructor (parent: StaticBlock?, isFile: bool)
      requires parent != null ==> parent.Linked()
      ensures Linked() && View() == EMPTY && externs == []
      ensures chain == [this] + (if parent == null then [] else parent.chain)
    {
      this.parent, this.isFile := parent, isFile;
      names, consts, values, types, numNames, externs := [], [], [], [], 0, [];
      chain := [this] + (if parent == null then [] else parent.chain);
      new;
      forall k | 0 <= k < |chain|
        ensures LinkedAt(k)
      {
        if k == 0 {
          assert chain[0..] == chain;
          assert parent != null ==> chain[1] == parent.chain[0];
        } else {
          assert parent.LinkedAt(k - 1);
          assert k + 1 < |chain| ==> chain[k + 1] == parent.chain[k];
          assert chain[k] == parent.chain[k - 1];
          assert chain[k..] == parent.chain[k - 1..];
        }
      }
    }

    ghost predicate Linked()
    {
      && |chain| > 0 && chain[0] == this
      && forall k | 0 <= k < |chain| :: LinkedAt(k)
    }

    ghost predicate LinkedAt(k: nat)
      requires k < |chain|
    {
      && chain[k].chain == chain[k..]
      && chain[k].parent == (if k + 1 < |chain| then chain[k + 1] else null)
    }

    ghost function View(): Names
      reads this
    {
      Names(names, consts, values, types, numNames)
    }

    /** The chain of names seen from this block. */
    ghost function Views(): seq<Names>
      reads chain
    {
      ViewsOf(chain)
    }

    static ghost function ViewsOf(bs: seq<StaticBlock>): (r: seq<Names>)
      reads bs
      ensures |r| == |bs| && forall k | 0 <= k < |bs| :: r[k] == bs[k].View()
    {
      seq(|bs|, k requires 0 <= k < |bs| reads bs => bs[k].View())
    }

    /** The first index of a name. */
    static method IndexOf(names: seq<string>, n: string) returns (i: nat, ok: bool)
      ensures ok <==> n in names
      ensures ok ==> FindName(names, n) == Some(i)
    {
      i := 0;
      while i < |names|
        invariant 0 <= i <= |names|
        invariant n !in names[..i]
      {
        if names[i] == n {
          FindFirst(names, n, i);
          return i, true;
        }
        i := i + 1;
      }
      return 0, false;
    }

    method GetLocalIndex(n: string) returns (idx: nat, ok: bool)
      requires WellFormed(View())
      ensures ok <==> n in names
      ensures ok ==> FindName(names, n) == Some(idx)
    {
      idx, ok := IndexOf(names, n);
      idx := idx % 0x1_0000;
    }

    method GetLocalIsConst(n: string) returns (b: bool)
      ensures b <==> n in consts
    {
      for i := 0 to |consts|
        invariant n !in consts[..i]
      {
        if consts[i] == n {
          return true;
        }
      }
      b := false;
    }

    /** Defines a name; false is a panic, which leaves the block as it was. */
    method Define2(d: Definition) returns (ok: bool)
      requires WellFormed(View())
      modifies this`names, this`consts, this`values, this`types, this`numNames
      ensures ok == Define(old(View()), d).Some?
      ensures View() == if ok then Define(old(View()), d).value else old(View())
      ensures WellFormed(View()) && Extends(old(View()), View())
    {
      if Define(View(), d).Some? {
        DefineKeeps(View(), d);
      }
      if |d.name| == 0 || numNames != |names| || (d.tv.t.None? && d.tv.v.Some?) {
        return false;
      }
      if d.name == "_" {
        return true;
      }
      var idx, exists_ := GetLocalIndex(d.name);
      if exists_ {
        var wasConst := GetLocalIsConst(d.name);
        if d.isConst != wasConst {
          return false;
        }
        var before := values[idx];
        if before.t.Some? {
          if d.tv.t != before.t {
            return false;
          }
          if d.tv.v != before.v {
            return false;
          }
        }
        values := values[idx := d.tv];
        types := types[idx := d.st];
      } else {
        names := names + [d.name];
        if d.isConst {
          consts := consts + [d.name];
        }
        numNames := (numNames + 1) % 0x1_0000;
        values := values + [d.tv];
        types := types + [d.st];
      }
      ok := true;
    }

    method AddExternName(n: string)
      modifies this`externs
      ensures externs == if n in old(externs) then old(externs) else old(externs) + [n]
    {
      for i := 0 to |externs|
        invariant n !in externs[..i]
        invariant externs == old(externs)
      {
        if externs[i] == n {
          return;
        }
      }
      externs := externs + [n];
    }

    ghost function WithExtern(externs: seq<string>, n: string): seq<string> {
      if n in externs then externs else externs + [n]
    }

    ghost function Externs(): (r: seq<seq<string>>)
      reads chain
      ensures |r| == |chain| && forall k | 0 <= k < |chain| :: r[k] == chain[k].externs
    {
      seq(|chain|, k requires 0 <= k < |chain| reads chain => chain[k].externs)
    }

    /** From `before`, the name was noted in the first `d` blocks, files apart. */
    ghost predicate Noted(before: seq<seq<string>>, n: string, d: nat)
      requires |before| == |chain|
      reads chain
    {
      forall k | 0 <= k < |chain| ::
        chain[k].externs == if k < d && !chain[k].isFile then WithExtern(before[k], n) else before[k]
    }

    method NoteExtern(ghost before: seq<seq<string>>, ghost k: nat, bp: StaticBlock, n: string)
      requires Linked() && k < |chain| && bp == chain[k]
      requires |before| == |chain| && Noted(before, n, k)
      modifies bp`externs
      ensures Views() == old(Views())
      ensures Noted(before, n, k + 1)
    {
      Apart();
      if !bp.isFile {
        bp.AddExternName(n);
      }
    }

    /** Resolves a name. As a side effect it is noted as an extern in every block,
        files apart, that was searched in vain. */
    method GetPathForName(uverse: seq<string>, n: string) returns (p: PathResult)
      requires Linked() && ChainWellFormed(Views())
      modifies chain
      ensures p == PathForName(old(Views()), uverse, n)
      ensures Views() == old(Views())
      ensures Noted(old(Externs()), n, Misses(old(Views()), n))
    {
      hide WellFormed, Linked, Noted, Locate, FindName, ViewsOf, Externs;
      Top(n);
      if n == "_" {
        return BlockPath(0, 0);
      }
      var gen, idx, ok := SearchChain(n);
      WalkMeans(old(Views()), n, gen, idx, ok);
      if ok {
        return BlockPath(gen % 0x100, idx);
      }
      if 0xff < gen {
        return NoPath;
      }
      idx, ok := IndexOf(uverse, n);
      p := if ok then UversePath(idx) else NoPath;
    }

    /** Walks up the chain until the name is found, the chain ends or the depth
        overflows. */
    method SearchChain(n: string) returns (gen: nat, idx: nat, ok: bool)
      requires Linked() && ChainWellFormed(Views())
      modifies chain
      ensures Views() == old(Views())
      ensures gen >= 1 && Noted(old(Externs()), n, gen - 1)
      ensures Walked(old(Views()), n, gen, idx, ok)
    {
      hide WellFormed, Linked, Noted, Locate, FindName, ViewsOf, Externs;
      ghost var bs := Views();
      gen, idx, ok := 1, 0, false;
      Top(n);
      var bp: StaticBlock? := this;
      while bp != null
        invariant 1 <= gen <= 0xff && gen <= |chain| + 1
        invariant bp == if gen <= |chain| then chain[gen - 1] else null
        invariant forall j | 0 <= j < gen - 1 :: n !in bs[j].names
        invariant Views() == bs && Noted(old(Externs()), n, gen - 1)
        decreases |chain| - gen
      {
        assert bp.View() == bs[gen - 1];
        idx, ok := bp.GetLocalIndex(n);
        if ok {
          return;
        }
        NoteExtern(old(Externs()), gen - 1, bp, n);
        Up(gen - 1);
        bp := bp.parent;
        gen := gen + 1;
        if 0xff < gen {
          return;
        }
      }
      ok := false;
    }

    lemma Top(n: string)
      requires Linked()
      ensures |chain| > 0 && chain[0] == this
      ensures Noted(Externs(), n, 0)
    {
    }

    lemma Up(k: nat)
      requires Linked() && k < |chain|
      ensures chain[k].parent == (if k + 1 < |chain| then chain[k + 1] else null)
    {
      assert LinkedAt(k);
    }

    /** The blocks of a chain are pairwise different. */
    lemma Apart()
      requires Linked()
      ensures forall i, j | 0 <= i < j < |chain| :: chain[i] != chain[j]
    {
      forall i, j | 0 <= i < j < |chain|
        ensures chain[i] != chain[j]
      {
        assert LinkedAt(i) && LinkedAt(j);
      }
    }

    /** The static type of a name; None is a panic. There is no limit on the depth. */
    method GetStaticTypeOf(uverse: seq<string>, utypes: seq<Option<TypeId>>, n: string) returns (t: Option<Option<TypeId>>)
      requires Linked() && ChainWellFormed(Views())
      ensures t == TypeOfName(Views(), uverse, utypes, n)
    {
      ghost var bs, k := Views(), 0;
      var bp: StaticBlock? := this;
      while bp != null
        invariant 0 <= k <= |chain|
        invariant bp == if k < |chain| then chain[k] else null
        invariant forall j | 0 <= j < k :: n !in bs[j].names
        decreases |chain| - k
      {
        assert bp.View() == bs[k];
        var idx, ok := bp.GetLocalIndex(n);
        if ok {
          LocateAt(bs, n, k);
          return Some(bp.types[idx]);
        }
        Up(k);
        bp := bp.parent;
        k := k + 1;
      }
      MissedAll(bs, n);
      var i, found := IndexOf(uverse, n);
      t := if found && i < |utypes| then Some(utypes[i]) else None;
    }

    /** The static type in the slot of a path; None is a panic. */
    method GetStaticTypeOfAt(depth: nat, index: nat) returns (t: Option<Option<TypeId>>)
      requires Linked() && depth > 0
      ensures t == TypeAtPath(Views(), depth, index)
    {
      ghost var k := 0;
      var sb, d := this, depth;
      while d != 1
        invariant 0 <= k < |chain| && sb == chain[k]
        invariant d >= 1 && d + k == depth
        decreases d
      {
        Up(k);
        if sb.parent == null {
          return None;
        }
        sb := sb.parent;
        d := d - 1;
        k := k + 1;
      }
      assert sb.View() == Views()[k];
      t := if index < |sb.types| then Some(sb.types[index]) else None;
    }

    /** A path given out for a name leads back to the type of the name. */
    method ResolvedTypeOf(uverse: seq<string>, utypes: seq<Option<TypeId>>, n: string)
      returns (p: PathResult, byPath: Option<Option<TypeId>>, byName: Option<Option<TypeId>>)
      requires Linked() && ChainWellFormed(Views()) && n != "_"
      modifies chain
      ensures p.BlockPath? ==> byPath.Some? && byPath == byName && p.depth <= 0xff && p.index <= 0xffff
    {
      p := GetPathForName(uverse, n);
      PathAgreesWithName(Views(), uverse, utypes, n);
      byName := GetStaticTypeOf(uverse, utypes, n);
      byPath := None;
      if p.BlockPath? {
        byPath := GetStaticTypeOfAt(p.depth, p.index);
      }
    }
  }

  /** How many blocks are searched in vain for a name. */
  ghost function Misses(bs: seq<Names>, n: string): nat {
    if n == "_" then 0
    else match Locate(bs, n)
      case Some((k, _)) => if k < MAX_DEPTH then k else MAX_DEPTH
      case None => if |bs| < MAX_DEPTH then |bs| else MAX_DEPTH
  }

  /** The walk ended at depth `gen`: with the name found there, past the last block
      or past the depth limit. */
  ghost predicate Walked(bs: seq<Names>, n: string, gen: nat, idx: nat, ok: bool) {
    && 1 <= gen <= |bs| + 1
    && (forall j | 0 <= j < gen - 1 :: n !in bs[j].names)
    && (if ok then gen <= |bs| && gen <= MAX_DEPTH && FindName(bs[gen - 1].names, n) == Some(idx)
        else gen == MAX_DEPTH + 1 || (gen == |bs| + 1 && gen <= MAX_DEPTH))
  }

  lemma WalkMeans(bs: seq<Names>, n: string, gen: nat, idx: nat, ok: bool)
    requires Walked(bs, n, gen, idx, ok) && n != "_"
    ensures gen - 1 == Misses(bs, n)
    ensures ok ==> Locate(bs, n) == Some((gen - 1, idx))
    ensures !ok && gen <= MAX_DEPTH ==> Locate(bs, n).None?
    ensures !ok && gen > MAX_DEPTH ==> |bs| >= MAX_DEPTH && (Locate(bs, n).Some? ==> Locate(bs, n).value.0 >= MAX_DEPTH)
  {
    if ok {
      LocateAt(bs, n, gen - 1);
    }
  }

  lemma {:induction false} LocateAt(bs: seq<Names>, n: string, k: nat)
    requires k < |bs| && n in bs[k].names && forall j | 0 <= j < k :: n !in bs[j].names
    ensures Locate(bs, n).Some? && Locate(bs, n).value.0 == k
    ensures FindName(bs[k].names, n) == Some(Locate(bs, n).value.1)
  {
    var r := Locate(bs, n);
    if r.Some? {
      assert n in bs[r.value.0].names;
    }
  }

  lemma MissedAll(bs: seq<Names>, n: string)
    requires forall j | 0 <= j < |bs| :: n !in bs[j].names
    ensures Locate(bs, n).None?
  {
  }

  lemma {:induction false} FindFirst(names: seq<string>, n: string, i: nat)
    requires i < |names| && names[i] == n && n !in names[..i]
    ensures FindName(names, n) == Some(i)
  {
    if i > 0 {
      assert names[0] in names[..i];
      assert names[1..][..i - 1] == names[..i][1..];
      FindFirst(names[1..], n, i - 1);
    }
  }
}
