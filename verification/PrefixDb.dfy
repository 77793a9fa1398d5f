/** A database of byte strings, and its view under a prefix. */
module PrefixDb {

  type Byte = b: int | 0 <= b < 0x100
  type Bytes = seq<Byte>

  datatype Option<+T> = None | Some(value: T)

  // ---------------------------------------------------------------- order

  /** bytes.Compare(a, b) < 0. */
  predicate Less(a: Bytes, b: Bytes) {
    if b == [] then false
    else if a == [] then true
    else a[0] < b[0] || (a[0] == b[0] && Less(a[1..], b[1..]))
  }

  lemma {:induction false} LessTotal(a: Bytes, b: Bytes)
    ensures Less(a, b) || Less(b, a) || a == b
    ensures !(Less(a, b) && Less(b, a)) && !Less(a, a)
    decreases |a|
  {
    if a != [] && b != [] {
      LessTotal(a[1..], b[1..]);
      LessTotal(a[1..], a[1..]);
      if a[0] == b[0] && a[1..] == b[1..] {
        assert a == [a[0]] + a[1..] && b == [b[0]] + b[1..];
      }
    } else if a != [] {
      LessTotal(a[1..], a[1..]);
    }
  }

  lemma {:induction false} LessTrans(a: Bytes, b: Bytes, c: Bytes)
    requires Less(a, b) && Less(b, c)
    ensures Less(a, c)
    decreases |a|
  {
    if a != [] && a[0] == b[0] && b[0] == c[0] {
      LessTrans(a[1..], b[1..], c[1..]);
    }
  }

  lemma {:induction false} LessUnderPrefix(p: Bytes, a: Bytes, b: Bytes)
    ensures Less(p + a, p + b) == Less(a, b)
    decreases |p|
  {
    if p == [] {
      assert p + a == a && p + b == b;
    } else {
      assert (p + a)[1..] == p[1..] + a && (p + b)[1..] == p[1..] + b;
      LessUnderPrefix(p[1..], a, b);
    }
  }

  predicate HasPrefix(k: Bytes, p: Bytes) {
    |p| <= |k| && k[..|p|] == p
  }

  function Strip(k: Bytes, p: Bytes): (r: Bytes)
    requires HasPrefix(k, p)
    ensures k == p + r
  {
    k[|p|..]
  }

  /** Above a prefix but without it is above everything with it. */
  lemma {:induction false} ForeignIsAbove(p: Bytes, k: Bytes, x: Bytes)
    requires !Less(k, p) && !HasPrefix(k, p)
    ensures Less(p + x, k)
    decreases |p|
  {
    if p != [] {
      assert (p + x)[1..] == p[1..] + x;
      if k[0] == p[0] {
        PrefixTail(k, p);
        ForeignIsAbove(p[1..], k[1..], x);
      }
    }
  }

  lemma PrefixTail(k: Bytes, p: Bytes)
    requires k != [] && p != [] && k[0] == p[0]
    ensures HasPrefix(k, p) <==> HasPrefix(k[1..], p[1..])
  {
    assert p == [p[0]] + p[1..];
    if |p| <= |k| {
      assert k[..|p|] == [k[0]] + k[1..][..|p| - 1];
      assert k[1..][..|p| - 1] == k[..|p|][1..];
    }
  }

  // ---------------------------------------------------------------- the next prefix

  /** The big-endian number that bytes stand for. */
  function Value(s: Bytes): nat {
    if s == [] then 0 else 0x100 * Value(s[..|s| - 1]) + s[|s| - 1]
  }

  /** The bytes of the same length incremented; None on overflow. */
  function Incr(s: Bytes): (r: Option<Bytes>)
    ensures r.Some? ==> |r.value| == |s|
  {
    if s == [] then None
    else
      var n := |s| - 1;
      if s[n] < 0xff then Some(s[..n] + [s[n] + 1])
      else match Incr(s[..n])
        case None => None
        case Some(r) => Some(r + [0])
  }

  /** Incrementing is adding one, and overflows on all-0xFF bytes only. */
  lemma {:induction false} IncrAddsOne(s: Bytes)
    ensures Incr(s).Some? ==> Value(Incr(s).value) == Value(s) + 1
    ensures Incr(s).None? <==> forall i | 0 <= i < |s| :: s[i] == 0xff
    decreases |s|
  {
    if s != [] {
      var n := |s| - 1;
      IncrAddsOne(s[..n]);
      if Incr(s).Some? {
        var r := Incr(s).value;
        assert r[..n] == if s[n] < 0xff then s[..n] else Incr(s[..n]).value;
      }
      assert forall i | 0 <= i < n :: s[..n][i] == s[i];
      assert Incr(s).None? ==> s[n] == 0xff && Incr(s[..n]).None?;
    }
  }

  /** Everything with a prefix is below the next prefix. */
  lemma {:induction false} BelowNext(p: Bytes, x: Bytes)
    requires Incr(p).Some?
    ensures Less(p + x, Incr(p).value)
    decreases |p|
  {
    var n := |p| - 1;
    if p[n] < 0xff {
      assert p + x == p[..n] + ([p[n]] + x);
      LessUnderPrefix(p[..n], [p[n]] + x, [p[n] + 1]);
    } else {
      BelowNext(p[..n], [p[n]] + x);
      assert p + x == p[..n] + ([p[n]] + x);
      LessLonger(p + x, Incr(p[..n]).value, [0]);
    }
  }

  lemma {:induction false} LessLonger(a: Bytes, b: Bytes, c: Bytes)
    requires Less(a, b)
    ensures Less(a, b + c)
    decreases |a|
  {
    if a != [] && a[0] == b[0] {
      assert (b + c)[1..] == b[1..] + c;
      LessLonger(a[1..], b[1..], c);
    }
  }

  // ---------------------------------------------------------------- domains and sorted keys

  /** IsKeyInDomain; no end is no upper limit. */
  predicate InDomain(k: Bytes, start: Bytes, end: Option<Bytes>) {
    !Less(k, start) && (end.Some? ==> Less(k, end.value))
  }

  ghost predicate Ascending(keys: seq<Bytes>) {
    forall i, j | 0 <= i < j < |keys| :: Less(keys[i], keys[j])
  }

  /** The keys of a map in a domain, in order: there is just one such list. */
  ghost predicate Lists<V>(keys: seq<Bytes>, db: map<Bytes, V>, start: Bytes, end: Option<Bytes>) {
    Ascending(keys) && forall k :: k in keys <==> k in db && InDomain(k, start, end)
  }

  lemma {:induction false} AscendingUnique(a: seq<Bytes>, b: seq<Bytes>)
    requires Ascending(a) && Ascending(b) && forall k :: k in a <==> k in b
    ensures a == b
    decreases |a|
  {
    assert b != [] ==> b[0] in b;
    if a != [] {
      assert a[0] in a && b != [];
      SameFirst(a, b);
      assert a == [a[0]] + a[1..] && b == [b[0]] + b[1..];
      forall k
        ensures k in a[1..] <==> k in b[1..]
      {
        NotFirst(a, k);
        NotFirst(b, k);
      }
      AscendingUnique(a[1..], b[1..]);
    }
  }

  lemma SameFirst(a: seq<Bytes>, b: seq<Bytes>)
    requires Ascending(a) && Ascending(b) && a != [] && b != [] && a[0] in b && b[0] in a
    ensures a[0] == b[0]
  {
    var i :| 0 <= i < |b| && b[i] == a[0];
    var j :| 0 <= j < |a| && a[j] == b[0];
    LessTotal(a[0], b[0]);
  }

  lemma NotFirst(a: seq<Bytes>, k: Bytes)
    requires Ascending(a) && a != []
    ensures k in a[1..] <==> k in a && k != a[0]
  {
    if k in a[1..] {
      var i :| 1 <= i < |a| && a[i] == k;
      LessTotal(a[0], k);
    }
  }

  // ---------------------------------------------------------------- the prefixed view

  /** The entries under a prefix, by what follows it. */
  ghost function SubMap<V>(db: map<Bytes, V>, p: Bytes): map<Bytes, V> {
    map k | k in db && HasPrefix(k, p) :: Strip(k, p) := db[k]
  }

  /** What the iterator over sorted keys yields: stripped keys up to the first that is
      foreign to the prefix. */
  function Yield(keys: seq<Bytes>, p: Bytes): seq<Bytes> {
    if keys == [] || !HasPrefix(keys[0], p) then [] else [Strip(keys[0], p)] + Yield(keys[1..], p)
  }

  /** The upper bound handed down to the database below. */
  function UpperBound(p: Bytes, end: Option<Bytes>): Option<Bytes> {
    if end.Some? then Some(p + end.value) else Incr(p)
  }

  /** A prefixed key is in the domain handed down exactly when its rest is in the
      domain asked for. */
  lemma DomainUnderPrefix(p: Bytes, x: Bytes, start: Bytes, end: Option<Bytes>)
    ensures InDomain(p + x, p + start, UpperBound(p, end)) <==> InDomain(x, start, end)
  {
    LessUnderPrefix(p, x, start);
    if end.Some? {
      LessUnderPrefix(p, x, end.value);
    } else if Incr(p).Some? {
      BelowNext(p, x);
    }
  }

  lemma NotBelowPrefix(k: Bytes, p: Bytes, start: Bytes)
    requires !Less(k, p + start)
    ensures !Less(k, p)
  {
    if Less(k, p) {
      LessLonger(k, p, start);
    }
  }

  /** Foreign keys come last: once one is met, no prefixed key follows. */
  lemma {:induction false} YieldIsAll(keys: seq<Bytes>, p: Bytes, x: Bytes)
    requires Ascending(keys) && forall k | k in keys :: !Less(k, p)
    ensures x in Yield(keys, p) <==> p + x in keys
    ensures Ascending(Yield(keys, p))
    decreases |keys|
  {
    if keys != [] {
      var rest := keys[1..];
      if HasPrefix(keys[0], p) {
        YieldIsAll(rest, p, x);
        var s := Strip(keys[0], p);
        assert keys == [keys[0]] + rest;
        assert s == x <==> keys[0] == p + x by {
          assert (p + x)[|p|..] == x;
        }
        YieldAscends(keys, p);
      } else {
        NoneAfterForeign(keys, p, x);
      }
    }
  }

  lemma NoneAfterForeign(keys: seq<Bytes>, p: Bytes, x: Bytes)
    requires Ascending(keys) && keys != [] && !HasPrefix(keys[0], p) && !Less(keys[0], p)
    ensures p + x !in keys
  {
    ForeignIsAbove(p, keys[0], x);
    forall i | 0 <= i < |keys|
      ensures keys[i] != p + x
    {
      if i > 0 {
        LessTrans(p + x, keys[0], keys[i]);
      }
      LessTotal(p + x, p + x);
    }
  }

  lemma {:induction false} YieldAscends(keys: seq<Bytes>, p: Bytes)
    requires Ascending(keys)
    ensures Ascending(Yield(keys, p))
    ensures |Yield(keys, p)| <= |keys|
    ensures forall i | 0 <= i < |Yield(keys, p)| :: HasPrefix(keys[i], p) && Yield(keys, p)[i] == Strip(keys[i], p)
    decreases |keys|
  {
    if keys != [] && HasPrefix(keys[0], p) {
      YieldAscends(keys[1..], p);
      var y := Yield(keys, p);
      assert forall i | 0 < i < |y| :: y[i] == Yield(keys[1..], p)[i - 1] && keys[i] == keys[1..][i - 1];
      forall i, j | 0 <= i < j < |y|
        ensures Less(y[i], y[j])
      {
        LessUnderPrefix(p, y[i], y[j]);
      }
    }
  }

  /** Forward iteration under a prefix lists the sub-map: each key that follows the
      prefix in the database and is in the domain, once, ascending; also when keys
      foreign to the prefix lie in the range handed down. */
  lemma {:induction false} IterationRefinesSubMap<V>(keys: seq<Bytes>, db: map<Bytes, V>, p: Bytes, start: Bytes, end: Option<Bytes>)
    requires Lists(keys, db, p + start, UpperBound(p, end))
    ensures Lists(Yield(keys, p), SubMap(db, p), start, end)
  {
    forall k | k in keys
      ensures !Less(k, p)
    {
      NotBelowPrefix(k, p, start);
    }
    YieldAscends(keys, p);
    forall x
      ensures x in Yield(keys, p) <==> x in SubMap(db, p) && InDomain(x, start, end)
    {
      YieldIsAll(keys, p, x);
      DomainUnderPrefix(p, x, start, end);
      InSubMap(db, p, x);
    }
  }

  lemma InSubMap<V>(db: map<Bytes, V>, p: Bytes, x: Bytes)
    ensures x in SubMap(db, p) <==> p + x in db
    ensures x in SubMap(db, p) ==> SubMap(db, p)[x] == db[p + x]
  {
    assert (p + x)[..|p|] == p && (p + x)[|p|..] == x;
    if p + x in db {
      assert HasPrefix(p + x, p) && Strip(p + x, p) == x;
    }
  }

  /** With a prefix that ends in 0xFF the range handed down does admit foreign keys. */
  lemma ForeignKeysInRange(q: Bytes)
    requires Incr(q).Some?
    ensures var p, k := q + [0xff], Incr(q).value;
            !HasPrefix(k, p) && InDomain(k, p + [], UpperBound(p, None))
  {
    var p, k := q + [0xff], Incr(q).value;
    assert p[..|p| - 1] == q && p + [] == p;
    assert Incr(p) == Some(k + [0]);
    BelowNext(q, [0xff]);
    LessTotal(p, k);
    LessUnderPrefix(k, [], [0]);
    assert k + [] == k;
  }

  // ---------------------------------------------------------------- the code

  /** cpIncr: a copy, carried in place from its last byte; None stands for nil. */
  method CpIncr(bz: Bytes) returns (r: Option<Bytes>)
    requires |bz| > 0
    ensures r == Incr(bz)
  {
    var ret := new Byte[|bz|](i requires 0 <= i < |bz| => bz[i]);
    var i := |bz| - 1;
    assert bz[..i + 1] == bz;
    CarryNone(Incr(bz));
    while i >= 0
      invariant -1 <= i < |bz|
      invariant ret[..i + 1] == bz[..i + 1]
      invariant forall k | i < k < |bz| :: ret[k] == 0
      invariant Incr(bz) == Carried(Incr(bz[..i + 1]), |bz| - 1 - i)
    {
      assert bz[..i + 1][..i] == bz[..i] && ret[i] == bz[i];
      if ret[i] < 0xff {
        ret[i] := ret[i] + 1;
        assert ret[..] == bz[..i] + [bz[i] + 1] + Zeros(|bz| - 1 - i);
        return Some(ret[..]);
      }
      ret[i] := 0;
      CarryOn(Incr(bz[..i]), |bz| - 1 - i);
      if i == 0 {
        return None;
      }
      i := i - 1;
    }
    r := None;
  }

  function Zeros(n: nat): (z: Bytes)
    ensures |z| == n && forall k | 0 <= k < n :: z[k] == 0
  {
    seq(n, _ => 0)
  }

  /** The result once `n` more bytes have overflowed to zero. */
  ghost function Carried(r: Option<Bytes>, n: nat): Option<Bytes> {
    match r
    case None => None
    case Some(s) => Some(s + Zeros(n))
  }

  lemma CarryNone(r: Option<Bytes>)
    ensures Carried(r, 0) == r
  {
    if r.Some? {
      assert r.value + Zeros(0) == r.value;
    }
  }

  lemma CarryOn(r: Option<Bytes>, n: nat)
    ensures Carried(if r.None? then None else Some(r.value + [0]), n) == Carried(r, n + 1)
  {
    if r.Some? {
      assert r.value + [0] + Zeros(n) == r.value + Zeros(n + 1);
    }
  }

  // ---------------------------------------------------------------- sorting

  function Insert(keys: seq<Bytes>, k: Bytes): seq<Bytes> {
    if keys == [] || Less(k, keys[0]) then [k] + keys else [keys[0]] + Insert(keys[1..], k)
  }

  /** sort.Strings. */
  function Sort(keys: seq<Bytes>): seq<Bytes> {
    if keys == [] then [] else Insert(Sort(keys[1..]), keys[0])
  }

  ghost predicate Distinct(keys: seq<Bytes>) {
    forall i, j | 0 <= i < j < |keys| :: keys[i] != keys[j]
  }

  lemma {:induction false} InsertSorts(keys: seq<Bytes>, k: Bytes)
    requires Ascending(keys) && k !in keys
    ensures Ascending(Insert(keys, k)) && forall x :: x in Insert(keys, k) <==> x == k || x in keys
    decreases |keys|
  {
    if keys != [] {
      assert keys[0] in keys && keys == [keys[0]] + keys[1..];
      LessTotal(k, keys[0]);
      if Less(k, keys[0]) {
        forall j | 0 < j < |keys|
          ensures Less(k, keys[j])
        {
          LessTrans(k, keys[0], keys[j]);
        }
      } else {
        InsertSorts(keys[1..], k);
        var r := Insert(keys[1..], k);
        forall j | 0 <= j < |r|
          ensures Less(keys[0], r[j])
        {
          assert r[j] in r;
        }
      }
    }
  }

  lemma {:induction false} SortSorts(keys: seq<Bytes>)
    requires Distinct(keys)
    ensures Ascending(Sort(keys)) && forall x :: x in Sort(keys) <==> x in keys
    decreases |keys|
  {
    if keys != [] {
      assert keys == [keys[0]] + keys[1..];
      assert forall i | 0 <= i < |keys[1..]| :: keys[1..][i] == keys[i + 1];
      SortSorts(keys[1..]);
      assert keys[0] !in keys[1..];
      InsertSorts(Sort(keys[1..]), keys[0]);
    }
  }

  function Reversed(keys: seq<Bytes>): (r: seq<Bytes>)
    ensures |r| == |keys| && forall i | 0 <= i < |keys| :: r[i] == keys[|keys| - 1 - i]
  {
    seq(|keys|, i requires 0 <= i < |keys| => keys[|keys| - 1 - i])
  }

  // ---------------------------------------------------------------- databases and iterators

  class MemDB {
    var db: map<Bytes, Bytes>

    constructor ()
      ensures db == map[]
    {
      db := map[];
    }

    method Get(key: Bytes) returns (value: Option<Bytes>)
      ensures value == if key in db then Some(db[key]) else None
    {
      value := if key in db then Some(db[key]) else None;
    }

    method Set(key: Bytes, value: Bytes)
      modifies this
      ensures db == old(db)[key := value]
    {
      db := db[key := value];
    }

    method Delete(key: Bytes)
      modifies this
      ensures db == old(db) - {key}
    {
      db := db - {key};
    }

    /** Collects the keys in the domain, in whatever order the map gives them, then
        sorts, and reverses in place if asked. */
    method GetSortedKeys(start: Bytes, end: Option<Bytes>, reverse: bool) returns (keys: seq<Bytes>)
      ensures !reverse ==> Lists(keys, db, start, end)
      ensures reverse ==> Lists(Reversed(keys), db, start, end)
    {
      var left := db.Keys;
      keys := [];
      while left != {}
        invariant left <= db.Keys
        invariant Distinct(keys)
        invariant forall k :: k in keys <==> k in db && k !in left && InDomain(k, start, end)
        decreases |left|
      {
        var key :| key in left;
        left := left - {key};
        if InDomain(key, start, end) {
          keys := keys + [key];
        }
      }
      SortSorts(keys);
      keys := Sort(keys);
      if reverse {
        ghost var sorted := keys;
        keys := ReverseInPlace(keys);
        assert Reversed(keys) == sorted;
      }
    }

    static method ReverseInPlace(keys: seq<Bytes>) returns (r: seq<Bytes>)
      ensures r == Reversed(keys)
    {
      var n := |keys|;
      var a := new Bytes[n](i requires 0 <= i < n => keys[i]);
      var i := 0;
      while i < n / 2
        invariant 0 <= i <= n / 2
        invariant forall k | 0 <= k < i :: a[k] == keys[n - 1 - k]
        invariant forall k | n - i <= k < n :: a[k] == keys[n - 1 - k]
        invariant forall k | i <= k < n - i :: a[k] == keys[k]
      {
        var temp := a[i];
        a[i] := a[n - i - 1];
        a[n - i - 1] := temp;
        i := i + 1;
      }
      r := a[..];
    }
  }

  /** Walks over a copy of the keys. */
  class MemIterator {
    const keys: seq<Bytes>
    var cur: nat

    constructor (keys: seq<Bytes>)
      ensures this.keys == keys && cur == 0
    {
      this.keys, cur := keys, 0;
    }

    predicate Valid()
      reads this
    {
      cur < |keys|
    }

    /** The keys still to come. */
    ghost function Left(): seq<Bytes>
      reads this
    {
      if cur <= |keys| then keys[cur..] else []
    }

    /** Panics when the iterator is not valid. */
    method Next()
      requires Valid()
      modifies this
      ensures Left() == old(Left())[1..]
    {
      cur := cur + 1;
    }

    method Key() returns (k: Bytes)
      requires Valid()
      ensures k == Left()[0]
    {
      k := keys[cur];
    }
  }

  /** Strips a prefix while iterating. */
  class PrefixIterator {
    const prefix: Bytes
    const source: MemIterator
    var valid: bool

    ghost predicate Ok()
      reads this, source
    {
      valid ==> source.Valid() && HasPrefix(source.Left()[0], prefix)
    }

    /** The stripped keys still to come. */
    ghost function Left(): seq<Bytes>
      reads this, source
    {
      if valid then Yield(source.Left(), prefix) else []
    }

    constructor (prefix: Bytes, source: MemIterator)
      ensures Ok() && this.prefix == prefix && this.source == source
      ensures Left() == Yield(source.Left(), prefix)
    {
      this.prefix, this.source := prefix, source;
      if !source.Valid() {
        valid := false;
      } else {
        var k := source.Key();
        valid := HasPrefix(k, prefix);
      }
    }

    predicate Valid()
      reads this, source
    {
      valid && source.Valid()
    }

    /** Valid exactly while there is more to come. */
    lemma ValidWhileLeft()
      requires Ok()
      ensures Valid() <==> Left() != []
    {
    }

    method Next()
      requires Ok() && valid
      modifies this, source
      ensures Ok() && Left() == old(Left())[1..]
    {
      ghost var l := source.Left();
      assert Yield(l, prefix)[1..] == Yield(l[1..], prefix);
      source.Next();
      if !source.Valid() {
        valid := false;
        return;
      }
      var k := source.Key();
      if !HasPrefix(k, prefix) {
        valid := false;
        return;
      }
    }

    method Key() returns (k: Bytes)
      requires Ok() && valid
      ensures Left() != [] && k == Left()[0]
    {
      var full := source.Key();
      k := Strip(full, prefix);
    }
  }

  class PrefixDB {
    const prefix: Bytes
    const db: MemDB

    constructor (db: MemDB, prefix: Bytes)
      ensures this.db == db && this.prefix == prefix
    {
      this.db, this.prefix := db, prefix;
    }

    ghost function Contents(): map<Bytes, Bytes>
      reads db
    {
      SubMap(db.db, prefix)
    }

    method Get(key: Bytes) returns (value: Option<Bytes>)
      ensures value == if key in Contents() then Some(Contents()[key]) else None
    {
      InSubMap(db.db, prefix, key);
      value := db.Get(prefix + key);
    }

    /** Changes its own view by the one entry, and nothing outside the prefix. */
    method Set(key: Bytes, value: Bytes)
      modifies db
      ensures Contents() == old(Contents())[key := value]
      ensures forall k | !HasPrefix(k, prefix) :: (k in db.db <==> k in old(db.db)) && (k in db.db ==> db.db[k] == old(db.db)[k])
    {
      ghost var before := db.db;
      db.Set(prefix + key, value);
      SetUnderPrefix(before, prefix, key, value);
    }

    method Delete(key: Bytes)
      modifies db
      ensures Contents() == old(Contents()) - {key}
      ensures forall k | !HasPrefix(k, prefix) :: (k in db.db <==> k in old(db.db)) && (k in db.db ==> db.db[k] == old(db.db)[k])
    {
      ghost var before := db.db;
      db.Delete(prefix + key);
      DeleteUnderPrefix(before, prefix, key);
    }

    /** An iterator over the domain; null is the panic on an empty prefix without an end. */
    method Iterator(start: Bytes, end: Option<Bytes>) returns (it: PrefixIterator?)
      ensures it == null <==> prefix == [] && end.None?
      ensures it != null ==> fresh(it) && fresh(it.source) && it.Ok() && Lists(it.Left(), Contents(), start, end)
    {
      var pend := None;
      if end.None? {
        if |prefix| == 0 {
          return null;
        }
        pend := CpIncr(prefix);
      } else {
        pend := Some(prefix + end.value);
      }
      var keys := db.GetSortedKeys(prefix + start, pend, false);
      var source := new MemIterator(keys);
      it := new PrefixIterator(prefix, source);
      assert source.Left() == keys;
      IterationRefinesSubMap(keys, db.db, prefix, start, end);
    }

    /** The loop clients write: it sees exactly the keys of the view in the domain, each
        once, in order. */
    method Keys(start: Bytes, end: Option<Bytes>) returns (keys: seq<Bytes>)
      requires prefix != [] || end.Some?
      ensures Lists(keys, Contents(), start, end)
    {
      var it := Iterator(start, end);
      ghost var all := it.Left();
      keys := [];
      it.ValidWhileLeft();
      while it.Valid()
        invariant fresh(it) && fresh(it.source) && it.Ok()
        invariant all == keys + it.Left()
        invariant it.Valid() <==> it.Left() != []
        decreases |it.Left()|
      {
        var k := it.Key();
        assert it.Left() == [k] + it.Left()[1..];
        keys := keys + [k];
        it.Next();
        it.ValidWhileLeft();
      }
      assert keys == all;
    }
  }

  lemma SetUnderPrefix(db: map<Bytes, Bytes>, p: Bytes, key: Bytes, value: Bytes)
    ensures SubMap(db[p + key := value], p) == SubMap(db, p)[key := value]
  {
    var a, b := SubMap(db[p + key := value], p), SubMap(db, p)[key := value];
    forall x
      ensures x in a <==> x in b
      ensures x in a && x in b ==> a[x] == b[x]
    {
      InSubMap(db, p, x);
      InSubMap(db[p + key := value], p, x);
      assert (p + x)[|p|..] == x && (p + key)[|p|..] == key;
    }
  }

  lemma DeleteUnderPrefix(db: map<Bytes, Bytes>, p: Bytes, key: Bytes)
    ensures SubMap(db - {p + key}, p) == SubMap(db, p) - {key}
  {
    var a, b := SubMap(db - {p + key}, p), SubMap(db, p) - {key};
    forall x
      ensures x in a <==> x in b
      ensures x in a && x in b ==> a[x] == b[x]
    {
      InSubMap(db, p, x);
      InSubMap(db - {p + key}, p, x);
      assert (p + x)[|p|..] == x && (p + key)[|p|..] == key;
    }
  }
}
