/** Durations and times as pairs of seconds and nanoseconds. */
module AminoDuration {
  import opened AminoPrimitives

  const NANOS: int := 1_000_000_000
  const MIN_DURATION_SECONDS: int := -315_576_000_000
  const MAX_DURATION_SECONDS: int := 315_576_000_000
  const MIN_TIME_SECONDS: int := -62_135_596_800
  const MAX_TIME_SECONDS: int := 253_402_300_800

  /** Division of Go: the quotient is truncated, the remainder takes the sign of `a`. */
  function Quo(a: int): int {
    if a >= 0 then a / NANOS else -((-a) / NANOS)
  }

  function Rem(a: int): int {
    a - Quo(a) * NANOS
  }

  /** Two's complement wrap-around to 64 bits. */
  function Wrap64(x: int): (w: int)
    ensures IsInt64(w)
  {
    var u := x % TWO_64;
    if u >= TWO_63 then u - TWO_64 else u
  }

  /** uint64(x) of an int64, and back. */
  function ToUint64(x: int): (u: nat)
    requires IsInt64(x)
    ensures u < TWO_64
  {
    if x < 0 then x + TWO_64 else x
  }

  function FromUint64(u: nat): (x: int)
    requires u < TWO_64
    ensures IsInt64(x)
  {
    if u >= TWO_63 then u - TWO_64 else u
  }

  // ---------------------------------------------------------------- validation

  /** validateDurationValue. */
  predicate ValidDuration(s: int, ns: int) {
    && !(s > 0 && ns < 0) && !(s < 0 && ns > 0)
    && MIN_DURATION_SECONDS <= s <= MAX_DURATION_SECONDS
    && -NANOS < ns < NANOS
  }

  const MIN_GO_SECONDS: int := -9_223_372_036
  const MAX_GO_SECONDS: int := 9_223_372_036

  lemma GoBounds()
    ensures MIN_GO_SECONDS == Quo(-TWO_63) && MAX_GO_SECONDS == Quo(TWO_63 - 1)
  {
  }

  /** validateDurationValueGo: the sum is computed in 64 bits, and may have wrapped. */
  predicate ValidGoDuration(s: int, ns: int) {
    && ValidDuration(s, ns)
    && MIN_GO_SECONDS <= s <= MAX_GO_SECONDS
    && var sns := Wrap64(Wrap64(s * NANOS) + ns);
       !(sns > 0 && s < 0) && !(sns < 0 && s > 0)
  }

  /** Among valid pairs, exactly those are accepted whose exact sum is an int64; for
      them the computed sum is exact. */
  lemma GoAcceptsExactly(s: int, ns: int)
    requires ValidDuration(s, ns)
    ensures ValidGoDuration(s, ns) <==> IsInt64(s * NANOS + ns)
    ensures ValidGoDuration(s, ns) ==> Wrap64(Wrap64(s * NANOS) + ns) == s * NANOS + ns
  {
    if MIN_GO_SECONDS <= s <= MAX_GO_SECONDS {
      assert IsInt64(s * NANOS);
      WrapNear(s * NANOS, 0);
      var x := s * NANOS + ns;
      if x >= TWO_63 {
        assert s > 0;
        WrapNear(x, 1);
      } else if x < -TWO_63 {
        assert s < 0;
        WrapNear(x, -1);
      } else {
        WrapNear(x, 0);
      }
    }
  }

  lemma WrapNear(x: int, k: int)
    requires -1 <= k <= 1 && IsInt64(x - k * TWO_64)
    ensures Wrap64(x) == x - k * TWO_64
  {
  }

  predicate ValidTime(s: int, ns: int) {
    MIN_TIME_SECONDS <= s < MAX_TIME_SECONDS && 0 <= ns < NANOS
  }

  // ---------------------------------------------------------------- the pair on the wire

  /** Seconds as field 1, nanoseconds as field 2; zeros are left out. */
  function EncPair(s: int, ns: int): seq<Byte>
    requires IsInt64(s) && IsInt64(ns)
  {
    (if s == 0 then [] else PutKey(1, Varint3) + PutUvarint(ToUint64(s)))
    + (if ns == 0 then [] else PutKey(2, Varint3) + PutUvarint(ToUint64(ns)))
  }

  datatype Part = Part(x: int, n: nat) | BadPart

  /** decodeSeconds: an absent field is zero. */
  function Seconds(bz: seq<Byte>): (r: Part)
    ensures r.Part? ==> r.n <= |bz| && IsInt64(r.x)
  {
    if bz == [] then Part(0, 0)
    else match ReadKey(bz)
      case BadKey => BadPart
      case Key(num, code, k) =>
        if num == 1 && code == Code(Varint3) then
          match Uvarint(bz[k..])
          case None => BadPart
          case Some((u, n)) => Part(FromUint64(u), k + n)
        else if num == 2 && code == Code(Varint3) then Part(0, 0)
        else BadPart
  }

  /** decodeNanos: an absent field is zero, and anything else is left unread. */
  function Nanos(bz: seq<Byte>): (r: Part)
    ensures r.Part? ==> r.n <= |bz| && -NANOS < r.x < NANOS
  {
    if bz == [] then Part(0, 0)
    else match ReadKey(bz)
      case BadKey => BadPart
      case Key(num, code, k) =>
        if num == 2 && code == Code(Varint3) then
          match Uvarint(bz[k..])
          case None => BadPart
          case Some((u, n)) =>
            var x := FromUint64(u);
            if x >= NANOS || x <= -NANOS then BadPart else Part(x, k + n)
        else Part(0, 0)
  }

  datatype Pair = Pair(s: int, ns: int, n: nat) | BadPair

  function DecPair(bz: seq<Byte>): (r: Pair)
    ensures r.Pair? ==> r.n <= |bz|
  {
    match Seconds(bz)
    case BadPart => BadPair
    case Part(s, n) =>
      match Nanos(bz[n..])
      case BadPart => BadPair
      case Part(ns, m) => Pair(s, ns, n + m)
  }

  lemma KeyThen(num: nat, x: int, rest: seq<Byte>)
    requires 1 <= num <= 2 && IsInt64(x)
    ensures var key, v := PutKey(num, Varint3), PutUvarint(ToUint64(x));
            var bz := key + v + rest;
            && ReadKey(bz) == Key(num, 0, |key|)
            && bz[|key|..] == v + rest
            && Uvarint(bz[|key|..]) == Some((ToUint64(x), |v|))
            && bz[|key| + |v|..] == rest
            && FromUint64(ToUint64(x)) == x
  {
    var key, v := PutKey(num, Varint3), PutUvarint(ToUint64(x));
    var bz := key + v + rest;
    CatAssoc(key, v, rest);
    KeyRoundTrip(num, Varint3, v + rest);
    UvarintRoundTrip(ToUint64(x), rest);
    assert bz[|key|..] == v + rest;
  }

  /** Every pair with nanoseconds below a second is read back, to exactly its length. */
  lemma PairRoundTrip(s: int, ns: int)
    requires IsInt64(s) && -NANOS < ns < NANOS
    ensures DecPair(EncPair(s, ns)) == Pair(s, ns, |EncPair(s, ns)|)
  {
    hide ReadKey, Uvarint, PutKey, PutUvarint;
    var second := if ns == 0 then [] else PutKey(2, Varint3) + PutUvarint(ToUint64(ns));
    if ns != 0 {
      KeyThen(2, ns, []);
      assert PutKey(2, Varint3) + PutUvarint(ToUint64(ns)) + [] == second;
    }
    assert Nanos(second) == Part(ns, |second|);
    if s != 0 {
      KeyThen(1, s, second);
    } else {
      assert EncPair(s, ns) == second;
      assert second[0..] == second;
    }
  }

  // ---------------------------------------------------------------- durations and times

  /** EncodeDuration of an int64 number of nanoseconds; None is an error. */
  function EncDuration(d: int): Option<seq<Byte>>
    requires IsInt64(d)
  {
    if IsInt64(Quo(d)) && ValidDuration(Quo(d), Rem(d)) then Some(EncPair(Quo(d), Rem(d))) else None
  }

  /** DecodeDuration; None is an error. */
  function DecDuration(bz: seq<Byte>): (r: Option<(int, nat)>)
  {
    match DecPair(bz)
    case BadPair => None
    case Pair(s, ns, n) =>
      if ValidGoDuration(s, ns) then Some((Wrap64(Wrap64(s * NANOS) + ns), n)) else None
  }

  lemma Split(d: int)
    requires IsInt64(d)
    ensures d == Quo(d) * NANOS + Rem(d) && ValidDuration(Quo(d), Rem(d)) && IsInt64(Quo(d))
  {
    var a := if d >= 0 then d else -d;
    assert a == (a / NANOS) * NANOS + a % NANOS;
  }

  lemma RemBound(d: int)
    ensures -NANOS < Rem(d) < NANOS
  {
  }

  /** Every int64 duration, both extremes included, is encodable and read back. */
  lemma DurationRoundTrip(d: int)
    requires IsInt64(d)
    ensures EncDuration(d).Some?
    ensures DecDuration(EncDuration(d).value) == Some((d, |EncDuration(d).value|))
  {
    hide Wrap64, ValidGoDuration, ValidDuration, DecPair, EncPair, Quo, Rem;
    Split(d);
    RemBound(d);
    PairRoundTrip(Quo(d), Rem(d));
    GoAcceptsExactly(Quo(d), Rem(d));
  }

  /** What is decoded is the exact sum, and is always an int64. */
  lemma DecodedDurationIsExact(bz: seq<Byte>)
    requires DecDuration(bz).Some?
    ensures var p := DecPair(bz);
            p.Pair? && DecDuration(bz) == Some((p.s * NANOS + p.ns, p.n)) && IsInt64(p.s * NANOS + p.ns)
  {
    hide Wrap64, DecPair;
    var p := DecPair(bz);
    GoAcceptsExactly(p.s, p.ns);
  }

  function EncTime(s: int, ns: int): Option<seq<Byte>>
    requires IsInt64(s) && IsInt64(ns)
  {
    if ValidTime(s, ns) then Some(EncPair(s, ns)) else None
  }

  function DecTime(bz: seq<Byte>): Pair {
    match DecPair(bz)
    case BadPair => BadPair
    case Pair(s, ns, n) => if ValidTime(s, ns) then Pair(s, ns, n) else BadPair
  }

  lemma TimeRoundTrip(s: int, ns: int)
    requires IsInt64(s) && IsInt64(ns) && EncTime(s, ns).Some?
    ensures DecTime(EncTime(s, ns).value) == Pair(s, ns, |EncTime(s, ns).value|)
  {
    PairRoundTrip(s, ns);
  }
}
