/** The serialization codec between the application and its core: codecs for plain values, and
    ways to build codecs from codecs. */
module Sse {
  import opened Common
  import opened LittleEndian

  type Bytes = seq<Byte>

  /** How values of a type are written, and how one is read from the front of a buffer; reading
      yields the value and what follows it, or fails. `fits` are the values the type can hold. */
  datatype Codec<!T> = Codec(enc: T -> Bytes, dec: Bytes -> Option<(T, Bytes)>, fits: T -> bool)

  ghost predicate ReadsBack<T>(c: Codec<T>, x: T, rest: Bytes) {
    c.dec(c.enc(x) + rest) == Some((x, rest))
  }

  /** Whatever is written is read back, and exactly what was written is consumed. */
  ghost predicate Lawful<T(!new)>(c: Codec<T>) {
    forall x: T, rest: Bytes :: c.fits(x) ==> ReadsBack(c, x, rest)
  }

  /** No encoding is the beginning of another, so a buffer has at most one reading. */
  lemma PrefixFree<T(!new)>(c: Codec<T>, x: T, y: T, afterX: Bytes, afterY: Bytes)
    requires Lawful(c) && c.fits(x) && c.fits(y)
    ensures c.enc(x) + afterX == c.enc(y) + afterY <==> x == y && afterX == afterY
  {
    assert ReadsBack(c, x, afterX) && ReadsBack(c, y, afterY);
  }

  // ----- numbers -----

  function UnsignedDec(width: nat, bytes: Bytes): Option<(nat, Bytes)> {
    if |bytes| < width then None else Some((FromBytes(bytes[..width]), bytes[width..]))
  }

  /** An unsigned integer of `width` bytes, least significant first. */
  function Unsigned(width: nat): Codec<nat> {
    Codec((x: nat) => ToBytes(x, width), (bytes: Bytes) => UnsignedDec(width, bytes), (x: nat) => x < Pow256(width))
  }

  lemma UnsignedLawful(width: nat)
    ensures Lawful(Unsigned(width))
  {
    forall x: nat, rest: Bytes | x < Pow256(width) ensures ReadsBack(Unsigned(width), x, rest) {
      NumberRoundTrip(x, width);
      assert (ToBytes(x, width) + rest)[..width] == ToBytes(x, width);
      assert (ToBytes(x, width) + rest)[width..] == rest;
    }
  }

  const TWO_31: int := 0x8000_0000
  const TWO_32: int := 0x1_0000_0000

  /** Casting to 32 bits keeps the lowest ones. */
  function I32Enc(x: int): Bytes { ToBytes(x % TWO_32, 4) }

  function I32Dec(bytes: Bytes): Option<(int, Bytes)> {
    var n := UnsignedDec(4, bytes);
    if n.None? then None
    else Some((if n.value.0 >= TWO_31 then n.value.0 - TWO_32 else n.value.0, n.value.1))
  }

  const I32: Codec<int> := Codec((x: int) => I32Enc(x), (b: Bytes) => I32Dec(b), (x: int) => -TWO_31 <= x < TWO_31)

  /** What is read back after a cast to 32 bits: the number reduced to the signed range. */
  function Wrapped(x: int): int {
    if x % TWO_32 >= TWO_31 then x % TWO_32 - TWO_32 else x % TWO_32
  }

  lemma FourBytes()
    ensures Pow256(4) == TWO_32 && Pow256(1) == 256
  {
    assert Pow256(1) == 256 * Pow256(0);
    assert Pow256(2) == 256 * Pow256(1);
    assert Pow256(3) == 256 * Pow256(2);
    assert Pow256(4) == 256 * Pow256(3);
  }

  lemma I32ReadsWrapped(x: int, rest: Bytes)
    ensures I32Dec(I32Enc(x) + rest) == Some((Wrapped(x), rest))
    ensures Wrapped(x) == x <==> I32.fits(x)
  {
    FourBytes();
    UnsignedLawful(4);
    assert ReadsBack(Unsigned(4), x % TWO_32, rest);
  }

  lemma I32Lawful()
    ensures Lawful(I32)
  {
    forall x: int, rest: Bytes | I32.fits(x) ensures ReadsBack(I32, x, rest) { I32ReadsWrapped(x, rest); }
  }

  // ----- truth values -----

  function BoolEnc(x: bool): Bytes { if x then [1] else [0] }

  /** Any byte but zero reads as true. */
  function BoolDec(bytes: Bytes): Option<(bool, Bytes)> {
    if bytes == [] then None else Some((bytes[0] != 0, bytes[1..]))
  }

  const BOOL: Codec<bool> := Codec((x: bool) => BoolEnc(x), (b: Bytes) => BoolDec(b), (x: bool) => true)

  lemma BoolLawful()
    ensures Lawful(BOOL)
  {
    forall x: bool, rest: Bytes ensures ReadsBack(BOOL, x, rest) {
      assert (BoolEnc(x) + rest)[1..] == rest;
    }
  }

  // ----- building codecs -----

  function PairDec<A, B>(a: Codec<A>, b: Codec<B>, bytes: Bytes): Option<((A, B), Bytes)> {
    var first := a.dec(bytes);
    if first.None? then None
    else
      var second := b.dec(first.value.1);
      if second.None? then None else Some(((first.value.0, second.value.0), second.value.1))
  }

  /** Two fields, one after the other. */
  function Pair<A, B>(a: Codec<A>, b: Codec<B>): Codec<(A, B)> {
    Codec((p: (A, B)) => a.enc(p.0) + b.enc(p.1), (bytes: Bytes) => PairDec(a, b, bytes),
          (p: (A, B)) => a.fits(p.0) && b.fits(p.1))
  }

  lemma PairLawful<A(!new), B(!new)>(a: Codec<A>, b: Codec<B>)
    requires Lawful(a) && Lawful(b)
    ensures Lawful(Pair(a, b))
  {
    forall p: (A, B), rest: Bytes | Pair(a, b).fits(p) ensures ReadsBack(Pair(a, b), p, rest) {
      assert (a.enc(p.0) + b.enc(p.1)) + rest == a.enc(p.0) + (b.enc(p.1) + rest);
      assert ReadsBack(a, p.0, b.enc(p.1) + rest) && ReadsBack(b, p.1, rest);
    }
  }

  function RecordDec<A, B>(c: Codec<A>, from: A -> Option<B>, bytes: Bytes): Option<(B, Bytes)> {
    var r := c.dec(bytes);
    if r.None? then None
    else
      var value := from(r.value.0);
      if value.None? then None else Some((value.value, r.value.1))
  }

  /** Values of `B` written as values of `A`; not every value of `A` need be one of `B`. */
  function Record<A, B>(c: Codec<A>, to: B -> A, from: A -> Option<B>): Codec<B> {
    Codec((y: B) => c.enc(to(y)), (bytes: Bytes) => RecordDec(c, from, bytes), (y: B) => c.fits(to(y)))
  }

  lemma RecordLawful<A(!new), B(!new)>(c: Codec<A>, to: B -> A, from: A -> Option<B>)
    requires Lawful(c) && forall y :: c.fits(to(y)) ==> from(to(y)) == Some(y)
    ensures Lawful(Record(c, to, from))
  {
    forall y: B, rest: Bytes | c.fits(to(y)) ensures ReadsBack(Record(c, to, from), y, rest) {
      assert ReadsBack(c, to(y), rest);
    }
  }

  function OptionEnc<T>(c: Codec<T>, x: Option<T>): Bytes {
    BoolEnc(x.Some?) + (if x.Some? then c.enc(x.value) else [])
  }

  function OptionDec<T>(c: Codec<T>, bytes: Bytes): Option<(Option<T>, Bytes)> {
    var present := BoolDec(bytes);
    if present.None? then None
    else if !present.value.0 then Some((None, present.value.1))
    else
      var r := c.dec(present.value.1);
      if r.None? then None else Some((Some(r.value.0), r.value.1))
  }

  function OptionOf<T>(c: Codec<T>): Codec<Option<T>> {
    Codec((x: Option<T>) => OptionEnc(c, x), (bytes: Bytes) => OptionDec(c, bytes),
          (x: Option<T>) => x.Some? ==> c.fits(x.value))
  }

  lemma OptionLawful<T(!new)>(c: Codec<T>)
    requires Lawful(c)
    ensures Lawful(OptionOf(c))
  {
    forall x: Option<T>, rest: Bytes | OptionOf(c).fits(x) ensures ReadsBack(OptionOf(c), x, rest) {
      BoolLawful();
      var tail := if x.Some? then c.enc(x.value) else [];
      assert OptionEnc(c, x) + rest == BoolEnc(x.Some?) + (tail + rest);
      assert ReadsBack(BOOL, x.Some?, tail + rest);
      if x.Some? {
        assert ReadsBack(c, x.value, rest);
      } else {
        assert tail + rest == rest;
      }
    }
  }

  // ----- lists -----

  function EncAll<T>(c: Codec<T>, xs: seq<T>): Bytes {
    if xs == [] then [] else EncAll(c, xs[..|xs| - 1]) + c.enc(xs[|xs| - 1])
  }

  /** A count that is not positive reads nothing. */
  function DecN<T>(c: Codec<T>, n: int, bytes: Bytes): Option<(seq<T>, Bytes)>
    decreases if n > 0 then n else 0
  {
    if n <= 0 then Some(([], bytes))
    else
      var before := DecN(c, n - 1, bytes);
      if before.None? then None
      else
        var last := c.dec(before.value.1);
        if last.None? then None else Some((before.value.0 + [last.value.0], last.value.1))
  }

  function VecEnc<T>(c: Codec<T>, xs: seq<T>): Bytes { I32Enc(|xs|) + EncAll(c, xs) }

  function VecDec<T>(c: Codec<T>, bytes: Bytes): Option<(seq<T>, Bytes)> {
    var n := I32Dec(bytes);
    if n.None? then None else DecN(c, n.value.0, n.value.1)
  }

  /** The length as a 32-bit number, then the elements. */
  function VecOf<T>(c: Codec<T>): Codec<seq<T>> {
    Codec((xs: seq<T>) => VecEnc(c, xs), (bytes: Bytes) => VecDec(c, bytes),
          (xs: seq<T>) => |xs| < TWO_31 && forall i :: 0 <= i < |xs| ==> c.fits(xs[i]))
  }

  lemma {:induction false} ElementsReadBack<T(!new)>(c: Codec<T>, xs: seq<T>, rest: Bytes)
    requires Lawful(c) && forall i :: 0 <= i < |xs| ==> c.fits(xs[i])
    ensures DecN(c, |xs|, EncAll(c, xs) + rest) == Some((xs, rest))
  {
    if xs == [] {
      assert EncAll(c, xs) + rest == rest;
    } else {
      var before, last := xs[..|xs| - 1], xs[|xs| - 1];
      ElementsReadBack(c, before, c.enc(last) + rest);
      assert EncAll(c, xs) + rest == EncAll(c, before) + (c.enc(last) + rest);
      assert ReadsBack(c, last, rest);
      assert before + [last] == xs;
    }
  }

  lemma {:induction false} DecNLength<T>(c: Codec<T>, n: int, bytes: Bytes)
    requires DecN(c, n, bytes).Some?
    ensures |DecN(c, n, bytes).value.0| == if n > 0 then n else 0
    decreases if n > 0 then n else 0
  {
    if n > 0 { DecNLength(c, n - 1, bytes); }
  }

  /** A list comes back if and only if its length is a 32-bit number: longer ones are written
      with a length that has wrapped around. */
  lemma VecReadsBackIff<T(!new)>(c: Codec<T>, xs: seq<T>, rest: Bytes)
    requires Lawful(c) && forall i :: 0 <= i < |xs| ==> c.fits(xs[i])
    ensures ReadsBack(VecOf(c), xs, rest) <==> |xs| < 0x8000_0000
  {
    assert VecEnc(c, xs) + rest == I32Enc(|xs|) + (EncAll(c, xs) + rest);
    I32ReadsWrapped(|xs|, EncAll(c, xs) + rest);
    if |xs| < TWO_31 {
      ElementsReadBack(c, xs, rest);
    } else if ReadsBack(VecOf(c), xs, rest) {
      DecNLength(c, Wrapped(|xs|), EncAll(c, xs) + rest);
      assert false;
    }
  }

  lemma VecLawful<T(!new)>(c: Codec<T>)
    requires Lawful(c)
    ensures Lawful(VecOf(c))
  {
    forall xs: seq<T>, rest: Bytes | VecOf(c).fits(xs) ensures ReadsBack(VecOf(c), xs, rest) {
      VecReadsBackIff(c, xs, rest);
    }
  }

  // ----- maps and sets -----

  /** Collecting pairs into a map: a later pair replaces an earlier one with its key. */
  function Collect<K, V>(pairs: seq<(K, V)>): map<K, V> {
    if pairs == [] then map[] else Collect(pairs[..|pairs| - 1])[pairs[|pairs| - 1].0 := pairs[|pairs| - 1].1]
  }

  /** `pairs` lists the entries of `m` once each, in some order. */
  ghost predicate Iterates<K, V>(pairs: seq<(K, V)>, m: map<K, V>) {
    && |pairs| == |m|
    && (forall i :: 0 <= i < |pairs| ==> pairs[i].0 in m && m[pairs[i].0] == pairs[i].1)
    && (forall i, j :: 0 <= i < j < |pairs| ==> pairs[i].0 != pairs[j].0)
  }

  lemma {:induction false} CollectsAll<K, V>(pairs: seq<(K, V)>, m: map<K, V>)
    requires Iterates(pairs, m)
    ensures Collect(pairs) == m
  {
    if pairs == [] {
      assert |m| == 0;
      assert m == map[];
    } else {
      var before, last := pairs[..|pairs| - 1], pairs[|pairs| - 1];
      var smaller := m - {last.0};
      assert m.Keys == smaller.Keys + {last.0};
      assert |m.Keys| == |smaller.Keys| + 1;
      CollectsAll(before, smaller);
      assert smaller[last.0 := last.1] == m;
    }
  }

  lemma {:induction false} SomeIteration<K, V>(m: map<K, V>) returns (pairs: seq<(K, V)>)
    ensures Iterates(pairs, m)
    decreases |m|
  {
    if m == map[] {
      pairs := [];
    } else {
      var k :| k in m;
      var smaller := m - {k};
      assert m.Keys == smaller.Keys + {k};
      assert |m.Keys| == |smaller.Keys| + 1;
      var before := SomeIteration(smaller);
      pairs := before + [(k, m[k])];
    }
  }

  function MapDec<K, V>(c: Codec<(K, V)>, bytes: Bytes): Option<(map<K, V>, Bytes)> {
    var r := VecDec(c, bytes);
    if r.None? then None else Some((Collect(r.value.0), r.value.1))
  }

  function Elements<K>(xs: seq<K>): set<K> {
    set x | x in xs
  }

  ghost predicate IteratesSet<K>(xs: seq<K>, s: set<K>) {
    Elements(xs) == s && forall i, j :: 0 <= i < j < |xs| ==> xs[i] != xs[j]
  }

  function SetDec<K>(c: Codec<K>, bytes: Bytes): Option<(set<K>, Bytes)> {
    var r := VecDec(c, bytes);
    if r.None? then None else Some((Elements(r.value.0), r.value.1))
  }

  /** A map written in any iteration order is read back as the same map. */
  lemma MapReadsBack<K(!new), V(!new)>(c: Codec<(K, V)>, m: map<K, V>, pairs: seq<(K, V)>, rest: Bytes)
    requires Lawful(c) && Iterates(pairs, m) && VecOf(c).fits(pairs)
    ensures MapDec(c, VecEnc(c, pairs) + rest) == Some((m, rest))
  {
    VecReadsBackIff(c, pairs, rest);
    CollectsAll(pairs, m);
  }

  lemma SetReadsBack<K(!new)>(c: Codec<K>, s: set<K>, xs: seq<K>, rest: Bytes)
    requires Lawful(c) && IteratesSet(xs, s) && VecOf(c).fits(xs)
    ensures SetDec(c, VecEnc(c, xs) + rest) == Some((s, rest))
  {
    VecReadsBackIff(c, xs, rest);
  }
}
