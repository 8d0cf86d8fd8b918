/** Base64 with the URL- and filename-safe alphabet and without padding, section 5 of RFC 4648. */
module Base64 {
  import opened Common

  type Sextet = x: int | 0 <= x < 64

  function Symbol(v: Sextet): char {
    if v < 26 then 'A' + v as char
    else if v < 52 then 'a' + (v - 26) as char
    else if v < 62 then '0' + (v - 52) as char
    else if v == 62 then '-'
    else '_'
  }

  function Value(c: char): Option<Sextet> {
    if 'A' <= c <= 'Z' then Some((c - 'A') as int)
    else if 'a' <= c <= 'z' then Some((c - 'a') as int + 26)
    else if '0' <= c <= '9' then Some((c - '0') as int + 52)
    else if c == '-' then Some(62)
    else if c == '_' then Some(63)
    else None
  }

  lemma ValueOfSymbol(v: Sextet)
    ensures Value(Symbol(v)) == Some(v)
  {
  }

  lemma SymbolOfValue(c: char)
    requires Value(c).Some?
    ensures Symbol(Value(c).value) == c
  {
  }

  /** Three bytes as four sextets. */
  function Split(a: Byte, b: Byte, c: Byte): (q: seq<Sextet>)
    ensures |q| == 4
  {
    [a / 4, a % 4 * 16 + b / 16, b % 16 * 4 + c / 64, c % 64]
  }

  function Merge(p: int, q: int, r: int, s: int): (b: seq<Byte>)
    requires 0 <= p < 64 && 0 <= q < 64 && 0 <= r < 64 && 0 <= s < 64
    ensures |b| == 3
  {
    [p * 4 + q / 16, q % 16 * 16 + r / 4, r % 4 * 64 + s]
  }

  lemma MergeSplit(a: Byte, b: Byte, c: Byte)
    ensures var q := Split(a, b, c); Merge(q[0], q[1], q[2], q[3]) == [a, b, c]
    ensures b == 0 ==> Split(a, b, c)[1] % 16 == 0
    ensures c == 0 ==> Split(a, b, c)[2] % 4 == 0
  {
    Digits(a % 4, b / 16);
    assert (b % 16 * 4 + c / 64) / 4 == b % 16 && (b % 16 * 4 + c / 64) % 4 == c / 64;
  }

  /** The two digits of a number in base sixteen. */
  lemma Digits(high: int, low: int)
    requires 0 <= low < 16
    ensures (high * 16 + low) / 16 == high && (high * 16 + low) % 16 == low
  {
  }

  lemma SplitMerge(p: Sextet, q: Sextet, r: Sextet, s: Sextet)
    ensures var b := Merge(p, q, r, s); Split(b[0], b[1], b[2]) == [p, q, r, s]
    ensures q % 16 == 0 && r == 0 ==> Merge(p, q, r, s)[1] == 0
    ensures r % 4 == 0 && s == 0 ==> Merge(p, q, r, s)[2] == 0
  {
    Quads(p, q / 16);
    Digits(q % 16, r / 4);
    assert (r % 4 * 64 + s) / 64 == r % 4 && (r % 4 * 64 + s) % 64 == s;
  }

  lemma Quads(high: int, low: int)
    requires 0 <= low < 4
    ensures (high * 4 + low) / 4 == high && (high * 4 + low) % 4 == low
  {
  }

  /** The bytes as groups of six bits, the last group filled up with zero bits. */
  function Sextets(b: seq<Byte>): seq<Sextet> {
    if b == [] then []
    else if |b| == 1 then Split(b[0], 0, 0)[..2]
    else if |b| == 2 then Split(b[0], b[1], 0)[..3]
    else Split(b[0], b[1], b[2]) + Sextets(b[3..])
  }

  /** The inverse; a single group left over, or fill bits that are not zero, are an error. */
  function Octets(v: seq<Sextet>): Option<seq<Byte>> {
    if v == [] then Some([])
    else if |v| == 1 then None
    else if |v| == 2 then
      if v[1] % 16 != 0 then None else Some(Merge(v[0], v[1], 0, 0)[..1])
    else if |v| == 3 then
      if v[2] % 4 != 0 then None else Some(Merge(v[0], v[1], v[2], 0)[..2])
    else
      var rest := Octets(v[4..]);
      if rest.None? then None else Some(Merge(v[0], v[1], v[2], v[3]) + rest.value)
  }

  function Spell(v: seq<Sextet>): (s: string)
    ensures |s| == |v| && forall i :: 0 <= i < |v| ==> s[i] == Symbol(v[i])
  {
    seq(|v|, i requires 0 <= i < |v| => Symbol(v[i]))
  }

  function Values(s: string): Option<seq<Sextet>> {
    if s == [] then Some([])
    else if Value(s[0]).None? then None
    else
      var rest := Values(s[1..]);
      if rest.None? then None else Some([Value(s[0]).value] + rest.value)
  }

  function Encode(b: seq<Byte>): string { Spell(Sextets(b)) }

  function Decode(s: string): Option<seq<Byte>> {
    var v := Values(s);
    if v.None? then None else Octets(v.value)
  }

  lemma {:induction false} OctetsOfSextets(b: seq<Byte>)
    ensures Octets(Sextets(b)) == Some(b)
  {
    if |b| == 1 {
      OctetsOfOne(b);
    } else if |b| == 2 {
      OctetsOfTwo(b);
    } else if |b| >= 3 {
      OctetsOfSextets(b[3..]);
      var q, v := Split(b[0], b[1], b[2]), Sextets(b);
      assert v[4..] == Sextets(b[3..]) && v[0] == q[0] && v[1] == q[1] && v[2] == q[2] && v[3] == q[3];
      MergeSplit(b[0], b[1], b[2]);
      assert b == [b[0], b[1], b[2]] + b[3..];
    }
  }

  lemma OctetsOfOne(b: seq<Byte>)
    requires |b| == 1
    ensures Octets(Sextets(b)) == Some(b)
  {
    var q := Split(b[0], 0, 0);
    MergeSplit(b[0], 0, 0);
    assert Sextets(b)[0] == q[0] && Sextets(b)[1] == q[1] && q[2] == 0 && q[3] == 0;
    assert b == [b[0], 0, 0][..1];
  }

  lemma OctetsOfTwo(b: seq<Byte>)
    requires |b| == 2
    ensures Octets(Sextets(b)) == Some(b)
  {
    var q := Split(b[0], b[1], 0);
    MergeSplit(b[0], b[1], 0);
    assert Sextets(b)[0] == q[0] && Sextets(b)[1] == q[1] && Sextets(b)[2] == q[2] && q[3] == 0;
    assert b == [b[0], b[1], 0][..2];
  }

  lemma {:induction false} SextetsOfOctets(v: seq<Sextet>)
    requires Octets(v).Some?
    ensures Sextets(Octets(v).value) == v
  {
    if |v| == 2 {
      var m := Merge(v[0], v[1], 0, 0);
      SplitMerge(v[0], v[1], 0, 0);
      assert m[1] == 0 && m[2] == 0 && v == [v[0], v[1], 0, 0][..2];
    } else if |v| == 3 {
      var m := Merge(v[0], v[1], v[2], 0);
      SplitMerge(v[0], v[1], v[2], 0);
      assert m[2] == 0 && v == [v[0], v[1], v[2], 0][..3];
    } else if |v| >= 4 {
      SextetsOfOctets(v[4..]);
      var m, b := Merge(v[0], v[1], v[2], v[3]), Octets(v).value;
      assert b[3..] == Octets(v[4..]).value && b[0] == m[0] && b[1] == m[1] && b[2] == m[2];
      SplitMerge(v[0], v[1], v[2], v[3]);
      assert v == [v[0], v[1], v[2], v[3]] + v[4..];
    }
  }

  lemma {:induction false} ValuesOfSpell(v: seq<Sextet>)
    ensures Values(Spell(v)) == Some(v)
  {
    if v != [] {
      ValuesOfSpell(v[1..]);
      assert Spell(v)[1..] == Spell(v[1..]);
      ValueOfSymbol(v[0]);
      assert v == [v[0]] + v[1..];
    }
  }

  lemma {:induction false} SpellOfValues(s: string)
    requires Values(s).Some?
    ensures Spell(Values(s).value) == s
  {
    if s != [] {
      SpellOfValues(s[1..]);
      SymbolOfValue(s[0]);
      assert Values(s).value[1..] == Values(s[1..]).value;
      assert s == [s[0]] + s[1..];
    }
  }

  /** Decoding inverts encoding, for all bytes. */
  lemma EncodeRoundTrip(b: seq<Byte>)
    ensures Decode(Encode(b)) == Some(b)
  {
    ValuesOfSpell(Sextets(b));
    OctetsOfSextets(b);
  }

  /** Every text that decodes is the encoding of what it decodes to, so each byte string has
      exactly one spelling. */
  lemma DecodeRoundTrip(s: string, b: seq<Byte>)
    ensures Decode(s) == Some(b) <==> s == Encode(b)
  {
    if Decode(s) == Some(b) {
      SextetsOfOctets(Values(s).value);
      SpellOfValues(s);
    }
    EncodeRoundTrip(b);
  }

  /** The alphabet of section 5, in order. */
  lemma SymbolTable()
    ensures Symbol(0) == 'A' && Symbol(25) == 'Z' && Symbol(26) == 'a' && Symbol(51) == 'z'
    ensures Symbol(52) == '0' && Symbol(61) == '9' && Symbol(62) == '-' && Symbol(63) == '_'
    ensures forall v: int :: 0 <= v < 61 && v != 25 && v != 51 ==> Symbol(v + 1) as int == Symbol(v) as int + 1
  {
  }

  /** Four symbols stand for the same number as the three bytes, most significant part first. */
  lemma GroupValue(a: Byte, b: Byte, c: Byte)
    ensures var q := Split(a, b, c);
      var p0: int, p1: int, p2: int, p3: int, a0: int, b0: int := q[0], q[1], q[2], q[3], a, b;
      p0 * 262144 + p1 * 4096 + p2 * 64 + p3 == a0 * 65536 + b0 * 256 + c
  {
  }

  /** Groups of three bytes are encoded one after the other; two bytes left over give three
      symbols and one gives two, the first ones of the group filled up with zeros. */
  lemma EncodesGroups(a: Byte, b: Byte, c: Byte, rest: seq<Byte>)
    ensures Sextets([a, b, c] + rest) == Split(a, b, c) + Sextets(rest)
    ensures Sextets([]) == [] && Sextets([a]) == Split(a, 0, 0)[..2] && Sextets([a, b]) == Split(a, b, 0)[..3]
  {
    assert ([a, b, c] + rest)[3..] == rest;
  }

  /** The separator of tokens is not in the alphabet. */
  lemma NoDot(b: seq<Byte>)
    ensures '.' !in Encode(b)
  {
    forall i | 0 <= i < |Encode(b)| ensures Encode(b)[i] != '.' {
      ValueOfSymbol(Sextets(b)[i]);
    }
  }
}
