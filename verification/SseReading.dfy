/** What reading makes of any bytes, also of those nothing writes. */
module SseReading {
  import opened Common
  import opened LittleEndian
  import opened Sse
  import opened SseTypes

  // ----- UTF-8 -----

  /** A Unicode scalar value: a code point that is no surrogate. */
  predicate IsScalar(s: int) {
    0 <= s < 0xD800 || 0xE000 <= s <= 0x10FFFF
  }

  /** The spelling of a scalar value, section 3 of RFC 3629. */
  function Spelled(s: int): (b: Bytes)
    requires IsScalar(s)
    ensures 1 <= |b| <= 4
  {
    if s < 0x80 then [s]
    else if s < 0x800 then [0xC0 + s / 64, 0x80 + s % 64]
    else if s < 0x10000 then [0xE0 + s / 4096, 0x80 + s / 64 % 64, 0x80 + s % 64]
    else [0xF0 + s / 262144, 0x80 + s / 4096 % 64, 0x80 + s / 64 % 64, 0x80 + s % 64]
  }

  ghost predicate AllScalars(text: seq<int>) {
    forall i :: 0 <= i < |text| ==> IsScalar(text[i])
  }

  function SpelledText(text: seq<int>): Bytes
    requires AllScalars(text)
  {
    if text == [] then [] else Spelled(text[0]) + SpelledText(text[1..])
  }

  /** The spelling of a scalar value is one step, whatever follows. */
  lemma StepOverSpelled(s: int, rest: Bytes)
    requires IsScalar(s)
    ensures Utf8Step(Spelled(s) + rest) == |Spelled(s)|
  {
  }

  lemma TwoDigits(high: int, low: int)
    requires 0 <= low < 64
    ensures (high * 64 + low) / 64 == high && (high * 64 + low) % 64 == low
  {
  }

  /** The value two, three or four bytes stand for. */
  function Value2(b: Bytes): int
    requires |b| >= 2
  {
    var b0: int, b1: int := b[0], b[1];
    (b0 - 0xC0) * 64 + (b1 - 0x80)
  }

  function Value3(b: Bytes): int
    requires |b| >= 3
  {
    var b0: int, b1: int, b2: int := b[0], b[1], b[2];
    ((b0 - 0xE0) * 64 + (b1 - 0x80)) * 64 + (b2 - 0x80)
  }

  function Value4(b: Bytes): int
    requires |b| >= 4
  {
    var b0: int, b1: int, b2: int, b3: int := b[0], b[1], b[2], b[3];
    (((b0 - 0xF0) * 64 + (b1 - 0x80)) * 64 + (b2 - 0x80)) * 64 + (b3 - 0x80)
  }

  lemma SpelledByTwo(b: Bytes)
    requires b != [] && Utf8Step(b) == 2
    ensures IsScalar(Value2(b)) && Spelled(Value2(b)) == b[..2]
  {
    TwoDigits(b[0] - 0xC0, b[1] - 0x80);
  }

  lemma SpelledByThree(b: Bytes)
    requires b != [] && Utf8Step(b) == 3
    ensures IsScalar(Value3(b)) && Spelled(Value3(b)) == b[..3]
  {
    var b0: int, b1: int, b2: int := b[0], b[1], b[2];
    var upper := (b0 - 0xE0) * 64 + (b1 - 0x80);
    TwoDigits(b0 - 0xE0, b1 - 0x80);
    TwoDigits(upper, b2 - 0x80);
    assert Value3(b) / 4096 == upper / 64;
  }

  lemma SpelledByFour(b: Bytes)
    requires b != [] && Utf8Step(b) == 4
    ensures IsScalar(Value4(b)) && Spelled(Value4(b)) == b[..4]
  {
    var b0: int, b1: int, b2: int, b3: int := b[0], b[1], b[2], b[3];
    var upper := (b0 - 0xF0) * 64 + (b1 - 0x80);
    var middle := upper * 64 + (b2 - 0x80);
    TwoDigits(b0 - 0xF0, b1 - 0x80);
    TwoDigits(upper, b2 - 0x80);
    TwoDigits(middle, b3 - 0x80);
    assert Value4(b) / 4096 == middle / 64 && Value4(b) / 262144 == upper / 64;
  }

  /** Every step is over the spelling of a scalar value. */
  lemma StepIsSpelled(b: Bytes) returns (s: int)
    requires b != [] && Utf8Step(b) > 0
    ensures IsScalar(s) && Spelled(s) == b[..Utf8Step(b)]
  {
    var n := Utf8Step(b);
    if n == 1 {
      s := b[0];
    } else if n == 2 {
      SpelledByTwo(b);
      s := Value2(b);
    } else if n == 3 {
      SpelledByThree(b);
      s := Value3(b);
    } else {
      assert n == 4;
      SpelledByFour(b);
      s := Value4(b);
    }
  }

  lemma {:induction false} SpelledTextIsValid(text: seq<int>)
    requires AllScalars(text)
    ensures ValidUtf8(SpelledText(text))
  {
    if text != [] {
      SpelledTextIsValid(text[1..]);
      StepOverSpelled(text[0], SpelledText(text[1..]));
      var b := SpelledText(text);
      assert b[Utf8Step(b)..] == SpelledText(text[1..]);
    }
  }

  lemma {:induction false} ValidIsSpelledText(b: Bytes) returns (text: seq<int>)
    requires ValidUtf8(b)
    ensures AllScalars(text) && SpelledText(text) == b
    decreases |b|
  {
    if b == [] {
      text := [];
    } else {
      var s := StepIsSpelled(b);
      var rest := ValidIsSpelledText(b[Utf8Step(b)..]);
      text := [s] + rest;
      assert text[1..] == rest && b == b[..Utf8Step(b)] + b[Utf8Step(b)..];
    }
  }

  /** Main result: bytes are read as text if and only if they spell a sequence of scalar values. */
  lemma ReadAsTextIff(b: Bytes)
    ensures AsUtf8(b).Some? <==> exists text :: AllScalars(text) && SpelledText(text) == b
    ensures AsUtf8(b).Some? ==> AsUtf8(b).value == b
  {
    if ValidUtf8(b) { var text := ValidIsSpelledText(b); }
    if text :| AllScalars(text) && SpelledText(text) == b { SpelledTextIsValid(text); }
  }

  // ----- single values -----

  /** Any byte but zero is true; sixteen bytes are an id and nothing else is. */
  lemma SimpleValuesRead(first: Byte, rest: Bytes, b: Bytes)
    ensures BOOL.dec([first] + rest) == Some((first != 0, rest)) && BOOL.dec([]) == None
    ensures U8.dec([first] + rest) == Some((first, rest)) && U8.dec([]) == None
    ensures AsUuid(b) == if |b| == 16 then Some(b) else None
  {
    assert ([first] + rest)[1..] == rest;
  }

  /** A text, or an id, is a list of bytes that is one; otherwise reading fails. */
  lemma TextRead(b: Bytes)
    ensures var r := BYTE_VEC.dec(b);
      && STR.dec(b) == (if r.Some? && ValidUtf8(r.value.0) then Some((r.value.0, r.value.1)) else None)
      && ID.dec(b) == (if r.Some? && |r.value.0| == 16 then Some((r.value.0, r.value.1)) else None)
  {
  }

  /** Numbers that name no device type fail. */
  lemma DeviceTypeRead(b: Bytes)
    ensures var n := I32.dec(b);
      && (DEVICE.dec(b).Some? <==> n.Some? && 0 <= n.value.0 < 5)
      && (DEVICE.dec(b).Some? ==> DEVICE.dec(b).value.1 == n.value.1)
  {
  }

  /** Numbers that name no session state or no message fail. */
  lemma TagsRead(b: Bytes)
    requires I32.dec(b).None? || I32.dec(b).value.0 < 0 || I32.dec(b).value.0 > 7
    ensures RTC_STATUS.dec(b) == None && FROM_SERVER.dec(b) == None
  {
    hide STR, CLIENT, SDP, ID, U16, HELLO_PARTS;
  }

  /** Eight messages there are not: the last number fails, too. */
  lemma LastTagRead(b: Bytes)
    requires I32.dec(b).Some? && I32.dec(b).value.0 == 7
    ensures FROM_SERVER.dec(b) == None
  {
    hide STR, CLIENT, SDP, ID, U16, HELLO_PARTS;
  }

  // ----- lists and maps -----

  /** A count that is negative or zero reads no element and takes no byte of what follows. */
  lemma NoElementsRead<T>(c: Codec<T>, b: Bytes)
    requires I32.dec(b).Some? && I32.dec(b).value.0 <= 0
    ensures VecOf(c).dec(b) == Some(([], I32.dec(b).value.1))
  {
  }

  /** When a key occurs more than once among the pairs read, the last one counts. */
  lemma {:induction false} LastPairCounts<K, V>(pairs: seq<(K, V)>, k: K)
    ensures k in Collect(pairs) <==> exists i :: 0 <= i < |pairs| && pairs[i].0 == k
    ensures k in Collect(pairs) ==>
      exists i :: 0 <= i < |pairs| && pairs[i] == (k, Collect(pairs)[k])
                  && forall j :: i < j < |pairs| ==> pairs[j].0 != k
  {
    if pairs != [] {
      var before, last := pairs[..|pairs| - 1], |pairs| - 1;
      LastPairCounts(before, k);
      if pairs[last].0 == k {
        assert pairs[last] == (k, Collect(pairs)[k]);
      } else if k in Collect(before) {
        var i :| 0 <= i < |before| && before[i] == (k, Collect(before)[k])
                 && forall j :: i < j < |before| ==> before[j].0 != k;
        assert pairs[i] == (k, Collect(pairs)[k]);
        forall j | i < j < |pairs| ensures pairs[j].0 != k { if j < last { assert pairs[j] == before[j]; } }
      } else if i :| 0 <= i < |pairs| && pairs[i].0 == k {
        assert before[i].0 == k;
      }
    }
  }
}
