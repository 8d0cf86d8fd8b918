/** The bytes themselves: which byte stands where on the wire, and which number means what. */
module SseLayout {
  import opened Common
  import opened LittleEndian
  import opened Sse
  import opened SseTypes

  lemma Unfold(n: nat, width: nat)
    requires width > 0
    ensures ToBytes(n, width) == [n % 256] + ToBytes(n / 256, width - 1)
    ensures width == 1 ==> ToBytes(n, width) == [n % 256]
  {
  }

  /** The least significant byte comes first. */
  lemma NumbersOnTheWire(n: nat)
    ensures U8.enc(n % 256) == [n % 256]
    ensures U16.enc(n) == [n % 256, n / 256 % 256]
    ensures ToBytes(n, 4) == [n % 256, n / 256 % 256, n / 65536 % 256, n / 16777216 % 256]
  {
    hide ToBytes;
    Unfold(n, 2);
    Unfold(n / 256, 1);
    Unfold(n, 4);
    Unfold(n / 256, 3);
    Unfold(n / 256 / 256, 2);
    Unfold(n / 256 / 256 / 256, 1);
    assert n / 256 / 256 == n / 65536;
    assert n / 65536 / 256 == n / 16777216;
  }

  /** A long is two numbers of four bytes, the lower one first. */
  lemma LongsOnTheWire(n: nat)
    ensures U64.enc(n) == ToBytes(n, 4) + ToBytes(n / 4294967296, 4)
  {
    hide ToBytes;
    Unfold(n, 8);
    Unfold(n / 256, 7);
    Unfold(n / 256 / 256, 6);
    Unfold(n / 256 / 256 / 256, 5);
    Unfold(n, 4);
    Unfold(n / 256, 3);
    Unfold(n / 256 / 256, 2);
    Unfold(n / 256 / 256 / 256, 1);
    assert n / 256 / 256 / 256 / 256 == n / 4294967296;
  }

  /** A number is four bytes; a negative one counts down from 2^32. */
  lemma SignedOnTheWire(x: int)
    requires I32.fits(x)
    ensures var n := if x >= 0 then x else x + 4294967296;
      I32.enc(x) == [n % 256, n / 256 % 256, n / 65536 % 256, n / 16777216 % 256]
  {
    var n := if x >= 0 then x else x + 4294967296;
    hide ToBytes;
    assert 0 <= n < TWO_32 && x % TWO_32 == n;
    NumbersOnTheWire(n);
    assert I32.enc(x) == ToBytes(n, 4);
  }

  lemma SmallNumber(tag: int)
    requires 0 <= tag < 256
    ensures I32Enc(tag) == [tag, 0, 0, 0]
  {
    hide ToBytes;
    assert tag % TWO_32 == tag && I32Enc(tag) == ToBytes(tag, 4);
    NumbersOnTheWire(tag);
  }

  /** Flags, optional values and texts: one byte for the flag, the length before the bytes. */
  lemma SimpleValuesOnTheWire<T>(c: Codec<T>, x: T, text: Utf8, id: Uuid)
    ensures BOOL.enc(false) == [0] && BOOL.enc(true) == [1]
    ensures OptionOf(c).enc(None) == [0] && OptionOf(c).enc(Some(x)) == [1] + c.enc(x)
    ensures STR.enc(text) == I32.enc(|text|) + text
    ensures ID.enc(id) == [16, 0, 0, 0] + id
  {
    BytesInARow(text);
    BytesInARow(id);
    SmallNumber(16);
  }

  lemma {:induction false} BytesInARow(b: Bytes)
    ensures EncAll(U8, b) == b
  {
    if b != [] {
      BytesInARow(b[..|b| - 1]);
      assert b == b[..|b| - 1] + [b[|b| - 1]];
    }
  }

  /** The elements of a list stand in order, behind their number. */
  lemma ListsOnTheWire<T>(c: Codec<T>, a: seq<T>, b: seq<T>, x: T)
    ensures VecOf(c).enc(a) == I32.enc(|a|) + EncAll(c, a)
    ensures EncAll(c, []) == [] && EncAll(c, [x]) == c.enc(x)
    ensures EncAll(c, a + b) == EncAll(c, a) + EncAll(c, b)
  {
    assert [x][..0] == [];
    ElementsInARow(c, a, b);
  }

  lemma {:induction false} ElementsInARow<T>(c: Codec<T>, a: seq<T>, b: seq<T>)
    ensures EncAll(c, a + b) == EncAll(c, a) + EncAll(c, b)
    decreases |b|
  {
    if b == [] {
      assert a + b == a && EncAll(c, a) + [] == EncAll(c, a);
    } else {
      var before, last := b[..|b| - 1], b[|b| - 1];
      ElementsInARow(c, a, before);
      assert (a + b)[..|a + b| - 1] == a + before && (a + b)[|a + b| - 1] == last;
      assert EncAll(c, a) + (EncAll(c, before) + c.enc(last)) == (EncAll(c, a) + EncAll(c, before)) + c.enc(last);
    }
  }

  /** The numbers of the device types. */
  lemma DeviceTypesOnTheWire()
    ensures DEVICE.enc(Mobile) == [0, 0, 0, 0] && DEVICE.enc(Desktop) == [1, 0, 0, 0] && DEVICE.enc(Web) == [2, 0, 0, 0]
    ensures DEVICE.enc(Headless) == [3, 0, 0, 0] && DEVICE.enc(Server) == [4, 0, 0, 0]
  {
    SmallNumber(0);
    SmallNumber(1);
    SmallNumber(2);
    SmallNumber(3);
    SmallNumber(4);
  }

  /** The order of the fields of records. */
  lemma ClientOnTheWire(x: ClientInfo)
    ensures CLIENT.enc(x) == ID.enc(x.id) + (STR.enc(x.clientAlias) + (STR.enc(x.version)
      + (OptionOf(STR).enc(x.deviceModel) + (OptionOf(DEVICE).enc(x.deviceType) + STR.enc(x.token)))))
  {
    hide STR, ID, OptionOf, DEVICE;
  }

  lemma FileOnTheWire(x: FileDto)
    ensures FILE.enc(x) == STR.enc(x.fileId) + (STR.enc(x.fileName) + (U64.enc(x.size) + (STR.enc(x.fileType)
      + (OptionOf(STR).enc(x.sha256) + (OptionOf(STR).enc(x.preview) + OptionOf(METADATA).enc(x.metadata))))))
  {
    hide STR, U64, OptionOf, METADATA;
  }

  lemma RecordsOnTheWire(m: FileMetadata, p: PinConfig, s: SdpMessage)
    ensures METADATA.enc(m) == OptionOf(STR).enc(m.modified) + OptionOf(STR).enc(m.accessed)
    ensures PIN.enc(p) == STR.enc(p.pin) + [p.maxTries]
    ensures SDP.enc(s) == CLIENT.enc(s.peer) + (STR.enc(s.sessionId) + STR.enc(s.sdp))
  {
    hide STR, CLIENT, OptionOf;
  }

  /** The numbers of the session states. */
  lemma StatusOnTheWire(message: Utf8)
    ensures RTC_STATUS.enc(SdpExchanged) == [0, 0, 0, 0] && RTC_STATUS.enc(Connected) == [1, 0, 0, 0]
    ensures RTC_STATUS.enc(PinRequired) == [2, 0, 0, 0] && RTC_STATUS.enc(TooManyAttempts) == [3, 0, 0, 0]
    ensures RTC_STATUS.enc(Declined) == [4, 0, 0, 0] && RTC_STATUS.enc(Sending) == [5, 0, 0, 0]
    ensures RTC_STATUS.enc(Finished) == [6, 0, 0, 0]
    ensures RTC_STATUS.enc(Failed(message)) == [7, 0, 0, 0] + STR.enc(message)
  {
    hide STR;
    SmallNumber(0);
    SmallNumber(1);
    SmallNumber(2);
    SmallNumber(3);
    SmallNumber(4);
    SmallNumber(5);
    SmallNumber(6);
    SmallNumber(7);
  }

  /** The numbers of the signaling messages, and what follows them. */
  lemma ServerMessagesOnTheWire(client: ClientInfo, peers: seq<ClientInfo>, id: Uuid, sdp: SdpMessage, code: nat)
    ensures FROM_SERVER.enc(Hello(client, peers)) == [0, 0, 0, 0] + (CLIENT.enc(client) + VecOf(CLIENT).enc(peers))
    ensures FROM_SERVER.enc(Join(client)) == [1, 0, 0, 0] + CLIENT.enc(client)
    ensures FROM_SERVER.enc(Update(client)) == [2, 0, 0, 0] + CLIENT.enc(client)
    ensures FROM_SERVER.enc(Left(id)) == [3, 0, 0, 0] + ID.enc(id)
    ensures FROM_SERVER.enc(Offer(sdp)) == [4, 0, 0, 0] + SDP.enc(sdp)
    ensures FROM_SERVER.enc(Answer(sdp)) == [5, 0, 0, 0] + SDP.enc(sdp)
    ensures FROM_SERVER.enc(Error(code)) == [6, 0, 0, 0] + U16.enc(code)
  {
    hide CLIENT, ID, SDP, VecOf, U16;
    SmallNumber(0);
    SmallNumber(1);
    SmallNumber(2);
    SmallNumber(3);
    SmallNumber(4);
    SmallNumber(5);
    SmallNumber(6);
  }
}
