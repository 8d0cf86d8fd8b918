/** The wire types that cross between the application and its core. */
module SseTypes {
  import opened Common
  import opened LittleEndian
  import opened Sse

  // ----- text and identifiers -----

  predicate Continuation(b: Byte) { 0x80 <= b <= 0xBF }

  /** The length of the well-formed UTF-8 sequence at the front, or zero if there is none
      (section 4 of RFC 3629). */
  function Utf8Step(b: Bytes): (n: nat)
    requires b != []
    ensures n <= |b|
  {
    if b[0] <= 0x7F then 1
    else if |b| < 2 || !Continuation(b[1]) then 0
    else if 0xC2 <= b[0] <= 0xDF then 2
    else if |b| < 3 || !Continuation(b[2]) then 0
    else if 0xE0 <= b[0] <= 0xEF then
      if (b[0] == 0xE0 && b[1] < 0xA0) || (b[0] == 0xED && b[1] > 0x9F) then 0 else 3
    else if |b| < 4 || !Continuation(b[3]) then 0
    else if 0xF0 <= b[0] <= 0xF4 then
      if (b[0] == 0xF0 && b[1] < 0x90) || (b[0] == 0xF4 && b[1] > 0x8F) then 0 else 4
    else 0
  }

  predicate ValidUtf8(b: Bytes)
    decreases |b|
  {
    b == [] || (Utf8Step(b) > 0 && ValidUtf8(b[Utf8Step(b)..]))
  }

  /** Text, as the bytes that spell it. */
  type Utf8 = b: Bytes | ValidUtf8(b)

  type Uuid = b: Bytes | |b| == 16 witness [0, 0, 0, 0, 0, 0, 0, 0, 0, 0, 0, 0, 0, 0, 0, 0]

  function AsUtf8(b: Bytes): Option<Utf8> { if ValidUtf8(b) then Some(b) else None }

  function AsUuid(b: Bytes): Option<Uuid> { if |b| == 16 then Some(b) else None }

  function OctetDec(bytes: Bytes): Option<(Byte, Bytes)> {
    if bytes == [] then None else Some((bytes[0], bytes[1..]))
  }

  const U8: Codec<Byte> := Codec((x: Byte) => [x], (b: Bytes) => OctetDec(b), (x: Byte) => true)
  const U16: Codec<nat> := Unsigned(2)
  const U64: Codec<nat> := Unsigned(8)
  const BYTE_VEC: Codec<Bytes> := VecOf(U8)
  const STR: Codec<Utf8> := Record(BYTE_VEC, (s: Utf8) => s, (b: Bytes) => AsUtf8(b))
  const ID: Codec<Uuid> := Record(BYTE_VEC, (u: Uuid) => u, (b: Bytes) => AsUuid(b))

  lemma TextLawful()
    ensures Lawful(U8) && Lawful(BYTE_VEC) && Lawful(STR) && Lawful(ID)
    ensures Lawful(OptionOf(STR))
  {
    forall x: Byte, rest: Bytes ensures ReadsBack(U8, x, rest) {
      assert ([x] + rest)[1..] == rest;
    }
    VecLawful(U8);
    RecordLawful(BYTE_VEC, (s: Utf8) => s, (b: Bytes) => AsUtf8(b));
    RecordLawful(BYTE_VEC, (u: Uuid) => u, (b: Bytes) => AsUuid(b));
    OptionLawful(STR);
  }

  // ----- records -----

  datatype DeviceType = Mobile | Desktop | Web | Headless | Server

  function DeviceTypeTag(t: DeviceType): int {
    match t
    case Mobile => 0
    case Desktop => 1
    case Web => 2
    case Headless => 3
    case Server => 4
  }

  function AsDeviceType(n: int): Option<DeviceType> {
    match n
    case 0 => Some(Mobile)
    case 1 => Some(Desktop)
    case 2 => Some(Web)
    case 3 => Some(Headless)
    case 4 => Some(Server)
    case _ => None
  }

  const DEVICE: Codec<DeviceType> := Record(I32, (t: DeviceType) => DeviceTypeTag(t), (n: int) => AsDeviceType(n))

  lemma DeviceLawful()
    ensures Lawful(DEVICE) && Lawful(OptionOf(DEVICE))
  {
    I32Lawful();
    RecordLawful(I32, (t: DeviceType) => DeviceTypeTag(t), (n: int) => AsDeviceType(n));
    OptionLawful(DEVICE);
  }

  datatype ClientInfo = ClientInfo(
    id: Uuid, clientAlias: Utf8, version: Utf8, deviceModel: Option<Utf8>, deviceType: Option<DeviceType>, token: Utf8)

  type ClientFields = (Uuid, (Utf8, (Utf8, (Option<Utf8>, (Option<DeviceType>, Utf8)))))

  function FieldsOfClient(c: ClientInfo): ClientFields {
    (c.id, (c.clientAlias, (c.version, (c.deviceModel, (c.deviceType, c.token)))))
  }

  function AsClient(f: ClientFields): Option<ClientInfo> {
    Some(ClientInfo(f.0, f.1.0, f.1.1.0, f.1.1.1.0, f.1.1.1.1.0, f.1.1.1.1.1))
  }

  const CLIENT_PARTS: Codec<ClientFields> :=
    Pair(ID, Pair(STR, Pair(STR, Pair(OptionOf(STR), Pair(OptionOf(DEVICE), STR)))))
  const CLIENT: Codec<ClientInfo> :=
    Record(CLIENT_PARTS, (c: ClientInfo) => FieldsOfClient(c), (f: ClientFields) => AsClient(f))

  lemma ClientLawful()
    ensures Lawful(CLIENT) && Lawful(VecOf(CLIENT))
  {
    TextLawful();
    DeviceLawful();
    PairLawful(OptionOf(DEVICE), STR);
    PairLawful(OptionOf(STR), Pair(OptionOf(DEVICE), STR));
    PairLawful(STR, Pair(OptionOf(STR), Pair(OptionOf(DEVICE), STR)));
    PairLawful(STR, Pair(STR, Pair(OptionOf(STR), Pair(OptionOf(DEVICE), STR))));
    PairLawful(ID, Pair(STR, Pair(STR, Pair(OptionOf(STR), Pair(OptionOf(DEVICE), STR)))));
    RecordLawful(CLIENT_PARTS, (c: ClientInfo) => FieldsOfClient(c), (f: ClientFields) => AsClient(f));
    VecLawful(CLIENT);
  }

  datatype FileMetadata = FileMetadata(modified: Option<Utf8>, accessed: Option<Utf8>)

  const METADATA: Codec<FileMetadata> :=
    Record(Pair(OptionOf(STR), OptionOf(STR)), (m: FileMetadata) => (m.modified, m.accessed),
           (p: (Option<Utf8>, Option<Utf8>)) => Some(FileMetadata(p.0, p.1)))

  lemma MetadataLawful()
    ensures Lawful(METADATA) && Lawful(OptionOf(METADATA))
  {
    TextLawful();
    PairLawful(OptionOf(STR), OptionOf(STR));
    RecordLawful(Pair(OptionOf(STR), OptionOf(STR)), (m: FileMetadata) => (m.modified, m.accessed),
                 (p: (Option<Utf8>, Option<Utf8>)) => Some(FileMetadata(p.0, p.1)));
    OptionLawful(METADATA);
  }

  datatype FileDto = FileDto(
    fileId: Utf8, fileName: Utf8, size: nat, fileType: Utf8, sha256: Option<Utf8>, preview: Option<Utf8>,
    metadata: Option<FileMetadata>)

  type FileFields = (Utf8, (Utf8, (nat, (Utf8, (Option<Utf8>, (Option<Utf8>, Option<FileMetadata>))))))

  function FieldsOfFile(f: FileDto): FileFields {
    (f.fileId, (f.fileName, (f.size, (f.fileType, (f.sha256, (f.preview, f.metadata))))))
  }

  function AsFile(f: FileFields): Option<FileDto> {
    Some(FileDto(f.0, f.1.0, f.1.1.0, f.1.1.1.0, f.1.1.1.1.0, f.1.1.1.1.1.0, f.1.1.1.1.1.1))
  }

  const FILE_PARTS: Codec<FileFields> :=
    Pair(STR, Pair(STR, Pair(U64, Pair(STR, Pair(OptionOf(STR), Pair(OptionOf(STR), OptionOf(METADATA)))))))
  const FILE: Codec<FileDto> :=
    Record(FILE_PARTS, (f: FileDto) => FieldsOfFile(f), (f: FileFields) => AsFile(f))

  lemma FileLawful()
    ensures Lawful(FILE) && Lawful(VecOf(FILE)) && Lawful(Pair(STR, FILE))
  {
    TextLawful();
    MetadataLawful();
    UnsignedLawful(8);
    PairLawful(OptionOf(STR), OptionOf(METADATA));
    PairLawful(OptionOf(STR), Pair(OptionOf(STR), OptionOf(METADATA)));
    PairLawful(STR, Pair(OptionOf(STR), Pair(OptionOf(STR), OptionOf(METADATA))));
    PairLawful(U64, Pair(STR, Pair(OptionOf(STR), Pair(OptionOf(STR), OptionOf(METADATA)))));
    PairLawful(STR, Pair(U64, Pair(STR, Pair(OptionOf(STR), Pair(OptionOf(STR), OptionOf(METADATA))))));
    PairLawful(STR, Pair(STR, Pair(U64, Pair(STR, Pair(OptionOf(STR), Pair(OptionOf(STR), OptionOf(METADATA)))))));
    RecordLawful(FILE_PARTS, (f: FileDto) => FieldsOfFile(f), (f: FileFields) => AsFile(f));
    VecLawful(FILE);
    PairLawful(STR, FILE);
  }

  datatype PinConfig = PinConfig(pin: Utf8, maxTries: Byte)

  const PIN: Codec<PinConfig> :=
    Record(Pair(STR, U8), (c: PinConfig) => (c.pin, c.maxTries), (p: (Utf8, Byte)) => Some(PinConfig(p.0, p.1)))

  datatype SdpMessage = SdpMessage(peer: ClientInfo, sessionId: Utf8, sdp: Utf8)

  const SDP: Codec<SdpMessage> :=
    Record(Pair(CLIENT, Pair(STR, STR)), (m: SdpMessage) => (m.peer, (m.sessionId, m.sdp)),
           (p: (ClientInfo, (Utf8, Utf8))) => Some(SdpMessage(p.0, p.1.0, p.1.1)))

  lemma PinLawful()
    ensures Lawful(PIN) && Lawful(OptionOf(PIN))
  {
    TextLawful();
    PairLawful(STR, U8);
    RecordLawful(Pair(STR, U8), (c: PinConfig) => (c.pin, c.maxTries), (p: (Utf8, Byte)) => Some(PinConfig(p.0, p.1)));
    OptionLawful(PIN);
  }

  lemma SdpLawful()
    ensures Lawful(SDP)
  {
    TextLawful();
    ClientLawful();
    PairLawful(STR, STR);
    PairLawful(CLIENT, Pair(STR, STR));
    RecordLawful(Pair(CLIENT, Pair(STR, STR)), (m: SdpMessage) => (m.peer, (m.sessionId, m.sdp)),
                 (p: (ClientInfo, (Utf8, Utf8))) => Some(SdpMessage(p.0, p.1.0, p.1.1)));
  }

  // ----- tagged values -----

  /** Reads what follows a tag and wraps it. */
  function Wrap<A, B>(r: Option<(A, Bytes)>, wrap: A -> B): Option<(B, Bytes)> {
    if r.None? then None else Some((wrap(r.value.0), r.value.1))
  }

  /** A tag is read off whatever follows it. */
  lemma TagReadsBack(tag: int, payload: Bytes, rest: Bytes)
    requires 0 <= tag < 8
    ensures I32Dec((I32Enc(tag) + payload) + rest) == Some((tag, payload + rest))
  {
    assert (I32Enc(tag) + payload) + rest == I32Enc(tag) + (payload + rest);
    I32ReadsWrapped(tag, payload + rest);
  }

  datatype Status =
    | SdpExchanged
    | Connected
    | PinRequired
    | TooManyAttempts
    | Declined
    | Sending
    | Finished
    | Failed(message: Utf8)

  function StatusTag(s: Status): int {
    match s
    case SdpExchanged => 0
    case Connected => 1
    case PinRequired => 2
    case TooManyAttempts => 3
    case Declined => 4
    case Sending => 5
    case Finished => 6
    case Failed(_) => 7
  }

  function StatusEnc(s: Status): Bytes {
    I32Enc(StatusTag(s)) + (if s.Failed? then STR.enc(s.message) else [])
  }

  function StatusDec(bytes: Bytes): Option<(Status, Bytes)> {
    var tag := I32Dec(bytes);
    if tag.None? then None
    else
      match tag.value.0
      case 0 => Some((SdpExchanged, tag.value.1))
      case 1 => Some((Connected, tag.value.1))
      case 2 => Some((PinRequired, tag.value.1))
      case 3 => Some((TooManyAttempts, tag.value.1))
      case 4 => Some((Declined, tag.value.1))
      case 5 => Some((Sending, tag.value.1))
      case 6 => Some((Finished, tag.value.1))
      case 7 => Wrap(STR.dec(tag.value.1), (m: Utf8) => Failed(m))
      case _ => None
  }

  const RTC_STATUS: Codec<Status> :=
    Codec((s: Status) => StatusEnc(s), (b: Bytes) => StatusDec(b), (s: Status) => s.Failed? ==> STR.fits(s.message))

  lemma StatusLawful()
    ensures Lawful(RTC_STATUS)
  {
    TextLawful();
    forall s: Status, rest: Bytes | RTC_STATUS.fits(s) ensures ReadsBack(RTC_STATUS, s, rest) {
      var payload := if s.Failed? then STR.enc(s.message) else [];
      TagReadsBack(StatusTag(s), payload, rest);
      if s.Failed? {
        assert ReadsBack(STR, s.message, rest);
      } else {
        assert payload + rest == rest;
      }
    }
  }

  /** The messages of the signaling server. */
  datatype ServerMessage =
    | Hello(client: ClientInfo, peers: seq<ClientInfo>)
    | Join(peer: ClientInfo)
    | Update(peer: ClientInfo)
    | Left(peerId: Uuid)
    | Offer(message: SdpMessage)
    | Answer(message: SdpMessage)
    | Error(code: nat)

  function ServerTag(m: ServerMessage): int {
    match m
    case Hello(_, _) => 0
    case Join(_) => 1
    case Update(_) => 2
    case Left(_) => 3
    case Offer(_) => 4
    case Answer(_) => 5
    case Error(_) => 6
  }

  const HELLO_PARTS: Codec<(ClientInfo, seq<ClientInfo>)> := Pair(CLIENT, VecOf(CLIENT))

  function PayloadEnc(m: ServerMessage): Bytes {
    match m
    case Hello(client, peers) => HELLO_PARTS.enc((client, peers))
    case Join(peer) => CLIENT.enc(peer)
    case Update(peer) => CLIENT.enc(peer)
    case Left(peerId) => ID.enc(peerId)
    case Offer(message) => SDP.enc(message)
    case Answer(message) => SDP.enc(message)
    case Error(code) => U16.enc(code)
  }

  predicate PayloadFits(m: ServerMessage) {
    match m
    case Hello(client, peers) => HELLO_PARTS.fits((client, peers))
    case Join(peer) => CLIENT.fits(peer)
    case Update(peer) => CLIENT.fits(peer)
    case Left(peerId) => ID.fits(peerId)
    case Offer(message) => SDP.fits(message)
    case Answer(message) => SDP.fits(message)
    case Error(code) => U16.fits(code)
  }

  function PayloadDec(tag: int, b: Bytes): Option<(ServerMessage, Bytes)> {
    match tag
    case 0 => Wrap(HELLO_PARTS.dec(b), (p: (ClientInfo, seq<ClientInfo>)) => Hello(p.0, p.1))
    case 1 => Wrap(CLIENT.dec(b), (c: ClientInfo) => Join(c))
    case 2 => Wrap(CLIENT.dec(b), (c: ClientInfo) => Update(c))
    case 3 => Wrap(ID.dec(b), (u: Uuid) => Left(u))
    case 4 => Wrap(SDP.dec(b), (m: SdpMessage) => Offer(m))
    case 5 => Wrap(SDP.dec(b), (m: SdpMessage) => Answer(m))
    case 6 => Wrap(U16.dec(b), (n: nat) => Error(n))
    case _ => None
  }

  function ServerDec(bytes: Bytes): Option<(ServerMessage, Bytes)> {
    var tag := I32Dec(bytes);
    if tag.None? then None else PayloadDec(tag.value.0, tag.value.1)
  }

  const FROM_SERVER: Codec<ServerMessage> :=
    Codec((m: ServerMessage) => I32Enc(ServerTag(m)) + PayloadEnc(m), (b: Bytes) => ServerDec(b),
          (m: ServerMessage) => PayloadFits(m))

  lemma Unwraps<A(!new), B>(c: Codec<A>, x: A, rest: Bytes, wrap: A -> B)
    requires Lawful(c) && c.fits(x)
    ensures Wrap(c.dec(c.enc(x) + rest), wrap) == Some((wrap(x), rest))
  {
    assert ReadsBack(c, x, rest);
  }

  lemma HelloReadsBack(client: ClientInfo, peers: seq<ClientInfo>, rest: Bytes)
    requires HELLO_PARTS.fits((client, peers))
    ensures PayloadDec(0, HELLO_PARTS.enc((client, peers)) + rest) == Some((Hello(client, peers), rest))
  {
    ClientLawful();
    PairLawful(CLIENT, VecOf(CLIENT));
    Unwraps(HELLO_PARTS, (client, peers), rest, (p: (ClientInfo, seq<ClientInfo>)) => Hello(p.0, p.1));
  }

  lemma PeerReadsBack(peer: ClientInfo, rest: Bytes)
    requires CLIENT.fits(peer)
    ensures PayloadDec(1, CLIENT.enc(peer) + rest) == Some((Join(peer), rest))
    ensures PayloadDec(2, CLIENT.enc(peer) + rest) == Some((Update(peer), rest))
  {
    ClientLawful();
    Unwraps(CLIENT, peer, rest, (c: ClientInfo) => Join(c));
    Unwraps(CLIENT, peer, rest, (c: ClientInfo) => Update(c));
  }

  lemma OfferReadsBack(message: SdpMessage, rest: Bytes)
    requires SDP.fits(message)
    ensures PayloadDec(4, SDP.enc(message) + rest) == Some((Offer(message), rest))
  {
    hide Pair, Record;
    SdpLawful();
    Unwraps(SDP, message, rest, (x: SdpMessage) => Offer(x));
  }

  lemma AnswerReadsBack(message: SdpMessage, rest: Bytes)
    requires SDP.fits(message)
    ensures PayloadDec(5, SDP.enc(message) + rest) == Some((Answer(message), rest))
  {
    hide Pair, Record;
    SdpLawful();
    Unwraps(SDP, message, rest, (x: SdpMessage) => Answer(x));
  }

  lemma LeftReadsBack(peerId: Uuid, rest: Bytes)
    requires ID.fits(peerId)
    ensures PayloadDec(3, ID.enc(peerId) + rest) == Some((Left(peerId), rest))
  {
    TextLawful();
    Unwraps(ID, peerId, rest, (u: Uuid) => Left(u));
  }

  lemma ErrorReadsBack(code: nat, rest: Bytes)
    requires U16.fits(code)
    ensures PayloadDec(6, U16.enc(code) + rest) == Some((Error(code), rest))
  {
    UnsignedLawful(2);
    Unwraps(U16, code, rest, (n: nat) => Error(n));
  }

  lemma PayloadReadsBack(m: ServerMessage, rest: Bytes)
    requires PayloadFits(m)
    ensures PayloadDec(ServerTag(m), PayloadEnc(m) + rest) == Some((m, rest))
  {
    match m
    case Hello(client, peers) => HelloReadsBack(client, peers, rest);
    case Join(peer) => PeerReadsBack(peer, rest);
    case Update(peer) => PeerReadsBack(peer, rest);
    case Left(peerId) => LeftReadsBack(peerId, rest);
    case Offer(message) => OfferReadsBack(message, rest);
    case Answer(message) => AnswerReadsBack(message, rest);
    case Error(code) => ErrorReadsBack(code, rest);
  }

  lemma ServerMessageLawful()
    ensures Lawful(FROM_SERVER)
  {
    forall m: ServerMessage, rest: Bytes | PayloadFits(m) ensures ReadsBack(FROM_SERVER, m, rest) {
      TagReadsBack(ServerTag(m), PayloadEnc(m), rest);
      PayloadReadsBack(m, rest);
    }
  }

  // ----- the theorem for all types -----

  /** Main result: values of every wire type come back unchanged, with exactly the bytes behind
      them left over, so that a buffer never has two readings. */
  lemma EveryTypeLawful()
    ensures Lawful(U8) && Lawful(U16) && Lawful(U64) && Lawful(I32) && Lawful(BOOL)
    ensures Lawful(STR) && Lawful(ID) && Lawful(OptionOf(STR)) && Lawful(VecOf(STR)) && Lawful(Pair(STR, STR))
    ensures Lawful(DEVICE) && Lawful(CLIENT) && Lawful(VecOf(CLIENT)) && Lawful(METADATA) && Lawful(FILE)
      && Lawful(VecOf(FILE))
    ensures Lawful(PIN) && Lawful(SDP) && Lawful(RTC_STATUS) && Lawful(FROM_SERVER)
  {
    UnsignedLawful(2);
    UnsignedLawful(8);
    I32Lawful();
    BoolLawful();
    TextLawful();
    VecLawful(STR);
    PairLawful(STR, STR);
    DeviceLawful();
    ClientLawful();
    MetadataLawful();
    FileLawful();
    PinLawful();
    SdpLawful();
    StatusLawful();
    ServerMessageLawful();
  }

  /** Maps from text to text or to files, and sets of text, survive any iteration order. */
  lemma MapsReadBack(tokens: map<Utf8, Utf8>, pairs: seq<(Utf8, Utf8)>, files: map<Utf8, FileDto>,
                     entries: seq<(Utf8, FileDto)>, ids: set<Utf8>, list: seq<Utf8>, rest: Bytes)
    requires Iterates(pairs, tokens) && VecOf(Pair(STR, STR)).fits(pairs)
    requires Iterates(entries, files) && VecOf(Pair(STR, FILE)).fits(entries)
    requires IteratesSet(list, ids) && VecOf(STR).fits(list)
    ensures MapDec(Pair(STR, STR), VecEnc(Pair(STR, STR), pairs) + rest) == Some((tokens, rest))
    ensures MapDec(Pair(STR, FILE), VecEnc(Pair(STR, FILE), entries) + rest) == Some((files, rest))
    ensures SetDec(STR, VecEnc(STR, list) + rest) == Some((ids, rest))
  {
    EveryTypeLawful();
    FileLawful();
    MapReadsBack(Pair(STR, STR), tokens, pairs, rest);
    MapReadsBack(Pair(STR, FILE), files, entries, rest);
    SetReadsBack(STR, ids, list, rest);
  }
}
