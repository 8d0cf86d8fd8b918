/** The generated reading and writing code: cursors that advance over a buffer in place, proved
    against the codecs. */
module SseCursor {
  import opened Common
  import opened LittleEndian
  import opened Sse
  import opened SseTypes

  lemma AppendsNone<T>(c: Codec<T>, prefix: Bytes, xs: seq<T>)
    ensures prefix + EncAll(c, xs[..0]) == prefix
  {
  }

  lemma AppendsOne<T>(c: Codec<T>, prefix: Bytes, xs: seq<T>, i: nat)
    requires i < |xs|
    ensures prefix + EncAll(c, xs[..i + 1]) == prefix + EncAll(c, xs[..i]) + c.enc(xs[i])
  {
    assert xs[..i + 1][..i] == xs[..i];
    assert prefix + (EncAll(c, xs[..i]) + c.enc(xs[i])) == prefix + EncAll(c, xs[..i]) + c.enc(xs[i]);
  }

  lemma VecAppends<T>(c: Codec<T>, bytes: Bytes, xs: seq<T>)
    ensures bytes + I32Enc(|xs|) + EncAll(c, xs) == bytes + VecOf(c).enc(xs)
  {
  }

  lemma VecReads<T>(c: Codec<T>, bytes: Bytes)
    ensures VecOf(c).dec(bytes) == VecDec(c, bytes)
  {
  }

  lemma ClientEnc(x: ClientInfo)
    ensures CLIENT.enc(x) == ID.enc(x.id) + (STR.enc(x.clientAlias) + (STR.enc(x.version)
      + (OptionOf(STR).enc(x.deviceModel) + (OptionOf(DEVICE).enc(x.deviceType) + STR.enc(x.token)))))
  {
    hide STR, ID, OptionOf, DEVICE;
  }

  lemma SixAppends(z: Bytes, a: Bytes, b: Bytes, c: Bytes, d: Bytes, e: Bytes, f: Bytes)
    ensures z + a + b + c + d + e + f == z + (a + (b + (c + (d + (e + f)))))
  {
  }

  lemma SdpEnc(x: SdpMessage)
    ensures SDP.enc(x) == CLIENT.enc(x.peer) + (STR.enc(x.sessionId) + STR.enc(x.sdp))
  {
    hide CLIENT, STR;
  }

  lemma MessageAppends(bytes: Bytes, m: ServerMessage)
    ensures bytes + I32Enc(ServerTag(m)) + PayloadEnc(m) == bytes + FROM_SERVER.enc(m)
    ensures m.Hello? ==> PayloadEnc(m) == CLIENT.enc(m.client) + VecOf(CLIENT).enc(m.peers)
  {
    hide CLIENT, ID, SDP, VecOf, U16;
  }

  /** Reading the fields of a client one by one. */
  function ClientSteps(b: Bytes): Option<(ClientInfo, Bytes)> {
    var id := ID.dec(b);
    if id.None? then None
    else
      var clientAlias := STR.dec(id.value.1);
      if clientAlias.None? then None
      else
        var version := STR.dec(clientAlias.value.1);
        if version.None? then None
        else
          var model := OptionOf(STR).dec(version.value.1);
          if model.None? then None
          else
            var kind := OptionOf(DEVICE).dec(model.value.1);
            if kind.None? then None
            else
              var token := STR.dec(kind.value.1);
              if token.None? then None
              else
                var client := ClientInfo(id.value.0, clientAlias.value.0, version.value.0, model.value.0, kind.value.0,
                                         token.value.0);
                Some((client, token.value.1))
  }

  lemma ClientDec(b: Bytes)
    ensures CLIENT.dec(b) == ClientSteps(b)
  {
    hide STR, ID, OptionOf, DEVICE;
  }

  function SdpSteps(b: Bytes): Option<(SdpMessage, Bytes)> {
    var peer := CLIENT.dec(b);
    if peer.None? then None
    else
      var sessionId := STR.dec(peer.value.1);
      if sessionId.None? then None
      else
        var sdp := STR.dec(sessionId.value.1);
        if sdp.None? then None
        else Some((SdpMessage(peer.value.0, sessionId.value.0, sdp.value.0), sdp.value.1))
  }

  lemma SdpDec(b: Bytes)
    ensures SDP.dec(b) == SdpSteps(b)
  {
    hide CLIENT, STR;
  }

  lemma HelloDec(b: Bytes)
    ensures var client := CLIENT.dec(b);
      PayloadDec(0, b) ==
        if client.None? then None
        else Wrap(VecOf(CLIENT).dec(client.value.1), (peers: seq<ClientInfo>) => Hello(client.value.0, peers))
  {
    hide CLIENT, VecOf;
  }

  class Serializer {
    var bytes: Bytes

    constructor ()
      ensures bytes == []
    {
      bytes := [];
    }

    method WriteU8(x: Byte)
      modifies this
      ensures bytes == old(bytes) + U8.enc(x)
    {
      bytes := bytes + [x];
    }

    method WriteBool(x: bool)
      modifies this
      ensures bytes == old(bytes) + BOOL.enc(x)
    {
      WriteU8(if x then 1 else 0);
    }

    method WriteNumber(x: nat, width: nat)
      modifies this
      ensures bytes == old(bytes) + Unsigned(width).enc(x)
    {
      bytes := bytes + ToBytes(x, width);
    }

    /** Any integer is cast to 32 bits first. */
    method WriteI32(x: int)
      modifies this
      ensures bytes == old(bytes) + I32.enc(x)
    {
      WriteNumber(x % TWO_32, 4);
    }

    method WriteByteVec(xs: Bytes)
      modifies this
      ensures bytes == old(bytes) + BYTE_VEC.enc(xs)
    {
      hide EncAll, VecOf;
      VecAppends(U8, bytes, xs);
      WriteI32(|xs|);
      ghost var prefix := bytes;
      AppendsNone(U8, prefix, xs);
      for i := 0 to |xs|
        invariant bytes == prefix + EncAll(U8, xs[..i])
      {
        AppendsOne(U8, prefix, xs, i);
        WriteU8(xs[i]);
      }
      assert xs[..|xs|] == xs;
    }

    method WriteStr(x: Utf8)
      modifies this
      ensures bytes == old(bytes) + STR.enc(x)
    {
      WriteByteVec(x);
    }

    method WriteOptionalStr(x: Option<Utf8>)
      modifies this
      ensures bytes == old(bytes) + OptionOf(STR).enc(x)
    {
      hide STR;
      WriteBool(x.Some?);
      if x.Some? { WriteStr(x.value); }
    }

    method WriteOptionalDevice(x: Option<DeviceType>)
      modifies this
      ensures bytes == old(bytes) + OptionOf(DEVICE).enc(x)
    {
      WriteBool(x.Some?);
      if x.Some? { WriteI32(DeviceTypeTag(x.value)); }
    }

    method WriteId(x: Uuid)
      modifies this
      ensures bytes == old(bytes) + ID.enc(x)
    {
      WriteByteVec(x);
    }

    method WriteClient(x: ClientInfo)
      modifies this
      ensures bytes == old(bytes) + CLIENT.enc(x)
    {
      hide CLIENT, STR, ID, OptionOf, DEVICE;
      ClientEnc(x);
      SixAppends(bytes, ID.enc(x.id), STR.enc(x.clientAlias), STR.enc(x.version), OptionOf(STR).enc(x.deviceModel),
                 OptionOf(DEVICE).enc(x.deviceType), STR.enc(x.token));
      WriteId(x.id);
      WriteStr(x.clientAlias);
      WriteStr(x.version);
      WriteOptionalStr(x.deviceModel);
      WriteOptionalDevice(x.deviceType);
      WriteStr(x.token);
    }

    method WriteClients(xs: seq<ClientInfo>)
      modifies this
      ensures bytes == old(bytes) + VecOf(CLIENT).enc(xs)
    {
      hide CLIENT, VecOf, EncAll;
      VecAppends(CLIENT, bytes, xs);
      WriteI32(|xs|);
      ghost var prefix := bytes;
      AppendsNone(CLIENT, prefix, xs);
      for i := 0 to |xs|
        invariant bytes == prefix + EncAll(CLIENT, xs[..i])
      {
        AppendsOne(CLIENT, prefix, xs, i);
        WriteClient(xs[i]);
      }
      assert xs[..|xs|] == xs;
    }

    method WriteSdp(x: SdpMessage)
      modifies this
      ensures bytes == old(bytes) + SDP.enc(x)
    {
      hide SDP, CLIENT, STR;
      SdpEnc(x);
      WriteClient(x.peer);
      WriteStr(x.sessionId);
      WriteStr(x.sdp);
    }

    method WriteServerMessage(m: ServerMessage)
      modifies this
      ensures bytes == old(bytes) + FROM_SERVER.enc(m)
    {
      hide CLIENT, ID, SDP, VecOf, FROM_SERVER;
      MessageAppends(bytes, m);
      WriteI32(ServerTag(m));
      match m {
        case Hello(client, peers) =>
          WriteClient(client);
          WriteClients(peers);
        case Join(peer) => WriteClient(peer);
        case Update(peer) => WriteClient(peer);
        case Left(peerId) => WriteId(peerId);
        case Offer(message) => WriteSdp(message);
        case Answer(message) => WriteSdp(message);
        case Error(code) => WriteNumber(code, 2);
      }
    }
  }

  /** A method that reads agrees with its codec: both fail, or both yield the same value and
      leave the same bytes. */
  ghost predicate Agrees<T>(spec: Option<(T, Bytes)>, r: Option<T>, rest: Bytes) {
    if spec.None? then r.None? else r == Some(spec.value.0) && rest == spec.value.1
  }

  /** Once reading elements has failed it stays failed. */
  lemma {:induction false} StaysFailed<T>(c: Codec<T>, m: nat, n: nat, bytes: Bytes)
    requires m <= n && DecN(c, m, bytes).None?
    ensures DecN(c, n, bytes).None?
    decreases n - m
  {
    if m < n { StaysFailed(c, m + 1, n, bytes); }
  }

  lemma DecNone<T>(c: Codec<T>, bytes: Bytes)
    ensures DecN(c, 0, bytes) == Some(([], bytes))
  {
  }

  lemma DecOneMore<T>(c: Codec<T>, i: nat, bytes: Bytes, ans: seq<T>, rest: Bytes)
    requires DecN(c, i, bytes) == Some((ans, rest))
    ensures var last := c.dec(rest);
      DecN(c, i + 1, bytes) == if last.None? then None else Some((ans + [last.value.0], last.value.1))
  {
  }

  class Deserializer {
    const buffer: Bytes
    var position: nat

    ghost predicate Valid() reads this { position <= |buffer| }

    /** What has not been read yet. */
    ghost function Rest(): Bytes
      requires Valid()
      reads this
    {
      buffer[position..]
    }

    constructor (b: Bytes)
      ensures Valid() && buffer == b && Rest() == b
    {
      buffer := b;
      position := 0;
    }

    method ReadU8() returns (r: Option<Byte>)
      requires Valid()
      modifies this
      ensures Valid() && Agrees(U8.dec(old(Rest())), r, Rest())
    {
      if position == |buffer| { return None; }
      position := position + 1;
      return Some(buffer[position - 1]);
    }

    method ReadBool() returns (r: Option<bool>)
      requires Valid()
      modifies this
      ensures Valid() && Agrees(BOOL.dec(old(Rest())), r, Rest())
    {
      var b := ReadU8();
      return if b.None? then None else Some(b.value != 0);
    }

    method ReadNumber(width: nat) returns (r: Option<nat>)
      requires Valid()
      modifies this
      ensures Valid() && Agrees(Unsigned(width).dec(old(Rest())), r, Rest())
    {
      if position + width > |buffer| { return None; }
      assert Rest()[..width] == buffer[position..position + width] && Rest()[width..] == buffer[position + width..];
      position := position + width;
      return Some(FromBytes(buffer[position - width..position]));
    }

    method ReadI32() returns (r: Option<int>)
      requires Valid()
      modifies this
      ensures Valid() && Agrees(I32.dec(old(Rest())), r, Rest())
    {
      var n := ReadNumber(4);
      return if n.None? then None else Some(if n.value >= TWO_31 then n.value - TWO_32 else n.value);
    }

    method ReadByteVec() returns (r: Option<Bytes>)
      requires Valid()
      modifies this
      ensures Valid() && Agrees(BYTE_VEC.dec(old(Rest())), r, Rest())
    {
      var len := ReadI32();
      if len.None? { return None; }
      var n := if len.value > 0 then len.value else 0;
      ghost var start := Rest();
      var ans: Bytes := [];
      for i := 0 to n
        invariant Valid() && DecN(U8, i, start) == Some((ans, Rest()))
      {
        var x := ReadU8();
        if x.None? {
          StaysFailed(U8, i + 1, n, start);
          return None;
        }
        ans := ans + [x.value];
      }
      return Some(ans);
    }

    method ReadStr() returns (r: Option<Utf8>)
      requires Valid()
      modifies this
      ensures Valid() && Agrees(STR.dec(old(Rest())), r, Rest())
    {
      var b := ReadByteVec();
      return if b.None? then None else AsUtf8(b.value);
    }

    method ReadId() returns (r: Option<Uuid>)
      requires Valid()
      modifies this
      ensures Valid() && Agrees(ID.dec(old(Rest())), r, Rest())
    {
      var b := ReadByteVec();
      return if b.None? then None else AsUuid(b.value);
    }

    method ReadOptionalStr() returns (r: Option<Option<Utf8>>)
      requires Valid()
      modifies this
      ensures Valid() && Agrees(OptionOf(STR).dec(old(Rest())), r, Rest())
    {
      var present := ReadBool();
      if present.None? { return None; }
      if !present.value { return Some(None); }
      var x := ReadStr();
      return if x.None? then None else Some(x);
    }

    method ReadOptionalDevice() returns (r: Option<Option<DeviceType>>)
      requires Valid()
      modifies this
      ensures Valid() && Agrees(OptionOf(DEVICE).dec(old(Rest())), r, Rest())
    {
      var present := ReadBool();
      if present.None? { return None; }
      if !present.value { return Some(None); }
      var tag := ReadI32();
      if tag.None? { return None; }
      var x := AsDeviceType(tag.value);
      return if x.None? then None else Some(x);
    }

    method ReadClient() returns (r: Option<ClientInfo>)
      requires Valid()
      modifies this
      ensures Valid() && Agrees(CLIENT.dec(old(Rest())), r, Rest())
    {
      hide CLIENT, STR, ID, OptionOf, DEVICE;
      ClientDec(Rest());
      var id := ReadId();
      if id.None? { return None; }
      var clientAlias := ReadStr();
      if clientAlias.None? { return None; }
      var version := ReadStr();
      if version.None? { return None; }
      var deviceModel := ReadOptionalStr();
      if deviceModel.None? { return None; }
      var deviceType := ReadOptionalDevice();
      if deviceType.None? { return None; }
      var token := ReadStr();
      if token.None? { return None; }
      return Some(ClientInfo(id.value, clientAlias.value, version.value, deviceModel.value, deviceType.value,
                             token.value));
    }

    method ReadClients() returns (r: Option<seq<ClientInfo>>)
      requires Valid()
      modifies this
      ensures Valid() && Agrees(VecOf(CLIENT).dec(old(Rest())), r, Rest())
    {
      hide CLIENT, VecOf;
      VecReads(CLIENT, Rest());
      var len := ReadI32();
      if len.None? { return None; }
      var n := if len.value > 0 then len.value else 0;
      ghost var start := Rest();
      var ans: seq<ClientInfo> := [];
      for i := 0 to n
        invariant Valid() && DecN(CLIENT, i, start) == Some((ans, Rest()))
      {
        var x := ReadClient();
        if x.None? {
          StaysFailed(CLIENT, i + 1, n, start);
          return None;
        }
        ans := ans + [x.value];
      }
      return Some(ans);
    }

    method ReadSdp() returns (r: Option<SdpMessage>)
      requires Valid()
      modifies this
      ensures Valid() && Agrees(SDP.dec(old(Rest())), r, Rest())
    {
      hide SDP, CLIENT, STR;
      SdpDec(Rest());
      var peer := ReadClient();
      if peer.None? { return None; }
      var sessionId := ReadStr();
      if sessionId.None? { return None; }
      var sdp := ReadStr();
      if sdp.None? { return None; }
      return Some(SdpMessage(peer.value, sessionId.value, sdp.value));
    }

    method ReadServerMessage() returns (r: Option<ServerMessage>)
      requires Valid()
      modifies this
      ensures Valid() && Agrees(FROM_SERVER.dec(old(Rest())), r, Rest())
    {
      hide CLIENT, ID, SDP, VecOf;
      var tag := ReadI32();
      if tag.None? { return None; }
      match tag.value {
        case 0 =>
          HelloDec(Rest());
          var client := ReadClient();
          if client.None? { return None; }
          var peers := ReadClients();
          return if peers.None? then None else Some(Hello(client.value, peers.value));
        case 1 => var peer := ReadClient(); return if peer.None? then None else Some(Join(peer.value));
        case 2 => var peer := ReadClient(); return if peer.None? then None else Some(Update(peer.value));
        case 3 => var peerId := ReadId(); return if peerId.None? then None else Some(Left(peerId.value));
        case 4 => var message := ReadSdp(); return if message.None? then None else Some(Offer(message.value));
        case 5 => var message := ReadSdp(); return if message.None? then None else Some(Answer(message.value));
        case 6 => var code := ReadNumber(2); return if code.None? then None else Some(Error(code.value));
        case _ => return None;
      }
    }
  }

  method WriteServerMessages(sent: seq<ServerMessage>) returns (bytes: Bytes)
    ensures bytes == EncAll(FROM_SERVER, sent)
  {
    hide FROM_SERVER;
    var serializer := new Serializer();
    AppendsNone(FROM_SERVER, [], sent);
    for i := 0 to |sent|
      invariant serializer.bytes == [] + EncAll(FROM_SERVER, sent[..i])
    {
      AppendsOne(FROM_SERVER, [], sent, i);
      serializer.WriteServerMessage(sent[i]);
    }
    assert sent[..|sent|] == sent;
    bytes := serializer.bytes;
  }

  method ReadServerMessages(n: nat, bytes: Bytes) returns (received: Option<seq<ServerMessage>>)
    ensures var spec := DecN(FROM_SERVER, n, bytes);
      received == if spec.None? then None else Some(spec.value.0)
  {
    hide FROM_SERVER, DecN;
    assert DecN(FROM_SERVER, 0, bytes) == Some(([], bytes)) by { DecNone(FROM_SERVER, bytes); }
    var deserializer := new Deserializer(bytes);
    var ans: seq<ServerMessage> := [];
    for i := 0 to n
      invariant deserializer.Valid() && DecN(FROM_SERVER, i, bytes) == Some((ans, deserializer.Rest()))
    {
      ghost var before := deserializer.Rest();
      var m := deserializer.ReadServerMessage();
      DecOneMore(FROM_SERVER, i, bytes, ans, before);
      if m.None? {
        StaysFailed(FROM_SERVER, i + 1, n, bytes);
        return None;
      }
      ans := ans + [m.value];
    }
    return Some(ans);
  }

  /** Messages written one after the other into one buffer are read back one by one. */
  method ServerMessagesRoundTrip(sent: seq<ServerMessage>) returns (received: Option<seq<ServerMessage>>)
    requires forall i :: 0 <= i < |sent| ==> FROM_SERVER.fits(sent[i])
    ensures received == Some(sent)
  {
    hide FROM_SERVER;
    ServerMessageLawful();
    ElementsReadBack(FROM_SERVER, sent, []);
    var bytes := WriteServerMessages(sent);
    assert bytes + [] == bytes;
    received := ReadServerMessages(|sent|, bytes);
  }
}
