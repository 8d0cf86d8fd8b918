/** The messages of the dialogue as frames on the data channel, and the two ways of reading one. */
module HandshakeWire {
  import opened Common
  import F = Framing
  import opened Handshake
  import opened HandshakeDialogue
  import opened HandshakeOutcomes

  /** The JSON text of a message, as far as the wire depends on it. */
  type Json = Msg -> F.Bytes

  /** PIN states and file list answers may be long and travel in chunks, the rest as one text. */
  predicate InChunks(m: Msg) {
    m.PinStatus? || m.FileListResponse?
  }

  function Frames(json: Json, m: Msg): seq<F.Frame> {
    if InChunks(m) then F.StringFrames(json(m)) else [F.Text(json(m))]
  }

  function Wire(json: Json, queue: seq<Msg>): seq<F.Frame> {
    if queue == [] then [] else Frames(json, queue[0]) + Wire(json, queue[1..])
  }

  predicate SenderReadsChunks(s: Sender) { s.SConnected? }

  predicate ReceiverReadsChunks(r: Receiver) { r.RAwaitStatus? || r.RAwaitPinStatus? }

  /** One read: a whole string of chunks, or a single text message; `None` is a binary message
      where text is expected, or a closed channel. */
  function Read(queue: seq<F.Frame>, inChunks: bool): Option<(F.Bytes, seq<F.Frame>)> {
    if inChunks then Some(F.ReceiveString(queue))
    else if queue == [] || !queue[0].Text? then None
    else Some((queue[0].body, queue[1..]))
  }

  /** Read the way it was written, the next message comes out whole and the rest stays. */
  lemma ReadsNext(json: Json, queue: seq<Msg>)
    requires queue != []
    ensures Read(Wire(json, queue), InChunks(queue[0])) == Some((json(queue[0]), Wire(json, queue[1..])))
  {
    if InChunks(queue[0]) {
      F.StringRoundTrip(json(queue[0]), Wire(json, queue[1..]));
    }
  }

  lemma InPhaseReads(j: Session, json: Json)
    requires InPhase(j)
    ensures SenderAwaits(j.sender) && j.toSender != [] ==>
      Read(Wire(json, j.toSender), SenderReadsChunks(j.sender))
      == Some((json(j.toSender[0]), Wire(json, j.toSender[1..])))
    ensures ReceiverAwaits(j.receiver) && j.toReceiver != [] ==>
      Read(Wire(json, j.toReceiver), ReceiverReadsChunks(j.receiver))
      == Some((json(j.toReceiver[0]), Wire(json, j.toReceiver[1..])))
  {
    hide Wire, Read;
    if SenderAwaits(j.sender) && j.toSender != [] { ReadsNext(json, j.toSender); }
    if ReceiverAwaits(j.receiver) && j.toReceiver != [] { ReadsNext(json, j.toReceiver); }
  }

  /** Main result: whatever is entered and however the endpoints are interleaved, a waiting
      endpoint reads the next message the way it was written, and finds exactly that message. */
  lemma WaitingSidesReadMessages(c: Config, es: seq<Event>, json: Json)
    requires Generated(c) && !Broken(c)
    ensures var j := RunTo(c, es);
      && (SenderAwaits(j.sender) && j.toSender != [] ==>
            Read(Wire(json, j.toSender), SenderReadsChunks(j.sender))
            == Some((json(j.toSender[0]), Wire(json, j.toSender[1..]))))
      && (ReceiverAwaits(j.receiver) && j.toReceiver != [] ==>
            Read(Wire(json, j.toReceiver), ReceiverReadsChunks(j.receiver))
            == Some((json(j.toReceiver[0]), Wire(json, j.toReceiver[1..]))))
  {
    hide *;
    AlwaysInPhase(c, es);
    InPhaseReads(RunTo(c, es), json);
  }

  /** Messages appended to a queue are frames appended to the wire. */
  lemma {:induction false} WireAppends(json: Json, queue: seq<Msg>, sent: seq<Msg>)
    ensures Wire(json, queue + sent) == Wire(json, queue) + Wire(json, sent)
  {
    if queue == [] {
      assert queue + sent == sent;
    } else {
      hide Frames;
      WireAppends(json, queue[1..], sent);
      assert (queue + sent)[0] == queue[0] && (queue + sent)[1..] == queue[1..] + sent;
      F.Regroup(Frames(json, queue[0]), Wire(json, queue[1..]), Wire(json, sent));
    }
  }
}
