/** The session frame by frame: an endpoint hands the frames of its messages to the channel one
    at a time, and a reader takes a message only when all its frames are there. Every run of it
    is a run of the session on whole messages. */
module HandshakeFrames {
  import opened Common
  import F = Framing
  import opened Handshake
  import opened HandshakeDialogue
  import opened HandshakeOutcomes
  import opened HandshakeWire

  datatype Codec = Codec(encode: Json, decode: F.Bytes -> Option<Msg>)

  ghost predicate Lawful(codec: Codec) {
    (forall m :: codec.decode(codec.encode(m)) == Some(m)) && codec.decode([]) == None
  }

  /** Each endpoint has frames it has yet to send, and a queue of frames that have arrived. */
  datatype FrameSession = FrameSession(
    sender: Sender,
    receiver: Receiver,
    senderOwes: seq<F.Frame>,
    toReceiver: seq<F.Frame>,
    receiverOwes: seq<F.Frame>,
    toSender: seq<F.Frame>)

  datatype FrameEvent = Runs(event: Event) | SenderTransmits | ReceiverTransmits

  const FRAME_OPENING := FrameSession(SBegin, RAwaitNonce, [], [], [], [])

  /** All frames of the next message are there. */
  predicate Complete(queue: seq<F.Frame>, inChunks: bool) {
    if inChunks then exists i :: 0 <= i < |queue| && queue[i].Text? else queue != []
  }

  /** The message read, if it is one, and the frames behind it. */
  function ReadMessage(codec: Codec, queue: seq<F.Frame>, inChunks: bool): (Option<Msg>, seq<F.Frame>)
    requires Complete(queue, inChunks)
  {
    var r := Read(queue, inChunks);
    if r.None? then (None, queue[1..]) else (codec.decode(r.value.0), r.value.1)
  }

  function SenderTurn(c: Config, codec: Codec, f: FrameSession, input: Input): FrameSession {
    if f.senderOwes != [] then f
    else if !SenderAwaits(f.sender) then
      var (s, sent) := SenderActs(c, f.sender, input);
      f.(sender := s, senderOwes := Wire(codec.encode, sent))
    else if Complete(f.toSender, SenderReadsChunks(f.sender)) then
      var (m, rest) := ReadMessage(codec, f.toSender, SenderReadsChunks(f.sender));
      var (s, sent) := if m.None? then (SStopped(UnexpectedMessage), []) else SenderReads(c, f.sender, m.value);
      f.(sender := s, toSender := rest, senderOwes := Wire(codec.encode, sent))
    else if ReceiverOver(f.receiver) && f.receiverOwes == [] then f.(sender := SStopped(PeerGone))
    else f
  }

  function ReceiverTurn(c: Config, codec: Codec, f: FrameSession, input: Input): FrameSession {
    if f.receiverOwes != [] then f
    else if !ReceiverAwaits(f.receiver) then
      var (r, sent) := ReceiverActs(c, f.receiver, input);
      f.(receiver := r, receiverOwes := Wire(codec.encode, sent))
    else if Complete(f.toReceiver, ReceiverReadsChunks(f.receiver)) then
      var (m, rest) := ReadMessage(codec, f.toReceiver, ReceiverReadsChunks(f.receiver));
      var (r, sent) := if m.None? then (RStopped(UnexpectedMessage), []) else ReceiverReads(c, f.receiver, m.value);
      f.(receiver := r, toReceiver := rest, receiverOwes := Wire(codec.encode, sent))
    else if SenderOver(f.sender) && f.senderOwes == [] then f.(receiver := RStopped(PeerGone))
    else f
  }

  function FrameNext(c: Config, codec: Codec, f: FrameSession, e: FrameEvent): FrameSession {
    match e
    case Runs(SenderRuns(input)) => SenderTurn(c, codec, f, input)
    case Runs(ReceiverRuns(input)) => ReceiverTurn(c, codec, f, input)
    case SenderTransmits =>
      if f.senderOwes == [] then f
      else f.(toReceiver := f.toReceiver + [f.senderOwes[0]], senderOwes := f.senderOwes[1..])
    case ReceiverTransmits =>
      if f.receiverOwes == [] then f
      else f.(toSender := f.toSender + [f.receiverOwes[0]], receiverOwes := f.receiverOwes[1..])
  }

  function FrameRunTo(c: Config, codec: Codec, es: seq<FrameEvent>): FrameSession {
    if es == [] then FRAME_OPENING else FrameNext(c, codec, FrameRunTo(c, codec, es[..|es| - 1]), es[|es| - 1])
  }

  /** The frames there are, arrived or not, are those of the messages in the queues. */
  ghost predicate Matches(json: Json, f: FrameSession, j: Session) {
    && f.sender == j.sender && f.receiver == j.receiver
    && f.toReceiver + f.senderOwes == Wire(json, j.toReceiver)
    && f.toSender + f.receiverOwes == Wire(json, j.toSender)
  }

  // ----- which form the next message has -----

  /** A message is waited for in the form it has, or a PIN arrives where a PIN status is waited for. */
  ghost predicate FormsFit(j: Session) {
    && (SenderAwaits(j.sender) && j.toSender != [] ==> InChunks(j.toSender[0]) == SenderReadsChunks(j.sender))
    && (ReceiverAwaits(j.receiver) && j.toReceiver != [] ==>
          || InChunks(j.toReceiver[0]) == ReceiverReadsChunks(j.receiver)
          || (j.receiver.RAwaitStatus? && j.toReceiver[0].PinMessage?))
  }

  lemma StageFormsFit(c: Config, stage: Stage)
    requires StageOk(c, stage)
    ensures FormsFit(SessionAt(c, stage))
  {
  }

  lemma FormsAlwaysFit(c: Config, es: seq<Event>)
    requires Generated(c)
    ensures FormsFit(RunTo(c, es))
  {
    hide *;
    FollowsDialogue(c, es);
    StageFormsFit(c, DialogueTo(c, es));
  }

  // ----- reading from a queue that may still be filling -----

  lemma FirstOfWire(json: Json, queue: seq<Msg>)
    requires queue != []
    ensures Wire(json, queue) == Frames(json, queue[0]) + Wire(json, queue[1..])
  {
  }

  /** If the end of the first string has arrived, all of it has. */
  lemma StringArrived(here: seq<F.Frame>, coming: seq<F.Frame>, bytes: F.Bytes, behind: seq<F.Frame>)
    requires here + coming == F.StringFrames(bytes) + behind && Complete(here, true)
    ensures var n := |F.StringFrames(bytes)|;
      n <= |here| && here == F.StringFrames(bytes) + here[n..] && here[n..] + coming == behind
  {
    var frames := F.StringFrames(bytes);
    var i :| 0 <= i < |here| && here[i].Text?;
    assert here[i] == (frames + behind)[i];
    assert i >= |frames| - 1;
    assert frames == (here + coming)[..|frames|] == here[..|frames|];
    assert behind == (here + coming)[|frames|..] == here[|frames|..] + coming;
  }

  lemma ReadsString(codec: Codec, here: seq<F.Frame>, coming: seq<F.Frame>, m: Msg, behind: seq<F.Frame>)
    requires Lawful(codec) && InChunks(m) && Complete(here, true)
    requires here + coming == F.StringFrames(codec.encode(m)) + behind
    ensures ReadMessage(codec, here, true).0 == Some(m)
    ensures ReadMessage(codec, here, true).1 + coming == behind
  {
    var frames := F.StringFrames(codec.encode(m));
    StringArrived(here, coming, codec.encode(m), behind);
    F.StringRoundTrip(codec.encode(m), here[|frames|..]);
    hide F.StringFrames;
    assert F.ReceiveString(here) == (codec.encode(m), here[|frames|..]);
  }

  lemma ReadsText(codec: Codec, here: seq<F.Frame>, coming: seq<F.Frame>, m: Msg, behind: seq<F.Frame>, inChunks: bool)
    requires Lawful(codec) && Complete(here, inChunks)
    requires here + coming == [F.Text(codec.encode(m))] + behind
    ensures ReadMessage(codec, here, inChunks).0 == if inChunks then None else Some(m)
    ensures ReadMessage(codec, here, inChunks).1 + coming == behind
  {
    assert here[0] == (here + coming)[0] == F.Text(codec.encode(m));
    assert here[1..] + coming == (here + coming)[1..] == behind;
  }

  /** What is read from the frames that have arrived is the next message, or, where a PIN stands
      in the way of a PIN status, no message at all; the frames left match the messages left. */
  lemma ReadsHead(codec: Codec, here: seq<F.Frame>, coming: seq<F.Frame>, queue: seq<Msg>, inChunks: bool)
    requires Lawful(codec) && here + coming == Wire(codec.encode, queue) && Complete(here, inChunks)
    requires queue != [] ==> InChunks(queue[0]) == inChunks || (inChunks && queue[0].PinMessage?)
    ensures queue != []
    ensures ReadMessage(codec, here, inChunks).0 == if InChunks(queue[0]) == inChunks then Some(queue[0]) else None
    ensures ReadMessage(codec, here, inChunks).1 + coming == Wire(codec.encode, queue[1..])
  {
    assert here != [] && here + coming != [] && Wire(codec.encode, []) == [];
    FirstOfWire(codec.encode, queue);
    hide Wire, ReadMessage, Complete, Lawful;
    if InChunks(queue[0]) {
      ReadsString(codec, here, coming, queue[0], Wire(codec.encode, queue[1..]));
    } else {
      ReadsText(codec, here, coming, queue[0], Wire(codec.encode, queue[1..]), inChunks);
    }
  }

  /** When all frames of a message have arrived it is complete. */
  lemma AllIsComplete(json: Json, queue: seq<Msg>, inChunks: bool)
    requires queue != []
    ensures Complete(Wire(json, queue), inChunks)
  {
    FirstOfWire(json, queue);
    var frames := Frames(json, queue[0]);
    assert frames[|frames| - 1].Text?;
    assert Wire(json, queue)[|frames| - 1] == frames[|frames| - 1];
  }

  // ----- the simulation -----

  /** The endpoint takes its turn at the level of frames: it is not sending, and has something
      to read, or to do, or notices that the other is gone. */
  ghost predicate SenderTakesTurn(f: FrameSession) {
    && f.senderOwes == []
    && (|| !SenderAwaits(f.sender) || Complete(f.toSender, SenderReadsChunks(f.sender))
        || (ReceiverOver(f.receiver) && f.receiverOwes == []))
  }

  ghost predicate ReceiverTakesTurn(f: FrameSession) {
    && f.receiverOwes == []
    && (|| !ReceiverAwaits(f.receiver) || Complete(f.toReceiver, ReceiverReadsChunks(f.receiver))
        || (SenderOver(f.sender) && f.senderOwes == []))
  }

  lemma SenderSimulates(c: Config, codec: Codec, f: FrameSession, j: Session, input: Input)
    requires Lawful(codec) && Matches(codec.encode, f, j) && FormsFit(j) && SenderTakesTurn(f)
    ensures Matches(codec.encode, SenderTurn(c, codec, f, input), Next(c, j, SenderRuns(input)))
  {
    var inChunks := SenderReadsChunks(f.sender);
    hide Wire, SenderReads, ReceiverReads, SenderActs, ReceiverActs, ReadMessage, Complete, Lawful, InChunks;
    assert f.toReceiver + [] == f.toReceiver;
    if !SenderAwaits(f.sender) {
      WireAppends(codec.encode, j.toReceiver, SenderActs(c, f.sender, input).1);
    } else if Complete(f.toSender, inChunks) {
      ReadsHead(codec, f.toSender, f.receiverOwes, j.toSender, inChunks);
      WireAppends(codec.encode, j.toReceiver, SenderReads(c, f.sender, j.toSender[0]).1);
    } else {
      assert f.toSender + [] == f.toSender;
      if j.toSender != [] { AllIsComplete(codec.encode, j.toSender, inChunks); }
    }
  }

  lemma PinIsNoStatus(c: Config, r: Receiver, m: Msg)
    requires r.RAwaitStatus? && m.PinMessage?
    ensures ReceiverReads(c, r, m) == (RStopped(UnexpectedMessage), [])
  {
  }

  lemma ReceiverSimulates(c: Config, codec: Codec, f: FrameSession, j: Session, input: Input)
    requires Lawful(codec) && Matches(codec.encode, f, j) && FormsFit(j) && ReceiverTakesTurn(f)
    ensures Matches(codec.encode, ReceiverTurn(c, codec, f, input), Next(c, j, ReceiverRuns(input)))
  {
    var inChunks := ReceiverReadsChunks(f.receiver);
    hide Wire, SenderReads, ReceiverReads, SenderActs, ReceiverActs, ReadMessage, Complete, Lawful, InChunks;
    assert f.toSender + [] == f.toSender;
    if !ReceiverAwaits(f.receiver) {
      WireAppends(codec.encode, j.toSender, ReceiverActs(c, f.receiver, input).1);
    } else if Complete(f.toReceiver, inChunks) {
      ReadsHead(codec, f.toReceiver, f.senderOwes, j.toReceiver, inChunks);
      WireAppends(codec.encode, j.toSender, ReceiverReads(c, f.receiver, j.toReceiver[0]).1);
      if InChunks(j.toReceiver[0]) != inChunks { PinIsNoStatus(c, f.receiver, j.toReceiver[0]); }
    } else {
      assert f.toReceiver + [] == f.toReceiver;
      if j.toReceiver != [] { AllIsComplete(codec.encode, j.toReceiver, inChunks); }
    }
  }

  /** A frame that is handed over, or a turn that is not taken, changes no message. */
  lemma Stutters(c: Config, codec: Codec, f: FrameSession, j: Session, e: FrameEvent)
    requires Matches(codec.encode, f, j)
    requires e.Runs? ==> if e.event.SenderRuns? then !SenderTakesTurn(f) else !ReceiverTakesTurn(f)
    ensures Matches(codec.encode, FrameNext(c, codec, f, e), j)
  {
    hide Wire, SenderReads, ReceiverReads, SenderActs, ReceiverActs, ReadMessage, Complete;
    if e.SenderTransmits? && f.senderOwes != [] {
      assert (f.toReceiver + [f.senderOwes[0]]) + f.senderOwes[1..] == f.toReceiver + f.senderOwes;
    }
    if e.ReceiverTransmits? && f.receiverOwes != [] {
      assert (f.toSender + [f.receiverOwes[0]]) + f.receiverOwes[1..] == f.toSender + f.receiverOwes;
    }
  }

  /** A turn that changes nothing on messages changes nothing on frames. */
  lemma IdleSenderTurn(c: Config, codec: Codec, f: FrameSession, j: Session, input: Input)
    requires Matches(codec.encode, f, j) && SenderTakesTurn(f)
    requires Matches(codec.encode, SenderTurn(c, codec, f, input), j)
    ensures SenderTurn(c, codec, f, input) == f
  {
    hide Wire, SenderReads, SenderActs, ReadMessage, Complete;
    var f' := SenderTurn(c, codec, f, input);
    assert f'.toReceiver == f.toReceiver && f'.receiverOwes == f.receiverOwes;
    SameEnds(f.toReceiver, f.senderOwes, f'.senderOwes);
    SameBeginnings(f.toSender, f'.toSender, f.receiverOwes);
  }

  lemma IdleReceiverTurn(c: Config, codec: Codec, f: FrameSession, j: Session, input: Input)
    requires Matches(codec.encode, f, j) && ReceiverTakesTurn(f)
    requires Matches(codec.encode, ReceiverTurn(c, codec, f, input), j)
    ensures ReceiverTurn(c, codec, f, input) == f
  {
    hide Wire, ReceiverReads, ReceiverActs, ReadMessage, Complete;
    var f' := ReceiverTurn(c, codec, f, input);
    assert f'.toSender == f.toSender && f'.senderOwes == f.senderOwes;
    SameEnds(f.toSender, f.receiverOwes, f'.receiverOwes);
    SameBeginnings(f.toReceiver, f'.toReceiver, f.senderOwes);
  }

  lemma SameEnds<T>(a: seq<T>, b: seq<T>, b': seq<T>)
    requires a + b == a + b'
    ensures b == b'
  {
    assert (a + b)[|a|..] == b && (a + b')[|a|..] == b';
  }

  lemma SameBeginnings<T>(a: seq<T>, a': seq<T>, b: seq<T>)
    requires a + b == a' + b
    ensures a == a'
  {
    assert |a| == |a'|;
    assert (a + b)[..|a|] == a && (a' + b)[..|a|] == a';
  }

  /** How many turns of the run changed anything; handing over a frame is no turn. */
  function FrameTurns(c: Config, codec: Codec, fes: seq<FrameEvent>): nat {
    if fes == [] then 0
    else
      var before, e := fes[..|fes| - 1], fes[|fes| - 1];
      FrameTurns(c, codec, before)
        + (if e.Runs? && FrameRunTo(c, codec, fes) != FrameRunTo(c, codec, before) then 1 else 0)
  }

  lemma FrameTurnsThen(c: Config, codec: Codec, fes: seq<FrameEvent>, e: FrameEvent)
    ensures FrameRunTo(c, codec, fes + [e]) == FrameNext(c, codec, FrameRunTo(c, codec, fes), e)
    ensures FrameTurns(c, codec, fes + [e]) == FrameTurns(c, codec, fes)
      + (if e.Runs? && FrameRunTo(c, codec, fes + [e]) != FrameRunTo(c, codec, fes) then 1 else 0)
  {
    assert (fes + [e])[..|fes + [e]| - 1] == fes;
  }

  /** One frame event matched by at most one message event, and every turn that changes anything
      by a turn that does. */
  lemma FollowsFrames(c: Config, codec: Codec, fes: seq<FrameEvent>, e: FrameEvent, es: seq<Event>)
      returns (next: seq<Event>)
    requires Generated(c) && Lawful(codec) && Matches(codec.encode, FrameRunTo(c, codec, fes), RunTo(c, es))
    ensures Matches(codec.encode, FrameRunTo(c, codec, fes + [e]), RunTo(c, next)) && |next| <= |es| + 1
    ensures FrameTurns(c, codec, fes + [e]) - FrameTurns(c, codec, fes) <= Turns(c, next) - Turns(c, es)
  {
    var f, j := FrameRunTo(c, codec, fes), RunTo(c, es);
    FormsAlwaysFit(c, es);
    FrameTurnsThen(c, codec, fes, e);
    if e.Runs? { TurnsThen(c, es, e.event); }
    hide FrameRunTo, RunTo, FrameTurns, Turns;
    hide Matches, Next, FormsFit, SenderTurn, ReceiverTurn, SenderTakesTurn, ReceiverTakesTurn, Lawful, Generated;
    if e.Runs? && e.event.SenderRuns? && SenderTakesTurn(f) {
      SenderSimulates(c, codec, f, j, e.event.input);
      next := es + [e.event];
      if RunTo(c, next) == j { IdleSenderTurn(c, codec, f, j, e.event.input); }
    } else if e.Runs? && e.event.ReceiverRuns? && ReceiverTakesTurn(f) {
      ReceiverSimulates(c, codec, f, j, e.event.input);
      next := es + [e.event];
      if RunTo(c, next) == j { IdleReceiverTurn(c, codec, f, j, e.event.input); }
    } else {
      Stutters(c, codec, f, j, e);
      if e.Runs? { NoTurn(c, codec, f, e.event); }
      next := es;
    }
  }

  lemma NoTurn(c: Config, codec: Codec, f: FrameSession, e: Event)
    requires if e.SenderRuns? then !SenderTakesTurn(f) else !ReceiverTakesTurn(f)
    ensures FrameNext(c, codec, f, Runs(e)) == f
  {
    hide Wire, SenderReads, ReceiverReads, SenderActs, ReceiverActs, ReadMessage, Complete;
  }

  lemma TurnsThen(c: Config, es: seq<Event>, e: Event)
    ensures RunTo(c, es + [e]) == Next(c, RunTo(c, es), e)
    ensures Turns(c, es + [e]) == Turns(c, es) + (if RunTo(c, es + [e]) == RunTo(c, es) then 0 else 1)
  {
    assert (es + [e])[..|es + [e]| - 1] == es;
  }

  /** Main result: whatever the order in which frames are handed over and turns are taken, the
      session on frames is at every moment the image of a run of the session on messages. */
  lemma {:induction false} FrameRunsAreMessageRuns(c: Config, codec: Codec, fes: seq<FrameEvent>)
      returns (es: seq<Event>)
    requires Generated(c) && Lawful(codec)
    ensures Matches(codec.encode, FrameRunTo(c, codec, fes), RunTo(c, es))
    ensures |es| <= |fes| && FrameTurns(c, codec, fes) <= Turns(c, es)
  {
    if fes == [] {
      es := [];
    } else {
      var before, e := fes[..|fes| - 1], fes[|fes| - 1];
      assert fes == before + [e];
      es := FrameRunsAreMessageRuns(c, codec, before);
      hide FrameRunTo, RunTo, FrameTurns, Turns, Matches;
      es := FollowsFrames(c, codec, before, e, es);
    }
  }

  /** Main result: on frames, too, only so many turns of a run change anything. */
  lemma FrameTurnsAreBounded(c: Config, codec: Codec, fes: seq<FrameEvent>)
    requires Generated(c) && Lawful(codec)
    ensures FrameTurns(c, codec, fes) <= 12 + 3 * Tries(c.receiverPin) + 3 * Tries(c.senderPin)
  {
    var es := FrameRunsAreMessageRuns(c, codec, fes);
    TurnsAreBounded(c, es);
  }

  // ----- the other direction -----

  /** Nothing is left to hand over. */
  ghost predicate Flushed(f: FrameSession) {
    f.senderOwes == [] && f.receiverOwes == []
  }

  function Owed(f: FrameSession): nat { |f.senderOwes| + |f.receiverOwes| }

  lemma HandOver(c: Config, codec: Codec, fes: seq<FrameEvent>, j: Session) returns (e: FrameEvent)
    requires Matches(codec.encode, FrameRunTo(c, codec, fes), j) && !Flushed(FrameRunTo(c, codec, fes))
    ensures Matches(codec.encode, FrameRunTo(c, codec, fes + [e]), j)
    ensures Owed(FrameRunTo(c, codec, fes + [e])) == Owed(FrameRunTo(c, codec, fes)) - 1
  {
    var f := FrameRunTo(c, codec, fes);
    e := if f.senderOwes != [] then SenderTransmits else ReceiverTransmits;
    FrameTurnsThen(c, codec, fes, e);
    Stutters(c, codec, f, j, e);
    hide FrameRunTo, Matches, SenderTurn, ReceiverTurn;
  }

  /** Handing over what is left. */
  lemma {:induction false} Flush(c: Config, codec: Codec, fes: seq<FrameEvent>, j: Session, owed: nat)
      returns (more: seq<FrameEvent>)
    requires Matches(codec.encode, FrameRunTo(c, codec, fes), j) && owed == Owed(FrameRunTo(c, codec, fes))
    ensures Matches(codec.encode, FrameRunTo(c, codec, fes + more), j) && Flushed(FrameRunTo(c, codec, fes + more))
    decreases owed
  {
    hide FrameRunTo, Matches;
    if owed == 0 {
      more := [];
      assert fes + [] == fes;
    } else {
      var e := HandOver(c, codec, fes, j);
      var rest := Flush(c, codec, fes + [e], j, owed - 1);
      more := [e] + rest;
      assert fes + more == fes + [e] + rest;
    }
  }

  /** A waiting endpoint that takes no turn on frames takes none on messages. */
  lemma NobodysTurn(c: Config, codec: Codec, f: FrameSession, j: Session, e: Event)
    requires Matches(codec.encode, f, j) && Flushed(f)
    requires if e.SenderRuns? then !SenderTakesTurn(f) else !ReceiverTakesTurn(f)
    ensures Next(c, j, e) == j
  {
    hide Wire, SenderReads, ReceiverReads, SenderActs, ReceiverActs, Complete;
    assert f.toReceiver + [] == f.toReceiver && f.toSender + [] == f.toSender;
    if e.SenderRuns? && j.toSender != [] { AllIsComplete(codec.encode, j.toSender, SenderReadsChunks(f.sender)); }
    if e.ReceiverRuns? && j.toReceiver != [] {
      AllIsComplete(codec.encode, j.toReceiver, ReceiverReadsChunks(f.receiver));
    }
  }

  /** A turn taken on messages is one on frames, or is nobody's. */
  lemma TakesTurn(c: Config, codec: Codec, fes: seq<FrameEvent>, es: seq<Event>, e: Event)
    requires Generated(c) && Lawful(codec) && Matches(codec.encode, FrameRunTo(c, codec, fes), RunTo(c, es))
    requires Flushed(FrameRunTo(c, codec, fes))
    ensures Matches(codec.encode, FrameRunTo(c, codec, fes + [Runs(e)]), RunTo(c, es + [e]))
  {
    var f, j := FrameRunTo(c, codec, fes), RunTo(c, es);
    FormsAlwaysFit(c, es);
    OneMore(c, es, e);
    FrameTurnsThen(c, codec, fes, Runs(e));
    hide FrameRunTo, RunTo;
    hide Matches, Next, FormsFit, SenderTurn, ReceiverTurn;
    hide SenderTakesTurn, ReceiverTakesTurn, Lawful, Generated, Flushed;
    if e.SenderRuns? && SenderTakesTurn(f) {
      SenderSimulates(c, codec, f, j, e.input);
    } else if e.ReceiverRuns? && ReceiverTakesTurn(f) {
      ReceiverSimulates(c, codec, f, j, e.input);
    } else {
      NobodysTurn(c, codec, f, j, e);
      NoTurn(c, codec, f, e);
    }
  }

  /** One message event followed on frames, which are then handed over. */
  lemma FollowsMessages(c: Config, codec: Codec, fes: seq<FrameEvent>, es: seq<Event>, e: Event)
      returns (more: seq<FrameEvent>)
    requires Generated(c) && Lawful(codec) && Matches(codec.encode, FrameRunTo(c, codec, fes), RunTo(c, es))
    requires Flushed(FrameRunTo(c, codec, fes))
    ensures Matches(codec.encode, FrameRunTo(c, codec, fes + more), RunTo(c, es + [e]))
    ensures Flushed(FrameRunTo(c, codec, fes + more))
  {
    hide *;
    TakesTurn(c, codec, fes, es, e);
    var rest := Flush(c, codec, fes + [Runs(e)], RunTo(c, es + [e]), Owed(FrameRunTo(c, codec, fes + [Runs(e)])));
    more := [Runs(e)] + rest;
    assert fes + more == fes + [Runs(e)] + rest;
  }

  lemma {:induction false} FollowsRun(c: Config, codec: Codec, fes: seq<FrameEvent>, es: seq<Event>, more: seq<Event>)
    returns (frames: seq<FrameEvent>)
    requires Generated(c) && Lawful(codec) && Matches(codec.encode, FrameRunTo(c, codec, fes), RunTo(c, es))
    requires Flushed(FrameRunTo(c, codec, fes))
    ensures Matches(codec.encode, FrameRunTo(c, codec, fes + frames), RunTo(c, es + more))
    ensures Flushed(FrameRunTo(c, codec, fes + frames))
    decreases |more|
  {
    hide *;
    if more == [] {
      frames := [];
      assert fes + [] == fes && es + [] == es;
    } else {
      var first := FollowsMessages(c, codec, fes, es, more[0]);
      var rest := FollowsRun(c, codec, fes + first, es + [more[0]], more[1..]);
      frames := first + rest;
      assert fes + frames == fes + first + rest && es + more == es + [more[0]] + more[1..];
    }
  }

  /** Main result: every run of the session on messages is the image of a run on frames. */
  lemma MessageRunsAreFrameRuns(c: Config, codec: Codec, es: seq<Event>) returns (fes: seq<FrameEvent>)
    requires Generated(c) && Lawful(codec)
    ensures Matches(codec.encode, FrameRunTo(c, codec, fes), RunTo(c, es)) && Flushed(FrameRunTo(c, codec, fes))
  {
    fes := FollowsRun(c, codec, [], [], es);
    assert [] + fes == fes && [] + es == es;
  }

  ghost predicate FrameUnmoved(c: Config, codec: Codec, f: FrameSession, e: FrameEvent) {
    FrameNext(c, codec, f, e) == f
  }

  ghost predicate FrameSettled(c: Config, codec: Codec, f: FrameSession) {
    forall e :: FrameUnmoved(c, codec, f, e)
  }

  lemma SettledOnFrames(c: Config, codec: Codec, f: FrameSession, j: Session)
    requires Lawful(codec) && Matches(codec.encode, f, j) && Flushed(f) && FormsFit(j) && Settled(c, j)
    ensures FrameSettled(c, codec, f)
  {
    hide Matches, FormsFit, Lawful, Next, SenderTurn, ReceiverTurn;
    forall e ensures FrameUnmoved(c, codec, f, e) {
      if e.Runs? {
        assert Unmoved(c, j, e.event);
        if e.event.SenderRuns? && SenderTakesTurn(f) {
          SenderSimulates(c, codec, f, j, e.event.input);
          IdleSenderTurn(c, codec, f, j, e.event.input);
        } else if e.event.ReceiverRuns? && ReceiverTakesTurn(f) {
          ReceiverSimulates(c, codec, f, j, e.event.input);
          IdleReceiverTurn(c, codec, f, j, e.event.input);
        } else {
          NoTurn(c, codec, f, e.event);
        }
      }
    }
  }

  /** The session on frames has settled with the outcome of one on messages. */
  ghost predicate SettledLike(c: Config, codec: Codec, f: FrameSession, j: Session) {
    FrameSettled(c, codec, f) && Flushed(f) && Matches(codec.encode, f, j) && Settled(c, j)
  }

  lemma FlushedCanSettle(c: Config, codec: Codec, fes: seq<FrameEvent>, before: seq<Event>)
    returns (more: seq<FrameEvent>, es: seq<Event>)
    requires Generated(c) && Lawful(codec) && Matches(codec.encode, FrameRunTo(c, codec, fes), RunTo(c, before))
    requires Flushed(FrameRunTo(c, codec, fes))
    ensures SettledLike(c, codec, FrameRunTo(c, codec, fes + more), RunTo(c, es))
  {
    TurnsAreBounded(c, before);
    var left := Limit(c) - Turns(c, before);
    hide FrameRunTo, RunTo, FrameSettled, Flushed, Matches, Settled, Lawful, Generated, Limit, Turns;
    var onwards := CanSettle(c, before, left);
    more := FollowsRun(c, codec, fes, before, onwards);
    es := before + onwards;
    FormsAlwaysFit(c, es);
    SettledOnFrames(c, codec, FrameRunTo(c, codec, fes + more), RunTo(c, es));
  }

  /** Main result: no deadlock on frames: from every reachable state the session can be brought to
      one that nothing changes any more, with all frames handed over and with the outcome of a
      settled session on messages. */
  lemma FramesCanSettle(c: Config, codec: Codec, fes: seq<FrameEvent>) returns (more: seq<FrameEvent>, es: seq<Event>)
    requires Generated(c) && Lawful(codec)
    ensures SettledLike(c, codec, FrameRunTo(c, codec, fes + more), RunTo(c, es))
  {
    hide FrameRunTo, RunTo, SettledLike, Matches, Lawful, Generated;
    var before := FrameRunsAreMessageRuns(c, codec, fes);
    var flush := Flush(c, codec, fes, RunTo(c, before), Owed(FrameRunTo(c, codec, fes)));
    var rest;
    rest, es := FlushedCanSettle(c, codec, fes + flush, before);
    more := flush + rest;
    assert fes + more == fes + flush + rest;
  }

  /** What that gives: on frames, too, the sides agree, and with an unbroken PIN setup no side
      ever reads anything it does not expect. */
  lemma FrameRunsAgree(c: Config, codec: Codec, fes: seq<FrameEvent>)
    requires Generated(c) && Lawful(codec)
    ensures var f := FrameRunTo(c, codec, fes);
      && (f.sender.SStreaming? ==> f.receiver.RStreaming? && f.receiver.tokens == f.sender.tokens
                                   && f.receiver.files == c.files && f.toReceiver == [] == f.toSender && Flushed(f))
      && (f.sender.SDeclined? ==> f.receiver.RDeclined?)
      && (ReceiverConnected(f.receiver) ==> BothTokensGood(c))
      && (!Broken(c) ==> f.sender != SStopped(UnexpectedMessage) && f.receiver != RStopped(UnexpectedMessage))
  {
    var es := FrameRunsAreMessageRuns(c, codec, fes);
    Agreement(c, es);
    if !Broken(c) { AlwaysInPhase(c, es); }
    hide FrameRunTo, RunTo;
    assert Matches(codec.encode, FrameRunTo(c, codec, fes), RunTo(c, es));
  }
}
