/** The two endpoints of a transfer session up to the start of file streaming, as concurrent
    state machines that exchange messages over two reliable ordered queues. */
module Handshake {
  import opened Common
  import opened Pin

  type Bytes = seq<Byte>
  type Token = string
  type Key = string

  datatype TokenStatus = TokenOk | TokenPinRequired

  datatype Selection = Selected(tokens: map<string, string>) | Declined

  /** The messages of the session. `PinStatus` and `FileListResponse` travel as chunks closed
      by the delimiter, all others as one text message. */
  datatype Msg =
    | Nonce(nonce: Bytes)
    | TokenRequest(token: Token)
    | TokenResponse(tokenStatus: TokenStatus, token: Token)
    | InvalidSignature
    | PinMessage(pin: string)
    | PinReply(reply: Reply)
    | PinStatus(status: Status)
    | FileListResponse(selection: Selection)

  datatype Status = Files(files: seq<string>) | StatusPinRequired | StatusTooMany

  /** Why an endpoint gave up. */
  datatype Reason = OutOfTries | MissingInput | BadSignature | BadNonce | PeerGone | UnexpectedMessage

  /** Where the sending side stands; every `Await` phase reads one message. */
  datatype Sender =
    | SBegin
    | SAwaitNonce
    | SAwaitToken(nonce: Bytes)
    | SEnterPin(nonce: Bytes)
    | SAwaitPinReply(nonce: Bytes)
    | SAwaitPin(nonce: Bytes, tries: nat)
    | SConnected(nonce: Bytes)
    | SStreaming(nonce: Bytes, tokens: map<string, string>)
    | SDeclined
    | SStopped(reason: Reason)

  datatype Receiver =
    | RAwaitNonce
    | RAwaitToken(nonce: Bytes)
    | RAwaitPin(nonce: Bytes, tries: nat)
    | RAwaitStatus(nonce: Bytes)
    | REnterPin(nonce: Bytes)
    | RAwaitPinStatus(nonce: Bytes)
    | RConnected(nonce: Bytes, files: seq<string>)
    | RStreaming(nonce: Bytes, files: seq<string>, tokens: map<string, string>)
    | RDeclined
    | RAbandoned
    | RStopped(reason: Reason)

  /** Signatures are abstract: any way to sign a nonce and to check a token against a key. */
  datatype Config = Config(
    senderNonce: Bytes,
    receiverNonce: Bytes,
    senderKey: Key,
    receiverKey: Key,
    senderExpects: Option<Key>,
    receiverExpects: Option<Key>,
    senderPin: Option<PinConfig>,
    receiverPin: Option<PinConfig>,
    files: seq<string>,
    sign: (Key, Bytes) -> Token,
    verify: (Key, Token, Bytes) -> bool)

  predicate ValidNonce(nonce: Bytes) { 16 <= |nonce| <= 128 }

  predicate TokenAccepted(c: Config, expected: Option<Key>, token: Token, nonce: Bytes) {
    expected.Some? ==> c.verify(expected.value, token, nonce)
  }

  /** What the user or the application supplies when an endpoint asks. */
  datatype Input = NoAnswer | EnterPin(pin: string) | Choose(selection: Selection)

  // ----- sending side -----

  /** From the end of the receiver's challenge on: the sender's own challenge, if it has one. */
  function SenderChallenge(c: Config, nonce: Bytes): (Sender, seq<Msg>) {
    if c.senderPin.None? then (SConnected(nonce), [PinStatus(Files(c.files))])
    else SenderLoop(c, nonce, "", 0, true)
  }

  /** The top of the sender's verifying loop. */
  function SenderLoop(c: Config, nonce: Bytes, remotePin: string, tries: nat, initialNotice: bool): (Sender, seq<Msg>)
    requires c.senderPin.Some?
  {
    match LoopTop(c.senderPin.value, remotePin, tries, initialNotice)
    case Accept => (SConnected(nonce), [PinStatus(Files(c.files))])
    case GiveUp => (SStopped(OutOfTries), [PinStatus(StatusTooMany)])
    case Await(notice) => (SAwaitPin(nonce, tries), if notice then [PinStatus(StatusPinRequired)] else [])
  }

  /** The sender's reaction to the next message. */
  function SenderReads(c: Config, s: Sender, m: Msg): (Sender, seq<Msg>) {
    match (s, m)
    case (SAwaitNonce, Nonce(n)) =>
      if !ValidNonce(n) then (SStopped(BadNonce), [])
      else (SAwaitToken(c.senderNonce + n), [TokenRequest(c.sign(c.senderKey, c.senderNonce + n))])
    case (SAwaitToken(nonce), TokenResponse(status, token)) =>
      if !TokenAccepted(c, c.senderExpects, token, nonce) then (SStopped(BadSignature), [])
      else if status == TokenPinRequired then (SEnterPin(nonce), [])
      else SenderChallenge(c, nonce)
    case (SAwaitToken(nonce), InvalidSignature) => (SStopped(BadSignature), [])
    case (SAwaitPinReply(nonce), PinReply(reply)) =>
      (match reply
       case Granted => SenderChallenge(c, nonce)
       case AskAgain => (SEnterPin(nonce), [])
       case Refused => (SStopped(OutOfTries), []))
    case (SAwaitPin(nonce, tries), PinMessage(pin)) =>
      if c.senderPin.None? then (SStopped(UnexpectedMessage), [])
      else SenderLoop(c, nonce, pin, tries + 1, false)
    case (SConnected(nonce), FileListResponse(Selected(tokens))) => (SStreaming(nonce, tokens), [])
    case (SConnected(nonce), FileListResponse(Declined)) => (SDeclined, [])
    case _ => (SStopped(UnexpectedMessage), [])
  }

  predicate SenderAwaits(s: Sender) {
    s.SAwaitNonce? || s.SAwaitToken? || s.SAwaitPinReply? || s.SAwaitPin? || s.SConnected?
  }

  /** The sender's own steps: its first message, and the PIN the user enters or refuses to. */
  function SenderActs(c: Config, s: Sender, input: Input): (Sender, seq<Msg>) {
    match s
    case SBegin => (SAwaitNonce, [Nonce(c.senderNonce)])
    case SEnterPin(nonce) =>
      if input.EnterPin? then (SAwaitPinReply(nonce), [PinMessage(input.pin)]) else (SStopped(MissingInput), [])
    case _ => (s, [])
  }

  // ----- receiving side -----

  function ReceiverLoop(c: Config, nonce: Bytes, remotePin: string, tries: nat): (Receiver, seq<Msg>)
    requires c.receiverPin.Some?
  {
    match LoopTop(c.receiverPin.value, remotePin, tries, false)
    case Accept => (RAwaitStatus(nonce), [PinReply(Granted)])
    case GiveUp => (RStopped(OutOfTries), [PinReply(Refused)])
    case Await(notice) => (RAwaitPin(nonce, tries), if notice then [PinReply(AskAgain)] else [])
  }

  /** The receiver's answer to a good token, and its own challenge, if it has one. */
  function ReceiverChallenge(c: Config, nonce: Bytes): (Receiver, seq<Msg>) {
    var token := c.sign(c.receiverKey, nonce);
    if c.receiverPin.None? then (RAwaitStatus(nonce), [TokenResponse(TokenOk, token)])
    else
      var (r, sent) := ReceiverLoop(c, nonce, "", 0);
      (r, [TokenResponse(TokenPinRequired, token)] + sent)
  }

  function ReceiverReads(c: Config, r: Receiver, m: Msg): (Receiver, seq<Msg>) {
    match (r, m)
    case (RAwaitNonce, Nonce(n)) =>
      if !ValidNonce(n) then (RStopped(BadNonce), [])
      else (RAwaitToken(n + c.receiverNonce), [Nonce(c.receiverNonce)])
    case (RAwaitToken(nonce), TokenRequest(token)) =>
      if !TokenAccepted(c, c.receiverExpects, token, nonce) then (RStopped(BadSignature), [InvalidSignature])
      else ReceiverChallenge(c, nonce)
    case (RAwaitPin(nonce, tries), PinMessage(pin)) =>
      if c.receiverPin.None? then (RStopped(UnexpectedMessage), [])
      else ReceiverLoop(c, nonce, pin, tries + 1)
    case (RAwaitStatus(nonce), PinStatus(status)) =>
      (match status
       case Files(files) => (RConnected(nonce, files), [])
       case StatusPinRequired => (REnterPin(nonce), [])
       case StatusTooMany => (RStopped(UnexpectedMessage), []))
    case (RAwaitPinStatus(nonce), PinStatus(status)) =>
      (match status
       case Files(files) => (RConnected(nonce, files), [])
       case StatusPinRequired => (REnterPin(nonce), [])
       case StatusTooMany => (RStopped(OutOfTries), []))
    case _ => (RStopped(UnexpectedMessage), [])
  }

  predicate ReceiverAwaits(r: Receiver) {
    r.RAwaitNonce? || r.RAwaitToken? || r.RAwaitPin? || r.RAwaitStatus? || r.RAwaitPinStatus?
  }

  function ReceiverActs(c: Config, r: Receiver, input: Input): (Receiver, seq<Msg>) {
    match r
    case REnterPin(nonce) =>
      if input.EnterPin? then (RAwaitPinStatus(nonce), [PinMessage(input.pin)]) else (RStopped(MissingInput), [])
    case RConnected(nonce, files) =>
      (match input
       case Choose(Selected(tokens)) => (RStreaming(nonce, files, tokens), [FileListResponse(Selected(tokens))])
       case Choose(Declined) => (RDeclined, [FileListResponse(Declined)])
       case _ => (RAbandoned, []))
    case _ => (r, [])
  }

  // ----- the session -----

  datatype Session = Session(sender: Sender, receiver: Receiver, toReceiver: seq<Msg>, toSender: seq<Msg>)

  datatype Event = SenderRuns(input: Input) | ReceiverRuns(input: Input)

  const OPENING := Session(SBegin, RAwaitNonce, [], [])

  predicate SenderOver(s: Sender) { s.SStopped? || s.SDeclined? }

  predicate ReceiverOver(r: Receiver) { r.RStopped? || r.RDeclined? || r.RAbandoned? }

  /** One endpoint goes on: it reads a message if it waits for one, notices a closed connection
      if none can come any more, or acts on its own. Otherwise nothing happens. */
  function Next(c: Config, j: Session, e: Event): Session {
    match e
    case SenderRuns(input) =>
      if SenderAwaits(j.sender) then
        if j.toSender != [] then
          var (s, sent) := SenderReads(c, j.sender, j.toSender[0]);
          j.(sender := s, toSender := j.toSender[1..], toReceiver := j.toReceiver + sent)
        else if ReceiverOver(j.receiver) then j.(sender := SStopped(PeerGone))
        else j
      else
        var (s, sent) := SenderActs(c, j.sender, input);
        j.(sender := s, toReceiver := j.toReceiver + sent)
    case ReceiverRuns(input) =>
      if ReceiverAwaits(j.receiver) then
        if j.toReceiver != [] then
          var (r, sent) := ReceiverReads(c, j.receiver, j.toReceiver[0]);
          j.(receiver := r, toReceiver := j.toReceiver[1..], toSender := j.toSender + sent)
        else if SenderOver(j.sender) then j.(receiver := RStopped(PeerGone))
        else j
      else
        var (r, sent) := ReceiverActs(c, j.receiver, input);
        j.(receiver := r, toSender := j.toSender + sent)
  }

  function RunTo(c: Config, es: seq<Event>): Session {
    if es == [] then OPENING else Next(c, RunTo(c, es[..|es| - 1]), es[|es| - 1])
  }

  /** What both sides come to use: the sender's nonce followed by the receiver's. */
  function Agreed(c: Config): Bytes { c.senderNonce + c.receiverNonce }

  /** Nonces are generated with 32 bytes. */
  ghost predicate Generated(c: Config) {
    |c.senderNonce| == 32 && |c.receiverNonce| == 32
  }
}
