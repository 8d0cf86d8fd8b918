/** The session as one sequential dialogue, and the proof that the two concurrent endpoints do
    nothing else: at every moment there is a single next thing to happen. */
module HandshakeDialogue {
  import opened Common
  import opened Pin
  import opened Handshake

  /** The points of the dialogue. A number counts the PINs already judged. */
  datatype Stage =
    | Begun
    | NonceSent
    | NonceAnswered
    | TokenSent
    | TokenRefused
    | TokenAnswered
    | SenderEntering(tries: nat)
    | SenderEntered(tries: nat, pin: string)
    | SenderAskedAgain(tries: nat)
    | SenderRefused
    | SenderGranted
    | HopelessEntering
    | HopelessEntered(pin: string)
    | StatusAsked
    | ReceiverEntering(tries: nat)
    | ReceiverEntered(tries: nat, pin: string)
    | ReceiverAskedAgain(tries: nat)
    | ReceiverRefused
    | FilesSent(afterPin: bool)
    | BothConnected
    | ChoiceSent(tokens: map<string, string>)
    | DeclineSent
    | Transferring(tokens: map<string, string>)
    | SenderGone(reason: Reason, receiver: Receiver, unread: seq<Msg>)
    | ReceiverGone(sender: Sender, receiver: Receiver)
    | Over(sender: Sender, receiver: Receiver, unreadByReceiver: seq<Msg>, unreadBySender: seq<Msg>)
    | UnaskedEntering
    | Derailed(session: Session)

  /** The sender's token over both nonces verifies against the key the receiver expects, if any. */
  predicate SenderTokenGood(c: Config) {
    var n := c.senderNonce + c.receiverNonce;
    c.receiverExpects.Some? ==> c.verify(c.receiverExpects.value, c.sign(c.senderKey, n), n)
  }

  predicate ReceiverTokenGood(c: Config) {
    var n := c.senderNonce + c.receiverNonce;
    c.senderExpects.Some? ==> c.verify(c.senderExpects.value, c.sign(c.receiverKey, n), n)
  }

  /** The session at a point of the dialogue. */
  function SessionAt(c: Config, stage: Stage): Session {
    var n := Agreed(c);
    match stage
    case Begun => OPENING
    case NonceSent => Session(SAwaitNonce, RAwaitNonce, [Nonce(c.senderNonce)], [])
    case NonceAnswered => Session(SAwaitNonce, RAwaitToken(n), [], [Nonce(c.receiverNonce)])
    case TokenSent => Session(SAwaitToken(n), RAwaitToken(n), [TokenRequest(c.sign(c.senderKey, n))], [])
    case TokenRefused => Session(SAwaitToken(n), RStopped(BadSignature), [], [InvalidSignature])
    case TokenAnswered => Session(SAwaitToken(n), ReceiverChallenge(c, n).0, [], ReceiverChallenge(c, n).1)
    case SenderEntering(k) => Session(SEnterPin(n), RAwaitPin(n, k), [], [])
    case SenderEntered(k, pin) => Session(SAwaitPinReply(n), RAwaitPin(n, k), [PinMessage(pin)], [])
    case SenderAskedAgain(k) => Session(SAwaitPinReply(n), RAwaitPin(n, k), [], [PinReply(AskAgain)])
    case SenderRefused => Session(SAwaitPinReply(n), RStopped(OutOfTries), [], [PinReply(Refused)])
    case SenderGranted => Session(SAwaitPinReply(n), RAwaitStatus(n), [], [PinReply(Granted)])
    case HopelessEntering => Session(SEnterPin(n), RStopped(OutOfTries), [], [PinReply(Refused)])
    case HopelessEntered(pin) =>
      Session(SAwaitPinReply(n), RStopped(OutOfTries), [PinMessage(pin)], [PinReply(Refused)])
    case StatusAsked => Session(SAwaitPin(n, 0), RAwaitStatus(n), [PinStatus(StatusPinRequired)], [])
    case ReceiverEntering(k) => Session(SAwaitPin(n, k), REnterPin(n), [], [])
    case ReceiverEntered(k, pin) => Session(SAwaitPin(n, k), RAwaitPinStatus(n), [], [PinMessage(pin)])
    case ReceiverAskedAgain(k) => Session(SAwaitPin(n, k), RAwaitPinStatus(n), [PinStatus(StatusPinRequired)], [])
    case ReceiverRefused => Session(SStopped(OutOfTries), RAwaitPinStatus(n), [PinStatus(StatusTooMany)], [])
    case FilesSent(afterPin) =>
      Session(SConnected(n), if afterPin then RAwaitPinStatus(n) else RAwaitStatus(n), [PinStatus(Files(c.files))], [])
    case BothConnected => Session(SConnected(n), RConnected(n, c.files), [], [])
    case ChoiceSent(tokens) =>
      Session(SConnected(n), RStreaming(n, c.files, tokens), [], [FileListResponse(Selected(tokens))])
    case DeclineSent => Session(SConnected(n), RDeclined, [], [FileListResponse(Declined)])
    case Transferring(tokens) => Session(SStreaming(n, tokens), RStreaming(n, c.files, tokens), [], [])
    case SenderGone(reason, r, unread) => Session(SStopped(reason), r, [], unread)
    case ReceiverGone(s, r) => Session(s, r, [], [])
    case Over(s, r, unreadByReceiver, unreadBySender) => Session(s, r, unreadByReceiver, unreadBySender)
    case UnaskedEntering => Session(SEnterPin(n), RAwaitStatus(n), [], [PinReply(Granted)])
    case Derailed(session) => session
  }

  /** The sender's side of the dialogue is through with the receiver's challenge. */
  function SenderPassed(c: Config): Stage {
    if c.senderPin.None? || c.senderPin.value.pin == "" then FilesSent(false)
    else if c.senderPin.value.maxTries == 0 then
      Derailed(Session(SStopped(OutOfTries), RAwaitStatus(Agreed(c)), [PinStatus(StatusTooMany)], []))
    else StatusAsked
  }

  /** The dialogue goes on when it is this endpoint's turn, and stands still otherwise. */
  function Proceed(c: Config, stage: Stage, e: Event): Stage {
    match e
    case SenderRuns(input) =>
      (match stage
       case Begun => NonceSent
       case NonceAnswered => TokenSent
       case TokenRefused => Over(SStopped(BadSignature), RStopped(BadSignature), [], [])
       case TokenAnswered => AfterTokens(c)
       case SenderEntering(k) =>
         if input.EnterPin? then SenderEntered(k, input.pin) else SenderGone(MissingInput, RAwaitPin(Agreed(c), k), [])
       case SenderAskedAgain(k) => SenderEntering(k)
       case SenderRefused => Over(SStopped(OutOfTries), RStopped(OutOfTries), [], [])
       case SenderGranted => SenderPassed(c)
       case HopelessEntering =>
         if input.EnterPin? then HopelessEntered(input.pin)
         else Over(SStopped(MissingInput), RStopped(OutOfTries), [], [PinReply(Refused)])
       case HopelessEntered(pin) => Over(SStopped(OutOfTries), RStopped(OutOfTries), [PinMessage(pin)], [])
       case ReceiverEntered(k, pin) =>
         if c.senderPin.None? || pin == c.senderPin.value.pin then FilesSent(true)
         else if k + 1 >= c.senderPin.value.maxTries as nat then ReceiverRefused
         else ReceiverAskedAgain(k + 1)
       case ChoiceSent(tokens) => Transferring(tokens)
       case DeclineSent => Over(SDeclined, RDeclined, [], [])
       case ReceiverGone(_, r) => Over(SStopped(PeerGone), r, [], [])
       case UnaskedEntering =>
         if input.EnterPin? then
           Derailed(Session(SAwaitPinReply(Agreed(c)), RAwaitStatus(Agreed(c)), [PinMessage(input.pin)],
                            [PinReply(Granted)]))
         else SenderGone(MissingInput, RAwaitStatus(Agreed(c)), [PinReply(Granted)])
       case Derailed(session) => Derailed(Next(c, session, e))
       case _ => stage)
    case ReceiverRuns(input) =>
      (match stage
       case NonceSent => NonceAnswered
       case TokenSent => if SenderTokenGood(c) then TokenAnswered else TokenRefused
       case SenderEntered(k, pin) =>
         if c.receiverPin.None? || pin == c.receiverPin.value.pin then SenderGranted
         else if k + 1 >= c.receiverPin.value.maxTries as nat then SenderRefused
         else SenderAskedAgain(k + 1)
       case StatusAsked => ReceiverEntering(0)
       case ReceiverEntering(k) =>
         if input.EnterPin? then ReceiverEntered(k, input.pin)
         else ReceiverGone(SAwaitPin(Agreed(c), k), RStopped(MissingInput))
       case ReceiverAskedAgain(k) => ReceiverEntering(k)
       case ReceiverRefused => Over(SStopped(OutOfTries), RStopped(OutOfTries), [], [])
       case FilesSent(_) => BothConnected
       case BothConnected =>
         (match input
          case Choose(Selected(tokens)) => ChoiceSent(tokens)
          case Choose(Declined) => DeclineSent
          case _ => ReceiverGone(SConnected(Agreed(c)), RAbandoned))
       case SenderGone(reason, _, unread) => Over(SStopped(reason), RStopped(PeerGone), [], unread)
       case Derailed(session) => Derailed(Next(c, session, e))
       case _ => stage)
  }

  /** The sender has the receiver's token and, possibly, a challenge before it. */
  function AfterTokens(c: Config): Stage {
    var (r, sent) := ReceiverChallenge(c, Agreed(c));
    if !ReceiverTokenGood(c) then
      if ReceiverOver(r) then Over(SStopped(BadSignature), r, [], sent[1..]) else SenderGone(BadSignature, r, sent[1..])
    else if c.receiverPin.None? then SenderPassed(c)
    else if c.receiverPin.value.pin == "" then UnaskedEntering
    else if c.receiverPin.value.maxTries == 0 then HopelessEntering
    else SenderEntering(0)
  }

  /** A PIN setup for which the dialogue can break down: both tokens are good, and either the
      receiver challenges with the empty PIN, or the sender's challenge is reached and allows no try. */
  predicate Broken(c: Config) {
    && SenderTokenGood(c) && ReceiverTokenGood(c)
    && (|| (c.receiverPin.Some? && c.receiverPin.value.pin == "")
        || (c.senderPin.Some? && c.senderPin.value.pin != "" && c.senderPin.value.maxTries == 0
            && (c.receiverPin.None? || c.receiverPin.value.maxTries > 0)))
  }

  /** What the points of the dialogue presuppose. */
  ghost predicate StageOk(c: Config, stage: Stage) {
    match stage
    case TokenRefused => !SenderTokenGood(c)
    case TokenAnswered => SenderTokenGood(c)
    case SenderEntering(k) => ReceiverAsks(c, k)
    case SenderEntered(k, _) => ReceiverAsks(c, k)
    case SenderAskedAgain(k) => ReceiverAsks(c, k)
    case SenderRefused => BothTokensGood(c) && c.receiverPin.Some?
    case HopelessEntering => Hopeless(c)
    case HopelessEntered(_) => Hopeless(c)
    case SenderGranted => Through(c) && c.receiverPin.Some?
    case StatusAsked => SenderAsks(c, 0)
    case ReceiverEntering(k) => SenderAsks(c, k)
    case ReceiverEntered(k, _) => SenderAsks(c, k)
    case ReceiverAskedAgain(k) => SenderAsks(c, k)
    case ReceiverRefused => Through(c) && c.senderPin.Some?
    case FilesSent(_) => Through(c)
    case BothConnected => Through(c)
    case ChoiceSent(_) => Through(c)
    case DeclineSent => Through(c)
    case Transferring(_) => Through(c)
    case SenderGone(reason, r, _) =>
      && (r.RAwaitPin? || r.RAwaitStatus?) && r.nonce == Agreed(c) && SenderTokenGood(c)
      && (reason == MissingInput || reason == BadSignature) && (reason == BadSignature <==> !ReceiverTokenGood(c))
    case ReceiverGone(s, r) =>
      && (s.SAwaitPin? || s.SConnected?) && s.nonce == Agreed(c)
      && (r == RStopped(MissingInput) || r == RAbandoned) && BothTokensGood(c)
    case Over(s, r, _, _) => Ending(c, s, r)
    case UnaskedEntering => BothTokensGood(c) && c.receiverPin.Some? && c.receiverPin.value.pin == ""
    case Derailed(session) => OffTheRails(c, session)
    case _ => true
  }

  ghost predicate Hopeless(c: Config) {
    BothTokensGood(c) && c.receiverPin.Some? && c.receiverPin.value.pin != "" && c.receiverPin.value.maxTries == 0
  }

  predicate BothTokensGood(c: Config) { SenderTokenGood(c) && ReceiverTokenGood(c) }

  /** Both tokens are good and the receiver's challenge can be passed. */
  ghost predicate Through(c: Config) {
    BothTokensGood(c) && (c.receiverPin.None? || (c.receiverPin.value.pin != "" && c.receiverPin.value.maxTries > 0))
  }

  ghost predicate ReceiverAsks(c: Config, k: nat) {
    Through(c) && c.receiverPin.Some? && k < c.receiverPin.value.maxTries as nat
  }

  ghost predicate SenderAsks(c: Config, k: nat) {
    Through(c) && c.senderPin.Some? && c.senderPin.value.pin != "" && k < c.senderPin.value.maxTries as nat
  }

  /** How a session can end before the transfer. */
  predicate Ending(c: Config, s: Sender, r: Receiver) {
    || (s == SStopped(BadSignature) && r == RStopped(BadSignature) && !SenderTokenGood(c))
    || (&& s == SStopped(BadSignature) && (r == RStopped(PeerGone) || r == RStopped(OutOfTries))
        && SenderTokenGood(c) && !ReceiverTokenGood(c))
    || (&& BothTokensGood(c)
        && (|| (s == SStopped(MissingInput) && (r == RStopped(PeerGone) || r == RStopped(OutOfTries)))
            || (s == SStopped(PeerGone) && (r == RStopped(MissingInput) || r == RAbandoned))
            || (s == SStopped(OutOfTries) && r == RStopped(OutOfTries))
            || (s == SDeclined && r == RDeclined)))
  }

  /** The receiver waits for the sender's PIN status but something else is before it in its
      queue, or it has already stopped because of that. */
  ghost predicate OffTheRails(c: Config, j: Session) {
    && Broken(c)
    && (|| (&& j.receiver == RAwaitStatus(Agreed(c)) && j.toReceiver != []
            && (j.toReceiver[0].PinMessage? || j.toReceiver[0] == PinStatus(StatusTooMany)))
        || j.receiver == RStopped(UnexpectedMessage))
    && (|| (j.sender == SAwaitPinReply(Agreed(c)) && j.toSender == [PinReply(Granted)])
        || ((j.sender == SConnected(Agreed(c)) || j.sender == SAwaitPin(Agreed(c), 0)) && j.toSender == [])
        || j.sender == SStopped(OutOfTries) || j.sender == SStopped(PeerGone))
  }

  // ----- the refinement -----

  /** The sender has both tokens in hand, a granted PIN, or a PIN to judge. */
  predicate SenderDeciding(stage: Stage) {
    stage.TokenAnswered? || stage.SenderGranted? || stage.ReceiverEntered?
  }

  /** The other points at which it is the sender's turn. */
  predicate SenderMoving(stage: Stage) {
    || stage.Begun? || stage.NonceAnswered? || stage.TokenRefused? || stage.SenderEntering? || stage.SenderAskedAgain?
    || stage.SenderRefused? || stage.HopelessEntering? || stage.HopelessEntered? || stage.ChoiceSent?
        || stage.DeclineSent?
    || stage.ReceiverGone? || stage.UnaskedEntering?
  }

  /** The receiver has the sender's token, or a PIN to judge. */
  predicate ReceiverDeciding(stage: Stage) {
    stage.TokenSent? || stage.SenderEntered?
  }

  predicate ReceiverMoving(stage: Stage) {
    || stage.NonceSent? || stage.StatusAsked? || stage.ReceiverEntering? || stage.ReceiverAskedAgain?
    || stage.ReceiverRefused? || stage.FilesSent? || stage.BothConnected? || stage.SenderGone?
  }

  lemma SenderJudgesToken(c: Config, input: Input)
    requires Generated(c) && SenderTokenGood(c)
    ensures Next(c, SessionAt(c, TokenAnswered), SenderRuns(input)) == SessionAt(c, AfterTokens(c))
    ensures StageOk(c, AfterTokens(c))
  {
  }

  lemma SenderDecides(c: Config, stage: Stage, input: Input)
    requires Generated(c) && StageOk(c, stage)
    requires SenderDeciding(stage)
    ensures Next(c, SessionAt(c, stage), SenderRuns(input)) == SessionAt(c, Proceed(c, stage, SenderRuns(input)))
    ensures StageOk(c, Proceed(c, stage, SenderRuns(input)))
  {
    if stage.TokenAnswered? {
      SenderJudgesToken(c, input);
    }
  }

  /** The sender's user is asked for a PIN. */
  predicate SenderPrompts(stage: Stage) {
    stage.SenderEntering? || stage.HopelessEntering? || stage.UnaskedEntering?
  }

  lemma SenderEnters(c: Config, stage: Stage, input: Input)
    requires Generated(c) && StageOk(c, stage)
    requires SenderPrompts(stage)
    ensures Next(c, SessionAt(c, stage), SenderRuns(input)) == SessionAt(c, Proceed(c, stage, SenderRuns(input)))
    ensures StageOk(c, Proceed(c, stage, SenderRuns(input)))
  {
  }

  predicate SenderGreets(stage: Stage) {
    stage.Begun? || stage.NonceAnswered? || stage.TokenRefused?
  }

  lemma SenderOpens(c: Config, stage: Stage, input: Input)
    requires Generated(c) && StageOk(c, stage)
    requires SenderGreets(stage)
    ensures Next(c, SessionAt(c, stage), SenderRuns(input)) == SessionAt(c, Proceed(c, stage, SenderRuns(input)))
    ensures StageOk(c, Proceed(c, stage, SenderRuns(input)))
  {
    hide AfterTokens, SenderPassed, ReceiverChallenge, SenderChallenge, OffTheRails;
  }

  lemma SenderGoesOn(c: Config, stage: Stage, input: Input)
    requires Generated(c) && StageOk(c, stage)
    requires SenderMoving(stage) && !SenderPrompts(stage) && !SenderGreets(stage)
    ensures Next(c, SessionAt(c, stage), SenderRuns(input)) == SessionAt(c, Proceed(c, stage, SenderRuns(input)))
    ensures StageOk(c, Proceed(c, stage, SenderRuns(input)))
  {
    hide AfterTokens, SenderPassed, ReceiverChallenge, SenderChallenge, OffTheRails;
  }

  lemma SenderMoves(c: Config, stage: Stage, input: Input)
    requires Generated(c) && StageOk(c, stage)
    requires SenderMoving(stage)
    ensures Next(c, SessionAt(c, stage), SenderRuns(input)) == SessionAt(c, Proceed(c, stage, SenderRuns(input)))
    ensures StageOk(c, Proceed(c, stage, SenderRuns(input)))
  {
    hide Next, SessionAt, Proceed, StageOk;
    if SenderPrompts(stage) {
      SenderEnters(c, stage, input);
    } else if SenderGreets(stage) {
      SenderOpens(c, stage, input);
    } else {
      SenderGoesOn(c, stage, input);
    }
  }

  /** When it is not the sender's turn, it waits: nothing has arrived for it. */
  lemma SenderWaits(c: Config, stage: Stage, input: Input)
    requires Generated(c) && StageOk(c, stage)
    requires !(SenderDeciding(stage))
    requires !(SenderMoving(stage)) && !stage.Derailed?
    ensures Proceed(c, stage, SenderRuns(input)) == stage
    ensures Next(c, SessionAt(c, stage), SenderRuns(input)) == SessionAt(c, stage)
  {
  }

  lemma SenderDerailed(c: Config, stage: Stage, input: Input)
    requires Generated(c) && StageOk(c, stage)
    requires stage.Derailed?
    ensures Next(c, SessionAt(c, stage), SenderRuns(input)) == SessionAt(c, Proceed(c, stage, SenderRuns(input)))
    ensures StageOk(c, Proceed(c, stage, SenderRuns(input)))
  {
  }

  lemma SenderProceeds(c: Config, stage: Stage, input: Input)
    requires Generated(c) && StageOk(c, stage)
    ensures Next(c, SessionAt(c, stage), SenderRuns(input)) == SessionAt(c, Proceed(c, stage, SenderRuns(input)))
    ensures StageOk(c, Proceed(c, stage, SenderRuns(input)))
  {
    if SenderDeciding(stage) {
      SenderDecides(c, stage, input);
    } else if SenderMoving(stage) {
      SenderMoves(c, stage, input);
    } else if stage.Derailed? {
      SenderDerailed(c, stage, input);
    } else {
      SenderWaits(c, stage, input);
    }
  }

  lemma ReceiverDecides(c: Config, stage: Stage, input: Input)
    requires Generated(c) && StageOk(c, stage)
    requires ReceiverDeciding(stage)
    ensures Next(c, SessionAt(c, stage), ReceiverRuns(input)) == SessionAt(c, Proceed(c, stage, ReceiverRuns(input)))
    ensures StageOk(c, Proceed(c, stage, ReceiverRuns(input)))
  {
  }

  /** The receiver's user is asked for a PIN or for a selection. */
  predicate ReceiverPrompts(stage: Stage) {
    stage.ReceiverEntering? || stage.BothConnected?
  }

  lemma ReceiverEnters(c: Config, stage: Stage, input: Input)
    requires Generated(c) && StageOk(c, stage)
    requires ReceiverPrompts(stage)
    ensures Next(c, SessionAt(c, stage), ReceiverRuns(input)) == SessionAt(c, Proceed(c, stage, ReceiverRuns(input)))
    ensures StageOk(c, Proceed(c, stage, ReceiverRuns(input)))
  {
  }

  lemma ReceiverGoesOn(c: Config, stage: Stage, input: Input)
    requires Generated(c) && StageOk(c, stage)
    requires ReceiverMoving(stage) && !ReceiverPrompts(stage)
    ensures Next(c, SessionAt(c, stage), ReceiverRuns(input)) == SessionAt(c, Proceed(c, stage, ReceiverRuns(input)))
    ensures StageOk(c, Proceed(c, stage, ReceiverRuns(input)))
  {
    hide AfterTokens, SenderPassed, ReceiverChallenge, SenderChallenge, OffTheRails;
  }

  lemma ReceiverMoves(c: Config, stage: Stage, input: Input)
    requires Generated(c) && StageOk(c, stage)
    requires ReceiverMoving(stage)
    ensures Next(c, SessionAt(c, stage), ReceiverRuns(input)) == SessionAt(c, Proceed(c, stage, ReceiverRuns(input)))
    ensures StageOk(c, Proceed(c, stage, ReceiverRuns(input)))
  {
    hide Next, SessionAt, Proceed, StageOk;
    if ReceiverPrompts(stage) { ReceiverEnters(c, stage, input); } else { ReceiverGoesOn(c, stage, input); }
  }

  /** When it is not the receiver's turn, it waits: nothing has arrived for it. */
  lemma ReceiverWaits(c: Config, stage: Stage, input: Input)
    requires Generated(c) && StageOk(c, stage)
    requires !(ReceiverDeciding(stage))
    requires !(ReceiverMoving(stage)) && !stage.Derailed?
    ensures Proceed(c, stage, ReceiverRuns(input)) == stage
    ensures Next(c, SessionAt(c, stage), ReceiverRuns(input)) == SessionAt(c, stage)
  {
  }

  lemma ReceiverDerailed(c: Config, stage: Stage, input: Input)
    requires Generated(c) && StageOk(c, stage)
    requires stage.Derailed?
    ensures Next(c, SessionAt(c, stage), ReceiverRuns(input)) == SessionAt(c, Proceed(c, stage, ReceiverRuns(input)))
    ensures StageOk(c, Proceed(c, stage, ReceiverRuns(input)))
  {
  }

  lemma ReceiverProceeds(c: Config, stage: Stage, input: Input)
    requires Generated(c) && StageOk(c, stage)
    ensures Next(c, SessionAt(c, stage), ReceiverRuns(input)) == SessionAt(c, Proceed(c, stage, ReceiverRuns(input)))
    ensures StageOk(c, Proceed(c, stage, ReceiverRuns(input)))
  {
    if ReceiverDeciding(stage) {
      ReceiverDecides(c, stage, input);
    } else if ReceiverMoving(stage) {
      ReceiverMoves(c, stage, input);
    } else if stage.Derailed? {
      ReceiverDerailed(c, stage, input);
    } else {
      ReceiverWaits(c, stage, input);
    }
  }

  /** The point the dialogue has reached after a run. */
  function DialogueTo(c: Config, es: seq<Event>): Stage {
    if es == [] then Begun else Proceed(c, DialogueTo(c, es[..|es| - 1]), es[|es| - 1])
  }

  /** Main result: in every interleaving the two endpoints and their queues are at one of the
      points of the dialogue, the one reached by the turns taken so far. */
  lemma {:induction false} FollowsDialogue(c: Config, es: seq<Event>)
    requires Generated(c)
    ensures RunTo(c, es) == SessionAt(c, DialogueTo(c, es))
    ensures StageOk(c, DialogueTo(c, es))
  {
    if es != [] {
      var before := es[..|es| - 1];
      FollowsDialogue(c, before);
      match es[|es| - 1]
      case SenderRuns(input) => SenderProceeds(c, DialogueTo(c, before), input);
      case ReceiverRuns(input) => ReceiverProceeds(c, DialogueTo(c, before), input);
    }
  }
}
