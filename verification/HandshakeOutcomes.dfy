/** What the dialogue guarantees: messages arrive in phase, the two sides agree, every session
    settles after boundedly many turns, and the entered PINs decide how. */
module HandshakeOutcomes {
  import opened Common
  import opened Pin
  import opened Handshake
  import opened HandshakeDialogue

  // ----- messages in phase -----

  /** The kinds of message a waiting sender is prepared for. */
  predicate SenderExpects(s: Sender, m: Msg) {
    match s
    case SAwaitNonce => m.Nonce?
    case SAwaitToken(_) => m.TokenResponse? || m.InvalidSignature?
    case SAwaitPinReply(_) => m.PinReply?
    case SAwaitPin(_, _) => m.PinMessage?
    case SConnected(_) => m.FileListResponse?
    case _ => true
  }

  /** A first PIN status must not say that the tries are used up. */
  predicate ReceiverExpects(r: Receiver, m: Msg) {
    match r
    case RAwaitNonce => m.Nonce?
    case RAwaitToken(_) => m.TokenRequest?
    case RAwaitPin(_, _) => m.PinMessage?
    case RAwaitStatus(_) => m.PinStatus? && m.status != StatusTooMany
    case RAwaitPinStatus(_) => m.PinStatus?
    case _ => true
  }

  ghost predicate InPhase(j: Session) {
    && (j.toSender != [] ==> SenderExpects(j.sender, j.toSender[0]))
    && (j.toReceiver != [] ==> ReceiverExpects(j.receiver, j.toReceiver[0]))
    && j.sender != SStopped(UnexpectedMessage) && j.receiver != RStopped(UnexpectedMessage)
  }

  lemma StageInPhase(c: Config, stage: Stage)
    requires StageOk(c, stage) && !Broken(c)
    ensures InPhase(SessionAt(c, stage))
  {
  }

  lemma AlwaysInPhase(c: Config, es: seq<Event>)
    requires Generated(c) && !Broken(c)
    ensures InPhase(RunTo(c, es))
  {
    FollowsDialogue(c, es);
    StageInPhase(c, DialogueTo(c, es));
  }

  lemma OneMore(c: Config, es: seq<Event>, e: Event)
    ensures RunTo(c, es + [e]) == Next(c, RunTo(c, es), e)
    ensures DialogueTo(c, es + [e]) == Proceed(c, DialogueTo(c, es), e)
  {
    assert (es + [e])[..|es + [e]| - 1] == es;
  }

  /** Taking turns up to the receiver's token. */
  lemma Opens(c: Config) returns (es: seq<Event>)
    requires Generated(c) && SenderTokenGood(c)
    ensures DialogueTo(c, es) == TokenAnswered
  {
    var s, r := SenderRuns(NoAnswer), ReceiverRuns(NoAnswer);
    OneMore(c, [], s);
    OneMore(c, [] + [s], r);
    OneMore(c, [] + [s] + [r], s);
    OneMore(c, [] + [s] + [r] + [s], r);
    es := [] + [s] + [r] + [s] + [r];
  }

  /** Taking turns up to the end of the receiver's challenge, entering the right PIN at once. */
  lemma PassesReceiver(c: Config, es: seq<Event>) returns (more: seq<Event>)
    requires DialogueTo(c, es) == SenderEntering(0) && c.receiverPin.Some?
    ensures DialogueTo(c, more) == SenderGranted
  {
    var enter := SenderRuns(EnterPin(c.receiverPin.value.pin));
    OneMore(c, es, enter);
    OneMore(c, es + [enter], ReceiverRuns(NoAnswer));
    more := es + [enter] + [ReceiverRuns(NoAnswer)];
  }

  /** With a broken PIN setup, the dialogue has one of three ways to go on after the tokens. */
  lemma AfterTokensOnTheWay(c: Config)
    requires Broken(c)
    ensures AfterTokens(c) ==
      if c.receiverPin.None? then SenderPassed(c) else if c.receiverPin.value.pin == "" then UnaskedEntering
      else SenderEntering(0)
    ensures c.receiverPin.None? || c.receiverPin.value.pin != "" ==> SenderPassed(c).Derailed?
  {
  }

  /** Taking turns up to the point where the dialogue derails. */
  lemma Derails(c: Config) returns (es: seq<Event>)
    requires Generated(c) && Broken(c)
    ensures DialogueTo(c, es).Derailed?
  {
    hide SessionAt, Next, RunTo, AfterTokens, SenderPassed, DialogueTo;
    var s := SenderRuns(NoAnswer);
    var open := Opens(c);
    OneMore(c, open, s);
    es := open + [s];
    AfterTokensOnTheWay(c);
    if c.receiverPin.Some? {
      if c.receiverPin.value.pin == "" {
        assert DialogueTo(c, es) == UnaskedEntering;
        OneMore(c, es, SenderRuns(EnterPin("")));
        es := es + [SenderRuns(EnterPin(""))];
      } else {
        var passed := PassesReceiver(c, es);
        OneMore(c, passed, s);
        es := passed + [s];
      }
    }
  }

  lemma DerailedIsOutOfPhase(c: Config, stage: Stage)
    requires StageOk(c, stage) && stage.Derailed?
    ensures !InPhase(SessionAt(c, stage))
  {
  }

  /** Main result: in every reachable state the next message is one the reader's phase expects,
      for all PINs the users may enter, if and only if the PIN setup is not broken. */
  lemma InPhaseIff(c: Config)
    requires Generated(c)
    ensures (forall es :: InPhase(RunTo(c, es))) <==> !Broken(c)
  {
    if Broken(c) {
      var es := Derails(c);
      FollowsDialogue(c, es);
      DerailedIsOutOfPhase(c, DialogueTo(c, es));
    } else {
      forall es ensures InPhase(RunTo(c, es)) { AlwaysInPhase(c, es); }
    }
  }

  // ----- agreement -----

  function SenderNonce(s: Sender): Option<Bytes> {
    match s
    case SAwaitToken(n) => Some(n)
    case SEnterPin(n) => Some(n)
    case SAwaitPinReply(n) => Some(n)
    case SAwaitPin(n, _) => Some(n)
    case SConnected(n) => Some(n)
    case SStreaming(n, _) => Some(n)
    case _ => None
  }

  function ReceiverNonce(r: Receiver): Option<Bytes> {
    match r
    case RAwaitToken(n) => Some(n)
    case RAwaitPin(n, _) => Some(n)
    case RAwaitStatus(n) => Some(n)
    case REnterPin(n) => Some(n)
    case RAwaitPinStatus(n) => Some(n)
    case RConnected(n, _) => Some(n)
    case RStreaming(n, _, _) => Some(n)
    case _ => None
  }

  predicate ReceiverConnected(r: Receiver) { r.RConnected? || r.RStreaming? || r.RDeclined? }

  ghost predicate AgreeOnNonce(c: Config, j: Session) {
    && (SenderNonce(j.sender).Some? ==> SenderNonce(j.sender).value == c.senderNonce + c.receiverNonce)
    && (ReceiverNonce(j.receiver).Some? ==> ReceiverNonce(j.receiver).value == c.senderNonce + c.receiverNonce)
  }

  ghost predicate AgreeOnFiles(c: Config, j: Session) {
    && (j.receiver.RConnected? || j.receiver.RStreaming? ==> j.receiver.files == c.files)
    && (ReceiverConnected(j.receiver) ==> BothTokensGood(c))
    && (j.sender.SStreaming? ==>
          j.receiver.RStreaming? && j.receiver.tokens == j.sender.tokens && j.toReceiver == [] == j.toSender)
    && (j.sender.SDeclined? ==> j.receiver.RDeclined?)
  }

  /** The two sides never disagree on the nonce, the offered files, the file tokens, or whether
      the offer was declined; and nobody connects past a bad token. */
  lemma Agreement(c: Config, es: seq<Event>)
    requires Generated(c)
    ensures AgreeOnNonce(c, RunTo(c, es)) && AgreeOnFiles(c, RunTo(c, es))
  {
    FollowsDialogue(c, es);
    StageAgreesOnNonce(c, DialogueTo(c, es));
    StageAgreesOnFiles(c, DialogueTo(c, es));
  }

  lemma StageAgreesOnNonce(c: Config, stage: Stage)
    requires StageOk(c, stage)
    ensures AgreeOnNonce(c, SessionAt(c, stage))
  {
    if stage.TokenAnswered? {
      assert SenderNonce(SessionAt(c, stage).sender) == Some(Agreed(c));
    }
  }

  lemma StageAgreesOnFiles(c: Config, stage: Stage)
    requires StageOk(c, stage)
    ensures AgreeOnFiles(c, SessionAt(c, stage))
  {
  }

  // ----- settling -----

  ghost predicate Unmoved(c: Config, j: Session, e: Event) {
    Next(c, j, e) == j
  }

  ghost predicate Settled(c: Config, j: Session) {
    forall e :: Unmoved(c, j, e)
  }

  ghost predicate TransferBegins(c: Config, j: Session) {
    j.sender.SStreaming? && j == SessionAt(c, Transferring(j.sender.tokens))
  }

  lemma StageSettled(c: Config, stage: Stage)
    requires Generated(c) && StageOk(c, stage) && Settled(c, SessionAt(c, stage))
    ensures var j := SessionAt(c, stage);
      TransferBegins(c, j) || Ending(c, j.sender, j.receiver)
      || (Broken(c) && SenderOver(j.sender) && j.receiver == RStopped(UnexpectedMessage))
  {
    var j := SessionAt(c, stage);
    assert Unmoved(c, j, SenderRuns(NoAnswer)) && Unmoved(c, j, ReceiverRuns(NoAnswer));
    if !stage.Derailed? {
      SenderProceeds(c, stage, NoAnswer);
      ReceiverProceeds(c, stage, NoAnswer);
    }
  }

  /** A session that nothing can change any more has begun the transfer with both sides agreed,
      or has ended in one of a few ways for both sides. */
  lemma SettledOutcomes(c: Config, es: seq<Event>)
    requires Generated(c) && Settled(c, RunTo(c, es))
    ensures var j := RunTo(c, es);
      TransferBegins(c, j) || Ending(c, j.sender, j.receiver)
      || (Broken(c) && SenderOver(j.sender) && j.receiver == RStopped(UnexpectedMessage))
  {
    FollowsDialogue(c, es);
    StageSettled(c, DialogueTo(c, es));
  }

  function Tries(pin: Option<PinConfig>): nat {
    if pin.None? then 0 else pin.value.maxTries as nat
  }

  /** An upper bound for the turns still to be taken. */
  function Rank(c: Config, stage: Stage): int {
    var t, u := Tries(c.receiverPin), Tries(c.senderPin);
    match stage
    case Begun => 12 + 3 * u + 3 * t
    case NonceSent => 11 + 3 * u + 3 * t
    case NonceAnswered => 10 + 3 * u + 3 * t
    case TokenSent => 9 + 3 * u + 3 * t
    case TokenAnswered => 8 + 3 * u + 3 * t
    case SenderAskedAgain(k) => 8 + 3 * u + 3 * (t - k)
    case SenderEntering(k) => 7 + 3 * u + 3 * (t - k)
    case SenderEntered(k, _) => 6 + 3 * u + 3 * (t - k)
    case SenderGranted => 6 + 3 * u
    case StatusAsked => 5 + 3 * u
    case ReceiverAskedAgain(k) => 5 + 3 * (u - k)
    case ReceiverEntering(k) => 4 + 3 * (u - k)
    case ReceiverEntered(k, _) => 3 + 3 * (u - k)
    case UnaskedEntering => 4
    case FilesSent(_) => 3
    case BothConnected => 2
    case HopelessEntering => 2
    case Transferring(_) => 0
    case Over(_, _, _, _) => 0
    case Derailed(j) =>
      (if j.sender.SAwaitPinReply? then 2 else if j.sender.SConnected? || j.sender.SAwaitPin? then 1 else 0)
      + (if j.receiver.RAwaitStatus? then 1 else 0)
    case _ => 1
  }

  ghost predicate RankDrops(c: Config, stage: Stage, next: Stage) {
    next == stage || 0 <= Rank(c, next) < Rank(c, stage)
  }

  lemma RankDropsOnSenderDecision(c: Config, stage: Stage, input: Input)
    requires StageOk(c, stage) && SenderDeciding(stage)
    ensures RankDrops(c, stage, Proceed(c, stage, SenderRuns(input)))
  {
  }

  lemma RankDropsOnReceiverDecision(c: Config, stage: Stage, input: Input)
    requires StageOk(c, stage) && ReceiverDeciding(stage)
    ensures RankDrops(c, stage, Proceed(c, stage, ReceiverRuns(input)))
  {
  }

  lemma RankDropsOnSenderMove(c: Config, stage: Stage, input: Input)
    requires Generated(c) && StageOk(c, stage) && SenderMoving(stage)
    ensures RankDrops(c, stage, Proceed(c, stage, SenderRuns(input)))
  {
  }

  lemma RankDropsOnReceiverMove(c: Config, stage: Stage, input: Input)
    requires Generated(c) && StageOk(c, stage) && ReceiverMoving(stage)
    ensures RankDrops(c, stage, Proceed(c, stage, ReceiverRuns(input)))
  {
  }

  lemma RankDropsOffTheRails(c: Config, stage: Stage, input: Input)
    requires Generated(c) && StageOk(c, stage) && stage.Derailed?
    ensures RankDrops(c, stage, Proceed(c, stage, SenderRuns(input)))
    ensures RankDrops(c, stage, Proceed(c, stage, ReceiverRuns(input)))
  {
  }

  lemma RankDropsForSender(c: Config, stage: Stage, input: Input)
    requires Generated(c) && StageOk(c, stage)
    ensures RankDrops(c, stage, Proceed(c, stage, SenderRuns(input)))
  {
    hide Rank;
    if SenderDeciding(stage) {
      RankDropsOnSenderDecision(c, stage, input);
    } else if SenderMoving(stage) {
      RankDropsOnSenderMove(c, stage, input);
    } else if stage.Derailed? {
      RankDropsOffTheRails(c, stage, input);
    } else {
      SenderWaits(c, stage, input);
    }
  }

  lemma RankDropsForReceiver(c: Config, stage: Stage, input: Input)
    requires Generated(c) && StageOk(c, stage)
    ensures RankDrops(c, stage, Proceed(c, stage, ReceiverRuns(input)))
  {
    hide Rank;
    if ReceiverDeciding(stage) {
      RankDropsOnReceiverDecision(c, stage, input);
    } else if ReceiverMoving(stage) {
      RankDropsOnReceiverMove(c, stage, input);
    } else if stage.Derailed? {
      RankDropsOffTheRails(c, stage, input);
    } else {
      ReceiverWaits(c, stage, input);
    }
  }

  /** How many events of the run changed anything. */
  function Turns(c: Config, es: seq<Event>): nat {
    if es == [] then 0
    else Turns(c, es[..|es| - 1]) + (if RunTo(c, es) == RunTo(c, es[..|es| - 1]) then 0 else 1)
  }

  function Limit(c: Config): nat { 12 + 3 * Tries(c.receiverPin) + 3 * Tries(c.senderPin) }

  lemma {:induction false} TurnsAndRank(c: Config, es: seq<Event>)
    requires Generated(c)
    ensures 0 <= Rank(c, DialogueTo(c, es)) <= Limit(c) - Turns(c, es)
  {
    if es != [] {
      var before := es[..|es| - 1];
      TurnsAndRank(c, before);
      FollowsDialogue(c, before);
      FollowsDialogue(c, es);
      match es[|es| - 1]
      case SenderRuns(input) => RankDropsForSender(c, DialogueTo(c, before), input);
      case ReceiverRuns(input) => RankDropsForReceiver(c, DialogueTo(c, before), input);
    }
  }

  /** However long a run and whatever is entered, only so many of its events change anything. */
  lemma TurnsAreBounded(c: Config, es: seq<Event>)
    requires Generated(c)
    ensures Turns(c, es) <= 12 + 3 * Tries(c.receiverPin) + 3 * Tries(c.senderPin)
  {
    TurnsAndRank(c, es);
  }

  lemma ATurnCounts(c: Config, es: seq<Event>) returns (e: Event)
    requires Generated(c) && !Settled(c, RunTo(c, es))
    ensures Turns(c, es + [e]) == Turns(c, es) + 1 <= Limit(c)
  {
    e :| !Unmoved(c, RunTo(c, es), e);
    OneMore(c, es, e);
    assert (es + [e])[..|es + [e]| - 1] == es;
    TurnsAndRank(c, es + [e]);
  }

  /** No deadlock: from every reachable state the session can be brought to settle. */
  lemma {:induction false} CanSettle(c: Config, es: seq<Event>, left: nat) returns (more: seq<Event>)
    requires Generated(c) && left == Limit(c) - Turns(c, es)
    ensures Settled(c, RunTo(c, es + more)) && |more| <= left
    decreases left
  {
    hide *;
    if Settled(c, RunTo(c, es)) {
      more := [];
      assert es + [] == es;
    } else {
      var e := ATurnCounts(c, es);
      var rest := CanSettle(c, es + [e], left - 1);
      more := [e] + rest;
      assert es + more == es + [e] + rest;
    }
  }

  // ----- the PINs decide -----

  function SenderEntry(j: Session, e: Event): seq<string> {
    if j.sender.SEnterPin? && e.SenderRuns? && e.input.EnterPin? then [e.input.pin] else []
  }

  function ReceiverEntry(j: Session, e: Event): seq<string> {
    if j.receiver.REnterPin? && e.ReceiverRuns? && e.input.EnterPin? then [e.input.pin] else []
  }

  /** The PINs entered on the sender's side, for the receiver to judge. */
  function SenderEntries(c: Config, es: seq<Event>): seq<string> {
    if es == [] then []
    else SenderEntries(c, es[..|es| - 1]) + SenderEntry(RunTo(c, es[..|es| - 1]), es[|es| - 1])
  }

  function ReceiverEntries(c: Config, es: seq<Event>): seq<string> {
    if es == [] then []
    else ReceiverEntries(c, es[..|es| - 1]) + ReceiverEntry(RunTo(c, es[..|es| - 1]), es[|es| - 1])
  }

  /** The challenge is not posed at all, or passed with the last of the entered PINs. */
  predicate Cleared(pin: Option<PinConfig>, entered: seq<string>) {
    if pin.None? || pin.value.pin == "" then entered == []
    else Outcome(pin.value, entered).Verified? && Taken(pin.value, entered) == |entered|
  }

  predicate Lost(pin: Option<PinConfig>, entered: seq<string>) {
    pin.Some? && pin.value.pin != "" && Outcome(pin.value, entered).Exhausted?
  }

  /** The next PIN to enter has number `k`, counted from zero. */
  predicate Undecided(pin: Option<PinConfig>, entered: seq<string>, k: nat) {
    pin.Some? && |entered| == k && FirstMatch(entered, pin.value.pin) == k
  }

  predicate LastIs(pin: Option<PinConfig>, entered: seq<string>, k: nat, last: string) {
    |entered| == k + 1 && entered[k] == last && Undecided(pin, entered[..k], k)
  }

  /** What the entered PINs have to do with the point of the dialogue. */
  ghost predicate Explained(c: Config, stage: Stage, s: seq<string>, r: seq<string>) {
    match stage
    case Begun => s == [] && r == []
    case NonceSent => s == [] && r == []
    case NonceAnswered => s == [] && r == []
    case TokenSent => s == [] && r == []
    case TokenAnswered => s == [] && r == []
    case HopelessEntering => s == [] && r == []
    case HopelessEntered(pin) => Lost(c.receiverPin, s) && r == []
    case SenderEntering(k) => Undecided(c.receiverPin, s, k) && r == []
    case SenderAskedAgain(k) => Undecided(c.receiverPin, s, k) && r == []
    case SenderEntered(k, pin) => LastIs(c.receiverPin, s, k, pin) && r == []
    case SenderRefused => Lost(c.receiverPin, s) && r == []
    case SenderGranted => Cleared(c.receiverPin, s) && r == []
    case StatusAsked => Cleared(c.receiverPin, s) && r == []
    case ReceiverEntering(k) => Cleared(c.receiverPin, s) && Undecided(c.senderPin, r, k)
    case ReceiverAskedAgain(k) => Cleared(c.receiverPin, s) && Undecided(c.senderPin, r, k)
    case ReceiverEntered(k, pin) => Cleared(c.receiverPin, s) && LastIs(c.senderPin, r, k, pin)
    case ReceiverRefused => Cleared(c.receiverPin, s) && Lost(c.senderPin, r)
    case FilesSent(_) => Cleared(c.receiverPin, s) && Cleared(c.senderPin, r)
    case BothConnected => Cleared(c.receiverPin, s) && Cleared(c.senderPin, r)
    case ChoiceSent(_) => Cleared(c.receiverPin, s) && Cleared(c.senderPin, r)
    case DeclineSent => Cleared(c.receiverPin, s) && Cleared(c.senderPin, r)
    case Transferring(_) => Cleared(c.receiverPin, s) && Cleared(c.senderPin, r)
    case Over(SDeclined, _, _, _) => Cleared(c.receiverPin, s) && Cleared(c.senderPin, r)
    case Over(SStopped(OutOfTries), _, _, _) =>
      Lost(c.receiverPin, s) || (Cleared(c.receiverPin, s) && Lost(c.senderPin, r))
    case _ => true
  }

  lemma Judged(pin: Option<PinConfig>, entered: seq<string>, k: nat, last: string)
    requires pin.Some? && pin.value.pin != "" && k < pin.value.maxTries as nat && LastIs(pin, entered, k, last)
    ensures last == pin.value.pin ==> Cleared(pin, entered)
    ensures last != pin.value.pin && k + 1 >= pin.value.maxTries as nat ==> Lost(pin, entered)
    ensures last != pin.value.pin ==> Undecided(pin, entered, k + 1)
  {
    var m := FirstMatch(entered, pin.value.pin);
    forall i | 0 <= i < k ensures entered[i] != pin.value.pin { assert entered[..k][i] != pin.value.pin; }
    assert m >= k;
  }

  lemma SenderDecisionExplained(c: Config, stage: Stage, input: Input, s: seq<string>, r: seq<string>)
    requires Generated(c) && StageOk(c, stage) && Explained(c, stage, s, r) && SenderDeciding(stage)
    ensures Explained(c, Proceed(c, stage, SenderRuns(input)), s, r)
  {
    match stage
    case ReceiverEntered(k, pin) => Judged(c.senderPin, r, k, pin);
    case _ =>
  }

  lemma SenderExplained(c: Config, stage: Stage, input: Input, s: seq<string>, r: seq<string>)
    requires Generated(c) && StageOk(c, stage) && Explained(c, stage, s, r)
    ensures var e := SenderRuns(input);
      Explained(c, Proceed(c, stage, e), s + SenderEntry(SessionAt(c, stage), e), r)
  {
    assert s + [] == s;
    hide StageOk, Explained, Proceed;
    if SenderDeciding(stage) {
      SenderDecisionExplained(c, stage, input, s, r);
      DecidingEntersNothing(c, stage, SenderRuns(input));
    } else if SenderPrompts(stage) {
      SenderEntryExplained(c, stage, input, s, r);
    } else {
      OtherSenderExplained(c, stage, input, s, r);
    }
  }

  lemma DecidingEntersNothing(c: Config, stage: Stage, e: Event)
    requires StageOk(c, stage)
    ensures SenderDeciding(stage) && e.SenderRuns? ==> SenderEntry(SessionAt(c, stage), e) == []
    ensures ReceiverDeciding(stage) && e.ReceiverRuns? ==> ReceiverEntry(SessionAt(c, stage), e) == []
  {
  }

  lemma SenderEntryExplained(c: Config, stage: Stage, input: Input, s: seq<string>, r: seq<string>)
    requires StageOk(c, stage) && Explained(c, stage, s, r) && SenderPrompts(stage)
    ensures var e := SenderRuns(input);
      Explained(c, Proceed(c, stage, e), s + SenderEntry(SessionAt(c, stage), e), r)
  {
    assert s + [] == s;
    if stage.SenderEntering? && input.EnterPin? {
      assert (s + [input.pin])[..stage.tries] == s;
    }
  }

  lemma OtherSenderExplained(c: Config, stage: Stage, input: Input, s: seq<string>, r: seq<string>)
    requires StageOk(c, stage) && Explained(c, stage, s, r) && !SenderDeciding(stage) && !SenderPrompts(stage)
    ensures var e := SenderRuns(input);
      Explained(c, Proceed(c, stage, e), s + SenderEntry(SessionAt(c, stage), e), r)
  {
    hide Cleared, Lost, Undecided, LastIs;
    assert s + [] == s;
  }

  lemma ReceiverExplained(c: Config, stage: Stage, input: Input, s: seq<string>, r: seq<string>)
    requires Generated(c) && StageOk(c, stage) && Explained(c, stage, s, r)
    ensures var e := ReceiverRuns(input);
      Explained(c, Proceed(c, stage, e), s, r + ReceiverEntry(SessionAt(c, stage), e))
  {
    assert r + [] == r;
    hide StageOk, Explained, Proceed;
    if ReceiverDeciding(stage) {
      ReceiverDecisionExplained(c, stage, input, s, r);
      DecidingEntersNothing(c, stage, ReceiverRuns(input));
    } else if ReceiverPrompts(stage) {
      ReceiverEntryExplained(c, stage, input, s, r);
    } else {
      OtherReceiverExplained(c, stage, input, s, r);
    }
  }

  lemma ReceiverDecisionExplained(c: Config, stage: Stage, input: Input, s: seq<string>, r: seq<string>)
    requires Generated(c) && StageOk(c, stage) && Explained(c, stage, s, r) && ReceiverDeciding(stage)
    ensures Explained(c, Proceed(c, stage, ReceiverRuns(input)), s, r)
  {
    if stage.SenderEntered? { Judged(c.receiverPin, s, stage.tries, stage.pin); }
  }

  lemma ReceiverEntryExplained(c: Config, stage: Stage, input: Input, s: seq<string>, r: seq<string>)
    requires StageOk(c, stage) && Explained(c, stage, s, r) && ReceiverPrompts(stage)
    ensures var e := ReceiverRuns(input);
      Explained(c, Proceed(c, stage, e), s, r + ReceiverEntry(SessionAt(c, stage), e))
  {
    assert r + [] == r;
    if stage.ReceiverEntering? && input.EnterPin? {
      assert (r + [input.pin])[..stage.tries] == r;
    }
  }

  lemma OtherReceiverExplained(c: Config, stage: Stage, input: Input, s: seq<string>, r: seq<string>)
    requires StageOk(c, stage) && Explained(c, stage, s, r) && !ReceiverDeciding(stage) && !ReceiverPrompts(stage)
    ensures var e := ReceiverRuns(input);
      Explained(c, Proceed(c, stage, e), s, r + ReceiverEntry(SessionAt(c, stage), e))
  {
    hide Cleared, Lost, LastIs;
    assert r + [] == r;
  }

  lemma {:induction false} RunExplained(c: Config, es: seq<Event>)
    requires Generated(c)
    ensures Explained(c, DialogueTo(c, es), SenderEntries(c, es), ReceiverEntries(c, es))
  {
    if es != [] {
      var before, e := es[..|es| - 1], es[|es| - 1];
      RunExplained(c, before);
      FollowsDialogue(c, before);
      var s, r := SenderEntries(c, before), ReceiverEntries(c, before);
      assert s + [] == s && r + [] == r;
      match e
      case SenderRuns(input) => SenderExplained(c, DialogueTo(c, before), input, s, r);
      case ReceiverRuns(input) => ReceiverExplained(c, DialogueTo(c, before), input, s, r);
    }
  }

  /** Nobody connects unless every challenge posed has been passed with one of the allowed tries. */
  lemma ConnectedOnlyWithPins(c: Config, es: seq<Event>)
    requires Generated(c) && ReceiverConnected(RunTo(c, es).receiver)
    ensures Cleared(c.receiverPin, SenderEntries(c, es)) && Cleared(c.senderPin, ReceiverEntries(c, es))
  {
    hide *;
    RunExplained(c, es);
    FollowsDialogue(c, es);
    ConnectedStage(c, DialogueTo(c, es), SenderEntries(c, es), ReceiverEntries(c, es));
  }

  lemma ConnectedStage(c: Config, stage: Stage, s: seq<string>, r: seq<string>)
    requires StageOk(c, stage) && Explained(c, stage, s, r) && ReceiverConnected(SessionAt(c, stage).receiver)
    ensures Cleared(c.receiverPin, s) && Cleared(c.senderPin, r)
  {
    hide Cleared, Lost, Undecided, LastIs;
  }

  /** The same at a single point of the dialogue. */
  lemma StageDecides(c: Config, stage: Stage, s: seq<string>, r: seq<string>)
    requires StageOk(c, stage) && Explained(c, stage, s, r) && BothTokensGood(c)
    requires var j := SessionAt(c, stage);
      TransferBegins(c, j) || (j.sender == SDeclined && j.receiver == RDeclined)
    ensures Cleared(c.receiverPin, s) && Cleared(c.senderPin, r)
  {
  }

  lemma StageRefuses(c: Config, stage: Stage, s: seq<string>, r: seq<string>)
    requires StageOk(c, stage) && Explained(c, stage, s, r) && BothTokensGood(c)
    requires var j := SessionAt(c, stage); j.sender == SStopped(OutOfTries) && j.receiver == RStopped(OutOfTries)
    ensures Lost(c.receiverPin, s) || (Cleared(c.receiverPin, s) && Lost(c.senderPin, r))
  {
  }

  /** Main result: with good tokens and a PIN setup that is not broken, a session that settles
      without anyone withholding an input has both sides connected, agreed and either
      transferring or declined, exactly if both challenges were passed; otherwise it has both
      sides out of tries, exactly if one of the challenges was lost. */
  lemma PinsDecide(c: Config, es: seq<Event>)
    requires Generated(c) && BothTokensGood(c) && !Broken(c) && Settled(c, RunTo(c, es))
    requires var j := RunTo(c, es);
      j.sender != SStopped(MissingInput) && j.receiver != RStopped(MissingInput) && j.receiver != RAbandoned
    ensures var j, s, r := RunTo(c, es), SenderEntries(c, es), ReceiverEntries(c, es);
      var connected := TransferBegins(c, j) || (j.sender == SDeclined && j.receiver == RDeclined);
      var refused := j.sender == SStopped(OutOfTries) && j.receiver == RStopped(OutOfTries);
      && (connected != refused)
      && (connected <==> Cleared(c.receiverPin, s) && Cleared(c.senderPin, r))
      && (refused <==> Lost(c.receiverPin, s) || (Cleared(c.receiverPin, s) && Lost(c.senderPin, r)))
  {
    var j, s, r := RunTo(c, es), SenderEntries(c, es), ReceiverEntries(c, es);
    SettledOutcomes(c, es);
    RunExplained(c, es);
    FollowsDialogue(c, es);
    if j.sender == SStopped(OutOfTries) {
      StageRefuses(c, DialogueTo(c, es), s, r);
    } else {
      StageDecides(c, DialogueTo(c, es), s, r);
    }
  }
}
