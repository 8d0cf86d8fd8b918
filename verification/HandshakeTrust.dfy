/** Nobody gets past a token that does not verify, spelled out in keys and nonces. */
module HandshakeTrust {
  import opened Common
  import opened Pin
  import opened Handshake
  import opened HandshakeDialogue
  import opened HandshakeOutcomes

  /** The receiver is past its check of the sender's token. */
  predicate ReceiverTrusts(r: Receiver) {
    || r.RAwaitPin? || r.RAwaitStatus? || r.REnterPin? || r.RAwaitPinStatus? || r.RConnected? || r.RStreaming?
    || r.RDeclined? || r.RAbandoned? || r == RStopped(OutOfTries) || r == RStopped(MissingInput)
  }

  /** The sender is past its check of the receiver's token. */
  predicate SenderTrusts(s: Sender) {
    || s.SEnterPin? || s.SAwaitPinReply? || s.SAwaitPin? || s.SConnected? || s.SStreaming? || s.SDeclined?
    || s == SStopped(OutOfTries) || s == SStopped(MissingInput)
  }

  lemma StageTrusts(c: Config, stage: Stage)
    requires StageOk(c, stage)
    ensures ReceiverTrusts(SessionAt(c, stage).receiver) ==> SenderTokenGood(c)
    ensures SenderTrusts(SessionAt(c, stage).sender) ==> SenderTokenGood(c) && ReceiverTokenGood(c)
  {
    hide SenderTokenGood, ReceiverTokenGood;
  }

  /** Main result: at every point of every run, a receiver past its check has a token of the
      sender that verifies against the key it expects, over the sender's nonce followed by its
      own; and so has the sender the receiver's. */
  lemma OnlyVerifiedTokensPass(c: Config, es: seq<Event>)
    requires Generated(c)
    ensures var j, n := RunTo(c, es), c.senderNonce + c.receiverNonce;
      && (ReceiverTrusts(j.receiver) && c.receiverExpects.Some? ==>
            c.verify(c.receiverExpects.value, c.sign(c.senderKey, n), n))
      && (SenderTrusts(j.sender) && c.senderExpects.Some? ==>
            c.verify(c.senderExpects.value, c.sign(c.receiverKey, n), n))
  {
    FollowsDialogue(c, es);
    StageTrusts(c, DialogueTo(c, es));
    hide RunTo, SessionAt, StageOk, ReceiverTrusts, SenderTrusts;
  }

  /** Someone has given up because of a token. */
  predicate TokenRejected(j: Session) {
    j.sender == SStopped(BadSignature) || j.receiver == RStopped(BadSignature)
  }

  lemma StageRejects(c: Config, stage: Stage)
    requires StageOk(c, stage) && TokenRejected(SessionAt(c, stage))
    ensures !SenderTokenGood(c) || !ReceiverTokenGood(c)
  {
    hide SenderTokenGood, ReceiverTokenGood;
  }

  lemma OffersToken(c: Config) returns (es: seq<Event>)
    requires Generated(c)
    ensures DialogueTo(c, es) == TokenSent
  {
    var s, r := SenderRuns(NoAnswer), ReceiverRuns(NoAnswer);
    OneMore(c, [], s);
    OneMore(c, [] + [s], r);
    OneMore(c, [] + [s] + [r], s);
    es := [] + [s] + [r] + [s];
  }

  lemma RejectedByReceiver(c: Config)
    requires !SenderTokenGood(c)
    ensures TokenRejected(SessionAt(c, Proceed(c, TokenSent, ReceiverRuns(NoAnswer))))
  {
    hide SenderTokenGood, ReceiverTokenGood;
  }

  lemma RejectedBySender(c: Config)
    requires !ReceiverTokenGood(c)
    ensures TokenRejected(SessionAt(c, Proceed(c, TokenAnswered, SenderRuns(NoAnswer))))
  {
    hide SenderTokenGood, ReceiverTokenGood;
  }

  /** A run that stops at the first token that does not verify. */
  lemma RejectsToken(c: Config) returns (es: seq<Event>)
    requires Generated(c) && !(SenderTokenGood(c) && ReceiverTokenGood(c))
    ensures TokenRejected(SessionAt(c, DialogueTo(c, es)))
  {
    hide SenderTokenGood, ReceiverTokenGood, SessionAt, DialogueTo, Proceed, TokenRejected;
    if SenderTokenGood(c) {
      RejectedBySender(c);
      var open := Opens(c);
      OneMore(c, open, SenderRuns(NoAnswer));
      es := open + [SenderRuns(NoAnswer)];
    } else {
      RejectedByReceiver(c);
      var offered := OffersToken(c);
      OneMore(c, offered, ReceiverRuns(NoAnswer));
      es := offered + [ReceiverRuns(NoAnswer)];
    }
  }

  /** Main result: a run in which a token is rejected exists if and only if one of the tokens does
      not verify against the key the other side expects. */
  lemma TokenRejectedIff(c: Config)
    requires Generated(c)
    ensures var n := c.senderNonce + c.receiverNonce;
      (exists es :: TokenRejected(RunTo(c, es))) <==>
      || (c.receiverExpects.Some? && !c.verify(c.receiverExpects.value, c.sign(c.senderKey, n), n))
      || (c.senderExpects.Some? && !c.verify(c.senderExpects.value, c.sign(c.receiverKey, n), n))
  {
    if SenderTokenGood(c) && ReceiverTokenGood(c) {
      forall es ensures !TokenRejected(RunTo(c, es)) {
        FollowsDialogue(c, es);
        if TokenRejected(RunTo(c, es)) { StageRejects(c, DialogueTo(c, es)); }
      }
    } else {
      var es := RejectsToken(c);
      FollowsDialogue(c, es);
      assert TokenRejected(RunTo(c, es));
    }
  }

  /** Main result: with a token that does not verify, no run ever has a connected side, and every
      session that settles has the sender stopped for that reason. */
  lemma BadTokenNeverConnects(c: Config, es: seq<Event>)
    requires Generated(c)
    requires var n := c.senderNonce + c.receiverNonce;
      || (c.receiverExpects.Some? && !c.verify(c.receiverExpects.value, c.sign(c.senderKey, n), n))
      || (c.senderExpects.Some? && !c.verify(c.senderExpects.value, c.sign(c.receiverKey, n), n))
    ensures var j := RunTo(c, es);
      && !j.sender.SConnected? && !j.sender.SStreaming? && !j.sender.SDeclined?
      && !j.receiver.RConnected? && !j.receiver.RStreaming? && !j.receiver.RDeclined?
      && (Settled(c, j) ==> j.sender == SStopped(BadSignature))
  {
    FollowsDialogue(c, es);
    StageNeverConnects(c, DialogueTo(c, es));
    if Settled(c, RunTo(c, es)) { SettledOutcomes(c, es); }
  }

  lemma StageNeverConnects(c: Config, stage: Stage)
    requires StageOk(c, stage) && !(SenderTokenGood(c) && ReceiverTokenGood(c))
    ensures var j := SessionAt(c, stage);
      && !j.sender.SConnected? && !j.sender.SStreaming? && !j.sender.SDeclined?
      && !j.receiver.RConnected? && !j.receiver.RStreaming? && !j.receiver.RDeclined?
  {
    hide SenderTokenGood, ReceiverTokenGood;
  }

  /** A nonce is taken if and only if it has 16 to 128 bytes. */
  lemma NonceTakenIff(c: Config, n: Bytes)
    ensures SenderReads(c, SAwaitNonce, Nonce(n)).0 == SStopped(BadNonce) <==> |n| < 16 || |n| > 128
    ensures ReceiverReads(c, RAwaitNonce, Nonce(n)).0 == RStopped(BadNonce) <==> |n| < 16 || |n| > 128
  {
  }
}
