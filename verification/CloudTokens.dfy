/** Join tokens over whole runs: one-time, time-limited, and untouched by rejected joins. */
module CloudTokens {
  import opened Common
  import opened CloudStore
  import opened CloudRun
  import opened CloudTransaction

  /** The step commits a join that uses `tokenId`. */
  predicate Uses(w: World, e: Event, tokenId: TokenId) {
    e.JoinNetwork? && e.joinInput.tokenId == tokenId && Step(w, e).1.Joined?
  }

  ghost predicate WellTimed(token: JoinTokenDoc, clock: Millis) {
    token.expiresAt == token.createdAt + TOKEN_LIFETIME_MS && token.createdAt <= clock
  }

  /** Every token carries its five minutes, a token being minted is unused and not yet
      written, and only ids that were drawn are in use. */
  ghost predicate TokensInv(w: World) {
    && w.minting.Keys !! w.store.tokens.Keys
    && w.minting.Keys <= w.issued
    && w.store.tokens.Keys <= w.issued
    && (forall t :: t in w.minting ==> w.minting[t].consumedAt.None? && WellTimed(w.minting[t], w.clock))
    && (forall t :: t in w.store.tokens ==> WellTimed(w.store.tokens[t], w.clock))
  }

  /** A token id no join can use any more. */
  ghost predicate Spent(w: World, t: TokenId) {
    && t in w.issued
    && t !in w.minting
    && (t in w.store.tokens ==> w.store.tokens[t].consumedAt.Some?)
  }

  lemma TokensAfterJoin(s: Store, uid: Uid, input: JoinInput, now: Millis)
    ensures var (s', r) := JoinNetworkTx(s, uid, input, now);
      if r.Joined? then
        && LookupToken(s, input.tokenId, now).Ok?
        && s'.tokens == s.tokens[input.tokenId := s.tokens[input.tokenId].(consumedAt := Some(now))]
      else s' == s
  {
  }

  /** The events that change tokens. */
  predicate TouchesTokens(e: Event) {
    e.CreateJoinToken? || e.WriteJoinToken? || e.JoinNetwork? || e.CommitExpiredTokens?
  }

  ghost predicate SameTokens(w: World, w': World) {
    && w'.store.tokens == w.store.tokens
    && w'.minting == w.minting
    && w'.issued == w.issued
    && w'.clock >= w.clock
  }

  ghost predicate KeepsTokens(w: World, e: Event) {
    SameTokens(w, Next(w, e)) && Next(w, e).expiring == w.expiring
  }

  lemma AccountStepsKeepTokens(w: World, uid: Uid, input: RegisterInput, device: DeviceId, patch: Patch)
    ensures KeepsTokens(w, CreateAccount(uid)) && KeepsTokens(w, RegisterDevice(uid, input))
    ensures KeepsTokens(w, PatchDevice(uid, device, patch))
  {
  }

  lemma OtherStepsKeepTokens(w: World, uid: Uid, source: DeviceId, target: DeviceId, sweep: Sweep)
    ensures KeepsTokens(w, RemoveDevice(uid, source)) && KeepsTokens(w, NotifyTransfer(uid, source, target))
    ensures KeepsTokens(w, RunSweep(sweep))
  {
    hide ConsumeSendQuota;
  }

  lemma DocumentStepsKeepTokens(w: World, e: Event)
    requires TouchesDocuments(e) && !TouchesTokens(e)
    ensures SameTokens(w, Next(w, e)) && Next(w, e).expiring == w.expiring
  {
    hide Step, SameTokens;
    var input := RegisterInput("", "", "", None, "", None);
    match e
    case CreateAccount(uid) => AccountStepsKeepTokens(w, uid, input, "", Rename(""));
    case RegisterDevice(uid, given) => AccountStepsKeepTokens(w, uid, given, "", Rename(""));
    case PatchDevice(uid, device, patch) => AccountStepsKeepTokens(w, uid, input, device, patch);
    case RemoveDevice(uid, device) => OtherStepsKeepTokens(w, uid, device, "", SweepAccount(""));
    case NotifyTransfer(uid, source, target) => OtherStepsKeepTokens(w, uid, source, target, SweepAccount(""));
    case RunSweep(sweep) => OtherStepsKeepTokens(w, "", "", "", sweep);
  }

  lemma TokensUntouched(w: World, e: Event)
    requires !TouchesTokens(e)
    ensures SameTokens(w, Next(w, e))
  {
    if TouchesDocuments(e) { DocumentStepsKeepTokens(w, e); }
  }

  lemma TokensInvStep(w: World, e: Event)
    requires TokensInv(w)
    ensures TokensInv(Next(w, e))
  {
    if !TouchesTokens(e) {
      TokensUntouched(w, e);
    } else if e.JoinNetwork? {
      TokensAfterJoin(w.store, e.uid, e.joinInput, w.clock);
    }
  }

  lemma {:induction false} TokensInvAlways(clock: Millis, es: seq<Event>)
    ensures TokensInv(RunTo(Start(clock), es))
  {
    if es != [] {
      TokensInvAlways(clock, es[..|es| - 1]);
      TokensInvStep(RunTo(Start(clock), es[..|es| - 1]), es[|es| - 1]);
    }
  }

  lemma SpentStep(w: World, e: Event, t: TokenId)
    requires TokensInv(w) && Spent(w, t)
    ensures Spent(Next(w, e), t) && !Uses(w, e, t)
  {
    if !TouchesTokens(e) {
      TokensUntouched(w, e);
    } else if e.JoinNetwork? {
      TokensAfterJoin(w.store, e.uid, e.joinInput, w.clock);
    }
  }

  lemma UsedIsSpent(w: World, e: Event, t: TokenId)
    requires TokensInv(w) && Uses(w, e, t)
    ensures Spent(Next(w, e), t)
  {
    TokensAfterJoin(w.store, e.uid, e.joinInput, w.clock);
  }

  lemma {:induction false} SpentForever(clock: Millis, es: seq<Event>, i: nat, j: nat, t: TokenId)
    requires i <= j <= |es| && Spent(At(Start(clock), es, i), t)
    ensures Spent(At(Start(clock), es, j), t)
  {
    hide Step, Spent, TokensInv;
    if i < j {
      SpentForever(clock, es, i, j - 1, t);
      TokensInvAlways(clock, es[..j - 1]);
      AtNext(Start(clock), es, j - 1);
      SpentStep(At(Start(clock), es, j - 1), es[j - 1], t);
    }
  }

  /** Main result: in a whole run no token id is used by two committed joins. */
  lemma OneTime(clock: Millis, es: seq<Event>, i: nat, j: nat, t: TokenId)
    requires i < j < |es|
    requires Uses(At(Start(clock), es, i), es[i], t)
    ensures !Uses(At(Start(clock), es, j), es[j], t)
  {
    TokensInvAlways(clock, es[..i]);
    UsedIsSpent(At(Start(clock), es, i), es[i], t);
    AtNext(Start(clock), es, i);
    SpentForever(clock, es, i + 1, j, t);
    TokensInvAlways(clock, es[..j]);
    SpentStep(At(Start(clock), es, j), es[j], t);
  }

  /** Main result: a committed join uses a token that is written, unconsumed and strictly less
      than five minutes old, minted for the group it enters; it marks exactly that token. */
  lemma UsedInTime(clock: Millis, es: seq<Event>, t: TokenId, e: Event)
    requires Uses(RunTo(Start(clock), es), e, t)
    ensures var w := RunTo(Start(clock), es);
      && t in w.store.tokens
      && w.store.tokens[t].consumedAt.None?
      && w.store.tokens[t].createdAt <= w.clock < w.store.tokens[t].createdAt + 5 * 60000
      && Step(w, e).1.target == w.store.tokens[t].accountId
      && Next(w, e).store.tokens == w.store.tokens[t := w.store.tokens[t].(consumedAt := Some(w.clock))]
  {
    TokensInvAlways(clock, es);
    TokensAfterJoin(RunTo(Start(clock), es).store, e.uid, e.joinInput, RunTo(Start(clock), es).clock);
  }

  /** A consumed token never becomes unconsumed again, at any later point of the run. */
  lemma ConsumedForever(clock: Millis, es: seq<Event>, i: nat, j: nat, t: TokenId)
    requires i <= j <= |es|
    requires t in At(Start(clock), es, i).store.tokens
    requires At(Start(clock), es, i).store.tokens[t].consumedAt.Some?
    ensures t in At(Start(clock), es, j).store.tokens ==> At(Start(clock), es, j).store.tokens[t].consumedAt.Some?
  {
    TokensInvAlways(clock, es[..i]);
    SpentForever(clock, es, i, j, t);
  }

  /** A join that is rejected changes nothing at all, whatever its transaction had buffered. */
  lemma RejectedJoinChangesNothing(w: World, uid: Uid, input: JoinInput)
    requires Step(w, JoinNetwork(uid, input)).1.Rejected?
    ensures Next(w, JoinNetwork(uid, input)) == w
    ensures Transact(w.store, JoinBody(w.store, uid, input, w.clock)) == (w.store, Step(w, JoinNetwork(uid, input)).1)
  {
    hide JoinBody, Transact;
    RejectedJoinIsRolledBack(w.store, uid, input, w.clock);
  }

  /** A join is committed if and only if all its checks pass, for any token and any caller. */
  lemma JoinsIff(s: Store, uid: Uid, input: JoinInput, now: Millis)
    ensures JoinNetworkTx(s, uid, input, now).1.Joined? <==> JoinAllowed(s, uid, input, now)
    ensures JoinNetworkTx(s, uid, input, now).1.Joined? ==>
      JoinNetworkTx(s, uid, input, now).1.target == s.tokens[input.tokenId].accountId
    ensures !JoinNetworkTx(s, uid, input, now).1.Joined? ==>
      JoinNetworkTx(s, uid, input, now).1.Rejected? && JoinNetworkTx(s, uid, input, now).0 == s
  {
  }
}
