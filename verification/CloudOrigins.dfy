/** Where join tokens and accounts come from, over whole runs. */
module CloudOrigins {
  import opened Common
  import opened CloudStore
  import opened CloudRun
  import opened CloudTokens

  /** Event `n` minted the token: for that account, by that device, at that time, five minutes long. */
  ghost predicate MintedAt(clock: Millis, es: seq<Event>, n: int, t: TokenId, doc: JoinTokenDoc) {
    && 0 <= n < |es|
    && es[n] == CreateJoinToken(doc.accountId, doc.issuingDeviceId, t)
    && var w := At(Start(clock), es, n);
    && doc.createdAt == w.clock && doc.expiresAt == w.clock + 300000
    && doc.accountId in w.store.accounts && Key(doc.accountId, doc.issuingDeviceId) in w.store.devices
  }

  ghost predicate Minted(clock: Millis, es: seq<Event>, t: TokenId, doc: JoinTokenDoc) {
    exists n :: MintedAt(clock, es, n, t, doc)
  }

  ghost predicate TokensMinted(clock: Millis, es: seq<Event>) {
    var w := RunTo(Start(clock), es);
    && (forall t :: t in w.minting ==> Minted(clock, es, t, w.minting[t]))
    && (forall t :: t in w.store.tokens ==> Minted(clock, es, t, w.store.tokens[t]))
  }

  lemma MintedLater(clock: Millis, es: seq<Event>, e: Event, t: TokenId, doc: JoinTokenDoc, used: JoinTokenDoc)
    requires Minted(clock, es, t, doc) && used == doc.(consumedAt := used.consumedAt)
    ensures Minted(clock, es + [e], t, used)
  {
    var n :| MintedAt(clock, es, n, t, doc);
    assert (es + [e])[..n] == es[..n];
    assert MintedAt(clock, es + [e], n, t, used);
  }

  /** A token after `e` was there before, apart from being consumed, or `e` mints it. */
  ghost predicate TokenFollows(w: World, e: Event, t: TokenId, doc: JoinTokenDoc) {
    || (t in w.store.tokens && doc == w.store.tokens[t].(consumedAt := doc.consumedAt))
    || (t in w.minting && doc == w.minting[t])
    || (&& e == CreateJoinToken(doc.accountId, doc.issuingDeviceId, t)
        && doc.createdAt == w.clock && doc.expiresAt == w.clock + 300000
        && doc.accountId in w.store.accounts && Key(doc.accountId, doc.issuingDeviceId) in w.store.devices)
  }

  ghost predicate TokensFollow(w: World, e: Event) {
    var w' := Next(w, e);
    && (forall t :: t in w'.minting ==> TokenFollows(w, e, t, w'.minting[t]))
    && (forall t :: t in w'.store.tokens ==> TokenFollows(w, e, t, w'.store.tokens[t]))
  }

  lemma TokenEventsFollow(w: World, uid: Uid, device: DeviceId, t: TokenId, ids: set<TokenId>)
    ensures TokensFollow(w, CreateJoinToken(uid, device, t)) && TokensFollow(w, WriteJoinToken(t))
    ensures TokensFollow(w, CommitExpiredTokens(ids))
  {
  }

  lemma JoinFollows(w: World, uid: Uid, input: JoinInput)
    ensures TokensFollow(w, JoinNetwork(uid, input))
  {
    TokensAfterJoin(w.store, uid, input, w.clock);
    hide JoinNetworkTx;
  }

  lemma OthersFollow(w: World, e: Event)
    requires !TouchesTokens(e)
    ensures TokensFollow(w, e)
  {
    hide Step;
    TokensUntouched(w, e);
  }

  lemma TokensFollowStep(w: World, e: Event)
    ensures TokensFollow(w, e)
  {
    hide Step, TokensFollow;
    match e
    case CreateJoinToken(uid, device, t) => TokenEventsFollow(w, uid, device, t, {});
    case WriteJoinToken(t) => TokenEventsFollow(w, "", "", t, {});
    case CommitExpiredTokens(ids) => TokenEventsFollow(w, "", "", "", ids);
    case JoinNetwork(uid, input) => JoinFollows(w, uid, input);
    case _ => OthersFollow(w, e);
  }

  lemma OneTokenMinted(clock: Millis, es: seq<Event>, e: Event, t: TokenId, doc: JoinTokenDoc)
    requires TokensMinted(clock, es) && TokenFollows(RunTo(Start(clock), es), e, t, doc)
    ensures Minted(clock, es + [e], t, doc)
  {
    var w := RunTo(Start(clock), es);
    hide Minted, RunTo;
    if t in w.store.tokens && doc == w.store.tokens[t].(consumedAt := doc.consumedAt) {
      MintedLater(clock, es, e, t, w.store.tokens[t], doc);
    } else if t in w.minting && doc == w.minting[t] {
      MintedLater(clock, es, e, t, w.minting[t], doc);
    } else {
      NowMinted(clock, es, e, t, doc);
    }
  }

  lemma NowMinted(clock: Millis, es: seq<Event>, e: Event, t: TokenId, doc: JoinTokenDoc)
    requires var w := RunTo(Start(clock), es);
      && e == CreateJoinToken(doc.accountId, doc.issuingDeviceId, t)
      && doc.createdAt == w.clock && doc.expiresAt == w.clock + 300000
      && doc.accountId in w.store.accounts && Key(doc.accountId, doc.issuingDeviceId) in w.store.devices
    ensures Minted(clock, es + [e], t, doc)
  {
    hide RunTo;
    assert (es + [e])[..|es|] == es;
    assert MintedAt(clock, es + [e], |es|, t, doc);
  }

  lemma {:induction false} AllTokensMinted(clock: Millis, es: seq<Event>)
    ensures TokensMinted(clock, es)
  {
    if es != [] {
      var before, e := es[..|es| - 1], es[|es| - 1];
      AllTokensMinted(clock, before);
      TokensFollowStep(RunTo(Start(clock), before), e);
      assert es == before + [e];
      var w := RunTo(Start(clock), es);
      hide Step, Minted, TokenFollows;
      forall t | t in w.minting ensures Minted(clock, es, t, w.minting[t]) {
        OneTokenMinted(clock, before, e, t, w.minting[t]);
      }
      forall t | t in w.store.tokens ensures Minted(clock, es, t, w.store.tokens[t]) {
        OneTokenMinted(clock, before, e, t, w.store.tokens[t]);
      }
    }
  }

  /** Main result: whoever joins with a token enters the account that minted it, one of whose
      devices asked for it less than five minutes before. */
  lemma JoinEntersInviter(clock: Millis, es: seq<Event>, uid: Uid, input: JoinInput) returns (minted: nat)
    requires Step(RunTo(Start(clock), es), JoinNetwork(uid, input)).1.Joined?
    ensures minted < |es| && es[minted].CreateJoinToken? && es[minted].tokenId == input.tokenId
    ensures es[minted].uid == Step(RunTo(Start(clock), es), JoinNetwork(uid, input)).1.target
    ensures var w, past := RunTo(Start(clock), es), At(Start(clock), es, minted);
      && past.clock <= w.clock < past.clock + 300000
      && es[minted].uid in past.store.accounts && Key(es[minted].uid, es[minted].device) in past.store.devices
  {
    var w := RunTo(Start(clock), es);
    AllTokensMinted(clock, es);
    UsedInTime(clock, es, input.tokenId, JoinNetwork(uid, input));
    minted :| MintedAt(clock, es, minted, input.tokenId, w.store.tokens[input.tokenId]);
  }
}
