/** Firestore transactions: the body buffers its writes, and they take effect together when it
    returns, or not at all when it throws or when an update finds no document. */
module CloudTransaction {
  import opened Common
  import opened CloudStore

  /** One buffered write. `Bump` and `Consume` are updates of a document that must exist. */
  datatype Write =
    | PutAccount(uid: Uid, account: AccountDoc)
    | Bump(uid: Uid, delta: int, at: Millis)
    | DropAccount(uid: Uid)
    | PutDevice(key: Key, device: DeviceDoc)
    | DropDevice(key: Key)
    | Consume(tokenId: TokenId, at: Millis)

  function Bumped(account: AccountDoc, delta: int, at: Millis): AccountDoc {
    account.(lastActiveAt := at, deviceCount := account.deviceCount + delta)
  }

  function Apply(s: Store, write: Write): Option<Store> {
    match write
    case PutAccount(uid, account) => Some(s.(accounts := s.accounts[uid := account]))
    case Bump(uid, delta, at) =>
      if uid in s.accounts then Some(s.(accounts := s.accounts[uid := Bumped(s.accounts[uid], delta, at)])) else None
    case DropAccount(uid) => Some(s.(accounts := s.accounts - {uid}))
    case PutDevice(k, device) => Some(s.(devices := s.devices[k := device]))
    case DropDevice(k) => Some(s.(devices := s.devices - {k}))
    case Consume(t, at) =>
      if t in s.tokens then Some(s.(tokens := s.tokens[t := s.tokens[t].(consumedAt := Some(at))])) else None
  }

  function ApplyAll(s: Store, writes: seq<Write>): Option<Store> {
    if writes == [] then Some(s)
    else
      var before := ApplyAll(s, writes[..|writes| - 1]);
      if before.None? then None else Apply(before.value, writes[|writes| - 1])
  }

  /** What a transaction body has buffered, and how it ended: with an answer or by throwing. */
  datatype Body = Body(writes: seq<Write>, answer: Reply)

  function Transact(s: Store, body: Body): (Store, Reply) {
    if body.answer.Rejected? then (s, body.answer)
    else
      var after := ApplyAll(s, body.writes);
      if after.None? then (s, Rejected(UpdateOfMissingDoc)) else (after.value, body.answer)
  }

  lemma ApplyMore(s: Store, writes: seq<Write>, write: Write)
    ensures ApplyAll(s, writes + [write]) ==
      var before := ApplyAll(s, writes); if before.None? then None else Apply(before.value, write)
  {
    assert (writes + [write])[..|writes|] == writes;
  }

  // ----- the body of a join, write by write -----

  /** The part of the body before the target's document is written: the token is marked first,
      and only then is a caller without an account asked for its new device. */
  function JoinPrefix(s: Store, source: Uid, input: JoinInput, now: Millis): (seq<Write>, Result<DeviceDoc, Failure>) {
    var sourceKey := Key(source, input.device);
    match LookupToken(s, input.tokenId, now)
    case Err(e) => ([], Err(e))
    case Ok(token) =>
      if source == token.accountId then ([], Err(OwnGroup))
      else if token.accountId !in s.accounts then ([], Err(TargetMissing))
      else if source in s.accounts && sourceKey !in s.devices then ([], Err(DeviceMissing))
      else if source in s.accounts then ([Consume(input.tokenId, now), DropDevice(sourceKey)], Ok(s.devices[sourceKey]))
      else if input.newDevice.None? then ([Consume(input.tokenId, now)], Err(NewDeviceMissing))
      else ([Consume(input.tokenId, now)], Ok(WelcomeDevice(input.newDevice.value)))
  }

  function JoinBody(s: Store, source: Uid, input: JoinInput, now: Millis): Body {
    var (writes, moved) := JoinPrefix(s, source, input, now);
    if moved.Err? then Body(writes, Rejected(moved.error))
    else
      var target := s.tokens[input.tokenId].accountId;
      var entered := writes + [PutDevice(Key(target, input.device), moved.value)] + [Bump(target, 1, now)];
      if source !in s.accounts then Body(entered, Joined(target, false, false))
      else if s.accounts[source].deviceCount > 1 then
        Body(entered + [Bump(source, -1, now)], Joined(target, false, true))
      else Body(entered + [DropAccount(source)], Joined(target, true, true))
  }

  /** The store after the writes of a committed join up to the target's account. */
  lemma EnteredStore(s: Store, source: Uid, input: JoinInput, now: Millis)
    requires JoinPrefix(s, source, input, now).1.Ok?
    ensures var (writes, moved) := JoinPrefix(s, source, input, now);
      var target := s.tokens[input.tokenId].accountId;
      var kept := if source in s.accounts then s.devices - {Key(source, input.device)} else s.devices;
      ApplyAll(s, writes + [PutDevice(Key(target, input.device), moved.value)] + [Bump(target, 1, now)]) == Some(
        s.(devices := kept[Key(target, input.device) := moved.value],
           accounts := s.accounts[target := Bumped(s.accounts[target], 1, now)],
           tokens := s.tokens[input.tokenId := s.tokens[input.tokenId].(consumedAt := Some(now))]))
  {
    var (writes, moved) := JoinPrefix(s, source, input, now);
    var target := s.tokens[input.tokenId].accountId;
    ApplyMore(s, [], Consume(input.tokenId, now));
    assert [] + [Consume(input.tokenId, now)] == [Consume(input.tokenId, now)];
    if source in s.accounts {
      ApplyMore(s, [Consume(input.tokenId, now)], DropDevice(Key(source, input.device)));
      assert [Consume(input.tokenId, now)] + [DropDevice(Key(source, input.device))] == writes;
    }
    ApplyMore(s, writes, PutDevice(Key(target, input.device), moved.value));
    ApplyMore(s, writes + [PutDevice(Key(target, input.device), moved.value)], Bump(target, 1, now));
  }

  /** The transaction of a join, with its writes in the order they are buffered, has the effect
      and the answer of the store function. */
  lemma JoinTransaction(s: Store, source: Uid, input: JoinInput, now: Millis)
    ensures Transact(s, JoinBody(s, source, input, now)) == JoinNetworkTx(s, source, input, now)
  {
    var (writes, moved) := JoinPrefix(s, source, input, now);
    if moved.Ok? {
      var target := s.tokens[input.tokenId].accountId;
      var entered := writes + [PutDevice(Key(target, input.device), moved.value)] + [Bump(target, 1, now)];
      EnteredStore(s, source, input, now);
      ApplyMore(s, entered, Bump(source, -1, now));
      ApplyMore(s, entered, DropAccount(source));
    }
  }

  /** A join that is rejected leaves the whole store as it is, although its body may have
      buffered the marking of the token; that is so exactly when everything but the new device
      of a caller without an account is in order. */
  lemma RejectedJoinIsRolledBack(s: Store, source: Uid, input: JoinInput, now: Millis)
    requires JoinNetworkTx(s, source, input, now).1.Rejected?
    ensures Transact(s, JoinBody(s, source, input, now)) == (s, JoinNetworkTx(s, source, input, now).1)
    ensures JoinBody(s, source, input, now).writes != [] <==>
      && LookupToken(s, input.tokenId, now).Ok?
      && s.tokens[input.tokenId].accountId in s.accounts && s.tokens[input.tokenId].accountId != source
      && source !in s.accounts && input.newDevice.None?
    ensures JoinBody(s, source, input, now).writes != [] ==>
      ApplyAll(s, JoinBody(s, source, input, now).writes) != Some(s)
  {
    JoinTransaction(s, source, input, now);
    if JoinBody(s, source, input, now).writes != [] {
      ApplyMore(s, [], Consume(input.tokenId, now));
      assert [] + [Consume(input.tokenId, now)] == [Consume(input.tokenId, now)];
      var marked := s.tokens[input.tokenId].(consumedAt := Some(now));
      assert s.tokens[input.tokenId := marked][input.tokenId].consumedAt.Some?;
    }
  }
}
