/** The document database the callables update in place. Every transaction body is written
    step by step, its writes go into a buffer that is committed at the end, and it is proved to
    have the effect and the answer of its store function. */
module CloudFirestore {
  import opened Common
  import opened CloudStore
  import opened CloudTransaction

  lemma {:induction false} NeverAfter(s: Store, writes: seq<Write>, n: nat)
    requires n <= |writes| && ApplyAll(s, writes[..n]).None?
    ensures ApplyAll(s, writes).None?
    decreases |writes| - n
  {
    if n < |writes| {
      ApplyMore(s, writes[..n], writes[n]);
      assert writes[..n] + [writes[n]] == writes[..n + 1];
      NeverAfter(s, writes, n + 1);
    } else {
      assert writes[..n] == writes;
    }
  }

  lemma One(s: Store, a: Write)
    ensures ApplyAll(s, [a]) == Apply(s, a)
  {
    ApplyMore(s, [], a);
    assert [] + [a] == [a];
  }

  lemma Two(s: Store, a: Write, b: Write)
    ensures ApplyAll(s, [a, b]) == var first := Apply(s, a); if first.None? then None else Apply(first.value, b)
  {
    One(s, a);
    ApplyMore(s, [a], b);
    assert [a] + [b] == [a, b];
  }

  class Firestore {
    var accounts: map<Uid, AccountDoc>
    var devices: map<Key, DeviceDoc>
    var tokens: map<TokenId, JoinTokenDoc>

    constructor ()
      ensures Contents() == Store(map[], map[], map[])
    {
      accounts, devices, tokens := map[], map[], map[];
    }

    function Contents(): Store
      reads this
    {
      Store(accounts, devices, tokens)
    }

    /** The end of a transaction: all buffered writes, or none. */
    method Commit(writes: seq<Write>) returns (ok: bool)
      modifies this
      ensures var after := ApplyAll(old(Contents()), writes);
        ok == after.Some? && Contents() == if ok then after.value else old(Contents())
    {
      var s := Contents();
      for i := 0 to |writes|
        invariant ApplyAll(Contents(), writes[..i]) == Some(s)
        invariant Contents() == old(Contents())
      {
        ApplyMore(Contents(), writes[..i], writes[i]);
        assert writes[..i] + [writes[i]] == writes[..i + 1];
        var after := Apply(s, writes[i]);
        if after.None? {
          NeverAfter(Contents(), writes, i + 1);
          return false;
        }
        s := after.value;
      }
      assert writes[..|writes|] == writes;
      accounts, devices, tokens := s.accounts, s.devices, s.tokens;
      ok := true;
    }

    method CreateAccount(uid: Uid, now: Millis) returns (reply: Reply)
      modifies this
      ensures (Contents(), reply) == CreateAccountTx(old(Contents()), uid, now)
    {
      if uid in accounts { return AccountCreated(false); }
      One(Contents(), PutAccount(uid, AccountDoc(now, now, 0)));
      var ok := Commit([PutAccount(uid, AccountDoc(now, now, 0))]);
      reply := AccountCreated(true);
    }

    method RegisterDevice(uid: Uid, input: RegisterInput, now: Millis) returns (reply: Reply)
      modifies this
      ensures (Contents(), reply) == RegisterDeviceTx(old(Contents()), uid, input, now)
    {
      if uid !in accounts { return Rejected(AccountMissing); }
      var k := Key(uid, input.device);
      var created := k !in devices;
      var doc;
      if created {
        var fingerprint := if input.fingerprint.Some? then input.fingerprint.value else None;
        doc := DeviceDoc(input.displayName, input.icon, input.fcmToken, input.platform, Some(fingerprint), None);
      } else {
        doc := devices[k].(fcmToken := input.fcmToken, platform := input.platform);
        if input.fingerprint.Some? { doc := doc.(fingerprint := input.fingerprint); }
      }
      Two(Contents(), PutDevice(k, doc), Bump(uid, if created then 1 else 0, now));
      var ok := Commit([PutDevice(k, doc), Bump(uid, if created then 1 else 0, now)]);
      reply := DeviceRegistered(created);
    }

    method PatchDevice(uid: Uid, device: DeviceId, patch: Patch, now: Millis) returns (reply: Reply)
      modifies this
      ensures (Contents(), reply) == PatchDeviceTx(old(Contents()), uid, device, patch, now)
    {
      var k := Key(uid, device);
      if k !in devices { return Rejected(DeviceMissing); }
      var doc;
      match patch {
        case Rename(name) => doc := devices[k].(displayName := name);
        case SetIcon(icon) => doc := devices[k].(icon := icon);
      }
      Two(Contents(), PutDevice(k, doc), Bump(uid, 0, now));
      var ok := Commit([PutDevice(k, doc), Bump(uid, 0, now)]);
      reply := if ok then DevicePatched else Rejected(UpdateOfMissingDoc);
    }

    method RemoveDevice(uid: Uid, device: DeviceId, now: Millis) returns (reply: Reply)
      modifies this
      ensures (Contents(), reply) == RemoveDeviceTx(old(Contents()), uid, device, now)
    {
      var k := Key(uid, device);
      if uid !in accounts { return Rejected(AccountMissing); }
      if k !in devices { return Rejected(DeviceMissing); }
      var last := accounts[uid].deviceCount <= 1;
      var write := if last then DropAccount(uid) else Bump(uid, -1, now);
      Two(Contents(), DropDevice(k), write);
      var ok := Commit([DropDevice(k), write]);
      reply := DeviceRemoved(last);
    }

    /** In the source's order: the token is marked in the buffer before the new device of a
        caller without an account is asked for. */
    method JoinNetwork(source: Uid, input: JoinInput, now: Millis) returns (reply: Reply)
      modifies this
      ensures (Contents(), reply) == JoinNetworkTx(old(Contents()), source, input, now)
      ensures reply.Rejected? ==> Contents() == old(Contents())
      ensures reply.Joined? && source !in old(accounts) ==>
        && input.newDevice.Some? && Key(reply.target, input.device) in devices
        && var d, given := devices[Key(reply.target, input.device)], input.newDevice.value;
        && d.displayName == given.displayName && d.icon == given.icon
        && d.fcmToken == given.fcmToken && d.platform == given.platform
        && d.fingerprint == None && d.recentSendsAt == None
    {
      JoinTransaction(Contents(), source, input, now);
      ghost var body := JoinBody(Contents(), source, input, now);
      if input.tokenId !in tokens { return Rejected(TokenNotFound); }
      var token := tokens[input.tokenId];
      if token.consumedAt.Some? { return Rejected(TokenConsumed); }
      if token.expiresAt <= now { return Rejected(TokenExpired); }
      var target := token.accountId;
      if source == target { return Rejected(OwnGroup); }
      if target !in accounts { return Rejected(TargetMissing); }
      var hasSource := source in accounts;
      var sourceKey := Key(source, input.device);
      if hasSource && sourceKey !in devices { return Rejected(DeviceMissing); }

      var writes := [Consume(input.tokenId, now)];
      var moved;
      if hasSource {
        writes := writes + [DropDevice(sourceKey)];
        moved := devices[sourceKey];
      } else {
        if input.newDevice.None? { return Rejected(NewDeviceMissing); }
        var given := input.newDevice.value;
        moved := DeviceDoc(given.displayName, given.icon, given.fcmToken, given.platform, None, None);
      }
      writes := writes + [PutDevice(Key(target, input.device), moved)] + [Bump(target, 1, now)];
      if !hasSource {
        reply := Joined(target, false, false);
      } else if accounts[source].deviceCount > 1 {
        writes := writes + [Bump(source, -1, now)];
        reply := Joined(target, false, true);
      } else {
        writes := writes + [DropAccount(source)];
        reply := Joined(target, true, true);
      }
      assert Body(writes, reply) == body;
      var ok := Commit(writes);
      if !ok { return Rejected(UpdateOfMissingDoc); }
    }

    method NotifyTransfer(uid: Uid, source: DeviceId, target: DeviceId, now: Millis) returns (reply: Reply)
      modifies this
      ensures (Contents(), reply) == NotifyTx(old(Contents()), uid, source, target, now)
      ensures reply.Notified? ==> Key(uid, target) in old(devices)
      ensures reply.Notified? ==>
        var token := old(devices)[Key(uid, target)].fcmToken;
        reply.pushTo == if token.Some? && token.value != "" then token else None
    {
      var sourceKey, targetKey := Key(uid, source), Key(uid, target);
      if sourceKey !in devices || targetKey !in devices { return Rejected(DeviceMissing); }
      var quota := ConsumeSendQuota(devices[sourceKey].recentSendsAt, now);
      if quota.Err? { return Rejected(quota.error); }
      var pushTo := PushTarget(devices[targetKey]);
      var doc := devices[sourceKey].(recentSendsAt := Some(quota.value));
      Two(Contents(), PutDevice(sourceKey, doc), Bump(uid, 0, now));
      var ok := Commit([PutDevice(sourceKey, doc), Bump(uid, 0, now)]);
      reply := if ok then Notified(pushTo) else Rejected(UpdateOfMissingDoc);
    }

    /** `recursiveDelete(accountRef)` */
    method RecursiveDeleteAccount(uid: Uid)
      modifies this`accounts, this`devices
      ensures Contents() == SweepAccountStep(old(Contents()), uid)
    {
      devices := devices - set k | k in devices && k.uid == uid;
      accounts := accounts - {uid};
    }

    method DeleteTokens(found: set<TokenId>)
      modifies this`tokens
      ensures tokens == old(tokens) - found
    {
      var rest := found;
      while rest != {}
        invariant rest <= found
        invariant tokens == old(tokens) - (found - rest)
        decreases rest
      {
        var t :| t in rest;
        tokens := tokens - {t};
        rest := rest - {t};
      }
    }

    /** One batch deletes every token that has expired by `now`, and nothing else. */
    method CleanupExpiredJoinTokens(now: Millis) returns (deleted: nat)
      modifies this`tokens
      ensures tokens == map t | t in old(tokens) && old(tokens)[t].expiresAt > now :: old(tokens)[t]
      ensures deleted == |old(tokens)| - |tokens|
    {
      var found := ExpiredTokens(Contents(), now);
      DeleteTokens(found);
      deleted := |found|;
      assert tokens.Keys == old(tokens).Keys - found;
      assert found <= old(tokens).Keys;
    }

    /** One account after the other, each with all its devices. */
    method DeleteAccounts(found: set<Uid>)
      requires found <= accounts.Keys
      modifies this`accounts, this`devices
      ensures accounts == old(accounts) - found
      ensures devices == map k | k in old(devices) && k.uid !in found :: old(devices)[k]
    {
      var rest := found;
      while rest != {}
        invariant rest <= found
        invariant accounts == old(accounts) - (found - rest)
        invariant devices == map k | k in old(devices) && k.uid !in found - rest :: old(devices)[k]
        decreases rest
      {
        var uid :| uid in rest;
        RecursiveDeleteAccount(uid);
        rest := rest - {uid};
      }
    }

    /** The weekly job, undisturbed: accounts with a check-in in the last 90 days keep their
        documents untouched. */
    method CleanupInactiveAccounts(now: Millis) returns (deleted: nat)
      modifies this`accounts, this`devices
      ensures accounts == map u | u in old(accounts)
        && old(accounts)[u].lastActiveAt > now - INACTIVE_ACCOUNT_MS :: old(accounts)[u]
      ensures devices == map k | k in old(devices)
        && !(k.uid in old(accounts)
             && old(accounts)[k.uid].lastActiveAt <= now - INACTIVE_ACCOUNT_MS) :: old(devices)[k]
      ensures deleted == |old(accounts)| - |accounts|
    {
      var found := InactiveAccounts(Contents(), now);
      DeleteAccounts(found);
      deleted := |found|;
      assert accounts.Keys == old(accounts).Keys - found;
      assert found <= old(accounts).Keys;
    }
  }
}
