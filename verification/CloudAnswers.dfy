/** What each callable answers and writes, field by field, and why it refuses. */
module CloudAnswers {
  import opened Common
  import opened CloudStore
  import opened CloudRun
  import opened CloudTokens

  // ----- accounts -----

  lemma CreateAccountAnswers(w: World, uid: Uid)
    ensures var (w', r) := Step(w, CreateAccount(uid));
      && r == AccountCreated(uid !in w.store.accounts)
      && (uid in w.store.accounts ==> w' == w)
      && (uid !in w.store.accounts ==>
            && w'.store.accounts == w.store.accounts[uid := AccountDoc(w.clock, w.clock, 0)]
            && w'.store.devices == w.store.devices)
  {
  }

  /** Deleting an account that is there leaves a sweep of it pending, and once that is run no
      document of the account remains, whatever happened in between. */
  lemma DeleteAccountAnswers(w: World, uid: Uid)
    ensures var (w', r) := Step(w, DeleteAccount(uid));
      && r == AccountDeletion(uid in w.store.accounts)
      && (uid in w.store.accounts ==> w' == w.(sweeps := w.sweeps + multiset{SweepAccount(uid)}))
      && (uid !in w.store.accounts ==> w' == w)
  {
  }

  lemma AccountSweepLeavesNothing(w: World, uid: Uid)
    requires SweepAccount(uid) in w.sweeps
    ensures var s' := Next(w, RunSweep(SweepAccount(uid))).store;
      && uid !in s'.accounts && (forall k :: k in s'.devices ==> k.uid != uid)
      && s'.accounts == w.store.accounts - {uid} && s'.tokens == w.store.tokens
      && forall k :: k in w.store.devices && k.uid != uid ==> k in s'.devices && s'.devices[k] == w.store.devices[k]
  {
  }

  // ----- devices -----

  /** A device that is new gets the fields the caller gave, no fingerprint unless one was given,
      and no sends. */
  lemma RegisterAnswers(w: World, uid: Uid, input: RegisterInput)
    ensures var (w', r) := Step(w, RegisterDevice(uid, input));
      var k := Key(uid, input.device);
      if uid !in w.store.accounts then w' == w && r == Rejected(AccountMissing)
      else
        && r == DeviceRegistered(k !in w.store.devices)
        && w'.store.devices.Keys == w.store.devices.Keys + {k}
        && (k !in w.store.devices ==>
              var d := w'.store.devices[k];
              && d.displayName == input.displayName && d.icon == input.icon
              && d.fcmToken == input.fcmToken && d.platform == input.platform
              && d.fingerprint == Some(if input.fingerprint.Some? then input.fingerprint.value else None)
              && d.recentSendsAt == None)
  {
  }

  lemma PatchAnswers(w: World, uid: Uid, device: DeviceId, patch: Patch)
    ensures var (w', r) := Step(w, PatchDevice(uid, device, patch));
      var k := Key(uid, device);
      if k !in w.store.devices then w' == w && r == Rejected(DeviceMissing)
      else if uid !in w.store.accounts then w' == w && r == Rejected(UpdateOfMissingDoc)
      else
        && r == DevicePatched
        && w'.store.devices == w.store.devices[k := w'.store.devices[k]]
        && var d, d' := w.store.devices[k], w'.store.devices[k];
        && d'.displayName == (if patch.Rename? then patch.displayName else d.displayName)
        && d'.icon == (if patch.SetIcon? then patch.icon else d.icon)
        && (d'.fcmToken, d'.platform, d'.fingerprint, d'.recentSendsAt)
           == (d.fcmToken, d.platform, d.fingerprint, d.recentSendsAt)
  {
  }

  /** A removal leaves one sweep pending: of the account if it was deleted, of the device otherwise. */
  lemma RemoveAnswers(w: World, uid: Uid, device: DeviceId)
    ensures var (w', r) := Step(w, RemoveDevice(uid, device));
      var k := Key(uid, device);
      if uid !in w.store.accounts then w' == w && r == Rejected(AccountMissing)
      else if k !in w.store.devices then w' == w && r == Rejected(DeviceMissing)
      else
        && r == DeviceRemoved(uid !in w'.store.accounts)
        && w'.store.devices == w.store.devices - {k}
        && w'.store.accounts.Keys
           == (if w.store.accounts[uid].deviceCount > 1 then w.store.accounts.Keys else w.store.accounts.Keys - {uid})
        && w'.sweeps == w.sweeps + multiset{if uid in w'.store.accounts then SweepDevice(k) else SweepAccount(uid)}
  {
    assert w.sweeps + multiset{} == w.sweeps;
    hide Sweeping;
  }

  // ----- notifications -----

  /** A notification goes to the push token of the target, and to none if it has none or an empty one. */
  lemma NotifyAnswers(w: World, uid: Uid, source: DeviceId, target: DeviceId, pushTo: Option<string>)
    requires Step(w, NotifyTransfer(uid, source, target)).1 == Notified(pushTo)
    ensures Key(uid, source) in w.store.devices && Key(uid, target) in w.store.devices
    ensures var token := w.store.devices[Key(uid, target)].fcmToken;
      pushTo == if token.Some? && token.value != "" then token else None
    ensures var d, s' := w.store.devices[Key(uid, source)], Next(w, NotifyTransfer(uid, source, target)).store;
      && s'.devices
         == w.store.devices[Key(uid, source) := d.(recentSendsAt := s'.devices[Key(uid, source)].recentSendsAt)]
      && s'.tokens == w.store.tokens
  {
    hide ConsumeSendQuota;
  }

  lemma NotifyRefusals(w: World, uid: Uid, source: DeviceId, target: DeviceId)
    requires Step(w, NotifyTransfer(uid, source, target)).1.Rejected?
    ensures var (w', r) := Step(w, NotifyTransfer(uid, source, target));
      && w' == w
      && (r.failure == DeviceMissing <==> Key(uid, source) !in w.store.devices || Key(uid, target) !in w.store.devices)
      && (r.failure == UpdateOfMissingDoc ==> uid !in w.store.accounts)
      && (r.failure == DeviceMissing || r.failure == QuotaExceeded || r.failure == UpdateOfMissingDoc)
      && (uid in w.store.accounts && r.failure != DeviceMissing ==> r.failure == QuotaExceeded)
  {
  }

  // ----- join tokens -----

  /** The three reasons a token is refused for, in the order they are looked at. */
  lemma TokenRefusals(s: Store, tokenId: TokenId, now: Millis)
    ensures var r := LookupToken(s, tokenId, now);
      if tokenId !in s.tokens then r == Err(TokenNotFound)
      else if s.tokens[tokenId].consumedAt != None then r == Err(TokenConsumed)
      else if now >= s.tokens[tokenId].expiresAt then r == Err(TokenExpired)
      else r == Ok(s.tokens[tokenId])
  {
  }

  /** Minting answers with the token's id and end, five minutes on, and refuses without account or device. */
  lemma CreateJoinTokenAnswers(w: World, uid: Uid, device: DeviceId, tokenId: TokenId)
    requires tokenId !in w.issued
    ensures var (w', r) := Step(w, CreateJoinToken(uid, device, tokenId));
      if uid !in w.store.accounts then w' == w && r == Rejected(AccountMissing)
      else if Key(uid, device) !in w.store.devices then w' == w && r == Rejected(DeviceMissing)
      else
        && r == TokenMinted(tokenId, w.clock + 300000) && w'.store == w.store
        && w'.minting == w.minting[tokenId := JoinTokenDoc(uid, w.clock, w.clock + 300000, None, device)]
  {
  }

  /** A preview shows the account the token is for, who issued it, when it ends, and every device
      of that account, and no other, with its name, icon and platform; it changes nothing. */
  lemma PreviewAnswers(w: World, tokenId: TokenId)
    ensures Next(w, PreviewToken(tokenId)) == w
    ensures var r, lookup := Step(w, PreviewToken(tokenId)).1, LookupToken(w.store, tokenId, w.clock);
      if lookup.Err? then r == Rejected(lookup.error)
      else
        var token := w.store.tokens[tokenId];
        && r.Previewed? && r.accountId == token.accountId && r.issuingDeviceId == token.issuingDeviceId
        && r.tokenExpiresAt == token.expiresAt
        && (forall id :: id in r.devices <==> Key(token.accountId, id) in w.store.devices)
        && forall id :: id in r.devices ==>
             var d := w.store.devices[Key(token.accountId, id)];
             && r.devices[id].displayName == d.displayName
             && r.devices[id].icon == d.icon && r.devices[id].platform == d.platform
  {
    if LookupToken(w.store, tokenId, w.clock).Ok? { PreviewLists(w.store, w.store.tokens[tokenId].accountId); }
    hide ListForPreview;
  }

  lemma PreviewLists(s: Store, uid: Uid)
    ensures var list := ListForPreview(s, uid);
      && (forall id :: id in list <==> Key(uid, id) in s.devices)
      && forall id :: id in list ==>
           var d := s.devices[Key(uid, id)];
           list[id].displayName == d.displayName && list[id].icon == d.icon && list[id].platform == d.platform
  {
    forall id ensures id in ListForPreview(s, uid) <==> Key(uid, id) in s.devices {
      if Key(uid, id) in s.devices { assert Key(uid, id) in Group(s, uid); }
    }
  }

  // ----- joins -----

  /** Why a join is refused, in the order its checks are made. */
  lemma JoinRefusals(s: Store, uid: Uid, input: JoinInput, now: Millis)
    ensures var (s', r) := JoinNetworkTx(s, uid, input, now);
      var lookup := LookupToken(s, input.tokenId, now);
      if lookup.Err? then s' == s && r == Rejected(lookup.error)
      else
        var target := s.tokens[input.tokenId].accountId;
        if uid == target then s' == s && r == Rejected(OwnGroup)
        else if target !in s.accounts then s' == s && r == Rejected(TargetMissing)
        else if uid in s.accounts && Key(uid, input.device) !in s.devices then s' == s && r == Rejected(DeviceMissing)
        else if uid !in s.accounts && input.newDevice == None then s' == s && r == Rejected(NewDeviceMissing)
        else r == Joined(target, uid in s.accounts && uid !in s'.accounts, uid in s.accounts)
  {
  }

  /** On the welcome route the new document has the fields the caller gave and nothing else. */
  lemma WelcomedAsGiven(s: Store, uid: Uid, input: JoinInput, now: Millis)
    requires JoinAllowed(s, uid, input, now) && uid !in s.accounts
    ensures var s' := JoinNetworkTx(s, uid, input, now).0;
      var k := Key(s.tokens[input.tokenId].accountId, input.device);
      && input.newDevice.Some? && k in s'.devices
      && var d, given := s'.devices[k], input.newDevice.value;
      && d.displayName == given.displayName && d.icon == given.icon
      && d.fcmToken == given.fcmToken && d.platform == given.platform
      && d.fingerprint == None && d.recentSendsAt == None
  {
  }

  /** A join from an account leaves one sweep pending: of that account if it was deleted, of the
      moved document otherwise; any other join leaves none. */
  lemma JoinLeavesSweep(w: World, uid: Uid, input: JoinInput)
    ensures var w' := Next(w, JoinNetwork(uid, input));
      w'.sweeps == w.sweeps +
        if !JoinAllowed(w.store, uid, input, w.clock) || uid !in w.store.accounts then multiset{}
        else multiset{if uid in w'.store.accounts then SweepDevice(Key(uid, input.device)) else SweepAccount(uid)}
  {
    JoinDue(w.store, uid, input, w.clock);
    assert w.sweeps + multiset{} == w.sweeps;
    hide JoinNetworkTx, JoinAllowed, SweepDue;
  }

  lemma JoinDue(s: Store, uid: Uid, input: JoinInput, now: Millis)
    ensures var (s', r) := JoinNetworkTx(s, uid, input, now);
      SweepDue(uid, input.device, r) ==
        if !JoinAllowed(s, uid, input, now) || uid !in s.accounts then None
        else Some(if uid in s'.accounts then SweepDevice(Key(uid, input.device)) else SweepAccount(uid))
  {
    JoinsIff(s, uid, input, now);
    JoinRefusals(s, uid, input, now);
    hide JoinNetworkTx;
  }

  // ----- scheduled jobs -----

  /** The token job leaves the ids of exactly the tokens that have ended pending; whenever such a
      batch is run, it deletes these tokens and nothing else. */
  lemma TokenJobDeletes(w: World, ids: set<TokenId>)
    ensures Next(w, QueryExpiredTokens)
      == w.(expiring := w.expiring + multiset{set t | t in w.store.tokens && w.store.tokens[t].expiresAt <= w.clock})
    ensures var w' := Next(w, CommitExpiredTokens(ids));
      && w'.store.accounts == w.store.accounts && w'.store.devices == w.store.devices
      && w'.store.tokens == (if ids in w.expiring then map t | t in w.store.tokens && t !in ids :: w.store.tokens[t]
                             else w.store.tokens)
  {
  }

  /** The jobs report how many documents they found. */
  lemma JobsReport(w: World)
    ensures Step(w, QueryInactiveAccounts).1
      == Swept(|set u | u in w.store.accounts && w.store.accounts[u].lastActiveAt <= w.clock - 7776000000|)
    ensures Step(w, QueryExpiredTokens).1
      == Swept(|set t | t in w.store.tokens && w.store.tokens[t].expiresAt <= w.clock|)
  {
  }
}
