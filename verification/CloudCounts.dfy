/** What `deviceCount` guarantees about the device documents of an account, over every
    interleaving of callables, scheduled jobs and late sweeps. */
module CloudCounts {
  import opened Common
  import opened CloudStore
  import opened CloudRun
  import opened CloudTokens

  /** No device document outlives its account, and no account counts too few devices. */
  ghost predicate Covered(s: Store) {
    && (forall k :: k in s.devices ==> k.uid in s.accounts)
    && (forall u :: u in s.accounts ==> s.accounts[u].deviceCount >= |Group(s, u)|)
  }

  /** How many more devices an account claims than it has. */
  function Drift(s: Store, u: Uid): int
    requires u in s.accounts
  {
    s.accounts[u].deviceCount - |Group(s, u)|
  }

  ghost predicate Exact(s: Store) {
    && (forall k :: k in s.devices ==> k.uid in s.accounts)
    && (forall u :: u in s.accounts ==> Drift(s, u) == 0)
  }

  /** The event loses count in account `u`: a join commits onto a device id the target
      already holds, or a device sweep that has been overtaken deletes a live document. */
  predicate Loses(w: World, e: Event, u: Uid) {
    match e
    case JoinNetwork(uid, input) =>
      && JoinAllowed(w.store, uid, input, w.clock)
      && u == w.store.tokens[input.tokenId].accountId
      && Key(u, input.device) in w.store.devices
    case RunSweep(sweep) =>
      sweep.SweepDevice? && sweep in w.sweeps && sweep.key in w.store.devices && sweep.key.uid == u
    case _ => false
  }

  // ----- how the group of an account changes -----

  lemma GroupAfterPut(s: Store, s': Store, k: Key, d: DeviceDoc, u: Uid)
    requires s'.devices == s.devices[k := d]
    ensures Group(s', u) == if k.uid == u then Group(s, u) + {k} else Group(s, u)
  {
  }

  lemma GroupAfterDrop(s: Store, s': Store, k: Key, u: Uid)
    requires s'.devices == s.devices - {k}
    ensures Group(s', u) == Group(s, u) - {k}
  {
  }

  lemma PutSize(s: Store, s': Store, k: Key, u: Uid)
    requires k in s'.devices && s'.devices == s.devices[k := s'.devices[k]]
    ensures |Group(s', u)| == |Group(s, u)| + if k.uid == u && k !in s.devices then 1 else 0
  {
    GroupAfterPut(s, s', k, s'.devices[k], u);
    if k in Group(s, u) { assert Group(s, u) + {k} == Group(s, u); }
  }

  lemma DropSize(s: Store, s': Store, k: Key, u: Uid)
    requires s'.devices == s.devices - {k}
    ensures |Group(s', u)| == |Group(s, u)| - if k.uid == u && k in s.devices then 1 else 0
  {
    GroupAfterDrop(s, s', k, u);
    if k !in Group(s, u) { assert Group(s, u) - {k} == Group(s, u); }
  }

  lemma MoveSize(s: Store, s': Store, from: Key, to: Key, u: Uid)
    requires from.uid != to.uid && from in s.devices && to in s'.devices
    requires s'.devices == (s.devices - {from})[to := s'.devices[to]]
    ensures |Group(s', u)| == |Group(s, u)|
      - (if from.uid == u then 1 else 0)
      + (if to.uid == u && to !in s.devices then 1 else 0)
  {
    var mid := s.(devices := s.devices - {from});
    DropSize(s, mid, from, u);
    PutSize(mid, s', to, u);
  }

  // ----- one transaction or sweep -----

  /** From `s` to `s'`, account `u` drifts by `delta`, unless it is gone or new (and then has no drift). */
  ghost predicate Drifts(s: Store, s': Store, u: Uid, delta: int) {
    u in s'.accounts ==> Drift(s', u) == if u in s.accounts then Drift(s, u) + delta else 0
  }

  lemma CreateAccountDrift(s: Store, uid: Uid, now: Millis, u: Uid)
    requires Covered(s)
    ensures Drifts(s, CreateAccountTx(s, uid, now).0, u, 0)
  {
    var s' := CreateAccountTx(s, uid, now).0;
    assert Group(s', u) == Group(s, u);
    if u !in s.accounts { assert Group(s, u) == {}; }
  }

  lemma RegisterDrift(s: Store, uid: Uid, input: RegisterInput, now: Millis, u: Uid)
    ensures Drifts(s, RegisterDeviceTx(s, uid, input, now).0, u, 0)
  {
    if uid in s.accounts { PutSize(s, RegisterDeviceTx(s, uid, input, now).0, Key(uid, input.device), u); }
  }

  lemma PatchDrift(s: Store, uid: Uid, device: DeviceId, patch: Patch, now: Millis, u: Uid)
    ensures Drifts(s, PatchDeviceTx(s, uid, device, patch, now).0, u, 0)
  {
    if PatchDeviceTx(s, uid, device, patch, now).1.DevicePatched? {
      PutSize(s, PatchDeviceTx(s, uid, device, patch, now).0, Key(uid, device), u);
    }
  }

  lemma RemoveDrift(s: Store, uid: Uid, device: DeviceId, now: Millis, u: Uid)
    ensures Drifts(s, RemoveDeviceTx(s, uid, device, now).0, u, 0)
  {
    if RemoveDeviceTx(s, uid, device, now).1.DeviceRemoved? {
      DropSize(s, RemoveDeviceTx(s, uid, device, now).0, Key(uid, device), u);
    }
  }

  lemma NotifyDrift(s: Store, uid: Uid, source: DeviceId, target: DeviceId, now: Millis, u: Uid)
    ensures Drifts(s, NotifyTx(s, uid, source, target, now).0, u, 0)
  {
    if NotifyTx(s, uid, source, target, now).1.Notified? {
      PutSize(s, NotifyTx(s, uid, source, target, now).0, Key(uid, source), u);
    }
  }

  lemma JoinDrift(s: Store, uid: Uid, input: JoinInput, now: Millis, u: Uid)
    ensures
      var (s', r) := JoinNetworkTx(s, uid, input, now);
      Drifts(s, s', u, if r.Joined? && u == r.target && Key(u, input.device) in s.devices then 1 else 0)
  {
    var (s', r) := JoinNetworkTx(s, uid, input, now);
    if r.Joined? {
      var to := Key(r.target, input.device);
      if r.hadSourceAccount {
        MoveSize(s, s', Key(uid, input.device), to, u);
      } else {
        PutSize(s, s', to, u);
      }
    }
  }

  lemma SweepDeviceDrift(s: Store, k: Key, u: Uid)
    ensures Drifts(s, SweepDeviceStep(s, k), u, if k in s.devices && k.uid == u then 1 else 0)
  {
    DropSize(s, SweepDeviceStep(s, k), k, u);
  }

  lemma SweepAccountDrift(s: Store, uid: Uid, u: Uid)
    ensures Drifts(s, SweepAccountStep(s, uid), u, 0)
  {
    if u != uid { assert Group(SweepAccountStep(s, uid), u) == Group(s, u); }
  }

  /** A step that is none of the above: documents and counts stay as they are. */
  lemma NoDrift(s: Store, s': Store, u: Uid)
    requires s'.accounts == s.accounts && s'.devices == s.devices
    ensures Drifts(s, s', u, 0)
  {
    assert Group(s', u) == Group(s, u);
  }

  lemma SweepDriftStep(w: World, sweep: Sweep, u: Uid)
    ensures Drifts(w.store, Next(w, RunSweep(sweep)).store, u, if Loses(w, RunSweep(sweep), u) then 1 else 0)
  {
    if sweep !in w.sweeps { NoDrift(w.store, w.store, u); }
    match sweep
    case SweepDevice(k) => SweepDeviceDrift(w.store, k, u);
    case SweepAccount(uid) => SweepAccountDrift(w.store, uid, u);
  }

  lemma JoinDriftStep(w: World, uid: Uid, input: JoinInput, u: Uid)
    ensures Drifts(w.store, Next(w, JoinNetwork(uid, input)).store, u,
                   if Loses(w, JoinNetwork(uid, input), u) then 1 else 0)
  {
    JoinDrift(w.store, uid, input, w.clock, u);
    JoinsIff(w.store, uid, input, w.clock);
  }

  /** Every step from a covered store changes the drift of a surviving account by exactly
      one when it loses count there and not at all otherwise; a new account has no drift. */
  lemma DriftStep(w: World, e: Event, u: Uid)
    requires Covered(w.store)
    ensures Drifts(w.store, Next(w, e).store, u, if Loses(w, e, u) then 1 else 0)
  {
    if !TouchesDocuments(e) {
      DocumentsUntouched(w, e);
      NoDrift(w.store, Next(w, e).store, u);
      return;
    }
    match e
    case CreateAccount(uid) => CreateAccountDrift(w.store, uid, w.clock, u);
    case RegisterDevice(uid, input) => RegisterDrift(w.store, uid, input, w.clock, u);
    case PatchDevice(uid, device, patch) => PatchDrift(w.store, uid, device, patch, w.clock, u);
    case RemoveDevice(uid, device) => RemoveDrift(w.store, uid, device, w.clock, u);
    case NotifyTransfer(uid, source, target) => NotifyDrift(w.store, uid, source, target, w.clock, u);
    case JoinNetwork(uid, input) => JoinDriftStep(w, uid, input, u);
    case RunSweep(sweep) => SweepDriftStep(w, sweep, u);
  }

  // ----- the last-device branch -----

  /** A group whose account counts at most one device is at most that device. */
  lemma LastDevice(s: Store, k: Key)
    requires Covered(s) && k in s.devices && s.accounts[k.uid].deviceCount <= 1
    ensures Group(s, k.uid) == {k} && s.accounts[k.uid].deviceCount == 1
  {
    assert k in Group(s, k.uid);
    assert |Group(s, k.uid) - {k}| == |Group(s, k.uid)| - 1;
    assert Group(s, k.uid) - {k} == {};
  }

  /** A removal that destroys the account takes the account's only device document with it. */
  lemma RemovingLastDeviceLosesNothing(s: Store, uid: Uid, device: DeviceId, now: Millis)
    requires Covered(s) && RemoveDeviceTx(s, uid, device, now).1 == DeviceRemoved(true)
    ensures Group(s, uid) == {Key(uid, device)}
    ensures Group(RemoveDeviceTx(s, uid, device, now).0, uid) == {}
  {
    LastDevice(s, Key(uid, device));
    GroupAfterDrop(s, RemoveDeviceTx(s, uid, device, now).0, Key(uid, device), uid);
  }

  /** A join that destroys the source account moves the account's only device document. */
  lemma JoiningFromLastDeviceLosesNothing(s: Store, uid: Uid, input: JoinInput, now: Millis)
    requires Covered(s)
    requires JoinNetworkTx(s, uid, input, now).1.Joined? && JoinNetworkTx(s, uid, input, now).1.oldAccountDeleted
    ensures Group(s, uid) == {Key(uid, input.device)}
    ensures Group(JoinNetworkTx(s, uid, input, now).0, uid) == {}
  {
    var (s', r) := JoinNetworkTx(s, uid, input, now);
    var from, to := Key(uid, input.device), Key(r.target, input.device);
    LastDevice(s, from);
    var mid := s.(devices := s.devices - {from});
    GroupAfterDrop(s, mid, from, uid);
    GroupAfterPut(mid, s', to, s'.devices[to], uid);
  }

  // ----- no orphans -----

  ghost predicate NoOrphans(s: Store) {
    forall k :: k in s.devices ==> k.uid in s.accounts
  }

  lemma RemoveNoOrphans(s: Store, uid: Uid, device: DeviceId, now: Millis)
    requires Covered(s)
    ensures NoOrphans(RemoveDeviceTx(s, uid, device, now).0)
  {
    var (s', r) := RemoveDeviceTx(s, uid, device, now);
    if r == DeviceRemoved(true) {
      RemovingLastDeviceLosesNothing(s, uid, device, now);
      forall k | k in s'.devices ensures k.uid in s'.accounts { assert k !in Group(s', uid); }
    }
  }

  lemma JoinNoOrphans(s: Store, uid: Uid, input: JoinInput, now: Millis)
    requires Covered(s)
    ensures NoOrphans(JoinNetworkTx(s, uid, input, now).0)
  {
    var (s', r) := JoinNetworkTx(s, uid, input, now);
    if r.Joined? && r.oldAccountDeleted {
      JoiningFromLastDeviceLosesNothing(s, uid, input, now);
      forall k | k in s'.devices ensures k.uid in s'.accounts { assert k !in Group(s', uid); }
    }
  }

  lemma SweepNoOrphans(s: Store, uid: Uid)
    requires Covered(s)
    ensures NoOrphans(SweepAccountStep(s, uid))
  {
    forall k | k in SweepAccountStep(s, uid).devices ensures k.uid in SweepAccountStep(s, uid).accounts {
      assert k !in Group(s, uid);
    }
  }

  lemma OthersNoOrphans(s: Store, uid: Uid, input: RegisterInput, device: DeviceId, patch: Patch, target: DeviceId,
                        k: Key, now: Millis)
    requires NoOrphans(s)
    ensures NoOrphans(CreateAccountTx(s, uid, now).0) && NoOrphans(RegisterDeviceTx(s, uid, input, now).0)
    ensures NoOrphans(PatchDeviceTx(s, uid, device, patch, now).0) && NoOrphans(NotifyTx(s, uid, device, target, now).0)
    ensures NoOrphans(SweepDeviceStep(s, k))
  {
    hide ConsumeSendQuota;
  }

  lemma NoOrphansStep(w: World, e: Event)
    requires Covered(w.store)
    ensures NoOrphans(Next(w, e).store)
  {
    if !TouchesDocuments(e) {
      DocumentsUntouched(w, e);
      return;
    }
    var input := RegisterInput("", "", "", None, "", None);
    hide CreateAccountTx, RegisterDeviceTx, PatchDeviceTx, RemoveDeviceTx;
    hide JoinNetworkTx, NotifyTx, SweepDeviceStep, SweepAccountStep;
    match e
    case CreateAccount(uid) => OthersNoOrphans(w.store, uid, input, "", Rename(""), "", Key("", ""), w.clock);
    case RegisterDevice(uid, given) => OthersNoOrphans(w.store, uid, given, "", Rename(""), "", Key("", ""), w.clock);
    case PatchDevice(uid, device, patch) =>
      OthersNoOrphans(w.store, uid, input, device, patch, "", Key("", ""), w.clock);
    case NotifyTransfer(uid, source, target) =>
      OthersNoOrphans(w.store, uid, input, source, Rename(""), target, Key("", ""), w.clock);
    case RemoveDevice(uid, device) => RemoveNoOrphans(w.store, uid, device, w.clock);
    case JoinNetwork(uid, given) => JoinNoOrphans(w.store, uid, given, w.clock);
    case RunSweep(SweepAccount(uid)) => SweepNoOrphans(w.store, uid);
    case RunSweep(SweepDevice(k)) => OthersNoOrphans(w.store, "", input, "", Rename(""), "", k, w.clock);
  }

  lemma CoveredStep(w: World, e: Event)
    requires Covered(w.store)
    ensures Covered(Next(w, e).store)
  {
    var s' := Next(w, e).store;
    NoOrphansStep(w, e);
    forall u | u in s'.accounts ensures s'.accounts[u].deviceCount >= |Group(s', u)| {
      DriftStep(w, e, u);
      if u in w.store.accounts { assert Drift(w.store, u) >= 0; }
    }
  }

  // ----- whole runs -----

  /** Main result: after any run whatsoever, every account counts at least its devices and
      every device document has its account. */
  lemma {:induction false} CoveredAlways(clock: Millis, es: seq<Event>)
    ensures Covered(RunTo(Start(clock), es).store)
  {
    if es != [] {
      CoveredAlways(clock, es[..|es| - 1]);
      CoveredStep(RunTo(Start(clock), es[..|es| - 1]), es[|es| - 1]);
    }
  }

  lemma ExactIsCovered(s: Store)
    requires Exact(s)
    ensures Covered(s)
  {
    forall u | u in s.accounts ensures s.accounts[u].deviceCount >= |Group(s, u)| {
      assert Drift(s, u) == 0;
    }
  }

  lemma LosingAccountSurvives(w: World, e: Event, u: Uid)
    requires Covered(w.store) && Loses(w, e, u)
    ensures u in w.store.accounts && u in Next(w, e).store.accounts
  {
    if e.JoinNetwork? {
      JoinsIff(w.store, e.uid, e.joinInput, w.clock);
      assert Step(w, e).1.target == u;
    }
  }

  /** From an exactly counted store, a step keeps the count exact if and only if it loses
      count in no account. */
  lemma ExactStepIff(w: World, e: Event)
    requires Exact(w.store)
    ensures Exact(Next(w, e).store) <==> forall u :: !Loses(w, e, u)
  {
    var s' := Next(w, e).store;
    ExactIsCovered(w.store);
    NoOrphansStep(w, e);
    forall u ensures Drifts(w.store, s', u, if Loses(w, e, u) then 1 else 0) { DriftStep(w, e, u); }
    forall u | Loses(w, e, u) ensures !Exact(s') {
      LosingAccountSurvives(w, e, u);
      assert Drift(s', u) == 1;
    }
    if forall u :: !Loses(w, e, u) {
      forall u | u in s'.accounts ensures Drift(s', u) == 0 {
        DriftStep(w, e, u);
        assert !Loses(w, e, u);
        if u in w.store.accounts { assert Drift(w.store, u) == 0; }
      }
    }
  }

  /** The store is exactly counted before and after every event of the run. */
  ghost predicate ExactThroughout(w: World, es: seq<Event>) {
    forall n: nat :: n <= |es| ==> Exact(At(w, es, n).store)
  }

  ghost predicate Lossless(w: World, es: seq<Event>) {
    forall n: nat, u :: n < |es| ==> !Loses(At(w, es, n), es[n], u)
  }

  lemma {:induction false} LosslessIsExact(clock: Millis, es: seq<Event>, n: nat)
    requires n <= |es| && Lossless(Start(clock), es)
    ensures Exact(At(Start(clock), es, n).store)
  {
    if n > 0 {
      LosslessIsExact(clock, es, n - 1);
      AtNext(Start(clock), es, n - 1);
      ExactStepIff(At(Start(clock), es, n - 1), es[n - 1]);
    }
  }

  /** Main result: the counts of a run are exact throughout if and only if none of its steps
      is a join onto an id the target holds or an overtaken device sweep. */
  lemma ExactRunIff(clock: Millis, es: seq<Event>)
    ensures ExactThroughout(Start(clock), es) <==> Lossless(Start(clock), es)
  {
    var w := Start(clock);
    if Lossless(w, es) {
      forall n: nat | n <= |es| ensures Exact(At(w, es, n).store) { LosslessIsExact(clock, es, n); }
    }
    if ExactThroughout(w, es) {
      forall n: nat, u | n < |es| ensures !Loses(At(w, es, n), es[n], u) {
        AtNext(w, es, n);
        assert Exact(At(w, es, n + 1).store);
        ExactStepIff(At(w, es, n), es[n]);
      }
    }
  }
}
