/** How long a registered device, and the name its user gave it, stay. */
module CloudSurvival {
  import opened Common
  import opened CloudStore
  import opened CloudRun
  import opened CloudTokens
  import opened CloudCounts

  /** The device is removed by its account, or moves away with a join. */
  predicate TakenOnRequest(w: World, e: Event, k: Key) {
    match e
    case RemoveDevice(uid, device) => k == Key(uid, device)
    case JoinNetwork(uid, input) =>
      k == Key(uid, input.device) && uid in w.store.accounts && JoinAllowed(w.store, uid, input, w.clock)
    case _ => false
  }

  predicate Covers(sweep: Sweep, k: Key) {
    match sweep
    case SweepDevice(key) => key == k
    case SweepAccount(uid) => uid == k.uid
  }

  /** A pending sweep that covers the device is run. */
  predicate SweptBy(w: World, e: Event, k: Key) {
    e.RunSweep? && e.sweep in w.sweeps && Covers(e.sweep, k)
  }

  /** The device gets another name: from its user, or by a join onto its id. */
  predicate Renames(w: World, e: Event, k: Key) {
    match e
    case PatchDevice(uid, device, patch) => patch.Rename? && k == Key(uid, device)
    case JoinNetwork(uid, input) =>
      JoinAllowed(w.store, uid, input, w.clock) && k == Key(w.store.tokens[input.tokenId].accountId, input.device)
    case _ => false
  }

  /** What `e` does to a registered device. */
  ghost predicate DeviceFollows(w: World, e: Event, k: Key)
    requires k in w.store.devices
  {
    var s' := Next(w, e).store;
    && (k !in s'.devices <==> TakenOnRequest(w, e, k) || SweptBy(w, e, k))
    && (k in s'.devices && !Renames(w, e, k) ==> s'.devices[k].displayName == w.store.devices[k].displayName)
  }

  lemma AccountEvents(w: World, k: Key, uid: Uid, input: RegisterInput)
    requires k in w.store.devices
    ensures DeviceFollows(w, CreateAccount(uid), k) && DeviceFollows(w, RegisterDevice(uid, input), k)
  {
  }

  lemma PatchEvent(w: World, k: Key, uid: Uid, device: DeviceId, patch: Patch)
    requires k in w.store.devices
    ensures DeviceFollows(w, PatchDevice(uid, device, patch), k)
  {
  }

  lemma NotifyEvent(w: World, k: Key, uid: Uid, source: DeviceId, target: DeviceId)
    requires k in w.store.devices
    ensures DeviceFollows(w, NotifyTransfer(uid, source, target), k)
  {
    hide ConsumeSendQuota;
  }

  lemma RemoveEvent(w: World, k: Key, uid: Uid, device: DeviceId)
    requires k in w.store.devices && NoOrphans(w.store)
    ensures DeviceFollows(w, RemoveDevice(uid, device), k)
  {
  }

  lemma SweepEvent(w: World, k: Key, sweep: Sweep)
    requires k in w.store.devices
    ensures DeviceFollows(w, RunSweep(sweep), k)
  {
  }

  /** A committed join takes the moved document away, writes the target's, and nothing else. */
  lemma JoinDevices(s: Store, uid: Uid, input: JoinInput, now: Millis)
    ensures var (s', r) := JoinNetworkTx(s, uid, input, now);
      if !JoinAllowed(s, uid, input, now) then s' == s
      else
        var from, to := Key(uid, input.device), Key(s.tokens[input.tokenId].accountId, input.device);
        from != to && s'.devices == (if uid in s.accounts then s.devices - {from} else s.devices)[to := s'.devices[to]]
        && to in s'.devices
  {
    JoinsIff(s, uid, input, now);
  }

  lemma JoinEvent(w: World, k: Key, uid: Uid, input: JoinInput)
    requires k in w.store.devices
    ensures DeviceFollows(w, JoinNetwork(uid, input), k)
  {
    JoinDevices(w.store, uid, input, w.clock);
    hide JoinNetworkTx;
  }

  lemma OtherEvents(w: World, k: Key, e: Event)
    requires k in w.store.devices && !TouchesDocuments(e)
    ensures DeviceFollows(w, e, k)
  {
    hide Step;
    DocumentsUntouched(w, e);
  }

  lemma DeviceStep(w: World, e: Event, k: Key)
    requires k in w.store.devices && NoOrphans(w.store)
    ensures DeviceFollows(w, e, k)
  {
    hide Step, DeviceFollows;
    if !TouchesDocuments(e) {
      OtherEvents(w, k, e);
      return;
    }
    match e
    case CreateAccount(uid) => AccountEvents(w, k, uid, RegisterInput("", "", "", None, "", None));
    case RegisterDevice(uid, input) => AccountEvents(w, k, uid, input);
    case PatchDevice(uid, device, patch) => PatchEvent(w, k, uid, device, patch);
    case RemoveDevice(uid, device) => RemoveEvent(w, k, uid, device);
    case NotifyTransfer(uid, source, target) => NotifyEvent(w, k, uid, source, target);
    case JoinNetwork(uid, input) => JoinEvent(w, k, uid, input);
    case RunSweep(sweep) => SweepEvent(w, k, sweep);
  }

  // ----- whole runs -----

  /** The device is there at every point of the run from the `n`-th on. */
  ghost predicate StaysFrom(clock: Millis, es: seq<Event>, n: nat, k: Key) {
    forall m: nat :: n <= m <= |es| ==> k in At(Start(clock), es, m).store.devices
  }

  /** Event `m` of the run takes the device away on request, or by a sweep. */
  predicate Ends(clock: Millis, es: seq<Event>, m: nat, k: Key)
    requires m < |es|
  {
    var w := At(Start(clock), es, m);
    TakenOnRequest(w, es[m], k) || SweptBy(w, es[m], k)
  }

  lemma StepAt(clock: Millis, es: seq<Event>, m: nat, k: Key)
    requires m < |es| && k in At(Start(clock), es, m).store.devices
    ensures k !in At(Start(clock), es, m + 1).store.devices <==> Ends(clock, es, m, k)
    ensures k in At(Start(clock), es, m + 1).store.devices && !Renames(At(Start(clock), es, m), es[m], k) ==>
      At(Start(clock), es, m + 1).store.devices[k].displayName == At(Start(clock), es, m).store.devices[k].displayName
  {
    hide RunTo, Step, TakenOnRequest, SweptBy, Renames;
    CoveredAlways(clock, es[..m]);
    AtNext(Start(clock), es, m);
    DeviceStep(At(Start(clock), es, m), es[m], k);
  }

  lemma {:induction false} StaysUpTo(clock: Millis, es: seq<Event>, n: nat, m: nat, k: Key)
    requires n <= m <= |es| && k in At(Start(clock), es, n).store.devices
    requires forall i: nat :: n <= i < |es| ==> !Ends(clock, es, i, k)
    ensures k in At(Start(clock), es, m).store.devices
  {
    if n < m {
      StaysUpTo(clock, es, n, m - 1, k);
      StepAt(clock, es, m - 1, k);
    }
  }

  /** Main result: a registered device stays through the rest of a run if and only if it is
      neither removed nor moved on request and no pending sweep that covers it is run, not even
      one that was decided on before the device was registered or used again. */
  lemma DeviceStaysIff(clock: Millis, es: seq<Event>, n: nat, k: Key)
    requires n <= |es| && k in At(Start(clock), es, n).store.devices
    ensures StaysFrom(clock, es, n, k) <==> forall i: nat :: n <= i < |es| ==> !Ends(clock, es, i, k)
  {
    if forall i: nat :: n <= i < |es| ==> !Ends(clock, es, i, k) {
      forall m: nat | n <= m <= |es|
        ensures k in At(Start(clock), es, m).store.devices
      {
        StaysUpTo(clock, es, n, m, k);
      }
    }
    if StaysFrom(clock, es, n, k) {
      forall i: nat | n <= i < |es| ensures !Ends(clock, es, i, k) { StepAt(clock, es, i, k); }
    }
  }

  lemma {:induction false} NameUpTo(clock: Millis, es: seq<Event>, n: nat, m: nat, k: Key)
    requires n <= m <= |es| && k in At(Start(clock), es, n).store.devices
    requires forall i: nat :: n <= i < |es| ==> !Ends(clock, es, i, k) && !Renames(At(Start(clock), es, i), es[i], k)
    ensures k in At(Start(clock), es, m).store.devices
    ensures At(Start(clock), es, m).store.devices[k].displayName == At(Start(clock), es, n).store.devices[k].displayName
  {
    if n < m {
      NameUpTo(clock, es, n, m - 1, k);
      StepAt(clock, es, m - 1, k);
    }
  }

  lemma RenameCommits(w: World, uid: Uid, device: DeviceId, name: string)
    requires Step(w, PatchDevice(uid, device, Rename(name))).1 == DevicePatched
    ensures Key(uid, device) in Next(w, PatchDevice(uid, device, Rename(name))).store.devices
    ensures Next(w, PatchDevice(uid, device, Rename(name))).store.devices[Key(uid, device)].displayName == name
  {
  }

  /** Main result: once a user's rename is committed, the name stays through every later point of
      the run, over any number of registrations, sends, joins and sweeps of others, until the
      device is renamed again, taken on request, swept, or replaced by a join onto its id. */
  lemma RenameStays(clock: Millis, es: seq<Event>, n: nat, m: nat, uid: Uid, device: DeviceId, name: string)
    requires n < m <= |es| && es[n] == PatchDevice(uid, device, Rename(name))
    requires ReplyAt(Start(clock), es, n) == DevicePatched
    requires forall i: nat :: n < i < |es| ==>
      !Ends(clock, es, i, Key(uid, device)) && !Renames(At(Start(clock), es, i), es[i], Key(uid, device))
    ensures Key(uid, device) in At(Start(clock), es, m).store.devices
    ensures At(Start(clock), es, m).store.devices[Key(uid, device)].displayName == name
  {
    hide RunTo, Step, Ends, Renames;
    AtNext(Start(clock), es, n);
    RenameCommits(At(Start(clock), es, n), uid, device, name);
    NameUpTo(clock, es, n + 1, m, Key(uid, device));
  }

  // ----- how long an account stays -----

  /** The removal of its last device, or a join that moves it away, deletes the account. */
  predicate EmptiedBy(w: World, e: Event, uid: Uid) {
    var s := w.store;
    uid in s.accounts && s.accounts[uid].deviceCount <= 1 &&
    match e
    case RemoveDevice(u, device) => u == uid && Key(uid, device) in s.devices
    case JoinNetwork(u, input) => u == uid && JoinAllowed(s, uid, input, w.clock)
    case _ => false
  }

  /** A pending sweep of the account is run. */
  predicate AccountSweptBy(w: World, e: Event, uid: Uid) {
    e == RunSweep(SweepAccount(uid)) && SweepAccount(uid) in w.sweeps
  }

  ghost predicate AccountFollows(w: World, e: Event, uid: Uid) {
    uid in w.store.accounts ==>
      (uid !in Next(w, e).store.accounts <==> EmptiedBy(w, e, uid) || AccountSweptBy(w, e, uid))
  }

  lemma AccountEventsKeepAccount(w: World, uid: Uid, u: Uid, input: RegisterInput, device: DeviceId, patch: Patch)
    ensures AccountFollows(w, CreateAccount(u), uid) && AccountFollows(w, RegisterDevice(u, input), uid)
    ensures AccountFollows(w, PatchDevice(u, device, patch), uid)
  {
  }

  lemma SendKeepsAccount(w: World, uid: Uid, u: Uid, source: DeviceId, target: DeviceId)
    ensures AccountFollows(w, NotifyTransfer(u, source, target), uid)
  {
    hide ConsumeSendQuota;
  }

  lemma RemovalAndAccount(w: World, uid: Uid, u: Uid, device: DeviceId, sweep: Sweep)
    ensures AccountFollows(w, RemoveDevice(u, device), uid) && AccountFollows(w, RunSweep(sweep), uid)
  {
  }

  lemma JoinTxAccount(s: Store, uid: Uid, u: Uid, input: JoinInput, now: Millis)
    requires uid in s.accounts
    ensures uid !in JoinNetworkTx(s, u, input, now).0.accounts
      <==> u == uid && s.accounts[uid].deviceCount <= 1 && JoinAllowed(s, u, input, now)
  {
    JoinsIff(s, u, input, now);
  }

  lemma JoinAndAccount(w: World, uid: Uid, u: Uid, input: JoinInput)
    ensures AccountFollows(w, JoinNetwork(u, input), uid)
  {
    if uid in w.store.accounts { JoinTxAccount(w.store, uid, u, input, w.clock); }
    hide JoinNetworkTx;
  }

  lemma OtherEventsKeepAccount(w: World, uid: Uid, e: Event)
    requires !TouchesDocuments(e)
    ensures AccountFollows(w, e, uid)
  {
    hide Step;
    DocumentsUntouched(w, e);
  }

  lemma AccountStep(w: World, e: Event, uid: Uid)
    ensures AccountFollows(w, e, uid)
  {
    hide Step, AccountFollows;
    var input := RegisterInput("", "", "", None, "", None);
    if !TouchesDocuments(e) {
      OtherEventsKeepAccount(w, uid, e);
      return;
    }
    match e
    case CreateAccount(u) => AccountEventsKeepAccount(w, uid, u, input, "", Rename(""));
    case RegisterDevice(u, given) => AccountEventsKeepAccount(w, uid, u, given, "", Rename(""));
    case PatchDevice(u, device, patch) => AccountEventsKeepAccount(w, uid, u, input, device, patch);
    case RemoveDevice(u, device) => RemovalAndAccount(w, uid, u, device, SweepAccount(""));
    case NotifyTransfer(u, source, target) => SendKeepsAccount(w, uid, u, source, target);
    case JoinNetwork(u, given) => JoinAndAccount(w, uid, u, given);
    case RunSweep(sweep) => RemovalAndAccount(w, uid, "", "", sweep);
  }

  ghost predicate AccountStaysFrom(clock: Millis, es: seq<Event>, n: nat, uid: Uid) {
    forall m: nat :: n <= m <= |es| ==> uid in At(Start(clock), es, m).store.accounts
  }

  /** Event `m` of the run deletes the account. */
  predicate AccountEnds(clock: Millis, es: seq<Event>, m: nat, uid: Uid)
    requires m < |es|
  {
    var w := At(Start(clock), es, m);
    EmptiedBy(w, es[m], uid) || AccountSweptBy(w, es[m], uid)
  }

  lemma AccountStepAt(clock: Millis, es: seq<Event>, m: nat, uid: Uid)
    requires m < |es| && uid in At(Start(clock), es, m).store.accounts
    ensures uid !in At(Start(clock), es, m + 1).store.accounts <==> AccountEnds(clock, es, m, uid)
  {
    hide RunTo, Step, EmptiedBy, AccountSweptBy;
    AtNext(Start(clock), es, m);
    AccountStep(At(Start(clock), es, m), es[m], uid);
  }

  lemma {:induction false} AccountUpTo(clock: Millis, es: seq<Event>, n: nat, m: nat, uid: Uid)
    requires n <= m <= |es| && uid in At(Start(clock), es, n).store.accounts
    requires forall i: nat :: n <= i < |es| ==> !AccountEnds(clock, es, i, uid)
    ensures uid in At(Start(clock), es, m).store.accounts
  {
    hide At, AccountEnds;
    if n < m {
      AccountUpTo(clock, es, n, m - 1, uid);
      AccountStepAt(clock, es, m - 1, uid);
    }
  }

  /** Main result: an account stays through the rest of a run if and only if its last device is
      neither removed nor moved away on request and no pending sweep of the account is run, not
      even one that was decided on before the account was created again or used again. */
  lemma AccountStaysIff(clock: Millis, es: seq<Event>, n: nat, uid: Uid)
    requires n <= |es| && uid in At(Start(clock), es, n).store.accounts
    ensures AccountStaysFrom(clock, es, n, uid) <==> forall i: nat :: n <= i < |es| ==> !AccountEnds(clock, es, i, uid)
  {
    hide At, AccountEnds;
    if forall i: nat :: n <= i < |es| ==> !AccountEnds(clock, es, i, uid) {
      forall m: nat | n <= m <= |es| ensures uid in At(Start(clock), es, m).store.accounts {
        AccountUpTo(clock, es, n, m, uid);
      }
    }
    if AccountStaysFrom(clock, es, n, uid) {
      forall i: nat | n <= i < |es| ensures !AccountEnds(clock, es, i, uid) {
        assert uid in At(Start(clock), es, i).store.accounts;
        AccountStepAt(clock, es, i, uid);
      }
    }
  }

  // ----- inactive accounts -----

  /** The event counts as activity of the account: it is created, one of its callables commits
      and leaves it in place, or a device joins it. */
  predicate ChecksIn(w: World, e: Event, uid: Uid) {
    var s := w.store;
    match e
    case CreateAccount(u) => u == uid && uid !in s.accounts
    case RegisterDevice(u, _) => u == uid && uid in s.accounts
    case PatchDevice(u, device, _) => u == uid && uid in s.accounts && Key(uid, device) in s.devices
    case RemoveDevice(u, device) =>
      u == uid && uid in s.accounts && Key(uid, device) in s.devices && s.accounts[uid].deviceCount > 1
    case NotifyTransfer(u, source, target) =>
      && u == uid && uid in s.accounts && Key(uid, source) in s.devices && Key(uid, target) in s.devices
      && ConsumeSendQuota(s.devices[Key(uid, source)].recentSendsAt, w.clock).Ok?
    case JoinNetwork(u, input) =>
      && JoinAllowed(s, u, input, w.clock)
      && (uid == s.tokens[input.tokenId].accountId
          || (uid == u && uid in s.accounts && s.accounts[uid].deviceCount > 1))
    case _ => false
  }

  /** The time of the last activity of the account in the run. */
  function LastCheckIn(w: World, es: seq<Event>, uid: Uid): Option<Millis> {
    if es == [] then None
    else
      var before := RunTo(w, es[..|es| - 1]);
      if ChecksIn(before, es[|es| - 1], uid) then Some(before.clock) else LastCheckIn(w, es[..|es| - 1], uid)
  }

  /** What a step does to the activity stamp of an account. */
  ghost predicate Stamps(s: Store, s': Store, uid: Uid, checksIn: bool, now: Millis) {
    uid in s'.accounts ==>
      if checksIn then s'.accounts[uid].lastActiveAt == now
      else uid in s.accounts && s'.accounts[uid].lastActiveAt == s.accounts[uid].lastActiveAt
  }

  /** The time of creation is that of the step that brings the account about, and stays. */
  ghost predicate Dates(s: Store, s': Store, uid: Uid, now: Millis) {
    uid in s'.accounts ==>
      s'.accounts[uid].createdAt == if uid in s.accounts then s.accounts[uid].createdAt else now
  }

  ghost predicate StampFollows(w: World, e: Event, uid: Uid) {
    && Stamps(w.store, Next(w, e).store, uid, ChecksIn(w, e, uid), w.clock)
    && Dates(w.store, Next(w, e).store, uid, w.clock)
  }

  lemma AccountStamps(w: World, uid: Uid, u: Uid, input: RegisterInput, device: DeviceId, patch: Patch)
    ensures StampFollows(w, CreateAccount(u), uid) && StampFollows(w, RegisterDevice(u, input), uid)
    ensures StampFollows(w, PatchDevice(u, device, patch), uid)
  {
  }

  lemma RemoveStamps(w: World, uid: Uid, u: Uid, device: DeviceId)
    ensures StampFollows(w, RemoveDevice(u, device), uid)
  {
  }

  lemma NotifyStamps(w: World, uid: Uid, u: Uid, source: DeviceId, target: DeviceId)
    ensures StampFollows(w, NotifyTransfer(u, source, target), uid)
  {
    hide ConsumeSendQuota;
  }

  lemma SweepStamps(w: World, uid: Uid, sweep: Sweep)
    ensures StampFollows(w, RunSweep(sweep), uid)
  {
  }

  lemma JoinTxStamps(s: Store, uid: Uid, u: Uid, input: JoinInput, now: Millis)
    ensures Stamps(s, JoinNetworkTx(s, u, input, now).0, uid,
                   && JoinAllowed(s, u, input, now)
                   && (uid == s.tokens[input.tokenId].accountId
                       || (uid == u && uid in s.accounts && s.accounts[uid].deviceCount > 1)), now)
    ensures Dates(s, JoinNetworkTx(s, u, input, now).0, uid, now)
  {
    JoinsIff(s, u, input, now);
  }

  lemma JoinStamps(w: World, uid: Uid, u: Uid, input: JoinInput)
    ensures StampFollows(w, JoinNetwork(u, input), uid)
  {
    JoinTxStamps(w.store, uid, u, input, w.clock);
    hide JoinNetworkTx;
  }

  lemma OtherStamps(w: World, uid: Uid, e: Event)
    requires !TouchesDocuments(e)
    ensures StampFollows(w, e, uid)
  {
    hide Step;
    DocumentsUntouched(w, e);
  }

  lemma StampStep(w: World, e: Event, uid: Uid)
    ensures StampFollows(w, e, uid)
  {
    hide Step, StampFollows;
    var input := RegisterInput("", "", "", None, "", None);
    if !TouchesDocuments(e) {
      OtherStamps(w, uid, e);
      return;
    }
    match e
    case CreateAccount(u) => AccountStamps(w, uid, u, input, "", Rename(""));
    case RegisterDevice(u, given) => AccountStamps(w, uid, u, given, "", Rename(""));
    case PatchDevice(u, device, patch) => AccountStamps(w, uid, u, input, device, patch);
    case RemoveDevice(u, device) => RemoveStamps(w, uid, u, device);
    case NotifyTransfer(u, source, target) => NotifyStamps(w, uid, u, source, target);
    case JoinNetwork(u, given) => JoinStamps(w, uid, u, given);
    case RunSweep(sweep) => SweepStamps(w, uid, sweep);
  }

  /** The stamp on an account is the time of its last activity in the run. */
  lemma {:induction false} StampIsLastCheckIn(clock: Millis, es: seq<Event>, uid: Uid)
    requires uid in RunTo(Start(clock), es).store.accounts
    ensures LastCheckIn(Start(clock), es, uid) == Some(RunTo(Start(clock), es).store.accounts[uid].lastActiveAt)
  {
    var before, e := es[..|es| - 1], es[|es| - 1];
    var w := RunTo(Start(clock), before);
    hide Step, ChecksIn;
    StampStep(w, e, uid);
    if !ChecksIn(w, e, uid) { StampIsLastCheckIn(clock, before, uid); }
  }

  /** The time of the event of the run that last brought the account about. */
  function LastCreation(w: World, es: seq<Event>, uid: Uid): Option<Millis> {
    if es == [] then None
    else
      var before := RunTo(w, es[..|es| - 1]);
      if uid in RunTo(w, es).store.accounts && uid !in before.store.accounts then Some(before.clock)
      else LastCreation(w, es[..|es| - 1], uid)
  }

  /** The creation date on an account is the time it was last created in the run. */
  lemma {:induction false} DateIsLastCreation(clock: Millis, es: seq<Event>, uid: Uid)
    requires uid in RunTo(Start(clock), es).store.accounts
    ensures LastCreation(Start(clock), es, uid) == Some(RunTo(Start(clock), es).store.accounts[uid].createdAt)
  {
    var before, e := es[..|es| - 1], es[|es| - 1];
    var w := RunTo(Start(clock), before);
    hide Step, ChecksIn;
    StampStep(w, e, uid);
    if uid in w.store.accounts { DateIsLastCreation(clock, before, uid); }
  }

  /** Main result: at any point of any run, the weekly job picks an account if and only if it has
      seen no activity for 90 days. */
  lemma AccountPickedIff(clock: Millis, es: seq<Event>, uid: Uid)
    requires uid in RunTo(Start(clock), es).store.accounts
    ensures var w := RunTo(Start(clock), es);
      var active := LastCheckIn(Start(clock), es, uid);
      && active.Some?
      && (Next(w, QueryInactiveAccounts).sweeps[SweepAccount(uid)] > w.sweeps[SweepAccount(uid)]
          <==> active.value + 90 * 24 * 60 * 60 * 1000 <= w.clock)
  {
    hide *;
    StampIsLastCheckIn(clock, es, uid);
    PickedIff(RunTo(Start(clock), es), uid);
  }

  lemma PickedIff(w: World, uid: Uid)
    requires uid in w.store.accounts
    ensures Next(w, QueryInactiveAccounts).sweeps[SweepAccount(uid)] > w.sweeps[SweepAccount(uid)]
      <==> w.store.accounts[uid].lastActiveAt + 90 * 24 * 60 * 60 * 1000 <= w.clock
  {
    var found := InactiveAccounts(w.store, w.clock);
    assert SweepsOf(found)[SweepAccount(uid)] > 0 <==> uid in found;
  }
}
