/** Which documents an event may change, and what a device keeps of its own. */
module CloudIsolation {
  import opened Common
  import opened CloudStore
  import opened CloudRun

  /** The account whose documents `e` works on, if it works on any. */
  function Actor(e: Event): Option<Uid> {
    match e
    case CreateAccount(uid) => Some(uid)
    case RegisterDevice(uid, _) => Some(uid)
    case PatchDevice(uid, _, _) => Some(uid)
    case RemoveDevice(uid, _) => Some(uid)
    case JoinNetwork(uid, _) => Some(uid)
    case NotifyTransfer(uid, _, _) => Some(uid)
    case RunSweep(SweepDevice(k)) => Some(k.uid)
    case RunSweep(SweepAccount(uid)) => Some(uid)
    case _ => None
  }

  /** The documents of account `v` are the same in both stores. */
  ghost predicate SameAccount(s: Store, s': Store, v: Uid) {
    && (v in s.accounts <==> v in s'.accounts)
    && (v in s.accounts ==> s.accounts[v] == s'.accounts[v])
    && Group(s, v) == Group(s', v)
    && (forall k :: k in Group(s, v) ==> s.devices[k] == s'.devices[k])
  }

  lemma OthersUntouchedByJoin(w: World, uid: Uid, input: JoinInput, v: Uid)
    requires v != uid && !(Step(w, JoinNetwork(uid, input)).1.Joined? && Step(w, JoinNetwork(uid, input)).1.target == v)
    ensures SameAccount(w.store, Next(w, JoinNetwork(uid, input)).store, v)
  {
  }

  /** Two stores differ at most in the documents of account `uid`. */
  ghost predicate OnlyAbout(s: Store, s': Store, uid: Uid) {
    && s.accounts - {uid} == s'.accounts - {uid}
    && s.devices - Group(s, uid) == s'.devices - Group(s', uid)
  }

  lemma OnlyAboutSpares(s: Store, s': Store, uid: Uid, v: Uid)
    requires OnlyAbout(s, s', uid) && v != uid
    ensures SameAccount(s, s', v)
  {
    assert v in s.accounts <==> v in s.accounts - {uid};
    assert v in s'.accounts <==> v in s'.accounts - {uid};
    forall k: Key | k.uid == v
      ensures k in s.devices <==> k in s'.devices
      ensures k in s.devices ==> s.devices[k] == s'.devices[k]
    {
      assert k in s.devices <==> k in s.devices - Group(s, uid);
      assert k in s'.devices <==> k in s'.devices - Group(s', uid);
    }
  }

  lemma RegisterAbout(s: Store, uid: Uid, input: RegisterInput, now: Millis)
    ensures OnlyAbout(s, RegisterDeviceTx(s, uid, input, now).0, uid)
  {
  }

  lemma PatchAbout(s: Store, uid: Uid, device: DeviceId, patch: Patch, now: Millis)
    ensures OnlyAbout(s, PatchDeviceTx(s, uid, device, patch, now).0, uid)
  {
  }

  lemma RemoveAbout(s: Store, uid: Uid, device: DeviceId, now: Millis)
    ensures OnlyAbout(s, RemoveDeviceTx(s, uid, device, now).0, uid)
  {
  }

  lemma NotifyAbout(s: Store, uid: Uid, source: DeviceId, target: DeviceId, now: Millis)
    ensures OnlyAbout(s, NotifyTx(s, uid, source, target, now).0, uid)
  {
  }

  lemma SweepAbout(s: Store, sweep: Sweep)
    ensures OnlyAbout(s, Sweeping(s, sweep), if sweep.SweepDevice? then sweep.key.uid else sweep.uid)
  {
  }

  lemma OthersUntouchedByNonJoin(w: World, e: Event, uid: Uid, v: Uid)
    requires TouchesDocuments(e) && !e.JoinNetwork? && Actor(e) == Some(uid) && uid != v
    ensures SameAccount(w.store, Next(w, e).store, v)
  {
    match e {
      case CreateAccount(_) =>
      case RegisterDevice(_, input) => RegisterAbout(w.store, uid, input, w.clock);
      case PatchDevice(_, device, patch) => PatchAbout(w.store, uid, device, patch, w.clock);
      case RemoveDevice(_, device) => RemoveAbout(w.store, uid, device, w.clock);
      case NotifyTransfer(_, source, target) => NotifyAbout(w.store, uid, source, target, w.clock);
      case RunSweep(sweep) => SweepAbout(w.store, sweep);
    }
    OnlyAboutSpares(w.store, Next(w, e).store, uid, v);
  }

  /** Isolation: no event changes any document of an account it is not about, the only
      exception being the account a committed join enters. */
  lemma Isolation(w: World, e: Event, v: Uid)
    requires Actor(e) != Some(v)
    requires !(Step(w, e).1.Joined? && Step(w, e).1.target == v)
    ensures SameAccount(w.store, Next(w, e).store, v)
  {
    if !TouchesDocuments(e) {
      DocumentsUntouched(w, e);
      assert Group(Next(w, e).store, v) == Group(w.store, v);
    } else if e.JoinNetwork? {
      OthersUntouchedByJoin(w, e.uid, e.joinInput, v);
    } else {
      OthersUntouchedByNonJoin(w, e, Actor(e).value, v);
    }
  }

  /** Isolation over whole runs: the documents of an account change only through events about
      it and joins into it. */
  lemma {:induction false} IsolationRun(w: World, es: seq<Event>, v: Uid)
    requires forall n: nat :: n < |es| ==>
      Actor(es[n]) != Some(v) && !(ReplyAt(w, es, n).Joined? && ReplyAt(w, es, n).target == v)
    ensures SameAccount(w.store, RunTo(w, es).store, v)
  {
    if es != [] {
      var before, last := es[..|es| - 1], |es| - 1;
      forall n: nat | n < |before|
        ensures Actor(before[n]) != Some(v) && !(ReplyAt(w, before, n).Joined? && ReplyAt(w, before, n).target == v)
      {
        assert es[..n] == before[..n];
        assert ReplyAt(w, es, n) == ReplyAt(w, before, n);
      }
      IsolationRun(w, before, v);
      assert ReplyAt(w, es, last) == Step(RunTo(w, before), es[last]).1;
      Isolation(RunTo(w, before), es[last], v);
    }
  }

  /** Re-registering refreshes push token and platform only: the name and icon the user chose,
      the sends on record and, unless the caller supplies a new one, the fingerprint survive. */
  lemma ReRegistrationKeepsEdits(s: Store, uid: Uid, input: RegisterInput, now: Millis)
    requires uid in s.accounts && Key(uid, input.device) in s.devices
    ensures var k := Key(uid, input.device);
      var (s', r) := RegisterDeviceTx(s, uid, input, now);
      && r == DeviceRegistered(false)
      && s'.devices.Keys == s.devices.Keys
      && s'.accounts[uid].deviceCount == s.accounts[uid].deviceCount
      && var d, d' := s.devices[k], s'.devices[k];
      && (d'.displayName, d'.icon, d'.recentSendsAt) == (d.displayName, d.icon, d.recentSendsAt)
      && (d'.fcmToken, d'.platform) == (input.fcmToken, input.platform)
      && (if input.fingerprint.None? then d'.fingerprint == d.fingerprint else d'.fingerprint == input.fingerprint)
  {
  }
}
