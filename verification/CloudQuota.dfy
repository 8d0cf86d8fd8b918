/** The send quota keeps a trimmed array on the device document; here it is compared with
    the complete history of accepted sends, over whole runs and across account moves. */
module CloudQuota {
  import opened Common
  import opened CloudStore
  import opened CloudRun

  // ----- the window arithmetic -----

  /** How many entries lie in the window `(lo, hi]`. */
  function CountIn(h: seq<Millis>, lo: Millis, hi: Millis): nat {
    if h == [] then 0
    else CountIn(h[..|h| - 1], lo, hi) + if lo < h[|h| - 1] <= hi then 1 else 0
  }

  ghost predicate Ascending(h: seq<Millis>) {
    forall i, j :: 0 <= i <= j < |h| ==> h[i] <= h[j]
  }

  lemma {:induction false} AfterAppend(a: seq<Millis>, b: seq<Millis>, cutoff: Millis)
    ensures After(a + b, cutoff) == After(a, cutoff) + After(b, cutoff)
  {
    if a == [] {
      assert a + b == b;
    } else {
      AfterAppend(a[1..], b, cutoff);
      assert (a + b)[0] == a[0] && (a + b)[1..] == a[1..] + b;
      assert [a[0]] + (After(a[1..], cutoff) + After(b, cutoff)) == ([a[0]] + After(a[1..], cutoff)) + After(b, cutoff);
    }
  }

  lemma {:induction false} AfterRecent(h: seq<Millis>, cutoff: Millis)
    requires forall i :: 0 <= i < |h| ==> h[i] > cutoff
    ensures After(h, cutoff) == h
  {
    if h != [] { AfterRecent(h[1..], cutoff); }
  }

  /** Trimming keeps exactly the newest entries: a suffix, with everything before it outdated. */
  lemma {:induction false} AfterIsSuffix(h: seq<Millis>, cutoff: Millis)
    requires Ascending(h)
    ensures |After(h, cutoff)| <= |h|
    ensures After(h, cutoff) == h[|h| - |After(h, cutoff)|..]
    ensures forall i :: 0 <= i < |h| - |After(h, cutoff)| ==> h[i] <= cutoff
    ensures forall i :: |h| - |After(h, cutoff)| <= i < |h| ==> h[i] > cutoff
  {
    if h != [] {
      AfterIsSuffix(h[1..], cutoff);
      if h[0] > cutoff {
        AfterRecent(h, cutoff);
      }
    }
  }

  /** Trimming a second time, later, forgets nothing that trimming once would have kept. */
  lemma {:induction false} AfterOutdated(h: seq<Millis>, cutoff: Millis)
    requires forall i :: 0 <= i < |h| ==> h[i] <= cutoff
    ensures After(h, cutoff) == []
  {
    if h != [] { AfterOutdated(h[1..], cutoff); }
  }

  lemma {:induction false} AfterCounts(h: seq<Millis>, cutoff: Millis, now: Millis)
    requires forall i :: 0 <= i < |h| ==> h[i] <= now
    ensures |After(h, cutoff)| == CountIn(h, cutoff, now)
  {
    if h != [] {
      var init, last := h[..|h| - 1], h[|h| - 1];
      AfterCounts(init, cutoff, now);
      AfterAppend(init, [last], cutoff);
      assert h == init + [last];
      assert After([last], cutoff) == if last > cutoff then [last] else [] by { assert [last][1..] == []; }
    }
  }

  /** How many entries lie in the one-hour window that ends with `t`. */
  function InHour(h: seq<Millis>, t: Millis): nat {
    CountIn(h, t - 3600000, t)
  }

  lemma CountAppend(h: seq<Millis>, t: Millis, lo: Millis, hi: Millis)
    ensures CountIn(h + [t], lo, hi) == CountIn(h, lo, hi) + if lo < t <= hi then 1 else 0
  {
    assert (h + [t])[..|h + [t]| - 1] == h;
  }

  // ----- the array on the document against the history -----

  /** `recent` is what a device document holds after the accepted sends `h`: the newest of
      them, the forgotten ones being an hour old or older. */
  ghost predicate Remembers(recent: seq<Millis>, h: seq<Millis>, clock: Millis) {
    && Ascending(h)
    && (forall i :: 0 <= i < |h| ==> h[i] <= clock)
    && |recent| <= |h|
    && recent == h[|h| - |recent|..]
    && (forall i :: 0 <= i < |h| - |recent| ==> h[i] <= clock - RATE_LIMIT_WINDOW_MS)
  }

  /** Every one-hour window `(t - 1h, t]` holds at most 30 accepted sends. */
  ghost predicate WindowsBounded(h: seq<Millis>) {
    forall t: Millis :: InHour(h, t) <= SEND_RATE_LIMIT_PER_HOUR
  }

  lemma RemembersWindow(recent: seq<Millis>, h: seq<Millis>, now: Millis)
    requires Remembers(recent, h, now)
    ensures After(recent, now - RATE_LIMIT_WINDOW_MS) == After(h, now - RATE_LIMIT_WINDOW_MS)
  {
    var old' := h[..|h| - |recent|];
    AfterOutdated(old', now - RATE_LIMIT_WINDOW_MS);
    AfterAppend(old', recent, now - RATE_LIMIT_WINDOW_MS);
    assert h == old' + recent;
  }

  /** A window that reaches past the newest entry holds no more than the one that ends there. */
  lemma {:induction false} WindowEndsNow(h: seq<Millis>, t: Millis, now: Millis)
    requires now <= t && forall i :: 0 <= i < |h| ==> h[i] <= now
    ensures InHour(h, t) <= InHour(h, now)
  {
    if h != [] { WindowEndsNow(h[..|h| - 1], t, now); }
  }

  /** One more send keeps every window bounded when the last hour has room for it. */
  lemma OneMoreSend(h: seq<Millis>, now: Millis)
    requires WindowsBounded(h) && InHour(h, now) < SEND_RATE_LIMIT_PER_HOUR
    requires forall i :: 0 <= i < |h| ==> h[i] <= now
    ensures WindowsBounded(h + [now])
  {
    forall t: Millis ensures InHour(h + [now], t) <= SEND_RATE_LIMIT_PER_HOUR {
      CountAppend(h, now, t - RATE_LIMIT_WINDOW_MS, t);
      assert InHour(h, t) <= SEND_RATE_LIMIT_PER_HOUR;
      if now <= t { WindowEndsNow(h, t, now); }
    }
  }

  lemma TrimmedRemembers(h: seq<Millis>, now: Millis)
    requires Ascending(h) && forall i :: 0 <= i < |h| ==> h[i] <= now
    ensures Remembers(After(h, now - RATE_LIMIT_WINDOW_MS) + [now], h + [now], now)
  {
    var kept := After(h, now - RATE_LIMIT_WINDOW_MS);
    AfterIsSuffix(h, now - RATE_LIMIT_WINDOW_MS);
    assert (h + [now])[|h + [now]| - |kept + [now]|..] == kept + [now];
  }

  /** One quota check against the full history: it passes exactly when fewer than 30 accepted
      sends lie in the last hour, and then the new array remembers the extended history. */
  lemma ConsumeRefinesHistory(existing: Option<seq<Millis>>, h: seq<Millis>, now: Millis)
    requires Remembers(if existing.Some? then existing.value else [], h, now)
    requires WindowsBounded(h)
    ensures ConsumeSendQuota(existing, now).Ok? <==> InHour(h, now) < SEND_RATE_LIMIT_PER_HOUR
    ensures ConsumeSendQuota(existing, now).Ok? ==>
      Remembers(ConsumeSendQuota(existing, now).value, h + [now], now) && WindowsBounded(h + [now])
  {
    RemembersWindow(if existing.Some? then existing.value else [], h, now);
    AfterCounts(h, now - RATE_LIMIT_WINDOW_MS, now);
    if InHour(h, now) < SEND_RATE_LIMIT_PER_HOUR {
      OneMoreSend(h, now);
      TrimmedRemembers(h, now);
    }
  }

  /** What is stored after an accepted send: only sends of the last hour, at most 30, the new one last. */
  lemma StoredSendsAreRecent(existing: Option<seq<Millis>>, now: Millis)
    requires ConsumeSendQuota(existing, now).Ok?
    ensures var stored := ConsumeSendQuota(existing, now).value;
      && 0 < |stored| <= 30 && stored[|stored| - 1] == now
      && forall i :: 0 <= i < |stored| ==> stored[i] > now - 3600000
  {
    AfterKeepsRecent(if existing.Some? then existing.value else [], now - 3600000);
  }

  lemma {:induction false} AfterKeepsRecent(h: seq<Millis>, cutoff: Millis)
    ensures forall i :: 0 <= i < |After(h, cutoff)| ==> After(h, cutoff)[i] > cutoff
  {
    if h != [] { AfterKeepsRecent(h[1..], cutoff); }
  }

  // ----- the complete history of a device, read off the run -----

  /** Where the document that is at `k` after `e` was before; `None` if `e` created it. */
  function CameFrom(w: World, e: Event, k: Key): Option<Key> {
    var r := Step(w, e).1;
    match e
    case JoinNetwork(uid, input) =>
      if !r.Joined? || k != Key(r.target, input.device) then Some(k)
      else if r.hadSourceAccount then Some(Key(uid, input.device))
      else None
    case RegisterDevice(uid, input) =>
      if r == DeviceRegistered(true) && k == Key(uid, input.device) then None else Some(k)
    case _ => Some(k)
  }

  /** Where the document that is at `k` when the run ends was before its `n`-th event, if it was
      there already. */
  function PathAt(w: World, es: seq<Event>, n: nat, k: Key): Option<Key>
    requires n <= |es|
    decreases |es| - n
  {
    if n == |es| then Some(k)
    else
      var later := PathAt(w, es, n + 1, k);
      if later.None? then None else CameFrom(At(w, es, n), es[n], later.value)
  }

  /** The event is a send of the device at `k` that is accepted. */
  predicate AcceptedSend(w: World, e: Event, k: Key) {
    e.NotifyTransfer? && Key(e.uid, e.source) == k && Step(w, e).1.Notified?
  }

  /** The times of the accepted sends among the first `n` events that are by the device that is
      at `k` when the run ends, wherever it was then. */
  function SendTimes(w: World, es: seq<Event>, n: nat, k: Key): seq<Millis>
    requires n <= |es|
  {
    if n == 0 then []
    else
      var before, path := SendTimes(w, es, n - 1, k), PathAt(w, es, n - 1, k);
      if path.Some? && AcceptedSend(At(w, es, n - 1), es[n - 1], path.value) then before + [At(w, es, n - 1).clock]
      else before
  }

  /** The complete history: every accepted send of the device in the whole run. */
  function History(w: World, es: seq<Event>, k: Key): seq<Millis> {
    SendTimes(w, es, |es|, k)
  }

  lemma AtSame(w: World, es: seq<Event>, e: Event, n: nat)
    requires n <= |es|
    ensures At(w, es + [e], n) == At(w, es, n)
  {
    assert (es + [e])[..n] == es[..n];
  }

  lemma {:induction false} PathLater(w: World, es: seq<Event>, e: Event, n: nat, k: Key)
    requires n <= |es|
    ensures PathAt(w, es + [e], n, k) ==
      var p := CameFrom(RunTo(w, es), e, k);
      if p.None? then None else PathAt(w, es, n, p.value)
    decreases |es| - n
  {
    hide CameFrom, RunTo;
    AtSame(w, es, e, n);
    if n == |es| {
      assert es[..|es|] == es;
      assert PathAt(w, es + [e], |es| + 1, k) == Some(k);
    } else {
      PathLater(w, es, e, n + 1, k);
      assert (es + [e])[n] == es[n];
    }
  }

  lemma {:induction false} SendTimesLater(w: World, es: seq<Event>, e: Event, n: nat, k: Key)
    requires n <= |es|
    ensures SendTimes(w, es + [e], n, k) ==
      var p := CameFrom(RunTo(w, es), e, k);
      if p.None? then [] else SendTimes(w, es, n, p.value)
  {
    hide CameFrom, RunTo, PathAt, AcceptedSend;
    if n > 0 {
      SendTimesLater(w, es, e, n - 1, k);
      PathLater(w, es, e, n - 1, k);
      AtSame(w, es, e, n - 1);
      assert (es + [e])[n - 1] == es[n - 1];
    }
  }

  /** One more event: the history of where the document was, and the event if it is a send. */
  lemma HistoryThen(w: World, es: seq<Event>, e: Event, k: Key)
    ensures History(w, es + [e], k) ==
      var p := CameFrom(RunTo(w, es), e, k);
      (if p.None? then [] else History(w, es, p.value))
        + (if AcceptedSend(RunTo(w, es), e, k) then [RunTo(w, es).clock] else [])
  {
    hide RunTo, Step;
    SendTimesLater(w, es, e, |es|, k);
    PathLater(w, es, e, |es|, k);
    AtSame(w, es, e, |es|);
    assert es[..|es|] == es && (es + [e])[|es|] == e;
  }

  // ----- the array on the document keeps up with the history -----

  ghost predicate DocRemembers(d: DeviceDoc, h: seq<Millis>, clock: Millis) {
    Remembers(Sends(d), h, clock) && WindowsBounded(h)
  }

  /** Every device document remembers its complete history. */
  ghost predicate QuotaInv(clock: Millis, es: seq<Event>) {
    var w := RunTo(Start(clock), es);
    forall k :: k in w.store.devices ==> DocRemembers(w.store.devices[k], History(Start(clock), es, k), w.clock)
  }

  /** The document at `k` after `e` remembers what follows from `h`, if its predecessor
      remembers `h`. */
  ghost predicate Passes(w: World, e: Event, k: Key, h: seq<Millis>)
    requires k in Next(w, e).store.devices
  {
    var p := CameFrom(w, e, k);
    (p.Some? ==> p.value in w.store.devices && DocRemembers(w.store.devices[p.value], h, w.clock)) ==>
      DocRemembers(Next(w, e).store.devices[k],
                   (if p.None? then [] else h) + (if AcceptedSend(w, e, k) then [w.clock] else []), Next(w, e).clock)
  }

  lemma NoSendsYet(d: DeviceDoc, clock: Millis)
    requires Sends(d) == []
    ensures DocRemembers(d, [], clock)
  {
  }

  lemma RemembersLater(d: DeviceDoc, d': DeviceDoc, h: seq<Millis>, clock: Millis, later: Millis)
    requires DocRemembers(d, h, clock) && clock <= later && Sends(d') == Sends(d)
    ensures DocRemembers(d', h, later)
  {
  }

  lemma NotifyPasses(w: World, uid: Uid, source: DeviceId, target: DeviceId, k: Key, h: seq<Millis>)
    requires k in Next(w, NotifyTransfer(uid, source, target)).store.devices
    ensures Passes(w, NotifyTransfer(uid, source, target), k, h)
    ensures k in w.store.devices
  {
    hide Remembers, WindowsBounded;
    assert h + [] == h;
    if AcceptedSend(w, NotifyTransfer(uid, source, target), k) && DocRemembers(w.store.devices[k], h, w.clock) {
      ConsumeRefinesHistory(w.store.devices[k].recentSendsAt, h, w.clock);
    }
  }

  /** A moved document keeps its sends, a welcomed one has none, and all others stay. */
  lemma JoinPasses(w: World, uid: Uid, input: JoinInput, k: Key, h: seq<Millis>)
    requires k in Next(w, JoinNetwork(uid, input)).store.devices
    ensures Passes(w, JoinNetwork(uid, input), k, h)
    ensures var p := CameFrom(w, JoinNetwork(uid, input), k); p.Some? ==> p.value in w.store.devices
  {
    hide Remembers, WindowsBounded;
    assert h + [] == h;
    var w' := Next(w, JoinNetwork(uid, input));
    if CameFrom(w, JoinNetwork(uid, input), k).None? {
      var none: seq<Millis> := [];
      assert none + none == none;
      NoSendsYet(w'.store.devices[k], w'.clock);
    }
  }

  lemma RegisterPasses(w: World, uid: Uid, input: RegisterInput, k: Key, h: seq<Millis>)
    requires k in Next(w, RegisterDevice(uid, input)).store.devices
    ensures Passes(w, RegisterDevice(uid, input), k, h)
    ensures var p := CameFrom(w, RegisterDevice(uid, input), k); p.Some? ==> p.value in w.store.devices
  {
    hide Remembers, WindowsBounded;
    assert h + [] == h;
    var w' := Next(w, RegisterDevice(uid, input));
    if CameFrom(w, RegisterDevice(uid, input), k).None? {
      var none: seq<Millis> := [];
      assert none + none == none;
      NoSendsYet(w'.store.devices[k], w'.clock);
    }
  }

  /** The documents there are were there before, each with its sends. */
  ghost predicate SameSends(s: Store, s': Store) {
    forall k :: k in s'.devices ==> k in s.devices && Sends(s'.devices[k]) == Sends(s.devices[k])
  }

  lemma TransactionsKeepSends(s: Store, uid: Uid, device: DeviceId, patch: Patch, sweep: Sweep, now: Millis)
    ensures SameSends(s, CreateAccountTx(s, uid, now).0)
    ensures SameSends(s, PatchDeviceTx(s, uid, device, patch, now).0)
    ensures SameSends(s, RemoveDeviceTx(s, uid, device, now).0)
    ensures SameSends(s, Sweeping(s, sweep))
  {
  }

  lemma OthersKeepSends(w: World, uid: Uid, device: DeviceId, patch: Patch, sweep: Sweep)
    ensures SameSends(w.store, Next(w, CreateAccount(uid)).store) && Next(w, CreateAccount(uid)).clock == w.clock
    ensures SameSends(w.store, Next(w, PatchDevice(uid, device, patch)).store)
    ensures Next(w, PatchDevice(uid, device, patch)).clock == w.clock
    ensures SameSends(w.store, Next(w, RemoveDevice(uid, device)).store)
    ensures Next(w, RemoveDevice(uid, device)).clock == w.clock
    ensures SameSends(w.store, Next(w, RunSweep(sweep)).store) && Next(w, RunSweep(sweep)).clock == w.clock
  {
    TransactionsKeepSends(w.store, uid, device, patch, sweep, w.clock);
    assert SameSends(w.store, w.store);
    hide CreateAccountTx, PatchDeviceTx, RemoveDeviceTx, Sweeping, SameSends;
  }

  lemma OthersPass(w: World, e: Event, k: Key, h: seq<Millis>)
    requires !(e.NotifyTransfer? || e.JoinNetwork? || e.RegisterDevice?)
    requires k in Next(w, e).store.devices
    ensures k in w.store.devices && Passes(w, e, k, h)
  {
    hide Step, Remembers, WindowsBounded;
    match e {
      case CreateAccount(uid) => OthersKeepSends(w, uid, "", Rename(""), SweepAccount(""));
      case PatchDevice(uid, device, patch) => OthersKeepSends(w, uid, device, patch, SweepAccount(""));
      case RemoveDevice(uid, device) => OthersKeepSends(w, uid, device, Rename(""), SweepAccount(""));
      case RunSweep(sweep) => OthersKeepSends(w, "", "", Rename(""), sweep);
      case _ => DocumentsUntouched(w, e);
    }
    assert h + [] == h;
    if DocRemembers(w.store.devices[k], h, w.clock) {
      RemembersLater(w.store.devices[k], Next(w, e).store.devices[k], h, w.clock, Next(w, e).clock);
    }
  }

  lemma EveryStepPasses(w: World, e: Event, k: Key, h: seq<Millis>)
    requires k in Next(w, e).store.devices
    ensures Passes(w, e, k, h)
    ensures CameFrom(w, e, k).Some? ==> CameFrom(w, e, k).value in w.store.devices
  {
    hide Step, Passes;
    match e
    case NotifyTransfer(uid, source, target) => NotifyPasses(w, uid, source, target, k, h);
    case JoinNetwork(uid, input) => JoinPasses(w, uid, input, k, h);
    case RegisterDevice(uid, input) => RegisterPasses(w, uid, input, k, h);
    case _ => OthersPass(w, e, k, h);
  }

  lemma QuotaStep(clock: Millis, es: seq<Event>, e: Event)
    requires QuotaInv(clock, es)
    ensures QuotaInv(clock, es + [e])
  {
    var w := RunTo(Start(clock), es);
    RunToThen(Start(clock), es, e);
    hide RunTo, Step, CameFrom, DocRemembers, AcceptedSend, History;
    forall k | k in Next(w, e).store.devices
      ensures DocRemembers(Next(w, e).store.devices[k], History(Start(clock), es + [e], k), Next(w, e).clock)
    {
      var p := CameFrom(w, e, k);
      HistoryThen(Start(clock), es, e, k);
      EveryStepPasses(w, e, k, if p.Some? then History(Start(clock), es, p.value) else []);
    }
  }

  lemma {:induction false} QuotaAlways(clock: Millis, es: seq<Event>)
    ensures QuotaInv(clock, es)
  {
    if es != [] {
      QuotaAlways(clock, es[..|es| - 1]);
      QuotaStep(clock, es[..|es| - 1], es[|es| - 1]);
      assert es == es[..|es| - 1] + [es[|es| - 1]];
    }
  }

  lemma NotifiedIff(s: Store, uid: Uid, source: DeviceId, target: DeviceId, now: Millis)
    requires Key(uid, source) in s.devices && Key(uid, target) in s.devices && uid in s.accounts
    ensures NotifyTx(s, uid, source, target, now).1.Notified?
      <==> ConsumeSendQuota(s.devices[Key(uid, source)].recentSendsAt, now).Ok?
  {
  }

  lemma SendAcceptedStep(w: World, h: seq<Millis>, uid: Uid, source: DeviceId, target: DeviceId)
    requires Key(uid, source) in w.store.devices && Key(uid, target) in w.store.devices && uid in w.store.accounts
    requires DocRemembers(w.store.devices[Key(uid, source)], h, w.clock)
    ensures Step(w, NotifyTransfer(uid, source, target)).1.Notified? <==> InHour(h, w.clock) < SEND_RATE_LIMIT_PER_HOUR
  {
    hide NotifyTx, Remembers, WindowsBounded;
    NotifiedIff(w.store, uid, source, target, w.clock);
    ConsumeRefinesHistory(w.store.devices[Key(uid, source)].recentSendsAt, h, w.clock);
  }

  /** A send of the device at `source` to one at `target`, both of the same account, can be asked for. */
  ghost predicate CanSend(w: World, uid: Uid, source: DeviceId, target: DeviceId) {
    Key(uid, source) in w.store.devices && Key(uid, target) in w.store.devices && uid in w.store.accounts
  }

  /** Main result: at every point of every run, a send between two devices of an account is
      accepted if and only if fewer than 30 of the sends the run has accepted from the source
      device, at whatever path it then was, lie in the last hour. */
  lemma SendAcceptedIff(clock: Millis, es: seq<Event>, uid: Uid, source: DeviceId, target: DeviceId)
    requires CanSend(RunTo(Start(clock), es), uid, source, target)
    ensures var w := RunTo(Start(clock), es);
      Step(w, NotifyTransfer(uid, source, target)).1.Notified?
      <==> InHour(History(Start(clock), es, Key(uid, source)), w.clock) < 30
  {
    QuotaAlways(clock, es);
    hide RunTo, Step, History;
    SendAcceptedStep(RunTo(Start(clock), es), History(Start(clock), es, Key(uid, source)), uid, source, target);
  }

  /** Main result: no one-hour window of any device's complete history ever holds more than 30 sends. */
  lemma NoWindowOverflows(clock: Millis, es: seq<Event>, k: Key, t: Millis)
    requires k in RunTo(Start(clock), es).store.devices
    ensures InHour(History(Start(clock), es, k), t) <= 30
  {
    QuotaAlways(clock, es);
    hide RunTo, History;
    var w := RunTo(Start(clock), es);
    assert DocRemembers(w.store.devices[k], History(Start(clock), es, k), w.clock);
  }

  // ----- moves, registrations and edits do not win quota back -----

  /** The device the join moves is at `to` afterwards, at `from` before. */
  lemma MoveComesFrom(w: World, uid: Uid, input: JoinInput)
    requires Step(w, JoinNetwork(uid, input)).1.Joined? && Step(w, JoinNetwork(uid, input)).1.hadSourceAccount
    ensures CameFrom(w, JoinNetwork(uid, input), Key(Step(w, JoinNetwork(uid, input)).1.target, input.device))
      == Some(Key(uid, input.device))
    ensures Next(w, JoinNetwork(uid, input)).clock == w.clock
  {
  }

  /** Main result: after a device has moved to another account, its sends there are accepted if
      and only if fewer than 30 of the sends accepted from it before the move, in the account it
      left and wherever it was before, lie in the last hour. */
  lemma QuotaSurvivesMove(clock: Millis, es: seq<Event>, uid: Uid, input: JoinInput, other: DeviceId)
    requires var r := Step(RunTo(Start(clock), es), JoinNetwork(uid, input)).1;
      && r.Joined? && r.hadSourceAccount
      && CanSend(Next(RunTo(Start(clock), es), JoinNetwork(uid, input)), r.target, input.device, other)
    ensures var w := RunTo(Start(clock), es);
      var target := Step(w, JoinNetwork(uid, input)).1.target;
      Step(Next(w, JoinNetwork(uid, input)), NotifyTransfer(target, input.device, other)).1.Notified?
      <==> InHour(History(Start(clock), es, Key(uid, input.device)), w.clock) < 30
  {
    var w, e := RunTo(Start(clock), es), JoinNetwork(uid, input);
    MoveComesFrom(w, uid, input);
    AcrossStep(clock, es, e, Step(w, e).1.target, input.device, other, uid);
  }

  /** Main result: registering a device again leaves it the quota it had. */
  lemma QuotaSurvivesRegistration(clock: Millis, es: seq<Event>, uid: Uid, input: RegisterInput, other: DeviceId)
    requires var w := RunTo(Start(clock), es);
      && Step(w, RegisterDevice(uid, input)).1 == DeviceRegistered(false)
      && CanSend(Next(w, RegisterDevice(uid, input)), uid, input.device, other)
    ensures var w := RunTo(Start(clock), es);
      Step(Next(w, RegisterDevice(uid, input)), NotifyTransfer(uid, input.device, other)).1.Notified?
      <==> InHour(History(Start(clock), es, Key(uid, input.device)), w.clock) < 30
  {
    AcrossStep(clock, es, RegisterDevice(uid, input), uid, input.device, other, uid);
  }

  /** Main result: so does renaming it or changing its icon. */
  lemma QuotaSurvivesPatch(clock: Millis, es: seq<Event>, uid: Uid, device: DeviceId, patch: Patch, other: DeviceId)
    requires CanSend(Next(RunTo(Start(clock), es), PatchDevice(uid, device, patch)), uid, device, other)
    ensures var w := RunTo(Start(clock), es);
      Step(Next(w, PatchDevice(uid, device, patch)), NotifyTransfer(uid, device, other)).1.Notified?
      <==> InHour(History(Start(clock), es, Key(uid, device)), w.clock) < 30
  {
    AcrossStep(clock, es, PatchDevice(uid, device, patch), uid, device, other, uid);
  }

  /** A step that is no send and lets no time pass: the sends of a device before it decide. */
  lemma AcrossStep(clock: Millis, es: seq<Event>, e: Event, uid: Uid, device: DeviceId, other: DeviceId, from: Uid)
    requires var w := RunTo(Start(clock), es);
      && !e.NotifyTransfer? && Next(w, e).clock == w.clock
      && CameFrom(w, e, Key(uid, device)) == Some(Key(from, device))
      && CanSend(Next(w, e), uid, device, other)
    ensures var w := RunTo(Start(clock), es);
      Step(Next(w, e), NotifyTransfer(uid, device, other)).1.Notified?
      <==> InHour(History(Start(clock), es, Key(from, device)), w.clock) < 30
  {
    RunToThen(Start(clock), es, e);
    HistoryThen(Start(clock), es, e, Key(uid, device));
    var h := History(Start(clock), es, Key(from, device));
    assert h + [] == h;
    hide RunTo, Step, History, CameFrom;
    SendAcceptedIff(clock, es + [e], uid, device, other);
  }
}
