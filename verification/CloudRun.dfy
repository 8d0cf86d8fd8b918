/** Runs of the cloud backend. A transaction is one step; whatever a callable does after
    its transaction (a `recursiveDelete`, a batch commit, the write of a minted token) is
    a step of its own that any other step may precede. The clock moves only in `Tick`. */
module CloudRun {
  import opened Common
  import opened CloudStore

  /** A `recursiveDelete` some callable has decided on and not yet performed. */
  datatype Sweep = SweepDevice(key: Key) | SweepAccount(uid: Uid)

  datatype World = World(
    store: Store,
    clock: Millis,
    /** token ids drawn so far; a drawn id is never drawn again */
    issued: set<TokenId>,
    /** tokens minted but not yet written */
    minting: map<TokenId, JoinTokenDoc>,
    sweeps: multiset<Sweep>,
    /** batches of expired token ids read but not yet committed */
    expiring: multiset<set<TokenId>>)

  datatype Event =
    | Tick(elapsed: nat)
    | CreateAccount(uid: Uid)
    | DeleteAccount(uid: Uid)
    | RegisterDevice(uid: Uid, input: RegisterInput)
    | PatchDevice(uid: Uid, device: DeviceId, patch: Patch)
    | RemoveDevice(uid: Uid, device: DeviceId)
    | CreateJoinToken(uid: Uid, device: DeviceId, tokenId: TokenId)
    | WriteJoinToken(tokenId: TokenId)
    | PreviewToken(tokenId: TokenId)
    | JoinNetwork(uid: Uid, joinInput: JoinInput)
    | NotifyTransfer(uid: Uid, source: DeviceId, target: DeviceId)
    | RunSweep(sweep: Sweep)
    | QueryInactiveAccounts
    | QueryExpiredTokens
    | CommitExpiredTokens(ids: set<TokenId>)

  const EMPTY_STORE := Store(map[], map[], map[])

  function Start(clock: Millis): World {
    World(EMPTY_STORE, clock, {}, map[], multiset{}, multiset{})
  }

  function WithStore(w: World, r: (Store, Reply)): (World, Reply) {
    (w.(store := r.0), r.1)
  }

  /** The sweep a removal or join by account `uid` of device `device` goes on to run. */
  function SweepDue(uid: Uid, device: DeviceId, r: Reply): Option<Sweep> {
    match r
    case DeviceRemoved(deleted) => Some(if deleted then SweepAccount(uid) else SweepDevice(Key(uid, device)))
    case Joined(_, deleted, true) => Some(if deleted then SweepAccount(uid) else SweepDevice(Key(uid, device)))
    case _ => None
  }

  function Scheduled(due: Option<Sweep>): multiset<Sweep> {
    if due.Some? then multiset{due.value} else multiset{}
  }

  function SweepsOf(uids: set<Uid>): multiset<Sweep> {
    multiset(set u | u in uids :: SweepAccount(u))
  }

  function Sweeping(s: Store, sweep: Sweep): Store {
    match sweep
    case SweepDevice(k) => SweepDeviceStep(s, k)
    case SweepAccount(uid) => SweepAccountStep(s, uid)
  }

  /** One step; an event that cannot happen in `w` leaves it as it is and is `Quiet`. */
  function Step(w: World, e: Event): (World, Reply) {
    match e
    case Tick(elapsed) => (w.(clock := w.clock + elapsed), Quiet)
    case CreateAccount(uid) => WithStore(w, CreateAccountTx(w.store, uid, w.clock))
    case DeleteAccount(uid) =>
      if uid in w.store.accounts
      then (w.(sweeps := w.sweeps + multiset{SweepAccount(uid)}), AccountDeletion(true))
      else (w, AccountDeletion(false))
    case RegisterDevice(uid, input) => WithStore(w, RegisterDeviceTx(w.store, uid, input, w.clock))
    case PatchDevice(uid, device, patch) => WithStore(w, PatchDeviceTx(w.store, uid, device, patch, w.clock))
    case RemoveDevice(uid, device) =>
      var r := RemoveDeviceTx(w.store, uid, device, w.clock);
      (w.(store := r.0, sweeps := w.sweeps + Scheduled(SweepDue(uid, device, r.1))), r.1)
    case CreateJoinToken(uid, device, tokenId) =>
      if tokenId in w.issued then (w, Quiet)
      else
        var check := CreateJoinTokenCheck(w.store, uid, device, w.clock);
        if check.Err? then (w, Rejected(check.error))
        else (w.(issued := w.issued + {tokenId}, minting := w.minting[tokenId := check.value]),
              TokenMinted(tokenId, check.value.expiresAt))
    case WriteJoinToken(tokenId) =>
      if tokenId !in w.minting then (w, Quiet)
      else (w.(minting := w.minting - {tokenId},
               store := w.store.(tokens := w.store.tokens[tokenId := w.minting[tokenId]])), Quiet)
    case PreviewToken(tokenId) => (w, PreviewJoinToken(w.store, tokenId, w.clock))
    case JoinNetwork(uid, input) =>
      var r := JoinNetworkTx(w.store, uid, input, w.clock);
      (w.(store := r.0, sweeps := w.sweeps + Scheduled(SweepDue(uid, input.device, r.1))), r.1)
    case NotifyTransfer(uid, source, target) => WithStore(w, NotifyTx(w.store, uid, source, target, w.clock))
    case RunSweep(sweep) =>
      if sweep !in w.sweeps then (w, Quiet)
      else
        (w.(store := Sweeping(w.store, sweep), sweeps := w.sweeps - multiset{sweep}), Quiet)
    case QueryInactiveAccounts =>
      var uids := InactiveAccounts(w.store, w.clock);
      (w.(sweeps := w.sweeps + SweepsOf(uids)), Swept(|uids|))
    case QueryExpiredTokens =>
      var ids := ExpiredTokens(w.store, w.clock);
      (w.(expiring := w.expiring + multiset{ids}), Swept(|ids|))
    case CommitExpiredTokens(ids) =>
      if ids !in w.expiring then (w, Quiet)
      else (w.(expiring := w.expiring - multiset{ids},
               store := w.store.(tokens := w.store.tokens - ids)), Quiet)
  }

  /** The events that read or write account and device documents in a transaction or sweep. */
  predicate TouchesDocuments(e: Event) {
    || e.CreateAccount? || e.RegisterDevice? || e.PatchDevice? || e.RemoveDevice?
    || e.JoinNetwork? || e.NotifyTransfer? || e.RunSweep?
  }

  function Next(w: World, e: Event): World { Step(w, e).0 }

  ghost predicate SameDocuments(w: World, w': World) {
    && w'.store.accounts == w.store.accounts
    && w'.store.devices == w.store.devices
    && w'.clock >= w.clock
  }

  lemma QuietTimes(w: World, elapsed: nat, uid: Uid)
    ensures SameDocuments(w, Next(w, Tick(elapsed))) && SameDocuments(w, Next(w, DeleteAccount(uid)))
    ensures SameDocuments(w, Next(w, QueryInactiveAccounts)) && SameDocuments(w, Next(w, QueryExpiredTokens))
  {
  }

  lemma QuietTokens(w: World, uid: Uid, device: DeviceId, tokenId: TokenId, ids: set<TokenId>)
    ensures SameDocuments(w, Next(w, CreateJoinToken(uid, device, tokenId)))
    ensures SameDocuments(w, Next(w, WriteJoinToken(tokenId)))
    ensures SameDocuments(w, Next(w, PreviewToken(tokenId)))
    ensures SameDocuments(w, Next(w, CommitExpiredTokens(ids)))
  {
  }

  lemma DocumentsUntouched(w: World, e: Event)
    requires !TouchesDocuments(e)
    ensures SameDocuments(w, Next(w, e))
  {
    hide Step, SameDocuments;
    match e
    case Tick(elapsed) => QuietTimes(w, elapsed, "");
    case DeleteAccount(uid) => QuietTimes(w, 0, uid);
    case CreateJoinToken(uid, device, tokenId) => QuietTokens(w, uid, device, tokenId, {});
    case WriteJoinToken(tokenId) => QuietTokens(w, "", "", tokenId, {});
    case PreviewToken(tokenId) => QuietTokens(w, "", "", tokenId, {});
    case CommitExpiredTokens(ids) => QuietTokens(w, "", "", "", ids);
    case QueryInactiveAccounts => QuietTimes(w, 0, "");
    case QueryExpiredTokens => QuietTimes(w, 0, "");
  }

  /** The world after a whole sequence of events. */
  function RunTo(w: World, es: seq<Event>): World {
    if es == [] then w else Next(RunTo(w, es[..|es| - 1]), es[|es| - 1])
  }

  /** The world in which the `n`-th event of the run happens. */
  function At(w: World, es: seq<Event>, n: nat): World
    requires n <= |es|
  {
    RunTo(w, es[..n])
  }

  /** What the `n`-th event of the run was answered. */
  function ReplyAt(w: World, es: seq<Event>, n: nat): Reply
    requires n < |es|
  {
    Step(At(w, es, n), es[n]).1
  }

  lemma RunToThen(w: World, es: seq<Event>, e: Event)
    ensures RunTo(w, es + [e]) == Next(RunTo(w, es), e)
  {
    assert (es + [e])[..|es + [e]| - 1] == es;
  }

  lemma AtNext(w: World, es: seq<Event>, n: nat)
    requires n < |es|
    ensures At(w, es, n + 1) == Next(At(w, es, n), es[n])
  {
    assert es[..n + 1][..n] == es[..n];
  }
}
