/** What a removal or a join conserves. */
module CloudConservation {
  import opened Common
  import opened CloudStore
  import opened CloudRun
  import opened CloudCounts

  /** The sum of all device counts. */
  ghost function TotalCount(accounts: map<Uid, AccountDoc>): int {
    if accounts == map[] then 0
    else
      var u :| u in accounts;
      accounts[u].deviceCount + TotalCount(accounts - {u})
  }

  /** The sum may start from any account. */
  lemma {:induction false} TotalCountFrom(accounts: map<Uid, AccountDoc>, v: Uid)
    requires v in accounts
    ensures TotalCount(accounts) == accounts[v].deviceCount + TotalCount(accounts - {v})
    decreases |accounts|
  {
    var u :| u in accounts && TotalCount(accounts) == accounts[u].deviceCount + TotalCount(accounts - {u});
    if u != v {
      TotalCountFrom(accounts - {u}, v);
      TotalCountFrom(accounts - {v}, u);
      assert accounts - {u} - {v} == accounts - {v} - {u};
    }
  }

  lemma TotalCountPut(accounts: map<Uid, AccountDoc>, v: Uid, doc: AccountDoc)
    requires v in accounts
    ensures TotalCount(accounts[v := doc]) == TotalCount(accounts) - accounts[v].deviceCount + doc.deviceCount
  {
    TotalCountFrom(accounts, v);
    TotalCountFrom(accounts[v := doc], v);
    assert accounts[v := doc] - {v} == accounts - {v};
  }

  /** Main result: a committed join with a source account conserves the sum of all device
      counts, and without one it adds exactly one. */
  lemma JoinConservesCount(s: Store, source: Uid, input: JoinInput, now: Millis)
    requires Covered(s) && JoinNetworkTx(s, source, input, now).1.Joined?
    ensures
      var (s', r) := JoinNetworkTx(s, source, input, now);
      && r.hadSourceAccount == (source in s.accounts)
      && r.target in s.accounts && r.target in s'.accounts
      && s'.accounts[r.target].deviceCount == s.accounts[r.target].deviceCount + 1
      && TotalCount(s'.accounts) == TotalCount(s.accounts) + (if r.hadSourceAccount then 0 else 1)
  {
    var (s', r) := JoinNetworkTx(s, source, input, now);
    var account := s.accounts[r.target];
    var joined := s.accounts[r.target := account.(deviceCount := account.deviceCount + 1, lastActiveAt := now)];
    TotalCountPut(s.accounts, r.target, joined[r.target]);
    if r.hadSourceAccount {
      if r.oldAccountDeleted {
        LastDevice(s, Key(source, input.device));
        TotalCountFrom(joined, source);
      } else {
        TotalCountPut(joined, source, s'.accounts[source]);
      }
    }
  }

  /** Main result: a committed join carries the source's device document over unchanged (or
      writes the supplied new device when there is no source), and every account other than
      source and target and every other device document stay exactly as they are. */
  lemma JoinMovesOneDocument(s: Store, source: Uid, input: JoinInput, now: Millis)
    requires JoinNetworkTx(s, source, input, now).1.Joined?
    ensures
      var (s', r) := JoinNetworkTx(s, source, input, now);
      var from, to := Key(source, input.device), Key(r.target, input.device);
      && r.target != source
      && s'.accounts - {source, r.target} == s.accounts - {source, r.target}
      && s'.devices - {from, to} == s.devices - {from, to}
      && to in s'.devices
      && (source in s.accounts ==> from in s.devices && from !in s'.devices && s'.devices[to] == s.devices[from])
      && (source !in s.accounts ==>
            input.newDevice.Some? && s'.devices[to] == WelcomeDevice(input.newDevice.value))
  {
  }

  /** The number of device documents is conserved by a join from a source account if and only
      if the moved id is new to the target. */
  lemma JoinKeepsDocumentsIff(s: Store, source: Uid, input: JoinInput, now: Millis)
    requires JoinNetworkTx(s, source, input, now).1.Joined? && source in s.accounts
    ensures
      var (s', r) := JoinNetworkTx(s, source, input, now);
      |s'.devices| == |s.devices| <==> Key(r.target, input.device) !in s.devices
  {
    var (s', r) := JoinNetworkTx(s, source, input, now);
    var from, to := Key(source, input.device), Key(r.target, input.device);
    assert s'.devices.Keys == s.devices.Keys - {from} + {to};
    assert |s.devices.Keys - {from}| == |s.devices.Keys| - 1;
    if to in s.devices { assert s'.devices.Keys == s.devices.Keys - {from}; }
  }

  // ----- sweeps that run at once -----

  /** The world after `e` when the sweep `e` leaves behind, if any, runs before anything else. */
  function NextPrompt(w: World, e: Event): World {
    match e
    case RemoveDevice(uid, device) => Prompt(Next(w, e), SweepDue(uid, device, Step(w, e).1))
    case JoinNetwork(uid, input) => Prompt(Next(w, e), SweepDue(uid, input.device, Step(w, e).1))
    case _ => Next(w, e)
  }

  function Prompt(w: World, due: Option<Sweep>): World {
    if due.Some? then Next(w, RunSweep(due.value)) else w
  }

  /** A committed join replaces a document the target account already held. */
  predicate Overwrites(w: World, e: Event) {
    && e.JoinNetwork?
    && JoinAllowed(w.store, e.uid, e.joinInput, w.clock)
    && Key(w.store.tokens[e.joinInput.tokenId].accountId, e.joinInput.device) in w.store.devices
  }

  /** Main result: when every sweep follows its transaction at once, a step keeps an exactly
      counted store exact if and only if it is not a join onto an id the target already holds. */
  lemma PromptStepExactIff(w: World, e: Event)
    requires Exact(w.store) && !(e.RunSweep? && e.sweep.SweepDevice?)
    ensures Exact(NextPrompt(w, e).store) <==> !Overwrites(w, e)
  {
    ExactStepIff(w, e);
    LosesIffOverwrites(w, e);
    PromptSweepIsIdle(w, e);
  }

  lemma LosesIffOverwrites(w: World, e: Event)
    requires !(e.RunSweep? && e.sweep.SweepDevice?)
    ensures (exists u :: Loses(w, e, u)) <==> Overwrites(w, e)
  {
    if Overwrites(w, e) { assert Loses(w, e, w.store.tokens[e.joinInput.tokenId].accountId); }
  }

  lemma PromptRemoveIsIdle(w: World, uid: Uid, device: DeviceId)
    requires Covered(w.store)
    ensures NextPrompt(w, RemoveDevice(uid, device)).store == Next(w, RemoveDevice(uid, device)).store
  {
    PromptSweepAfterRemove(w.store, uid, device, w.clock);
    hide RemoveDeviceTx, Sweeping;
  }

  lemma PromptJoinIsIdle(w: World, uid: Uid, input: JoinInput)
    requires Covered(w.store)
    ensures NextPrompt(w, JoinNetwork(uid, input)).store == Next(w, JoinNetwork(uid, input)).store
  {
    PromptSweepAfterJoin(w.store, uid, input, w.clock);
    hide JoinNetworkTx, Sweeping;
  }

  lemma PromptSweepIsIdle(w: World, e: Event)
    requires Exact(w.store)
    ensures NextPrompt(w, e).store == Next(w, e).store
  {
    ExactIsCovered(w.store);
    hide Step;
    match e
    case RemoveDevice(uid, device) => PromptRemoveIsIdle(w, uid, device);
    case JoinNetwork(uid, input) => PromptJoinIsIdle(w, uid, input);
    case _ =>
  }

  /** Right after its own transaction, a sweep finds nothing left to delete. */
  lemma PromptSweepAfterRemove(s: Store, uid: Uid, device: DeviceId, now: Millis)
    requires Covered(s)
    ensures var (s', r) := RemoveDeviceTx(s, uid, device, now);
      SweepDue(uid, device, r).Some? ==> Sweeping(s', SweepDue(uid, device, r).value) == s'
  {
    var (s', r) := RemoveDeviceTx(s, uid, device, now);
    if r == DeviceRemoved(true) {
      RemovingLastDeviceLosesNothing(s, uid, device, now);
      assert s'.accounts - {uid} == s'.accounts && s'.devices - {} == s'.devices;
    } else if r == DeviceRemoved(false) {
      assert s'.devices - {Key(uid, device)} == s'.devices;
    }
  }

  lemma PromptSweepAfterJoin(s: Store, uid: Uid, input: JoinInput, now: Millis)
    requires Covered(s)
    ensures var (s', r) := JoinNetworkTx(s, uid, input, now);
      SweepDue(uid, input.device, r).Some? ==> Sweeping(s', SweepDue(uid, input.device, r).value) == s'
  {
    var (s', r) := JoinNetworkTx(s, uid, input, now);
    if r.Joined? && r.hadSourceAccount {
      if r.oldAccountDeleted {
        JoiningFromLastDeviceLosesNothing(s, uid, input, now);
        assert s'.accounts - {uid} == s'.accounts && s'.devices - {} == s'.devices;
      } else {
        assert s'.devices - {Key(uid, input.device)} == s'.devices;
      }
    }
  }
}
