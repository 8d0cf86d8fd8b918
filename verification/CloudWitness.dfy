/** Runs in which the backend does what one might not expect. */
module CloudWitness {
  import opened Common
  import opened CloudStore
  import opened CloudRun
  import opened CloudCounts

  const PHONE := RegisterInput("phone", "Phone", "phone", None, "ios", None)
  const LAPTOP := RegisterInput("laptop", "Laptop", "laptop", None, "macos", None)

  /** Takes one more step of a run whose last world is known. */
  lemma Onwards(es: seq<Event>, e: Event, w: World)
    requires RunTo(Start(0), es) == w
    ensures RunTo(Start(0), es + [e]) == Next(w, e)
  {
    RunToThen(Start(0), es, e);
  }

  function A(device: Option<RegisterInput>, count: int, lastActive: Millis): Store {
    Store(map["a" := AccountDoc(0, lastActive, count)],
          if device.None? then map[] else map[Key("a", device.value.device) := FreshDevice(device.value)], map[])
  }

  lemma Created()
    ensures RunTo(Start(0), [] + [CreateAccount("a")]) == Start(0).(store := A(None, 0, 0))
  {
    Onwards([], CreateAccount("a"), Start(0));
    assert Next(Start(0), CreateAccount("a")).store.accounts == map["a" := AccountDoc(0, 0, 0)];
  }

  /** An account with one device, the phone. */
  const WITH_PHONE: seq<Event> := [] + [CreateAccount("a")] + [RegisterDevice("a", PHONE)]

  lemma WithPhone()
    ensures RunTo(Start(0), WITH_PHONE) == Start(0).(store := A(Some(PHONE), 1, 0))
  {
    Created();
    var w := Start(0).(store := A(None, 0, 0));
    Onwards([] + [CreateAccount("a")], RegisterDevice("a", PHONE), w);
    var s' := Next(w, RegisterDevice("a", PHONE)).store;
    assert s'.accounts == map["a" := AccountDoc(0, 0, 1)];
    assert s'.devices == map[Key("a", "phone") := FreshDevice(PHONE)];
  }

  // ----- a join onto an id the target holds -----

  const TOKEN := JoinTokenDoc("a", 0, TOKEN_LIFETIME_MS, None, "phone")

  const INVITED: seq<Event> := WITH_PHONE + [CreateJoinToken("a", "phone", "t")] + [WriteJoinToken("t")]

  lemma Invited()
    ensures RunTo(Start(0), INVITED)
      == Start(0).(store := A(Some(PHONE), 1, 0).(tokens := map["t" := TOKEN]), issued := {"t"})
  {
    WithPhone();
    var w1 := Start(0).(store := A(Some(PHONE), 1, 0));
    var w2 := w1.(issued := {"t"}, minting := map["t" := TOKEN]);
    Onwards(WITH_PHONE, CreateJoinToken("a", "phone", "t"), w1);
    assert {} + {"t"} == {"t"};
    assert Next(w1, CreateJoinToken("a", "phone", "t")) == w2;
    Onwards(WITH_PHONE + [CreateJoinToken("a", "phone", "t")], WriteJoinToken("t"), w2);
    assert w2.minting - {"t"} == map[];
    assert Next(w2, WriteJoinToken("t")).store.tokens == map["t" := TOKEN];
  }

  const SAME_ID: Event := JoinNetwork("b", JoinInput("t", "phone", Some(NewDevice("Other", "phone", None, "android"))))

  /** A caller without an account joins under the id of the target's only device: its document
      replaces that one, and the target counts two devices while it has one. */
  lemma JoinOntoHeldIdLosesCount()
    ensures var w := RunTo(Start(0), INVITED);
      Exact(w.store) && Loses(w, SAME_ID, "a")
    ensures var s := RunTo(Start(0), INVITED + [SAME_ID]).store;
      && "a" in s.accounts && s.accounts["a"].deviceCount == 2
      && Group(s, "a") == {Key("a", "phone")}
      && s.devices[Key("a", "phone")].displayName == "Other"
      && !Exact(s)
  {
    Invited();
    var w := RunTo(Start(0), INVITED);
    assert Group(w.store, "a") == {Key("a", "phone")};
    assert Drift(w.store, "a") == 0;
    Onwards(INVITED, SAME_ID, w);
    var s := RunTo(Start(0), INVITED + [SAME_ID]).store;
    assert s.devices.Keys == {Key("a", "phone")};
    assert Group(s, "a") == {Key("a", "phone")};
    assert Drift(s, "a") == 1;
  }

  // ----- a device that registers again before its sweep -----

  const DEVICE_SWEEP := SweepDevice(Key("a", "phone"))

  function LaptopAnd(phone: bool, sweeps: multiset<Sweep>): World {
    var laptop := map[Key("a", "laptop") := FreshDevice(LAPTOP)];
    World(Store(map["a" := AccountDoc(0, 0, if phone then 2 else 1)],
                if phone then laptop[Key("a", "phone") := FreshDevice(PHONE)] else laptop, map[]),
          0, {}, map[], sweeps, multiset{})
  }

  const WITH_LAPTOP: seq<Event> := [] + [CreateAccount("a")] + [RegisterDevice("a", LAPTOP)]

  lemma WithLaptop()
    ensures RunTo(Start(0), WITH_LAPTOP) == LaptopAnd(false, multiset{})
  {
    Created();
    var w := Start(0).(store := A(None, 0, 0));
    Onwards([] + [CreateAccount("a")], RegisterDevice("a", LAPTOP), w);
    var s' := Next(w, RegisterDevice("a", LAPTOP)).store;
    assert s'.accounts == map["a" := AccountDoc(0, 0, 1)];
    assert s'.devices == map[Key("a", "laptop") := FreshDevice(LAPTOP)];
  }

  lemma PhoneRegisters(sweeps: multiset<Sweep>)
    ensures Next(LaptopAnd(false, sweeps), RegisterDevice("a", PHONE)) == LaptopAnd(true, sweeps)
  {
    var s' := Next(LaptopAnd(false, sweeps), RegisterDevice("a", PHONE)).store;
    assert s'.accounts == LaptopAnd(true, sweeps).store.accounts;
    assert s'.devices == LaptopAnd(true, sweeps).store.devices;
  }

  lemma PhoneRemoved()
    ensures Next(LaptopAnd(true, multiset{}), RemoveDevice("a", "phone")) == LaptopAnd(false, multiset{DEVICE_SWEEP})
  {
    var w' := Next(LaptopAnd(true, multiset{}), RemoveDevice("a", "phone"));
    assert w'.store.accounts == LaptopAnd(false, multiset{}).store.accounts;
    assert w'.store.devices == LaptopAnd(false, multiset{}).store.devices;
    assert w'.sweeps == multiset{DEVICE_SWEEP};
  }

  /** The phone of a two-device account is removed and registers again before the sweep of
      its old document runs. */
  const BEFORE_SWEEP: seq<Event> :=
    WITH_LAPTOP + [RegisterDevice("a", PHONE)] + [RemoveDevice("a", "phone")] + [RegisterDevice("a", PHONE)]

  lemma BeforeSweep()
    ensures RunTo(Start(0), BEFORE_SWEEP) == LaptopAnd(true, multiset{DEVICE_SWEEP})
  {
    var r1 := WITH_LAPTOP + [RegisterDevice("a", PHONE)];
    WithLaptop();
    Onwards(WITH_LAPTOP, RegisterDevice("a", PHONE), LaptopAnd(false, multiset{}));
    PhoneRegisters(multiset{});
    Onwards(r1, RemoveDevice("a", "phone"), LaptopAnd(true, multiset{}));
    PhoneRemoved();
    Onwards(r1 + [RemoveDevice("a", "phone")], RegisterDevice("a", PHONE), LaptopAnd(false, multiset{DEVICE_SWEEP}));
    PhoneRegisters(multiset{DEVICE_SWEEP});
  }

  /** Exact counting does fail without the hypothesis of prompt sweeps: the late sweep deletes
      the phone's new document, and the account goes on counting two devices while it has one. */
  lemma LateSweepLosesCount()
    ensures var s := RunTo(Start(0), BEFORE_SWEEP + [RunSweep(DEVICE_SWEEP)]).store;
      && "a" in s.accounts && s.accounts["a"].deviceCount == 2
      && Group(s, "a") == {Key("a", "laptop")}
      && !Exact(s)
  {
    BeforeSweep();
    var w := LaptopAnd(true, multiset{DEVICE_SWEEP});
    Onwards(BEFORE_SWEEP, RunSweep(DEVICE_SWEEP), w);
    PhoneSwept(w);
    hide RunTo, Step;
    var s := Next(w, RunSweep(DEVICE_SWEEP)).store;
    assert Group(s, "a") == {Key("a", "laptop")};
    assert Drift(s, "a") == 1;
  }

  lemma PhoneSwept(w: World)
    requires w == LaptopAnd(true, multiset{DEVICE_SWEEP})
    ensures var s := Next(w, RunSweep(DEVICE_SWEEP)).store;
      s.accounts == w.store.accounts && s.devices.Keys == {Key("a", "laptop")}
  {
  }

  // ----- an account that comes back before its sweep -----

  const ACCOUNT_SWEEP := SweepAccount("a")

  function PhoneAt(clock: Millis, lastActive: Millis, sweeps: multiset<Sweep>): World {
    World(A(Some(PHONE), 1, lastActive), clock, {}, map[], sweeps, multiset{})
  }

  /** The weekly job has picked an account that nobody used for 90 days; then its device checks in. */
  const CHECKED_IN: seq<Event> :=
    WITH_PHONE + [Tick(INACTIVE_ACCOUNT_MS)] + [QueryInactiveAccounts] + [RegisterDevice("a", PHONE)]

  lemma InactiveAccountPicked()
    ensures Next(PhoneAt(INACTIVE_ACCOUNT_MS, 0, multiset{}), QueryInactiveAccounts)
      == PhoneAt(INACTIVE_ACCOUNT_MS, 0, multiset{ACCOUNT_SWEEP})
  {
    var w := PhoneAt(INACTIVE_ACCOUNT_MS, 0, multiset{});
    assert InactiveAccounts(w.store, w.clock) == {"a"};
    assert (set u | u in {"a"} :: SweepAccount(u)) == {ACCOUNT_SWEEP};
    assert w.sweeps + multiset{ACCOUNT_SWEEP} == multiset{ACCOUNT_SWEEP};
  }

  lemma PhoneChecksIn()
    ensures Next(PhoneAt(INACTIVE_ACCOUNT_MS, 0, multiset{ACCOUNT_SWEEP}), RegisterDevice("a", PHONE))
      == PhoneAt(INACTIVE_ACCOUNT_MS, INACTIVE_ACCOUNT_MS, multiset{ACCOUNT_SWEEP})
  {
    var w := PhoneAt(INACTIVE_ACCOUNT_MS, 0, multiset{ACCOUNT_SWEEP});
    var s' := Next(w, RegisterDevice("a", PHONE)).store;
    assert RefreshedDevice(FreshDevice(PHONE), PHONE) == FreshDevice(PHONE);
    assert s'.accounts == map["a" := AccountDoc(0, INACTIVE_ACCOUNT_MS, 1)];
    assert s'.devices == w.store.devices;
  }

  lemma CheckedIn()
    ensures RunTo(Start(0), CHECKED_IN) == PhoneAt(INACTIVE_ACCOUNT_MS, INACTIVE_ACCOUNT_MS, multiset{ACCOUNT_SWEEP})
  {
    var r1 := WITH_PHONE + [Tick(INACTIVE_ACCOUNT_MS)];
    WithPhone();
    Onwards(WITH_PHONE, Tick(INACTIVE_ACCOUNT_MS), PhoneAt(0, 0, multiset{}));
    assert Next(PhoneAt(0, 0, multiset{}), Tick(INACTIVE_ACCOUNT_MS)) == PhoneAt(INACTIVE_ACCOUNT_MS, 0, multiset{});
    Onwards(r1, QueryInactiveAccounts, PhoneAt(INACTIVE_ACCOUNT_MS, 0, multiset{}));
    InactiveAccountPicked();
    Onwards(r1 + [QueryInactiveAccounts], RegisterDevice("a", PHONE),
            PhoneAt(INACTIVE_ACCOUNT_MS, 0, multiset{ACCOUNT_SWEEP}));
    PhoneChecksIn();
  }

  lemma PhoneAccountSwept(w: World)
    requires "a" in w.store.accounts && ACCOUNT_SWEEP in w.sweeps
    ensures "a" !in Next(w, RunSweep(ACCOUNT_SWEEP)).store.accounts
      && Group(Next(w, RunSweep(ACCOUNT_SWEEP)).store, "a") == {}
  {
  }

  /** An account picked by the weekly job is deleted with its device although it has just checked in. */
  lemma ActiveAccountIsSwept()
    ensures var w := RunTo(Start(0), CHECKED_IN);
      && "a" in w.store.accounts && w.store.accounts["a"].lastActiveAt == w.clock
      && Group(w.store, "a") == {Key("a", "phone")}
    ensures var s := RunTo(Start(0), CHECKED_IN + [RunSweep(ACCOUNT_SWEEP)]).store;
      "a" !in s.accounts && Group(s, "a") == {}
  {
    CheckedIn();
    var w := RunTo(Start(0), CHECKED_IN);
    Onwards(CHECKED_IN, RunSweep(ACCOUNT_SWEEP), w);
    PhoneAccountSwept(w);
  }

  /** The only device of an account is removed, and the account and the device come back before
      the sweep of the account runs. */
  const CAME_BACK: seq<Event> :=
    WITH_PHONE + [RemoveDevice("a", "phone")] + [CreateAccount("a")] + [RegisterDevice("a", PHONE)]

  lemma AccountGone()
    ensures Next(PhoneAt(0, 0, multiset{}), RemoveDevice("a", "phone"))
      == World(EMPTY_STORE, 0, {}, map[], multiset{ACCOUNT_SWEEP}, multiset{})
  {
    var w' := Next(PhoneAt(0, 0, multiset{}), RemoveDevice("a", "phone"));
    assert w'.store.accounts == map[] && w'.store.devices == map[];
    assert w'.sweeps == multiset{ACCOUNT_SWEEP};
  }

  lemma AccountBack()
    ensures Next(World(EMPTY_STORE, 0, {}, map[], multiset{ACCOUNT_SWEEP}, multiset{}), CreateAccount("a"))
      == World(A(None, 0, 0), 0, {}, map[], multiset{ACCOUNT_SWEEP}, multiset{})
    ensures Next(World(A(None, 0, 0), 0, {}, map[], multiset{ACCOUNT_SWEEP}, multiset{}), RegisterDevice("a", PHONE))
      == PhoneAt(0, 0, multiset{ACCOUNT_SWEEP})
  {
    var w := World(A(None, 0, 0), 0, {}, map[], multiset{ACCOUNT_SWEEP}, multiset{});
    var s' := Next(w, RegisterDevice("a", PHONE)).store;
    assert Next(w.(store := EMPTY_STORE), CreateAccount("a")).store.accounts == map["a" := AccountDoc(0, 0, 0)];
    assert s'.accounts == map["a" := AccountDoc(0, 0, 1)];
    assert s'.devices == map[Key("a", "phone") := FreshDevice(PHONE)];
  }

  /** A late account sweep deletes an account that was created again, with the device in it. */
  lemma ReturningAccountIsSwept()
    ensures var w := RunTo(Start(0), CAME_BACK); "a" in w.store.accounts && Group(w.store, "a") == {Key("a", "phone")}
    ensures var s := RunTo(Start(0), CAME_BACK + [RunSweep(ACCOUNT_SWEEP)]).store;
      "a" !in s.accounts && Group(s, "a") == {}
  {
    var r1 := WITH_PHONE + [RemoveDevice("a", "phone")];
    WithPhone();
    Onwards(WITH_PHONE, RemoveDevice("a", "phone"), PhoneAt(0, 0, multiset{}));
    AccountGone();
    AccountBack();
    Onwards(r1, CreateAccount("a"), World(EMPTY_STORE, 0, {}, map[], multiset{ACCOUNT_SWEEP}, multiset{}));
    Onwards(r1 + [CreateAccount("a")], RegisterDevice("a", PHONE),
            World(A(None, 0, 0), 0, {}, map[], multiset{ACCOUNT_SWEEP}, multiset{}));
    var w := PhoneAt(0, 0, multiset{ACCOUNT_SWEEP});
    assert RunTo(Start(0), CAME_BACK) == w;
    Onwards(CAME_BACK, RunSweep(ACCOUNT_SWEEP), w);
    PhoneAccountSwept(w);
  }
}
