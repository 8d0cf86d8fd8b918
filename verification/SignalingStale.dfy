/** A run in which a client that applies messages in order keeps showing an info that was
    replaced before it connected fully. */
module SignalingStale {
  import opened Common
  import opened Signaling
  import opened SignalingInvariant
  import opened SignalingViews
  import opened SignalingInOrder
  import opened SignalingGhost

  const I2 := Info("renamed", "2.1", None, None, "token")
  const UPDATE_A := Update(Client("a", I2))

  function Busy(request: Option<Request>, recv: seq<Send>, inbox: seq<Msg>): Handler {
    Handler("g", I, map[], Active, request, [], recv, inbox)
  }

  const ROOM := map["a" := I2, "b" := I]

  const T4 :=
    World(map["a" := I, "b" := I], 3,
          map["a" := Busy(Some(NewInfo(I2)), [], [HELLO_A]), "b" := B(Greeting, OWED_BY_B, [])])
  const T5 :=
    World(ROOM, 3, map["a" := Busy(None, [Send("b", UPDATE_A)], [HELLO_A]), "b" := B(Greeting, OWED_BY_B, [])])
  const T6 := World(ROOM, 3, map["a" := Busy(None, [], [HELLO_A]), "b" := B(Greeting, OWED_BY_B, [UPDATE_A])])
  const T7 :=
    World(ROOM, 3, map["a" := Busy(None, [], [HELLO_A, JOIN_B]), "b" := B(Greeting, [Send("b", HELLO_B)], [UPDATE_A])])
  const T8 := World(ROOM, 3, map["a" := Busy(None, [], [HELLO_A, JOIN_B]), "b" := B(Active, [], [UPDATE_A, HELLO_B])])

  lemma UpdateAdmitted()
    ensures Next(S3, ClientMessage("a", NewInfo(I2))) == T4
  {
    var s' := Next(S3, ClientMessage("a", NewInfo(I2)));
    assert s'.handlers == T4.handlers && s'.counts == T4.counts;
  }

  lemma UpdateStored()
    ensures Next(T4, HandleRequest("a", ["b"])) == T5
  {
    var s' := Next(T4, HandleRequest("a", ["b"]));
    var room := map["a" := I, "b" := I];
    assert T4.rooms["g"] == room && room.Keys - {"a"} == {"b"} && room["a" := I2] == ROOM;
    assert (set x | x in ["b"]) == {"b"};
    assert ToAll(["b"], UPDATE_A) == [Send("b", UPDATE_A)];
    assert s'.handlers == T5.handlers && s'.rooms == T5.rooms;
  }

  lemma UpdateFirst()
    ensures Next(T5, SendRecv("a")) == T6
  {
    assert [Send("b", UPDATE_A)][1..] == [] && [] + [UPDATE_A] == [UPDATE_A];
    assert Next(T5, SendRecv("a")).handlers == T6.handlers;
  }

  lemma JoinNext()
    ensures Next(T6, SendMain("b")) == T7
  {
    assert OWED_BY_B[1..] == [Send("b", HELLO_B)] && [HELLO_A] + [JOIN_B] == [HELLO_A, JOIN_B];
    assert Next(T6, SendMain("b")).handlers == T7.handlers;
  }

  lemma HelloAfterUpdate()
    ensures Next(T7, SendMain("b")) == T8
  {
    assert [Send("b", HELLO_B)][1..] == [] && [UPDATE_A] + [HELLO_B] == [UPDATE_A, HELLO_B];
    assert Next(T7, SendMain("b")).handlers == T8.handlers;
  }

  /** `b` connects while `a` is there; `a` updates itself and the update is sent to `b` before
      `b`'s own greeting puts the hello, with the old info of `a` in it, into `b`'s channel. */
  const STALE_RUN: seq<Event> :=
    [] + [Connect("a", "g", I, [])] + [SendMain("a")] + [Connect("b", "g", I, ["a"])]
    + [ClientMessage("a", NewInfo(I2))] + [HandleRequest("a", ["b"])] + [SendRecv("a")]
    + [SendMain("b")] + [SendMain("b")]

  lemma StaleRun()
    ensures RunTo(Start(10, 1000), STALE_RUN) == T8
  {
    var s0 := Start(10, 1000);
    var r1 := [] + [Connect("a", "g", I, [])];
    var r3 := r1 + [SendMain("a")] + [Connect("b", "g", I, ["a"])];
    var r5 := r3 + [ClientMessage("a", NewInfo(I2))] + [HandleRequest("a", ["b"])];
    RunToThen(s0, [], Connect("a", "g", I, []));
    RunToThen(s0, r1, SendMain("a"));
    RunToThen(s0, r1 + [SendMain("a")], Connect("b", "g", I, ["a"]));
    RunToThen(s0, r3, ClientMessage("a", NewInfo(I2)));
    RunToThen(s0, r3 + [ClientMessage("a", NewInfo(I2))], HandleRequest("a", ["b"]));
    RunToThen(s0, r5, SendRecv("a"));
    RunToThen(s0, r5 + [SendRecv("a")], SendMain("b"));
    RunToThen(s0, r5 + [SendRecv("a")] + [SendMain("b")], SendMain("b"));
    FirstConnect();
    FirstHello();
    SecondConnect();
    UpdateAdmitted();
    UpdateStored();
    UpdateFirst();
    JoinNext();
    HelloAfterUpdate();
  }

  lemma StaleViews()
    ensures View([UPDATE_A, HELLO_B]) == map["a" := I2]
    ensures Folded([UPDATE_A, HELLO_B]) == map["a" := I]
    ensures DeparturesFinal([UPDATE_A, HELLO_B])
  {
    var log := [UPDATE_A, HELLO_B];
    assert log[1..] == [HELLO_B] && log[..1] == [UPDATE_A] && [UPDATE_A][..0] == [];
    assert HelloPeers(log) == map["a" := I];
    assert JoinedIds(log) == {} && LeftIds(log) == {};
    assert LastUpdate([UPDATE_A], "a") == Some(I2);
    assert LastUpdate(log, "a") == Some(I2);
    assert Folded([UPDATE_A]) == map["a" := I2];
    assert Folded(log) == map["a" := I2] + map["a" := I];
  }

  /** In-order application does fail for infos: everything is delivered, no departure is in the
      channel, and the order-insensitive view has `a`'s new info, as the room has; in-order
      application has the old one. */
  lemma LateHelloKeepsOldInfo()
    ensures var s := RunTo(Start(10, 1000), STALE_RUN);
      && Settled(s, "b") && NoneClosing(s, "g")
      && s.rooms == map["g" := ROOM]
      && View(s.handlers["b"].inbox) == map["a" := I2]
      && Folded(s.handlers["b"].inbox) == map["a" := I]
      && DeparturesFinal(s.handlers["b"].inbox)
  {
    StaleRun();
    StaleViews();
    assert forall p :: p in T8.handlers ==> OwesNothing(T8.handlers[p], "b");
  }
}
