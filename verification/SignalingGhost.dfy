/** A run in which a client that applies messages in order keeps showing a peer that left. */
module SignalingGhost {
  import opened Common
  import opened Signaling
  import opened SignalingInvariant
  import opened SignalingViews

  lemma RunToThen(s: Server, es: seq<Event>, e: Event)
    ensures RunTo(s, es + [e]) == Next(RunTo(s, es), e)
  {
    assert (es + [e])[..|es + [e]| - 1] == es;
  }

  const I := Info("alias", "2.1", None, None, "token")
  const HELLO_A := Hello(Client("a", I), map[])
  const JOIN_B := Join(Client("b", I))
  const HELLO_B := Hello(Client("b", I), map["a" := I])

  function World(room: map<PeerId, Info>, requests: nat, handlers: map<PeerId, Handler>): Server {
    Server(10, 1000, map["g" := room], map["g" := requests], handlers)
  }

  function A(stage: Stage, main: seq<Send>, inbox: seq<Msg>): Handler {
    Handler("g", I, map[], stage, None, main, [], inbox)
  }

  function B(stage: Stage, main: seq<Send>, inbox: seq<Msg>): Handler {
    Handler("g", I, map["a" := I], stage, None, main, [], inbox)
  }

  const OWED_BY_B := [Send("a", JOIN_B), Send("b", HELLO_B)]

  const S1 := World(map["a" := I], 1, map["a" := A(Greeting, [Send("a", HELLO_A)], [])])
  const S2 := World(map["a" := I], 1, map["a" := A(Active, [], [HELLO_A])])
  const S3 := World(map["a" := I, "b" := I], 2, map["a" := A(Active, [], [HELLO_A]), "b" := B(Greeting, OWED_BY_B, [])])
  const S4 :=
    World(map["a" := I, "b" := I], 2, map["a" := A(Closing, [], [HELLO_A]), "b" := B(Greeting, OWED_BY_B, [])])
  const S5 :=
    World(map["b" := I], 2,
          map["a" := A(Removed, [Send("b", Left("a"))], [HELLO_A]), "b" := B(Greeting, OWED_BY_B, [])])
  const S6 := World(map["b" := I], 2, map["a" := A(Removed, [], [HELLO_A]), "b" := B(Greeting, OWED_BY_B, [Left("a")])])
  const S7 :=
    World(map["b" := I], 2,
          map["a" := A(Removed, [], [HELLO_A, JOIN_B]), "b" := B(Greeting, [Send("b", HELLO_B)], [Left("a")])])
  const S8 :=
    World(map["b" := I], 2, map["a" := A(Removed, [], [HELLO_A, JOIN_B]), "b" := B(Active, [], [Left("a"), HELLO_B])])

  lemma FirstConnect()
    ensures Next(Start(10, 1000), Connect("a", "g", I, [])) == S1
  {
    var s' := Next(Start(10, 1000), Connect("a", "g", I, []));
    var nobody: seq<PeerId> := [];
    assert Lists(nobody, RoomIn(map[], "g").Keys);
    assert ToAll(nobody, Join(Client("a", I))) + [Send("a", HELLO_A)] == [Send("a", HELLO_A)];
    assert s'.handlers == S1.handlers && s'.rooms == S1.rooms && s'.counts == S1.counts;
  }

  lemma FirstHello()
    ensures Next(S1, SendMain("a")) == S2
  {
    assert [Send("a", HELLO_A)][1..] == [] && [] + [HELLO_A] == [HELLO_A];
    assert Next(S1, SendMain("a")).handlers == S2.handlers;
  }

  lemma SecondConnect()
    ensures Next(S2, Connect("b", "g", I, ["a"])) == S3
  {
    var s' := Next(S2, Connect("b", "g", I, ["a"]));
    assert (set x | x in ["a"]) == {"a"} == map["a" := I].Keys;
    assert ToAll(["a"], JOIN_B) + [Send("b", HELLO_B)] == OWED_BY_B;
    assert s'.handlers == S3.handlers && s'.rooms == S3.rooms && s'.counts == S3.counts;
  }

  lemma FirstCloses()
    ensures Next(S3, TaskEnds("a")) == S4
  {
    assert Next(S3, TaskEnds("a")).handlers == S4.handlers;
  }

  lemma LeavingRoom()
    ensures CleanupSection(S4.rooms, "g", "a") == ({"b"}, S5.rooms)
  {
    var room := map["a" := I, "b" := I];
    assert room.Keys - {"a"} == {"b"};
    assert room - {"a"} == map["b" := I];
    assert S4.rooms["g"] == room && "b" in room.Keys - {"a"};
    assert S4.rooms["g" := map["b" := I]] == S5.rooms;
  }

  lemma FirstLeaves()
    ensures Next(S4, Cleanup("a", ["b"])) == S5
  {
    LeavingRoom();
    assert (set x | x in ["b"]) == {"b"};
    assert ToAll(["b"], Left("a")) == [Send("b", Left("a"))];
    assert S4.handlers["a" := S5.handlers["a"]] == S5.handlers;
  }

  lemma DepartureFirst()
    ensures Next(S5, SendMain("a")) == S6
  {
    assert [Send("b", Left("a"))][1..] == [] && [] + [Left("a")] == [Left("a")];
    assert Next(S5, SendMain("a")).handlers == S6.handlers;
  }

  lemma JoinSecond()
    ensures Next(S6, SendMain("b")) == S7
  {
    assert OWED_BY_B[1..] == [Send("b", HELLO_B)] && [HELLO_A] + [JOIN_B] == [HELLO_A, JOIN_B];
    assert Next(S6, SendMain("b")).handlers == S7.handlers;
  }

  lemma HelloLast()
    ensures Next(S7, SendMain("b")) == S8
  {
    assert [Send("b", HELLO_B)][1..] == [] && [Left("a")] + [HELLO_B] == [Left("a"), HELLO_B];
    assert Next(S7, SendMain("b")).handlers == S8.handlers;
  }

  /** `b` connects while `a` is there; `a` leaves and its departure is sent to `b` before `b`'s
      own greeting puts the hello, with `a` in it, into `b`'s channel. */
  const GHOST_RUN: seq<Event> :=
    [] + [Connect("a", "g", I, [])] + [SendMain("a")] + [Connect("b", "g", I, ["a"])]
    + [TaskEnds("a")] + [Cleanup("a", ["b"])] + [SendMain("a")] + [SendMain("b")] + [SendMain("b")]

  lemma GhostRun()
    ensures RunTo(Start(10, 1000), GHOST_RUN) == S8
  {
    var s0 := Start(10, 1000);
    var r1 := [] + [Connect("a", "g", I, [])];
    var r3 := r1 + [SendMain("a")] + [Connect("b", "g", I, ["a"])];
    var r5 := r3 + [TaskEnds("a")] + [Cleanup("a", ["b"])];
    RunToThen(s0, [], Connect("a", "g", I, []));
    RunToThen(s0, r1, SendMain("a"));
    RunToThen(s0, r1 + [SendMain("a")], Connect("b", "g", I, ["a"]));
    RunToThen(s0, r3, TaskEnds("a"));
    RunToThen(s0, r3 + [TaskEnds("a")], Cleanup("a", ["b"]));
    RunToThen(s0, r5, SendMain("a"));
    RunToThen(s0, r5 + [SendMain("a")], SendMain("b"));
    RunToThen(s0, r5 + [SendMain("a")] + [SendMain("b")], SendMain("b"));
    FirstConnect();
    FirstHello();
    SecondConnect();
    FirstCloses();
    FirstLeaves();
    DepartureFirst();
    JoinSecond();
    HelloLast();
  }

  lemma GhostViews()
    ensures Present([Left("a"), HELLO_B]) == {}
    ensures Folded([Left("a"), HELLO_B]).Keys == {"a"}
  {
    var log := [Left("a"), HELLO_B];
    assert log[1..] == [HELLO_B] && log[..1] == [Left("a")] && [Left("a")][..0] == [];
    assert HelloPeers(log) == map["a" := I];
    assert log[0] in log && log[0].peerId in LeftIds(log);
    assert JoinedIds(log) == {};
    assert Folded([Left("a")]) == map[];
  }

  /** In-order application does fail: everything is delivered, `b` is alone in the room and the
      order-insensitive view says so, yet in-order application still shows `a`. */
  lemma LateHelloKeepsGhost()
    ensures var s := RunTo(Start(10, 1000), GHOST_RUN);
      && Settled(s, "b")
      && s.rooms == map["g" := map["b" := I]]
      && Present(s.handlers["b"].inbox) == {}
      && Folded(s.handlers["b"].inbox).Keys == {"a"}
  {
    GhostRun();
    GhostViews();
    assert forall p :: p in S8.handlers ==> OwesNothing(S8.handlers[p], "b");
  }
}
