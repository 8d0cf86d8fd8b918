/** The application's list of signaling devices: grouped by token, and within a token by peer. */
module SignalingList {
  import opened Common
  import opened Signaling
  import opened SignalingInvariant
  import opened SignalingViews
  import opened SignalingInOrder
  import opened SignalingGhost
  import opened SignalingStale

  /** A place in the list: under `token`, the peer `id`. */
  datatype Slot = Slot(token: string, id: PeerId)

  type Listing = map<Slot, Info>

  /** A device goes under the token its message carries; an older entry of the same peer is
      replaced there and nowhere else. */
  function Register(list: Listing, p: PeerId, info: Info): Listing {
    list[Slot(info.token, p) := info]
  }

  /** All peers of a hello, each under its token. */
  function RegisterAll(list: Listing, peers: map<PeerId, Info>): Listing {
    list + Grouped(peers)
  }

  /** A departed peer disappears from every token. */
  function Unregister(list: Listing, p: PeerId): Listing {
    map slot | slot in list && slot.id != p :: list[slot]
  }

  /** The list that has exactly these peers, each once, under its own token. */
  function Grouped(peers: map<PeerId, Info>): Listing {
    map slot | slot in SlotsOf(peers) :: peers[slot.id]
  }

  function SlotsOf(peers: map<PeerId, Info>): (slots: set<Slot>)
    ensures forall slot :: slot in slots <==> slot.id in peers && peers[slot.id].token == slot.token
  {
    set p | p in peers :: Slot(peers[p].token, p)
  }

  /** What the application lists after the messages of its channel, applied in order. */
  function Listed(log: seq<Msg>): Listing {
    if log == [] then map[]
    else
      var before, m := Listed(log[..|log| - 1]), log[|log| - 1];
      match m
      case Hello(_, peers) => RegisterAll(before, peers)
      case Join(c) => Register(before, c.id, c.info)
      case Update(c) => Register(before, c.id, c.info)
      case Left(p) => Unregister(before, p)
      case _ => before
  }

  /** Message `i` mentions the peer under this token, and no later message reports it gone. */
  ghost predicate Lasting(log: seq<Msg>, slot: Slot, i: int) {
    && 0 <= i < |log| && Mentions(log[i], slot.id) && InfoIn(log[i], slot.id).token == slot.token
    && forall j :: i < j < |log| ==> log[j] != Left(slot.id)
  }

  lemma LastingSnoc(init: seq<Msg>, m: Msg, slot: Slot)
    ensures (exists i :: Lasting(init + [m], slot, i)) <==>
      || (Mentions(m, slot.id) && InfoIn(m, slot.id).token == slot.token)
      || (m != Left(slot.id) && exists i :: Lasting(init, slot, i))
  {
    var log := init + [m];
    if Mentions(m, slot.id) && InfoIn(m, slot.id).token == slot.token { assert Lasting(log, slot, |init|); }
    if i :| Lasting(init, slot, i) {
      if m != Left(slot.id) { assert Lasting(log, slot, i); }
    }
    if i :| Lasting(log, slot, i) && i < |init| {
      assert log[|init|] == m;
      assert forall j :: i < j < |init| ==> init[j] == log[j];
      assert Lasting(init, slot, i);
    }
  }

  /** A place is taken if and only if a message put the peer there and no departure came after it. */
  lemma {:induction false} ListedIff(log: seq<Msg>, slot: Slot)
    ensures slot in Listed(log) <==> exists i :: Lasting(log, slot, i)
  {
    if log != [] {
      var init, m := log[..|log| - 1], log[|log| - 1];
      ListedIff(init, slot);
      LastingSnoc(init, m, slot);
      assert log == init + [m];
    }
  }

  /** Under the token a peer was last mentioned with, the list has the info of that mention. */
  lemma {:induction false} ListedHasFolded(log: seq<Msg>, p: PeerId)
    requires p in Folded(log)
    ensures var slot := Slot(Folded(log)[p].token, p); slot in Listed(log) && Listed(log)[slot] == Folded(log)[p]
  {
    var init, m := log[..|log| - 1], log[|log| - 1];
    if !Mentions(m, p) {
      assert m != Left(p) && p in Folded(init) && Folded(init)[p] == Folded(log)[p];
      ListedHasFolded(init, p);
    }
  }

  lemma ListedIsFolded(log: seq<Msg>, slot: Slot)
    requires slot in Listed(log)
    ensures slot.id in Folded(log)
  {
    ListedIff(log, slot);
    FoldedIff(log, slot.id);
    var i :| Lasting(log, slot, i);
    assert Mentions(log[i], slot.id);
  }

  /** Every peer that is not reported gone is always mentioned with the same token. */
  ghost predicate OneToken(log: seq<Msg>) {
    forall p, i, j ::
      Left(p) !in log && 0 <= i < |log| && 0 <= j < |log| && Mentions(log[i], p) && Mentions(log[j], p) ==>
        InfoIn(log[i], p).token == InfoIn(log[j], p).token
  }

  /** No peer that is held was mentioned with another token since it last left. */
  ghost predicate OneSlotEach(log: seq<Msg>) {
    forall slot: Slot, i :: slot.id in Folded(log) && Lasting(log, slot, i) ==> Folded(log)[slot.id].token == slot.token
  }

  /** The list shows a view, each peer once with its info, exactly if keeping one entry for each
      peer gives that view and none was mentioned with another token. */
  lemma ListIsGroupedIff(log: seq<Msg>, view: map<PeerId, Info>)
    ensures Listed(log) == Grouped(view) <==> Folded(log) == view && OneSlotEach(log)
  {
    if Listed(log) == Grouped(view) { GroupedIsView(log, view); }
    if Folded(log) == view && OneSlotEach(log) {
      forall slot ensures (slot in Listed(log) <==> slot in Grouped(view))
        && (slot in Listed(log) ==> Listed(log)[slot] == Grouped(view)[slot])
      {
        ListedIff(log, slot);
        if slot in Listed(log) { ListedIsFolded(log, slot); }
        if slot.id in Folded(log) { ListedHasFolded(log, slot.id); }
      }
    }
  }

  lemma GroupedIsView(log: seq<Msg>, view: map<PeerId, Info>)
    requires Listed(log) == Grouped(view)
    ensures Folded(log) == view && OneSlotEach(log)
  {
    forall p ensures (p in Folded(log) <==> p in view) && (p in view ==> Folded(log)[p] == view[p]) {
      if p in Folded(log) { ListedHasFolded(log, p); }
      if p in view {
        assert Slot(view[p].token, p) in Grouped(view);
        ListedIsFolded(log, Slot(view[p].token, p));
      }
    }
    forall slot: Slot, i | slot.id in Folded(log) && Lasting(log, slot, i)
      ensures Folded(log)[slot.id].token == slot.token
    {
      ListedIff(log, slot);
      assert slot in Grouped(view);
    }
  }

  /** With final departures, that is the same as one token for each peer not reported gone. */
  lemma OneTokenIff(log: seq<Msg>)
    requires DeparturesFinal(log)
    ensures OneSlotEach(log) <==> OneToken(log)
  {
    if OneSlotEach(log) {
      forall p, i, j | Left(p) !in log && 0 <= i < |log| && 0 <= j < |log| && Mentions(log[i], p) && Mentions(log[j], p)
        ensures InfoIn(log[i], p).token == InfoIn(log[j], p).token
      {
        FoldedIff(log, p);
        assert Lasting(log, Slot(InfoIn(log[i], p).token, p), i) && Lasting(log, Slot(InfoIn(log[j], p).token, p), j);
      }
    }
    if OneToken(log) {
      forall slot: Slot, i | slot.id in Folded(log) && Lasting(log, slot, i)
        ensures Folded(log)[slot.id].token == slot.token
      {
        FoldedIff(log, slot.id);
        var j := FoldedInfo(log, slot.id);
      }
    }
  }

  /** Main result: the list of a settled client shows the room, each member once and with its
      stored info, if and only if no departure in its channel is followed by a mention of the
      departed peer, no hello comes last with an info that an update before it had replaced, and
      no member was ever mentioned with two tokens. */
  lemma ListShowsRoomIff(maxConnections: nat, maxRequests: nat, es: seq<Event>, q: PeerId)
    requires Settled(RunTo(Start(maxConnections, maxRequests), es), q)
    requires var s := RunTo(Start(maxConnections, maxRequests), es); NoneClosing(s, s.handlers[q].group)
    ensures var s := RunTo(Start(maxConnections, maxRequests), es);
      var log := s.handlers[q].inbox;
      Listed(log) == Grouped(RoomIn(s.rooms, s.handlers[q].group) - {q})
      <==> DeparturesFinal(log) && NoStaleHello(log) && OneToken(log)
  {
    var s := RunTo(Start(maxConnections, maxRequests), es);
    var log := s.handlers[q].inbox;
    InOrderViewIsRoomIff(maxConnections, maxRequests, es, q);
    ListIsGroupedIff(log, RoomIn(s.rooms, s.handlers[q].group) - {q});
    hide RunTo, Settled, NoneClosing, Listed, Grouped, OneSlotEach, OneToken, NoStaleHello;
    if DeparturesFinal(log) { OneTokenIff(log); }
  }

  // ----- a run in which a replaced entry stays -----

  const J := Info("alias", "2.1", None, None, "token2")
  const RESIGNED_A := Update(Client("a", J))
  const ROOM_J := map["a" := J, "b" := I]

  const U4 :=
    World(map["a" := I, "b" := I], 2,
          map["a" := Busy(None, [], [HELLO_A, JOIN_B]), "b" := B(Greeting, [Send("b", HELLO_B)], [])])
  const U5 :=
    World(map["a" := I, "b" := I], 2, map["a" := Busy(None, [], [HELLO_A, JOIN_B]), "b" := B(Active, [], [HELLO_B])])
  const U6 :=
    World(map["a" := I, "b" := I], 3,
          map["a" := Busy(Some(NewInfo(J)), [], [HELLO_A, JOIN_B]), "b" := B(Active, [], [HELLO_B])])
  const U7 :=
    World(ROOM_J, 3,
          map["a" := Busy(None, [Send("b", RESIGNED_A)], [HELLO_A, JOIN_B]), "b" := B(Active, [], [HELLO_B])])
  const U8 :=
    World(ROOM_J, 3, map["a" := Busy(None, [], [HELLO_A, JOIN_B]), "b" := B(Active, [], [HELLO_B, RESIGNED_A])])

  lemma GreetingDone()
    ensures Next(S3, SendMain("b")) == U4 && Next(U4, SendMain("b")) == U5
  {
    assert OWED_BY_B[1..] == [Send("b", HELLO_B)] && [HELLO_A] + [JOIN_B] == [HELLO_A, JOIN_B];
    assert [Send("b", HELLO_B)][1..] == [] && [] + [HELLO_B] == [HELLO_B];
    assert Next(S3, SendMain("b")).handlers == U4.handlers;
    assert Next(U4, SendMain("b")).handlers == U5.handlers;
  }

  lemma ResignAdmitted()
    ensures Next(U5, ClientMessage("a", NewInfo(J))) == U6
  {
    var s' := Next(U5, ClientMessage("a", NewInfo(J)));
    assert s'.handlers == U6.handlers && s'.counts == U6.counts;
  }

  lemma ResignStored()
    ensures Next(U6, HandleRequest("a", ["b"])) == U7
  {
    var s' := Next(U6, HandleRequest("a", ["b"]));
    var room := map["a" := I, "b" := I];
    assert U6.rooms["g"] == room && room.Keys - {"a"} == {"b"} && room["a" := J] == ROOM_J;
    assert (set x | x in ["b"]) == {"b"};
    assert ToAll(["b"], RESIGNED_A) == [Send("b", RESIGNED_A)];
    assert s'.handlers == U7.handlers && s'.rooms == U7.rooms;
  }

  lemma ResignSent()
    ensures Next(U7, SendRecv("a")) == U8
  {
    assert [Send("b", RESIGNED_A)][1..] == [] && [HELLO_B] + [RESIGNED_A] == [HELLO_B, RESIGNED_A];
    assert Next(U7, SendRecv("a")).handlers == U8.handlers;
  }

  /** `a` and `b` are connected, and `a` updates its info with a token signed anew. */
  const RESIGN_RUN: seq<Event> :=
    [] + [Connect("a", "g", I, [])] + [SendMain("a")] + [Connect("b", "g", I, ["a"])]
    + [SendMain("b")] + [SendMain("b")]
    + [ClientMessage("a", NewInfo(J))] + [HandleRequest("a", ["b"])] + [SendRecv("a")]

  lemma ResignRun()
    ensures RunTo(Start(10, 1000), RESIGN_RUN) == U8
  {
    var s0 := Start(10, 1000);
    var r1 := [] + [Connect("a", "g", I, [])];
    var r3 := r1 + [SendMain("a")] + [Connect("b", "g", I, ["a"])];
    var r5 := r3 + [SendMain("b")] + [SendMain("b")];
    RunToThen(s0, [], Connect("a", "g", I, []));
    RunToThen(s0, r1, SendMain("a"));
    RunToThen(s0, r1 + [SendMain("a")], Connect("b", "g", I, ["a"]));
    RunToThen(s0, r3, SendMain("b"));
    RunToThen(s0, r3 + [SendMain("b")], SendMain("b"));
    RunToThen(s0, r5, ClientMessage("a", NewInfo(J)));
    RunToThen(s0, r5 + [ClientMessage("a", NewInfo(J))], HandleRequest("a", ["b"]));
    RunToThen(s0, r5 + [ClientMessage("a", NewInfo(J))] + [HandleRequest("a", ["b"])], SendRecv("a"));
    FirstConnect();
    FirstHello();
    SecondConnect();
    GreetingDone();
    ResignAdmitted();
    ResignStored();
    ResignSent();
  }

  lemma ResignList()
    ensures Listed([HELLO_B, RESIGNED_A]) == map[Slot("token", "a") := I, Slot("token2", "a") := J]
    ensures Folded([HELLO_B, RESIGNED_A]) == map["a" := J]
  {
    var log := [HELLO_B, RESIGNED_A];
    assert log[..1] == [HELLO_B] && [HELLO_B][..0] == [];
    assert Grouped(map["a" := I]) == map[Slot("token", "a") := I];
    assert Listed([HELLO_B]) == map[Slot("token", "a") := I];
    assert Folded([HELLO_B]) == map["a" := I];
  }

  /** The list does keep a replaced entry: everything is delivered, nobody left, and keeping one
      entry per peer would show the room; the list has `a` twice, once with its old info. */
  lemma NewTokenKeepsOldEntry()
    ensures var s := RunTo(Start(10, 1000), RESIGN_RUN);
      && Settled(s, "b") && NoneClosing(s, "g") && s.rooms == map["g" := ROOM_J]
      && Folded(s.handlers["b"].inbox) == map["a" := J]
      && Listed(s.handlers["b"].inbox) == map[Slot("token", "a") := I, Slot("token2", "a") := J]
  {
    ResignRun();
    ResignList();
    assert forall p :: p in U8.handlers ==> OwesNothing(U8.handlers[p], "b");
  }
}
