/** Whose info an offer or answer carries, and when that is the info the room stores. */
module SignalingRelay {
  import opened Common
  import opened Signaling
  import opened SignalingInvariant
  import opened SignalingSections
  import opened SignalingConnect
  import opened SignalingAccounting
  import opened SignalingGhost
  import opened SignalingStale

  /** The info the event stores for `p`, if it is the room section of an update of a member. */
  function StoredBy(s: Server, e: Event, p: PeerId): Option<Info> {
    if e.HandleRequest? && e.peer == p && p in s.handlers && s.handlers[p].request.Some?
       && s.handlers[p].request.value.NewInfo? && p in RoomIn(s.rooms, s.handlers[p].group)
       && Lists(e.order, UpdateSection(s.rooms, s.handlers[p].group, p, s.handlers[p].request.value.newInfo).0)
    then Some(s.handlers[p].request.value.newInfo)
    else None
  }

  /** The info the last update of `p` in the run stored. */
  function LastStored(s: Server, es: seq<Event>, p: PeerId): Option<Info> {
    if es == [] then None
    else
      var before := es[..|es| - 1];
      var stored := StoredBy(RunTo(s, before), es[|es| - 1], p);
      if stored.Some? then stored else LastStored(s, before, p)
  }

  /** What `e` does to the entry of an old connection `p`. */
  ghost predicate EntryFollows(s: Server, e: Event, p: PeerId)
    requires p in s.handlers
  {
    var g, s' := s.handlers[p].group, Next(s, e);
    p in RoomIn(s'.rooms, g) ==>
      && p in RoomIn(s.rooms, g)
      && RoomIn(s'.rooms, g)[p] == (if StoredBy(s, e, p).Some? then StoredBy(s, e, p).value else RoomIn(s.rooms, g)[p])
  }

  lemma ConnectEntry(s: Server, x: PeerId, g: GroupKey, info: Info, order: seq<PeerId>, p: PeerId)
    requires p in s.handlers
    ensures EntryFollows(s, Connect(x, g, info, order), p)
  {
    hide Protect, ToAll;
  }

  lemma RequestEntry(s: Server, x: PeerId, order: seq<PeerId>, p: PeerId)
    requires p in s.handlers
    ensures EntryFollows(s, HandleRequest(x, order), p)
  {
    hide ToAll, Lists;
  }

  lemma CleanupEntry(s: Server, x: PeerId, order: seq<PeerId>, p: PeerId)
    requires p in s.handlers
    ensures EntryFollows(s, Cleanup(x, order), p)
  {
    hide ToAll, Lists;
  }

  lemma QuietEntry(s: Server, e: Event, p: PeerId)
    requires p in s.handlers && !e.Connect? && !e.HandleRequest? && !e.Cleanup?
    ensures EntryFollows(s, e, p)
  {
    hide Protect, Deliver;
    assert Next(s, e).rooms == s.rooms;
  }

  lemma EntryStep(s: Server, e: Event, p: PeerId)
    requires p in s.handlers
    ensures EntryFollows(s, e, p)
  {
    hide Next, EntryFollows;
    match e
    case Connect(x, g, info, order) => ConnectEntry(s, x, g, info, order, p);
    case HandleRequest(x, order) => RequestEntry(s, x, order, p);
    case Cleanup(x, order) => CleanupEntry(s, x, order, p);
    case _ => QuietEntry(s, e, p);
  }

  lemma NewEntry(s: Server, e: Event, p: PeerId)
    requires p !in s.handlers && p in Next(s, e).handlers
    ensures var s' := Next(s, e); var h := s'.handlers[p];
      p in RoomIn(s'.rooms, h.group) ==> RoomIn(s'.rooms, h.group)[p] == h.info
  {
    FacesKept(s, e);
  }

  lemma {:induction false} StoredByMembers(s: Server, es: seq<Event>, p: PeerId)
    requires LastStored(s, es, p).Some?
    ensures p in RunTo(s, es).handlers
  {
    var before, e := es[..|es| - 1], es[|es| - 1];
    if StoredBy(RunTo(s, before), e, p).None? { StoredByMembers(s, before, p); }
    FacesKept(RunTo(s, before), e);
  }

  /** The room stores for a member the info of its last stored update, or else what it connected with. */
  lemma {:induction false} StoredInfoIs(s: Server, es: seq<Event>, p: PeerId)
    requires s.handlers == map[] && p in RunTo(s, es).handlers
    requires p in RoomIn(RunTo(s, es).rooms, RunTo(s, es).handlers[p].group)
    ensures RoomIn(RunTo(s, es).rooms, RunTo(s, es).handlers[p].group)[p]
      == (if LastStored(s, es, p).Some? then LastStored(s, es, p).value else RunTo(s, es).handlers[p].info)
  {
    var before, e := es[..|es| - 1], es[|es| - 1];
    var w := RunTo(s, before);
    FacesKept(w, e);
    if p in w.handlers {
      assert SameFace(w.handlers[p], Next(w, e).handlers[p]);
      EntryStep(w, e, p);
      StoredInfoIs(s, before, p);
    } else {
      if LastStored(s, before, p).Some? { StoredByMembers(s, before, p); }
      NewEntry(w, e, p);
    }
  }

  /** Main result: an offer or answer carries the info the room stores for its sender if and
      only if the sender's last stored update, if there was any, restored what it connected with. */
  lemma RelayedInfoIsStoredIff(maxConnections: nat, maxRequests: nat, es: seq<Event>, q: PeerId, m: Msg)
    requires var s := RunTo(Start(maxConnections, maxRequests), es);
      q in s.handlers && m in s.handlers[q].inbox && m.Relay? && m.origin.id in RoomIn(s.rooms, s.handlers[q].group)
    ensures var s := RunTo(Start(maxConnections, maxRequests), es);
      var stored := LastStored(Start(maxConnections, maxRequests), es, m.origin.id);
      m.origin.id in s.handlers
      && (m.origin.info == RoomIn(s.rooms, s.handlers[q].group)[m.origin.id]
          <==> stored.None? || stored.value == s.handlers[m.origin.id].info)
  {
    RelayStaysInGroup(maxConnections, maxRequests, es, q, m);
    hide RunTo, LastStored;
    StoredInfoIs(Start(maxConnections, maxRequests), es, m.origin.id);
  }

  // ----- a run in which they differ -----

  const OFFER := Forward(OfferSdp, "b", "session", "sdp")
  const RELAYED := Relay(OfferSdp, Client("a", I), "session", "sdp")

  const T9 :=
    World(ROOM, 4, map["a" := Busy(Some(OFFER), [], [HELLO_A, JOIN_B]), "b" := B(Active, [], [UPDATE_A, HELLO_B])])
  const T10 :=
    World(ROOM, 4,
          map["a" := Busy(None, [Send("b", RELAYED)], [HELLO_A, JOIN_B]), "b" := B(Active, [], [UPDATE_A, HELLO_B])])
  const T11 :=
    World(ROOM, 4, map["a" := Busy(None, [], [HELLO_A, JOIN_B]), "b" := B(Active, [], [UPDATE_A, HELLO_B, RELAYED])])

  lemma OfferAdmitted()
    ensures Next(T8, ClientMessage("a", OFFER)) == T9
  {
    var s' := Next(T8, ClientMessage("a", OFFER));
    assert s'.handlers == T9.handlers && s'.counts == T9.counts;
  }

  lemma OfferOwed()
    ensures Next(T9, HandleRequest("a", [])) == T10
  {
    assert Next(T9, HandleRequest("a", [])).handlers == T10.handlers;
  }

  lemma OfferSent()
    ensures Next(T10, SendRecv("a")) == T11
  {
    assert [Send("b", RELAYED)][1..] == [] && [UPDATE_A, HELLO_B] + [RELAYED] == [UPDATE_A, HELLO_B, RELAYED];
    assert Next(T10, SendRecv("a")).handlers == T11.handlers;
  }

  const RELAY_RUN: seq<Event> :=
    STALE_RUN + [ClientMessage("a", OFFER)] + [HandleRequest("a", [])] + [SendRecv("a")]

  /** An offer sent after an update still carries the info of before. */
  lemma RelayCarriesOldInfo()
    ensures var s := RunTo(Start(10, 1000), RELAY_RUN);
      && "b" in s.handlers && RELAYED in s.handlers["b"].inbox && RELAYED.origin == Client("a", I)
      && s.rooms == map["g" := map["a" := I2, "b" := I]]
  {
    var s0 := Start(10, 1000);
    StaleRun();
    RunToThen(s0, STALE_RUN, ClientMessage("a", OFFER));
    RunToThen(s0, STALE_RUN + [ClientMessage("a", OFFER)], HandleRequest("a", []));
    RunToThen(s0, STALE_RUN + [ClientMessage("a", OFFER)] + [HandleRequest("a", [])], SendRecv("a"));
    OfferAdmitted();
    OfferOwed();
    OfferSent();
    assert T11.handlers["b"].inbox[2] == RELAYED;
  }
}
