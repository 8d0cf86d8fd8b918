/** A connect keeps the invariant, and so does every step of every run. */
module SignalingConnect {
  import opened Common
  import opened Signaling
  import opened SignalingInvariant
  import opened SignalingSends
  import opened SignalingSections

  /** The state right after a connect section that lets the client in. */
  function Connected(s: Server, p: PeerId, g: GroupKey, info: Info, order: seq<PeerId>, counts: Counts): Server {
    var room := RoomIn(s.rooms, g);
    var owed := ToAll(order, Join(Client(p, info))) + [Send(p, Hello(Client(p, info), room))];
    s.(rooms := s.rooms[g := room[p := info]], counts := counts,
       handlers := s.handlers[p := Handler(g, info, room, Greeting, None, owed, [], [])])
  }

  ghost predicate ConnectReady(s: Server, p: PeerId, g: GroupKey, order: seq<PeerId>) {
    && p !in s.handlers
    && Lists(order, RoomIn(s.rooms, g).Keys)
    && |RoomIn(s.rooms, g)| < s.maxConnections
  }

  lemma ConnectedLimits(s: Server, p: PeerId, g: GroupKey, info: Info, order: seq<PeerId>, counts: Counts)
    requires LimitsOk(s) && ConnectReady(s, p, g, order) && forall x :: x in counts ==> counts[x] <= s.maxRequests
    ensures LimitsOk(Connected(s, p, g, info, order, counts))
  {
    var room := RoomIn(s.rooms, g);
    assert room[p := info].Keys == room.Keys + {p};
    assert |room[p := info]| <= s.maxConnections;
  }

  lemma ConnectedEntry(s: Server, p: PeerId, g: GroupKey, info: Info, order: seq<PeerId>, counts: Counts, g2: GroupKey,
                       x: PeerId)
    requires p !in s.handlers && Entry(s, g2, x)
    ensures Entry(Connected(s, p, g, info, order, counts), g2, x)
    ensures x != p ==> SameEntry(s.rooms, Connected(s, p, g, info, order, counts).rooms, g2, x)
  {
    hide ToAll;
    var s' := Connected(s, p, g, info, order, counts);
    var room := RoomIn(s.rooms, g);
    assert RoomIn(s'.rooms, g2) == if g2 == g then room[p := info] else RoomIn(s.rooms, g2);
  }

  lemma ConnectedRooms(s: Server, p: PeerId, g: GroupKey, info: Info, order: seq<PeerId>, counts: Counts)
    requires RoomsOk(s) && ConnectReady(s, p, g, order) && forall x :: x in counts ==> counts[x] <= s.maxRequests
    ensures RoomsOk(Connected(s, p, g, info, order, counts))
    ensures RoomsAgree(s.rooms, Connected(s, p, g, info, order, counts).rooms, p)
  {
    var s' := Connected(s, p, g, info, order, counts);
    ConnectedLimits(s, p, g, info, order, counts);
    hide LimitsOk, Lists, Connected, Entry, SameEntry;
    forall g2, x ensures Entry(s', g2, x) {
      assert Entry(s, g2, x);
      ConnectedEntry(s, p, g, info, order, counts, g2, x);
    }
    forall g2, x | x != p ensures SameEntry(s.rooms, s'.rooms, g2, x) {
      assert Entry(s, g2, x);
      ConnectedEntry(s, p, g, info, order, counts, g2, x);
    }
  }

  lemma ConnectedSelf(s: Server, p: PeerId, g: GroupKey, info: Info, order: seq<PeerId>, counts: Counts)
    requires RoomsOk(s) && ConnectReady(s, p, g, order)
    ensures HandlerOk(Connected(s, p, g, info, order, counts), p)
  {
    var s' := Connected(s, p, g, info, order, counts);
    var h := s'.handlers[p];
    forall i | 0 <= i < |h.main| ensures SendOk(s', h.main[i]) {
      if i < |order| {
        ListedIsThere(order, RoomIn(s.rooms, g).Keys, i);
        assert Entry(s, g, order[i]);
      }
    }
    forall x | x in h.snapshot ensures x != p && Known(s', p, x) { assert Entry(s, g, x); }
  }

  lemma NoUpdateFrom(inbox: seq<Msg>, p: PeerId)
    requires forall i :: 0 <= i < |inbox| && inbox[i].Update? ==> inbox[i].peer.id != p
    ensures LastUpdate(inbox, p) == None
  {
  }

  /** What an older member is told about the newcomer. */
  lemma ConnectedOld(s: Server, p: PeerId, g: GroupKey, info: Info, order: seq<PeerId>, counts: Counts, q: PeerId)
    requires RoomsOk(s) && ConnectReady(s, p, g, order) && q in s.handlers && HandlerOk(s, q)
    requires Pair(Connected(s, p, g, info, order, counts), q, p)
    ensures PairOk(Connected(s, p, g, info, order, counts), q, p)
  {
    var s' := Connected(s, p, g, info, order, counts);
    var join := Join(Client(p, info));
    var tells := ToAll(order, join);
    assert Entry(s, g, q);
    ThereIsListed(order, RoomIn(s.rooms, g).Keys, q, join);
    assert Send(q, join) in s'.handlers[p].main;
    forall i | 0 <= i < |s'.handlers[p].main| ensures !s'.handlers[p].main[i].msg.Left? {}
    forall i | 0 <= i < |s.handlers[q].inbox|
      ensures s.handlers[q].inbox[i] != Left(p)
        && (s.handlers[q].inbox[i].Update? ==> s.handlers[q].inbox[i].peer.id != p)
    {
      assert MsgOk(s, q, s.handlers[q].inbox[i]);
    }
    NoUpdateFrom(s.handlers[q].inbox, p);
  }

  /** What the newcomer is told about an older connection. */
  lemma ConnectedNew(s: Server, p: PeerId, g: GroupKey, info: Info, order: seq<PeerId>, counts: Counts, x: PeerId)
    requires RoomsOk(s) && ConnectReady(s, p, g, order) && x in s.handlers && HandlerOk(s, x) && x != p
    requires s.handlers[x].group == g
    ensures PairOk(Connected(s, p, g, info, order, counts), p, x)
  {
    assert Entry(s, g, x);
    forall i | 0 <= i < |s.handlers[x].main| ensures s.handlers[x].main[i].to != p {
      assert SendOk(s, s.handlers[x].main[i]);
    }
  }

  lemma ConnectedOthers(s: Server, p: PeerId, g: GroupKey, info: Info, order: seq<PeerId>, counts: Counts, q: PeerId,
                        x: PeerId)
    requires RoomsAgree(s.rooms, Connected(s, p, g, info, order, counts).rooms, p)
    requires p !in s.handlers && Pair(s, q, x) && PairOk(s, q, x)
    ensures PairOk(Connected(s, p, g, info, order, counts), q, x)
  {
    var s' := Connected(s, p, g, info, order, counts);
    assert SameEntry(s.rooms, s'.rooms, s.handlers[x].group, x);
    forall m: Msg ensures ToldMain(s', q, x, m) <==> ToldMain(s, q, x, m) {}
  }

  lemma ConnectedHandlers(s: Server, p: PeerId, g: GroupKey, info: Info, order: seq<PeerId>, counts: Counts, x: PeerId)
    requires RoomsOk(s) && ConnectReady(s, p, g, order)
    requires RoomsAgree(s.rooms, Connected(s, p, g, info, order, counts).rooms, p)
    requires x in s.handlers && HandlerOk(s, x) && OwedIsStored(s, x)
    ensures HandlerOk(Connected(s, p, g, info, order, counts), x)
    ensures OwedIsStored(Connected(s, p, g, info, order, counts), x)
  {
    var s' := Connected(s, p, g, info, order, counts);
    UntouchedHandlerOk(s, s', x);
    assert SameEntry(s.rooms, s'.rooms, s.handlers[x].group, x);
  }

  lemma ConnectedPairs(s: Server, p: PeerId, g: GroupKey, info: Info, order: seq<PeerId>, counts: Counts, q: PeerId,
                       x: PeerId)
    requires Inv(s) && ConnectReady(s, p, g, order)
    requires RoomsAgree(s.rooms, Connected(s, p, g, info, order, counts).rooms, p)
    requires Pair(Connected(s, p, g, info, order, counts), q, x)
    ensures PairOk(Connected(s, p, g, info, order, counts), q, x)
  {
    if x == p {
      assert HandlerOk(s, q);
      ConnectedOld(s, p, g, info, order, counts, q);
    } else if q == p {
      assert HandlerOk(s, x);
      ConnectedNew(s, p, g, info, order, counts, x);
    } else {
      assert Pair(s, q, x) && PairOk(s, q, x);
      ConnectedOthers(s, p, g, info, order, counts, q, x);
    }
  }

  lemma ConnectedInv(s: Server, p: PeerId, g: GroupKey, info: Info, order: seq<PeerId>, counts: Counts)
    requires Inv(s) && ConnectReady(s, p, g, order) && forall x :: x in counts ==> counts[x] <= s.maxRequests
    ensures Inv(Connected(s, p, g, info, order, counts))
  {
    var s' := Connected(s, p, g, info, order, counts);
    ConnectedRooms(s, p, g, info, order, counts);
    ConnectedSelf(s, p, g, info, order, counts);
    forall x | x in s'.handlers ensures HandlerOk(s', x) && OwedIsStored(s', x) {
      if x != p {
        assert HandlerOk(s, x) && OwedIsStored(s, x);
        ConnectedHandlers(s, p, g, info, order, counts, x);
      }
    }
    forall q, x | Pair(s', q, x) ensures PairOk(s', q, x) {
      ConnectedPairs(s, p, g, info, order, counts, q, x);
    }
  }

  /** Other room maps with the same rooms in them are as good. */
  lemma SameRoomsPair(s: Server, rooms: Rooms, q: PeerId, x: PeerId)
    requires q in s.handlers && x in s.handlers && PairOk(s, q, x)
    requires RoomIn(rooms, s.handlers[x].group) == RoomIn(s.rooms, s.handlers[x].group)
    ensures PairOk(s.(rooms := rooms), q, x)
  {
    var s' := s.(rooms := rooms);
    forall m: Msg ensures ToldMain(s', q, x, m) <==> ToldMain(s, q, x, m) {}
  }

  lemma RoomsOnly(s: Server, rooms: Rooms)
    requires Inv(s) && forall g :: RoomIn(rooms, g) == RoomIn(s.rooms, g)
    ensures Inv(s.(rooms := rooms))
  {
    hide PairOk;
    var s' := s.(rooms := rooms);
    assert LimitsOk(s') by {
      forall g | g in rooms ensures |rooms[g]| <= s.maxConnections { assert RoomIn(rooms, g) == RoomIn(s.rooms, g); }
    }
    forall g, x ensures Entry(s', g, x) { assert Entry(s, g, x); }
    forall x | x in s.handlers ensures HandlerOk(s', x) && OwedIsStored(s', x) {
      assert HandlerOk(s, x) && OwedIsStored(s, x);
      UntouchedHandlerOk(s, s', x);
    }
    forall q, x | Pair(s', q, x) ensures PairOk(s', q, x) {
      assert Pair(s, q, x);
      SameRoomsPair(s, rooms, q, x);
    }
  }

  /** A refused connect leaves at most an empty inner map and a counter behind. */
  lemma RefusedInv(s: Server, g: GroupKey, counts: Counts)
    requires Inv(s) && forall x :: x in counts ==> counts[x] <= s.maxRequests
    ensures Inv(s.(rooms := s.rooms[g := RoomIn(s.rooms, g)], counts := counts))
  {
    CountsOnly(s, counts);
    RoomsOnly(s.(counts := counts), s.rooms[g := RoomIn(s.rooms, g)]);
  }

  lemma ConnectInv(s: Server, p: PeerId, g: GroupKey, info: Info, order: seq<PeerId>)
    requires Inv(s)
    ensures Inv(ConnectStep(s, p, g, info, order))
  {
    var (found, rooms, counts) := ConnectSection(s.rooms, s.counts, s.maxConnections, s.maxRequests, g, p, info);
    ProtectBounded(s.counts, g, s.maxRequests);
    if p !in s.handlers && Lists(order, RoomIn(s.rooms, g).Keys) {
      if found.None? { RefusedInv(s, g, counts); } else { ConnectedInv(s, p, g, info, order, counts); }
    }
  }

  lemma NextInv(s: Server, e: Event)
    requires Inv(s)
    ensures Inv(Next(s, e))
  {
    match e
    case Connect(p, g, info, order) => ConnectInv(s, p, g, info, order);
    case SendMain(p) => SendMainInv(s, p);
    case SendRecv(p) => SendRecvInv(s, p);
    case ClientMessage(p, request) => ClientMessageInv(s, p, request);
    case HandleRequest(p, order) => RequestInv(s, p, order);
    case TaskEnds(p) => TaskEndsInv(s, p);
    case AbortRecv(p) => AbortRecvInv(s, p);
    case Cleanup(p, order) => CleanupInv(s, p, order);
    case ClearCounts => CountsOnly(s, map[]);
  }

  /** Main result, inductive form: in every interleaving of sections, sends, aborts and
      refusals, each presence change since a connection was inserted has been told to it or is
      still owed to it, and nothing else has. */
  lemma {:induction false} InvAlways(maxConnections: nat, maxRequests: nat, es: seq<Event>)
    ensures Inv(RunTo(Start(maxConnections, maxRequests), es))
  {
    if es == [] {
      var s := Start(maxConnections, maxRequests);
      forall g, p ensures Entry(s, g, p) {}
    } else {
      InvAlways(maxConnections, maxRequests, es[..|es| - 1]);
      NextInv(RunTo(Start(maxConnections, maxRequests), es[..|es| - 1]), es[|es| - 1]);
    }
  }
}
