/** What a client can conclude from its channel, and when it agrees with the room. */
module SignalingViews {
  import opened Common
  import opened Signaling
  import opened SignalingInvariant
  import opened SignalingSends
  import opened SignalingConnect

  // ----- the order-insensitive view -----

  /** The peers named by the first hello. */
  function HelloPeers(log: seq<Msg>): map<PeerId, Info> {
    if log == [] then map[]
    else if log[0].Hello? then log[0].peers
    else HelloPeers(log[1..])
  }

  function JoinedIds(log: seq<Msg>): set<PeerId> {
    set m | m in log && m.Join? :: m.peer.id
  }

  function LeftIds(log: seq<Msg>): set<PeerId> {
    set m | m in log && m.Left? :: m.peerId
  }

  /** Hello and joins, minus everyone who left. */
  function Present(log: seq<Msg>): set<PeerId> {
    HelloPeers(log).Keys + JoinedIds(log) - LeftIds(log)
  }

  function JoinInfo(log: seq<Msg>, p: PeerId): Option<Info> {
    if log == [] then None
    else if log[0].Join? && log[0].peer.id == p then Some(log[0].peer.info)
    else JoinInfo(log[1..], p)
  }

  /** The last update overrides what the hello or the join said, wherever they stand. */
  function InfoOf(log: seq<Msg>, p: PeerId): Option<Info> {
    if LastUpdate(log, p).Some? then LastUpdate(log, p)
    else if p in HelloPeers(log) then Some(HelloPeers(log)[p])
    else JoinInfo(log, p)
  }

  function View(log: seq<Msg>): map<PeerId, Info> {
    map p | p in Present(log) && InfoOf(log, p).Some? :: InfoOf(log, p).value
  }

  lemma {:induction false} OnlyHello(log: seq<Msg>, hello: Msg)
    requires hello.Hello? && hello in log
    requires forall i :: 0 <= i < |log| && log[i].Hello? ==> log[i] == hello
    ensures HelloPeers(log) == hello.peers
  {
    if !log[0].Hello? {
      assert hello in log[1..];
      OnlyHello(log[1..], hello);
    }
  }

  lemma {:induction false} OnlyJoin(log: seq<Msg>, join: Msg)
    requires join.Join? && join in log
    requires forall i :: 0 <= i < |log| && log[i].Join? && log[i].peer.id == join.peer.id ==> log[i] == join
    ensures JoinInfo(log, join.peer.id) == Some(join.peer.info)
  {
    if !(log[0].Join? && log[0].peer.id == join.peer.id) {
      assert join in log[1..];
      OnlyJoin(log[1..], join);
    }
  }

  // ----- convergence -----

  /** No task owes `q` anything, and `q` itself is past its greeting and still a member. */
  ghost predicate Settled(s: Server, q: PeerId) {
    && q in s.handlers && s.handlers[q].stage in {Active, Closing}
    && forall p :: p in s.handlers ==> OwesNothing(s.handlers[p], q)
  }

  ghost predicate OwesNothing(h: Handler, q: PeerId) {
    forall m: Msg :: Send(q, m) !in h.main && Send(q, m) !in h.recv
  }

  lemma HelloOf(s: Server, q: PeerId)
    requires q in s.handlers && InboxOk(s, q) && s.handlers[q].stage != Greeting
    ensures HelloPeers(s.handlers[q].inbox) == s.handlers[q].snapshot
  {
    var h := s.handlers[q];
    var hello := Hello(Client(q, h.info), h.snapshot);
    forall i | 0 <= i < |h.inbox| && h.inbox[i].Hello? ensures h.inbox[i] == hello {
      assert MsgOk(s, q, h.inbox[i]);
    }
    OnlyHello(h.inbox, hello);
  }

  /** For one peer: it is in the client's view exactly when it is in the room. */
  lemma PresentIff(s: Server, q: PeerId, p: PeerId)
    requires Inv(s) && Settled(s, q)
    ensures p in Present(s.handlers[q].inbox) <==> p in RoomIn(s.rooms, s.handlers[q].group) && p != q
  {
    var log := s.handlers[q].inbox;
    assert HandlerOk(s, q);
    HelloOf(s, q);
    assert Entry(s, s.handlers[q].group, p);
    if Pair(s, q, p) {
      assert PairOk(s, q, p) && OwesNothing(s.handlers[p], q);
      var join := Join(Client(p, s.handlers[p].info));
      assert p in JoinedIds(log) <==> join in log by {
        forall i | 0 <= i < |log| && log[i].Join? && log[i].peer.id == p
          ensures log[i] == join
        {
          assert MsgOk(s, q, log[i]);
        }
      }
      assert p in LeftIds(log) <==> Left(p) in log;
    } else if p in Present(log) {
      PresentIsPair(s, q, p);
    }
  }

  lemma PresentIsPair(s: Server, q: PeerId, p: PeerId)
    requires q in s.handlers && s.handlers[q].stage in {Active, Closing} && HandlerOk(s, q)
    requires p in Present(s.handlers[q].inbox)
    ensures Pair(s, q, p)
  {
    HelloOf(s, q);
    var log := s.handlers[q].inbox;
    if p !in s.handlers[q].snapshot {
      var m :| m in log && m.Join? && m.peer.id == p;
      assert MsgOk(s, q, m);
    }
  }

  /** Main result: once nothing is owed to a member, the ids it derives from its channel are
      exactly the other members of its room. */
  lemma RoomViewConverges(maxConnections: nat, maxRequests: nat, es: seq<Event>, q: PeerId)
    requires Settled(RunTo(Start(maxConnections, maxRequests), es), q)
    ensures var s := RunTo(Start(maxConnections, maxRequests), es);
      Present(s.handlers[q].inbox) == RoomIn(s.rooms, s.handlers[q].group).Keys - {q}
  {
    var s := RunTo(Start(maxConnections, maxRequests), es);
    InvAlways(maxConnections, maxRequests, es);
    forall p ensures p in Present(s.handlers[q].inbox) <==> p in RoomIn(s.rooms, s.handlers[q].group).Keys - {q} {
      PresentIff(s, q, p);
    }
  }

  /** For one peer that is not closing: the info the client derives is the stored one. */
  lemma InfoConverges(s: Server, q: PeerId, p: PeerId)
    requires Inv(s) && Settled(s, q) && Pair(s, q, p) && s.handlers[p].stage in {Greeting, Active}
    ensures p in RoomIn(s.rooms, s.handlers[q].group)
    ensures InfoOf(s.handlers[q].inbox, p) == Some(RoomIn(s.rooms, s.handlers[q].group)[p])
  {
    var log := s.handlers[q].inbox;
    assert Entry(s, s.handlers[q].group, p);
    assert HandlerOk(s, q) && PairOk(s, q, p) && OwesNothing(s.handlers[p], q);
    HelloOf(s, q);
    if p !in s.handlers[q].snapshot && LastUpdate(log, p).None? {
      var join := Join(Client(p, s.handlers[p].info));
      forall i | 0 <= i < |log| && log[i].Join? && log[i].peer.id == p
        ensures log[i] == join
      {
        assert MsgOk(s, q, log[i]);
      }
      OnlyJoin(log, join);
    }
  }

  ghost predicate NoneClosing(s: Server, g: GroupKey) {
    forall p :: p in RoomIn(s.rooms, g) ==> p in s.handlers && s.handlers[p].stage != Closing
  }

  lemma ViewEntry(s: Server, q: PeerId, p: PeerId)
    requires Inv(s) && Settled(s, q) && NoneClosing(s, s.handlers[q].group)
    ensures var log, room := s.handlers[q].inbox, RoomIn(s.rooms, s.handlers[q].group);
      && (p in View(log) <==> p in room && p != q)
      && (p in View(log) ==> View(log)[p] == room[p])
  {
    PresentIff(s, q, p);
    assert Entry(s, s.handlers[q].group, p);
    if p in RoomIn(s.rooms, s.handlers[q].group) && p != q { InfoConverges(s, q, p); }
  }

  lemma SameEntries(view: map<PeerId, Info>, room: map<PeerId, Info>, q: PeerId)
    requires forall p :: (p in view <==> p in room && p != q) && (p in view ==> view[p] == room[p])
    ensures view == room - {q}
  {
  }

  lemma ViewIsRoomIn(s: Server, q: PeerId)
    requires Inv(s) && Settled(s, q) && NoneClosing(s, s.handlers[q].group)
    ensures View(s.handlers[q].inbox) == RoomIn(s.rooms, s.handlers[q].group) - {q}
  {
    var view, room := View(s.handlers[q].inbox), RoomIn(s.rooms, s.handlers[q].group);
    forall p ensures (p in view <==> p in room && p != q) && (p in view ==> view[p] == room[p]) {
      ViewEntry(s, q, p);
    }
    SameEntries(view, room, q);
  }

  /** Main result: when moreover no member of the room is closing, the client's view is the
      room, ids and infos, even for updates that reached the channel before the hello did. */
  lemma ViewIsRoom(maxConnections: nat, maxRequests: nat, es: seq<Event>, q: PeerId)
    requires Settled(RunTo(Start(maxConnections, maxRequests), es), q)
    requires var s := RunTo(Start(maxConnections, maxRequests), es); NoneClosing(s, s.handlers[q].group)
    ensures var s := RunTo(Start(maxConnections, maxRequests), es);
      View(s.handlers[q].inbox) == RoomIn(s.rooms, s.handlers[q].group) - {q}
  {
    InvAlways(maxConnections, maxRequests, es);
    ViewIsRoomIn(RunTo(Start(maxConnections, maxRequests), es), q);
  }

  // ----- clients that apply messages in order -----

  /** What a client holds that applies each message as it comes. */
  function Folded(log: seq<Msg>): map<PeerId, Info> {
    if log == [] then map[]
    else
      var before, m := Folded(log[..|log| - 1]), log[|log| - 1];
      match m
      case Hello(_, peers) => before + peers
      case Join(c) => before[c.id := c.info]
      case Update(c) => before[c.id := c.info]
      case Left(p) => before - {p}
      case _ => before
  }

  predicate Mentions(m: Msg, p: PeerId) {
    (m.Hello? && p in m.peers) || (m.Join? && m.peer.id == p) || (m.Update? && m.peer.id == p)
  }

  /** `p` is reported gone by a message after which no message mentions it. */
  ghost predicate LeftForGood(log: seq<Msg>, p: PeerId) {
    exists i :: 0 <= i < |log| && log[i] == Left(p) && forall j :: i < j < |log| ==> !Mentions(log[j], p)
  }

  /** In-order application holds exactly the peers that were mentioned and did not leave for good. */
  lemma {:induction false} FoldedIff(log: seq<Msg>, p: PeerId)
    ensures p in Folded(log) <==> (exists i :: 0 <= i < |log| && Mentions(log[i], p)) && !LeftForGood(log, p)
  {
    if log != [] {
      var init, last := log[..|log| - 1], |log| - 1;
      FoldedIff(init, p);
      if Mentions(log[last], p) {
        assert p in Folded(log) && !LeftForGood(log, p);
      } else if log[last] == Left(p) {
        assert LeftForGood(log, p);
      } else {
        FoldSkips(init, log[last], p);
        assert log == init + [log[last]];
      }
    }
  }

  /** A message that neither mentions `p` nor reports it gone changes nothing about `p`. */
  lemma FoldSkips(init: seq<Msg>, m: Msg, p: PeerId)
    requires !Mentions(m, p) && m != Left(p)
    ensures p in Folded(init + [m]) <==> p in Folded(init)
    ensures LeftForGood(init + [m], p) <==> LeftForGood(init, p)
    ensures (exists i :: 0 <= i < |init + [m]| && Mentions((init + [m])[i], p))
      <==> (exists i :: 0 <= i < |init| && Mentions(init[i], p))
  {
    var log := init + [m];
    assert log[..|log| - 1] == init;
    if LeftForGood(init, p) {
      var i :| 0 <= i < |init| && init[i] == Left(p) && forall j :: i < j < |init| ==> !Mentions(init[j], p);
      assert log[i] == Left(p);
    }
    if LeftForGood(log, p) {
      var i :| 0 <= i < |log| && log[i] == Left(p) && forall j :: i < j < |log| ==> !Mentions(log[j], p);
      assert init[i] == Left(p);
      forall j | i < j < |init| ensures !Mentions(init[j], p) { assert !Mentions(log[j], p); }
    }
    if i :| 0 <= i < |init| && Mentions(init[i], p) { assert Mentions(log[i], p); }
  }

  /** Every departure in the channel is final. */
  ghost predicate DeparturesFinal(log: seq<Msg>) {
    forall p :: Left(p) in log ==> LeftForGood(log, p)
  }

  lemma {:induction false} HelloMentions(log: seq<Msg>, p: PeerId)
    requires p in HelloPeers(log)
    ensures exists i :: 0 <= i < |log| && Mentions(log[i], p)
  {
    if log[0].Hello? {
      assert Mentions(log[0], p);
    } else {
      HelloMentions(log[1..], p);
      var i :| 0 <= i < |log[1..]| && Mentions(log[1..][i], p);
      assert Mentions(log[i + 1], p);
    }
  }

  lemma PresentIsMentioned(log: seq<Msg>, p: PeerId)
    requires p in Present(log)
    ensures exists i :: 0 <= i < |log| && Mentions(log[i], p)
  {
    if p in HelloPeers(log) {
      HelloMentions(log, p);
    } else {
      var m :| m in log && m.Join? && m.peer.id == p;
      var i :| 0 <= i < |log| && log[i] == m;
      assert Mentions(log[i], p);
    }
  }

  /** A peer mentioned to a settled member is present there or reported gone. */
  lemma MentionedIsKnown(s: Server, q: PeerId, p: PeerId, i: nat)
    requires Inv(s) && Settled(s, q) && i < |s.handlers[q].inbox| && Mentions(s.handlers[q].inbox[i], p)
    ensures p in Present(s.handlers[q].inbox) || Left(p) in s.handlers[q].inbox
  {
    var log := s.handlers[q].inbox;
    assert HandlerOk(s, q) && MsgOk(s, q, log[i]);
    HelloOf(s, q);
    if log[i].Join? {
      assert p in JoinedIds(log);
    } else if log[i].Update? {
      assert Pair(s, q, p) && PairOk(s, q, p) && OwesNothing(s.handlers[p], q);
      assert ToldUpdate(s, q, p);
      var join := Join(Client(p, s.handlers[p].info));
      if join in log { assert join.peer.id in JoinedIds(log); }
    }
  }

  lemma FinalFold(s: Server, q: PeerId, p: PeerId)
    requires Inv(s) && Settled(s, q) && DeparturesFinal(s.handlers[q].inbox)
    ensures p in Folded(s.handlers[q].inbox) <==> p in Present(s.handlers[q].inbox)
  {
    var log := s.handlers[q].inbox;
    FoldedIff(log, p);
    if Left(p) in log {
      assert LeftForGood(log, p) && p in LeftIds(log);
    } else {
      if i: nat :| i < |log| && Mentions(log[i], p) { MentionedIsKnown(s, q, p, i); }
      if p in Present(log) { PresentIsMentioned(log, p); }
    }
  }

  /** A departure that is not final revives the peer. */
  lemma RevivedFold(log: seq<Msg>, p: PeerId)
    requires Left(p) in log && !LeftForGood(log, p)
    ensures p in Folded(log) && p !in Present(log)
  {
    FoldedIff(log, p);
    var i :| 0 <= i < |log| && log[i] == Left(p);
    var j :| i < j < |log| && Mentions(log[j], p);
    assert log[i].peerId in LeftIds(log);
  }

  /** Main result: the ids a settled client shows that applies its channel in order are exactly those
      of the other members of its room if and only if no departure in its channel is followed by a message
      that mentions the departed peer: the client's own late hello, or an update that the
      departure overtook. */
  lemma InOrderViewIff(maxConnections: nat, maxRequests: nat, es: seq<Event>, q: PeerId)
    requires Settled(RunTo(Start(maxConnections, maxRequests), es), q)
    ensures var s := RunTo(Start(maxConnections, maxRequests), es);
      DeparturesFinal(s.handlers[q].inbox) <==>
      Folded(s.handlers[q].inbox).Keys == RoomIn(s.rooms, s.handlers[q].group).Keys - {q}
  {
    var s := RunTo(Start(maxConnections, maxRequests), es);
    var log := s.handlers[q].inbox;
    InvAlways(maxConnections, maxRequests, es);
    RoomViewConverges(maxConnections, maxRequests, es, q);
    if DeparturesFinal(log) {
      forall p ensures p in Folded(log) <==> p in Present(log) { FinalFold(s, q, p); }
    } else {
      var p :| Left(p) in log && !LeftForGood(log, p);
      RevivedFold(log, p);
      assert p in Folded(log).Keys && p !in RoomIn(s.rooms, s.handlers[q].group).Keys - {q};
    }
  }
}
