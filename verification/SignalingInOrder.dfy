/** Clients that apply their channel in order: when not only the ids but also the infos they show
    are those of the room. */
module SignalingInOrder {
  import opened Common
  import opened Signaling
  import opened SignalingInvariant
  import opened SignalingSends
  import opened SignalingConnect
  import opened SignalingOrder
  import opened SignalingViews

  /** What a message says about a peer it mentions. */
  function InfoIn(m: Msg, p: PeerId): Info
    requires Mentions(m, p)
  {
    match m
    case Hello(_, peers) => peers[p]
    case Join(c) => c.info
    case Update(c) => c.info
  }

  ghost predicate LastMentionAt(log: seq<Msg>, p: PeerId, i: int) {
    0 <= i < |log| && Mentions(log[i], p) && forall j :: i < j < |log| ==> !Mentions(log[j], p)
  }

  /** The hello is the last message to mention `p`, and what it says is not what the newest
      update before it said. */
  ghost predicate StaleHello(log: seq<Msg>, p: PeerId) {
    exists i :: LastMentionAt(log, p, i) && log[i].Hello?
      && LastUpdate(log[..i], p).Some? && LastUpdate(log[..i], p).value != log[i].peers[p]
  }

  ghost predicate NoStaleHello(log: seq<Msg>) {
    forall p :: Left(p) !in log ==> !StaleHello(log, p)
  }

  /** In-order application holds for a peer what the last message to mention it said. */
  lemma {:induction false} FoldedInfo(log: seq<Msg>, p: PeerId) returns (i: nat)
    requires p in Folded(log)
    ensures LastMentionAt(log, p, i) && Folded(log)[p] == InfoIn(log[i], p)
  {
    var init, last := log[..|log| - 1], |log| - 1;
    if Mentions(log[last], p) {
      i := last;
    } else {
      i := FoldedInfo(init, p);
      assert log[i] == init[i];
      forall j | i < j < |log| ensures !Mentions(log[j], p) { if j < last { assert log[j] == init[j]; } }
    }
  }

  /** Messages after the last mention say nothing about updates. */
  lemma {:induction false} UpdateBefore(log: seq<Msg>, p: PeerId, i: nat)
    requires LastMentionAt(log, p, i)
    ensures LastUpdate(log, p) == if log[i].Update? then Some(log[i].peer.info) else LastUpdate(log[..i], p)
    decreases |log|
  {
    var init, last := log[..|log| - 1], |log| - 1;
    if i < last {
      assert !Mentions(log[last], p);
      forall j | i < j < |init| ensures !Mentions(init[j], p) { assert init[j] == log[j]; }
      UpdateBefore(init, p, i);
      assert init[..i] == log[..i];
    }
  }

  /** What holds of the channel of a settled member, as far as `p` is concerned. */
  ghost predicate Regular(log: seq<Msg>, p: PeerId, snapshot: map<PeerId, Info>, joined: Info) {
    && JoinsFirst(log)
    && HelloPeers(log) == snapshot
    && (forall i :: 0 <= i < |log| && log[i].Hello? ==> log[i].peers == snapshot)
    && (forall i :: 0 <= i < |log| && log[i].Join? && log[i].peer.id == p ==>
          log[i].peer.info == joined && p !in snapshot)
  }

  lemma {:induction false} JoinInfoIs(log: seq<Msg>, p: PeerId, i: nat, joined: Info)
    requires i < |log| && log[i].Join? && log[i].peer.id == p
    requires forall k :: 0 <= k < |log| && log[k].Join? && log[k].peer.id == p ==> log[k].peer.info == joined
    ensures JoinInfo(log, p) == Some(joined)
  {
    if !(log[0].Join? && log[0].peer.id == p) {
      assert log[1..][i - 1] == log[i];
      JoinInfoIs(log[1..], p, i - 1, joined);
    }
  }

  /** The last mention agrees with the order-insensitive view unless it is a stale hello. */
  lemma LastMentionAgreesIff(log: seq<Msg>, p: PeerId, i: nat, snapshot: map<PeerId, Info>, joined: Info)
    requires LastMentionAt(log, p, i) && Regular(log, p, snapshot, joined)
    ensures InfoOf(log, p) == Some(InfoIn(log[i], p)) <==> !StaleHello(log, p)
  {
    UpdateBefore(log, p, i);
    forall j | LastMentionAt(log, p, j) ensures j == i {}
    if log[i].Join? {
      NoUpdateFrom(log[..i], p);
      JoinInfoIs(log, p, i, joined);
    }
  }

  lemma ChannelIsRegular(s: Server, q: PeerId, p: PeerId)
    requires Inv(s) && Ordered(s) && Settled(s, q) && Pair(s, q, p)
    ensures Regular(s.handlers[q].inbox, p, s.handlers[q].snapshot, s.handlers[p].info)
  {
    var log := s.handlers[q].inbox;
    assert HandlerOk(s, q) && PairOk(s, q, p);
    HelloOf(s, q);
    forall i | 0 <= i < |log|
      ensures log[i].Hello? ==> log[i].peers == s.handlers[q].snapshot
      ensures log[i].Join? && log[i].peer.id == p ==>
        log[i].peer.info == s.handlers[p].info && p !in s.handlers[q].snapshot
    {
      assert MsgOk(s, q, log[i]);
      if log[i].Join? && log[i].peer.id == p {
        assert log[i] == Join(Client(p, s.handlers[p].info));
        assert ToldMain(s, q, p, log[i]);
      }
    }
  }

  /** For one peer of the room: in-order application shows the stored info exactly if the hello
      about it is not stale. */
  lemma ShownInfoIff(s: Server, q: PeerId, p: PeerId)
    requires Inv(s) && Ordered(s) && Settled(s, q) && NoneClosing(s, s.handlers[q].group)
    requires p in RoomIn(s.rooms, s.handlers[q].group) && p in Folded(s.handlers[q].inbox) && p != q
    ensures Folded(s.handlers[q].inbox)[p] == RoomIn(s.rooms, s.handlers[q].group)[p]
      <==> !StaleHello(s.handlers[q].inbox, p)
  {
    var log := s.handlers[q].inbox;
    assert Entry(s, s.handlers[q].group, p);
    assert Pair(s, q, p);
    InfoConverges(s, q, p);
    ChannelIsRegular(s, q, p);
    var i := FoldedInfo(log, p);
    LastMentionAgreesIff(log, p, i, s.handlers[q].snapshot, s.handlers[p].info);
  }

  lemma LeftIdsIff(log: seq<Msg>, p: PeerId)
    ensures p in LeftIds(log) <==> Left(p) in log
  {
    assert Left(p).peerId == p;
  }

  lemma StaleIsPresent(log: seq<Msg>, p: PeerId, snapshot: map<PeerId, Info>)
    requires StaleHello(log, p) && Left(p) !in log && HelloPeers(log) == snapshot
    requires forall i :: 0 <= i < |log| && log[i].Hello? ==> log[i].peers == snapshot
    ensures p in Present(log)
  {
    var i :| LastMentionAt(log, p, i) && log[i].Hello?;
    LeftIdsIff(log, p);
  }

  lemma HellosAgree(s: Server, q: PeerId)
    requires q in s.handlers && InboxOk(s, q)
    ensures forall i :: 0 <= i < |s.handlers[q].inbox| && s.handlers[q].inbox[i].Hello? ==>
      s.handlers[q].inbox[i].peers == s.handlers[q].snapshot
  {
    forall i | 0 <= i < |s.handlers[q].inbox| && s.handlers[q].inbox[i].Hello?
      ensures s.handlers[q].inbox[i].peers == s.handlers[q].snapshot
    {
      assert MsgOk(s, q, s.handlers[q].inbox[i]);
    }
  }

  lemma ShowsRoom(s: Server, q: PeerId)
    requires Inv(s) && Ordered(s) && Settled(s, q) && NoneClosing(s, s.handlers[q].group)
    requires NoStaleHello(s.handlers[q].inbox) && DeparturesFinal(s.handlers[q].inbox)
    ensures Folded(s.handlers[q].inbox) == RoomIn(s.rooms, s.handlers[q].group) - {q}
  {
    var log, room := s.handlers[q].inbox, RoomIn(s.rooms, s.handlers[q].group);
    forall p ensures (p in Folded(log) <==> p in room && p != q) && (p in Folded(log) ==> Folded(log)[p] == room[p]) {
      FinalFold(s, q, p);
      PresentIff(s, q, p);
      if p in Folded(log) {
        LeftIdsIff(log, p);
        ShownInfoIff(s, q, p);
      }
    }
    SameEntries(Folded(log), room, q);
  }

  lemma ShowsRoomOnlyIf(s: Server, q: PeerId, p: PeerId)
    requires Inv(s) && Ordered(s) && Settled(s, q) && NoneClosing(s, s.handlers[q].group)
    requires Folded(s.handlers[q].inbox) == RoomIn(s.rooms, s.handlers[q].group) - {q}
      && Left(p) !in s.handlers[q].inbox
    ensures !StaleHello(s.handlers[q].inbox, p)
  {
    var log := s.handlers[q].inbox;
    if StaleHello(log, p) {
      assert HandlerOk(s, q);
      HelloOf(s, q);
      HellosAgree(s, q);
      StaleIsPresent(log, p, s.handlers[q].snapshot);
      PresentIff(s, q, p);
      ShownInfoIff(s, q, p);
    }
  }

  /** Main result: a settled client that applies its channel in order shows the room, ids and
      infos, if and only if no departure in the channel is followed by a mention of the departed
      peer and no hello comes last with an info that an update before it had replaced. */
  lemma InOrderViewIsRoomIff(maxConnections: nat, maxRequests: nat, es: seq<Event>, q: PeerId)
    requires Settled(RunTo(Start(maxConnections, maxRequests), es), q)
    requires var s := RunTo(Start(maxConnections, maxRequests), es); NoneClosing(s, s.handlers[q].group)
    ensures var s := RunTo(Start(maxConnections, maxRequests), es);
      var log := s.handlers[q].inbox;
      Folded(log) == RoomIn(s.rooms, s.handlers[q].group) - {q} <==> DeparturesFinal(log) && NoStaleHello(log)
  {
    var s := RunTo(Start(maxConnections, maxRequests), es);
    var log := s.handlers[q].inbox;
    InvAlways(maxConnections, maxRequests, es);
    OrderedAlways(maxConnections, maxRequests, es);
    InOrderViewIff(maxConnections, maxRequests, es, q);
    if DeparturesFinal(log) && NoStaleHello(log) { ShowsRoom(s, q); }
    if Folded(log) == RoomIn(s.rooms, s.handlers[q].group) - {q} {
      assert Folded(log).Keys == RoomIn(s.rooms, s.handlers[q].group).Keys - {q};
      forall p | Left(p) !in log ensures !StaleHello(log, p) { ShowsRoomOnlyIf(s, q, p); }
    }
  }
}
