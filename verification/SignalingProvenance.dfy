/** Where every relayed offer and answer, and every update, comes from: the very words of a client
    message of the run. */
module SignalingProvenance {
  import opened Common
  import opened Signaling
  import opened SignalingInvariant
  import opened SignalingConnect
  import opened SignalingGhost

  /** Event `n` of the run is this message of client `p`. */
  ghost predicate Asked(es: seq<Event>, n: int, p: PeerId, request: Request) {
    0 <= n < |es| && es[n] == ClientMessage(p, request)
  }

  /** Client `p` sent this message, and later its room section took it up. */
  ghost predicate TakenUp(s: Server, es: seq<Event>, p: PeerId, request: Request) {
    exists n :: 0 <= n < |es| && HandledAt(s, es, n, p, request) && exists i :: i < n && Asked(es, i, p, request)
  }

  /** Event `n` is the room section of exactly this admitted message. */
  ghost predicate HandledAt(s: Server, es: seq<Event>, n: nat, p: PeerId, request: Request)
    requires n < |es|
  {
    var w := RunTo(s, es[..n]);
    es[n].HandleRequest? && es[n].peer == p && p in w.handlers && w.handlers[p].request == Some(request)
  }

  /** What a message has to do with the client messages of the run. */
  ghost predicate Sourced(s: Server, es: seq<Event>, to: PeerId, m: Msg) {
    match m
    case Relay(kind, origin, sessionId, sdp) => TakenUp(s, es, origin.id, Forward(kind, to, sessionId, sdp))
    case Update(peer) => TakenUp(s, es, peer.id, NewInfo(peer.info))
    case Error(code) => code == 429
    case _ => true
  }

  /** Everything delivered, owed or admitted has its source in the run. */
  ghost predicate AllSourced(s: Server, es: seq<Event>) {
    var w := RunTo(s, es);
    && (forall q, i :: q in w.handlers && 0 <= i < |w.handlers[q].inbox| ==> Sourced(s, es, q, w.handlers[q].inbox[i]))
    && (forall p, i :: p in w.handlers && 0 <= i < |w.handlers[p].recv| ==>
          Sourced(s, es, w.handlers[p].recv[i].to, w.handlers[p].recv[i].msg))
    && (forall p :: p in w.handlers && w.handlers[p].request.Some? ==>
          exists n :: Asked(es, n, p, w.handlers[p].request.value))
  }

  lemma AskedLater(es: seq<Event>, e: Event, n: int, p: PeerId, request: Request)
    requires Asked(es, n, p, request)
    ensures Asked(es + [e], n, p, request)
  {
  }

  lemma TakenUpLater(s: Server, es: seq<Event>, e: Event, p: PeerId, request: Request)
    requires TakenUp(s, es, p, request)
    ensures TakenUp(s, es + [e], p, request)
  {
    var n :| 0 <= n < |es| && HandledAt(s, es, n, p, request) && exists i :: i < n && Asked(es, i, p, request);
    var i :| i < n && Asked(es, i, p, request);
    AskedLater(es, e, i, p, request);
    assert (es + [e])[..n] == es[..n];
    assert HandledAt(s, es + [e], n, p, request);
  }

  lemma SourcedLater(s: Server, es: seq<Event>, e: Event, to: PeerId, m: Msg)
    requires Sourced(s, es, to, m)
    ensures Sourced(s, es + [e], to, m)
  {
    match m
    case Relay(kind, origin, sessionId, sdp) => TakenUpLater(s, es, e, origin.id, Forward(kind, to, sessionId, sdp));
    case Update(peer) => TakenUpLater(s, es, e, peer.id, NewInfo(peer.info));
    case _ =>
  }

  /** The room section of an admitted message is its taking up. */
  lemma NowTakenUp(s: Server, es: seq<Event>, p: PeerId, order: seq<PeerId>, request: Request)
    requires p in RunTo(s, es).handlers && RunTo(s, es).handlers[p].request == Some(request)
    requires exists n :: Asked(es, n, p, request)
    ensures TakenUp(s, es + [HandleRequest(p, order)], p, request)
  {
    var i :| Asked(es, i, p, request);
    AskedLater(es, HandleRequest(p, order), i, p, request);
    assert (es + [HandleRequest(p, order)])[..|es|] == es;
    assert HandledAt(s, es + [HandleRequest(p, order)], |es|, p, request);
  }

  // ----- what one event adds -----

  /** The only new message in the channel of `q` was owed to it before. */
  ghost predicate Delivered(w: Server, e: Event, q: PeerId, m: Msg) {
    || (e.SendMain? && e.peer in w.handlers
        && w.handlers[e.peer].main != [] && w.handlers[e.peer].main[0] == Send(q, m))
    || (e.SendRecv? && e.peer in w.handlers
        && w.handlers[e.peer].recv != [] && w.handlers[e.peer].recv[0] == Send(q, m))
  }

  ghost predicate InboxFollows(w: Server, e: Event, q: PeerId) {
    q in Next(w, e).handlers ==>
      forall i :: 0 <= i < |Next(w, e).handlers[q].inbox| ==>
        || (q in w.handlers && i < |w.handlers[q].inbox| && Next(w, e).handlers[q].inbox[i] == w.handlers[q].inbox[i])
        || Delivered(w, e, q, Next(w, e).handlers[q].inbox[i])
  }

  lemma SendsFollow(w: Server, p: PeerId, q: PeerId)
    ensures InboxFollows(w, SendMain(p), q) && InboxFollows(w, SendRecv(p), q)
  {
  }

  lemma OthersFollow(w: Server, e: Event, q: PeerId)
    requires !e.SendMain? && !e.SendRecv?
    ensures InboxFollows(w, e, q)
  {
    hide Protect, ToAll, Lists, UpdateSection, ConnectSection, CleanupSection;
    match e
    case Connect(p, g, info, order) =>
    case ClientMessage(p, request) =>
    case HandleRequest(p, order) =>
    case Cleanup(p, order) =>
    case TaskEnds(p) =>
    case AbortRecv(p) =>
    case ClearCounts =>
  }

  /** The sends and the request a receive task has after `e`, where they are new. */
  ghost predicate TaskFollows(w: Server, e: Event, p: PeerId) {
    p in Next(w, e).handlers ==>
      var h' := Next(w, e).handlers[p];
      && (forall i :: 0 <= i < |h'.recv| ==>
            || (p in w.handlers && h'.recv[i] in w.handlers[p].recv)
            || (e.ClientMessage? && e.peer == p && h'.recv[i] == Send(p, Error(429)))
            || (e.HandleRequest? && e.peer == p && p in w.handlers && w.handlers[p].request.Some?
                && Answers(w, p, w.handlers[p].request.value, h'.recv[i])))
      && (h'.request.Some? ==>
            || (p in w.handlers && h'.request == w.handlers[p].request)
            || e == ClientMessage(p, h'.request.value))
  }

  /** The send carries out the request, word for word. */
  ghost predicate Answers(w: Server, p: PeerId, request: Request, send: Send)
    requires p in w.handlers
  {
    match request
    case NewInfo(info) => send.msg == Update(Client(p, info))
    case Forward(kind, target, sessionId, sdp) =>
      send == Send(target, Relay(kind, Client(p, w.handlers[p].info), sessionId, sdp))
  }

  lemma MessageTask(w: Server, x: PeerId, request: Request, p: PeerId)
    ensures TaskFollows(w, ClientMessage(x, request), p)
  {
    hide Protect;
  }

  lemma UpdateTask(w: Server, x: PeerId, order: seq<PeerId>, p: PeerId)
    requires x in w.handlers && w.handlers[x].request.Some? && w.handlers[x].request.value.NewInfo?
    ensures TaskFollows(w, HandleRequest(x, order), p)
  {
    hide Lists, UpdateSection;
  }

  lemma ForwardTask(w: Server, x: PeerId, order: seq<PeerId>, p: PeerId)
    requires x in w.handlers && w.handlers[x].request.Some? && w.handlers[x].request.value.Forward?
    ensures TaskFollows(w, HandleRequest(x, order), p)
  {
  }

  lemma SendTask(w: Server, x: PeerId, p: PeerId)
    ensures TaskFollows(w, SendMain(x), p) && TaskFollows(w, SendRecv(x), p)
  {
    if x in w.handlers && w.handlers[x].recv != [] {
      assert forall send :: send in w.handlers[x].recv[1..] ==> send in w.handlers[x].recv;
    }
  }

  lemma SectionTask(w: Server, x: PeerId, g: GroupKey, info: Info, order: seq<PeerId>, p: PeerId)
    ensures TaskFollows(w, Connect(x, g, info, order), p) && TaskFollows(w, Cleanup(x, order), p)
    ensures TaskFollows(w, TaskEnds(x), p) && TaskFollows(w, AbortRecv(x), p) && TaskFollows(w, ClearCounts, p)
  {
    hide Protect, ToAll, Lists, ConnectSection, CleanupSection;
  }

  lemma TasksFollow(w: Server, e: Event, p: PeerId)
    ensures TaskFollows(w, e, p)
  {
    hide TaskFollows, Next;
    var info := Info("", "", None, None, "");
    match e
    case Connect(x, g, i, order) => SectionTask(w, x, g, i, order, p);
    case SendMain(x) => SendTask(w, x, p);
    case SendRecv(x) => SendTask(w, x, p);
    case ClientMessage(x, request) => MessageTask(w, x, request, p);
    case HandleRequest(x, order) => RequestTask(w, x, order, p);
    case Cleanup(x, order) => SectionTask(w, x, "", info, order, p);
    case TaskEnds(x) => SectionTask(w, x, "", info, [], p);
    case AbortRecv(x) => SectionTask(w, x, "", info, [], p);
    case ClearCounts => SectionTask(w, "", "", info, [], p);
  }

  lemma RequestTask(w: Server, x: PeerId, order: seq<PeerId>, p: PeerId)
    ensures TaskFollows(w, HandleRequest(x, order), p)
  {
    if x in w.handlers && w.handlers[x].request.Some? {
      match w.handlers[x].request.value
      case NewInfo(_) => UpdateTask(w, x, order, p);
      case Forward(_, _, _, _) => ForwardTask(w, x, order, p);
    } else {
      assert Next(w, HandleRequest(x, order)) == w;
    }
  }

  // ----- whole runs -----

  /** A main task never owes anything that needs a source. */
  lemma MainNeedsNoSource(s: Server, es: seq<Event>, w: Server, p: PeerId)
    requires p in w.handlers && w.handlers[p].main != [] && MainOk(w, p)
    ensures Sourced(s, es, w.handlers[p].main[0].to, w.handlers[p].main[0].msg)
  {
    hide TakenUp, MsgOk;
  }

  lemma InboxSourced(s: Server, es: seq<Event>, e: Event, q: PeerId, i: nat)
    requires Inv(RunTo(s, es)) && AllSourced(s, es)
    requires q in Next(RunTo(s, es), e).handlers && i < |Next(RunTo(s, es), e).handlers[q].inbox|
    ensures Sourced(s, es + [e], q, Next(RunTo(s, es), e).handlers[q].inbox[i])
  {
    var w := RunTo(s, es);
    var m := Next(w, e).handlers[q].inbox[i];
    if e.SendMain? || e.SendRecv? { SendsFollow(w, e.peer, q); } else { OthersFollow(w, e, q); }
    hide Sourced, RunTo, Next;
    if e.SendMain? && Delivered(w, e, q, m) {
      assert HandlerOk(w, e.peer);
      MainNeedsNoSource(s, es, w, e.peer);
    }
    SourcedLater(s, es, e, q, m);
  }

  lemma TaskSourced(s: Server, es: seq<Event>, e: Event, p: PeerId)
    requires AllSourced(s, es) && p in Next(RunTo(s, es), e).handlers
    ensures var h' := Next(RunTo(s, es), e).handlers[p];
      && (forall i :: 0 <= i < |h'.recv| ==> Sourced(s, es + [e], h'.recv[i].to, h'.recv[i].msg))
      && (h'.request.Some? ==> exists n :: Asked(es + [e], n, p, h'.request.value))
  {
    hide RunTo, Next, Sourced, Asked;
    var h' := Next(RunTo(s, es), e).handlers[p];
    forall i | 0 <= i < |h'.recv| ensures Sourced(s, es + [e], h'.recv[i].to, h'.recv[i].msg) {
      OneSendSourced(s, es, e, p, i);
    }
    if h'.request.Some? { RequestAsked(s, es, e, p); }
  }

  lemma OldSendSourced(s: Server, es: seq<Event>, e: Event, p: PeerId, send: Send)
    requires AllSourced(s, es) && p in RunTo(s, es).handlers && send in RunTo(s, es).handlers[p].recv
    ensures Sourced(s, es + [e], send.to, send.msg)
  {
    hide RunTo, Sourced;
    var i :| 0 <= i < |RunTo(s, es).handlers[p].recv| && RunTo(s, es).handlers[p].recv[i] == send;
    SourcedLater(s, es, e, send.to, send.msg);
  }

  lemma WordForWord(s: Server, es: seq<Event>, w: Server, p: PeerId, request: Request, send: Send)
    requires p in w.handlers && Answers(w, p, request, send) && TakenUp(s, es, p, request)
    ensures Sourced(s, es, send.to, send.msg)
  {
    hide TakenUp;
  }

  lemma AnswerSourced(s: Server, es: seq<Event>, p: PeerId, order: seq<PeerId>, send: Send)
    requires p in RunTo(s, es).handlers && RunTo(s, es).handlers[p].request.Some?
    requires exists n :: Asked(es, n, p, RunTo(s, es).handlers[p].request.value)
    requires Answers(RunTo(s, es), p, RunTo(s, es).handlers[p].request.value, send)
    ensures Sourced(s, es + [HandleRequest(p, order)], send.to, send.msg)
  {
    hide RunTo, TakenUp, Asked, Answers, Sourced;
    var request := RunTo(s, es).handlers[p].request.value;
    NowTakenUp(s, es, p, order, request);
    WordForWord(s, es + [HandleRequest(p, order)], RunTo(s, es), p, request, send);
  }

  lemma OneSendSourced(s: Server, es: seq<Event>, e: Event, p: PeerId, i: nat)
    requires AllSourced(s, es) && p in Next(RunTo(s, es), e).handlers && i < |Next(RunTo(s, es), e).handlers[p].recv|
    ensures var send := Next(RunTo(s, es), e).handlers[p].recv[i]; Sourced(s, es + [e], send.to, send.msg)
  {
    var w := RunTo(s, es);
    var send := Next(w, e).handlers[p].recv[i];
    TasksFollow(w, e, p);
    hide RunTo, Next, AllSourced, Answers;
    if p in w.handlers && send in w.handlers[p].recv {
      OldSendSourced(s, es, e, p, send);
    } else if e.HandleRequest? {
      HasAsked(s, es, p);
      AnswerSourced(s, es, p, e.order, send);
    }
  }

  lemma HasAsked(s: Server, es: seq<Event>, p: PeerId)
    requires AllSourced(s, es) && p in RunTo(s, es).handlers && RunTo(s, es).handlers[p].request.Some?
    ensures exists n :: Asked(es, n, p, RunTo(s, es).handlers[p].request.value)
  {
    hide RunTo, Sourced, Asked;
  }

  lemma RequestAsked(s: Server, es: seq<Event>, e: Event, p: PeerId)
    requires AllSourced(s, es) && p in Next(RunTo(s, es), e).handlers
    requires Next(RunTo(s, es), e).handlers[p].request.Some?
    ensures exists n :: Asked(es + [e], n, p, Next(RunTo(s, es), e).handlers[p].request.value)
  {
    var w := RunTo(s, es);
    var request := Next(w, e).handlers[p].request;
    TasksFollow(w, e, p);
    hide RunTo, Next, Sourced;
    if p in w.handlers && request == w.handlers[p].request {
      var n :| Asked(es, n, p, request.value);
      AskedLater(es, e, n, p, request.value);
    } else {
      assert Asked(es + [e], |es|, p, request.value);
    }
  }

  lemma {:induction false} EverythingSourced(maxConnections: nat, maxRequests: nat, es: seq<Event>)
    ensures AllSourced(Start(maxConnections, maxRequests), es)
  {
    if es != [] {
      var s, before, e := Start(maxConnections, maxRequests), es[..|es| - 1], es[|es| - 1];
      EverythingSourced(maxConnections, maxRequests, before);
      InvAlways(maxConnections, maxRequests, before);
      RunToThen(s, before, e);
      assert es == before + [e];
      hide RunTo, Next, Sourced, Asked;
      var w := RunTo(s, es);
      forall q, i | q in w.handlers && 0 <= i < |w.handlers[q].inbox|
        ensures Sourced(s, es, q, w.handlers[q].inbox[i])
      {
        InboxSourced(s, before, e, q, i);
      }
      forall p | p in w.handlers
        ensures forall i :: 0 <= i < |w.handlers[p].recv| ==>
          Sourced(s, es, w.handlers[p].recv[i].to, w.handlers[p].recv[i].msg)
        ensures w.handlers[p].request.Some? ==> exists n :: Asked(es, n, p, w.handlers[p].request.value)
      {
        TaskSourced(s, before, e, p);
      }
    }
  }

  /** Main result: an offer or answer in the channel of `q` was asked for by its origin, with this
      kind, this session, this text and `q` as the target, and its room section came after that. */
  lemma RelayWasAskedFor(maxConnections: nat, maxRequests: nat, es: seq<Event>, q: PeerId, m: Msg)
    returns (asked: nat, handled: nat)
    requires var s := RunTo(Start(maxConnections, maxRequests), es);
      q in s.handlers && m in s.handlers[q].inbox && m.Relay?
    ensures asked < handled < |es|
    ensures es[asked] == ClientMessage(m.origin.id, Forward(m.kind, q, m.sessionId, m.sdp))
    ensures es[handled].HandleRequest? && es[handled].peer == m.origin.id
    ensures var w := RunTo(Start(maxConnections, maxRequests), es[..handled]);
      m.origin.id in w.handlers && w.handlers[m.origin.id].request == Some(Forward(m.kind, q, m.sessionId, m.sdp))
  {
    var s0 := Start(maxConnections, maxRequests);
    var s := RunTo(s0, es);
    EverythingSourced(maxConnections, maxRequests, es);
    var i :| 0 <= i < |s.handlers[q].inbox| && s.handlers[q].inbox[i] == m;
    assert Sourced(s0, es, q, s.handlers[q].inbox[i]);
    var request := Forward(m.kind, q, m.sessionId, m.sdp);
    handled :| handled < |es| && HandledAt(s0, es, handled, m.origin.id, request)
               && exists k :: k < handled && Asked(es, k, m.origin.id, request);
    asked :| asked < handled && Asked(es, asked, m.origin.id, request);
  }

  /** Main result: an update in a channel carries exactly an info its peer sent. */
  lemma UpdateWasAskedFor(maxConnections: nat, maxRequests: nat, es: seq<Event>, q: PeerId, m: Msg) returns (asked: nat)
    requires var s := RunTo(Start(maxConnections, maxRequests), es);
      q in s.handlers && m in s.handlers[q].inbox && m.Update?
    ensures asked < |es| && es[asked] == ClientMessage(m.peer.id, NewInfo(m.peer.info))
  {
    var s0 := Start(maxConnections, maxRequests);
    var s := RunTo(s0, es);
    EverythingSourced(maxConnections, maxRequests, es);
    var i :| 0 <= i < |s.handlers[q].inbox| && s.handlers[q].inbox[i] == m;
    assert Sourced(s0, es, q, s.handlers[q].inbox[i]);
    var handled :| 0 <= handled < |es| && HandledAt(s0, es, handled, m.peer.id, NewInfo(m.peer.info))
                   && exists k :: k < handled && Asked(es, k, m.peer.id, NewInfo(m.peer.info));
    asked :| asked < handled && Asked(es, asked, m.peer.id, NewInfo(m.peer.info));
  }

  /** The room section of an admitted offer or answer owes its target exactly one message, with
      that kind, session and text, if the target is a member of the sender's room, and nothing
      otherwise; no room changes. */
  lemma ForwardOwesOne(s: Server, p: PeerId, order: seq<PeerId>, kind: SdpKind, target: PeerId, sessionId: string,
                       sdp: string)
    requires p in s.handlers && s.handlers[p].request == Some(Forward(kind, target, sessionId, sdp))
    ensures var s' := Next(s, HandleRequest(p, order));
      && s'.rooms == s.rooms && p in s'.handlers && s'.handlers[p].request.None?
      && (target in RoomIn(s.rooms, s.handlers[p].group) ==>
            s'.handlers[p].recv == [Send(target, Relay(kind, Client(p, s.handlers[p].info), sessionId, sdp))])
      && (target !in RoomIn(s.rooms, s.handlers[p].group) ==> s'.handlers[p].recv == [])
  {
  }

  /** A client message is admitted if and only if the group has requests left; a refused one is
      answered with error 429 and ends the connection, and touches neither room nor request. */
  lemma MessageAdmittedIff(s: Server, p: PeerId, request: Request)
    requires TakesMessage(s, p)
    ensures var s' := Next(s, ClientMessage(p, request));
      var h, h' := s.handlers[p], s'.handlers[p];
      && s'.rooms == s.rooms
      && (h'.request == Some(request) <==> CountIn(s.counts, h.group) < s.maxRequests)
      && (CountIn(s.counts, h.group) >= s.maxRequests ==>
            h'.request.None? && h'.recv == [Send(p, Error(429))] && (h.stage == Active ==> h'.stage == Closing))
  {
  }

  lemma SectionLeavesOthers(rooms: Rooms, g: GroupKey, p: PeerId)
    requires g in rooms
    ensures var rooms' := CleanupSection(rooms, g, p).1;
      && (g in rooms' <==> exists q :: q in rooms[g] && q != p)
      && (g in rooms' ==> rooms'[g] == rooms[g] - {p})
      && rooms' - {g} == rooms - {g}
  {
    if q :| q in rooms[g] && q != p { assert q in rooms[g].Keys - {p}; }
    if rooms[g].Keys - {p} != {} {
      var q :| q in rooms[g].Keys - {p};
      assert q in rooms[g] && q != p;
    }
  }

  /** Cleanup takes the connection out of its room, and the room away if nobody else is in it;
      no other room changes. */
  lemma CleanupLeavesOthers(s: Server, p: PeerId, order: seq<PeerId>)
    requires p in s.handlers && s.handlers[p].stage == Closing && s.handlers[p].group in s.rooms
    requires Lists(order, s.rooms[s.handlers[p].group].Keys - {p})
    ensures var g, s' := s.handlers[p].group, Next(s, Cleanup(p, order));
      && s'.handlers[p].stage == Removed
      && (g in s'.rooms <==> exists q :: q in s.rooms[g] && q != p)
      && (g in s'.rooms ==> s'.rooms[g] == s.rooms[g] - {p})
      && s'.rooms - {g} == s.rooms - {g}
  {
    var g := s.handlers[p].group;
    assert CleanupSection(s.rooms, g, p).0 == s.rooms[g].Keys - {p};
    SectionLeavesOthers(s.rooms, g, p);
    hide CleanupSection, Lists, ToAll;
  }

  /** A refused connect leaves the group's inner map behind, empty if it was not there. */
  lemma RefusedConnectLeavesMap(s: Server, p: PeerId, g: GroupKey, info: Info, order: seq<PeerId>)
    requires p !in s.handlers && Lists(order, RoomIn(s.rooms, g).Keys)
    requires p !in Next(s, Connect(p, g, info, order)).handlers
    ensures g in Next(s, Connect(p, g, info, order)).rooms
    ensures Next(s, Connect(p, g, info, order)).rooms[g] == RoomIn(s.rooms, g)
  {
  }
}
