/** What every run of the signaling server keeps: for each pair of connections, what one was
    told about the other plus what is still owed to it accounts for the room. */
module SignalingInvariant {
  import opened Common
  import opened Signaling

  // ----- single connections -----

  ghost predicate InRoom(s: Server, p: PeerId) {
    p in s.handlers && s.handlers[p].stage != Removed
  }

  /** A message that may be put into the channel of `q`: it speaks of a connection of the same
      group, and with that connection's connect-time data where it carries any. */
  ghost predicate MsgOk(s: Server, q: PeerId, m: Msg)
    requires q in s.handlers
  {
    match m
    case Hello(c, peers) => c == Client(q, s.handlers[q].info) && peers == s.handlers[q].snapshot
    case Join(c) => Known(s, q, c.id) && c.id != q && c.info == s.handlers[c.id].info
    case Update(c) => Known(s, q, c.id) && c.id != q
    case Left(p) => Known(s, q, p) && p != q && s.handlers[p].stage == Removed
    case Relay(_, c, _, _) => Known(s, q, c.id) && c.info == s.handlers[c.id].info
    case Error(_) => true
  }

  ghost predicate Known(s: Server, q: PeerId, p: PeerId)
    requires q in s.handlers
  {
    p in s.handlers && s.handlers[p].group == s.handlers[q].group
  }

  ghost predicate SendOk(s: Server, send: Send) {
    send.to in s.handlers && MsgOk(s, send.to, send.msg)
  }

  /** What the main task of `p` may owe at its stage. */
  ghost predicate MainOk(s: Server, p: PeerId)
    requires p in s.handlers
  {
    var h := s.handlers[p];
    && (forall i :: 0 <= i < |h.main| ==> SendOk(s, h.main[i]))
    && match h.stage
       case Greeting =>
         && h.main != []
         && h.main[|h.main| - 1] == Send(p, Hello(Client(p, h.info), h.snapshot))
         && (forall i :: 0 <= i < |h.main| - 1 ==> h.main[i].msg == Join(Client(p, h.info)))
       case Removed => forall i :: 0 <= i < |h.main| ==> h.main[i].msg == Left(p)
       case _ => h.main == []
  }

  ghost predicate FromRecv(p: PeerId, m: Msg) {
    (m.Update? && m.peer.id == p) || (m.Relay? && m.origin.id == p) || m.Error?
  }

  ghost predicate RecvOk(s: Server, p: PeerId)
    requires p in s.handlers
  {
    var h := s.handlers[p];
    && (forall i :: 0 <= i < |h.recv| ==> SendOk(s, h.recv[i]) && FromRecv(p, h.recv[i].msg))
    && (h.stage == Greeting ==> h.recv == [])
    && (h.request.Some? ==> h.recv == [] && h.stage != Greeting)
  }

  ghost predicate InboxOk(s: Server, q: PeerId)
    requires q in s.handlers
  {
    var h := s.handlers[q];
    && (forall i :: 0 <= i < |h.inbox| ==> MsgOk(s, q, h.inbox[i]))
    && (h.stage != Greeting ==> Hello(Client(q, h.info), h.snapshot) in h.inbox)
  }

  ghost predicate SnapshotOk(s: Server, q: PeerId)
    requires q in s.handlers
  {
    forall p :: p in s.handlers[q].snapshot ==> p != q && Known(s, q, p)
  }

  ghost predicate HandlerOk(s: Server, p: PeerId)
    requires p in s.handlers
  {
    MainOk(s, p) && RecvOk(s, p) && InboxOk(s, p) && SnapshotOk(s, p)
  }

  /** The room of `g` lists `p` exactly while `p` is a connection of `g` between insertion and cleanup. */
  ghost predicate Entry(s: Server, g: GroupKey, p: PeerId) {
    p in RoomIn(s.rooms, g) <==> InRoom(s, p) && s.handlers[p].group == g
  }

  /** Room sizes and request counters respect the limits. */
  ghost predicate LimitsOk(s: Server) {
    && (forall g :: g in s.rooms ==> |s.rooms[g]| <= s.maxConnections)
    && (forall g :: g in s.counts ==> s.counts[g] <= s.maxRequests)
  }

  ghost predicate RoomsOk(s: Server) {
    LimitsOk(s) && forall g, p :: Entry(s, g, p)
  }

  // ----- pairs of connections -----

  /** `m` has reached the channel of `q` or the main task of `p` still owes it. */
  predicate ToldMain(s: Server, q: PeerId, p: PeerId, m: Msg)
    requires q in s.handlers && p in s.handlers
  {
    m in s.handlers[q].inbox || Send(q, m) in s.handlers[p].main
  }

  /** Presence: a member `q` has been or will be told that `p` is there, and not that it left,
      exactly while `p` is in the room. */
  ghost predicate Presence(s: Server, q: PeerId, p: PeerId)
    requires q in s.handlers && p in s.handlers
  {
    var seen := p in s.handlers[q].snapshot;
    var joined := ToldMain(s, q, p, Join(Client(p, s.handlers[p].info)));
    var left := ToldMain(s, q, p, Left(p));
    && (s.handlers[p].stage != Removed <==> (seen || joined) && !left)
    && !(seen && joined)
  }

  /** The newest update of `p` in a channel. */
  function LastUpdate(inbox: seq<Msg>, p: PeerId): Option<Info> {
    if inbox == [] then None
    else
      var m := inbox[|inbox| - 1];
      if m.Update? && m.peer.id == p then Some(m.peer.info) else LastUpdate(inbox[..|inbox| - 1], p)
  }

  /** The info `q` ends up with for `p` from what is in its channel. */
  function Believed(s: Server, q: PeerId, p: PeerId): Info
    requires q in s.handlers && p in s.handlers
  {
    var newest := LastUpdate(s.handlers[q].inbox, p);
    if newest.Some? then newest.value
    else if p in s.handlers[q].snapshot then s.handlers[q].snapshot[p]
    else s.handlers[p].info
  }

  /** Information: while `p` is fully connected, `q` believes what the room stores about `p`
      unless `p` still owes `q` exactly that as an update. */
  ghost predicate Information(s: Server, q: PeerId, p: PeerId)
    requires q in s.handlers && p in s.handlers
  {
    s.handlers[p].stage in {Greeting, Active} && p in RoomIn(s.rooms, s.handlers[p].group) ==>
      var stored := s.rooms[s.handlers[p].group][p];
      || Send(q, Update(Client(p, stored))) in s.handlers[p].recv
      || Believed(s, q, p) == stored
  }

  /** An update of `p` is in the channel of `q`, or the receive task of `p` owes it one. */
  ghost predicate ToldUpdate(s: Server, q: PeerId, p: PeerId)
    requires q in s.handlers && p in s.handlers
  {
    || (exists m :: m in s.handlers[q].inbox && m.Update? && m.peer.id == p)
    || (exists m :: Send(q, m) in s.handlers[p].recv && m.Update?)
  }

  /** Grounding: updates of `p` come only to connections that know or will know that `p` joined. */
  ghost predicate Grounded(s: Server, q: PeerId, p: PeerId)
    requires q in s.handlers && p in s.handlers
  {
    ToldUpdate(s, q, p) ==>
      p in s.handlers[q].snapshot || ToldMain(s, q, p, Join(Client(p, s.handlers[p].info)))
  }

  ghost predicate Pair(s: Server, q: PeerId, p: PeerId) {
    && q in s.handlers && p in s.handlers && p != q
    && s.handlers[q].group == s.handlers[p].group && s.handlers[q].stage != Removed
  }

  ghost predicate PairOk(s: Server, q: PeerId, p: PeerId)
    requires q in s.handlers && p in s.handlers
  {
    Presence(s, q, p) && Information(s, q, p) && Grounded(s, q, p)
  }

  /** A live receive task owes an update only with the info the room stores. */
  ghost predicate OwedIsStored(s: Server, p: PeerId)
    requires p in s.handlers
  {
    s.handlers[p].stage == Active && p in RoomIn(s.rooms, s.handlers[p].group) ==>
      forall i :: 0 <= i < |s.handlers[p].recv| && s.handlers[p].recv[i].msg.Update? ==>
        s.handlers[p].recv[i].msg.peer.info == s.rooms[s.handlers[p].group][p]
  }

  ghost predicate Inv(s: Server) {
    && RoomsOk(s)
    && (forall p :: p in s.handlers ==> HandlerOk(s, p) && OwedIsStored(s, p))
    && (forall q, p :: Pair(s, q, p) ==> PairOk(s, q, p))
  }

  // ----- what never changes about a connection -----

  /** Connections keep their group, connect-time info and snapshot, and stay removed. */
  ghost predicate Extends(s: Server, s': Server) {
    forall p :: p in s.handlers ==> p in s'.handlers && SameFace(s.handlers[p], s'.handlers[p])
  }

  ghost predicate SameFace(h: Handler, h': Handler) {
    && h.group == h'.group && h.info == h'.info && h.snapshot == h'.snapshot
    && (h.stage == Removed ==> h'.stage == Removed)
  }

  /** What a step does to the set of connections and the limits. */
  ghost predicate Keeps(s: Server, s': Server, e: Event) {
    && s'.maxConnections == s.maxConnections && s'.maxRequests == s.maxRequests
    && Extends(s, s')
    && (forall p :: p in s'.handlers && p !in s.handlers ==>
          e.Connect? && e.peer == p && s'.handlers[p].group == e.group)
  }

  /** The same connections with the same faces. */
  ghost predicate SameFaces(hs: map<PeerId, Handler>, hs': map<PeerId, Handler>) {
    hs.Keys == hs'.Keys && forall p :: p in hs ==> SameFace(hs[p], hs'[p])
  }

  lemma SendKeepsFaces(hs: map<PeerId, Handler>, p: PeerId, h: Handler, send: Send)
    requires p in hs && SameFace(hs[p], h)
    ensures SameFaces(hs, Deliver(hs[p := h], send))
  {
    assert SameFaces(hs, hs[p := h]);
  }

  lemma SendMainKeeps(s: Server, p: PeerId)
    ensures Keeps(s, Next(s, SendMain(p)), SendMain(p))
  {
    if p in s.handlers && s.handlers[p].main != [] {
      var h := s.handlers[p];
      var h' := h.(main := h.main[1..], stage := if h.stage == Greeting && |h.main| == 1 then Active else h.stage);
      SendKeepsFaces(s.handlers, p, h', h.main[0]);
    }
  }

  lemma SendRecvKeeps(s: Server, p: PeerId)
    ensures Keeps(s, Next(s, SendRecv(p)), SendRecv(p))
  {
    if p in s.handlers && s.handlers[p].recv != [] {
      SendKeepsFaces(s.handlers, p, s.handlers[p].(recv := s.handlers[p].recv[1..]), s.handlers[p].recv[0]);
    }
  }

  lemma ClientMessageKeeps(s: Server, p: PeerId, request: Request)
    ensures Keeps(s, Next(s, ClientMessage(p, request)), ClientMessage(p, request))
  {
  }

  lemma RequestKeeps(s: Server, p: PeerId, order: seq<PeerId>)
    ensures Keeps(s, Next(s, HandleRequest(p, order)), HandleRequest(p, order))
  {
  }

  /** A step adds only a connecting peer and changes no connection's face. */
  lemma FacesKept(s: Server, e: Event)
    ensures Keeps(s, Next(s, e), e)
  {
    match e
    case SendMain(p) => SendMainKeeps(s, p);
    case SendRecv(p) => SendRecvKeeps(s, p);
    case ClientMessage(p, request) => ClientMessageKeeps(s, p, request);
    case HandleRequest(p, order) => RequestKeeps(s, p, order);
    case _ =>
  }

  lemma MsgStaysOk(s: Server, s': Server, q: PeerId, m: Msg)
    requires Extends(s, s') && q in s.handlers && MsgOk(s, q, m)
    ensures q in s'.handlers && MsgOk(s', q, m)
  {
    assert SameFace(s.handlers[q], s'.handlers[q]);
    match m
    case Join(c) => assert SameFace(s.handlers[c.id], s'.handlers[c.id]);
    case Update(c) => assert SameFace(s.handlers[c.id], s'.handlers[c.id]);
    case Left(p) => assert SameFace(s.handlers[p], s'.handlers[p]);
    case Relay(_, c, _, _) => assert SameFace(s.handlers[c.id], s'.handlers[c.id]);
    case _ =>
  }

  /** A connection no step touched is as it should be in any later state. */
  lemma UntouchedHandlerOk(s: Server, s': Server, p: PeerId)
    requires Extends(s, s') && p in s.handlers && HandlerOk(s, p)
    requires s'.handlers[p] == s.handlers[p]
    ensures HandlerOk(s', p)
  {
    var h := s.handlers[p];
    forall i | 0 <= i < |h.main| ensures SendOk(s', h.main[i]) { MsgStaysOk(s, s', h.main[i].to, h.main[i].msg); }
    forall i | 0 <= i < |h.recv| ensures SendOk(s', h.recv[i]) { MsgStaysOk(s, s', h.recv[i].to, h.recv[i].msg); }
    forall i | 0 <= i < |h.inbox| ensures MsgOk(s', p, h.inbox[i]) { MsgStaysOk(s, s', p, h.inbox[i]); }
    forall x | x in h.snapshot ensures Known(s', p, x) { assert SameFace(s.handlers[x], s'.handlers[x]); }
  }
}
