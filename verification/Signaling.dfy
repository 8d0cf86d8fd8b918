/** The signaling server as a state machine. Every lock section is one step; the senders a
    section captures become sends that are still owed, performed one at a time afterwards, so
    any other step may come between a section and its sends, and between two of them. */
module Signaling {
  import opened Common

  type PeerId = string
  type GroupKey = string

  datatype Info = Info(alias: string, version: string, deviceModel: Option<string>, deviceType: Option<string>,
                       token: string)

  datatype Client = Client(id: PeerId, info: Info)

  datatype SdpKind = OfferSdp | AnswerSdp

  /** What the server sends to a client. The order of `peers` carries no meaning. */
  datatype Msg =
    | Hello(client: Client, peers: map<PeerId, Info>)
    | Join(peer: Client)
    | Update(peer: Client)
    | Left(peerId: PeerId)
    | Relay(kind: SdpKind, origin: Client, sessionId: string, sdp: string)
    | Error(code: nat)

  datatype Send = Send(to: PeerId, msg: Msg)

  /** `Greeting`: inserted, join and hello sends under way. `Active`: both tasks run.
      `Closing`: a task ended, the other is being aborted. `Removed`: out of the room. */
  datatype Stage = Greeting | Active | Closing | Removed

  /** A client message that is to be acted upon. */
  datatype Request = NewInfo(newInfo: Info) | Forward(kind: SdpKind, target: PeerId, sessionId: string, sdp: string)

  /** One connection: its connect-time data, the admitted message its receive task has not yet
      taken to the room, what its two tasks still owe, and everything that was ever put into its
      channel. */
  datatype Handler = Handler(
    group: GroupKey,
    info: Info,
    snapshot: map<PeerId, Info>,
    stage: Stage,
    request: Option<Request>,
    main: seq<Send>,
    recv: seq<Send>,
    inbox: seq<Msg>)

  type Rooms = map<GroupKey, map<PeerId, Info>>
  type Counts = map<GroupKey, nat>

  datatype Server = Server(
    maxConnections: nat,
    maxRequests: nat,
    rooms: Rooms,
    counts: Counts,
    handlers: map<PeerId, Handler>)

  const TOO_MANY_REQUESTS: nat := 429

  // ----- the lock sections -----

  function RoomIn(rooms: Rooms, g: GroupKey): map<PeerId, Info> {
    if g in rooms then rooms[g] else map[]
  }

  function CountIn(counts: Counts, g: GroupKey): nat {
    if g in counts then counts[g] else 0
  }

  /** `protect_ddos_request_count`: whether the request is let through, and the new counters. */
  function Protect(counts: Counts, g: GroupKey, maxRequests: nat): (bool, Counts) {
    if CountIn(counts, g) >= maxRequests then (false, counts[g := CountIn(counts, g)])
    else (true, counts[g := CountIn(counts, g) + 1])
  }

  /** The connect section: the peers found there if the client is let in, and the new maps.
      A refusal still leaves the group's inner map behind. */
  function ConnectSection(rooms: Rooms, counts: Counts, maxConnections: nat, maxRequests: nat,
                          g: GroupKey, p: PeerId, info: Info)
    : (Option<map<PeerId, Info>>, Rooms, Counts)
  {
    var room := RoomIn(rooms, g);
    if |room| >= maxConnections then (None, rooms[g := room], counts)
    else
      var (ok, counts') := Protect(counts, g, maxRequests);
      if !ok then (None, rooms[g := room], counts')
      else (Some(room), rooms[g := room[p := info]], counts')
  }

  /** The update section: the other members to notify, none if the peer is gone. */
  function UpdateSection(rooms: Rooms, g: GroupKey, p: PeerId, info: Info): (set<PeerId>, Rooms) {
    if p in RoomIn(rooms, g) then (rooms[g].Keys - {p}, rooms[g := rooms[g][p := info]]) else ({}, rooms)
  }

  /** The cleanup section: the members left to notify; a group that became empty disappears. */
  function CleanupSection(rooms: Rooms, g: GroupKey, p: PeerId): (set<PeerId>, Rooms) {
    if g !in rooms then ({}, rooms)
    else if rooms[g].Keys - {p} == {} then ({}, rooms - {g})
    else (rooms[g].Keys - {p}, rooms[g := rooms[g] - {p}])
  }

  // ----- events -----

  datatype Event =
    | Connect(peer: PeerId, group: GroupKey, info: Info, order: seq<PeerId>)
    | SendMain(peer: PeerId)
    | SendRecv(peer: PeerId)
    | ClientMessage(peer: PeerId, request: Request)
    | HandleRequest(peer: PeerId, order: seq<PeerId>)
    | TaskEnds(peer: PeerId)
    | AbortRecv(peer: PeerId)
    | Cleanup(peer: PeerId, order: seq<PeerId>)
    | ClearCounts

  /** `order` lists `ids` without repetition: one way a hash map may be iterated. */
  predicate Lists(order: seq<PeerId>, ids: set<PeerId>) {
    && (set x | x in order) == ids
    && |order| == |ids|
  }

  /** `msg` to every peer of the list. */
  function ToAll(order: seq<PeerId>, msg: Msg): (r: seq<Send>)
    ensures |r| == |order|
    ensures forall i :: 0 <= i < |r| ==> r[i] == Send(order[i], msg)
  {
    seq(|order|, i requires 0 <= i < |order| => Send(order[i], msg))
  }

  /** Puts a message into the channel of `send.to`. */
  function Deliver(handlers: map<PeerId, Handler>, send: Send): map<PeerId, Handler> {
    if send.to !in handlers then handlers
    else handlers[send.to := handlers[send.to].(inbox := handlers[send.to].inbox + [send.msg])]
  }

  function ConnectStep(s: Server, p: PeerId, g: GroupKey, info: Info, order: seq<PeerId>): Server {
    var (found, rooms, counts) := ConnectSection(s.rooms, s.counts, s.maxConnections, s.maxRequests, g, p, info);
    if p in s.handlers || !Lists(order, RoomIn(s.rooms, g).Keys) then s
    else if found.None? then s.(rooms := rooms, counts := counts)
    else
      var me := Client(p, info);
      var owed := ToAll(order, Join(me)) + [Send(p, Hello(me, found.value))];
      s.(rooms := rooms, counts := counts,
         handlers := s.handlers[p := Handler(g, info, found.value, Greeting, None, owed, [], [])])
  }

  function SendMainStep(s: Server, p: PeerId): Server {
    if p !in s.handlers || s.handlers[p].main == [] then s
    else
      var h := s.handlers[p];
      var h' := h.(main := h.main[1..], stage := if h.stage == Greeting && |h.main| == 1 then Active else h.stage);
      s.(handlers := Deliver(s.handlers[p := h'], h.main[0]))
  }

  function SendRecvStep(s: Server, p: PeerId): Server {
    if p !in s.handlers || s.handlers[p].recv == [] then s
    else
      var h := s.handlers[p];
      s.(handlers := Deliver(s.handlers[p := h.(recv := h.recv[1..])], h.recv[0]))
  }

  /** The receive task may take the next client message: the greeting is over and its previous
      message is dealt with. An aborted task may still be inside its last poll. */
  predicate TakesMessage(s: Server, p: PeerId) {
    p in s.handlers && s.handlers[p].stage != Greeting && s.handlers[p].recv == [] && s.handlers[p].request.None?
  }

  function RateLimited(s: Server, p: PeerId, counts: Counts): Server
    requires p in s.handlers
  {
    var h := s.handlers[p];
    s.(counts := counts,
       handlers := s.handlers[p := h.(recv := [Send(p, Error(TOO_MANY_REQUESTS))],
                                      stage := if h.stage == Active then Closing else h.stage)])
  }

  /** The counter section of a client message: it is admitted, or answered with an error. */
  function ClientMessageStep(s: Server, p: PeerId, request: Request): Server {
    if !TakesMessage(s, p) then s
    else
      var h := s.handlers[p];
      var (ok, counts) := Protect(s.counts, h.group, s.maxRequests);
      if !ok then RateLimited(s, p, counts)
      else s.(counts := counts, handlers := s.handlers[p := h.(request := Some(request))])
  }

  /** The room section of an admitted message, some time later. */
  function RequestStep(s: Server, p: PeerId, order: seq<PeerId>): Server {
    if p !in s.handlers || s.handlers[p].request.None? then s
    else
      match s.handlers[p].request.value
      case NewInfo(info) => UpdateStep(s, p, info, order)
      case Forward(kind, target, sessionId, sdp) => ForwardStep(s, p, kind, target, sessionId, sdp)
  }

  function UpdateStep(s: Server, p: PeerId, info: Info, order: seq<PeerId>): Server
    requires p in s.handlers
  {
    var h := s.handlers[p];
    var (others, rooms) := UpdateSection(s.rooms, h.group, p, info);
    if !Lists(order, others) then s
    else s.(rooms := rooms,
            handlers := s.handlers[p := h.(recv := ToAll(order, Update(Client(p, info))), request := None)])
  }

  function ForwardStep(s: Server, p: PeerId, kind: SdpKind, target: PeerId, sessionId: string, sdp: string): Server
    requires p in s.handlers
  {
    var h := s.handlers[p];
    var relay := Send(target, Relay(kind, Client(p, h.info), sessionId, sdp));
    var owed := if target in RoomIn(s.rooms, h.group) then [relay] else [];
    s.(handlers := s.handlers[p := h.(recv := owed, request := None)])
  }

  function CleanupStep(s: Server, p: PeerId, order: seq<PeerId>): Server {
    if p !in s.handlers || s.handlers[p].stage != Closing then s
    else
      var h := s.handlers[p];
      var (others, rooms) := CleanupSection(s.rooms, h.group, p);
      if !Lists(order, others) then s
      else s.(rooms := rooms, handlers := s.handlers[p := h.(stage := Removed, main := ToAll(order, Left(p)))])
  }

  /** One step; an event that cannot happen in `s` leaves it as it is. */
  function Next(s: Server, e: Event): Server {
    match e
    case Connect(p, g, info, order) => ConnectStep(s, p, g, info, order)
    case SendMain(p) => SendMainStep(s, p)
    case SendRecv(p) => SendRecvStep(s, p)
    case ClientMessage(p, request) => ClientMessageStep(s, p, request)
    case HandleRequest(p, order) => RequestStep(s, p, order)
    case TaskEnds(p) =>
      if p in s.handlers && s.handlers[p].stage == Active
      then s.(handlers := s.handlers[p := s.handlers[p].(stage := Closing)]) else s
    case AbortRecv(p) =>
      if p in s.handlers && s.handlers[p].stage in {Closing, Removed}
      then s.(handlers := s.handlers[p := s.handlers[p].(recv := [], request := None)]) else s
    case Cleanup(p, order) => CleanupStep(s, p, order)
    case ClearCounts => s.(counts := map[])
  }

  function Start(maxConnections: nat, maxRequests: nat): Server {
    Server(maxConnections, maxRequests, map[], map[], map[])
  }

  function RunTo(s: Server, es: seq<Event>): Server {
    if es == [] then s else Next(RunTo(s, es[..|es| - 1]), es[|es| - 1])
  }
}
