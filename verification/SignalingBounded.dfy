/** The server with channels that hold four messages. A connection's channel is drained only after
    its greeting, so a greeting can wait for ever; here is exactly when. */
module SignalingBounded {
  import opened Common
  import opened Signaling
  import opened SignalingInvariant
  import opened SignalingConnect
  import opened SignalingAccounting
  import opened SignalingGhost
  import opened SignalingStale

  const CAPACITY: nat := 4

  /** `drained` counts the messages the send task of a connection has taken out of its channel. */
  datatype Bounded = Bounded(server: Server, drained: map<PeerId, nat>)

  function Drained(b: Bounded, p: PeerId): nat {
    if p in b.drained then b.drained[p] else 0
  }

  /** A send to `p` has to wait: the channel is full, and its receiving end is still there. */
  predicate Full(b: Bounded, p: PeerId) {
    && p in b.server.handlers && b.server.handlers[p].stage in {Greeting, Active}
    && |b.server.handlers[p].inbox| >= Drained(b, p) + CAPACITY
  }

  datatype BoundedEvent = Does(event: Event) | Drains(peer: PeerId)

  /** The event is a send that has to wait. */
  predicate Waits(b: Bounded, e: Event) {
    match e
    case SendMain(p) =>
      p in b.server.handlers && b.server.handlers[p].main != [] && Full(b, b.server.handlers[p].main[0].to)
    case SendRecv(p) =>
      p in b.server.handlers && b.server.handlers[p].recv != [] && Full(b, b.server.handlers[p].recv[0].to)
    case _ => false
  }

  function BoundedNext(b: Bounded, e: BoundedEvent): Bounded {
    match e
    case Does(event) => if Waits(b, event) then b else b.(server := Next(b.server, event))
    case Drains(p) =>
      if p in b.server.handlers && b.server.handlers[p].stage == Active && Drained(b, p) < |b.server.handlers[p].inbox|
      then b.(drained := b.drained[p := Drained(b, p) + 1]) else b
  }

  function BoundedStart(maxConnections: nat, maxRequests: nat): Bounded {
    Bounded(Start(maxConnections, maxRequests), map[])
  }

  function BoundedRunTo(b: Bounded, es: seq<BoundedEvent>): Bounded {
    if es == [] then b else BoundedNext(BoundedRunTo(b, es[..|es| - 1]), es[|es| - 1])
  }

  /** Waiting and draining change nothing the unbounded server knows of, so every run with
      bounded channels is one of its runs, and all that holds of those holds here. */
  lemma {:induction false} BoundedRunsAreRuns(maxConnections: nat, maxRequests: nat, bes: seq<BoundedEvent>)
      returns (es: seq<Event>)
    ensures BoundedRunTo(BoundedStart(maxConnections, maxRequests), bes).server
      == RunTo(Start(maxConnections, maxRequests), es)
  {
    if bes == [] {
      es := [];
    } else {
      es := BoundedRunsAreRuns(maxConnections, maxRequests, bes[..|bes| - 1]);
      var b, e := BoundedRunTo(BoundedStart(maxConnections, maxRequests), bes[..|bes| - 1]), bes[|bes| - 1];
      if e.Does? && !Waits(b, e.event) {
        RunToThen(Start(maxConnections, maxRequests), es, e.event);
        es := es + [e.event];
      }
    }
  }

  // ----- a channel never holds more than it can -----

  /** No channel is over its capacity while anyone can wait for it, and none is drained before
      the greeting is over. */
  ghost predicate Within(b: Bounded, p: PeerId) {
    p in b.server.handlers ==>
      && Drained(b, p) <= |b.server.handlers[p].inbox|
      && (b.server.handlers[p].stage == Greeting ==> Drained(b, p) == 0)
      && (b.server.handlers[p].stage in {Greeting, Active} ==> |b.server.handlers[p].inbox| <= Drained(b, p) + CAPACITY)
  }

  ghost predicate WithinCapacity(b: Bounded) {
    && (forall p :: Within(b, p))
    && (forall p :: p in b.drained ==> p in b.server.handlers)
  }

  /** What an event does to a connection: it may put one message into its channel, and only a
      send to it does; the stage never goes back. */
  ghost predicate Grows(s: Server, e: Event, p: PeerId)
    requires p in s.handlers
  {
    var s' := Next(s, e);
    && p in s'.handlers
    && (s'.handlers[p].stage == Greeting ==> s.handlers[p].stage == Greeting)
    && (s'.handlers[p].stage in {Greeting, Active} ==> s.handlers[p].stage in {Greeting, Active})
    && (s'.handlers[p].inbox == s.handlers[p].inbox
        || (|s'.handlers[p].inbox| == |s.handlers[p].inbox| + 1 && SendsTo(s, e, p)
            && s'.handlers[p].inbox[..|s.handlers[p].inbox|] == s.handlers[p].inbox))
  }

  predicate SendsTo(s: Server, e: Event, p: PeerId) {
    match e
    case SendMain(x) => x in s.handlers && s.handlers[x].main != [] && s.handlers[x].main[0].to == p
    case SendRecv(x) => x in s.handlers && s.handlers[x].recv != [] && s.handlers[x].recv[0].to == p
    case _ => false
  }

  lemma SendsGrow(s: Server, x: PeerId, p: PeerId)
    requires p in s.handlers
    ensures Grows(s, SendMain(x), p) && Grows(s, SendRecv(x), p)
  {
  }

  lemma SectionsGrow(s: Server, x: PeerId, g: GroupKey, info: Info, order: seq<PeerId>, p: PeerId)
    requires p in s.handlers
    ensures Grows(s, Connect(x, g, info, order), p) && Grows(s, Cleanup(x, order), p)
  {
    hide Protect, ToAll, Lists;
  }

  lemma MessagesGrow(s: Server, x: PeerId, request: Request, order: seq<PeerId>, p: PeerId)
    requires p in s.handlers
    ensures Grows(s, ClientMessage(x, request), p) && Grows(s, HandleRequest(x, order), p)
  {
    hide Protect, ToAll, Lists, UpdateSection;
  }

  lemma EndingsGrow(s: Server, x: PeerId, p: PeerId)
    requires p in s.handlers
    ensures Grows(s, TaskEnds(x), p) && Grows(s, AbortRecv(x), p) && Grows(s, ClearCounts, p)
  {
  }

  lemma EventGrows(s: Server, e: Event, p: PeerId)
    requires p in s.handlers
    ensures Grows(s, e, p)
  {
    hide Next, Grows;
    match e
    case Connect(x, g, info, order) => SectionsGrow(s, x, g, info, order, p);
    case SendMain(x) => SendsGrow(s, x, p);
    case SendRecv(x) => SendsGrow(s, x, p);
    case ClientMessage(x, request) => MessagesGrow(s, x, request, [], p);
    case HandleRequest(x, order) => MessagesGrow(s, x, NewInfo(Info("", "", None, None, "")), order, p);
    case TaskEnds(x) => EndingsGrow(s, x, p);
    case AbortRecv(x) => EndingsGrow(s, x, p);
    case Cleanup(x, order) => SectionsGrow(s, x, "", Info("", "", None, None, ""), order, p);
    case ClearCounts => EndingsGrow(s, "", p);
  }

  /** A new connection has an empty channel. */
  lemma NewChannel(s: Server, e: Event, p: PeerId)
    requires p !in s.handlers && p in Next(s, e).handlers
    ensures Next(s, e).handlers[p].inbox == []
  {
    FacesKept(s, e);
  }

  lemma WithinStep(b: Bounded, e: BoundedEvent, p: PeerId)
    requires WithinCapacity(b)
    ensures Within(BoundedNext(b, e), p)
  {
    hide Next;
    assert Within(b, p);
    if e.Does? && !Waits(b, e.event) && p in Next(b.server, e.event).handlers {
      if p in b.server.handlers {
        EventGrows(b.server, e.event, p);
        if SendsTo(b.server, e.event, p) { assert !Full(b, p); }
      } else {
        NewChannel(b.server, e.event, p);
      }
    }
  }

  lemma WithinCapacityStep(b: Bounded, e: BoundedEvent)
    requires WithinCapacity(b)
    ensures WithinCapacity(BoundedNext(b, e))
  {
    forall p ensures Within(BoundedNext(b, e), p) { WithinStep(b, e, p); }
    if e.Does? { FacesKept(b.server, e.event); }
  }

  lemma {:induction false} AlwaysWithinCapacity(maxConnections: nat, maxRequests: nat, es: seq<BoundedEvent>)
    ensures WithinCapacity(BoundedRunTo(BoundedStart(maxConnections, maxRequests), es))
  {
    if es != [] {
      AlwaysWithinCapacity(maxConnections, maxRequests, es[..|es| - 1]);
      WithinCapacityStep(BoundedRunTo(BoundedStart(maxConnections, maxRequests), es[..|es| - 1]), es[|es| - 1]);
    }
  }

  // ----- greetings that wait for ever -----

  /** `p` is greeting and its own channel is full: its hello does not fit any more. */
  predicate Stuck(b: Bounded, p: PeerId) {
    p in b.server.handlers && b.server.handlers[p].stage == Greeting && |b.server.handlers[p].inbox| >= CAPACITY
  }

  /** The last send of a greeting, the hello, is what ends it. */
  ghost predicate Greets(s: Server, p: PeerId) {
    p in s.handlers && s.handlers[p].stage == Greeting ==>
      s.handlers[p].main != [] && s.handlers[p].main[|s.handlers[p].main| - 1].to == p
  }

  lemma InvGreets(s: Server, p: PeerId)
    requires Inv(s)
    ensures Greets(s, p)
  {
    if p in s.handlers { assert HandlerOk(s, p); }
  }

  lemma StuckIsFull(b: Bounded, p: PeerId)
    requires Stuck(b, p) && Within(b, p)
    ensures Full(b, p)
  {
  }

  /** An event other than the last send of its greeting leaves a connection greeting. */
  lemma GreetingGoesOn(s: Server, e: Event, p: PeerId)
    requires p in s.handlers && s.handlers[p].stage == Greeting
    requires !(e == SendMain(p) && |s.handlers[p].main| == 1)
    ensures p in Next(s, e).handlers && Next(s, e).handlers[p].stage == Greeting
  {
    hide Protect, ToAll, Lists, UpdateSection;
  }

  lemma StuckStep(b: Bounded, e: BoundedEvent, p: PeerId)
    requires Stuck(b, p) && Within(b, p) && Inv(b.server)
    ensures Stuck(BoundedNext(b, e), p)
  {
    InvGreets(b.server, p);
    StuckIsFull(b, p);
    hide Inv, Next;
    if e.Does? && !Waits(b, e.event) {
      GreetingGoesOn(b.server, e.event, p);
      EventGrows(b.server, e.event, p);
    }
  }

  lemma BoundedInv(maxConnections: nat, maxRequests: nat, es: seq<BoundedEvent>)
    ensures Inv(BoundedRunTo(BoundedStart(maxConnections, maxRequests), es).server)
  {
    var run := BoundedRunsAreRuns(maxConnections, maxRequests, es);
    InvAlways(maxConnections, maxRequests, run);
  }

  lemma BoundedRunToThen(b: Bounded, es: seq<BoundedEvent>, e: BoundedEvent)
    ensures BoundedRunTo(b, es + [e]) == BoundedNext(BoundedRunTo(b, es), e)
  {
    assert (es + [e])[..|es + [e]| - 1] == es;
  }

  lemma StuckOnce(maxConnections: nat, maxRequests: nat, es: seq<BoundedEvent>, e: BoundedEvent, p: PeerId)
    requires Stuck(BoundedRunTo(BoundedStart(maxConnections, maxRequests), es), p)
    ensures Stuck(BoundedRunTo(BoundedStart(maxConnections, maxRequests), es + [e]), p)
  {
    AlwaysWithinCapacity(maxConnections, maxRequests, es);
    BoundedInv(maxConnections, maxRequests, es);
    BoundedRunToThen(BoundedStart(maxConnections, maxRequests), es, e);
    hide BoundedRunTo, BoundedStart, Within, Stuck, Inv;
    var b := BoundedRunTo(BoundedStart(maxConnections, maxRequests), es);
    assert Within(b, p);
    StuckStep(b, e, p);
  }

  lemma {:induction false} StuckForever(maxConnections: nat, maxRequests: nat, es: seq<BoundedEvent>,
                                        more: seq<BoundedEvent>, p: PeerId)
    requires Stuck(BoundedRunTo(BoundedStart(maxConnections, maxRequests), es), p)
    ensures Stuck(BoundedRunTo(BoundedStart(maxConnections, maxRequests), es + more), p)
    decreases |more|
  {
    hide *;
    if more == [] {
      assert es + [] == es;
    } else {
      var before, e := more[..|more| - 1], more[|more| - 1];
      StuckForever(maxConnections, maxRequests, es, before, p);
      StuckOnce(maxConnections, maxRequests, es + before, e, p);
      assert es + more == es + before + [e];
    }
  }

  /** Only the hello is left to send. */
  predicate HelloLeft(s: Server, p: PeerId) {
    p in s.handlers && s.handlers[p].stage == Greeting && |s.handlers[p].main| == 1
  }

  lemma HelloGoesOut(b: Bounded, p: PeerId)
    requires HelloLeft(b.server, p) && Greets(b.server, p) && Within(b, p) && !Stuck(b, p)
    ensures BoundedNext(b, Does(SendMain(p))).server.handlers[p].stage == Active
  {
  }

  /** Main result: a connection that has announced itself to all others and has only its hello
      left to send waits for ever, whatever happens, if and only if four messages are in its
      channel already; with fewer the hello can be sent at once. */
  lemma GreetingWaitsForeverIff(maxConnections: nat, maxRequests: nat, es: seq<BoundedEvent>, p: PeerId)
    requires HelloLeft(BoundedRunTo(BoundedStart(maxConnections, maxRequests), es).server, p)
    ensures var b0 := BoundedStart(maxConnections, maxRequests);
      |BoundedRunTo(b0, es).server.handlers[p].inbox| >= 4 <==>
      forall more :: StillGreeting(BoundedRunTo(b0, es + more), p)
  {
    var b0 := BoundedStart(maxConnections, maxRequests);
    var b := BoundedRunTo(b0, es);
    if Stuck(b, p) {
      forall more
        ensures StillGreeting(BoundedRunTo(b0, es + more), p)
      {
        StuckForever(maxConnections, maxRequests, es, more, p);
      }
    } else {
      AlwaysWithinCapacity(maxConnections, maxRequests, es);
      BoundedInv(maxConnections, maxRequests, es);
      InvGreets(b.server, p);
      assert Within(b, p);
      HelloGoesOut(b, p);
      BoundedRunToThen(b0, es, Does(SendMain(p)));
      assert !StillGreeting(BoundedRunTo(b0, es + [Does(SendMain(p))]), p);
    }
  }

  ghost predicate StillGreeting(b: Bounded, p: PeerId) {
    p in b.server.handlers && b.server.handlers[p].stage == Greeting
  }

  /** A connection that is stuck stays listed in its room for ever, and whoever has to send it a
      message next waits for ever, too. */
  lemma StuckStaysListed(maxConnections: nat, maxRequests: nat, es: seq<BoundedEvent>, more: seq<BoundedEvent>,
                         p: PeerId, x: PeerId)
    requires Stuck(BoundedRunTo(BoundedStart(maxConnections, maxRequests), es), p)
    ensures var b := BoundedRunTo(BoundedStart(maxConnections, maxRequests), es + more);
      && p in b.server.handlers && p in RoomIn(b.server.rooms, b.server.handlers[p].group)
      && (x in b.server.handlers && b.server.handlers[x].main != [] && b.server.handlers[x].main[0].to == p ==>
          Waits(b, SendMain(x)))
      && (x in b.server.handlers && b.server.handlers[x].recv != [] && b.server.handlers[x].recv[0].to == p ==>
          Waits(b, SendRecv(x)))
  {
    var b := BoundedRunTo(BoundedStart(maxConnections, maxRequests), es + more);
    StuckForever(maxConnections, maxRequests, es, more, p);
    AlwaysWithinCapacity(maxConnections, maxRequests, es + more);
    BoundedInv(maxConnections, maxRequests, es + more);
    assert Within(b, p);
    StuckIsFull(b, p);
    assert Entry(b.server, b.server.handlers[p].group, p);
  }
}
