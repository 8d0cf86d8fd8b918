/** Room limits, request counters and the relay, over whole runs. */
module SignalingAccounting {
  import opened Common
  import opened Signaling
  import opened SignalingInvariant
  import opened SignalingSections
  import opened SignalingConnect

  /** The event is a connect into `g` that is let in, or a client message in `g` that passes the limit. */
  ghost predicate Admits(s: Server, e: Event, g: GroupKey) {
    && CountIn(s.counts, g) < s.maxRequests
    && match e
       case Connect(p, group, _, order) => group == g && ConnectReady(s, p, g, order)
       case ClientMessage(p, _) => TakesMessage(s, p) && s.handlers[p].group == g
       case _ => false
  }

  /** The requests of group `g` admitted since the counters were last cleared. */
  ghost function AdmittedSinceClear(s: Server, es: seq<Event>, g: GroupKey): nat {
    if es == [] || es[|es| - 1].ClearCounts? then 0
    else
      var before := AdmittedSinceClear(s, es[..|es| - 1], g);
      if Admits(RunTo(s, es[..|es| - 1]), es[|es| - 1], g) then before + 1 else before
  }

  lemma CountStep(s: Server, e: Event, g: GroupKey)
    requires !e.ClearCounts?
    ensures CountIn(Next(s, e).counts, g) == CountIn(s.counts, g) + if Admits(s, e, g) then 1 else 0
  {
    match e
    case Connect(p, group, info, order) => ConnectCount(s, p, group, info, order, g);
    case ClientMessage(p, _) =>
    case HandleRequest(p, order) =>
    case _ =>
  }

  lemma ConnectCount(s: Server, p: PeerId, group: GroupKey, info: Info, order: seq<PeerId>, g: GroupKey)
    ensures CountIn(ConnectStep(s, p, group, info, order).counts, g)
      == CountIn(s.counts, g) + if Admits(s, Connect(p, group, info, order), g) then 1 else 0
  {
  }

  /** Main result: the counter of a group is the number of its admitted connects and messages
      since the last hourly clear, and never exceeds the limit. */
  lemma {:induction false} CounterIsExact(maxConnections: nat, maxRequests: nat, es: seq<Event>, g: GroupKey)
    ensures var s := RunTo(Start(maxConnections, maxRequests), es);
      && CountIn(s.counts, g) == AdmittedSinceClear(Start(maxConnections, maxRequests), es, g)
      && CountIn(s.counts, g) <= maxRequests
  {
    InvAlways(maxConnections, maxRequests, es);
    LimitsStay(maxConnections, maxRequests, es);
    if es != [] {
      CounterIsExact(maxConnections, maxRequests, es[..|es| - 1], g);
      if !es[|es| - 1].ClearCounts? {
        CountStep(RunTo(Start(maxConnections, maxRequests), es[..|es| - 1]), es[|es| - 1], g);
      }
    }
  }

  lemma {:induction false} LimitsStay(maxConnections: nat, maxRequests: nat, es: seq<Event>)
    ensures var s := RunTo(Start(maxConnections, maxRequests), es);
      s.maxConnections == maxConnections && s.maxRequests == maxRequests
  {
    if es != [] {
      LimitsStay(maxConnections, maxRequests, es[..|es| - 1]);
      FacesKept(RunTo(Start(maxConnections, maxRequests), es[..|es| - 1]), es[|es| - 1]);
    }
  }

  /** Main result: a room lists exactly the connections of its group between insertion and
      cleanup, and never more of them than the limit. */
  lemma RoomIsExact(maxConnections: nat, maxRequests: nat, es: seq<Event>, g: GroupKey)
    ensures var s := RunTo(Start(maxConnections, maxRequests), es);
      && RoomIn(s.rooms, g).Keys ==
         (set p | p in s.handlers && s.handlers[p].group == g && s.handlers[p].stage != Removed)
      && |RoomIn(s.rooms, g)| <= maxConnections
  {
    var s := RunTo(Start(maxConnections, maxRequests), es);
    InvAlways(maxConnections, maxRequests, es);
    LimitsStay(maxConnections, maxRequests, es);
    forall p
      ensures p in RoomIn(s.rooms, g) <==> p in s.handlers && s.handlers[p].group == g && s.handlers[p].stage != Removed
    {
      assert Entry(s, g, p);
    }
  }

  /** A fresh client is let into a room if and only if neither limit is reached. */
  lemma LetInIff(s: Server, p: PeerId, g: GroupKey, info: Info, order: seq<PeerId>)
    requires p !in s.handlers && Lists(order, RoomIn(s.rooms, g).Keys)
    ensures p in Next(s, Connect(p, g, info, order)).handlers
      <==> |RoomIn(s.rooms, g)| < s.maxConnections && CountIn(s.counts, g) < s.maxRequests
    ensures p !in Next(s, Connect(p, g, info, order)).handlers ==>
      forall g2 :: RoomIn(Next(s, Connect(p, g, info, order)).rooms, g2) == RoomIn(s.rooms, g2)
  {
  }

  /** Main result: every offer or answer in a channel comes from a connection of the same group
      and carries that connection's connect-time info, whatever it updated since. */
  lemma RelayStaysInGroup(maxConnections: nat, maxRequests: nat, es: seq<Event>, q: PeerId, m: Msg)
    requires var s := RunTo(Start(maxConnections, maxRequests), es);
      q in s.handlers && m in s.handlers[q].inbox && m.Relay?
    ensures var s := RunTo(Start(maxConnections, maxRequests), es);
      && m.origin.id in s.handlers
      && s.handlers[m.origin.id].group == s.handlers[q].group
      && m.origin.info == s.handlers[m.origin.id].info
  {
    var s := RunTo(Start(maxConnections, maxRequests), es);
    InvAlways(maxConnections, maxRequests, es);
    assert HandlerOk(s, q);
    var i :| 0 <= i < |s.handlers[q].inbox| && s.handlers[q].inbox[i] == m;
    assert MsgOk(s, q, s.handlers[q].inbox[i]);
  }
}
