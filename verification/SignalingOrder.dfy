/** The order in a channel: whoever joins is announced before any of its updates. */
module SignalingOrder {
  import opened Common
  import opened Signaling
  import opened SignalingInvariant
  import opened SignalingSends
  import opened SignalingSections
  import opened SignalingConnect

  /** No update of `p` has been put into this channel. */
  ghost predicate NoUpdateOf(inbox: seq<Msg>, p: PeerId) {
    forall i :: 0 <= i < |inbox| && inbox[i].Update? ==> inbox[i].peer.id != p
  }

  ghost predicate JoinsFirst(inbox: seq<Msg>) {
    forall i, j :: 0 <= i < j < |inbox| && inbox[i].Update? && inbox[j].Join? ==> inbox[i].peer.id != inbox[j].peer.id
  }

  /** While `p` is greeting, nobody has an update of it. */
  ghost predicate Unupdated(s: Server, p: PeerId, q: PeerId) {
    p in s.handlers && q in s.handlers && s.handlers[p].stage == Greeting ==> NoUpdateOf(s.handlers[q].inbox, p)
  }

  ghost predicate Ordered(s: Server) {
    && (forall q :: q in s.handlers ==> JoinsFirst(s.handlers[q].inbox))
    && (forall p, q :: Unupdated(s, p, q))
  }

  lemma JoinsFirstSnoc(inbox: seq<Msg>, m: Msg)
    requires JoinsFirst(inbox) && (m.Join? ==> NoUpdateOf(inbox, m.peer.id))
    ensures JoinsFirst(inbox + [m])
  {
  }

  lemma SentUnupdated(s: Server, s': Server, p: PeerId, send: Send, x: PeerId, q: PeerId)
    requires Sent(s, s', p, send) && Unupdated(s, x, q)
    requires x in s.handlers && s'.handlers[x].stage == Greeting ==> s.handlers[x].stage == Greeting
    requires send.msg.Update? ==> send.msg.peer.id in s.handlers && s.handlers[send.msg.peer.id].stage != Greeting
    ensures Unupdated(s', x, q)
  {
  }

  lemma MainHead(s: Server, p: PeerId)
    requires p in s.handlers && s.handlers[p].main != [] && HandlerOk(s, p)
    ensures var send := s.handlers[p].main[0];
      SendOk(s, send) && !send.msg.Update?
          && (send.msg.Join? ==> send.msg.peer.id == p && s.handlers[p].stage == Greeting)
  {
  }

  /** A send keeps the order if a join is sent only while its peer is greeting, and an update
      only afterwards. */
  lemma SentOrdered(s: Server, s': Server, p: PeerId, send: Send)
    requires Ordered(s) && Sent(s, s', p, send)
      && (s'.handlers[p].stage == Greeting ==> s.handlers[p].stage == Greeting)
    requires send.msg.Join? ==> send.msg.peer.id in s.handlers && s.handlers[send.msg.peer.id].stage == Greeting
    requires send.msg.Update? ==> send.msg.peer.id in s.handlers && s.handlers[send.msg.peer.id].stage != Greeting
    ensures Ordered(s')
  {
    forall q | q in s'.handlers ensures JoinsFirst(s'.handlers[q].inbox) {
      if q == send.to {
        if send.msg.Join? { assert Unupdated(s, send.msg.peer.id, q); }
        JoinsFirstSnoc(s.handlers[q].inbox, send.msg);
      } else {
        assert s.handlers[q].inbox + [] == s.handlers[q].inbox;
      }
    }
    hide JoinsFirst, NoUpdateOf;
    forall x, q ensures Unupdated(s', x, q) {
      assert Unupdated(s, x, q);
      SentUnupdated(s, s', p, send, x, q);
    }
  }

  lemma SendMainOrdered(s: Server, p: PeerId)
    requires Inv(s) && Ordered(s)
    ensures Ordered(SendMainStep(s, p))
  {
    if p in s.handlers && s.handlers[p].main != [] {
      assert HandlerOk(s, p);
      MainHead(s, p);
      SendMainIsSent(s, p);
      hide HandlerOk, Ordered;
      SentOrdered(s, SendMainStep(s, p), p, s.handlers[p].main[0]);
    }
  }

  lemma SendRecvOrdered(s: Server, p: PeerId)
    requires Inv(s) && Ordered(s)
    ensures Ordered(SendRecvStep(s, p))
  {
    if p in s.handlers && s.handlers[p].recv != [] {
      assert HandlerOk(s, p) && SendOk(s, s.handlers[p].recv[0]) && FromRecv(p, s.handlers[p].recv[0].msg);
      SendRecvIsSent(s, p);
      hide HandlerOk, Ordered;
      SentOrdered(s, SendRecvStep(s, p), p, s.handlers[p].recv[0]);
    }
  }

  /** A step that delivers nothing: old connections keep their channels and do not return to
      greeting, a new one has an empty channel. */
  ghost predicate DeliversNothing(s: Server, s': Server) {
    && (forall x :: x in s.handlers ==>
          && x in s'.handlers
          && s'.handlers[x].inbox == s.handlers[x].inbox
          && (s'.handlers[x].stage == Greeting ==> s.handlers[x].stage == Greeting))
    && (forall x :: x in s'.handlers && x !in s.handlers ==> s'.handlers[x].inbox == [])
  }

  lemma SameHandlers(s: Server, s': Server)
    requires s'.handlers == s.handlers
    ensures DeliversNothing(s, s')
  {
  }

  /** Only connection `p` changes, and not its channel. */
  lemma ReworkedDeliversNothing(s: Server, s': Server, p: PeerId, h: Handler)
    requires s'.handlers == s.handlers[p := h]
    requires p in s.handlers ==> h.inbox == s.handlers[p].inbox
    requires p in s.handlers && h.stage == Greeting ==> s.handlers[p].stage == Greeting
    requires p !in s.handlers ==> h.inbox == []
    ensures DeliversNothing(s, s')
  {
  }

  lemma NoDeliveryOrdered(s: Server, s': Server)
    requires Inv(s) && Ordered(s) && DeliversNothing(s, s')
    ensures Ordered(s')
  {
    forall x, q ensures Unupdated(s', x, q) {
      assert Unupdated(s, x, q);
      if x !in s.handlers && q in s.handlers {
        assert HandlerOk(s, q);
        forall i | 0 <= i < |s.handlers[q].inbox| && s.handlers[q].inbox[i].Update?
          ensures s.handlers[q].inbox[i].peer.id != x
        {
          assert MsgOk(s, q, s.handlers[q].inbox[i]);
        }
      }
    }
  }

  lemma ConnectDeliversNothing(s: Server, p: PeerId, g: GroupKey, info: Info, order: seq<PeerId>)
    ensures DeliversNothing(s, Next(s, Connect(p, g, info, order)))
  {
  }

  lemma CleanupDeliversNothing(s: Server, p: PeerId, order: seq<PeerId>)
    ensures DeliversNothing(s, Next(s, Cleanup(p, order)))
  {
  }

  lemma MessageDeliversNothing(s: Server, p: PeerId, request: Request)
    ensures DeliversNothing(s, Next(s, ClientMessage(p, request)))
  {
    var s' := Next(s, ClientMessage(p, request));
    hide DeliversNothing, Protect;
    SameHandlers(s, s);
    if TakesMessage(s, p) { ReworkedDeliversNothing(s, s', p, s'.handlers[p]); }
  }

  lemma EndingsDeliverNothing(s: Server, p: PeerId)
    ensures DeliversNothing(s, Next(s, TaskEnds(p))) && DeliversNothing(s, Next(s, AbortRecv(p)))
    ensures DeliversNothing(s, Next(s, ClearCounts))
  {
    hide DeliversNothing;
    assert DeliversNothing(s, s) && DeliversNothing(s, s.(counts := map[])) by {
      SameHandlers(s, s);
      SameHandlers(s, s.(counts := map[]));
    }
    if p in s.handlers {
      var h := s.handlers[p];
      if h.stage == Active { ReworkedDeliversNothing(s, Next(s, TaskEnds(p)), p, h.(stage := Closing)); }
      if h.stage in {Closing, Removed} {
        ReworkedDeliversNothing(s, Next(s, AbortRecv(p)), p, h.(recv := [], request := None));
      }
    }
  }

  lemma RequestDeliversNothing(s: Server, p: PeerId, order: seq<PeerId>)
    ensures DeliversNothing(s, Next(s, HandleRequest(p, order)))
  {
    var s' := Next(s, HandleRequest(p, order));
    hide DeliversNothing, UpdateSection, Lists, ToAll;
    SameHandlers(s, s);
    if p in s.handlers && s' != s { ReworkedDeliversNothing(s, s', p, s'.handlers[p]); }
  }

  lemma NextOrdered(s: Server, e: Event)
    requires Inv(s) && Ordered(s)
    ensures Ordered(Next(s, e))
  {
    match e {
      case SendMain(p) => SendMainOrdered(s, p);
      case SendRecv(p) => SendRecvOrdered(s, p);
      case Connect(p, g, info, order) => ConnectDeliversNothing(s, p, g, info, order);
      case ClientMessage(p, request) => MessageDeliversNothing(s, p, request);
      case HandleRequest(p, order) => RequestDeliversNothing(s, p, order);
      case Cleanup(p, order) => CleanupDeliversNothing(s, p, order);
      case TaskEnds(p) => EndingsDeliverNothing(s, p);
      case AbortRecv(p) => EndingsDeliverNothing(s, p);
      case ClearCounts => EndingsDeliverNothing(s, "");
    }
    if !e.SendMain? && !e.SendRecv? {
      hide Next, Inv, Ordered, DeliversNothing;
      NoDeliveryOrdered(s, Next(s, e));
    }
  }

  /** In every channel of every run, a connection's join comes before all of its updates. */
  lemma {:induction false} OrderedAlways(maxConnections: nat, maxRequests: nat, es: seq<Event>)
    ensures Ordered(RunTo(Start(maxConnections, maxRequests), es))
  {
    if es != [] {
      InvAlways(maxConnections, maxRequests, es[..|es| - 1]);
      OrderedAlways(maxConnections, maxRequests, es[..|es| - 1]);
      NextOrdered(RunTo(Start(maxConnections, maxRequests), es[..|es| - 1]), es[|es| - 1]);
    }
  }
}
