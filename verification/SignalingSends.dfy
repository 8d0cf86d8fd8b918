/** Performing an owed send keeps the invariant: what was owed becomes what was told. */
module SignalingSends {
  import opened Common
  import opened Signaling
  import opened SignalingInvariant

  lemma LastUpdateSnoc(inbox: seq<Msg>, m: Msg, p: PeerId)
    ensures LastUpdate(inbox + [m], p) ==
      if m.Update? && m.peer.id == p then Some(m.peer.info) else LastUpdate(inbox, p)
  {
    assert (inbox + [m])[..|inbox + [m]| - 1] == inbox;
  }

  /** How `s'` comes from `s` by one send of `p`: handler `p` forgets it, channel `send.to` gets it. */
  ghost predicate Sent(s: Server, s': Server, p: PeerId, send: Send) {
    && p in s.handlers && send.to in s.handlers
    && s' == s.(handlers := s'.handlers)
    && s'.handlers.Keys == s.handlers.Keys
    && (forall x :: x in s.handlers ==>
          && SameFace(s.handlers[x], s'.handlers[x])
          && s'.handlers[x].request == s.handlers[x].request
          && (s.handlers[x].stage == Removed <==> s'.handlers[x].stage == Removed)
          && (x != p ==> s'.handlers[x].main == s.handlers[x].main && s'.handlers[x].recv == s.handlers[x].recv
                         && s'.handlers[x].stage == s.handlers[x].stage)
          && s'.handlers[x].inbox == s.handlers[x].inbox + if x == send.to then [send.msg] else [])
  }

  /** Such a send fits the state: its message may be told to its target. */
  lemma SentHandler(s: Server, s': Server, p: PeerId, send: Send, x: PeerId)
    requires Sent(s, s', p, send) && SendOk(s, send) && x in s.handlers && HandlerOk(s, x)
    ensures x != p ==> HandlerOk(s', x)
    ensures SnapshotOk(s', x)
    ensures forall i :: 0 <= i < |s'.handlers[x].inbox| ==> MsgOk(s', x, s'.handlers[x].inbox[i])
  {
    var h, h' := s.handlers[x], s'.handlers[x];
    hide MsgOk;
    assert forall i :: 0 <= i < |h.inbox| ==> h'.inbox[i] == h.inbox[i];
    forall i | 0 <= i < |h.main| ensures SendOk(s', h.main[i]) { MsgStaysOk(s, s', h.main[i].to, h.main[i].msg); }
    forall i | 0 <= i < |h.recv| ensures SendOk(s', h.recv[i]) { MsgStaysOk(s, s', h.recv[i].to, h.recv[i].msg); }
    forall i | 0 <= i < |h'.inbox| ensures MsgOk(s', x, h'.inbox[i]) {
      if i < |h.inbox| { MsgStaysOk(s, s', x, h.inbox[i]); } else { MsgStaysOk(s, s', x, send.msg); }
    }
    forall y | y in h.snapshot ensures Known(s', x, y) { assert SameFace(s.handlers[y], s'.handlers[y]); }
  }

  lemma SentRooms(s: Server, s': Server, p: PeerId, send: Send)
    requires Sent(s, s', p, send) && RoomsOk(s)
    ensures RoomsOk(s')
  {
    forall g, x ensures Entry(s', g, x) { assert Entry(s, g, x); }
  }

  // ----- sends of the main task -----

  ghost predicate OwesMain(s: Server, p: PeerId) {
    p in s.handlers && s.handlers[p].main != [] && s.handlers[p].main[0].to in s.handlers
  }

  lemma SendMainIsSent(s: Server, p: PeerId)
    requires OwesMain(s, p)
    ensures Sent(s, SendMainStep(s, p), p, s.handlers[p].main[0])
    ensures SendMainStep(s, p).handlers[p].main == s.handlers[p].main[1..]
    ensures SendMainStep(s, p).handlers[p].recv == s.handlers[p].recv
    ensures SendMainStep(s, p).handlers[p].stage ==
      if s.handlers[p].stage == Greeting && |s.handlers[p].main| == 1 then Active else s.handlers[p].stage
  {
  }

  lemma SendMainSelfMain(s: Server, p: PeerId)
    requires OwesMain(s, p) && MainOk(s, p) && RecvOk(s, p)
    ensures MainOk(SendMainStep(s, p), p) && RecvOk(SendMainStep(s, p), p)
  {
    var s' := SendMainStep(s, p);
    var h, h' := s.handlers[p], s'.handlers[p];
    SendMainIsSent(s, p);
    hide MsgOk, SendMainStep;
    assert Extends(s, s');
    forall i | 0 <= i < |h'.main| ensures SendOk(s', h'.main[i]) {
      assert h'.main[i] == h.main[i + 1];
      MsgStaysOk(s, s', h.main[i + 1].to, h.main[i + 1].msg);
    }
    forall i | 0 <= i < |h.recv| ensures SendOk(s', h.recv[i]) { MsgStaysOk(s, s', h.recv[i].to, h.recv[i].msg); }
  }

  lemma SendMainSelf(s: Server, p: PeerId)
    requires OwesMain(s, p) && HandlerOk(s, p)
    ensures HandlerOk(SendMainStep(s, p), p)
  {
    var s' := SendMainStep(s, p);
    var h, h' := s.handlers[p], s'.handlers[p];
    SendMainSelfMain(s, p);
    SendMainIsSent(s, p);
    SentHandler(s, s', p, h.main[0], p);
    hide MsgOk, SendMainStep, RecvOk, SnapshotOk;
    if h.stage == Greeting && |h.main| == 1 {
      assert h'.inbox[|h'.inbox| - 1] == Hello(Client(p, h.info), h.snapshot);
    } else if h.stage != Greeting {
      assert Hello(Client(p, h.info), h.snapshot) in h.inbox;
    }
  }

  lemma SendMainPresence(s: Server, p: PeerId, q: PeerId, x: PeerId)
    requires OwesMain(s, p) && MainOk(s, p) && Pair(s, q, x) && Presence(s, q, x)
    ensures Presence(SendMainStep(s, p), q, x)
  {
    var s' := SendMainStep(s, p);
    var send := s.handlers[p].main[0];
    SendMainIsSent(s, p);
    assert s.handlers[p].main == [send] + s.handlers[p].main[1..];
    forall m | m == Join(Client(x, s.handlers[x].info)) || m == Left(x)
      ensures ToldMain(s', q, x, m) <==> ToldMain(s, q, x, m)
    {
      if x != p { assert send.msg != m; }
    }
  }

  lemma SendMainInformation(s: Server, p: PeerId, q: PeerId, x: PeerId)
    requires OwesMain(s, p) && MainOk(s, p) && Pair(s, q, x) && Information(s, q, x)
    ensures Information(SendMainStep(s, p), q, x)
  {
    SendMainIsSent(s, p);
    assert !s.handlers[p].main[0].msg.Update?;
    LastUpdateSnoc(s.handlers[q].inbox, s.handlers[p].main[0].msg, x);
  }

  lemma SendMainGrounded(s: Server, p: PeerId, q: PeerId, x: PeerId)
    requires OwesMain(s, p) && MainOk(s, p) && Pair(s, q, x) && Grounded(s, q, x)
    ensures Grounded(SendMainStep(s, p), q, x)
  {
    var s' := SendMainStep(s, p);
    SendMainIsSent(s, p);
    assert !s.handlers[p].main[0].msg.Update?;
    assert s.handlers[p].main == [s.handlers[p].main[0]] + s.handlers[p].main[1..];
    assert ToldUpdate(s', q, x) ==> ToldUpdate(s, q, x);
    var join := Join(Client(x, s.handlers[x].info));
    assert ToldMain(s, q, x, join) ==> ToldMain(s', q, x, join);
  }

  lemma SendMainInv(s: Server, p: PeerId)
    requires Inv(s)
    ensures Inv(SendMainStep(s, p))
  {
    var s' := SendMainStep(s, p);
    if p in s.handlers && s.handlers[p].main != [] {
      var send := s.handlers[p].main[0];
      assert HandlerOk(s, p) && SendOk(s, send);
      SendMainIsSent(s, p);
      SentRooms(s, s', p, send);
      forall x | x in s'.handlers ensures HandlerOk(s', x) && OwedIsStored(s', x) {
        assert HandlerOk(s, x) && OwedIsStored(s, x);
        if x == p { SendMainSelf(s, p); } else { SentHandler(s, s', p, send, x); }
      }
      forall q, x | Pair(s', q, x) ensures PairOk(s', q, x) {
        assert Pair(s, q, x) by {
          assert SameFace(s.handlers[q], s'.handlers[q]) && SameFace(s.handlers[x], s'.handlers[x]);
        }
        assert PairOk(s, q, x);
        SendMainPresence(s, p, q, x);
        SendMainInformation(s, p, q, x);
        SendMainGrounded(s, p, q, x);
      }
    }
  }

  // ----- sends of the receive task -----

  ghost predicate OwesRecv(s: Server, p: PeerId) {
    p in s.handlers && s.handlers[p].recv != [] && s.handlers[p].recv[0].to in s.handlers
  }

  lemma SendRecvIsSent(s: Server, p: PeerId)
    requires OwesRecv(s, p)
    ensures Sent(s, SendRecvStep(s, p), p, s.handlers[p].recv[0])
    ensures SendRecvStep(s, p).handlers[p].main == s.handlers[p].main
    ensures SendRecvStep(s, p).handlers[p].recv == s.handlers[p].recv[1..]
    ensures SendRecvStep(s, p).handlers[p].stage == s.handlers[p].stage
  {
  }

  lemma SendRecvSelf(s: Server, p: PeerId)
    requires OwesRecv(s, p) && HandlerOk(s, p) && OwedIsStored(s, p)
    ensures HandlerOk(SendRecvStep(s, p), p) && OwedIsStored(SendRecvStep(s, p), p)
  {
    var s' := SendRecvStep(s, p);
    var h, h' := s.handlers[p], s'.handlers[p];
    SendRecvIsSent(s, p);
    SentHandler(s, s', p, h.recv[0], p);
    forall i | 0 <= i < |h.main| ensures SendOk(s', h.main[i]) { MsgStaysOk(s, s', h.main[i].to, h.main[i].msg); }
    forall i | 0 <= i < |h'.recv| ensures SendOk(s', h'.recv[i]) && FromRecv(p, h'.recv[i].msg) {
      assert h'.recv[i] == h.recv[i + 1];
      MsgStaysOk(s, s', h.recv[i + 1].to, h.recv[i + 1].msg);
    }
    if h.stage != Greeting { assert Hello(Client(p, h.info), h.snapshot) in h.inbox; }
  }

  lemma SendRecvPresence(s: Server, p: PeerId, q: PeerId, x: PeerId)
    requires OwesRecv(s, p) && RecvOk(s, p) && Pair(s, q, x) && Presence(s, q, x)
    ensures Presence(SendRecvStep(s, p), q, x)
  {
    var s' := SendRecvStep(s, p);
    SendRecvIsSent(s, p);
    assert FromRecv(p, s.handlers[p].recv[0].msg);
    forall m | m == Join(Client(x, s.handlers[x].info)) || m == Left(x)
      ensures ToldMain(s', q, x, m) <==> ToldMain(s, q, x, m)
    {
      assert s.handlers[p].recv[0].msg != m;
    }
  }

  lemma SendRecvInformation(s: Server, p: PeerId, q: PeerId, x: PeerId)
    requires OwesRecv(s, p) && RecvOk(s, p) && OwedIsStored(s, p) && Pair(s, q, x) && Information(s, q, x)
    ensures Information(SendRecvStep(s, p), q, x)
  {
    var send := s.handlers[p].recv[0];
    SendRecvIsSent(s, p);
    assert FromRecv(p, send.msg);
    assert s.handlers[p].recv == [send] + s.handlers[p].recv[1..];
    LastUpdateSnoc(s.handlers[q].inbox, send.msg, x);
  }

  lemma SendRecvGrounded(s: Server, p: PeerId, q: PeerId, x: PeerId)
    requires OwesRecv(s, p) && RecvOk(s, p) && Pair(s, q, x) && Grounded(s, q, x)
    ensures Grounded(SendRecvStep(s, p), q, x)
  {
    var s' := SendRecvStep(s, p);
    var send := s.handlers[p].recv[0];
    SendRecvIsSent(s, p);
    assert FromRecv(p, send.msg);
    assert s.handlers[p].recv == [send] + s.handlers[p].recv[1..];
    if ToldUpdate(s', q, x) {
      assert ToldUpdate(s, q, x) by {
        if send.to == q && send.msg.Update? && send.msg.peer.id == x {
          assert Send(q, send.msg) in s.handlers[x].recv;
        }
      }
    }
  }

  lemma SendRecvInv(s: Server, p: PeerId)
    requires Inv(s)
    ensures Inv(SendRecvStep(s, p))
  {
    var s' := SendRecvStep(s, p);
    if p in s.handlers && s.handlers[p].recv != [] {
      var send := s.handlers[p].recv[0];
      assert HandlerOk(s, p) && OwedIsStored(s, p) && SendOk(s, send);
      SendRecvIsSent(s, p);
      SentRooms(s, s', p, send);
      forall x | x in s'.handlers ensures HandlerOk(s', x) && OwedIsStored(s', x) {
        assert HandlerOk(s, x) && OwedIsStored(s, x);
        if x == p { SendRecvSelf(s, p); } else { SentHandler(s, s', p, send, x); }
      }
      forall q, x | Pair(s', q, x) ensures PairOk(s', q, x) {
        assert Pair(s, q, x) by {
          assert SameFace(s.handlers[q], s'.handlers[q]) && SameFace(s.handlers[x], s'.handlers[x]);
        }
        assert PairOk(s, q, x);
        SendRecvPresence(s, p, q, x);
        SendRecvInformation(s, p, q, x);
        SendRecvGrounded(s, p, q, x);
      }
    }
  }
}
