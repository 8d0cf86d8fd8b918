/** The lock sections and the ends of tasks keep the invariant: each changes the room for one
    connection and owes exactly the messages that tell the others. */
module SignalingSections {
  import opened Common
  import opened Signaling
  import opened SignalingInvariant

  // ----- steps that touch one connection -----

  /** Both say the same about `x` in group `g`. */
  ghost predicate SameEntry(rooms: Rooms, rooms': Rooms, g: GroupKey, x: PeerId) {
    && (x in RoomIn(rooms, g) <==> x in RoomIn(rooms', g))
    && (x in RoomIn(rooms, g) ==> RoomIn(rooms, g)[x] == RoomIn(rooms', g)[x])
  }

  /** Outside connection `p` the rooms agree. */
  ghost predicate RoomsAgree(rooms: Rooms, rooms': Rooms, p: PeerId) {
    forall g, x :: x != p ==> SameEntry(rooms, rooms', g, x)
  }

  /** The step changed only what `p` owes, its stage and its entry in the room. */
  ghost predicate Local(s: Server, s': Server, p: PeerId) {
    && p in s.handlers && p in s'.handlers
    && s'.handlers == s.handlers[p := s'.handlers[p]]
    && SameFace(s.handlers[p], s'.handlers[p])
    && s'.handlers[p].inbox == s.handlers[p].inbox
    && RoomsAgree(s.rooms, s'.rooms, p)
  }

  lemma LocalExtends(s: Server, s': Server, p: PeerId)
    requires Local(s, s', p)
    ensures Extends(s, s')
  {
  }

  lemma LocalHandler(s: Server, s': Server, p: PeerId, x: PeerId)
    requires Local(s, s', p) && x in s.handlers && x != p && HandlerOk(s, x) && OwedIsStored(s, x)
    ensures HandlerOk(s', x) && OwedIsStored(s', x)
  {
    LocalExtends(s, s', p);
    UntouchedHandlerOk(s, s', x);
    assert SameEntry(s.rooms, s'.rooms, s.handlers[x].group, x);
  }

  lemma LocalInbox(s: Server, s': Server, p: PeerId)
    requires Local(s, s', p) && HandlerOk(s, p)
    requires s.handlers[p].stage == Greeting ==> s'.handlers[p].stage == Greeting
    ensures InboxOk(s', p) && SnapshotOk(s', p)
  {
    LocalExtends(s, s', p);
    var h := s.handlers[p];
    forall i | 0 <= i < |h.inbox| ensures MsgOk(s', p, h.inbox[i]) { MsgStaysOk(s, s', p, h.inbox[i]); }
    forall x | x in h.snapshot ensures Known(s', p, x) { assert SameFace(s.handlers[x], s'.handlers[x]); }
  }

  lemma LocalPair(s: Server, s': Server, p: PeerId, q: PeerId, x: PeerId)
    requires Local(s, s', p) && Pair(s, q, x) && x != p && PairOk(s, q, x)
    ensures PairOk(s', q, x)
  {
    assert s'.handlers[x] == s.handlers[x];
    assert SameEntry(s.rooms, s'.rooms, s.handlers[x].group, x);
    forall m: Msg ensures ToldMain(s', q, x, m) <==> ToldMain(s, q, x, m) {}
  }

  /** What is left to show for a local step. */
  lemma LocalInv(s: Server, s': Server, p: PeerId)
    requires Inv(s) && Local(s, s', p) && RoomsOk(s')
    requires HandlerOk(s', p) && OwedIsStored(s', p)
    requires forall q :: Pair(s', q, p) ==> PairOk(s', q, p)
    ensures Inv(s')
  {
    forall x | x in s'.handlers ensures HandlerOk(s', x) && OwedIsStored(s', x) {
      if x != p {
        assert HandlerOk(s, x) && OwedIsStored(s, x);
        LocalHandler(s, s', p, x);
      }
    }
    forall q, x | Pair(s', q, x) ensures PairOk(s', q, x) {
      if x != p {
        assert Pair(s, q, x) by { LocalExtends(s, s', p); }
        assert PairOk(s, q, x);
        LocalPair(s, s', p, q, x);
      }
    }
  }

  // ----- counters -----

  lemma ProtectBounded(counts: Counts, g: GroupKey, maxRequests: nat)
    requires forall x :: x in counts ==> counts[x] <= maxRequests
    ensures forall x :: x in Protect(counts, g, maxRequests).1 ==> Protect(counts, g, maxRequests).1[x] <= maxRequests
  {
  }

  lemma SameHandlersPair(s: Server, counts: Counts, q: PeerId, p: PeerId)
    requires q in s.handlers && p in s.handlers && PairOk(s, q, p)
    ensures PairOk(s.(counts := counts), q, p)
  {
    var s' := s.(counts := counts);
    forall m: Msg ensures ToldMain(s', q, p, m) <==> ToldMain(s, q, p, m) {}
  }

  /** Counters do not matter to anything but their bound. */
  lemma CountsOnly(s: Server, counts: Counts)
    requires Inv(s) && forall x :: x in counts ==> counts[x] <= s.maxRequests
    ensures Inv(s.(counts := counts))
  {
    hide PairOk;
    var s' := s.(counts := counts);
    forall p | p in s.handlers ensures HandlerOk(s', p) && OwedIsStored(s', p) {
      assert HandlerOk(s, p) && OwedIsStored(s, p);
      UntouchedHandlerOk(s, s', p);
    }
    forall g, p ensures Entry(s', g, p) { assert Entry(s, g, p); }
    forall q, p | Pair(s', q, p) ensures PairOk(s', q, p) {
      assert Pair(s, q, p);
      SameHandlersPair(s, counts, q, p);
    }
  }

  // ----- steps that leave the rooms alone -----

  /** The same connection with another stage, another pending message or other receive-task sends. */
  ghost predicate Retasked(s: Server, p: PeerId, h': Handler) {
    && p in s.handlers
    && h' == s.handlers[p].(recv := h'.recv, request := h'.request, stage := h'.stage)
    && s.handlers[p].stage != Greeting
    && (h'.stage == s.handlers[p].stage || (s.handlers[p].stage == Active && h'.stage == Closing))
    && (h'.request.Some? ==> h'.recv == [])
    && (forall i :: 0 <= i < |h'.recv| ==>
          SendOk(s, h'.recv[i]) && FromRecv(p, h'.recv[i].msg) && !h'.recv[i].msg.Update?)
    && (h'.stage == Active ==> s.handlers[p].recv == [])
  }

  lemma RetaskedHandler(s: Server, p: PeerId, h': Handler)
    requires Retasked(s, p, h') && HandlerOk(s, p)
    ensures Local(s, s.(handlers := s.handlers[p := h']), p)
    ensures HandlerOk(s.(handlers := s.handlers[p := h']), p) && OwedIsStored(s.(handlers := s.handlers[p := h']), p)
  {
    var s' := s.(handlers := s.handlers[p := h']);
    LocalInbox(s, s', p);
    LocalExtends(s, s', p);
    forall i | 0 <= i < |h'.main| ensures SendOk(s', h'.main[i]) { MsgStaysOk(s, s', h'.main[i].to, h'.main[i].msg); }
    forall i | 0 <= i < |h'.recv| ensures SendOk(s', h'.recv[i]) { MsgStaysOk(s, s', h'.recv[i].to, h'.recv[i].msg); }
  }

  lemma RetaskedPair(s: Server, p: PeerId, h': Handler, q: PeerId)
    requires Retasked(s, p, h') && Pair(s, q, p) && PairOk(s, q, p)
    ensures PairOk(s.(handlers := s.handlers[p := h']), q, p)
  {
    var s' := s.(handlers := s.handlers[p := h']);
    forall m: Msg ensures ToldMain(s', q, p, m) <==> ToldMain(s, q, p, m) {}
  }

  lemma RetaskedRooms(s: Server, p: PeerId, h': Handler)
    requires Retasked(s, p, h') && RoomsOk(s)
    ensures RoomsOk(s.(handlers := s.handlers[p := h']))
  {
    var s' := s.(handlers := s.handlers[p := h']);
    forall g, x ensures Entry(s', g, x) { assert Entry(s, g, x); }
  }

  lemma RecvChange(s: Server, p: PeerId, h': Handler)
    requires Inv(s) && Retasked(s, p, h')
    ensures Inv(s.(handlers := s.handlers[p := h']))
  {
    var s' := s.(handlers := s.handlers[p := h']);
    assert HandlerOk(s, p);
    RetaskedHandler(s, p, h');
    RetaskedRooms(s, p, h');
    hide HandlerOk, PairOk, RoomsOk;
    forall q | Pair(s', q, p) ensures PairOk(s', q, p) {
      assert Pair(s, q, p) && PairOk(s, q, p);
      RetaskedPair(s, p, h', q);
    }
    LocalInv(s, s', p);
  }

  lemma TaskEndsInv(s: Server, p: PeerId)
    requires Inv(s)
    ensures Inv(Next(s, TaskEnds(p)))
  {
    if p in s.handlers && s.handlers[p].stage == Active {
      TaskEndsKeeps(s, p);
    }
  }

  /** A connection that closes may still owe updates; nothing is claimed about it any more. */
  lemma TaskEndsKeeps(s: Server, p: PeerId)
    requires Inv(s) && p in s.handlers && s.handlers[p].stage == Active
    ensures Inv(s.(handlers := s.handlers[p := s.handlers[p].(stage := Closing)]))
  {
    var s' := s.(handlers := s.handlers[p := s.handlers[p].(stage := Closing)]);
    var h := s.handlers[p];
    assert HandlerOk(s, p);
    LocalInbox(s, s', p);
    LocalExtends(s, s', p);
    forall i | 0 <= i < |h.recv| ensures SendOk(s', h.recv[i]) && FromRecv(p, h.recv[i].msg) {
      assert SendOk(s, h.recv[i]);
      MsgStaysOk(s, s', h.recv[i].to, h.recv[i].msg);
    }
    forall g, x ensures Entry(s', g, x) { assert Entry(s, g, x); }
    forall q | Pair(s', q, p) ensures PairOk(s', q, p) {
      assert Pair(s, q, p) && PairOk(s, q, p);
      forall m: Msg ensures ToldMain(s', q, p, m) <==> ToldMain(s, q, p, m) {}
    }
    LocalInv(s, s', p);
  }

  lemma AbortRecvInv(s: Server, p: PeerId)
    requires Inv(s)
    ensures Inv(Next(s, AbortRecv(p)))
  {
    if p in s.handlers && s.handlers[p].stage in {Closing, Removed} {
      RecvChange(s, p, s.handlers[p].(recv := [], request := None));
    }
  }

  lemma RateLimitedInv(s: Server, p: PeerId, counts: Counts)
    requires Inv(s) && TakesMessage(s, p) && forall x :: x in counts ==> counts[x] <= s.maxRequests
    ensures Inv(RateLimited(s, p, counts))
  {
    var h := s.handlers[p];
    CountsOnly(s, counts);
    RecvChange(s.(counts := counts), p, h.(recv := [Send(p, Error(TOO_MANY_REQUESTS))],
                                           stage := if h.stage == Active then Closing else h.stage));
  }

  lemma ClientMessageInv(s: Server, p: PeerId, request: Request)
    requires Inv(s)
    ensures Inv(ClientMessageStep(s, p, request))
  {
    if TakesMessage(s, p) {
      var h := s.handlers[p];
      var (ok, counts) := Protect(s.counts, h.group, s.maxRequests);
      ProtectBounded(s.counts, h.group, s.maxRequests);
      if !ok {
        RateLimitedInv(s, p, counts);
      } else {
        CountsOnly(s, counts);
        RecvChange(s.(counts := counts), p, h.(request := Some(request)));
      }
    }
  }

  lemma ForwardInv(s: Server, p: PeerId, kind: SdpKind, target: PeerId, sessionId: string, sdp: string)
    requires Inv(s) && p in s.handlers && s.handlers[p].request.Some?
    ensures Inv(ForwardStep(s, p, kind, target, sessionId, sdp))
  {
    var h := s.handlers[p];
    assert HandlerOk(s, p);
    if target in RoomIn(s.rooms, h.group) {
      assert Entry(s, h.group, target);
      RecvChange(s, p, h.(recv := [Send(target, Relay(kind, Client(p, h.info), sessionId, sdp))], request := None));
    } else {
      RecvChange(s, p, h.(recv := [], request := None));
    }
  }

  // ----- updates -----

  lemma UpdateSectionRooms(s: Server, p: PeerId, info: Info)
    requires RoomsOk(s) && p in s.handlers
    ensures var (others, rooms') := UpdateSection(s.rooms, s.handlers[p].group, p, info);
      && RoomsAgree(s.rooms, rooms', p)
      && RoomsOk(s.(rooms := rooms'))
      && (p in RoomIn(s.rooms, s.handlers[p].group) ==>
            && others == s.rooms[s.handlers[p].group].Keys - {p}
            && RoomIn(rooms', s.handlers[p].group) == s.rooms[s.handlers[p].group][p := info])
      && (p !in RoomIn(s.rooms, s.handlers[p].group) ==> others == {} && rooms' == s.rooms)
  {
    var g := s.handlers[p].group;
    var s' := s.(rooms := UpdateSection(s.rooms, g, p, info).1);
    if p in RoomIn(s.rooms, g) {
      assert s.rooms[g][p := info].Keys == s.rooms[g].Keys;
      assert |s.rooms[g][p := info]| == |s.rooms[g]|;
    }
    forall g, x ensures Entry(s', g, x) { assert Entry(s, g, x); }
  }

  /** The state right after the update section. */
  function Updated(s: Server, p: PeerId, info: Info, order: seq<PeerId>): Server
    requires p in s.handlers
  {
    s.(rooms := UpdateSection(s.rooms, s.handlers[p].group, p, info).1,
       handlers := s.handlers[p := s.handlers[p].(recv := ToAll(order, Update(Client(p, info))), request := None)])
  }

  /** The section's premises: the update is admitted and `order` lists whom to notify. */
  ghost predicate UpdateReady(s: Server, p: PeerId, info: Info, order: seq<PeerId>) {
    && p in s.handlers && s.handlers[p].request == Some(NewInfo(info)) && s.handlers[p].recv == []
    && s.handlers[p].stage != Greeting
    && Lists(order, UpdateSection(s.rooms, s.handlers[p].group, p, info).0)
  }

  lemma ListedIsThere(order: seq<PeerId>, ids: set<PeerId>, i: nat)
    requires Lists(order, ids) && i < |order|
    ensures order[i] in ids
  {
    assert order[i] in (set x | x in order);
  }

  lemma ThereIsListed(order: seq<PeerId>, ids: set<PeerId>, x: PeerId, m: Msg)
    requires Lists(order, ids) && x in ids
    ensures Send(x, m) in ToAll(order, m)
  {
    assert x in (set y | y in order);
    var i :| 0 <= i < |order| && order[i] == x;
    assert ToAll(order, m)[i] == Send(x, m);
  }

  lemma UpdatedIsLocal(s: Server, p: PeerId, info: Info, order: seq<PeerId>)
    requires RoomsOk(s) && UpdateReady(s, p, info, order)
    ensures Local(s, Updated(s, p, info, order), p) && RoomsOk(Updated(s, p, info, order))
  {
    UpdateSectionRooms(s, p, info);
    var s1, s' := s.(rooms := UpdateSection(s.rooms, s.handlers[p].group, p, info).1), Updated(s, p, info, order);
    assert RoomsOk(s1);
    forall g, x ensures Entry(s', g, x) { assert Entry(s1, g, x); }
  }

  lemma UpdatedHandler(s: Server, p: PeerId, info: Info, order: seq<PeerId>)
    requires RoomsOk(s) && UpdateReady(s, p, info, order) && HandlerOk(s, p)
    ensures HandlerOk(Updated(s, p, info, order), p) && OwedIsStored(Updated(s, p, info, order), p)
  {
    var s' := Updated(s, p, info, order);
    var h, h' := s.handlers[p], s'.handlers[p];
    UpdatedIsLocal(s, p, info, order);
    UpdateSectionRooms(s, p, info);
    LocalInbox(s, s', p);
    LocalExtends(s, s', p);
    forall i | 0 <= i < |h.main| ensures SendOk(s', h.main[i]) { MsgStaysOk(s, s', h.main[i].to, h.main[i].msg); }
    forall i | 0 <= i < |h'.recv| ensures SendOk(s', h'.recv[i]) {
      ListedIsThere(order, UpdateSection(s.rooms, h.group, p, info).0, i);
      assert Entry(s, h.group, order[i]);
    }
  }

  lemma UpdatedPair(s: Server, p: PeerId, info: Info, order: seq<PeerId>, q: PeerId)
    requires RoomsOk(s) && UpdateReady(s, p, info, order) && Pair(s, q, p) && PairOk(s, q, p)
    ensures PairOk(Updated(s, p, info, order), q, p)
  {
    var s' := Updated(s, p, info, order);
    forall m: Msg ensures ToldMain(s', q, p, m) <==> ToldMain(s, q, p, m) {}
    UpdateSectionRooms(s, p, info);
    assert Entry(s, s.handlers[p].group, p);
    if p in RoomIn(s.rooms, s.handlers[p].group) {
      assert Entry(s, s.handlers[p].group, q);
      ThereIsListed(order, UpdateSection(s.rooms, s.handlers[p].group, p, info).0, q, Update(Client(p, info)));
    }
  }

  lemma UpdatedInv(s: Server, p: PeerId, info: Info, order: seq<PeerId>)
    requires Inv(s) && UpdateReady(s, p, info, order)
    ensures Inv(Updated(s, p, info, order))
  {
    var s' := Updated(s, p, info, order);
    assert HandlerOk(s, p);
    UpdatedIsLocal(s, p, info, order);
    UpdatedHandler(s, p, info, order);
    forall q | Pair(s', q, p) ensures PairOk(s', q, p) {
      assert Pair(s, q, p) && PairOk(s, q, p);
      UpdatedPair(s, p, info, order, q);
    }
    LocalInv(s, s', p);
  }

  lemma RequestInv(s: Server, p: PeerId, order: seq<PeerId>)
    requires Inv(s)
    ensures Inv(RequestStep(s, p, order))
  {
    if p in s.handlers && s.handlers[p].request.Some? {
      assert HandlerOk(s, p);
      match s.handlers[p].request.value
      case NewInfo(info) => if UpdateReady(s, p, info, order) { UpdatedInv(s, p, info, order); }
      case Forward(kind, target, sessionId, sdp) => ForwardInv(s, p, kind, target, sessionId, sdp);
    }
  }

  // ----- cleanup -----

  lemma CleanupSectionRooms(rooms: Rooms, g: GroupKey, p: PeerId)
    requires p in RoomIn(rooms, g)
    ensures var (others, rooms') := CleanupSection(rooms, g, p);
      && others == rooms[g].Keys - {p}
      && p !in RoomIn(rooms', g)
      && (forall x :: x != p ==> SameEntry(rooms, rooms', g, x))
      && (forall g2 :: g2 != g ==> RoomIn(rooms', g2) == RoomIn(rooms, g2))
      && (forall g2 :: g2 in rooms' ==> g2 in rooms && |rooms'[g2]| <= |rooms[g2]|)
  {
    assert (rooms[g] - {p}).Keys == rooms[g].Keys - {p};
    if rooms[g].Keys - {p} == {} {
      forall x | x != p ensures x !in rooms[g] { assert x !in rooms[g].Keys - {p}; }
    }
  }

  /** The state right after the cleanup section. */
  function Cleaned(s: Server, p: PeerId, order: seq<PeerId>): Server
    requires p in s.handlers
  {
    s.(rooms := CleanupSection(s.rooms, s.handlers[p].group, p).1,
       handlers := s.handlers[p := s.handlers[p].(stage := Removed, main := ToAll(order, Left(p)))])
  }

  ghost predicate CleanupReady(s: Server, p: PeerId, order: seq<PeerId>) {
    && p in s.handlers && s.handlers[p].stage == Closing
    && Lists(order, CleanupSection(s.rooms, s.handlers[p].group, p).0)
  }

  lemma CleanedIsLocal(s: Server, p: PeerId, order: seq<PeerId>)
    requires RoomsOk(s) && CleanupReady(s, p, order)
    ensures Local(s, Cleaned(s, p, order), p) && RoomsOk(Cleaned(s, p, order))
  {
    var s' := Cleaned(s, p, order);
    var g := s.handlers[p].group;
    assert Entry(s, g, p);
    CleanupSectionRooms(s.rooms, g, p);
    forall g2, x
      ensures Entry(s', g2, x)
    {
      assert Entry(s, g2, x);
      assert x != p ==> SameEntry(s.rooms, s'.rooms, g, x);
    }
    forall g2, x | x != p ensures SameEntry(s.rooms, s'.rooms, g2, x) { assert SameEntry(s.rooms, s'.rooms, g, x); }
  }

  lemma CleanedHandler(s: Server, p: PeerId, order: seq<PeerId>)
    requires RoomsOk(s) && CleanupReady(s, p, order) && HandlerOk(s, p)
    ensures HandlerOk(Cleaned(s, p, order), p) && OwedIsStored(Cleaned(s, p, order), p)
  {
    var s' := Cleaned(s, p, order);
    var h, h' := s.handlers[p], s'.handlers[p];
    assert Entry(s, h.group, p);
    CleanedIsLocal(s, p, order);
    CleanupSectionRooms(s.rooms, h.group, p);
    LocalInbox(s, s', p);
    LocalExtends(s, s', p);
    forall i | 0 <= i < |h'.main| ensures SendOk(s', h'.main[i]) {
      ListedIsThere(order, CleanupSection(s.rooms, h.group, p).0, i);
      assert Entry(s, h.group, order[i]);
    }
    forall i | 0 <= i < |h.recv| ensures SendOk(s', h.recv[i]) { MsgStaysOk(s, s', h.recv[i].to, h.recv[i].msg); }
  }

  lemma CleanedPair(s: Server, p: PeerId, order: seq<PeerId>, q: PeerId)
    requires RoomsOk(s) && CleanupReady(s, p, order) && MainOk(s, p) && Pair(s, q, p) && PairOk(s, q, p)
    ensures PairOk(Cleaned(s, p, order), q, p)
  {
    var s' := Cleaned(s, p, order);
    var g := s.handlers[p].group;
    assert Entry(s, g, p) && Entry(s, g, q);
    CleanupSectionRooms(s.rooms, g, p);
    ThereIsListed(order, CleanupSection(s.rooms, g, p).0, q, Left(p));
    assert ToldMain(s', q, p, Left(p));
    var join := Join(Client(p, s.handlers[p].info));
    assert ToldMain(s', q, p, join) <==> ToldMain(s, q, p, join);
  }

  lemma CleanupInv(s: Server, p: PeerId, order: seq<PeerId>)
    requires Inv(s)
    ensures Inv(CleanupStep(s, p, order))
  {
    if CleanupReady(s, p, order) {
      var s' := Cleaned(s, p, order);
      assert HandlerOk(s, p);
      CleanedIsLocal(s, p, order);
      CleanedHandler(s, p, order);
      forall q | Pair(s', q, p) ensures PairOk(s', q, p) {
        assert Pair(s, q, p) && PairOk(s, q, p);
        CleanedPair(s, p, order, q);
      }
      LocalInv(s, s', p);
    }
  }
}
