/** A run in which a greeting waits for ever. */
module SignalingStuck {
  import opened Common
  import opened Signaling
  import opened SignalingInvariant
  import opened SignalingGhost
  import opened SignalingStale
  import opened SignalingRelay
  import opened SignalingList
  import opened SignalingBounded

  /** Takes one more step of a run whose last state is known. */
  lemma Onwards(es: seq<BoundedEvent>, s: Server, e: Event)
    requires BoundedRunTo(BoundedStart(10, 1000), es) == Bounded(s, map[])
    requires !Waits(Bounded(s, map[]), e)
    ensures BoundedRunTo(BoundedStart(10, 1000), es + [Does(e)]) == Bounded(Next(s, e), map[])
  {
    BoundedRunToThen(BoundedStart(10, 1000), es, Does(e));
  }

  function Copies(k: nat): (r: seq<Msg>)
    ensures |r| == k && forall i :: 0 <= i < k ==> r[i] == RELAYED
  {
    seq(k, i => RELAYED)
  }

  /** `b` has announced itself to `a`, and `a` has sent it `k` offers before its hello. */
  function Offered(k: nat, request: Option<Request>, recv: seq<Send>, requests: nat): Server {
    World(map["a" := I, "b" := I], requests,
          map["a" := Busy(request, recv, [HELLO_A, JOIN_B]), "b" := B(Greeting, [Send("b", HELLO_B)], Copies(k))])
  }

  function OfferRun(k: nat): seq<BoundedEvent> {
    if k == 0 then
      [] + [Does(Connect("a", "g", I, []))] + [Does(SendMain("a"))]
      + [Does(Connect("b", "g", I, ["a"]))] + [Does(SendMain("b"))]
    else
      OfferRun(k - 1) + [Does(ClientMessage("a", OFFER))] + [Does(HandleRequest("a", []))] + [Does(SendRecv("a"))]
  }

  lemma OfferAdmittedAgain(k: nat)
    requires k < CAPACITY
    ensures Next(Offered(k, None, [], 2 + k), ClientMessage("a", OFFER)) == Offered(k, Some(OFFER), [], 3 + k)
  {
    hide Copies;
    var s1 := Next(Offered(k, None, [], 2 + k), ClientMessage("a", OFFER));
    assert s1.handlers == Offered(k, Some(OFFER), [], 3 + k).handlers && s1.counts == map["g" := 3 + k];
  }

  lemma OfferOwedAgain(k: nat)
    ensures Next(Offered(k, Some(OFFER), [], 3 + k), HandleRequest("a", []))
      == Offered(k, None, [Send("b", RELAYED)], 3 + k)
  {
    hide Copies;
    var s2 := Next(Offered(k, Some(OFFER), [], 3 + k), HandleRequest("a", []));
    assert s2.handlers == Offered(k, None, [Send("b", RELAYED)], 3 + k).handlers;
  }

  lemma OfferFits(k: nat)
    requires k < CAPACITY
    ensures !Waits(Bounded(Offered(k, None, [Send("b", RELAYED)], 3 + k), map[]), SendRecv("a"))
    ensures Next(Offered(k, None, [Send("b", RELAYED)], 3 + k), SendRecv("a")) == Offered(k + 1, None, [], 3 + k)
  {
    assert [Send("b", RELAYED)][1..] == [] && Copies(k) + [RELAYED] == Copies(k + 1);
    var s' := Next(Offered(k, None, [Send("b", RELAYED)], 3 + k), SendRecv("a"));
    assert s'.handlers == Offered(k + 1, None, [], 3 + k).handlers;
  }

  lemma BeforeOffers()
    ensures BoundedRunTo(BoundedStart(10, 1000), OfferRun(0)) == Bounded(Offered(0, None, [], 2), map[])
  {
    var r1 := [] + [Does(Connect("a", "g", I, []))];
    var r3 := r1 + [Does(SendMain("a"))] + [Does(Connect("b", "g", I, ["a"]))];
    FirstConnect();
    FirstHello();
    SecondConnect();
    GreetingDone();
    Onwards([], Start(10, 1000), Connect("a", "g", I, []));
    Onwards(r1, S1, SendMain("a"));
    Onwards(r1 + [Does(SendMain("a"))], S2, Connect("b", "g", I, ["a"]));
    Onwards(r3, S3, SendMain("b"));
    assert Copies(0) == [];
    assert U4 == Offered(0, None, [], 2);
  }

  lemma OneOffer(r: seq<BoundedEvent>, k: nat)
    requires k < CAPACITY && BoundedRunTo(BoundedStart(10, 1000), r) == Bounded(Offered(k, None, [], 2 + k), map[])
    ensures BoundedRunTo(BoundedStart(10, 1000),
                         r + [Does(ClientMessage("a", OFFER))] + [Does(HandleRequest("a", []))] + [Does(SendRecv("a"))])
      == Bounded(Offered(k + 1, None, [], 3 + k), map[])
  {
    OfferAdmittedAgain(k);
    OfferOwedAgain(k);
    OfferFits(k);
    hide Next, Offered, BoundedRunTo, BoundedStart;
    Onwards(r, Offered(k, None, [], 2 + k), ClientMessage("a", OFFER));
    Onwards(r + [Does(ClientMessage("a", OFFER))], Offered(k, Some(OFFER), [], 3 + k), HandleRequest("a", []));
    Onwards(r + [Does(ClientMessage("a", OFFER))] + [Does(HandleRequest("a", []))],
            Offered(k, None, [Send("b", RELAYED)], 3 + k), SendRecv("a"));
  }

  lemma {:induction false} AfterOffers(k: nat)
    requires k <= CAPACITY
    ensures BoundedRunTo(BoundedStart(10, 1000), OfferRun(k)) == Bounded(Offered(k, None, [], 2 + k), map[])
  {
    if k == 0 {
      BeforeOffers();
    } else {
      AfterOffers(k - 1);
      hide Offered, BoundedRunTo, BoundedStart;
      OneOffer(OfferRun(k - 1), k - 1);
    }
  }

  /** After four offers of `a`, `b` has only its hello left to send and waits with it for ever. */
  lemma FourOffersBlockHello()
    ensures var b := BoundedRunTo(BoundedStart(10, 1000), OfferRun(4));
      HelloLeft(b.server, "b") && |b.server.handlers["b"].inbox| == 4
    ensures forall more :: StillGreeting(BoundedRunTo(BoundedStart(10, 1000), OfferRun(4) + more), "b")
  {
    AfterOffers(4);
    GreetingWaitsForeverIff(10, 1000, OfferRun(4), "b");
  }
}
