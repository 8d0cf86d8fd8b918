/** The text key under which the signaling server groups addresses. */
module IpGroup {
  import opened Common
  import opened Text
  import opened Signaling
  import opened SignalingInvariant
  import opened SignalingConnect
  import opened SignalingAccounting

  type Segment = x: int | 0 <= x < 0x10000

  datatype IpAddr =
    | V4(octets: seq<Byte>)
    | V6(segments: seq<Segment>)

  ghost predicate WellFormed(ip: IpAddr) {
    if ip.V4? then |ip.octets| == 4 else |ip.segments| == 8
  }

  function Numerals(ns: seq<nat>, base: nat): (r: seq<string>)
    requires 2 <= base <= 16
    ensures |r| == |ns|
    ensures forall i :: 0 <= i < |ns| ==> r[i] == Numeral(ns[i], base)
  {
    seq(|ns|, i requires 0 <= i < |ns| => Numeral(ns[i], base))
  }

  /** IPv4: the address in dotted decimal. IPv6: the first four segments in minimal hex. */
  function GroupOf(ip: IpAddr): GroupKey
    requires WellFormed(ip)
  {
    match ip
    case V4(octets) => JoinWith(Numerals(octets, 10), '.')
    case V6(segments) => JoinWith(Numerals(segments[..4], 16), ':')
  }

  /** The text of a key. */
  lemma GroupText(a: Byte, b: Byte, c: Byte, d: Byte, s: seq<Segment>)
    requires |s| == 8
    ensures GroupOf(V4([a, b, c, d]))
      == Numeral(a, 10) + ['.'] + (Numeral(b, 10) + ['.'] + (Numeral(c, 10) + ['.'] + Numeral(d, 10)))
    ensures GroupOf(V6(s))
      == Numeral(s[0], 16) + [':'] + (Numeral(s[1], 16) + [':'] + (Numeral(s[2], 16) + [':'] + Numeral(s[3], 16)))
  {
    JoinsFour(Numerals([a, b, c, d], 10), '.');
    JoinsFour(Numerals(s[..4], 16), ':');
  }

  lemma JoinsFour(p: seq<string>, sep: char)
    requires |p| == 4
    ensures JoinWith(p, sep) == p[0] + [sep] + (p[1] + [sep] + (p[2] + [sep] + p[3]))
  {
    assert p[1..] == [p[1], p[2], p[3]] && [p[1], p[2], p[3]][1..] == [p[2], p[3]] && [p[2], p[3]][1..] == [p[3]];
    assert JoinWith([p[3]], sep) == p[3];
    assert JoinWith([p[2], p[3]], sep) == p[2] + [sep] + p[3];
    assert JoinWith([p[1], p[2], p[3]], sep) == p[1] + [sep] + (p[2] + [sep] + p[3]);
  }

  /** What the key is meant to express: the same IPv4 address, or IPv6 addresses of one /64. */
  ghost predicate SameNetwork(a: IpAddr, b: IpAddr)
    requires WellFormed(a) && WellFormed(b)
  {
    || (a.V4? && b.V4? && a.octets == b.octets)
    || (a.V6? && b.V6? && a.segments[..4] == b.segments[..4])
  }

  lemma NumeralsHaveNo(ns: seq<nat>, base: nat, c: char)
    requires 2 <= base <= 16 && !IsDigit(c)
    ensures forall i :: 0 <= i < |ns| ==> c !in Numerals(ns, base)[i]
  {
    forall i | 0 <= i < |ns| ensures c !in Numerals(ns, base)[i] { NumeralDigits(ns[i], base); }
  }

  /** Joined numerals determine their numbers. */
  lemma JoinedNumeralsInjective(a: seq<nat>, b: seq<nat>, base: nat, sep: char)
    requires 2 <= base <= 16 && !IsDigit(sep) && a != [] && b != []
    requires JoinWith(Numerals(a, base), sep) == JoinWith(Numerals(b, base), sep)
    ensures a == b
  {
    NumeralsHaveNo(a, base, sep);
    NumeralsHaveNo(b, base, sep);
    SplitJoin(Numerals(a, base), sep);
    SplitJoin(Numerals(b, base), sep);
    assert |Numerals(a, base)| == |Numerals(b, base)|;
    forall i | 0 <= i < |a| ensures a[i] == b[i] {
      assert Numerals(a, base)[i] == Numerals(b, base)[i];
      NumeralRoundTrip(a[i], base);
      NumeralRoundTrip(b[i], base);
    }
  }

  /** An IPv4 key contains no colon and an IPv6 key does. */
  lemma FamiliesDiffer(a: IpAddr, b: IpAddr)
    requires WellFormed(a) && WellFormed(b) && a.V4? && b.V6?
    ensures GroupOf(a) != GroupOf(b)
  {
    NumeralsHaveNo(a.octets, 10, ':');
    JoinChars(Numerals(a.octets, 10), '.', ':');
    var parts := Numerals(b.segments[..4], 16);
    assert JoinWith(parts, ':') == parts[0] + [':'] + JoinWith(parts[1..], ':');
    assert JoinWith(parts, ':')[|parts[0]|] == ':';
  }

  /** Main result: two addresses share a group if and only if they are the same IPv4 address
      or IPv6 addresses that agree in their first 64 bits. */
  lemma GroupIff(a: IpAddr, b: IpAddr)
    requires WellFormed(a) && WellFormed(b)
    ensures GroupOf(a) == GroupOf(b) <==> SameNetwork(a, b)
  {
    if a.V4? && b.V4? {
      if GroupOf(a) == GroupOf(b) { JoinedNumeralsInjective(a.octets, b.octets, 10, '.'); }
    } else if a.V6? && b.V6? {
      if GroupOf(a) == GroupOf(b) { JoinedNumeralsInjective(a.segments[..4], b.segments[..4], 16, ':'); }
    } else if a.V4? {
      FamiliesDiffer(a, b);
    } else {
      FamiliesDiffer(b, a);
    }
  }

  /** Every connect of the run uses the key of the connecting peer's address. */
  ghost predicate Addressed(es: seq<Event>, addressOf: PeerId -> IpAddr) {
    forall i :: 0 <= i < |es| && es[i].Connect? ==>
      WellFormed(addressOf(es[i].peer)) && es[i].group == GroupOf(addressOf(es[i].peer))
  }

  ghost predicate Keyed(s: Server, addressOf: PeerId -> IpAddr) {
    forall p :: p in s.handlers ==> WellFormed(addressOf(p)) && s.handlers[p].group == GroupOf(addressOf(p))
  }

  lemma {:induction false} GroupsAreKeys(s: Server, es: seq<Event>, addressOf: PeerId -> IpAddr)
    requires s.handlers == map[] && Addressed(es, addressOf)
    ensures Keyed(RunTo(s, es), addressOf)
  {
    if es != [] {
      var before, e := es[..|es| - 1], es[|es| - 1];
      forall i | 0 <= i < |before| && before[i].Connect?
        ensures WellFormed(addressOf(before[i].peer)) && before[i].group == GroupOf(addressOf(before[i].peer))
      {
        assert es[i] == before[i];
      }
      GroupsAreKeys(s, before, addressOf);
      KeyedStep(RunTo(s, before), e, addressOf);
    }
  }

  lemma KeyedStep(s: Server, e: Event, addressOf: PeerId -> IpAddr)
    requires Keyed(s, addressOf)
    requires e.Connect? ==> WellFormed(addressOf(e.peer)) && e.group == GroupOf(addressOf(e.peer))
    ensures Keyed(Next(s, e), addressOf)
  {
    FacesKept(s, e);
    forall p | p in Next(s, e).handlers
      ensures WellFormed(addressOf(p)) && Next(s, e).handlers[p].group == GroupOf(addressOf(p))
    {
      if p in s.handlers { assert SameFace(s.handlers[p], Next(s, e).handlers[p]); }
    }
  }

  /** Main result: whatever the interleaving, an offer or answer only ever reaches a connection
      on the network of the connection that sent it. */
  lemma RelayStaysInNetwork(maxConnections: nat, maxRequests: nat, es: seq<Event>, addressOf: PeerId -> IpAddr,
                            q: PeerId, m: Msg)
    requires Addressed(es, addressOf)
    requires var s := RunTo(Start(maxConnections, maxRequests), es);
      q in s.handlers && m in s.handlers[q].inbox && m.Relay?
    ensures WellFormed(addressOf(m.origin.id)) && WellFormed(addressOf(q))
    ensures SameNetwork(addressOf(m.origin.id), addressOf(q))
  {
    RelayStaysInGroup(maxConnections, maxRequests, es, q, m);
    GroupsAreKeys(Start(maxConnections, maxRequests), es, addressOf);
    GroupIff(addressOf(m.origin.id), addressOf(q));
  }
}
