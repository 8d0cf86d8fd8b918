/** The PIN challenge: the verifying loop, the answering loop, and the two in lockstep. */
module Pin {
  import opened Common

  /** An unsigned 8-bit counter; arithmetic that left its range would not verify. */
  newtype U8 = x: int | 0 <= x < 256

  datatype PinConfig = PinConfig(pin: string, maxTries: U8)

  /** What the verifier tells the other side between two PINs. */
  datatype Notice = PinRequired | TooManyAttempts

  datatype VerifyOutcome = Verified | Exhausted | Disconnected

  /** What the verifier does at the top of its loop. */
  datatype Verdict = Accept | GiveUp | Await(notice: bool)

  function LoopTop(config: PinConfig, remotePin: string, tries: nat, initialNotice: bool): Verdict {
    if remotePin == config.pin then Accept
    else if tries >= config.maxTries as nat then GiveUp
    else Await(initialNotice || tries > 0)
  }

  /** The position of the first `pin` in `pins`, or their number if there is none. */
  function FirstMatch(pins: seq<string>, pin: string): (n: nat)
    ensures n <= |pins|
    ensures n < |pins| ==> pins[n] == pin
    ensures forall i :: 0 <= i < n ==> pins[i] != pin
  {
    if pins == [] || pins[0] == pin then 0 else 1 + FirstMatch(pins[1..], pin)
  }

  function Min(a: nat, b: nat): nat { if a < b then a else b }

  /** `n` times "PIN required". */
  function Required(n: nat): (r: seq<Notice>)
    ensures |r| == n && forall i :: 0 <= i < n ==> r[i] == PinRequired
  {
    seq(n, i => PinRequired)
  }

  /** How a challenge goes when the PINs of `incoming` arrive before the channel closes. The
      empty PIN is granted before any has arrived. */
  function Outcome(config: PinConfig, incoming: seq<string>): VerifyOutcome {
    var m := FirstMatch(incoming, config.pin);
    if config.pin == "" || (m < |incoming| && m < config.maxTries as nat) then Verified
    else if |incoming| >= config.maxTries as nat then Exhausted
    else Disconnected
  }

  /** How many PINs it takes. */
  function Taken(config: PinConfig, incoming: seq<string>): nat {
    if config.pin == "" then 0
    else if Outcome(config, incoming).Verified? then FirstMatch(incoming, config.pin) + 1
    else Min(|incoming|, config.maxTries as nat)
  }

  /** What the other side is told: to enter a PIN before each one taken or missed, the first
      only with an initial notice, and at the end that the tries are used up. */
  function Notices(config: PinConfig, sendInitialNotice: bool, incoming: seq<string>): seq<Notice> {
    var outcome := Outcome(config, incoming);
    var asked := Taken(config, incoming) + (if outcome.Disconnected? then 1 else 0);
    Required(if sendInitialNotice || asked == 0 then asked else asked - 1)
      + (if outcome.Exhausted? then [TooManyAttempts] else [])
  }

  /** The verifying loop. */
  method VerifyPin(config: PinConfig, sendInitialNotice: bool, incoming: seq<string>)
    returns (outcome: VerifyOutcome, taken: nat, notices: seq<Notice>)
    ensures outcome == Outcome(config, incoming) && taken == Taken(config, incoming)
    ensures notices == Notices(config, sendInitialNotice, incoming)
  {
    var remotePin := "";
    var pinTry: U8 := 0;
    var initialNotice := sendInitialNotice;
    taken, notices := 0, [];
    while true
      invariant taken == pinTry as nat <= |incoming| && pinTry <= config.maxTries
      invariant config.pin == "" ==> taken == 0
      invariant taken > 0 ==> remotePin == incoming[taken - 1]
      invariant taken == 0 ==> remotePin == "" && initialNotice == sendInitialNotice
      invariant taken > 0 ==> !initialNotice || !sendInitialNotice
      invariant forall i :: 0 <= i < taken - 1 ==> incoming[i] != config.pin
      invariant notices == Required(if sendInitialNotice || taken == 0 then taken else taken - 1)
      decreases config.maxTries as int - pinTry as int
    {
      match LoopTop(config, remotePin, pinTry as nat, initialNotice) {
        case Accept =>
          return Verified, taken, notices;
        case GiveUp =>
          return Exhausted, taken, notices + [TooManyAttempts];
        case Await(notice) =>
          if notice {
            initialNotice := false;
            notices := notices + [PinRequired];
          }
      }
      if taken >= |incoming| {
        return Disconnected, taken, notices;
      }
      remotePin := incoming[taken];
      taken := taken + 1;
      pinTry := pinTry + 1;
    }
  }

  // ----- the answering side -----

  datatype Reply = Granted | AskAgain | Refused

  datatype HandleOutcome = Passed | Rejected | NoInput | NoReply

  /** `handle_pin` on the PINs the user enters and the replies that come back: the result and
      how many PINs were sent. */
  function Handle(entered: seq<string>, replies: seq<Reply>): (HandleOutcome, nat) {
    if entered == [] then (NoInput, 0)
    else if replies == [] then (NoReply, 1)
    else
      match replies[0]
      case Granted => (Passed, 1)
      case Refused => (Rejected, 1)
      case AskAgain =>
        var (outcome, sent) := Handle(entered[1..], replies[1..]);
        (outcome, sent + 1)
  }

  method HandlePin(entered: seq<string>, replies: seq<Reply>) returns (outcome: HandleOutcome, sent: seq<string>)
    ensures outcome == Handle(entered, replies).0
    ensures Handle(entered, replies).1 <= |entered| && sent == entered[..Handle(entered, replies).1]
  {
    sent := [];
    var i := 0;
    assert entered[0..] == entered && replies[0..] == replies;
    while true
      invariant i <= |entered| && i <= |replies| && sent == entered[..i]
      invariant Handle(entered, replies)
        == (Handle(entered[i..], replies[i..]).0, i + Handle(entered[i..], replies[i..]).1)
      decreases |entered| - i
    {
      if i >= |entered| { return NoInput, sent; }
      sent := sent + [entered[i]];
      if i >= |replies| { return NoReply, sent; }
      var reply := replies[i];
      assert entered[i..][1..] == entered[i + 1..] && replies[i..][1..] == replies[i + 1..];
      i := i + 1;
      match reply {
        case Granted => return Passed, sent;
        case Refused => return Rejected, sent;
        case AskAgain =>
      }
    }
  }

  // ----- both sides -----

  /** The reply to each PIN in turn, when `tries` PINs went before. */
  function Replies(config: PinConfig, tries: nat, entered: seq<string>): seq<Reply>
    decreases |entered|
  {
    if entered == [] then []
    else if entered[0] == config.pin then [Granted]
    else if tries + 1 >= config.maxTries as nat then [Refused]
    else [AskAgain] + Replies(config, tries + 1, entered[1..])
  }

  function AsReply(n: Notice): Reply {
    if n.PinRequired? then AskAgain else Refused
  }

  function AsReplies(notices: seq<Notice>): (r: seq<Reply>)
    ensures |r| == |notices| && forall i :: 0 <= i < |r| ==> r[i] == AsReply(notices[i])
  {
    seq(|notices|, i requires 0 <= i < |notices| => AsReply(notices[i]))
  }

  /** The notices after the first PIN as replies, closed by a grant when PIN number `m` of `n` is
      the right one and is among the `left` that are allowed. */
  function NoticeReplies(left: nat, m: nat, n: nat): seq<Reply>
    requires left > 0
  {
    if m < n && m < left then AsReplies(Required(m)) + [Granted]
    else if n >= left then AsReplies(Required(left - 1)) + [Refused]
    else AsReplies(Required(n))
  }

  lemma AskOnce(n: nat, end: seq<Reply>)
    ensures [AskAgain] + (AsReplies(Required(n)) + end) == AsReplies(Required(n + 1)) + end
    ensures AsReplies(Required(n)) + [] == AsReplies(Required(n))
  {
    assert [AskAgain] + AsReplies(Required(n)) == AsReplies(Required(n + 1));
  }

  lemma OneMoreNotice(left: nat, m: nat, n: nat)
    requires left > 1
    ensures NoticeReplies(left, m + 1, n + 1) == [AskAgain] + NoticeReplies(left - 1, m, n)
  {
    hide AsReplies, Required;
    AskOnce(m, [Granted]);
    AskOnce(left - 2, [Refused]);
    AskOnce(n, []);
    AskOnce(n + 1, []);
  }

  lemma FirstNotices(left: nat, m: nat, n: nat)
    requires left > 0
    ensures n > 0 ==> NoticeReplies(left, 0, n) == [Granted]
    ensures n > 0 && left == 1 && m > 0 ==> NoticeReplies(left, m, n) == [Refused]
    ensures NoticeReplies(left, 0, 0) == []
  {
    assert AsReplies(Required(0)) == [];
  }

  /** The replies are the notices the verifying loop sends after the first PIN, closed by a
      grant when it accepts. */
  lemma {:induction false} RepliesAreNotices(config: PinConfig, tries: nat, entered: seq<string>)
    requires tries < config.maxTries as nat
    ensures Replies(config, tries, entered)
      == NoticeReplies(config.maxTries as nat - tries, FirstMatch(entered, config.pin), |entered|)
    decreases |entered|
  {
    var left := config.maxTries as nat - tries;
    hide NoticeReplies;
    FirstNotices(left, FirstMatch(entered, config.pin), |entered|);
    if entered != [] && entered[0] != config.pin && left > 1 {
      RepliesAreNotices(config, tries + 1, entered[1..]);
      OneMoreNotice(left, FirstMatch(entered[1..], config.pin), |entered[1..]|);
    }
  }

  /** Handling replies that ask again `n` times and then end with `last`. */
  lemma {:induction false} HandleAfterAsking(entered: seq<string>, n: nat, end: seq<Reply>)
    requires n <= |entered|
    ensures Handle(entered, AsReplies(Required(n)) + end)
      == (Handle(entered[n..], end).0, n + Handle(entered[n..], end).1)
    decreases n
  {
    var replies := AsReplies(Required(n)) + end;
    if n == 0 {
      assert replies == end && entered[0..] == entered;
    } else {
      assert replies[0] == AskAgain;
      assert replies[1..] == AsReplies(Required(n - 1)) + end;
      HandleAfterAsking(entered[1..], n - 1, end);
      assert entered[1..][n - 1..] == entered[n..];
    }
  }

  /** What comes back over the channel: the verifier's notices, and its grant when it accepts. */
  function ReplyStream(config: PinConfig, entered: seq<string>): seq<Reply> {
    AsReplies(Notices(config, false, entered)) + (if Outcome(config, entered).Verified? then [Granted] else [])
  }

  /** A challenge that asks for a PIN and allows a try. */
  predicate Regular(config: PinConfig) { config.pin != "" && config.maxTries > 0 }

  /** What comes back is the reply to each PIN in turn. */
  lemma StreamIsReplies(config: PinConfig, entered: seq<string>)
    requires Regular(config)
    ensures ReplyStream(config, entered) == Replies(config, 0, entered)
  {
    var m, left := FirstMatch(entered, config.pin), config.maxTries as nat;
    RepliesAreNotices(config, 0, entered);
    hide Required;
    if m < |entered| && m < left {
      assert Required(m) + [] == Required(m);
    } else if |entered| >= left {
      assert AsReplies(Required(left - 1) + [TooManyAttempts]) + [] == AsReplies(Required(left - 1)) + [Refused];
    } else {
      assert AsReplies(Required(|entered|) + []) + [] == AsReplies(Required(|entered|));
    }
  }

  lemma RegularLockstep(config: PinConfig, entered: seq<string>)
    requires Regular(config)
    ensures var (outcome, sent) := Handle(entered, ReplyStream(config, entered));
      && sent == Taken(config, entered)
      && (outcome.Passed? <==> Outcome(config, entered).Verified?)
      && (outcome.Rejected? <==> Outcome(config, entered).Exhausted?)
      && (outcome.NoInput? <==> Outcome(config, entered).Disconnected?)
      && !outcome.NoReply?
  {
    StreamIsReplies(config, entered);
    RepliesAreNotices(config, 0, entered);
    hide ReplyStream;
    var m, left := FirstMatch(entered, config.pin), config.maxTries as nat;
    if m < |entered| && m < left {
      HandleAfterAsking(entered, m, [Granted]);
    } else if |entered| >= left {
      HandleAfterAsking(entered, left - 1, [Refused]);
    } else {
      HandleAfterAsking(entered, |entered|, []);
      assert AsReplies(Required(|entered|)) + [] == AsReplies(Required(|entered|));
    }
  }

  /** Main result: for any challenge and any PINs the user enters, both loops end with the same
      verdict once a PIN is entered. The answering side sends exactly the PINs the verifier
      takes, that is up to the first match or the limit, if and only if the PIN is not empty and
      a try is allowed; otherwise it sends one PIN the verifier never takes. */
  lemma Lockstep(config: PinConfig, entered: seq<string>)
    ensures var (outcome, sent) := Handle(entered, ReplyStream(config, entered));
      && !outcome.NoReply?
      && (sent == Taken(config, entered) <==> Regular(config) || entered == [])
      && (sent != Taken(config, entered) ==> sent == 1 && Taken(config, entered) == 0)
      && (entered == [] ==> outcome.NoInput?)
      && (entered != [] ==>
            && (outcome.Passed? <==> Outcome(config, entered).Verified?)
            && (outcome.Rejected? <==> Outcome(config, entered).Exhausted?)
            && (outcome.NoInput? <==> Outcome(config, entered).Disconnected?))
  {
    if Regular(config) {
      RegularLockstep(config, entered);
    } else if entered != [] {
      assert Notices(config, false, entered) == if config.pin == "" then [] else [TooManyAttempts];
      assert ReplyStream(config, entered) == [if config.pin == "" then Granted else Refused];
    }
  }

  /** The two loops run against each other, every reply being one the verifying loop sent. */
  method Challenge(config: PinConfig, entered: seq<string>)
    returns (verdict: VerifyOutcome, taken: nat, outcome: HandleOutcome, sent: seq<string>)
    ensures taken <= |entered| && (Regular(config) ==> sent == entered[..taken])
    ensures !Regular(config) ==> taken == 0 && sent == if entered == [] then [] else [entered[0]]
    ensures entered != [] ==> (outcome.Passed? <==> verdict.Verified?) && (outcome.Rejected? <==> verdict.Exhausted?)
    ensures verdict.Verified? <==>
      config.pin == "" || exists i :: 0 <= i < |entered| && i < config.maxTries as nat && entered[i] == config.pin
  {
    var notices;
    verdict, taken, notices := VerifyPin(config, false, entered);
    outcome, sent := HandlePin(entered, AsReplies(notices) + (if verdict.Verified? then [Granted] else []));
    Lockstep(config, entered);
    VerifiedIff(config, entered);
  }

  /** The verifier accepts if and only if its PIN is empty or one of the first `maxTries` PINs is
      the right one, and it never takes more than `maxTries`. */
  lemma VerifiedIff(config: PinConfig, entered: seq<string>)
    ensures Outcome(config, entered).Verified?
      <==> config.pin == "" || exists i :: 0 <= i < |entered| && i < config.maxTries as nat && entered[i] == config.pin
    ensures Taken(config, entered) <= config.maxTries as nat <= 255
  {
  }
}
