/** The daily sweep of expired join tokens is invisible: a run with sweeps anywhere in it and
    the same run without them commit the same previews and joins with the same answers. */
module CloudSweepInvisible {
  import opened Common
  import opened CloudStore
  import opened CloudRun
  import opened CloudTokens

  predicate IsTokenSweep(e: Event) {
    e.QueryExpiredTokens? || e.CommitExpiredTokens?
  }

  /** The run with its token sweeps left out. */
  function Unswept(es: seq<Event>): seq<Event> {
    if es == [] then []
    else
      var rest := Unswept(es[..|es| - 1]);
      if IsTokenSweep(es[|es| - 1]) then rest else rest + [es[|es| - 1]]
  }

  /** What the events other than token sweeps were answered, in order. */
  function Replies(w: World, es: seq<Event>): seq<Reply> {
    if es == [] then []
    else
      var rest := Replies(w, es[..|es| - 1]);
      if IsTokenSweep(es[|es| - 1]) then rest
      else rest + [Step(RunTo(w, es[..|es| - 1]), es[|es| - 1]).1]
  }

  /** Two answers that agree, except that a swept token is refused as unknown instead of as
      consumed or expired. */
  predicate SameAnswer(swept: Reply, unswept: Reply) {
    || swept == unswept
    || (swept == Rejected(TokenNotFound) && unswept in {Rejected(TokenConsumed), Rejected(TokenExpired)})
  }

  /** `v` is `w` as it would be without sweeps: it may hold more tokens, all of them expired. */
  ghost predicate Mirrors(w: World, v: World) {
    && v == w.(store := w.store.(tokens := v.store.tokens), expiring := v.expiring)
    && (forall t :: t in w.store.tokens ==> t in v.store.tokens && w.store.tokens[t] == v.store.tokens[t])
    && (forall t :: t in v.store.tokens && t !in w.store.tokens ==> v.store.tokens[t].expiresAt <= v.clock)
  }

  /** Every id in a batch awaiting its commit belongs to a token that has expired. */
  ghost predicate BatchesExpired(w: World) {
    forall ids, t :: ids in w.expiring && t in ids ==>
      t in w.issued && t !in w.minting && (t in w.store.tokens ==> w.store.tokens[t].expiresAt <= w.clock)
  }

  lemma BatchesExpiredStep(w: World, e: Event)
    requires TokensInv(w) && BatchesExpired(w)
    ensures BatchesExpired(Next(w, e))
  {
    if e.JoinNetwork? {
      TokensAfterJoin(w.store, e.uid, e.joinInput, w.clock);
    } else if TouchesDocuments(e) {
      DocumentStepsKeepTokens(w, e);
    }
  }

  lemma TokenSweepMirrors(w: World, v: World, e: Event)
    requires TokensInv(w) && BatchesExpired(w) && Mirrors(w, v) && IsTokenSweep(e)
    ensures Mirrors(Next(w, e), v)
  {
  }

  /** A token lookup succeeds on both sides with the same token, or on neither. */
  lemma LookupMirrors(w: World, v: World, t: TokenId)
    requires Mirrors(w, v)
    ensures var a, b := LookupToken(w.store, t, w.clock), LookupToken(v.store, t, v.clock);
      if a.Ok? then a == b else b.Err? && SameAnswer(Rejected(a.error), Rejected(b.error))
  {
  }

  /** Apart from the token itself, a move neither reads nor writes any token. */
  lemma MoveIgnoresTokens(s: Store, tokens: map<TokenId, JoinTokenDoc>, source: Uid, target: Uid, input: JoinInput,
                          now: Millis)
    ensures MoveDevice(s.(tokens := tokens), source, target, input, now)
      == (MoveDevice(s, source, target, input, now).0.(tokens := tokens), MoveDevice(s, source, target, input, now).1)
  {
  }

  /** A join of a token both sides know has the same effect on the documents and the token. */
  lemma JoinIgnoresTokens(s: Store, tokens: map<TokenId, JoinTokenDoc>, uid: Uid, input: JoinInput, now: Millis)
    requires LookupToken(s, input.tokenId, now).Ok?
    requires input.tokenId in tokens && tokens[input.tokenId] == s.tokens[input.tokenId]
    ensures var (s', r) := JoinNetworkTx(s, uid, input, now);
      var used := tokens[input.tokenId := tokens[input.tokenId].(consumedAt := Some(now))];
      JoinNetworkTx(s.(tokens := tokens), uid, input, now) == (s'.(tokens := if r.Joined? then used else tokens), r)
  {
    hide MoveDevice;
    MoveIgnoresTokens(s, tokens, uid, s.tokens[input.tokenId].accountId, input, now);
  }

  lemma JoinMirrors(w: World, v: World, uid: Uid, input: JoinInput)
    requires Mirrors(w, v)
    ensures Mirrors(Next(w, JoinNetwork(uid, input)), Next(v, JoinNetwork(uid, input)))
    ensures SameAnswer(Step(w, JoinNetwork(uid, input)).1, Step(v, JoinNetwork(uid, input)).1)
  {
    LookupMirrors(w, v, input.tokenId);
    if LookupToken(w.store, input.tokenId, w.clock).Ok? {
      hide JoinNetworkTx;
      JoinIgnoresTokens(w.store, v.store.tokens, uid, input, w.clock);
      TokensAfterJoin(w.store, uid, input, w.clock);
    } else {
      RefusedJoin(w, uid, input);
      RefusedJoin(v, uid, input);
    }
  }

  lemma RefusedJoin(w: World, uid: Uid, input: JoinInput)
    requires LookupToken(w.store, input.tokenId, w.clock).Err?
    ensures Next(w, JoinNetwork(uid, input)) == w
    ensures Step(w, JoinNetwork(uid, input)).1 == Rejected(LookupToken(w.store, input.tokenId, w.clock).error)
  {
    hide MoveDevice;
  }

  lemma PreviewMirrors(w: World, v: World, t: TokenId)
    requires Mirrors(w, v)
    ensures SameAnswer(Step(w, PreviewToken(t)).1, Step(v, PreviewToken(t)).1)
  {
    LookupMirrors(w, v, t);
    assert forall u :: Group(w.store, u) == Group(v.store, u);
  }

  /** The event has the same effect in both worlds, and neither reads nor writes a token. */
  ghost predicate IgnoresTokens(w: World, v: World, e: Event) {
    && Next(v, e) == Next(w, e).(store := Next(w, e).store.(tokens := v.store.tokens), expiring := v.expiring)
    && Step(w, e).1 == Step(v, e).1
  }

  lemma AccountStepsIgnoreTokens(w: World, v: World, uid: Uid, device: DeviceId, patch: Patch)
    requires Mirrors(w, v)
    ensures IgnoresTokens(w, v, CreateAccount(uid)) && IgnoresTokens(w, v, PatchDevice(uid, device, patch))
  {
  }

  lemma RemoveTxIgnoresTokens(s: Store, tokens: map<TokenId, JoinTokenDoc>, uid: Uid, device: DeviceId, now: Millis)
    ensures RemoveDeviceTx(s.(tokens := tokens), uid, device, now)
      == (RemoveDeviceTx(s, uid, device, now).0.(tokens := tokens), RemoveDeviceTx(s, uid, device, now).1)
  {
  }

  lemma RemovalIgnoresTokens(w: World, v: World, uid: Uid, device: DeviceId)
    requires Mirrors(w, v)
    ensures IgnoresTokens(w, v, RemoveDevice(uid, device))
  {
    RemoveTxIgnoresTokens(w.store, v.store.tokens, uid, device, w.clock);
    assert v.store == w.store.(tokens := v.store.tokens);
    hide RemoveDeviceTx;
  }

  lemma DeviceStepsIgnoreTokens(w: World, v: World, uid: Uid, input: RegisterInput, source: DeviceId, target: DeviceId)
    requires Mirrors(w, v)
    ensures IgnoresTokens(w, v, RegisterDevice(uid, input)) && IgnoresTokens(w, v, NotifyTransfer(uid, source, target))
  {
  }

  lemma SweepsIgnoreTokens(w: World, v: World, sweep: Sweep)
    requires Mirrors(w, v)
    ensures IgnoresTokens(w, v, RunSweep(sweep))
  {
    assert forall u :: Group(w.store, u) == Group(v.store, u);
  }

  /** No document transaction or sweep other than a join reads or writes a token. */
  lemma DocumentStepsIgnoreTokens(w: World, v: World, e: Event)
    requires Mirrors(w, v) && TouchesDocuments(e) && !e.JoinNetwork?
    ensures Mirrors(Next(w, e), Next(v, e)) && Step(w, e).1 == Step(v, e).1
  {
    hide Step;
    match e {
      case CreateAccount(uid) => AccountStepsIgnoreTokens(w, v, uid, "", Rename(""));
      case PatchDevice(uid, device, patch) => AccountStepsIgnoreTokens(w, v, uid, device, patch);
      case RemoveDevice(uid, device) => RemovalIgnoresTokens(w, v, uid, device);
      case RegisterDevice(uid, input) => DeviceStepsIgnoreTokens(w, v, uid, input, "", "");
      case NotifyTransfer(uid, source, target) =>
        DeviceStepsIgnoreTokens(w, v, uid, RegisterInput("", "", "", None, "", None), source, target);
      case RunSweep(sweep) => SweepsIgnoreTokens(w, v, sweep);
    }
    DocumentStepsKeepTokens(w, e);
    DocumentStepsKeepTokens(v, e);
  }

  /** The simulation: any other event keeps the two worlds alike and is answered alike. */
  lemma StepMirrors(w: World, v: World, e: Event)
    requires Mirrors(w, v) && !IsTokenSweep(e)
    ensures Mirrors(Next(w, e), Next(v, e)) && SameAnswer(Step(w, e).1, Step(v, e).1)
  {
    match e
    case JoinNetwork(uid, input) => JoinMirrors(w, v, uid, input);
    case PreviewToken(t) => PreviewMirrors(w, v, t);
    case _ => if TouchesDocuments(e) { DocumentStepsIgnoreTokens(w, v, e); } else { OtherStepsMirror(w, v, e); }
  }

  lemma OtherStepsMirror(w: World, v: World, e: Event)
    requires Mirrors(w, v) && !IsTokenSweep(e) && !TouchesDocuments(e) && !e.PreviewToken?
    ensures Mirrors(Next(w, e), Next(v, e)) && Step(w, e).1 == Step(v, e).1
  {
  }

  /** Main result: leaving the token sweeps out of a run changes no answer, apart from the
      reason given for refusing a dead token, and leaves a store that differs at most in
      expired tokens. */
  lemma {:induction false} SweepInvisible(clock: Millis, es: seq<Event>)
    ensures Mirrors(RunTo(Start(clock), es), RunTo(Start(clock), Unswept(es)))
    ensures |Replies(Start(clock), es)| == |Replies(Start(clock), Unswept(es))|
    ensures forall i :: 0 <= i < |Replies(Start(clock), es)| ==>
      SameAnswer(Replies(Start(clock), es)[i], Replies(Start(clock), Unswept(es))[i])
    ensures BatchesExpired(RunTo(Start(clock), es))
  {
    if es != [] {
      var before, e := es[..|es| - 1], es[|es| - 1];
      var w, v := RunTo(Start(clock), before), RunTo(Start(clock), Unswept(before));
      SweepInvisible(clock, before);
      TokensInvAlways(clock, before);
      BatchesExpiredStep(w, e);
      if IsTokenSweep(e) {
        TokenSweepMirrors(w, v, e);
      } else {
        StepMirrors(w, v, e);
        RunToThen(Start(clock), Unswept(before), e);
        assert Unswept(es)[..|Unswept(es)| - 1] == Unswept(before);
      }
    }
  }
}
