/** A whole transfer session: the dialogue of the endpoints and then the file phase. */
module TransferSession {
  import opened Common
  import opened Framing
  import opened FileStream
  import opened FileStreamRoundTrip
  import H = Handshake
  import D = HandshakeDialogue
  import O = HandshakeOutcomes
  import W = HandshakeFrames

  function Ids(files: seq<string>): set<string> {
    set id | id in files
  }

  /** The frames in `queue`, received with these tokens and this file list, end well and yield
      the accepted ones of `files`, ids, bytes and order, each answered with what the application
      said about it. */
  ghost predicate Delivers(codec: HeaderCodec, tokens: map<string, string>, offered: seq<string>, queue: seq<Frame>,
                           files: seq<OutFile>, results: seq<UserResult>)
  {
    var r := Receive(codec, tokens, Ids(offered), Idle(results), queue);
    var accepted := Accepted(tokens, files);
    && r.outcome == Finished && r.errors == [] && |r.files| == |r.responses| == |accepted|
    && forall i :: 0 <= i < |accepted| ==>
         && r.files[i].id == accepted[i].id == r.responses[i].id
         && Concat(r.files[i].pieces) == Concat(accepted[i].pieces)
         && Reports(r.responses[i], results, i)
  }

  lemma StreamDelivers(codec: HeaderCodec, tokens: map<string, string>, offered: seq<string>, files: seq<OutFile>,
                       results: seq<UserResult>, behind: seq<Frame>)
    requires Lawful(codec) && tokens.Keys <= Ids(offered) && exists i :: 0 <= i < |files| && files[i].id in tokens
    ensures Delivers(codec, tokens, offered, StreamFrames(codec, tokens, files) + [DELIMITER] + behind, files, results)
  {
    AcceptedIff(tokens, files);
    FilesRoundTrip(codec, tokens, Ids(offered), files, results, behind);
  }

  /** Main result: once the sender streams, in whatever way the endpoints were interleaved and
      whatever was entered, both challenges were passed, the tokens were good, and the receiver,
      working with its own tokens and its own file list, takes in exactly the selected files. */
  lemma SessionDelivers(c: H.Config, es: seq<H.Event>, codec: HeaderCodec, files: seq<OutFile>,
                        results: seq<UserResult>, behind: seq<Frame>)
    requires H.Generated(c) && Lawful(codec) && H.RunTo(c, es).sender.SStreaming?
    requires var tokens := H.RunTo(c, es).sender.tokens;
      tokens.Keys <= Ids(c.files) && exists i :: 0 <= i < |files| && files[i].id in tokens
    ensures D.BothTokensGood(c)
    ensures O.Cleared(c.receiverPin, O.SenderEntries(c, es)) && O.Cleared(c.senderPin, O.ReceiverEntries(c, es))
    ensures var sender, receiver := H.RunTo(c, es).sender, H.RunTo(c, es).receiver;
      var stream := StreamFrames(codec, sender.tokens, files) + [DELIMITER] + behind;
      receiver.RStreaming? && Delivers(codec, receiver.tokens, receiver.files, stream, files, results)
  {
    O.Agreement(c, es);
    O.ConnectedOnlyWithPins(c, es);
    hide H.RunTo;
    StreamDelivers(codec, H.RunTo(c, es).sender.tokens, c.files, files, results, behind);
  }

  /** Main result: the same frame by frame, over one queue: whatever is still on its way to the
      receiver when the sender starts to stream, the receiver reads the files and nothing else
      from it, and the run is one in which both challenges were passed. */
  lemma FrameSessionDelivers(c: H.Config, json: W.Codec, fes: seq<W.FrameEvent>, codec: HeaderCodec,
                             files: seq<OutFile>, results: seq<UserResult>, behind: seq<Frame>)
    returns (es: seq<H.Event>)
    requires H.Generated(c) && W.Lawful(json) && Lawful(codec) && W.FrameRunTo(c, json, fes).sender.SStreaming?
    requires var tokens := W.FrameRunTo(c, json, fes).sender.tokens;
      tokens.Keys <= Ids(c.files) && exists i :: 0 <= i < |files| && files[i].id in tokens
    ensures W.Matches(json.encode, W.FrameRunTo(c, json, fes), H.RunTo(c, es)) && D.BothTokensGood(c)
    ensures O.Cleared(c.receiverPin, O.SenderEntries(c, es)) && O.Cleared(c.senderPin, O.ReceiverEntries(c, es))
    ensures var f := W.FrameRunTo(c, json, fes);
      var queue := f.toReceiver + f.senderOwes + StreamFrames(codec, f.sender.tokens, files) + [DELIMITER] + behind;
      f.receiver.RStreaming? && Delivers(codec, f.receiver.tokens, f.receiver.files, queue, files, results)
  {
    es := W.FrameRunsAreMessageRuns(c, json, fes);
    W.FrameRunsAgree(c, json, fes);
    SessionDelivers(c, es, codec, files, results, behind);
    hide H.RunTo, W.FrameRunTo, Delivers;
    var f := W.FrameRunTo(c, json, fes);
    assert f.toReceiver + f.senderOwes + StreamFrames(codec, f.sender.tokens, files)
      == StreamFrames(codec, f.sender.tokens, files);
  }
}
