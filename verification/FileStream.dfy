/** The file phase of a transfer: the sender's message stream and the receiver loop that
    takes it apart again. */
module FileStream {
  import opened Common
  import opened Framing

  /** The JSON codec of the file header, as far as the stream depends on it. */
  datatype HeaderCodec = HeaderCodec(encode: (string, string) -> Bytes, decode: Bytes -> Option<(string, string)>)

  /** Headers decode to what was encoded, a JSON object has at least its two braces, and the
      delimiter's "0" is no object. */
  ghost predicate Lawful(codec: HeaderCodec) {
    && (forall id, token :: codec.decode(codec.encode(id, token)) == Some((id, token)))
    && (forall id, token :: |codec.encode(id, token)| > 1)
    && codec.decode(DELIMITER.body) == None
  }

  /** A file the application hands to the sender, in whatever pieces it arrives. */
  datatype OutFile = OutFile(id: string, pieces: seq<Bytes>)

  /** A file the receiver hands to the application, in the pieces it received. */
  datatype InFile = InFile(id: string, pieces: seq<Bytes>)

  /** The application's verdict on a received file. */
  datatype UserResult = UserResult(success: bool, error: Option<string>)

  datatype Response = Response(id: string, success: bool, error: Option<string>)

  datatype FileError = FileError(id: string, error: string)

  // ----- sender -----

  function FileFrames(codec: HeaderCodec, token: string, f: OutFile): seq<Frame> {
    [Text(codec.encode(f.id, token))] + Binaries(Chunks(Concat(f.pieces)))
  }

  function StreamFrames(codec: HeaderCodec, tokens: map<string, string>, files: seq<OutFile>): seq<Frame> {
    if files == [] then []
    else
      var before := StreamFrames(codec, tokens, files[..|files| - 1]);
      var f := files[|files| - 1];
      if f.id in tokens then before + FileFrames(codec, tokens[f.id], f) else before
  }

  /** The files whose id has a token, in order. */
  function Accepted(tokens: map<string, string>, files: seq<OutFile>): seq<OutFile> {
    if files == [] then []
    else
      var before := Accepted(tokens, files[..|files| - 1]);
      if files[|files| - 1].id in tokens then before + [files[|files| - 1]] else before
  }

  function Unaccepted(tokens: map<string, string>, files: seq<OutFile>): seq<FileError> {
    if files == [] then []
    else
      var before := Unaccepted(tokens, files[..|files| - 1]);
      var f := files[|files| - 1];
      if f.id in tokens then before else before + [FileError(f.id, "Failed to get file token")]
  }

  /** The sending loop: one header and the file's chunks for each file that has a token, an
      error for each that has none, and the delimiter at the end. */
  method SendFiles(codec: HeaderCodec, tokens: map<string, string>, files: seq<OutFile>)
    returns (sent: seq<Frame>, errors: seq<FileError>)
    ensures sent == StreamFrames(codec, tokens, files) + [Text([48])]
    ensures errors == Unaccepted(tokens, files)
  {
    sent, errors := [], [];
    for i := 0 to |files|
      invariant sent == StreamFrames(codec, tokens, files[..i])
      invariant errors == Unaccepted(tokens, files[..i])
    {
      var f := files[i];
      assert files[..i + 1][..i] == files[..i];
      if f.id !in tokens {
        errors := errors + [FileError(f.id, "Failed to get file token")];
      } else {
        var chunks := ProcessInChunks(f.pieces);
        sent := sent + ([Text(codec.encode(f.id, tokens[f.id]))] + Binaries(chunks));
      }
    }
    assert files[..|files|] == files;
    sent := sent + [DELIMITER];
  }

  // ----- receiver -----

  datatype Outcome = Receiving | Finished | Failed

  /** What the receiver loop keeps and has produced; `open` says whether the last of `files` is
      still being received. */
  datatype Receiver = Receiver(
    open: bool,
    files: seq<InFile>,
    results: seq<UserResult>,
    responses: seq<Response>,
    errors: seq<FileError>,
    outcome: Outcome)

  /** The error text of the application's next verdict, if it is one. */
  function Verdict(results: seq<UserResult>): Option<string> {
    if results == [] then Some("Failed to receive file result")
    else if results[0].success then None
    else Some(if results[0].error.Some? then results[0].error.value else "Unknown error")
  }

  function Rest(results: seq<UserResult>): seq<UserResult> {
    if results == [] then [] else results[1..]
  }

  /** A text message ends the open file: its verdict is awaited and reported back. */
  function CloseFile(r: Receiver): Receiver {
    if !r.open || r.files == [] then r.(open := false)
    else
      var error := Verdict(r.results);
      r.(open := false, results := Rest(r.results),
         responses := r.responses + [Response(r.files[|r.files| - 1].id, error.None?, error)])
  }

  /** A header opens a file if its id and token were handed out and its size is known. */
  function OpenFile(codec: HeaderCodec, tokens: map<string, string>, offered: set<string>, r: Receiver,
                    body: Bytes): Receiver {
    match codec.decode(body)
    case None => r.(outcome := Failed)
    case Some((id, token)) =>
      if id !in tokens then r.(errors := r.errors + [FileError(id, "File not found")])
      else if token != tokens[id] then r.(errors := r.errors + [FileError(id, "Invalid token")])
      else if id !in offered then r.(errors := r.errors + [FileError(id, "Expected size to be available")])
      else r.(open := true, files := r.files + [InFile(id, [])])
  }

  function AddPiece(files: seq<InFile>, data: Bytes): seq<InFile>
    requires files != []
  {
    var last := files[|files| - 1];
    files[|files| - 1 := InFile(last.id, last.pieces + [data])]
  }

  function OnFrame(codec: HeaderCodec, tokens: map<string, string>, offered: set<string>, r: Receiver,
                   frame: Frame): Receiver {
    match frame
    case Text(body) =>
      if r.open && IsDelimiter(frame) then CloseFile(r).(outcome := Finished)
      else OpenFile(codec, tokens, offered, CloseFile(r), body)
    case Binary(data) =>
      if r.open && r.files != [] then r.(files := AddPiece(r.files, data))
      else r.(errors := r.errors + [FileError("unknown", "Received binary data without a header")])
  }

  /** The loop over a whole message stream; it stops early when it finishes or fails. */
  function Receive(codec: HeaderCodec, tokens: map<string, string>, offered: set<string>, r: Receiver,
                   frames: seq<Frame>): Receiver
    decreases |frames|
  {
    if frames == [] || !r.outcome.Receiving? then r
    else Receive(codec, tokens, offered, OnFrame(codec, tokens, offered, r, frames[0]), frames[1..])
  }

  function Idle(results: seq<UserResult>): Receiver {
    Receiver(false, [], results, [], [], Receiving)
  }

  /** The receiver loop as it runs, its variables updated in place. */
  method ReceiveFiles(codec: HeaderCodec, tokens: map<string, string>, offered: set<string>,
                      results: seq<UserResult>, frames: seq<Frame>)
    returns (files: seq<InFile>, responses: seq<Response>, errors: seq<FileError>, outcome: Outcome)
    ensures var r := Receive(codec, tokens, offered, Idle(results), frames);
      (files, responses, errors, outcome) == (r.files, r.responses, r.errors, r.outcome)
  {
    files, responses, errors, outcome := [], [], [], Receiving;
    var fileState: Option<string> := None;
    var verdicts := results;
    var i := 0;
    assert frames[0..] == frames;
    while i < |frames| && outcome.Receiving?
      invariant 0 <= i <= |frames|
      invariant fileState.Some? ==> files != [] && files[|files| - 1].id == fileState.value
      invariant Receive(codec, tokens, offered, Receiver(fileState.Some?, files, verdicts, responses, errors, outcome),
                        frames[i..])
        == Receive(codec, tokens, offered, Idle(results), frames)
      decreases |frames| - i
    {
      var msg := frames[i];
      ghost var before := Receiver(fileState.Some?, files, verdicts, responses, errors, outcome);
      assert frames[i..][0] == msg && frames[i..][1..] == frames[i + 1..];
      i := i + 1;
      if msg.Text? {
        var last := fileState;
        fileState := None;
        if last.Some? {
          var error := Verdict(verdicts);
          verdicts := Rest(verdicts);
          responses := responses + [Response(last.value, error.None?, error)];
        }
        if last.Some? && IsDelimiter(msg) {
          outcome := Finished;
        } else {
          var header := codec.decode(msg.body);
          if header.None? {
            outcome := Failed;
          } else {
            var (id, token) := header.value;
            if id !in tokens {
              errors := errors + [FileError(id, "File not found")];
            } else if token != tokens[id] {
              errors := errors + [FileError(id, "Invalid token")];
            } else if id !in offered {
              errors := errors + [FileError(id, "Expected size to be available")];
            } else {
              fileState := Some(id);
              files := files + [InFile(id, [])];
            }
          }
        }
      } else if fileState.Some? {
        var open := files[|files| - 1];
        files := files[|files| - 1 := InFile(open.id, open.pieces + [msg.data])];
      } else {
        errors := errors + [FileError("unknown", "Received binary data without a header")];
      }
      assert Receiver(fileState.Some?, files, verdicts, responses, errors, outcome)
          == OnFrame(codec, tokens, offered, before, msg);
    }
  }
}

/** The file phase end to end. */
module FileStreamRoundTrip {
  import opened Common
  import opened Framing
  import opened FileStream

  lemma {:induction false} ReceiveAppend(codec: HeaderCodec, tokens: map<string, string>, offered: set<string>,
                                         r: Receiver, a: seq<Frame>, b: seq<Frame>)
    ensures Receive(codec, tokens, offered, r, a + b)
      == Receive(codec, tokens, offered, Receive(codec, tokens, offered, r, a), b)
    decreases |a|
  {
    if a == [] {
      assert a + b == b;
    } else if r.outcome.Receiving? {
      assert (a + b)[1..] == a[1..] + b;
      ReceiveAppend(codec, tokens, offered, OnFrame(codec, tokens, offered, r, a[0]), a[1..], b);
    }
  }

  /** What the receiver makes of the accepted files: same ids, chunked contents. */
  function Arrived(accepted: seq<OutFile>): (r: seq<InFile>)
    ensures |r| == |accepted|
    ensures forall i :: 0 <= i < |r| ==> r[i] == InFile(accepted[i].id, Chunks(Concat(accepted[i].pieces)))
  {
    seq(|accepted|, i requires 0 <= i < |accepted| => InFile(accepted[i].id, Chunks(Concat(accepted[i].pieces))))
  }

  function ErrorAt(results: seq<UserResult>, i: nat): Option<string> {
    Verdict(if i < |results| then results[i..] else [])
  }

  /** One response for each of the first `n` files, in order, with the application's verdicts. */
  function Answers(accepted: seq<OutFile>, results: seq<UserResult>, n: nat): (r: seq<Response>)
    requires n <= |accepted|
    ensures |r| == n
    ensures forall i :: 0 <= i < n ==> r[i] == Response(accepted[i].id, ErrorAt(results, i).None?, ErrorAt(results, i))
  {
    seq(n, i requires 0 <= i < n => Response(accepted[i].id, ErrorAt(results, i).None?, ErrorAt(results, i)))
  }

  function After(results: seq<UserResult>, n: nat): seq<UserResult> {
    if n < |results| then results[n..] else []
  }

  /** The receiver once the frames of `accepted` are in: all files there, the last one open,
      every other one answered. */
  function Midway(accepted: seq<OutFile>, results: seq<UserResult>): Receiver {
    if accepted == [] then Idle(results)
    else Receiver(true, Arrived(accepted), After(results, |accepted| - 1), Answers(accepted, results, |accepted| - 1),
                  [], Receiving)
  }

  /** Receiving the chunks of an open file appends them to it. */
  lemma {:induction false} ReceiveChunks(codec: HeaderCodec, tokens: map<string, string>, offered: set<string>,
                                         r: Receiver, id: string, had: seq<Bytes>, chunks: seq<Bytes>,
                                         before: seq<InFile>)
    requires r.open && r.outcome.Receiving? && r.files == before + [InFile(id, had)]
    ensures Receive(codec, tokens, offered, r, Binaries(chunks)) == r.(files := before + [InFile(id, had + chunks)])
    decreases |chunks|
  {
    if chunks == [] {
      assert had + chunks == had;
    } else {
      var r' := OnFrame(codec, tokens, offered, r, Binary(chunks[0]));
      assert r'.files == before + [InFile(id, had + [chunks[0]])];
      ReceiveChunks(codec, tokens, offered, r', id, had + [chunks[0]], chunks[1..], before);
      assert Binaries(chunks)[1..] == Binaries(chunks[1..]);
      assert had + [chunks[0]] + chunks[1..] == had + chunks;
    }
  }

  /** The verdict taken at the end of the `n`-th file is the `n`-th one. */
  lemma VerdictInOrder(results: seq<UserResult>, n: nat)
    ensures Verdict(After(results, n)) == ErrorAt(results, n)
    ensures Rest(After(results, n)) == After(results, n + 1)
  {
  }

  lemma CloseMidway(accepted: seq<OutFile>, results: seq<UserResult>)
    requires accepted != []
    ensures CloseFile(Midway(accepted, results))
      == Receiver(false, Arrived(accepted), After(results, |accepted|), Answers(accepted, results, |accepted|), [],
                  Receiving)
  {
    var n := |accepted| - 1;
    VerdictInOrder(results, n);
    assert Answers(accepted, results, n + 1) == Answers(accepted, results, n)
      + [Response(accepted[n].id, ErrorAt(results, n).None?, ErrorAt(results, n))];
  }

  /** One more accepted file. */
  lemma ReceiveFile(codec: HeaderCodec, tokens: map<string, string>, offered: set<string>,
                    accepted: seq<OutFile>, f: OutFile, results: seq<UserResult>)
    requires Lawful(codec) && f.id in tokens && f.id in offered
    ensures Receive(codec, tokens, offered, Midway(accepted, results), FileFrames(codec, tokens[f.id], f))
      == Midway(accepted + [f], results)
  {
    var header := Text(codec.encode(f.id, tokens[f.id]));
    var chunks := Chunks(Concat(f.pieces));
    var r0 := Midway(accepted, results);
    var r1 := OnFrame(codec, tokens, offered, r0, header);
    assert codec.decode(header.body) == Some((f.id, tokens[f.id])) && !IsDelimiter(header);
    if accepted != [] { CloseMidway(accepted, results); }
    assert r1 == Receiver(true, Arrived(accepted) + [InFile(f.id, [])], After(results, |accepted|),
                          Answers(accepted, results, |accepted|), [], Receiving);
    ReceiveChunks(codec, tokens, offered, r1, f.id, [], chunks, Arrived(accepted));
    assert [] + chunks == chunks;
    assert FileFrames(codec, tokens[f.id], f)[1..] == Binaries(chunks);
    assert Arrived(accepted + [f]) == Arrived(accepted) + [InFile(f.id, chunks)];
    assert Answers(accepted + [f], results, |accepted|) == Answers(accepted, results, |accepted|);
  }

  lemma {:induction false} ReceiveStream(codec: HeaderCodec, tokens: map<string, string>, offered: set<string>,
                                         files: seq<OutFile>, results: seq<UserResult>)
    requires Lawful(codec) && tokens.Keys <= offered
    ensures Receive(codec, tokens, offered, Idle(results), StreamFrames(codec, tokens, files))
      == Midway(Accepted(tokens, files), results)
  {
    if files != [] {
      var before, f := files[..|files| - 1], files[|files| - 1];
      ReceiveStream(codec, tokens, offered, before, results);
      if f.id in tokens {
        ReceiveAppend(codec, tokens, offered, Idle(results), StreamFrames(codec, tokens, before),
                      FileFrames(codec, tokens[f.id], f));
        ReceiveFile(codec, tokens, offered, Accepted(tokens, before), f, results);
      }
    }
  }

  /** The receiver after the whole stream, with anything at all behind the delimiter. */
  function Outcomes(codec: HeaderCodec, tokens: map<string, string>, offered: set<string>,
                    files: seq<OutFile>, results: seq<UserResult>, behind: seq<Frame>): Receiver
  {
    Receive(codec, tokens, offered, Idle(results), StreamFrames(codec, tokens, files) + [DELIMITER] + behind)
  }

  lemma ReachesDelimiter(codec: HeaderCodec, tokens: map<string, string>, offered: set<string>,
                         files: seq<OutFile>, results: seq<UserResult>, behind: seq<Frame>)
    requires Lawful(codec) && tokens.Keys <= offered
    ensures Outcomes(codec, tokens, offered, files, results, behind)
      == OnFrame(codec, tokens, offered, Midway(Accepted(tokens, files), results), DELIMITER)
  {
    var stream := StreamFrames(codec, tokens, files);
    assert stream + [DELIMITER] + behind == stream + ([DELIMITER] + behind);
    ReceiveAppend(codec, tokens, offered, Idle(results), stream, [DELIMITER] + behind);
    ReceiveStream(codec, tokens, offered, files, results);
    assert ([DELIMITER] + behind)[1..] == behind;
  }

  /** The response to file `i` says what the application said about it: success, or a failure with
      the text given; without a verdict of the application it is a failure as well. */
  predicate Reports(response: Response, results: seq<UserResult>, i: nat) {
    if i >= |results| then !response.success && response.error == Some("Failed to receive file result")
    else
      && response.success == results[i].success
      && (results[i].success ==> response.error == None)
      && (!results[i].success && results[i].error.Some? ==> response.error == results[i].error)
      && (!results[i].success && results[i].error.None? ==> response.error == Some("Unknown error"))
  }

  lemma AnswersReport(accepted: seq<OutFile>, results: seq<UserResult>, n: nat, i: nat)
    requires i < n <= |accepted|
    ensures Reports(Answers(accepted, results, n)[i], results, i)
  {
    if i < |results| { assert results[i..][0] == results[i]; }
  }

  /** Main result: for any files in any pieces, at least one of them accepted, the receiver ends
      at the delimiter without an error, holding the accepted files in order, each with its id
      and its bytes, and has answered every one of them exactly once, in order, with the
      application's verdict. Files without a token leave no trace. */
  lemma FilesRoundTrip(codec: HeaderCodec, tokens: map<string, string>, offered: set<string>,
                       files: seq<OutFile>, results: seq<UserResult>, behind: seq<Frame>)
    requires Lawful(codec) && tokens.Keys <= offered && Accepted(tokens, files) != []
    ensures var r := Outcomes(codec, tokens, offered, files, results, behind);
      var accepted := Accepted(tokens, files);
      && r.outcome == Finished && r.errors == []
      && |r.files| == |r.responses| == |accepted|
      && forall i :: 0 <= i < |accepted| ==>
           && r.files[i].id == accepted[i].id == r.responses[i].id
           && Concat(r.files[i].pieces) == Concat(accepted[i].pieces)
           && Reports(r.responses[i], results, i)
  {
    var accepted := Accepted(tokens, files);
    ReachesDelimiter(codec, tokens, offered, files, results, behind);
    CloseMidway(accepted, results);
    forall i | 0 <= i < |accepted|
      ensures Concat(Arrived(accepted)[i].pieces) == Concat(accepted[i].pieces)
      ensures Reports(Answers(accepted, results, |accepted|)[i], results, i)
    {
      ChunksAreChunked(Concat(accepted[i].pieces));
      AnswersReport(accepted, results, |accepted|, i);
    }
  }

  /** The stream ends well if and only if at least one file was accepted: with none, the
      delimiter arrives while no file is open and is taken for a broken header. */
  lemma EndsWellIff(codec: HeaderCodec, tokens: map<string, string>, offered: set<string>,
                    files: seq<OutFile>, results: seq<UserResult>, behind: seq<Frame>)
    requires Lawful(codec) && tokens.Keys <= offered
    ensures Outcomes(codec, tokens, offered, files, results, behind).outcome == Finished
      <==> exists i :: 0 <= i < |files| && files[i].id in tokens
    ensures (forall i :: 0 <= i < |files| ==> files[i].id !in tokens) ==>
      Outcomes(codec, tokens, offered, files, results, behind).outcome == Failed
  {
    AcceptedIff(tokens, files);
    ReachesDelimiter(codec, tokens, offered, files, results, behind);
    if Accepted(tokens, files) != [] { FilesRoundTrip(codec, tokens, offered, files, results, behind); }
  }

  lemma {:induction false} AcceptedIff(tokens: map<string, string>, files: seq<OutFile>)
    ensures Accepted(tokens, files) != [] <==> exists i :: 0 <= i < |files| && files[i].id in tokens
  {
    if files != [] {
      AcceptedIff(tokens, files[..|files| - 1]);
      if files[|files| - 1].id !in tokens {
        assert forall i :: 0 <= i < |files| - 1 ==> files[..|files| - 1][i] == files[i];
      }
    }
  }

  /** The sending loop's errors: one for each file without a token, in order. */
  lemma {:induction false} UnacceptedAreRefused(tokens: map<string, string>, files: seq<OutFile>)
    ensures |Unaccepted(tokens, files)| + |Accepted(tokens, files)| == |files|
    ensures forall f :: f in Accepted(tokens, files) <==> f in files && f.id in tokens
    ensures forall e :: e in Unaccepted(tokens, files) ==> e.id !in tokens && e.error == "Failed to get file token"
    ensures forall f :: f in files && f.id !in tokens ==>
      FileError(f.id, "Failed to get file token") in Unaccepted(tokens, files)
  {
    if files != [] {
      var before, f := files[..|files| - 1], files[|files| - 1];
      UnacceptedAreRefused(tokens, before);
      assert files == before + [f];
    }
  }

  /** What is accepted of two lists of files, one after the other, is accepted in that order. */
  lemma {:induction false} AcceptedInOrder(tokens: map<string, string>, a: seq<OutFile>, b: seq<OutFile>)
    ensures Accepted(tokens, a + b) == Accepted(tokens, a) + Accepted(tokens, b)
    decreases |b|
  {
    if b == [] {
      assert a + b == a && Accepted(tokens, a) + [] == Accepted(tokens, a);
    } else {
      var before, f := b[..|b| - 1], b[|b| - 1];
      AcceptedInOrder(tokens, a, before);
      assert (a + b)[..|a + b| - 1] == a + before && (a + b)[|a + b| - 1] == f;
      Regroup(Accepted(tokens, a), Accepted(tokens, before), [f]);
    }
  }

  /** Both loops run one after the other: the receiver ends without an error with the accepted
      files, and answers each of them with what the application said about it. */
  method Transfer(codec: HeaderCodec, tokens: map<string, string>, offered: set<string>,
                  files: seq<OutFile>, results: seq<UserResult>)
    returns (received: seq<InFile>, responses: seq<Response>, refused: seq<FileError>)
    requires Lawful(codec) && tokens.Keys <= offered && exists i :: 0 <= i < |files| && files[i].id in tokens
    ensures var accepted := Accepted(tokens, files);
      && |received| == |responses| == |accepted| && |refused| == |files| - |accepted|
      && forall i :: 0 <= i < |accepted| ==>
           && received[i].id == accepted[i].id == responses[i].id
           && Concat(received[i].pieces) == Concat(accepted[i].pieces)
           && Reports(responses[i], results, i)
  {
    var sent;
    sent, refused := SendFiles(codec, tokens, files);
    var errors, outcome;
    received, responses, errors, outcome := ReceiveFiles(codec, tokens, offered, results, sent);
    AcceptedIff(tokens, files);
    FilesRoundTrip(codec, tokens, offered, files, results, []);
    UnacceptedAreRefused(tokens, files);
    assert StreamFrames(codec, tokens, files) + [DELIMITER] + [] == StreamFrames(codec, tokens, files) + [DELIMITER];
    assert outcome == Finished && errors == [];
  }
}

/** What the receiver loop makes of any frames at all, well-meant or not. */
module FileStreamSafety {
  import opened Common
  import opened Framing
  import opened FileStream

  /** The frame is a header of this file with the token that was handed out for it. */
  ghost predicate Opens(codec: HeaderCodec, tokens: map<string, string>, frame: Frame, id: string) {
    frame.Text? && id in tokens && codec.decode(frame.body) == Some((id, tokens[id]))
  }

  ghost predicate Entitled(codec: HeaderCodec, tokens: map<string, string>, offered: set<string>,
                           frames: seq<Frame>, id: string)
  {
    id in tokens && id in offered && exists i :: 0 <= i < |frames| && Opens(codec, tokens, frames[i], id)
  }

  /** Text that is no delimiter for an open file is judged as a header: it fails the session if it
      is none, is refused with the reason if its file, its token or its size is not known, and
      opens the file otherwise. */
  lemma HeaderJudged(codec: HeaderCodec, tokens: map<string, string>, offered: set<string>, r: Receiver, body: Bytes)
    requires r.outcome.Receiving? && !(r.open && |body| <= 1)
    ensures var r' := OnFrame(codec, tokens, offered, r, Text(body));
      match codec.decode(body)
      case None => r'.outcome.Failed?
      case Some((id, token)) =>
        if id !in tokens then !r'.open && r'.errors == r.errors + [FileError(id, "File not found")]
        else if token != tokens[id] then !r'.open && r'.errors == r.errors + [FileError(id, "Invalid token")]
        else if id !in offered then !r'.open && r'.errors == r.errors + [FileError(id, "Expected size to be available")]
        else r'.open && r'.errors == r.errors && r'.files == r.files + [InFile(id, [])]
  {
  }

  /** Any text of at most one byte ends the session while a file is open. */
  lemma ShortTextEnds(codec: HeaderCodec, tokens: map<string, string>, offered: set<string>, r: Receiver, body: Bytes)
    requires r.outcome.Receiving? && r.open
    ensures OnFrame(codec, tokens, offered, r, Text(body)).outcome.Finished? <==> |body| <= 1
  {
  }

  /** Binary data is added to the open file, and reported when there is none. */
  lemma BinaryJudged(codec: HeaderCodec, tokens: map<string, string>, offered: set<string>, r: Receiver, data: Bytes)
    requires r.open ==> r.files != []
    ensures var r' := OnFrame(codec, tokens, offered, r, Binary(data));
      if r.open then
        var n := |r.files| - 1;
        r' == r.(files := r.files[..n] + [InFile(r.files[n].id, r.files[n].pieces + [data])])
      else r' == r.(errors := r.errors + [FileError("unknown", "Received binary data without a header")])
  {
  }

  /** Main result: whatever frames arrive, every file the receiver hands to the application is one
      that was offered, for which a token was handed out, and whose header carried that token. */
  lemma {:induction false} OnlyEntitledFiles(codec: HeaderCodec, tokens: map<string, string>, offered: set<string>,
                                             r: Receiver, seen: seq<Frame>, frames: seq<Frame>)
    requires forall f :: f in r.files ==> Entitled(codec, tokens, offered, seen, f.id)
    ensures forall f :: f in Receive(codec, tokens, offered, r, frames).files ==>
      Entitled(codec, tokens, offered, seen + frames, f.id)
    decreases |frames|
  {
    if frames == [] || !r.outcome.Receiving? {
      forall f | f in r.files ensures Entitled(codec, tokens, offered, seen + frames, f.id) {
        EntitledLater(codec, tokens, offered, seen, frames, f.id);
      }
    } else {
      var r' := OnFrame(codec, tokens, offered, r, frames[0]);
      forall f | f in r'.files ensures Entitled(codec, tokens, offered, seen + [frames[0]], f.id) {
        EntitledStep(codec, tokens, offered, r, seen, frames[0], f);
      }
      OnlyEntitledFiles(codec, tokens, offered, r', seen + [frames[0]], frames[1..]);
      assert seen + [frames[0]] + frames[1..] == seen + frames;
    }
  }

  lemma EntitledLater(codec: HeaderCodec, tokens: map<string, string>, offered: set<string>, seen: seq<Frame>,
                      more: seq<Frame>, id: string)
    requires Entitled(codec, tokens, offered, seen, id)
    ensures Entitled(codec, tokens, offered, seen + more, id)
  {
    var i :| 0 <= i < |seen| && Opens(codec, tokens, seen[i], id);
    assert (seen + more)[i] == seen[i];
  }

  lemma EntitledStep(codec: HeaderCodec, tokens: map<string, string>, offered: set<string>, r: Receiver,
                     seen: seq<Frame>, frame: Frame, f: InFile)
    requires forall x :: x in r.files ==> Entitled(codec, tokens, offered, seen, x.id)
    requires f in OnFrame(codec, tokens, offered, r, frame).files
    ensures Entitled(codec, tokens, offered, seen + [frame], f.id)
  {
    if x :| x in r.files && x.id == f.id {
      EntitledLater(codec, tokens, offered, seen, [frame], f.id);
    } else {
      assert (seen + [frame])[|seen|] == frame;
      assert Opens(codec, tokens, frame, f.id);
    }
  }
}
