/**
 * The stream adapter of stream.go: a pull cursor over one upstream response.
 *
 * The pure part is `Step`, one call of Next on an explicit state, and `Run`,
 * a sequence of calls; the lemmas about them state the stream's guarantees.
 * The class `Stream` has the source's fields and its `Next` is proved to
 * perform exactly `Step`.
 */
module CopilotStream {
  import opened Api
  import opened UpstreamErrors

  const ChunkObject := "chat.completion.chunk"
  const ResponseObject := "chat.completion"

  /** normalizeChunk: fill the object kind and the creation time when upstream left them empty. */
  function NormalizeChunk(chunk: Chunk, now: int): (r: Chunk)
    ensures r.objectKind != ""
    ensures chunk.objectKind != "" ==> r.objectKind == chunk.objectKind
    ensures chunk.objectKind == "" ==> r.objectKind == ChunkObject
    ensures chunk.created != 0 ==> r.created == chunk.created
    ensures chunk.created == 0 ==> r.created == now
    ensures r.(objectKind := chunk.objectKind, created := chunk.created) == chunk
  {
    var c := if chunk.objectKind == "" then chunk.(objectKind := ChunkObject) else chunk;
    if c.created == 0 then c.(created := now) else c
  }

  /** normalizeResponse: the same for the non-streaming response. */
  function NormalizeResponse(resp: Response, now: int): (r: Response)
    ensures r.objectKind != ""
    ensures resp.objectKind != "" ==> r.objectKind == resp.objectKind
    ensures resp.objectKind == "" ==> r.objectKind == ResponseObject
    ensures resp.created != 0 ==> r.created == resp.created
    ensures resp.created == 0 ==> r.created == now
    ensures r.(objectKind := resp.objectKind, created := resp.created) == resp
  {
    var c := if resp.objectKind == "" then resp.(objectKind := ResponseObject) else resp;
    if c.created == 0 then c.(created := now) else c
  }

  /** Normalizing twice is normalizing once, whatever the second clock reading. */
  lemma NormalizeIdempotent(chunk: Chunk, resp: Response, now: int, later: int)
    requires now != 0
    ensures NormalizeChunk(NormalizeChunk(chunk, now), later) == NormalizeChunk(chunk, now)
    ensures NormalizeResponse(NormalizeResponse(resp, now), later) == NormalizeResponse(resp, now)
  {
  }

  // ----- the state machine, as values -----

  /** What a stream is built from: the upstream response, whether the call streams, and the decoders. */
  datatype StreamSource = StreamSource(resp: HttpResponse, streaming: bool, codec: Codec)

  /** The fields of Stream that Next changes; `pending` is what the event reader has not returned yet. */
  datatype StreamState = StreamState(
    pending: seq<ReadResult>,
    done: bool,
    statusChecked: bool,
    response: Option<Response>,
    err: Option<Error>)

  /** What one call of Next returns: a chunk, io.EOF, or an error. */
  datatype Pull = Yield(chunk: Chunk) | EndOfStream | Failure(error: Error)

  datatype Transition = Transition(next: StreamState, pull: Pull)

  datatype Trace = Trace(last: StreamState, pulls: seq<Pull>)

  /** NewStream: nothing read, nothing checked. */
  function Initial(src: StreamSource): StreamState {
    StreamState(src.resp.events, false, false, None, None)
  }

  /** The states Next can reach from NewStream. */
  ghost predicate Reachable(src: StreamSource, s: StreamState) {
    && (!s.statusChecked ==> s == Initial(src))
    && (s.statusChecked && !s.done ==>
          src.resp.status == StatusOK && src.streaming && s.response == None && s.err == None)
    && (s.response.Some? ==> s.done && s.err == None && src.resp.status == StatusOK && !src.streaming)
    && (s.err.Some? ==> s.done)
  }

  /** A reader result that the streaming loop passes over: an event with empty data or data that does not decode. */
  predicate Skipped(r: ReadResult, codec: Codec) {
    r.Event? && (r.data == "" || codec.chunk(r.data).Err?)
  }

  /** The index of the first reader result the loop does not skip, or the count of results if there is none. */
  function FirstStop(evs: seq<ReadResult>, codec: Codec): (k: nat)
    ensures k <= |evs|
    ensures forall j :: 0 <= j < k ==> Skipped(evs[j], codec)
    ensures k < |evs| ==> !Skipped(evs[k], codec)
    decreases |evs|
  {
    if evs == [] || !Skipped(evs[0], codec) then 0 else 1 + FirstStop(evs[1..], codec)
  }

  /** Where the streaming loop of one Next call stops: a decoded chunk, or the end with the reader's error if any. */
  datatype Scan = Got(chunk: Chunk, rest: seq<ReadResult>) | Ended(error: Option<Error>, rest: seq<ReadResult>)

  /** The streaming loop: read results until one is not skipped; a used-up reader reports io.EOF. */
  function NextEvent(evs: seq<ReadResult>, codec: Codec): (r: Scan)
    ensures var k := FirstStop(evs, codec);
      && r.rest == (if k < |evs| then evs[k + 1..] else [])
      && (r.Got? <==> k < |evs| && evs[k].Event?)
      && (r.Got? ==> codec.chunk(evs[k].data) == Ok(r.chunk))
      && (r.Ended? ==> r.error == if k < |evs| && evs[k].ReadFailure? then Some(evs[k].error) else None)
    decreases |evs|
  {
    if evs == [] then Ended(None, [])
    else match evs[0]
      case EndOfBody => Ended(None, evs[1..])
      case ReadFailure(e) => Ended(Some(e), evs[1..])
      case Event(data) =>
        if data == "" || codec.chunk(data).Err? then NextEvent(evs[1..], codec)
        else Got(codec.chunk(data).value, evs[1..])
  }

  /** readNonStreaming: the body read in full and decoded as one normalized response, or the error met. */
  function NonStreamingResult(src: StreamSource, now: int): (r: Result<Response>)
    ensures r.Ok? <==> src.resp.readError == None && src.codec.response(src.resp.body).Ok?
    ensures r.Ok? ==> r.value == NormalizeResponse(src.codec.response(src.resp.body).value, now)
    ensures src.resp.readError.Some? ==> r == Err(src.resp.readError.value)
    ensures src.resp.readError == None && src.codec.response(src.resp.body).Err? ==>
      r == Err(src.codec.response(src.resp.body).error)
  {
    if src.resp.readError.Some? then Err(src.resp.readError.value)
    else match src.codec.response(src.resp.body)
      case Err(e) => Err(e)
      case Ok(resp) => Ok(NormalizeResponse(resp, now))
  }

  /** The upstream error a non-200 response is turned into. */
  function StatusError(src: StreamSource): (e: Error)
    ensures e.UpstreamError? && e.status == src.resp.status && e.message != ""
  {
    UpstreamError(src.resp.status, ParseUpstreamError(src.resp.body, src.codec.errorBody(src.resp.body)))
  }

  /** One call of Stream.Next at clock reading `now`. */
  function Step(src: StreamSource, s: StreamState, now: int): (r: Transition)
    ensures s.done ==> r == Transition(s, EndOfStream)
    ensures !s.done ==> r.next.statusChecked
    ensures r.pull.Yield? ==> !r.next.done && r.next.err == s.err && r.next.response == s.response
    ensures r.pull.Failure? ==> r.next.done && r.next.err == Some(r.pull.error) && r.next.response == s.response
    ensures !s.done && r.pull.EndOfStream? ==> r.next.done && r.next.err == s.err
    ensures |r.next.pending| <= |s.pending|
  {
    if s.done then Transition(s, EndOfStream)
    else if !s.statusChecked && src.resp.status != StatusOK then
      var e := StatusError(src);
      Transition(s.(statusChecked := true, done := true, err := Some(e)), Failure(e))
    else if !s.statusChecked && !src.streaming then
      match NonStreamingResult(src, now)
      case Ok(resp) => Transition(s.(statusChecked := true, done := true, response := Some(resp)), EndOfStream)
      case Err(e) => Transition(s.(statusChecked := true, done := true, err := Some(e)), Failure(e))
    else
      match NextEvent(s.pending, src.codec)
      case Got(c, rest) => Transition(s.(statusChecked := true, pending := rest), Yield(NormalizeChunk(c, now)))
      case Ended(None, rest) => Transition(s.(statusChecked := true, pending := rest, done := true), EndOfStream)
      case Ended(Some(e), rest) =>
        Transition(s.(statusChecked := true, pending := rest, done := true, err := Some(e)), Failure(e))
  }

  /** Successive calls of Next, one per clock reading. */
  function Run(src: StreamSource, s: StreamState, nows: seq<int>): Trace
    decreases |nows|
  {
    if nows == [] then Trace(s, [])
    else
      var t := Step(src, s, nows[0]);
      var tail := Run(src, t.next, nows[1..]);
      Trace(tail.last, [t.pull] + tail.pulls)
  }

  function Ends(n: nat): seq<Pull> {
    seq(n, _ => EndOfStream)
  }

  /** The pull that ends a stream whose reader stopped with `e`. */
  function Finish(e: Option<Error>): Pull {
    if e.Some? then Failure(e.value) else EndOfStream
  }

  /** The chunks a healthy stream delivers: the decodable non-empty events before the reader's first EOF or error. */
  function Payloads(evs: seq<ReadResult>, codec: Codec): seq<Chunk>
    decreases |evs|
  {
    if evs == [] then []
    else match evs[0]
      case Event(data) =>
        if data != "" && codec.chunk(data).Ok? then [codec.chunk(data).value] + Payloads(evs[1..], codec)
        else Payloads(evs[1..], codec)
      case _ => []
  }

  /** The error of the reader's first terminal result (none for io.EOF or a used-up reader). */
  function Terminal(evs: seq<ReadResult>): Option<Error>
    decreases |evs|
  {
    if evs == [] then None
    else match evs[0]
      case Event(_) => Terminal(evs[1..])
      case EndOfBody => None
      case ReadFailure(e) => Some(e)
  }

  // ----- properties of one call -----

  /** Every call keeps the stream in a reachable state. */
  lemma StepKeepsReachable(src: StreamSource, s: StreamState, now: int)
    requires Reachable(src, s)
    ensures Reachable(src, Step(src, s, now).next)
  {
  }

  /** A call only consumes reader results: what is left is a suffix of what was pending. */
  lemma StepConsumesPrefix(src: StreamSource, s: StreamState, now: int)
    ensures exists k :: 0 <= k <= |s.pending| && Step(src, s, now).next.pending == s.pending[k..]
  {
    var next := Step(src, s, now).next;
    if next.pending == s.pending {
      assert next.pending == s.pending[0..];
    } else {
      var k := FirstStop(s.pending, src.codec);
      var stop := if k < |s.pending| then k + 1 else |s.pending|;
      assert next.pending == NextEvent(s.pending, src.codec).rest == s.pending[stop..];
    }
  }

  /** The status is checked on the first call and never unchecked again. */
  lemma StatusCheckedOnce(src: StreamSource, s: StreamState, now: int)
    ensures s.statusChecked ==> Step(src, s, now).next.statusChecked
    ensures !s.done ==> Step(src, s, now).next.statusChecked
    ensures s.done ==> Step(src, s, now) == Transition(s, EndOfStream)
  {
  }

  /** One scan of the loop, in terms of the stream's whole content. */
  lemma {:induction false} ScanPayloads(evs: seq<ReadResult>, codec: Codec)
    ensures var r := NextEvent(evs, codec);
      && (r.Got? ==> Payloads(evs, codec) == [r.chunk] + Payloads(r.rest, codec) && Terminal(evs) == Terminal(r.rest))
      && (r.Ended? ==> Payloads(evs, codec) == [] && Terminal(evs) == r.error)
    decreases |evs|
  {
    if evs != [] && Skipped(evs[0], codec) {
      ScanPayloads(evs[1..], codec);
    }
  }

  // ----- properties of whole runs -----

  /** Once done, every later Next returns io.EOF and changes nothing. */
  lemma {:induction false} DoneIsFinal(src: StreamSource, s: StreamState, nows: seq<int>)
    requires s.done
    ensures Run(src, s, nows) == Trace(s, Ends(|nows|))
    decreases |nows|
  {
    if nows != [] {
      DoneIsFinal(src, s, nows[1..]);
      assert [EndOfStream] + Ends(|nows| - 1) == Ends(|nows|);
    }
  }

  /**
   * A non-200 response: the first call fails with an upstream error carrying
   * the status and the normalized body, keeps it, and no chunk ever follows.
   */
  lemma NonOkResponse(src: StreamSource, nows: seq<int>)
    requires src.resp.status != StatusOK && |nows| > 0
    ensures var t := Run(src, Initial(src), nows);
      && t.pulls == [Failure(StatusError(src))] + Ends(|nows| - 1)
      && t.last.done && t.last.err == Some(StatusError(src)) && t.last.response == None
  {
    var s1 := Step(src, Initial(src), nows[0]).next;
    DoneIsFinal(src, s1, nows[1..]);
  }

  /**
   * A non-streaming 200 response: the first call finishes the stream and
   * returns io.EOF with the normalized response kept, or returns and keeps
   * the read or decode error with no response; no chunk is ever returned.
   */
  lemma NonStreamingResponse(src: StreamSource, nows: seq<int>)
    requires src.resp.status == StatusOK && !src.streaming && |nows| > 0
    ensures var t := Run(src, Initial(src), nows);
      && t.last.done
      && match NonStreamingResult(src, nows[0])
         case Ok(resp) =>
           && t.pulls == Ends(|nows|) && t.last.response == Some(resp) && t.last.err == None
           && resp.objectKind != "" && (nows[0] != 0 ==> resp.created != 0)
         case Err(e) =>
           t.pulls == [Failure(e)] + Ends(|nows| - 1) && t.last.response == None && t.last.err == Some(e)
  {
    var s1 := Step(src, Initial(src), nows[0]).next;
    DoneIsFinal(src, s1, nows[1..]);
    assert [EndOfStream] + Ends(|nows| - 1) == Ends(|nows|);
  }

  /**
   * A streaming 200 response delivers exactly the decodable non-empty events
   * before the reader's first EOF or error, each normalized, in order; then
   * it ends once, with the reader's error if there was one, and stays ended.
   */
  lemma {:induction false} StreamingRun(src: StreamSource, s: StreamState, nows: seq<int>)
    requires src.resp.status == StatusOK && src.streaming
    requires !s.done && s.err == None && s.response == None
    requires |nows| > |Payloads(s.pending, src.codec)|
    ensures var t := Run(src, s, nows); var p := Payloads(s.pending, src.codec);
      && |t.pulls| == |nows|
      && (forall i :: 0 <= i < |p| ==> t.pulls[i] == Yield(NormalizeChunk(p[i], nows[i])))
      && t.pulls[|p|] == Finish(Terminal(s.pending))
      && (forall i :: |p| < i < |nows| ==> t.pulls[i] == EndOfStream)
      && t.last.done && t.last.err == Terminal(s.pending) && t.last.response == None
    decreases |nows|
  {
    var t1 := Step(src, s, nows[0]);
    ScanPayloads(s.pending, src.codec);
    var tail := Run(src, t1.next, nows[1..]);
    assert Run(src, s, nows) == Trace(tail.last, [t1.pull] + tail.pulls);
    var p := Payloads(s.pending, src.codec);
    match NextEvent(s.pending, src.codec)
    case Got(c, rest) =>
      assert t1.pull == Yield(NormalizeChunk(c, nows[0]));
      assert t1.next == s.(statusChecked := true, pending := rest);
      assert Payloads(rest, src.codec) == p[1..];
      StreamingRun(src, t1.next, nows[1..]);
    case Ended(e, rest) =>
      assert p == [];
      assert t1 == Transition(s.(statusChecked := true, pending := rest, done := true, err := e), Finish(e));
      DoneIsFinal(src, t1.next, nows[1..]);
  }

  /** The pulls of a run: chunks, then at most one io.EOF or error, then only io.EOF. */
  ghost predicate EndsOnce(pulls: seq<Pull>)
    decreases |pulls|
  {
    pulls == [] || if pulls[0].Yield? then EndsOnce(pulls[1..]) else pulls[1..] == Ends(|pulls| - 1)
  }

  /** The errors a run returned, in order. */
  function Errors(pulls: seq<Pull>): seq<Error>
    decreases |pulls|
  {
    if pulls == [] then []
    else (if pulls[0].Failure? then [pulls[0].error] else []) + Errors(pulls[1..])
  }

  lemma {:induction false} EndsReturnNoError(n: nat)
    ensures Errors(Ends(n)) == []
  {
    if n > 0 {
      assert Ends(n)[1..] == Ends(n - 1);
      EndsReturnNoError(n - 1);
    }
  }

  /**
   * Exactly one terminal condition per stream: chunks, then one io.EOF or
   * error, then only io.EOF; and the errors returned are exactly the error
   * kept in err (none if the stream ended cleanly).
   */
  lemma {:induction false} OneTerminalError(src: StreamSource, s: StreamState, nows: seq<int>)
    requires Reachable(src, s) && s.err == None
    ensures var t := Run(src, s, nows);
      && |t.pulls| == |nows|
      && EndsOnce(t.pulls)
      && Errors(t.pulls) == if t.last.err.Some? then [t.last.err.value] else []
    decreases |nows|
  {
    if nows != [] {
      var t1 := Step(src, s, nows[0]);
      StepKeepsReachable(src, s, nows[0]);
      var tail := Run(src, t1.next, nows[1..]);
      var pulls := [t1.pull] + tail.pulls;
      assert Run(src, s, nows) == Trace(tail.last, pulls);
      assert pulls[1..] == tail.pulls;
      if t1.next.done {
        DoneIsFinal(src, t1.next, nows[1..]);
        EndsReturnNoError(|nows| - 1);
        assert !t1.pull.Yield?;
        assert t1.next.err.Some? <==> t1.pull.Failure?;
        assert t1.pull.Failure? ==> t1.next.err == Some(t1.pull.error);
      } else {
        OneTerminalError(src, t1.next, nows[1..]);
        assert t1.pull.Yield?;
      }
    }
  }

  /** An empty event, then a malformed one, then a good one: one chunk, then io.EOF. */
  lemma SkipsEmptyAndMalformed(src: StreamSource, bad: string, good: string, c: Chunk, now: int, later: int)
    requires src.resp.status == StatusOK && src.streaming
    requires src.resp.events == [Event(""), Event(bad), Event(good)]
    requires bad != "" && src.codec.chunk(bad).Err?
    requires good != "" && src.codec.chunk(good) == Ok(c)
    ensures Run(src, Initial(src), [now, later]).pulls == [Yield(NormalizeChunk(c, now)), EndOfStream]
  {
    var evs := src.resp.events;
    assert evs[1..] == [Event(bad), Event(good)];
    assert evs[1..][1..] == [Event(good)];
    assert evs[1..][1..][1..] == [];
    assert NextEvent(evs[1..][1..], src.codec) == Got(c, []);
    assert NextEvent(evs, src.codec) == Got(c, []);
    var s1 := Step(src, Initial(src), now).next;
    assert s1.pending == [] && !s1.done;
    assert Step(src, s1, later).pull == EndOfStream;
    var nows := [now, later];
    assert nows[1..] == [later] && nows[1..][1..] == [];
    assert Run(src, s1, [later]).pulls == [EndOfStream];
  }

  // ----- the stream object -----

  /** Stream: a single-consumer pull cursor over one upstream response. */
  class Stream {
    const resp: HttpResponse
    const streaming: bool
    const codec: Codec
    /** The results the event reader has not returned yet. */
    var pending: seq<ReadResult>
    var done: bool
    var statusChecked: bool
    var response: Option<Response>
    var err: Option<Error>

    function Source(): StreamSource {
      StreamSource(resp, streaming, codec)
    }

    function State(): StreamState
      reads this
    {
      StreamState(pending, done, statusChecked, response, err)
    }

    ghost predicate Valid()
      reads this
    {
      Reachable(Source(), State())
    }

    /** NewStream. */
    constructor (resp: HttpResponse, streaming: bool, codec: Codec)
      ensures Source() == StreamSource(resp, streaming, codec)
      ensures State() == Initial(Source())
      ensures Valid()
    {
      this.resp := resp;
      this.streaming := streaming;
      this.codec := codec;
      pending := resp.events;
      done := false;
      statusChecked := false;
      response := None;
      err := None;
    }

    /** Stream.Next at clock reading `now`. */
    method Next(now: int) returns (p: Pull)
      requires Valid()
      modifies this
      ensures Valid()
      ensures Transition(State(), p) == Step(Source(), old(State()), now)
    {
      StepKeepsReachable(Source(), State(), now);
      if done {
        return EndOfStream;
      }
      if !statusChecked {
        statusChecked := true;
        if resp.status != StatusOK {
          done := true;
          var e := UpstreamError(resp.status, ParseUpstreamError(resp.body, codec.errorBody(resp.body)));
          err := Some(e);
          return Failure(e);
        }
        if !streaming {
          done := true;
          p := ReadNonStreaming(now);
          return;
        }
      }
      while true
        invariant statusChecked && !done && err == old(err) && response == old(response)
        invariant NextEvent(pending, codec) == NextEvent(old(pending), codec)
        decreases |pending|
      {
        if pending == [] {
          done := true;
          return EndOfStream;
        }
        var event := pending[0];
        pending := pending[1..];
        match event
        case EndOfBody =>
          done := true;
          return EndOfStream;
        case ReadFailure(e) =>
          done := true;
          err := Some(e);
          return Failure(e);
        case Event(data) =>
          if |data| == 0 {
            continue;
          }
          var decoded := codec.chunk(data);
          if decoded.Err? {
            continue;
          }
          return Yield(NormalizeChunk(decoded.value, now));
      }
    }

    /** readNonStreaming: keep the decoded response, or keep and return the error. */
    method ReadNonStreaming(now: int) returns (p: Pull)
      modifies this`err, this`response
      ensures match NonStreamingResult(Source(), now)
        case Ok(r) => response == Some(r) && err == old(err) && p == EndOfStream
        case Err(e) => err == Some(e) && response == old(response) && p == Failure(e)
    {
      if resp.readError.Some? {
        err := resp.readError;
        return Failure(resp.readError.value);
      }
      var decoded := codec.response(resp.body);
      if decoded.Err? {
        err := Some(decoded.error);
        return Failure(decoded.error);
      }
      response := Some(NormalizeResponse(decoded.value, now));
      return EndOfStream;
    }

    /** Stream.Response: the non-streaming result, once read. */
    function Response(): (r: Option<Api.Response>)
      reads this
      ensures Valid() && !done ==> r == None
      ensures Valid() && r.Some? ==> done && err == None && resp.status == StatusOK && !streaming
    {
      response
    }

    /** Stream.Err: the terminal error kept, if any. */
    function Err(): (r: Option<Error>)
      reads this
      ensures Valid() && !done ==> r == None
      ensures Valid() && r.Some? ==> done && response == None
    {
      err
    }
  }
}
