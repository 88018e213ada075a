/**
 * The streaming analysis call: its request, and the read loop that turns the
 * response body into callbacks.
 *
 * The body arrives as a script of reads. Each chunk is given as already-decoded
 * text, so the UTF-8 decoding is left out. JSON parsing is the parameter `parse`,
 * a partial function from a payload to an envelope. Cancellation is an `Aborted`
 * read: aborting the controller makes the pending read reject with an `AbortError`.
 */
module StreamDecoder {
  import opened Wrappers
  import opened Strings
  import opened Browser
  import opened AppraisalTypes
  import ApiClient

  /** One `reader.read()`: a chunk of text, an abort, or a failure of the transport. */
  datatype Read = Chunk(text: string) | Aborted | ReadFailed(message: string)

  /** One call of the caller's callbacks. */
  datatype Callback = OnEvent(event: ThinkingEvent) | OnComplete(result: AnalyzeResponse) | OnError(message: string)

  const DataPrefix := "data: "
  const StreamErrorFallback := "査定エラー"

  /** Which callback a parsed envelope goes to. */
  function Route(e: ThinkingEvent): (c: Callback)
    ensures c.OnComplete? <==> e.eventType == Complete && e.result.Some?
    ensures c.OnComplete? ==> c.result == e.result.value
    ensures c.OnError? <==> e.eventType == Error
    ensures c.OnError? ==> c.message == if Truthy(e.message) then e.message.value else StreamErrorFallback
    ensures c.OnEvent? ==> c.event == e
  {
    match e.eventType
    case Complete => if e.result.Some? then OnComplete(e.result.value) else OnEvent(e)
    case Error => OnError(if Truthy(e.message) then e.message.value else StreamErrorFallback)
    case NodeStart => OnEvent(e)
    case NodeProgress => OnEvent(e)
    case NodeComplete => OnEvent(e)
    case Other => OnEvent(e)
  }

  /** The callbacks one complete line produces: none unless it is a `data: ` line whose payload parses. */
  function DispatchLine(line: string, parse: string -> Option<ThinkingEvent>): (cs: seq<Callback>)
    ensures |cs| <= 1
    ensures |cs| == 1 <==> StartsWith(line, DataPrefix) && parse(line[|DataPrefix|..]).Some?
    ensures |cs| == 1 ==> cs[0] == Route(parse(line[|DataPrefix|..]).value)
  {
    if StartsWith(line, DataPrefix) then
      match parse(line[6..])
      case Some(e) => [Route(e)]
      case None => []
    else []
  }

  /** The callbacks a run of complete lines produces, in order. */
  function DispatchAll(lines: seq<string>, parse: string -> Option<ThinkingEvent>): (cs: seq<Callback>)
    ensures |cs| <= |lines|
  {
    if lines == [] then []
    else DispatchAll(lines[..|lines| - 1], parse) + DispatchLine(lines[|lines| - 1], parse)
  }

  /** Lines are handled one after another, independently of each other. */
  lemma {:induction false} DispatchAllAppend(a: seq<string>, b: seq<string>, parse: string -> Option<ThinkingEvent>)
    ensures DispatchAll(a + b, parse) == DispatchAll(a, parse) + DispatchAll(b, parse)
  {
    if b != [] {
      var b' := b[..|b| - 1];
      DispatchAllAppend(a, b', parse);
      assert (a + b)[..|a + b| - 1] == a + b';
    } else {
      assert a + b == a;
    }
  }

  /** The number of reads before the first one that is not a chunk. */
  function LeadingChunks(script: seq<Read>): (k: nat)
    ensures k <= |script|
    ensures forall j :: 0 <= j < k ==> script[j].Chunk?
    ensures k < |script| ==> !script[k].Chunk?
  {
    if script == [] || !script[0].Chunk? then 0 else 1 + LeadingChunks(script[1..])
  }

  /** The text carried by the chunks in `script`, in order. */
  function Received(script: seq<Read>): (text: string)
    ensures |script| > 0 && script[0].Chunk? ==> StartsWith(text, script[0].text)
  {
    if script == [] then ""
    else
      var last := script[|script| - 1];
      Received(script[..|script| - 1]) + (if last.Chunk? then last.text else "")
  }

  /** Reads that carry no chunk carry no text. */
  lemma {:induction false} NoChunkNoText(script: seq<Read>)
    requires forall j :: 0 <= j < |script| ==> !script[j].Chunk?
    ensures Received(script) == ""
  {
    if script != [] {
      NoChunkNoText(script[..|script| - 1]);
    }
  }

  lemma {:induction false} ReceivedAppend(a: seq<Read>, b: seq<Read>)
    ensures Received(a + b) == Received(a) + Received(b)
  {
    if b == [] {
      assert a + b == a;
    } else {
      ReceivedAppend(a, b[..|b| - 1]);
      assert (a + b)[..|a + b| - 1] == a + b[..|b| - 1];
    }
  }

  /** What ends the read loop: `[OnError]` for a transport failure, nothing for an abort or the end of the body. */
  function Termination(script: seq<Read>): (cs: seq<Callback>)
    ensures cs == [] || (|cs| == 1 && cs[0].OnError?)
  {
    var k := LeadingChunks(script);
    if k < |script| && script[k].ReadFailed? then [OnError(script[k].message)] else []
  }

  /**
   * The callbacks of a whole response body, defined on the received text as a
   * whole: its complete lines, in order, then the termination. The text after
   * the last newline is never dispatched.
   */
  function StreamCallbacks(script: seq<Read>, parse: string -> Option<ThinkingEvent>): (cs: seq<Callback>)
    ensures |cs| <= |CompleteLines(Received(script[..LeadingChunks(script)]))| + 1
    ensures var k := LeadingChunks(script);
      k < |script| && script[k].ReadFailed? ==> |cs| >= 1 && cs[|cs| - 1] == OnError(script[k].message)
  {
    DispatchAll(CompleteLines(Received(script[..LeadingChunks(script)])), parse) + Termination(script)
  }

  /** The text received through read `i` extends the text received before it. */
  lemma {:induction false} ReceivedNext(script: seq<Read>, i: nat)
    requires i < |script| && script[i].Chunk?
    ensures Received(script[..i + 1]) == Received(script[..i]) + script[i].text
  {
    assert script[..i + 1][..i] == script[..i];
  }

  /** One step of the loop: the lines already taken, then the segments of the buffer extended by the chunk. */
  lemma {:induction false} CarryStep(before: string, lines: seq<string>, buffer: string, chunk: string)
    requires Split(before) == lines + [buffer]
    ensures Split(before + chunk) == (lines + CompleteLines(buffer + chunk)) + [Remainder(buffer + chunk)]
  {
    SplitParts(before, lines, buffer);
    SplitAppend(before, chunk);
    SplitIsLinesThenRemainder(buffer + chunk);
  }

  /** The loop invariant carried across read `i`. */
  lemma {:induction false} LoopStep(script: seq<Read>, i: nat, lines: seq<string>, buffer: string)
    requires i < |script| && script[i].Chunk?
    requires Split(Received(script[..i])) == lines + [buffer]
    ensures Split(Received(script[..i + 1]))
         == (lines + CompleteLines(buffer + script[i].text)) + [Remainder(buffer + script[i].text)]
  {
    ReceivedNext(script, i);
    CarryStep(Received(script[..i]), lines, buffer, script[i].text);
  }

  /** The loop stops at the first read that is not a chunk. */
  lemma {:induction false} LeadingChunksIs(script: seq<Read>, i: nat)
    requires i <= |script|
    requires forall j :: 0 <= j < i ==> script[j].Chunk?
    requires i == |script| || !script[i].Chunk?
    ensures LeadingChunks(script) == i
  {
  }

  /** Where the loop stops, the lines it took and the buffer it holds are those of the whole received text. */
  lemma {:induction false} LoopExit(script: seq<Read>, i: nat, lines: seq<string>, buffer: string,
                                    parse: string -> Option<ThinkingEvent>)
    requires i <= |script|
    requires forall j :: 0 <= j < i ==> script[j].Chunk?
    requires i == |script| || !script[i].Chunk?
    requires Split(Received(script[..i])) == lines + [buffer]
    ensures LeadingChunks(script) == i
    ensures StreamCallbacks(script, parse) == DispatchAll(lines, parse) + Termination(script)
    ensures Termination(script) == if i < |script| && script[i].ReadFailed? then [OnError(script[i].message)] else []
    ensures buffer == Remainder(Received(script[..i])) && IsLine(buffer)
  {
    SplitParts(Received(script[..i]), lines, buffer);
    LeadingChunksIs(script, i);
    CallbacksOfLines(script, lines, parse);
    SplitSegmentsAreLines(Received(script[..i]));
    assert buffer == Split(Received(script[..i]))[|lines|];
  }

  /** The callbacks of a body, given the complete lines of the text it carried. */
  lemma {:induction false} CallbacksOfLines(script: seq<Read>, lines: seq<string>, parse: string -> Option<ThinkingEvent>)
    requires CompleteLines(Received(script[..LeadingChunks(script)])) == lines
    ensures StreamCallbacks(script, parse) == DispatchAll(lines, parse) + Termination(script)
  {
  }

  /**
   * The body of the read loop for one chunk: append it to the carried buffer,
   * split on newlines, keep the last segment, and dispatch the others in order.
   */
  method ConsumeChunk(buffer: string, chunk: string, parse: string -> Option<ThinkingEvent>)
    returns (calls: seq<Callback>, rest: string)
    ensures calls == DispatchAll(CompleteLines(buffer + chunk), parse)
    ensures rest == Remainder(buffer + chunk)
  {
    var parts := Split(buffer + chunk);
    rest := parts[|parts| - 1];
    calls := [];
    var k := 0;
    while k < |parts| - 1
      invariant 0 <= k <= |parts| - 1
      invariant calls == DispatchAll(parts[..k], parse)
    {
      assert parts[..k + 1][..k] == parts[..k];
      calls := calls + DispatchLine(parts[k], parse);
      k := k + 1;
    }
  }

  /**
   * The read loop of `analyzeImageStream`: carry the text after the last
   * newline, and dispatch every complete line as soon as its chunk arrives.
   * Whatever chunk boundaries the transport chose, the callbacks are those of
   * the received text as a whole, and the carried buffer is its last segment.
   */
  method DecodeStream(script: seq<Read>, parse: string -> Option<ThinkingEvent>) returns (calls: seq<Callback>, buffer: string)
    ensures calls == StreamCallbacks(script, parse)
    ensures buffer == Remainder(Received(script[..LeadingChunks(script)]))
    ensures IsLine(buffer)
  {
    buffer := "";
    calls := [];
    ghost var lines: seq<string> := [];
    var i := 0;
    assert script[..0] == [];
    while i < |script| && script[i].Chunk?
      invariant 0 <= i <= |script|
      invariant forall j :: 0 <= j < i ==> script[j].Chunk?
      invariant Split(Received(script[..i])) == lines + [buffer]
      invariant calls == DispatchAll(lines, parse)
    {
      ghost var complete := CompleteLines(buffer + script[i].text);
      LoopStep(script, i, lines, buffer);
      DispatchAllAppend(lines, complete, parse);
      var more;
      more, buffer := ConsumeChunk(buffer, script[i].text, parse);
      calls := calls + more;
      lines := lines + complete;
      i := i + 1;
    }
    LoopExit(script, i, lines, buffer, parse);
    if i < |script| && script[i].ReadFailed? {
      calls := calls + [OnError(script[i].message)];
    }
  }

  // ---------------------------------------------------------------------------
  // properties of the decoded stream

  /** Two bodies that carry the same text in different chunks, and end the same way, give the same callbacks. */
  lemma {:induction false} ChunkBoundariesIrrelevant(a1: seq<Read>, a2: seq<Read>, end: seq<Read>, parse: string -> Option<ThinkingEvent>)
    requires forall j :: 0 <= j < |a1| ==> a1[j].Chunk?
    requires forall j :: 0 <= j < |a2| ==> a2[j].Chunk?
    requires end == [] || !end[0].Chunk?
    requires Received(a1) == Received(a2)
    ensures StreamCallbacks(a1 + end, parse) == StreamCallbacks(a2 + end, parse)
  {
    LeadingOfChunksThenEnd(a1, end);
    LeadingOfChunksThenEnd(a2, end);
  }

  lemma {:induction false} LeadingOfChunksThenEnd(a: seq<Read>, end: seq<Read>)
    requires forall j :: 0 <= j < |a| ==> a[j].Chunk?
    requires end == [] || !end[0].Chunk?
    ensures LeadingChunks(a + end) == |a|
    ensures (a + end)[..|a|] == a
    ensures Termination(a + end) == Termination([] + end)
  {
    var k := LeadingChunks(a + end);
    assert forall j :: 0 <= j < |a| ==> (a + end)[j] == a[j];
    if |a| < |a + end| {
      assert (a + end)[|a|] == end[0];
    }
    assert ([] + end) == end;
  }

  /** Cutting one chunk in two changes nothing the caller sees. */
  lemma {:induction false} SplittingAChunkIsInvisible(before: seq<Read>, text: string, cut: nat, after: seq<Read>,
                                                     parse: string -> Option<ThinkingEvent>)
    requires cut <= |text|
    requires forall j :: 0 <= j < |before| ==> before[j].Chunk?
    ensures var whole := before + [Chunk(text)] + after;
            var pieces := before + [Chunk(text[..cut]), Chunk(text[cut..])] + after;
      StreamCallbacks(pieces, parse) == StreamCallbacks(whole, parse)
  {
    var k := LeadingChunks(after);
    var mid, tail := after[..k], after[k..];
    assert after == mid + tail;
    var w := before + [Chunk(text)] + mid;
    var p := before + [Chunk(text[..cut]), Chunk(text[cut..])] + mid;
    assert before + [Chunk(text)] + after == w + tail;
    assert before + [Chunk(text[..cut]), Chunk(text[cut..])] + after == p + tail;
    assert forall j :: 0 <= j < |w| ==> w[j].Chunk?;
    assert forall j :: 0 <= j < |p| ==> p[j].Chunk?;
    ReceivedOfCutChunk(before, text, cut, mid);
    ChunkBoundariesIrrelevant(p, w, tail, parse);
  }

  lemma {:induction false} ReceivedOfCutChunk(before: seq<Read>, text: string, cut: nat, mid: seq<Read>)
    requires cut <= |text|
    ensures Received(before + [Chunk(text[..cut]), Chunk(text[cut..])] + mid) == Received(before + [Chunk(text)] + mid)
  {
    var first, second := [Chunk(text[..cut])], [Chunk(text[cut..])];
    assert [Chunk(text[..cut]), Chunk(text[cut..])] == first + second;
    ReceivedAppend(first, second);
    ReceivedOne(Chunk(text));
    ReceivedOne(Chunk(text[..cut]));
    ReceivedOne(Chunk(text[cut..]));
    assert text[..cut] + text[cut..] == text;
    ReceivedCongruence(before, first + second, [Chunk(text)], mid);
  }

  /** Reads that carry the same text can replace each other anywhere in a script. */
  lemma {:induction false} ReceivedCongruence(before: seq<Read>, x: seq<Read>, y: seq<Read>, mid: seq<Read>)
    requires Received(x) == Received(y)
    ensures Received(before + x + mid) == Received(before + y + mid)
  {
    ReceivedAppend(before + x, mid);
    ReceivedAppend(before + y, mid);
    ReceivedAppend(before, x);
    ReceivedAppend(before, y);
  }

  /** A single read carries its own text, if it is a chunk. */
  lemma {:induction false} ReceivedOne(r: Read)
    ensures Received([r]) == if r.Chunk? then r.text else ""
  {
    assert [r][..0] == [];
  }

  /** The loop stops at the first read that is not a chunk: nothing after it is consumed. */
  lemma {:induction false} ReadsAfterStopIgnored(script: seq<Read>, rest: seq<Read>, parse: string -> Option<ThinkingEvent>)
    requires LeadingChunks(script) < |script|
    ensures StreamCallbacks(script + rest, parse) == StreamCallbacks(script, parse)
  {
    var k := LeadingChunks(script);
    assert (script + rest)[..k] == script[..k];
    assert (script + rest)[k] == script[k];
    LeadingChunksIs(script + rest, k);
  }

  /** A single line dispatches as that line alone. */
  lemma {:induction false} DispatchOne(line: string, parse: string -> Option<ThinkingEvent>)
    ensures DispatchAll([line], parse) == DispatchLine(line, parse)
  {
    assert [line][..0] == [];
  }

  /** A line that is not a `data: ` frame, or whose payload does not parse, is skipped; later lines still count. */
  lemma {:induction false} MalformedLineSkipped(before: seq<string>, line: string, after: seq<string>, parse: string -> Option<ThinkingEvent>)
    requires !StartsWith(line, DataPrefix) || parse(line[|DataPrefix|..]).None?
    ensures DispatchAll(before + [line] + after, parse) == DispatchAll(before, parse) + DispatchAll(after, parse)
  {
    DispatchAllAppend(before + [line], after, parse);
    DispatchAllAppend(before, [line], parse);
    DispatchOne(line, parse);
  }

  /** An `error` envelope produces one `onError` and does not end the loop: later lines are still dispatched. */
  lemma {:induction false} ErrorEnvelopeDoesNotStop(before: seq<string>, line: string, after: seq<string>, parse: string -> Option<ThinkingEvent>)
    requires StartsWith(line, DataPrefix)
    requires parse(line[|DataPrefix|..]).Some? && parse(line[|DataPrefix|..]).value.eventType == Error
    ensures var e := parse(line[|DataPrefix|..]).value;
      DispatchAll(before + [line] + after, parse)
      == DispatchAll(before, parse)
         + [OnError(if Truthy(e.message) then e.message.value else StreamErrorFallback)]
         + DispatchAll(after, parse)
  {
    DispatchAllAppend(before + [line], after, parse);
    DispatchAllAppend(before, [line], parse);
    assert DispatchAll([line], parse) == DispatchAll([], parse) + DispatchLine(line, parse);
  }

  /** A body delivered in one chunk dispatches the complete lines of that chunk. */
  lemma {:induction false} SingleChunk(text: string, parse: string -> Option<ThinkingEvent>)
    ensures StreamCallbacks([Chunk(text)], parse) == DispatchAll(CompleteLines(text), parse)
  {
    var body := [Chunk(text)];
    LeadingChunksIs(body, 1);
    assert body[..1] == body;
    assert body[..0] == [];
    assert Received(body) == text;
  }

  /** A trailing line with no newline when the body ends is never dispatched. */
  lemma {:induction false} UnterminatedTailIgnored(text: string, tail: string, parse: string -> Option<ThinkingEvent>)
    requires text == [] || text[|text| - 1] == NewLine
    requires IsLine(tail)
    ensures StreamCallbacks([Chunk(text + tail)], parse) == StreamCallbacks([Chunk(text)], parse)
  {
    TerminatedTextLeavesNoRemainder(text);
    SplitAppend(text, tail);
    assert Remainder(text) + tail == tail;
    SplitLine(tail);
    SplitParts(text + tail, CompleteLines(text), tail);
    SingleChunk(text + tail, parse);
    SingleChunk(text, parse);
  }

  /** A body of newline-terminated lines dispatches exactly those lines. */
  lemma {:induction false} FramedBody(lines: seq<string>, parse: string -> Option<ThinkingEvent>)
    requires |lines| >= 1
    requires forall k :: 0 <= k < |lines| ==> IsLine(lines[k])
    ensures StreamCallbacks([Chunk(Join(lines) + [NewLine])], parse) == DispatchAll(lines, parse)
  {
    TerminatedLines(lines);
    SingleChunk(Join(lines) + [NewLine], parse);
  }

  /** Two progress events then a `complete` with a result: two `onEvent` calls, then one `onComplete`. */
  lemma {:induction false} ProgressThenComplete(l1: string, l2: string, l3: string, parse: string -> Option<ThinkingEvent>,
                                                e1: ThinkingEvent, e2: ThinkingEvent, r: AnalyzeResponse)
    requires IsLine(l1) && IsLine(l2) && IsLine(l3)
    requires e1.eventType == NodeStart && e2.eventType == NodeComplete
    requires StartsWith(l1, DataPrefix) && parse(l1[|DataPrefix|..]) == Some(e1)
    requires StartsWith(l2, DataPrefix) && parse(l2[|DataPrefix|..]) == Some(e2)
    requires StartsWith(l3, DataPrefix) && parse(l3[|DataPrefix|..]).Some?
    requires parse(l3[|DataPrefix|..]).value.eventType == Complete && parse(l3[|DataPrefix|..]).value.result == Some(r)
    ensures StreamCallbacks([Chunk(Join([l1, l2, l3]) + [NewLine])], parse) == [OnEvent(e1), OnEvent(e2), OnComplete(r)]
  {
    FramedBody([l1, l2, l3], parse);
    assert [l1, l2, l3][..2] == [l1, l2];
    assert [l1, l2][..1] == [l1];
    assert [l1][..0] == [];
    assert DispatchLine(l1, parse) == [OnEvent(e1)];
    assert DispatchLine(l2, parse) == [OnEvent(e2)];
    assert DispatchLine(l3, parse) == [OnComplete(r)];
    assert DispatchAll([l1], parse) == [OnEvent(e1)];
    assert DispatchAll([l1, l2], parse) == [OnEvent(e1), OnEvent(e2)];
  }

  /** A body holding only an `error` envelope with a message: exactly one `onError` with that message. */
  lemma {:induction false} OnlyAnError(line: string, parse: string -> Option<ThinkingEvent>, message: string)
    requires IsLine(line) && StartsWith(line, DataPrefix) && parse(line[|DataPrefix|..]).Some?
    requires parse(line[|DataPrefix|..]).value.eventType == Error
    requires parse(line[|DataPrefix|..]).value.message == Some(message) && message != ""
    ensures StreamCallbacks([Chunk(Join([line]) + [NewLine])], parse) == [OnError(message)]
  {
    FramedBody([line], parse);
    assert [line][..0] == [];
  }

  // ---------------------------------------------------------------------------
  // the whole streaming call

  const StreamPath := "/api/v1/analyze/stream"

  /** How opening the stream went: `fetch` failed, was aborted, or yielded a response. */
  datatype Opening = OpenFailed(message: string) | OpenAborted | Opened(status: int, hasBody: bool)

  /**
   * `analyzeImageStream(imageBase64, callbacks, userComment)` run to its end:
   * the request it sends and the callbacks it makes. There is no retry on 401,
   * and every failure other than an abort reaches `onError` exactly once.
   */
  method AnalyzeImageStream(imageBase64: string, userComment: Option<string>, userAgent: string,
                            user: Option<Identity>, opening: Opening, script: seq<Read>,
                            parse: string -> Option<ThinkingEvent>)
    returns (request: Request, calls: seq<Callback>)
    ensures request == Request(StreamPath, "POST", ApiClient.RequestHeaders(true, user),
                               Some(ApiClient.AnalysisRequest(imageBase64, userComment, userAgent)))
    ensures opening.OpenFailed? ==> calls == [OnError(opening.message)]
    ensures opening.OpenAborted? ==> calls == []
    ensures opening.Opened? && !IsOk(opening.status) ==> calls == [OnError("HTTP " + IntToDecimal(opening.status))]
    ensures opening.Opened? && IsOk(opening.status) && !opening.hasBody ==> calls == [OnError("No response body")]
    ensures opening.Opened? && IsOk(opening.status) && opening.hasBody ==> calls == StreamCallbacks(script, parse)
  {
    request := Request(StreamPath, "POST", ApiClient.RequestHeaders(true, user),
                       Some(ApiClient.AnalysisRequest(imageBase64, userComment, userAgent)));
    match opening
    case OpenFailed(message) =>
      calls := [OnError(message)];
    case OpenAborted =>
      calls := [];
    case Opened(status, hasBody) =>
      if !IsOk(status) {
        calls := [OnError("HTTP " + IntToDecimal(status))];
      } else if !hasBody {
        calls := [OnError("No response body")];
      } else {
        var buffer;
        calls, buffer := DecodeStream(script, parse);
      }
  }
}
