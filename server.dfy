/** The server object and its read loop, `MCPServer.run`. Reading a line,
    decoding it and writing the response are abstracted: the input is the
    sequence of reads the loop would perform, each one either the empty read
    that ends the stream or a line that decoded (or failed to decode), paired
    with the answer the device would give if handling that line posts to it. */
module Server {
  import opened JsonValues
  import opened Dispatcher

  /** The result of decoding one input line. */
  datatype Parsed = Malformed | Decoded(value: Json)

  /** One read of standard input. */
  datatype Read = EndOfInput | Line(parsed: Parsed, device: HttpOutcome)

  /** What the loop writes for one line: the response, if handling returned
      one that is truthy; nothing for a line that fails to decode or whose
      handling raises (both are caught and only logged). */
  function Emitted(tools: Json, parsed: Parsed, device: HttpOutcome): (out: seq<Json>)
    ensures |out| <= 1
    ensures out != [] ==> parsed.Decoded? && parsed.value.JObject?
                          && IsResponseTo(out[0], IdOf(parsed.value.fields))
    ensures parsed.Decoded? && HandleRequest(tools, parsed.value, device).Returned?
            && HandleRequest(tools, parsed.value, device).response.Some?
            ==> out == [HandleRequest(tools, parsed.value, device).response.value]
    ensures out != [] ==> parsed.Decoded? && HandleRequest(tools, parsed.value, device) == Returned(Some(out[0]))
  {
    match parsed
    case Malformed => []
    case Decoded(request) =>
      ResponsesAreTruthy(tools, request, device);
      match HandleRequest(tools, request, device)
      case Returned(Some(response)) => if Truthy(response) then [response] else []
      case _ => []
  }

  /** Everything the loop writes, in order, for a sequence of reads: it stops
      at the first empty read or when the reads run out. */
  function Transcript(tools: Json, input: seq<Read>): seq<Json>
    decreases |input|
  {
    if input == [] then []
    else match input[0]
      case EndOfInput => []
      case Line(parsed, device) => Emitted(tools, parsed, device) + Transcript(tools, input[1..])
  }

  /** No read in `input` is the empty read. */
  predicate AllLines(input: seq<Read>)
  {
    forall i :: 0 <= i < |input| ==> input[i].Line?
  }

  /** The output of lines read one after the other is the concatenation of
      their outputs: responses come out in input order. */
  lemma {:induction false} TranscriptAppend(tools: Json, a: seq<Read>, b: seq<Read>)
    requires AllLines(a)
    ensures Transcript(tools, a + b) == Transcript(tools, a) + Transcript(tools, b)
    decreases |a|
  {
    if a != [] {
      assert (a + b)[0] == a[0];
      assert (a + b)[1..] == a[1..] + b;
      TranscriptAppend(tools, a[1..], b);
    } else {
      assert a + b == b;
    }
  }

  /** Reads after the first empty read are never looked at. */
  lemma StopsAtEndOfInput(tools: Json, a: seq<Read>, b: seq<Read>)
    requires AllLines(a)
    ensures Transcript(tools, a + [EndOfInput] + b) == Transcript(tools, a)
  {
    TranscriptAppend(tools, a, [EndOfInput] + b);
    assert a + [EndOfInput] + b == a + ([EndOfInput] + b);
  }

  /** A line that writes nothing leaves the rest of the output as it is. */
  lemma SilentLineIsSkipped(tools: Json, a: seq<Read>, line: Read, b: seq<Read>)
    requires AllLines(a) && line.Line?
    requires Emitted(tools, line.parsed, line.device) == []
    ensures Transcript(tools, a + [line] + b) == Transcript(tools, a + b)
  {
    assert ([line] + b)[0] == line && ([line] + b)[1..] == b;
    assert Transcript(tools, [line] + b) == Transcript(tools, b);
    TranscriptAppend(tools, a, [line] + b);
    TranscriptAppend(tools, a, b);
    assert a + [line] + b == a + ([line] + b);
  }

  /** A line that fails to decode writes nothing and does not stop the loop. */
  lemma MalformedLineIsSkipped(tools: Json, a: seq<Read>, device: HttpOutcome, b: seq<Read>)
    requires AllLines(a)
    ensures Transcript(tools, a + [Line(Malformed, device)] + b) == Transcript(tools, a + b)
  {
    SilentLineIsSkipped(tools, a, Line(Malformed, device), b);
  }

  /** A line whose handling raises writes nothing and does not stop the loop. */
  lemma RaisingLineIsSkipped(tools: Json, a: seq<Read>, request: Json, device: HttpOutcome, b: seq<Read>)
    requires AllLines(a)
    requires IsMalformed(request)
    ensures Transcript(tools, a + [Line(Decoded(request), device)] + b) == Transcript(tools, a + b)
  {
    RaisesExactlyOnMalformed(tools, request, device);
    SilentLineIsSkipped(tools, a, Line(Decoded(request), device), b);
  }

  /** A line whose handling returns None (a notification on the fall-through
      path) writes nothing and does not stop the loop. */
  lemma UnansweredLineIsSkipped(tools: Json, a: seq<Read>, request: Json, device: HttpOutcome, b: seq<Read>)
    requires AllLines(a)
    requires HandleRequest(tools, request, device) == Returned(None)
    ensures Transcript(tools, a + [Line(Decoded(request), device)] + b) == Transcript(tools, a + b)
  {
    SilentLineIsSkipped(tools, a, Line(Decoded(request), device), b);
  }

  /** The notification `{"method": "foo"}` gets no answer, wherever it is read. */
  lemma NotificationLineIsSkipped(tools: Json, a: seq<Read>, device: HttpOutcome, b: seq<Read>)
    requires AllLines(a)
    ensures var request := JObject([("method", JString("foo"))]);
            Transcript(tools, a + [Line(Decoded(request), device)] + b) == Transcript(tools, a + b)
  {
    var fields := [("method", JString("foo"))];
    LookupFound(fields, "method", 0);
    UnansweredLineIsSkipped(tools, a, JObject(fields), device, b);
  }

  /** At most one response per line read. */
  lemma {:induction false} AtMostOneResponsePerLine(tools: Json, input: seq<Read>)
    ensures |Transcript(tools, input)| <= |input|
    decreases |input|
  {
    if input != [] && input[0].Line? {
      AtMostOneResponsePerLine(tools, input[1..]);
    }
  }

  /** `r` answers one of the lines in `input`: it is a JSON-RPC response
      echoing that line's id. */
  predicate AnswersALine(r: Json, input: seq<Read>)
  {
    exists i :: 0 <= i < |input| && input[i].Line? && input[i].parsed.Decoded?
                && input[i].parsed.value.JObject?
                && IsResponseTo(r, IdOf(input[i].parsed.value.fields))
  }

  /** The output carries nothing but JSON-RPC responses, each one echoing the
      id of a line that was read. */
  lemma {:induction false} OutputIsOnlyResponses(tools: Json, input: seq<Read>)
    ensures forall k :: 0 <= k < |Transcript(tools, input)| ==> AnswersALine(Transcript(tools, input)[k], input)
    decreases |input|
  {
    if input != [] && input[0].Line? {
      var head := Emitted(tools, input[0].parsed, input[0].device);
      var tail := Transcript(tools, input[1..]);
      OutputIsOnlyResponses(tools, input[1..]);
      assert Transcript(tools, input) == head + tail;
      forall k | 0 <= k < |head + tail|
        ensures AnswersALine((head + tail)[k], input)
      {
        if k < |head| {
          assert (head + tail)[k] == head[0];
          assert IsResponseTo(head[0], IdOf(input[0].parsed.value.fields));
        } else {
          assert (head + tail)[k] == tail[k - |head|];
          assert AnswersALine(tail[k - |head|], input[1..]);
          var i :| 0 <= i < |input[1..]| && input[1..][i].Line? && input[1..][i].parsed.Decoded?
                   && input[1..][i].parsed.value.JObject?
                   && IsResponseTo(tail[k - |head|], IdOf(input[1..][i].parsed.value.fields));
          assert input[1..][i] == input[i + 1];
        }
      }
    }
  }

  /** A line whose handling returns a response is answered by exactly that
      response, after everything read before it and before everything read
      after it. */
  lemma AnsweredInPlace(tools: Json, a: seq<Read>, request: Json, device: HttpOutcome, b: seq<Read>)
    requires AllLines(a)
    requires HandleRequest(tools, request, device).Returned? && HandleRequest(tools, request, device).response.Some?
    ensures Transcript(tools, a + [Line(Decoded(request), device)] + b)
            == Transcript(tools, a) + [HandleRequest(tools, request, device).response.value] + Transcript(tools, b)
  {
    var line := Line(Decoded(request), device);
    var h := HandleRequest(tools, request, device);
    assert Emitted(tools, line.parsed, device) == [h.response.value];
    assert ([line] + b)[0] == line && ([line] + b)[1..] == b;
    assert Transcript(tools, [line] + b) == [h.response.value] + Transcript(tools, b);
    TranscriptAppend(tools, a, [line] + b);
    assert a + [line] + b == a + ([line] + b);
  }

  /** A malformed line followed by a well-formed `tools/list` request: the
      loop goes on and answers the second line. */
  lemma RecoversAfterMalformedLine(tools: Json, device: HttpOutcome)
    ensures var request := JObject([("id", JInt(1)), ("method", JString("tools/list"))]);
            var out := Transcript(tools, [Line(Malformed, device), Line(Decoded(request), device)]);
            |out| == 1 && IsResultResponse(out[0], JInt(1)) && At(out[0], ["result", "tools"]) == Some(tools)
  {
    var fields := [("id", JInt(1)), ("method", JString("tools/list"))];
    LookupFound(fields, "id", 0);
    LookupFound(fields, "method", 1);
    var init := [("method", JString("initialize"))];
    LookupFound(init, "method", 0);
    InitializeAndListAgree(tools, init, fields, device);
    KnownMethodsAlwaysAnswer(tools, fields, device);
    AnsweredInPlace(tools, [Line(Malformed, device)], JObject(fields), device, []);
    assert [Line(Malformed, device), Line(Decoded(JObject(fields)), device)]
        == [Line(Malformed, device)] + [Line(Decoded(JObject(fields)), device)] + [];
  }

  /** `MCPServer`: the tool registry is fixed when the server is built and
      never changes afterwards. */
  class McpServer {
    const tools: Json

    /** `MCPServer.__init__`. */
    constructor ()
      ensures tools == ServoTools()
    {
      tools := ServoTools();
    }

    /** `MCPServer.run`: read until the empty read, handle each decoded line,
        write each truthy response, and skip lines that fail. */
    method Run(input: seq<Read>) returns (output: seq<Json>)
      ensures output == Transcript(tools, input)
    {
      output := [];
      var i := 0;
      while i < |input|
        invariant 0 <= i <= |input|
        invariant output + Transcript(tools, input[i..]) == Transcript(tools, input)
      {
        assert input[i..][0] == input[i] && input[i..][1..] == input[i + 1..];
        ghost var before := output;
        match input[i] {
          case EndOfInput =>
            return;
          case Line(parsed, device) =>
            assert Transcript(tools, input[i..]) == Emitted(tools, parsed, device) + Transcript(tools, input[i + 1..]);
            assert before + Emitted(tools, parsed, device) + Transcript(tools, input[i + 1..]) == Transcript(tools, input);
            match parsed {
              case Malformed =>
                assert output == before + Emitted(tools, parsed, device);
              case Decoded(request) =>
                var handled := HandleRequest(tools, request, device);
                if handled.Returned? && handled.response.Some? && Truthy(handled.response.value) {
                  output := output + [handled.response.value];
                }
                assert output == before + Emitted(tools, parsed, device);
            }
        }
        i := i + 1;
      }
    }
  }
}
