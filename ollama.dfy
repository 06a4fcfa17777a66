/**
 * Sage::Providers::Ollama: the chat request, its endpoint and optional
 * authorization, the decoding of a blocking reply with its in-band error
 * check, and the newline-delimited JSON decoder of a streamed reply.
 */
module Ollama {
  import opened Wrappers
  import opened RubyString
  import opened RubyJson
  import opened SageTypes
  import opened Streaming

  const DefaultBaseUrl: string := "http://localhost:11434"

  /** build_request_body: model, the chat messages and stream, and nothing
      else; the caller's parameters are not sent. */
  function RequestBody(req: Request, streaming: bool): (body: map<string, Json>)
    ensures body.Keys == {"model", "messages", "stream"}
    ensures body["model"] == JString(req.model) && body["stream"] == JBool(streaming)
    ensures body["messages"].JArray? && body["messages"].items == ChatMessages(req.system, req.prompt)
  {
    map["model" := JString(req.model), "messages" := JArray(ChatMessages(req.system, req.prompt)), "stream" := JBool(streaming)]
  }

  /** Two requests that differ only in their parameters send the same body. */
  lemma {:induction false} ParamsNotForwarded(req: Request, params: Params, streaming: bool)
    ensures RequestBody(req.(params := params), streaming) == RequestBody(req, streaming)
  {
    var other := req.(params := params);
    assert other.model == req.model && other.prompt == req.prompt && other.system == req.system;
  }

  /** endpoint_uri: the endpoint option, or the local default. */
  function EndpointUri(config: ProviderConfig): (uri: string)
    ensures !Configured(config, "endpoint") ==> uri == "http://localhost:11434/api/chat"
    ensures Configured(config, "endpoint") && !EndsWith(config["endpoint"], "/") ==>
      uri == config["endpoint"] + "/api/chat"
    ensures Configured(config, "endpoint") && EndsWith(config["endpoint"], "/") ==>
      uri == config["endpoint"][..|config["endpoint"]| - 1] + "/api/chat"
  {
    assert !EndsWith(DefaultBaseUrl, "/");
    BaseUrl(config, "endpoint", DefaultBaseUrl) + "/api/chat"
  }

  /** The headers build_http_request sets: Authorization only when a
      non-empty api_key is configured. */
  ghost predicate IsHeaders(config: ProviderConfig, headers: map<string, string>) {
    && headers.Keys == {"content-type"} + (if Configured(config, "api_key") then {"authorization"} else {})
    && headers["content-type"] == "application/json"
    && (Configured(config, "api_key") ==> headers["authorization"] == "Bearer " + config["api_key"])
  }

  /** build_http_request */
  method BuildHttpRequest(config: ProviderConfig, uri: string, body: map<string, Json>) returns (request: HttpRequest)
    ensures request.uri == uri && request.body == body
    ensures IsHeaders(config, request.headers)
    ensures "authorization" in request.headers <==> Configured(config, "api_key")
  {
    var headers: map<string, string> := map[];
    headers := headers["content-type" := "application/json"];
    if "api_key" in config && config["api_key"] != "" {
      headers := headers["authorization" := "Bearer " + config["api_key"]];
    }
    request := HttpRequest(uri, headers, body);
  }

  /** The request complete and stream send. */
  ghost predicate IsSentRequest(config: ProviderConfig, req: Request, streaming: bool, sent: HttpRequest) {
    sent.uri == EndpointUri(config) && sent.body == RequestBody(req, streaming) && IsHeaders(config, sent.headers)
  }

  /** extract_error_message: the top-level error field or the raw body. A
      body that parses to something refusing a String index (an array, say)
      raises. */
  function ExtractErrorMessage(body: string, parse: Parser): (r: Result<string, Error>)
    ensures parse(body).None? ==> r == Ok(body)
    ensures parse(body).Some? && parse(body).value.JObject? ==> r.Ok?
    ensures r.Err? <==> parse(body).Some? && !(parse(body).value.JObject? || parse(body).value.JString?)
    ensures r.Err? ==> r.error == ShapeError
  {
    match parse(body)
    case None => Ok(body)
    case Some(parsed) =>
      match Index(parsed, "error")
      case Raises => Err(ShapeError)
      case Value(e) => Ok(if Truthy(e) then Render(e) else body)
  }

  /** handle_error_response: a failing status, 401 included, is a
      ProviderError naming the status, except that a body parsing to a value
      that is neither a Hash nor a String (an array, null) makes the error
      lookup raise, and that escapes as the shape error. */
  function HandleErrorResponse(status: nat, body: string, parse: Parser): (e: Error)
    ensures !e.AuthenticationError?
    ensures e.ProviderError? || e == ShapeError
    ensures e == ShapeError <==> parse(body).Some? && !(parse(body).value.JObject? || parse(body).value.JString?)
    ensures ExtractErrorMessage(body, parse).Ok? ==>
      e == ProviderError("Ollama error (" + NatToString(status) + "): " + ExtractErrorMessage(body, parse).value)
  {
    match ExtractErrorMessage(body, parse)
    case Err(err) => err
    case Ok(msg) => ProviderError("Ollama error (" + NatToString(status) + "): " + msg)
  }

  /** The error message of an error body of the documented shape. */
  lemma ErrorFieldReported(status: nat, body: string, text: string, parse: Parser)
    requires parse(body) == Some(JObject(map["error" := JString(text)]))
    ensures HandleErrorResponse(status, body, parse) == ProviderError("Ollama error (" + NatToString(status) + "): " + text)
  {
  }

  /** The "Is Ollama running?" error of a refused connection. */
  function ConnectionRefused(config: ProviderConfig): (e: Error)
    ensures e.ConnectionError?
  {
    ConnectionError("Could not connect to Ollama at " + EndpointUri(config) + ". Is Ollama running?")
  }

  const ContentPath: seq<Step> := [Key("message"), Key("content")]

  /** The decoding of a successful blocking reply: a non-empty error field is
      raised as a ProviderError; otherwise message.content or "", and
      prompt_eval_count and eval_count as the two counts (each 0 when
      missing); the model is the requested one. */
  function DecodeChat(parsed: Json, model: string): (r: Result<Response, Error>)
    ensures r.Ok? ==> r.value.model == model
    ensures r.Ok? ==> Truthy(r.value.content) && Truthy(r.value.usage.promptTokens) && Truthy(r.value.usage.completionTokens)
    ensures r.Err? ==> r.error == ShapeError || r.error.ProviderError?
    ensures !(parsed.JObject? || parsed.JString?) ==> r == Err(ShapeError)
  {
    match Index(parsed, "error")
    case Raises => Err(ShapeError)
    case Value(err) =>
      if Truthy(err) && IsEmpty(err).None? then Err(ShapeError)
      else if Truthy(err) && IsEmpty(err) == Some(false) then Err(ProviderError("Ollama error: " + Render(err)))
      else
        match Dig(parsed, ContentPath)
        case Raises => Err(ShapeError)
        case Value(content) =>
          match (TokenCount(parsed, "prompt_eval_count"), TokenCount(parsed, "eval_count"))
          case (Value(p), Value(c)) => Ok(Response(OrElse(content, JString("")), model, Usage(p, c)))
          case _ => Err(ShapeError)
  }

  /** A reply whose error field holds a non-empty string yields that error,
      whatever else it holds. */
  lemma InBandError(fields: map<string, Json>, text: string, model: string)
    requires "error" in fields && fields["error"] == JString(text) && text != ""
    ensures DecodeChat(JObject(fields), model) == Err(ProviderError("Ollama error: " + text))
  {
  }

  /** A reply of the documented shape decodes to its content and counts. */
  lemma DecodeWellFormed(model: string, content: Json, prompt: Json, completion: Json)
    requires Truthy(content) && Truthy(prompt) && Truthy(completion)
    ensures DecodeChat(
      JObject(map[
        "message" := Nest(["content"], content),
        "done" := JBool(true),
        "prompt_eval_count" := prompt,
        "eval_count" := completion]),
      model) == Ok(Response(content, model, Usage(prompt, completion)))
  {
    var parsed := JObject(map["message" := Nest(["content"], content), "done" := JBool(true), "prompt_eval_count" := prompt, "eval_count" := completion]);
    MessageContentFound(parsed, content);
    assert Index(parsed, "error") == Value(JNull);
  }

  /** Any reply object without a non-empty error field, whose content lookup
      does not raise, decodes: the content is message.content, or "" when
      that is nil or false, and each count is the reported one, or 0 when it
      is missing or falsy. */
  lemma DecodeDefaults(model: string, parsed: Json)
    requires parsed.JObject? && Dig(parsed, ContentPath).Value?
    requires !Truthy(Lookup(parsed.fields, "error")) || IsEmpty(Lookup(parsed.fields, "error")) == Some(true)
    ensures var r := DecodeChat(parsed, model);
      var content := Dig(parsed, ContentPath).v;
      && r.Ok?
      && r.value.content == (if Truthy(content) then content else JString(""))
      && r.value.usage == Usage(CountOrZero(parsed.fields, "prompt_eval_count"), CountOrZero(parsed.fields, "eval_count"))
  {
  }

  lemma MessageContentFound(parsed: Json, content: Json)
    requires parsed.JObject? && "message" in parsed.fields && parsed.fields["message"] == Nest(["content"], content)
    ensures Dig(parsed, ContentPath) == Value(content)
  {
    assert DigStep(parsed, Key("message")) == Value(Nest(["content"], content));
    assert Dig(Nest(["content"], content), ContentPath[1..]) == Value(content);
  }

  /** complete, from the transport's reply; a refused connection becomes a
      ConnectionError. */
  function CompleteReply(config: ProviderConfig, model: string, reply: HttpReply, parse: Parser): (r: Result<Response, Error>)
    ensures reply.Refused? ==> r == Err(ConnectionRefused(config))
    ensures reply.Answered? && !IsSuccess(reply.status) ==> r == Err(HandleErrorResponse(reply.status, reply.body, parse))
    ensures reply.Answered? && IsSuccess(reply.status) && parse(reply.body).None? ==> r == Err(ParserError)
    ensures r.Ok? ==> reply.Answered? && IsSuccess(reply.status) && r.value.model == model
  {
    match reply
    case Refused => Err(ConnectionRefused(config))
    case Answered(status, body) =>
      if !IsSuccess(status) then Err(HandleErrorResponse(status, body, parse))
      else match parse(body)
        case None => Err(ParserError)
        case Some(parsed) => DecodeChat(parsed, model)
  }

  /** complete */
  method Complete(config: ProviderConfig, req: Request, reply: HttpReply, parse: Parser)
    returns (sent: HttpRequest, result: Result<Response, Error>)
    ensures IsSentRequest(config, req, false, sent)
    ensures result == CompleteReply(config, req.model, reply, parse)
  {
    sent := BuildHttpRequest(config, EndpointUri(config), RequestBody(req, false));
    result := CompleteReply(config, req.model, reply, parse);
  }

  /** What the decoder does with one line of the body: blank lines nothing;
      otherwise the line is parsed, a truthy done ends the stream, and the
      message content is emitted when non-empty. */
  function LineAction(line: string, parse: Parser): (a: Action)
    ensures a.Emit? ==> NonEmpty(a.content)
  {
    var s := Strip(line);
    if s == "" then Skip
    else match parse(s)
      case None => Fail(ParserError)
      case Some(parsed) =>
        match Index(parsed, "done")
        case Raises => Fail(ShapeError)
        case Value(done) => if Truthy(done) then Finish else DeltaAction(Dig(parsed, ContentPath))
  }

  /** A truthy done ends the stream whatever content the line carries; a
      line that does not parse raises JSON::ParserError. */
  lemma LineActionCases(line: string, parse: Parser)
    ensures Strip(line) == "" ==> LineAction(line, parse) == Skip
    ensures Strip(line) != "" && parse(Strip(line)).None? ==> LineAction(line, parse) == Fail(ParserError)
    ensures Strip(line) != "" && parse(Strip(line)).Some? && parse(Strip(line)).value.JObject? ==>
      (LineAction(line, parse).Finish? <==> Truthy(Lookup(parse(Strip(line)).value.fields, "done")))
    ensures (Strip(line) != "" && parse(Strip(line)).Some? && parse(Strip(line)).value.JObject? &&
             !Truthy(Lookup(parse(Strip(line)).value.fields, "done"))) ==>
      LineAction(line, parse) == DeltaAction(Dig(parse(Strip(line)).value, ContentPath))
  {
  }

  function Actions(lines: seq<string>, parse: Parser): (acts: seq<Action>)
    ensures |acts| == |lines|
  {
    seq(|lines|, i requires 0 <= i < |lines| => LineAction(lines[i], parse))
  }

  lemma ActionsAppend(a: seq<string>, b: seq<string>, parse: Parser)
    ensures Actions(a + b, parse) == Actions(a, parse) + Actions(b, parse)
  {
    forall i | 0 <= i < |a| + |b|
      ensures Actions(a + b, parse)[i] == (Actions(a, parse) + Actions(b, parse))[i]
    {
      if i < |a| {
        assert (a + b)[i] == a[i];
      } else {
        assert (a + b)[i] == b[i - |a|];
      }
    }
  }

  /** stream, from the transport's reply; a refused connection becomes a
      ConnectionError. */
  function StreamOutcome(config: ProviderConfig, reply: StreamReply, parse: Parser): (r: StreamResult)
    ensures reply.StreamRefused? ==> r == StreamResult([], Failed(ConnectionRefused(config)))
    ensures reply.StreamAnswered? && !IsSuccess(reply.status) ==>
      && r.chunks == []
      && r.end == Failed(HandleErrorResponse(reply.status, Concat(reply.lines), parse))
      && (r.end.error.ProviderError? || r.end.error == ShapeError)
    ensures reply.StreamAnswered? && IsSuccess(reply.status) ==> r == Run(Actions(reply.lines, parse))
  {
    match reply
    case StreamRefused => StreamResult([], Failed(ConnectionRefused(config)))
    case StreamAnswered(status, lines) =>
      if !IsSuccess(status) then StreamResult([], Failed(HandleErrorResponse(status, Concat(lines), parse)))
      else Run(Actions(lines, parse))
  }

  /** stream */
  method Stream(config: ProviderConfig, req: Request, reply: StreamReply, parse: Parser)
    returns (sent: HttpRequest, r: StreamResult)
    ensures IsSentRequest(config, req, true, sent)
    ensures r == StreamOutcome(config, reply, parse)
  {
    sent := BuildHttpRequest(config, EndpointUri(config), RequestBody(req, true));
    match reply {
      case StreamRefused =>
        r := StreamResult([], Failed(ConnectionRefused(config)));
      case StreamAnswered(status, lines) =>
        if !IsSuccess(status) {
          r := StreamResult([], Failed(HandleErrorResponse(status, Concat(lines), parse)));
        } else {
          var step := (line: string) => LineAction(line, parse);
          r := DecodeLines(lines, step);
          assert LineActions(lines, step) == Actions(lines, parse);
        }
    }
  }

  /** Every stream ends well terminated, and every non-final chunk is
      non-empty. */
  lemma {:induction false} StreamWellFormed(config: ProviderConfig, reply: StreamReply, parse: Parser)
    ensures WellTerminated(StreamOutcome(config, reply, parse))
    ensures ContentNonEmpty(StreamOutcome(config, reply, parse))
  {
    if reply.StreamAnswered? && IsSuccess(reply.status) {
      var acts := Actions(reply.lines, parse);
      RunWellTerminated(acts);
      RunContentNonEmpty(acts);
    }
  }

  /** The final chunk is sent only for a line whose done field is truthy. */
  lemma NoFinalWithoutDone(config: ProviderConfig, reply: StreamReply, parse: Parser)
    ensures StreamOutcome(config, reply, parse).end == Done ==>
      reply.StreamAnswered? &&
      (exists k :: 0 <= k < |reply.lines| && Strip(reply.lines[k]) != "" &&
        parse(Strip(reply.lines[k])).Some? && Index(parse(Strip(reply.lines[k])).value, "done").Value? &&
        Truthy(Index(parse(Strip(reply.lines[k])).value, "done").v))
  {
    if reply.StreamAnswered? && IsSuccess(reply.status) {
      var acts := Actions(reply.lines, parse);
      RunDoneNeedsFinish(acts);
      if Run(acts).end == Done {
        var k :| 0 <= k < |acts| && acts[k] == Finish;
        assert LineAction(reply.lines[k], parse) == Finish;
      }
    }
  }

  /** Nothing after the done line reaches the sink. */
  lemma LinesAfterDoneIgnored(lines: seq<string>, later: seq<string>, parse: Parser)
    requires Run(Actions(lines, parse)).end == Done
    ensures Run(Actions(lines + later, parse)) == Run(Actions(lines, parse))
  {
    ActionsAppend(lines, later, parse);
    RunAppend(Actions(lines, parse), Actions(later, parse));
  }

  /** The parsed form of one streamed message fragment. */
  function ChatDelta(fragment: string): Json {
    JObject(map["message" := Nest(["content"], JString(fragment)), "done" := JBool(false)])
  }

  /** A line strip leaves alone. */
  predicate Framed(p: string) {
    EndsInNonSpace(p) && !IsSpace(p[0])
  }

  /** One line per fragment, then the given done line. */
  function Transcript(payloads: seq<string>, last: string): seq<string> {
    if payloads == [] then [last + "\n"] else [payloads[0] + "\n"] + Transcript(payloads[1..], last)
  }

  lemma FramedLine(p: string)
    requires Framed(p)
    ensures Strip(p + "\n") == p
  {
    StripFramed(p, "\n");
  }

  lemma DeltaLineAction(p: string, fragment: string, parse: Parser)
    requires Framed(p) && parse(p) == Some(ChatDelta(fragment))
    ensures LineAction(p + "\n", parse) == if fragment == "" then Skip else Emit(JString(fragment))
  {
    FramedLine(p);
    var inner := Nest(["content"], JString(fragment));
    assert DigStep(ChatDelta(fragment), Key("message")) == Value(inner);
    assert Dig(inner, ContentPath[1..]) == Value(JString(fragment));
  }

  lemma DoneLineAction(last: string, parse: Parser)
    requires Framed(last) && parse(last).Some? && parse(last).value.JObject?
    requires Truthy(Lookup(parse(last).value.fields, "done"))
    ensures LineAction(last + "\n", parse) == Finish
  {
    FramedLine(last);
  }

  /** One message line passes on its fragment, if non-empty. */
  lemma MessageLine(p: string, fragment: string, parse: Parser)
    requires Framed(p) && parse(p) == Some(ChatDelta(fragment))
    ensures Run(Actions([p + "\n"], parse)) == StreamResult(TextChunks([fragment]), Exhausted)
  {
    DeltaLineAction(p, fragment, parse);
    var a := LineAction(p + "\n", parse);
    assert Actions([p + "\n"], parse) == [a];
    RunCons(a, []);
    assert [a] + [] == [a];
    assert [fragment][1..] == [];
  }

  lemma LineThenRest(p: string, fragment: string, rest: seq<string>, parse: Parser)
    requires Framed(p) && parse(p) == Some(ChatDelta(fragment))
    ensures Run(Actions([p + "\n"] + rest, parse)) == Prepend(TextChunks([fragment]), Run(Actions(rest, parse)))
  {
    ActionsAppend([p + "\n"], rest, parse);
    MessageLine(p, fragment, parse);
    RunAppend(Actions([p + "\n"], parse), Actions(rest, parse));
  }

  /** Round trip: a stream of message fragments decodes to the non-empty
      fragments, in order, then the final chunk. */
  lemma {:induction false} TranscriptRoundTrip(payloads: seq<string>, fragments: seq<string>, last: string, parse: Parser)
    requires |payloads| == |fragments|
    requires forall i :: 0 <= i < |payloads| ==> Framed(payloads[i]) && parse(payloads[i]) == Some(ChatDelta(fragments[i]))
    requires Framed(last) && parse(last).Some? && parse(last).value.JObject?
    requires Truthy(Lookup(parse(last).value.fields, "done"))
    ensures Run(Actions(Transcript(payloads, last), parse)) == StreamResult(TextChunks(fragments) + [FinalChunk], Done)
    decreases |payloads|
  {
    if payloads == [] {
      DoneLineAction(last, parse);
      RunCons(Finish, []);
      assert Actions([last + "\n"], parse) == [Finish];
    } else {
      var rest := Transcript(payloads[1..], last);
      assert Transcript(payloads, last) == [payloads[0] + "\n"] + rest;
      assert Framed(payloads[0]) && parse(payloads[0]) == Some(ChatDelta(fragments[0]));
      LineThenRest(payloads[0], fragments[0], rest, parse);
      assert forall i :: 0 <= i < |payloads[1..]| ==> payloads[1..][i] == payloads[i + 1] && fragments[1..][i] == fragments[i + 1];
      TranscriptRoundTrip(payloads[1..], fragments[1..], last, parse);
      FragmentThenRest(fragments[0], fragments[1..], Run(Actions(rest, parse)));
      assert fragments == [fragments[0]] + fragments[1..];
    }
  }
}
