/**
 * Sage::Providers::OpenAI: the chat-completions request, its endpoint and
 * headers, the decoding of a blocking reply, and the server-sent-events
 * decoder of a streamed reply.
 */
module OpenAI {
  import opened Wrappers
  import opened RubyString
  import opened RubyJson
  import opened SageTypes
  import opened Streaming
  import opened VendorErrors

  const DefaultBaseUrl: string := "https://api.openai.com/v1"

  /** use_max_completion_tokens?: the reasoning and newer chat models take
      max_completion_tokens instead of max_tokens. */
  predicate UseMaxCompletionTokens(model: string) {
    StartsWith(model, "o1") || StartsWith(model, "o3") || Contains(model, "gpt-4o") || Contains(model, "gpt-5")
  }

  lemma MaxCompletionTokensExamples()
    ensures UseMaxCompletionTokens("gpt-4o-mini")
    ensures UseMaxCompletionTokens("o1-preview")
    ensures UseMaxCompletionTokens("o3-mini")
    ensures UseMaxCompletionTokens("gpt-5")
    ensures !UseMaxCompletionTokens("gpt-4")
  {
    assert StartsWith("gpt-4o-mini", "gpt-4o");
    assert StartsWith("gpt-5", "gpt-5");
    ContainsNoLonger("gpt-4", "gpt-4o");
    ContainsNoLonger("gpt-4", "gpt-5");
    assert "gpt-4"[4] != "gpt-5"[4];
    assert "gpt-4"[..2][0] == 'g';
  }

  /** The key the max_tokens parameter is sent under for this model. */
  function TokenLimitKey(model: string): (k: string)
    ensures k == "max_completion_tokens" <==> UseMaxCompletionTokens(model)
    ensures k == "max_tokens" <==> !UseMaxCompletionTokens(model)
  {
    if UseMaxCompletionTokens(model) then "max_completion_tokens" else "max_tokens"
  }

  /** A max_tokens parameter was given with a truthy value. */
  predicate HasTokenLimit(params: Params) {
    Truthy(Lookup(params, "max_tokens"))
  }

  /** The body build_request_body produces: model, messages and stream; the
      max_tokens value, when truthy, under TokenLimitKey; then every other
      parameter copied through, overriding what it collides with. */
  ghost predicate IsRequestBody(req: Request, streaming: bool, body: map<string, Json>) {
    var p := req.params;
    var limit := TokenLimitKey(req.model);
    && body.Keys == {"model", "messages", "stream"} + (if HasTokenLimit(p) then {limit} else {}) + (p.Keys - {"max_tokens"})
    && body["model"] == JString(req.model)
    && body["stream"] == JBool(streaming)
    && body["messages"] == (if "messages" in p then p["messages"] else JArray(ChatMessages(req.system, req.prompt)))
    && (HasTokenLimit(p) && (limit !in p || limit == "max_tokens") ==> body[limit] == p["max_tokens"])
    && (forall k :: k in p && k != "max_tokens" ==> body[k] == p[k])
  }

  /** build_request_body */
  method BuildRequestBody(req: Request, streaming: bool) returns (body: map<string, Json>)
    ensures IsRequestBody(req, streaming, body)
  {
    var messages: seq<Json> := [];
    if req.system.Some? {
      messages := messages + [Message("system", req.system.value)];
    }
    messages := messages + [Message("user", req.prompt)];
    body := map["model" := JString(req.model), "messages" := JArray(messages), "stream" := JBool(streaming)];
    assert messages == ChatMessages(req.system, req.prompt);
    if HasTokenLimit(req.params) {
      body := body[TokenLimitKey(req.model) := req.params["max_tokens"]];
    }
    body := body + (req.params - {"max_tokens"});
  }

  /** The request body is fully determined by the request. */
  lemma RequestBodyDetermined(req: Request, streaming: bool, b1: map<string, Json>, b2: map<string, Json>)
    requires IsRequestBody(req, streaming, b1) && IsRequestBody(req, streaming, b2)
    ensures b1 == b2
  {
    forall k | k in b1.Keys ensures b1[k] == b2[k] {
      var p := req.params;
      if k in p && k != "max_tokens" {
      } else if k == TokenLimitKey(req.model) {
        assert HasTokenLimit(p);
      }
    }
  }

  /** When max_tokens is given, its value is sent under exactly one of the two
      names, chosen by the model, and the other name is not sent. */
  lemma TokenLimitRouted(req: Request, streaming: bool, body: map<string, Json>)
    requires IsRequestBody(req, streaming, body)
    requires HasTokenLimit(req.params) && "max_completion_tokens" !in req.params
    ensures UseMaxCompletionTokens(req.model) ==>
      body["max_completion_tokens"] == req.params["max_tokens"] && "max_tokens" !in body
    ensures !UseMaxCompletionTokens(req.model) ==>
      body["max_tokens"] == req.params["max_tokens"] && "max_completion_tokens" !in body
  {
    var k := TokenLimitKey(req.model);
    assert k in body.Keys;
  }

  /** Without a truthy max_tokens neither limit is sent, unless the caller
      passed max_completion_tokens itself. */
  lemma NoTokenLimit(req: Request, streaming: bool, body: map<string, Json>)
    requires IsRequestBody(req, streaming, body)
    requires !HasTokenLimit(req.params)
    ensures "max_tokens" !in body
    ensures "max_completion_tokens" in body <==> "max_completion_tokens" in req.params
  {
  }

  /** endpoint_uri */
  function EndpointUri(config: ProviderConfig): (uri: string)
    ensures !Configured(config, "base_url") ==> uri == "https://api.openai.com/v1/chat/completions"
    ensures Configured(config, "base_url") && !EndsWith(config["base_url"], "/") ==>
      uri == config["base_url"] + "/chat/completions"
    ensures Configured(config, "base_url") && EndsWith(config["base_url"], "/") ==>
      uri == config["base_url"][..|config["base_url"]| - 1] + "/chat/completions"
  {
    assert !EndsWith(DefaultBaseUrl, "/");
    BaseUrl(config, "base_url", DefaultBaseUrl) + "/chat/completions"
  }

  /** `"#{config[:api_key]}"`: nil renders as the empty string. */
  function ApiKeyText(config: ProviderConfig): (key: string)
    ensures "api_key" in config ==> key == config["api_key"]
    ensures "api_key" !in config ==> key == ""
  {
    if "api_key" in config then config["api_key"] else ""
  }

  /** The headers build_http_request sets. */
  ghost predicate IsHeaders(config: ProviderConfig, headers: map<string, string>) {
    && headers.Keys == {"content-type", "authorization"}
    && headers["content-type"] == "application/json"
    && headers["authorization"] == "Bearer " + ApiKeyText(config)
  }

  /** build_http_request */
  method BuildHttpRequest(config: ProviderConfig, uri: string, body: map<string, Json>) returns (request: HttpRequest)
    ensures request.uri == uri && request.body == body
    ensures IsHeaders(config, request.headers)
  {
    var headers: map<string, string> := map[];
    headers := headers["content-type" := "application/json"];
    headers := headers["authorization" := "Bearer " + ApiKeyText(config)];
    request := HttpRequest(uri, headers, body);
  }

  /** The request complete and stream send. */
  ghost predicate IsSentRequest(config: ProviderConfig, req: Request, streaming: bool, sent: HttpRequest) {
    sent.uri == EndpointUri(config) && IsRequestBody(req, streaming, sent.body) && IsHeaders(config, sent.headers)
  }

  const ContentPath: seq<Step> := [Key("choices"), At(0), Key("message"), Key("content")]

  /** The decoding of a successful blocking reply: choices[0].message.content
      or "", and the two usage counts or 0; the model is the requested one. */
  function DecodeCompletion(parsed: Json, model: string): (r: Result<Response, Error>)
    ensures r.Ok? ==> r.value.model == model
    ensures r.Ok? ==> Truthy(r.value.content) && Truthy(r.value.usage.promptTokens) && Truthy(r.value.usage.completionTokens)
    ensures r.Err? ==> r.error == ShapeError
    ensures !parsed.JObject? ==> r == Err(ShapeError)
  {
    match Dig(parsed, ContentPath)
    case Raises => Err(ShapeError)
    case Value(content) =>
      match Fetch(parsed, "usage", JObject(map[]))
      case Raises => Err(ShapeError)
      case Value(usage) =>
        match (TokenCount(usage, "prompt_tokens"), TokenCount(usage, "completion_tokens"))
        case (Value(p), Value(c)) => Ok(Response(OrElse(content, JString("")), model, Usage(p, c)))
        case _ => Err(ShapeError)
  }

  /** choices[0].message.content of a reply of the documented shape. */
  lemma ContentFound(parsed: Json, content: Json)
    requires parsed.JObject? && "choices" in parsed.fields
    requires parsed.fields["choices"] == JArray([Nest(["message", "content"], content)])
    ensures Dig(parsed, ContentPath) == Value(content)
  {
    var choice := Nest(["message", "content"], content);
    DigObjects(choice, ["message", "content"], content);
    assert KeyPath(["message", "content"]) == ContentPath[2..];
    assert ContentPath[1..][1..] == ContentPath[2..];
    assert DigStep(JArray([choice]), At(0)) == Value(choice);
    assert Dig(JArray([choice]), ContentPath[1..]) == Value(content);
    assert DigStep(parsed, Key("choices")) == Value(JArray([choice]));
  }

  /** A reply of the documented shape decodes to its content and counts. */
  lemma DecodeWellFormed(model: string, content: Json, prompt: Json, completion: Json)
    requires Truthy(content) && Truthy(prompt) && Truthy(completion)
    ensures DecodeCompletion(
      JObject(map[
        "choices" := JArray([Nest(["message", "content"], content)]),
        "usage" := JObject(map["prompt_tokens" := prompt, "completion_tokens" := completion])]),
      model) == Ok(Response(content, model, Usage(prompt, completion)))
  {
    var usage := JObject(map["prompt_tokens" := prompt, "completion_tokens" := completion]);
    var parsed := JObject(map["choices" := JArray([Nest(["message", "content"], content)]), "usage" := usage]);
    ContentFound(parsed, content);
    assert Fetch(parsed, "usage", JObject(map[])) == Value(usage);
  }

  /** Any reply object whose content lookup does not raise and whose usage
      is absent or a hash decodes: the content is choices[0].message.content,
      or "" when that is nil or false, and each count is the reported one, or
      0 when it is missing or falsy. */
  lemma DecodeDefaults(model: string, parsed: Json)
    requires parsed.JObject? && Dig(parsed, ContentPath).Value?
    requires "usage" !in parsed.fields || parsed.fields["usage"].JObject?
    ensures var r := DecodeCompletion(parsed, model);
      var usage := if "usage" in parsed.fields then parsed.fields["usage"].fields else map[];
      var content := Dig(parsed, ContentPath).v;
      && r.Ok?
      && r.value.content == (if Truthy(content) then content else JString(""))
      && r.value.usage == Usage(CountOrZero(usage, "prompt_tokens"), CountOrZero(usage, "completion_tokens"))
  {
  }

  /** An object without choices and usage decodes to "" with zero counts. */
  lemma DecodeEmpty(model: string, parsed: Json)
    requires parsed.JObject? && "choices" !in parsed.fields && "usage" !in parsed.fields
    ensures DecodeCompletion(parsed, model) == Ok(Response(JString(""), model, Usage(JInt(0), JInt(0))))
  {
    DecodeDefaults(model, parsed);
  }

  /** complete, from the transport's reply. */
  function CompleteReply(model: string, reply: HttpReply, parse: Parser): (r: Result<Response, Error>)
    ensures reply.Refused? ==> r == Err(NetworkFailure)
    ensures reply.Answered? && !IsSuccess(reply.status) ==> r == Err(HandleErrorResponseAsWritten(reply.status, reply.body, parse))
    ensures reply.Answered? && !IsSuccess(reply.status) ==>
      r.Err? && (r.error == ShapeError || (r.error.AuthenticationError? <==> reply.status == 401))
    ensures reply.Answered? && IsSuccess(reply.status) && parse(reply.body).None? ==> r == Err(ParserError)
    ensures r.Ok? ==> reply.Answered? && IsSuccess(reply.status) && r.value.model == model
  {
    match reply
    case Refused => Err(NetworkFailure)
    case Answered(status, body) =>
      if !IsSuccess(status) then Err(HandleErrorResponseAsWritten(status, body, parse))
      else match parse(body)
        case None => Err(ParserError)
        case Some(parsed) => DecodeCompletion(parsed, model)
  }

  /** complete */
  method Complete(config: ProviderConfig, req: Request, reply: HttpReply, parse: Parser)
    returns (sent: HttpRequest, result: Result<Response, Error>)
    ensures IsSentRequest(config, req, false, sent)
    ensures result == CompleteReply(req.model, reply, parse)
  {
    var body := BuildRequestBody(req, false);
    sent := BuildHttpRequest(config, EndpointUri(config), body);
    result := CompleteReply(req.model, reply, parse);
  }

  const DeltaPath: seq<Step> := [Key("choices"), At(0), Key("delta"), Key("content")]

  /** What a data line carries once stripped and unprefixed. */
  function Payload(line: string): string {
    DeletePrefix(Strip(line), "data: ")
  }

  /** What the decoder does with one line of the body. */
  function LineAction(line: string, parse: Parser): (a: Action)
    ensures a.Emit? ==> NonEmpty(a.content)
  {
    var s := Strip(line);
    if s == "" || !StartsWith(s, "data: ") then Skip
    else
      var data := DeletePrefix(s, "data: ");
      if data == "[DONE]" then Finish
      else match parse(data)
        case None => Fail(ParserError)
        case Some(parsed) => DeltaAction(Dig(parsed, DeltaPath))
  }

  /** Lines that do not start with "data: " once stripped (blank lines
      among them) do nothing; exactly the line `data: [DONE]` ends the
      stream; a payload that does not parse raises JSON::ParserError; a
      payload of the delta event shape emits its non-empty content. */
  lemma LineActionCases(line: string, parse: Parser)
    ensures !StartsWith(Strip(line), "data: ") ==> LineAction(line, parse) == Skip
    ensures LineAction(line, parse).Finish? <==> Strip(line) == "data: [DONE]"
    ensures StartsWith(Strip(line), "data: ") && Payload(line) != "[DONE]" && parse(Payload(line)).None? ==>
      LineAction(line, parse) == Fail(ParserError)
    ensures StartsWith(Strip(line), "data: ") && Payload(line) != "[DONE]" && parse(Payload(line)).Some? ==>
      LineAction(line, parse) == DeltaAction(Dig(parse(Payload(line)).value, DeltaPath))
  {
    var s := Strip(line);
    if StartsWith(s, "data: ") && Payload(line) == "[DONE]" {
      assert s == "data: " + "[DONE]";
    }
    if s == "data: [DONE]" {
      assert StartsWith(s, "data: ");
    }
  }

  function Actions(lines: seq<string>, parse: Parser): (acts: seq<Action>)
    ensures |acts| == |lines|
  {
    seq(|lines|, i requires 0 <= i < |lines| => LineAction(lines[i], parse))
  }

  /** stream, from the transport's reply: a failing status raises before
      the block sees any chunk. */
  function StreamOutcome(reply: StreamReply, parse: Parser): (r: StreamResult)
    ensures reply.StreamRefused? ==> r == StreamResult([], Failed(NetworkFailure))
    ensures reply.StreamAnswered? && !IsSuccess(reply.status) ==>
      && r.chunks == []
      && r.end == Failed(HandleErrorResponseAsWritten(reply.status, Concat(reply.lines), parse))
      && (r.end.error == ShapeError || (r.end.error.AuthenticationError? <==> reply.status == 401))
    ensures reply.StreamAnswered? && IsSuccess(reply.status) ==> r == Run(Actions(reply.lines, parse))
  {
    match reply
    case StreamRefused => StreamResult([], Failed(NetworkFailure))
    case StreamAnswered(status, lines) =>
      if !IsSuccess(status) then StreamResult([], Failed(HandleErrorResponseAsWritten(status, Concat(lines), parse)))
      else Run(Actions(lines, parse))
  }

  lemma ActionsAppend(a: seq<string>, b: seq<string>, parse: Parser)
    ensures Actions(a + b, parse) == Actions(a, parse) + Actions(b, parse)
  {
    forall i | 0 <= i < |a| + |b|
      ensures Actions(a + b, parse)[i] == (Actions(a, parse) + Actions(b, parse))[i]
    {
      if i < |a| {
        assert (a + b)[i] == a[i];
      } else {
        assert (a + b)[i] == b[i - |a|];
      }
    }
  }

  /** stream */
  method Stream(config: ProviderConfig, req: Request, reply: StreamReply, parse: Parser)
    returns (sent: HttpRequest, r: StreamResult)
    ensures IsSentRequest(config, req, true, sent)
    ensures r == StreamOutcome(reply, parse)
  {
    var body := BuildRequestBody(req, true);
    sent := BuildHttpRequest(config, EndpointUri(config), body);
    match reply {
      case StreamRefused =>
        r := StreamResult([], Failed(NetworkFailure));
      case StreamAnswered(status, lines) =>
        if !IsSuccess(status) {
          r := StreamResult([], Failed(HandleErrorResponseAsWritten(status, Concat(lines), parse)));
        } else {
          var step := (line: string) => LineAction(line, parse);
          r := DecodeLines(lines, step);
          assert LineActions(lines, step) == Actions(lines, parse);
        }
    }
  }

  /** Every stream ends well terminated, and every non-final chunk is
      non-empty. */
  lemma {:induction false} StreamWellFormed(reply: StreamReply, parse: Parser)
    ensures WellTerminated(StreamOutcome(reply, parse))
    ensures ContentNonEmpty(StreamOutcome(reply, parse))
  {
    if reply.StreamAnswered? && IsSuccess(reply.status) {
      var acts := Actions(reply.lines, parse);
      RunWellTerminated(acts);
      RunContentNonEmpty(acts);
    }
  }

  /** The final chunk is sent only if a line reads `data: [DONE]`. */
  lemma NoFinalWithoutDone(reply: StreamReply, parse: Parser)
    ensures StreamOutcome(reply, parse).end == Done ==>
      reply.StreamAnswered? && exists k :: 0 <= k < |reply.lines| && Strip(reply.lines[k]) == "data: [DONE]"
  {
    if reply.StreamAnswered? && IsSuccess(reply.status) {
      var acts := Actions(reply.lines, parse);
      RunDoneNeedsFinish(acts);
      if Run(acts).end == Done {
        var k :| 0 <= k < |acts| && acts[k] == Finish;
        LineActionCases(reply.lines[k], parse);
      }
    }
  }

  /** Nothing after the end marker reaches the sink. */
  lemma LinesAfterDoneIgnored(lines: seq<string>, later: seq<string>, parse: Parser)
    requires Run(Actions(lines, parse)).end == Done
    ensures Run(Actions(lines + later, parse)) == Run(Actions(lines, parse))
  {
    ActionsAppend(lines, later, parse);
    RunAppend(Actions(lines, parse), Actions(later, parse));
  }

  /** The parsed event of a data line that carries one delta fragment. */
  function DeltaEvent(fragment: string): Json {
    JObject(map["choices" := JArray([Nest(["delta", "content"], JString(fragment))])])
  }

  /** The body of a stream sending the given payloads, one event each, then
      the end marker. */
  function Transcript(payloads: seq<string>): (lines: seq<string>) {
    if payloads == [] then ["data: [DONE]\n", "\n"]
    else ["data: " + payloads[0] + "\n", "\n"] + Transcript(payloads[1..])
  }

  /** A payload the decoder reads back as written: non-empty, not the end
      marker, and not ending in whitespace that strip would remove. */
  predicate PlainPayload(p: string) {
    EndsInNonSpace(p) && p != "[DONE]"
  }

  lemma BlankLineSkipped(parse: Parser)
    ensures LineAction("\n", parse) == Skip
  {
    assert "\n"[1..] == "";
    assert LStrip("\n") == "";
  }

  lemma DoneLineFinishes(parse: Parser)
    ensures LineAction("data: [DONE]\n", parse) == Finish
  {
    StripFramed("data: [DONE]", "\n");
    assert "data: [DONE]" + "\n" == "data: [DONE]\n";
  }

  /** A data line is read back as its payload. */
  lemma DataLinePayload(p: string)
    requires PlainPayload(p)
    ensures Strip("data: " + p + "\n") == "data: " + p
    ensures StartsWith("data: " + p, "data: ")
    ensures Payload("data: " + p + "\n") == p
  {
    StripFramed("data: " + p, "\n");
    assert ("data: " + p)[..|"data: "|] == "data: ";
  }

  lemma DeltaEventDig(fragment: string)
    ensures Dig(DeltaEvent(fragment), DeltaPath) == Value(JString(fragment))
  {
    var choice := Nest(["delta", "content"], JString(fragment));
    assert Dig(choice, DeltaPath[2..]) == Value(JString(fragment)) by {
      DigObjects(choice, ["delta", "content"], JString(fragment));
      assert KeyPath(["delta", "content"]) == DeltaPath[2..];
    }
    assert DeltaPath[1..][1..] == DeltaPath[2..];
  }

  /** A data line carrying a delta event emits its fragment, if non-empty. */
  lemma DeltaLineAction(p: string, fragment: string, parse: Parser)
    requires PlainPayload(p) && parse(p) == Some(DeltaEvent(fragment))
    ensures LineAction("data: " + p + "\n", parse) == if fragment == "" then Skip else Emit(JString(fragment))
  {
    DataLinePayload(p);
    DeltaEventDig(fragment);
  }

  /** The closing lines of a transcript end the stream. */
  lemma ClosingLines(parse: Parser)
    ensures Run(Actions(Transcript([]), parse)) == StreamResult([FinalChunk], Done)
  {
    DoneLineFinishes(parse);
    assert Actions(Transcript([]), parse) == [Finish] + Actions(["\n"], parse);
    RunCons(Finish, Actions(["\n"], parse));
  }

  /** The two lines of one delta event pass on its fragment, if non-empty. */
  lemma EventLines(p: string, fragment: string, parse: Parser)
    requires PlainPayload(p) && parse(p) == Some(DeltaEvent(fragment))
    ensures Run(Actions(["data: " + p + "\n", "\n"], parse)) == StreamResult(TextChunks([fragment]), Exhausted)
  {
    BlankLineSkipped(parse);
    DeltaLineAction(p, fragment, parse);
    var l := "data: " + p + "\n";
    var a := LineAction(l, parse);
    var acts := Actions([l, "\n"], parse);
    assert acts[0] == a;
    assert acts[1] == Skip;
    assert acts == [a, Skip];
    RunCons(Skip, []);
    RunCons(a, [Skip]);
    assert [a] + [Skip] == [a, Skip];
    assert [fragment][1..] == [];
  }

  lemma EventThenRest(p: string, fragment: string, rest: seq<string>, parse: Parser)
    requires PlainPayload(p) && parse(p) == Some(DeltaEvent(fragment))
    ensures Run(Actions(["data: " + p + "\n", "\n"] + rest, parse)) == Prepend(TextChunks([fragment]), Run(Actions(rest, parse)))
  {
    var head := ["data: " + p + "\n", "\n"];
    ActionsAppend(head, rest, parse);
    EventLines(p, fragment, parse);
    RunAppend(Actions(head, parse), Actions(rest, parse));
  }

  /** Round trip: a stream of delta events decodes to the non-empty
      fragments, in order, then the final chunk. */
  lemma {:induction false} TranscriptRoundTrip(payloads: seq<string>, fragments: seq<string>, parse: Parser)
    requires |payloads| == |fragments|
    requires forall i :: 0 <= i < |payloads| ==> PlainPayload(payloads[i]) && parse(payloads[i]) == Some(DeltaEvent(fragments[i]))
    ensures Run(Actions(Transcript(payloads), parse)) == StreamResult(TextChunks(fragments) + [FinalChunk], Done)
  {
    if payloads == [] {
      ClosingLines(parse);
    } else {
      var rest := Transcript(payloads[1..]);
      assert Transcript(payloads) == ["data: " + payloads[0] + "\n", "\n"] + rest;
      assert PlainPayload(payloads[0]) && parse(payloads[0]) == Some(DeltaEvent(fragments[0]));
      EventThenRest(payloads[0], fragments[0], rest, parse);
      assert forall i :: 0 <= i < |payloads[1..]| ==> payloads[1..][i] == payloads[i + 1] && fragments[1..][i] == fragments[i + 1];
      TranscriptRoundTrip(payloads[1..], fragments[1..], parse);
      FragmentThenRest(fragments[0], fragments[1..], Run(Actions(rest, parse)));
      assert fragments == [fragments[0]] + fragments[1..];
    }
  }
}
