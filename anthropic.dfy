/**
 * Sage::Providers::Anthropic: the messages request, its endpoint and
 * headers, the decoding of a blocking reply, and the event-tracking decoder
 * of a streamed reply.
 */
module Anthropic {
  import opened Wrappers
  import opened RubyString
  import opened RubyJson
  import opened SageTypes
  import opened Streaming
  import opened VendorErrors

  const DefaultBaseUrl: string := "https://api.anthropic.com/v1"
  const AnthropicVersion: string := "2023-06-01"
  const DefaultMaxTokens: int := 1024

  /** The two event names the decoder acts on. */
  const MessageStop: string := "message_stop"
  const ContentBlockDelta: string := "content_block_delta"

  /** The body build_request_body produces: model, the single user message
      and max_tokens (the given value, or 1024 when it is nil, false or
      absent); system only when given; stream only when streaming; then the
      remaining parameters merged over them. */
  ghost predicate IsRequestBody(req: Request, streaming: bool, body: map<string, Json>) {
    var p := req.params;
    && body.Keys == {"model", "messages", "max_tokens"}
         + (if req.system.Some? then {"system"} else {})
         + (if streaming then {"stream"} else {})
         + (p.Keys - {"max_tokens"})
    && body["model"] == JString(req.model)
    && body["messages"] == (if "messages" in p then p["messages"] else JArray([Message("user", req.prompt)]))
    && body["max_tokens"] == OrElse(Lookup(p, "max_tokens"), JInt(DefaultMaxTokens))
    && (req.system.Some? ==> body["system"] == JString(req.system.value))
    && (streaming ==> body["stream"] == JBool(true))
    && (forall k :: k in p && k != "max_tokens" ==> body[k] == p[k])
  }

  /** build_request_body */
  method BuildRequestBody(req: Request, streaming: bool) returns (body: map<string, Json>)
    ensures IsRequestBody(req, streaming, body)
    ensures "stream" in body <==> streaming
    ensures "system" in body <==> req.system.Some?
  {
    var params: map<string, Json> := req.params;
    var maxTokens := OrElse(Lookup(params, "max_tokens"), JInt(DefaultMaxTokens));
    params := params - {"max_tokens"};
    body := map["model" := JString(req.model), "messages" := JArray([Message("user", req.prompt)]), "max_tokens" := maxTokens];
    if req.system.Some? {
      body := body["system" := JString(req.system.value)];
    }
    if streaming {
      body := body["stream" := JBool(true)];
    }
    body := body + params;
  }

  /** The request body is fully determined by the request. */
  lemma RequestBodyDetermined(req: Request, streaming: bool, b1: map<string, Json>, b2: map<string, Json>)
    requires IsRequestBody(req, streaming, b1) && IsRequestBody(req, streaming, b2)
    ensures b1 == b2
  {
    forall k | k in b1.Keys ensures b1[k] == b2[k] {
      if k in req.params && k != "max_tokens" {
      } else if k == "system" {
        assert req.system.Some?;
      } else if k == "stream" {
        assert streaming;
      }
    }
  }

  /** endpoint_uri */
  function EndpointUri(config: ProviderConfig): (uri: string)
    ensures !Configured(config, "base_url") ==> uri == "https://api.anthropic.com/v1/messages"
    ensures Configured(config, "base_url") && !EndsWith(config["base_url"], "/") ==>
      uri == config["base_url"] + "/messages"
    ensures Configured(config, "base_url") && EndsWith(config["base_url"], "/") ==>
      uri == config["base_url"][..|config["base_url"]| - 1] + "/messages"
  {
    assert !EndsWith(DefaultBaseUrl, "/");
    BaseUrl(config, "base_url", DefaultBaseUrl) + "/messages"
  }

  /** The headers build_http_request sets. Assigning nil to a header removes
      it, so x-api-key is sent exactly when an api_key is configured. */
  ghost predicate IsHeaders(config: ProviderConfig, headers: map<string, string>) {
    && headers.Keys == {"content-type", "anthropic-version"} + (if "api_key" in config then {"x-api-key"} else {})
    && headers["content-type"] == "application/json"
    && headers["anthropic-version"] == "2023-06-01"
    && ("api_key" in config ==> headers["x-api-key"] == config["api_key"])
  }

  /** build_http_request */
  method BuildHttpRequest(config: ProviderConfig, uri: string, body: map<string, Json>) returns (request: HttpRequest)
    ensures request.uri == uri && request.body == body
    ensures IsHeaders(config, request.headers)
  {
    var headers: map<string, string> := map[];
    headers := headers["content-type" := "application/json"];
    if "api_key" in config {
      headers := headers["x-api-key" := config["api_key"]];
    } else {
      headers := headers - {"x-api-key"};
    }
    headers := headers["anthropic-version" := AnthropicVersion];
    request := HttpRequest(uri, headers, body);
  }

  /** The request complete and stream send. */
  ghost predicate IsSentRequest(config: ProviderConfig, req: Request, streaming: bool, sent: HttpRequest) {
    sent.uri == EndpointUri(config) && IsRequestBody(req, streaming, sent.body) && IsHeaders(config, sent.headers)
  }

  /** The `find` of extract_content over an array of content blocks: the
      text of the first block whose type is "text", or "" without one. */
  function FindText(blocks: seq<Json>): (r: Access)
  {
    if blocks == [] then Value(JString(""))
    else match Index(blocks[0], "type")
      case Raises => Raises
      case Value(t) => if t == JString("text") then Index(blocks[0], "text") else FindText(blocks[1..])
  }

  /** A block the find selects: `block["type"] == "text"`. */
  predicate IsTextBlock(b: Json) {
    Index(b, "type") == Value(JString("text"))
  }

  /** A block the find passes over: `block["type"]` can be evaluated and is
      not "text" (a missing type included). */
  predicate IsOtherBlock(b: Json) {
    Index(b, "type").Value? && Index(b, "type").v != JString("text")
  }

  /** The first text block wins. */
  lemma {:induction false} FindTextFirst(blocks: seq<Json>, k: nat)
    requires k < |blocks| && IsTextBlock(blocks[k])
    requires forall j :: 0 <= j < k ==> IsOtherBlock(blocks[j])
    ensures FindText(blocks) == Index(blocks[k], "text")
  {
    if k > 0 {
      FindTextFirst(blocks[1..], k - 1);
    }
  }

  /** Without a text block the content is "". */
  lemma {:induction false} FindTextNone(blocks: seq<Json>)
    requires forall j :: 0 <= j < |blocks| ==> IsOtherBlock(blocks[j])
    ensures FindText(blocks) == Value(JString(""))
  {
    if blocks != [] {
      FindTextNone(blocks[1..]);
    }
  }

  /** extract_content: `parsed["content"] || []`, then the find. Hash#find
      hands the block [key, value] pairs, which refuse a String index, so a
      non-empty object raises; every other non-array has no find. */
  function ExtractContent(parsed: Json): (r: Access)
    ensures !(parsed.JObject? || parsed.JString?) ==> r == Raises
    ensures parsed.JObject? && !Truthy(Lookup(parsed.fields, "content")) ==> r == Value(JString(""))
    ensures parsed.JObject? && Lookup(parsed.fields, "content").JArray? ==> r == FindText(parsed.fields["content"].items)
  {
    match Index(parsed, "content")
    case Raises => Raises
    case Value(v) =>
      match OrElse(v, JArray([]))
      case JArray(blocks) => FindText(blocks)
      case JObject(m) => if m == map[] then Value(JString("")) else Raises
      case _ => Raises
  }

  /** The decoding of a successful blocking reply: the text of the first text
      block, input_tokens as prompt_tokens and output_tokens as
      completion_tokens (each 0 when missing); the model is the requested one. */
  function DecodeMessage(parsed: Json, model: string): (r: Result<Response, Error>)
    ensures r.Ok? ==> r.value.model == model
    ensures r.Ok? ==> Truthy(r.value.usage.promptTokens) && Truthy(r.value.usage.completionTokens)
    ensures r.Err? ==> r.error == ShapeError
    ensures !parsed.JObject? ==> r == Err(ShapeError)
  {
    match ExtractContent(parsed)
    case Raises => Err(ShapeError)
    case Value(content) =>
      match Fetch(parsed, "usage", JObject(map[]))
      case Raises => Err(ShapeError)
      case Value(usage) =>
        match (TokenCount(usage, "input_tokens"), TokenCount(usage, "output_tokens"))
        case (Value(p), Value(c)) => Ok(Response(content, model, Usage(p, c)))
        case _ => Err(ShapeError)
  }

  /** Any reply object whose content extraction does not raise and whose
      usage is absent or a hash decodes: the content is the extracted one
      ("" when the content field is nil, false or missing), and each count is
      the reported one, or 0 when it is missing or falsy. */
  lemma DecodeDefaults(model: string, parsed: Json)
    requires parsed.JObject? && ExtractContent(parsed).Value?
    requires "usage" !in parsed.fields || parsed.fields["usage"].JObject?
    ensures var r := DecodeMessage(parsed, model);
      var usage := if "usage" in parsed.fields then parsed.fields["usage"].fields else map[];
      && r.Ok?
      && r.value.content == ExtractContent(parsed).v
      && (!Truthy(Lookup(parsed.fields, "content")) ==> r.value.content == JString(""))
      && r.value.usage == Usage(CountOrZero(usage, "input_tokens"), CountOrZero(usage, "output_tokens"))
  {
  }

  /** A reply of the documented shape decodes to the text of its first text
      block and its two counts. */
  lemma DecodeWellFormed(model: string, blocks: seq<Json>, k: nat, input: Json, output: Json)
    requires k < |blocks| && IsTextBlock(blocks[k])
    requires forall j :: 0 <= j < k ==> IsOtherBlock(blocks[j])
    requires Truthy(input) && Truthy(output)
    ensures DecodeMessage(
      JObject(map[
        "content" := JArray(blocks),
        "usage" := JObject(map["input_tokens" := input, "output_tokens" := output])]),
      model) == Ok(Response(Index(blocks[k], "text").v, model, Usage(input, output)))
  {
    FindTextFirst(blocks, k);
    var usage := JObject(map["input_tokens" := input, "output_tokens" := output]);
    var parsed := JObject(map["content" := JArray(blocks), "usage" := usage]);
    assert Index(parsed, "content") == Value(JArray(blocks));
    assert Fetch(parsed, "usage", JObject(map[])) == Value(usage);
  }

  /** complete, from the transport's reply. */
  function CompleteReply(model: string, reply: HttpReply, parse: Parser): (r: Result<Response, Error>)
    ensures reply.Refused? ==> r == Err(NetworkFailure)
    ensures reply.Answered? && !IsSuccess(reply.status) ==> r == Err(HandleErrorResponseAsWritten(reply.status, reply.body, parse))
    ensures reply.Answered? && !IsSuccess(reply.status) ==>
      r.Err? && (r.error == ShapeError || (r.error.AuthenticationError? <==> reply.status == 401))
    ensures reply.Answered? && IsSuccess(reply.status) && parse(reply.body).None? ==> r == Err(ParserError)
    ensures r.Ok? ==> reply.Answered? && IsSuccess(reply.status) && r.value.model == model
  {
    match reply
    case Refused => Err(NetworkFailure)
    case Answered(status, body) =>
      if !IsSuccess(status) then Err(HandleErrorResponseAsWritten(status, body, parse))
      else match parse(body)
        case None => Err(ParserError)
        case Some(parsed) => DecodeMessage(parsed, model)
  }

  /** complete */
  method Complete(config: ProviderConfig, req: Request, reply: HttpReply, parse: Parser)
    returns (sent: HttpRequest, result: Result<Response, Error>)
    ensures IsSentRequest(config, req, false, sent)
    ensures result == CompleteReply(req.model, reply, parse)
  {
    var body := BuildRequestBody(req, false);
    sent := BuildHttpRequest(config, EndpointUri(config), body);
    result := CompleteReply(req.model, reply, parse);
  }

  /** The effect of a content_block_delta payload: `delta["text"]` when the
      delta is truthy, its type is "text_delta" and the text is not empty. */
  function DeltaText(parsed: Json): (a: Action)
    ensures a.Emit? ==> NonEmpty(a.content)
    ensures a.Emit? ==>
      && Index(parsed, "delta").Value?
      && Index(Index(parsed, "delta").v, "type") == Value(JString("text_delta"))
      && Index(Index(parsed, "delta").v, "text") == Value(a.content)
    ensures Index(parsed, "delta") == Value(JNull) ==> a == Skip
    ensures (Index(parsed, "delta").Value? && Truthy(Index(parsed, "delta").v) &&
             Index(Index(parsed, "delta").v, "type").Value? &&
             Index(Index(parsed, "delta").v, "type").v != JString("text_delta")) ==> a == Skip
    ensures !a.Finish?
  {
    match Index(parsed, "delta")
    case Raises => Fail(ShapeError)
    case Value(delta) =>
      if !Truthy(delta) then Skip
      else match Index(delta, "type")
        case Raises => Fail(ShapeError)
        case Value(t) =>
          if t != JString("text_delta") then Skip
          else match Index(delta, "text")
            case Raises => Fail(ShapeError)
            case Value(text) =>
              match IsEmpty(text)
              case None => Fail(ShapeError)
              case Some(empty) => if empty then Skip else Emit(text)
  }

  /** What a stripped line other than an event line does under the current
      event: blank and non-data lines nothing; a data line under
      message_stop ends the stream without being parsed; under
      content_block_delta it is parsed and may emit; under any other event it
      is skipped without being parsed. */
  function DataAction(event: Option<string>, s: string, parse: Parser): (a: Action)
    ensures a.Emit? ==> NonEmpty(a.content)
  {
    if s == "" || !StartsWith(s, "data: ") then Skip
    else if event == Some(MessageStop) then Finish
    else if event != Some(ContentBlockDelta) then Skip
    else match parse(DeletePrefix(s, "data: "))
      case None => Fail(ParserError)
      case Some(parsed) => DeltaText(parsed)
  }

  /** The decoder's state after a line, and what the line does. */
  datatype Transition = Transition(event: Option<string>, action: Action)

  /** One line of the stream: an "event: X" line makes X the current event
      and does nothing else; any other line leaves the event as it is. */
  function Step(event: Option<string>, line: string, parse: Parser): (t: Transition)
    ensures t.action.Emit? ==> NonEmpty(t.action.content)
  {
    var s := Strip(line);
    if StartsWith(s, "event: ") then Transition(Some(DeletePrefix(s, "event: ")), Skip)
    else Transition(event, DataAction(event, s, parse))
  }

  /** The actions of the lines, starting from the given current event. */
  function Actions(event: Option<string>, lines: seq<string>, parse: Parser): (acts: seq<Action>)
    ensures |acts| == |lines|
    decreases |lines|
  {
    if lines == [] then []
    else var t := Step(event, lines[0], parse); [t.action] + Actions(t.event, lines[1..], parse)
  }

  /** The current event once the lines have been read. */
  function EventAfter(event: Option<string>, lines: seq<string>, parse: Parser): Option<string>
    decreases |lines|
  {
    if lines == [] then event else EventAfter(Step(event, lines[0], parse).event, lines[1..], parse)
  }

  /** The action of a line depends on the event the lines before it left
      current. */
  lemma {:induction false} ActionAt(event: Option<string>, lines: seq<string>, k: nat, parse: Parser)
    requires k < |lines|
    ensures Actions(event, lines, parse)[k] == Step(EventAfter(event, lines[..k], parse), lines[k], parse).action
    decreases k
  {
    if k > 0 {
      var t := Step(event, lines[0], parse);
      ActionAt(t.event, lines[1..], k - 1, parse);
      assert lines[1..][..k - 1] == lines[..k][1..];
      assert lines[..k][0] == lines[0];
    }
  }

  predicate IsEventLine(line: string) {
    StartsWith(Strip(line), "event: ")
  }

  /** The current event persists across lines that are not event lines. */
  lemma {:induction false} EventPersists(event: Option<string>, lines: seq<string>, parse: Parser)
    requires forall i :: 0 <= i < |lines| ==> !IsEventLine(lines[i])
    ensures EventAfter(event, lines, parse) == event
  {
    if lines != [] {
      assert !IsEventLine(lines[0]);
      EventPersists(event, lines[1..], parse);
    }
  }

  /** An event line sets the current event to its name and emits nothing. */
  lemma EventLineStep(event: Option<string>, name: string, parse: Parser)
    requires EndsInNonSpace(name)
    ensures Step(event, "event: " + name + "\n", parse) == Transition(Some(name), Skip)
  {
    StripPrefixedLine("event: ", name);
  }

  lemma BlankLineStep(event: Option<string>, parse: Parser)
    ensures Step(event, "\n", parse) == Transition(event, Skip)
  {
    assert "\n"[1..] == "";
    assert LStrip("\n") == "";
  }

  lemma ActionsUnfold(event: Option<string>, lines: seq<string>, i: nat, parse: Parser)
    requires i < |lines|
    ensures var t := Step(event, lines[i], parse);
      Actions(event, lines[i..], parse) == [t.action] + Actions(t.event, lines[i + 1..], parse)
  {
    assert lines[i..][1..] == lines[i + 1..];
  }

  /** The actions of two pieces of a body: the second starts from the event
      the first left current. */
  lemma {:induction false} ActionsAppend(event: Option<string>, a: seq<string>, b: seq<string>, parse: Parser)
    ensures Actions(event, a + b, parse) == Actions(event, a, parse) + Actions(EventAfter(event, a, parse), b, parse)
    decreases |a|
  {
    if a == [] {
      assert a + b == b;
    } else {
      assert (a + b)[0] == a[0];
      assert (a + b)[1..] == a[1..] + b;
      ActionsAppend(Step(event, a[0], parse).event, a[1..], b, parse);
    }
  }

  /** Reading a body in two pieces. */
  lemma RunActionsAppend(event: Option<string>, a: seq<string>, b: seq<string>, parse: Parser)
    ensures var first := Run(Actions(event, a, parse));
      Run(Actions(event, a + b, parse)) ==
        if first.end == Exhausted then Prepend(first.chunks, Run(Actions(EventAfter(event, a, parse), b, parse))) else first
  {
    ActionsAppend(event, a, b, parse);
    RunAppend(Actions(event, a, parse), Actions(EventAfter(event, a, parse), b, parse));
  }

  /** The line loop of stream, with its mutable current event: the chunks
      passed to the block, line by line, until message_stop or an exception. */
  method Decode(lines: seq<string>, parse: Parser) returns (r: StreamResult)
    ensures r == Run(Actions(None, lines, parse))
  {
    var currentEvent: Option<string> := None;
    var chunks: seq<Chunk> := [];
    var i := 0;
    while i < |lines|
      invariant 0 <= i <= |lines|
      invariant Run(Actions(None, lines, parse)) == Prepend(chunks, Run(Actions(currentEvent, lines[i..], parse)))
    {
      ghost var t := Step(currentEvent, lines[i], parse);
      ghost var rest := Run(Actions(t.event, lines[i + 1..], parse));
      ActionsUnfold(currentEvent, lines, i, parse);
      RunCons(t.action, Actions(t.event, lines[i + 1..], parse));
      var s := Strip(lines[i]);
      if StartsWith(s, "event: ") {
        currentEvent := Some(DeletePrefix(s, "event: "));
      } else {
        var a := DataAction(currentEvent, s, parse);
        if a.Finish? {
          return StreamResult(chunks + [FinalChunk], Done);
        } else if a.Fail? {
          assert chunks + [] == chunks;
          return StreamResult(chunks, Failed(a.error));
        } else if a.Emit? {
          PrependTwice(chunks, [Chunk(a.content, false)], rest);
          chunks := chunks + [Chunk(a.content, false)];
        }
      }
      i := i + 1;
    }
    assert lines[i..] == [];
    r := StreamResult(chunks, Exhausted);
  }

  /** stream, from the transport's reply: a failing status raises before
      the block sees any chunk. */
  function StreamOutcome(reply: StreamReply, parse: Parser): (r: StreamResult)
    ensures reply.StreamRefused? ==> r == StreamResult([], Failed(NetworkFailure))
    ensures reply.StreamAnswered? && !IsSuccess(reply.status) ==>
      && r.chunks == []
      && r.end == Failed(HandleErrorResponseAsWritten(reply.status, Concat(reply.lines), parse))
      && (r.end.error == ShapeError || (r.end.error.AuthenticationError? <==> reply.status == 401))
    ensures reply.StreamAnswered? && IsSuccess(reply.status) ==> r == Run(Actions(None, reply.lines, parse))
  {
    match reply
    case StreamRefused => StreamResult([], Failed(NetworkFailure))
    case StreamAnswered(status, lines) =>
      if !IsSuccess(status) then StreamResult([], Failed(HandleErrorResponseAsWritten(status, Concat(lines), parse)))
      else Run(Actions(None, lines, parse))
  }

  /** stream */
  method Stream(config: ProviderConfig, req: Request, reply: StreamReply, parse: Parser)
    returns (sent: HttpRequest, r: StreamResult)
    ensures IsSentRequest(config, req, true, sent)
    ensures r == StreamOutcome(reply, parse)
  {
    var body := BuildRequestBody(req, true);
    sent := BuildHttpRequest(config, EndpointUri(config), body);
    match reply {
      case StreamRefused =>
        r := StreamResult([], Failed(NetworkFailure));
      case StreamAnswered(status, lines) =>
        if !IsSuccess(status) {
          r := StreamResult([], Failed(HandleErrorResponseAsWritten(status, Concat(lines), parse)));
        } else {
          r := Decode(lines, parse);
        }
    }
  }

  /** Every stream ends well terminated, and every non-final chunk is
      non-empty. */
  lemma {:induction false} StreamWellFormed(reply: StreamReply, parse: Parser)
    ensures WellTerminated(StreamOutcome(reply, parse))
    ensures ContentNonEmpty(StreamOutcome(reply, parse))
  {
    if reply.StreamAnswered? && IsSuccess(reply.status) {
      var acts := Actions(None, reply.lines, parse);
      RunWellTerminated(acts);
      assert EmitsNonEmpty(acts) by {
        forall k | 0 <= k < |acts| && acts[k].Emit? ensures NonEmpty(acts[k].content) {
          ActionAt(None, reply.lines, k, parse);
        }
      }
      RunContentNonEmpty(acts);
    }
  }

  /** The final chunk is sent only for a data line read while message_stop
      is the current event. */
  lemma NoFinalWithoutStop(reply: StreamReply, parse: Parser)
    ensures StreamOutcome(reply, parse).end == Done ==>
      reply.StreamAnswered? &&
      (exists k :: 0 <= k < |reply.lines| &&
        StartsWith(Strip(reply.lines[k]), "data: ") && EventAfter(None, reply.lines[..k], parse) == Some(MessageStop))
  {
    if reply.StreamAnswered? && IsSuccess(reply.status) {
      var acts := Actions(None, reply.lines, parse);
      RunDoneNeedsFinish(acts);
      if Run(acts).end == Done {
        var k :| 0 <= k < |acts| && acts[k] == Finish;
        ActionAt(None, reply.lines, k, parse);
      }
    }
  }

  /** Under an event other than message_stop and content_block_delta, data
      lines are skipped without being parsed: until the next event line
      nothing is emitted, and what the parser would make of the lines does
      not matter. */
  lemma {:induction false} OtherEventsIgnored(event: string, lines: seq<string>, parse: Parser, other: Parser)
    requires event != MessageStop && event != ContentBlockDelta
    requires forall i :: 0 <= i < |lines| ==> !IsEventLine(lines[i])
    ensures Run(Actions(Some(event), lines, parse)) == StreamResult([], Exhausted)
    ensures Actions(Some(event), lines, parse) == Actions(Some(event), lines, other)
  {
    if lines != [] {
      assert !IsEventLine(lines[0]);
      OtherEventsIgnored(event, lines[1..], parse, other);
      RunCons(Skip, Actions(Some(event), lines[1..], parse));
    }
  }

  /** The parsed payload of a content_block_delta data line. */
  function TextDeltaEvent(fragment: string): Json {
    JObject(map[
      "type" := JString(ContentBlockDelta),
      "delta" := JObject(map["type" := JString("text_delta"), "text" := JString(fragment)])])
  }

  /** One content_block_delta event per payload, then message_stop with the
      given data. */
  function Transcript(payloads: seq<string>, stop: string): seq<string> {
    if payloads == [] then ["event: " + MessageStop + "\n", "data: " + stop + "\n", "\n"]
    else DeltaGroup(payloads[0]) + Transcript(payloads[1..], stop)
  }

  lemma DeltaLineStep(p: string, fragment: string, parse: Parser)
    requires EndsInNonSpace(p) && parse(p) == Some(TextDeltaEvent(fragment))
    ensures Step(Some(ContentBlockDelta), "data: " + p + "\n", parse) ==
      Transition(Some(ContentBlockDelta), if fragment == "" then Skip else Emit(JString(fragment)))
  {
    StripPrefixedLine("data: ", p);
    assert !StartsWith("data: " + p, "event: ") by {
      assert ("data: " + p)[0] == 'd';
    }
  }

  /** The lines of one content_block_delta event. */
  function DeltaGroup(p: string): seq<string> {
    ["event: " + ContentBlockDelta + "\n", "data: " + p + "\n", "\n"]
  }

  lemma DeltaGroupActions(event: Option<string>, p: string, fragment: string, parse: Parser)
    requires EndsInNonSpace(p) && parse(p) == Some(TextDeltaEvent(fragment))
    ensures Actions(event, DeltaGroup(p), parse) == [Skip, if fragment == "" then Skip else Emit(JString(fragment)), Skip]
    ensures EventAfter(event, DeltaGroup(p), parse) == Some(ContentBlockDelta)
  {
    var cbd := Some(ContentBlockDelta);
    assert EndsInNonSpace(ContentBlockDelta);
    EventLineStep(event, ContentBlockDelta, parse);
    DeltaLineStep(p, fragment, parse);
    BlankLineStep(cbd, parse);
    var group := DeltaGroup(p);
    var a := if fragment == "" then Skip else Emit(JString(fragment));
    assert group[1..] == ["data: " + p + "\n", "\n"];
    assert group[1..][1..] == ["\n"];
    assert Actions(cbd, ["\n"], parse) == [Skip] + Actions(cbd, [], parse);
    assert Actions(cbd, group[1..], parse) == [a] + Actions(cbd, ["\n"], parse);
    assert Actions(event, group, parse) == [Skip] + Actions(cbd, group[1..], parse);
    assert EventAfter(cbd, ["\n"], parse) == EventAfter(cbd, [], parse);
    assert EventAfter(cbd, group[1..], parse) == EventAfter(cbd, ["\n"], parse);
  }

  /** The three lines of a content_block_delta event pass on its fragment,
      if non-empty, whatever event was current before. */
  lemma EventGroup(event: Option<string>, p: string, fragment: string, parse: Parser)
    requires EndsInNonSpace(p) && parse(p) == Some(TextDeltaEvent(fragment))
    ensures Run(Actions(event, DeltaGroup(p), parse)) == StreamResult(TextChunks([fragment]), Exhausted)
    ensures EventAfter(event, DeltaGroup(p), parse) == Some(ContentBlockDelta)
  {
    DeltaGroupActions(event, p, fragment, parse);
    var a := if fragment == "" then Skip else Emit(JString(fragment));
    RunCons(Skip, []);
    RunCons(a, [Skip]);
    RunCons(Skip, [a, Skip]);
    assert [a] + [Skip] == [a, Skip];
    assert [Skip] + [a, Skip] == [Skip, a, Skip];
    assert [fragment][1..] == [];
  }

  lemma GroupThenRest(event: Option<string>, p: string, fragment: string, rest: seq<string>, parse: Parser)
    requires EndsInNonSpace(p) && parse(p) == Some(TextDeltaEvent(fragment))
    ensures Run(Actions(event, DeltaGroup(p) + rest, parse)) ==
      Prepend(TextChunks([fragment]), Run(Actions(Some(ContentBlockDelta), rest, parse)))
  {
    EventGroup(event, p, fragment, parse);
    RunActionsAppend(event, DeltaGroup(p), rest, parse);
  }

  /** The closing lines end the stream, whatever their data, without
      parsing it. */
  lemma ClosingGroup(event: Option<string>, stop: string, parse: Parser)
    requires EndsInNonSpace(stop)
    ensures Run(Actions(event, Transcript([], stop), parse)) == StreamResult([FinalChunk], Done)
  {
    var ms := Some(MessageStop);
    assert EndsInNonSpace(MessageStop);
    EventLineStep(event, MessageStop, parse);
    StripPrefixedLine("data: ", stop);
    assert !StartsWith("data: " + stop, "event: ") by {
      assert ("data: " + stop)[0] == 'd';
    }
    var lines := Transcript([], stop);
    assert lines[1..][0] == "data: " + stop + "\n";
    assert lines[1..][1..] == lines[2..];
    assert Actions(ms, lines[1..], parse) == [Finish] + Actions(ms, lines[2..], parse);
    assert Actions(event, lines, parse) == [Skip] + Actions(ms, lines[1..], parse);
    assert Actions(event, lines, parse) == [Skip, Finish] + Actions(ms, lines[2..], parse);
    RunCons(Finish, Actions(ms, lines[2..], parse));
    RunCons(Skip, [Finish] + Actions(ms, lines[2..], parse));
    assert [Skip] + ([Finish] + Actions(ms, lines[2..], parse)) == [Skip, Finish] + Actions(ms, lines[2..], parse);
  }

  /** Round trip: the events of a stream decode to the non-empty fragments,
      in order, then the final chunk. */
  lemma {:induction false} TranscriptRoundTrip(event: Option<string>, payloads: seq<string>, fragments: seq<string>, stop: string, parse: Parser)
    requires |payloads| == |fragments| && EndsInNonSpace(stop)
    requires forall i :: 0 <= i < |payloads| ==> EndsInNonSpace(payloads[i]) && parse(payloads[i]) == Some(TextDeltaEvent(fragments[i]))
    ensures Run(Actions(event, Transcript(payloads, stop), parse)) == StreamResult(TextChunks(fragments) + [FinalChunk], Done)
    decreases |payloads|
  {
    if payloads == [] {
      ClosingGroup(event, stop, parse);
    } else {
      var rest := Transcript(payloads[1..], stop);
      assert Transcript(payloads, stop) == DeltaGroup(payloads[0]) + rest;
      assert EndsInNonSpace(payloads[0]) && parse(payloads[0]) == Some(TextDeltaEvent(fragments[0]));
      GroupThenRest(event, payloads[0], fragments[0], rest, parse);
      assert forall i :: 0 <= i < |payloads[1..]| ==> payloads[1..][i] == payloads[i + 1] && fragments[1..][i] == fragments[i + 1];
      TranscriptRoundTrip(Some(ContentBlockDelta), payloads[1..], fragments[1..], stop, parse);
      FragmentThenRest(fragments[0], fragments[1..], Run(Actions(Some(ContentBlockDelta), rest, parse)));
      assert fragments == [fragments[0]] + fragments[1..];
    }
  }
}
