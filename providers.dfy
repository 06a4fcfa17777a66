/**
 * The adapter every provider class stands for. Sage::Providers::Base
 * declares complete and stream and leaves them to its subclasses; here the
 * set of adapters is closed and an adapter is a vendor with the options
 * hash it was built with. Facts that hold of every adapter are proved once
 * for all three.
 */
module Providers {
  import opened Wrappers
  import opened RubyJson
  import opened SageTypes
  import opened Streaming
  import opened VendorErrors
  import OpenAI
  import Anthropic
  import Ollama

  /** The adapter classes shipped with the library. */
  datatype Vendor = OpenAIAdapter | AnthropicAdapter | OllamaAdapter

  /** `klass.new(config)` */
  datatype Adapter = Adapter(vendor: Vendor, config: ProviderConfig)

  /** The request an adapter sends for complete (streaming false) or stream. */
  ghost predicate IsSentRequest(a: Adapter, req: Request, streaming: bool, sent: HttpRequest) {
    match a.vendor
    case OpenAIAdapter => OpenAI.IsSentRequest(a.config, req, streaming, sent)
    case AnthropicAdapter => Anthropic.IsSentRequest(a.config, req, streaming, sent)
    case OllamaAdapter => Ollama.IsSentRequest(a.config, req, streaming, sent)
  }

  /** What complete returns or raises, given the transport's reply. Every
      response names the requested model, and every vendor turns a failing
      status into an error without reading a response from the body. */
  function CompleteResult(a: Adapter, model: string, reply: HttpReply, parse: Parser): (r: Result<Response, Error>)
    ensures r.Ok? ==> reply.Answered? && IsSuccess(reply.status) && r.value.model == model
    ensures reply.Answered? && IsSuccess(reply.status) && parse(reply.body).None? ==> r == Err(ParserError)
    ensures reply.Refused? ==> r.Err? && (r.error.ConnectionError? <==> a.vendor == OllamaAdapter)
  {
    match a.vendor
    case OpenAIAdapter => OpenAI.CompleteReply(model, reply, parse)
    case AnthropicAdapter => Anthropic.CompleteReply(model, reply, parse)
    case OllamaAdapter => Ollama.CompleteReply(a.config, model, reply, parse)
  }

  /** The chunks stream passes to the block, and how it ends. No adapter
      hands the block a chunk before the connection and the status are
      known to be good. */
  function StreamOutcome(a: Adapter, reply: StreamReply, parse: Parser): (r: StreamResult)
    ensures reply.StreamRefused? ==>
      r.chunks == [] && r.end.Failed? && (r.end.error.ConnectionError? <==> a.vendor == OllamaAdapter)
    ensures reply.StreamAnswered? && !IsSuccess(reply.status) ==> r.chunks == [] && r.end.Failed?
  {
    match a.vendor
    case OpenAIAdapter => OpenAI.StreamOutcome(reply, parse)
    case AnthropicAdapter => Anthropic.StreamOutcome(reply, parse)
    case OllamaAdapter => Ollama.StreamOutcome(a.config, reply, parse)
  }

  /** complete */
  method Complete(a: Adapter, req: Request, reply: HttpReply, parse: Parser)
    returns (sent: HttpRequest, result: Result<Response, Error>)
    ensures IsSentRequest(a, req, false, sent)
    ensures result == CompleteResult(a, req.model, reply, parse)
  {
    match a.vendor {
      case OpenAIAdapter => sent, result := OpenAI.Complete(a.config, req, reply, parse);
      case AnthropicAdapter => sent, result := Anthropic.Complete(a.config, req, reply, parse);
      case OllamaAdapter => sent, result := Ollama.Complete(a.config, req, reply, parse);
    }
  }

  /** stream */
  method Stream(a: Adapter, req: Request, reply: StreamReply, parse: Parser)
    returns (sent: HttpRequest, r: StreamResult)
    ensures IsSentRequest(a, req, true, sent)
    ensures r == StreamOutcome(a, reply, parse)
  {
    match a.vendor {
      case OpenAIAdapter => sent, r := OpenAI.Stream(a.config, req, reply, parse);
      case AnthropicAdapter => sent, r := Anthropic.Stream(a.config, req, reply, parse);
      case OllamaAdapter => sent, r := Ollama.Stream(a.config, req, reply, parse);
    }
  }

  /** The chunk contract of every adapter: exactly the last chunk is final,
      it is sent only when the vendor's end marker was seen, and every other
      chunk is non-empty. */
  lemma {:induction false} StreamWellFormed(a: Adapter, reply: StreamReply, parse: Parser)
    ensures WellTerminated(StreamOutcome(a, reply, parse))
    ensures ContentNonEmpty(StreamOutcome(a, reply, parse))
  {
    match a.vendor
    case OpenAIAdapter => OpenAI.StreamWellFormed(reply, parse);
    case AnthropicAdapter => Anthropic.StreamWellFormed(reply, parse);
    case OllamaAdapter => Ollama.StreamWellFormed(a.config, reply, parse);
  }

  /** A 401 is an authentication failure for the hosted vendors whenever
      their error message can be extracted, and otherwise the TypeError of
      extract_error_message escapes; Ollama reports a 401 like any other
      failing status. */
  lemma UnauthorizedStatus(a: Adapter, model: string, body: string, parse: Parser)
    ensures var r := CompleteResult(a, model, Answered(401, body), parse);
      && r.Err?
      && (a.vendor != OllamaAdapter ==>
            (r.error.AuthenticationError? <==> ExtractErrorMessageAsWritten(body, parse).Ok?))
      && (a.vendor != OllamaAdapter && !r.error.AuthenticationError? ==> r.error == ShapeError)
      && (a.vendor == OllamaAdapter ==> !r.error.AuthenticationError?)
  {
    match a.vendor
    case OpenAIAdapter =>
    case AnthropicAdapter =>
    case OllamaAdapter =>
  }

  /** The escape at the level of the adapters: a hosted vendor answering 401
      with {"error": "<text>"} makes complete and stream raise TypeError, not
      AuthenticationError. */
  lemma UnauthorizedStringErrorEscapes(a: Adapter, model: string, lines: seq<string>, parse: Parser, text: string)
    requires a.vendor != OllamaAdapter
    requires parse(Concat(lines)) == Some(JObject(map["error" := JString(text)]))
    ensures CompleteResult(a, model, Answered(401, Concat(lines)), parse) == Err(ShapeError)
    ensures StreamOutcome(a, StreamAnswered(401, lines), parse) == StreamResult([], Failed(ShapeError))
  {
    StringErrorFieldEscapes(Concat(lines), parse, text);
  }
}
