/**
 * The vendor-neutral values of the client: Chunk, Response, Profile, the
 * error taxonomy, the request an adapter receives, and the HTTP exchange an
 * adapter takes part in (the transport itself is not modelled: the reply it
 * produced is an input).
 */
module SageTypes {
  import opened Wrappers
  import opened RubyString
  import opened RubyJson

  /** Sage::Chunk: an incremental fragment, final when `done`. */
  datatype Chunk = Chunk(content: Json, done: bool)

  /** The chunk every adapter emits when the vendor signals the end of a stream. */
  const FinalChunk: Chunk := Chunk(JString(""), true)

  /** The usage hash of a Response: whatever the vendor reported, or 0. */
  datatype Usage = Usage(promptTokens: Json, completionTokens: Json)

  /** Sage::Response */
  datatype Response = Response(content: Json, model: string, usage: Usage)

  /** The Sage::Error subclasses, and the three Ruby exceptions that can reach a
      caller untranslated: JSON::ParserError, a NoMethodError or TypeError from
      a reply of unexpected shape, and a network failure other than Ollama's
      refused connection. */
  datatype Error =
    | ProfileNotFound(message: string)
    | ProviderNotConfigured(message: string)
    | NoDefaultProfile(message: string)
    | ConnectionError(message: string)
    | AuthenticationError(message: string)
    | ProviderError(message: string)
    | ParserError
    | ShapeError
    | NetworkFailure

  /** Names of the keyword arguments of the adapters' complete and stream, and
      of build_request_body. */
  predicate KeywordFree(params: map<string, Json>) {
    "model" !in params && "prompt" !in params && "system" !in params && "stream" !in params
  }

  /** The `**params` bag of a call. This model restricts bags to those
      without the keys model, prompt, system and stream: in Ruby such a key
      in a profile's or a caller's parameters reaches the adapter's double
      splat beside the explicit keyword arguments of the same name and
      collides with them, and those collisions are not modelled. */
  type Params = p: map<string, Json> | KeywordFree(p) witness map[]

  /** A provider's options hash: api_key, base_url, endpoint and so on. */
  type ProviderConfig = map<string, string>

  /** `config[key]` where nil and the empty string count as absent. */
  predicate Configured(config: ProviderConfig, key: string) {
    key in config && config[key] != ""
  }

  /** The base URL of an endpoint_uri: the configured value under key, or
      the default when it is nil or empty, with one trailing "/" removed. */
  function BaseUrl(config: ProviderConfig, key: string, default: string): (base: string)
    ensures !Configured(config, key) ==> base == Chomp(default, "/")
    ensures Configured(config, key) && !EndsWith(config[key], "/") ==> base == config[key]
    ensures Configured(config, key) && EndsWith(config[key], "/") ==> base + "/" == config[key]
  {
    Chomp(if Configured(config, key) then config[key] else default, "/")
  }

  /** The arguments of Providers::Base#complete and #stream. */
  datatype Request = Request(model: string, prompt: string, system: Option<string>, params: Params)

  /** Sage::Profile: names are symbols, the model a string. */
  datatype Profile = Profile(name: string, provider: string, model: string, params: Params)

  /** One chat message. */
  function Message(role: string, content: string): Json {
    JObject(map["role" := JString(role), "content" := JString(content)])
  }

  /** The chat messages of the OpenAI and Ollama bodies: the system message
      when one is given, then exactly one user message holding the prompt. */
  function ChatMessages(system: Option<string>, prompt: string): (ms: seq<Json>)
    ensures |ms| == if system.Some? then 2 else 1
    ensures ms[|ms| - 1] == Message("user", prompt)
    ensures system.Some? ==> ms[0] == Message("system", system.value)
  {
    (if system.Some? then [Message("system", system.value)] else []) + [Message("user", prompt)]
  }

  /** An HTTP POST as the adapter hands it to the transport. The body is the
      hash given to JSON.generate; header names are lower-case, as Net::HTTP
      stores them. */
  datatype HttpRequest = HttpRequest(uri: string, headers: map<string, string>, body: map<string, Json>)

  /** What the transport produced for a blocking call. */
  datatype HttpReply = Refused | Answered(status: nat, body: string)

  /** What the transport produced for a streaming call: the physical lines of
      the body as String#each_line yields them. */
  datatype StreamReply = StreamRefused | StreamAnswered(status: nat, lines: seq<string>)

  /** Net::HTTPSuccess */
  predicate IsSuccess(status: nat) {
    200 <= status < 300
  }

  /** The whole body of a streamed reply. */
  function Concat(lines: seq<string>): string {
    if lines == [] then "" else lines[0] + Concat(lines[1..])
  }

  /** The count a Response reports for key of a usage hash: the value when
      it is present and truthy, 0 otherwise. */
  function CountOrZero(usage: map<string, Json>, key: string): Json {
    if key in usage && Truthy(usage[key]) then usage[key] else JInt(0)
  }

  /** A usage count as the adapters read it: `usage[key] || 0`. */
  function TokenCount(usage: Json, key: string): (r: Access)
    ensures r.Value? ==> Truthy(r.v)
    ensures usage.JObject? && key in usage.fields && Truthy(usage.fields[key]) ==> r == Value(usage.fields[key])
    ensures usage.JObject? && (key !in usage.fields || !Truthy(usage.fields[key])) ==> r == Value(JInt(0))
    ensures r.Raises? <==> !(usage.JObject? || usage.JString?)
  {
    match Index(usage, key)
    case Raises => Raises
    case Value(v) => Value(OrElse(v, JInt(0)))
  }
}
