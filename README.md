# Sage, modelled in Dafny

Sage is a Ruby client for large-language-model vendors. A caller configures
named providers (an options hash per vendor) and named profiles (a provider,
a model and default parameters). `Sage::Client#complete` then resolves a
profile, builds the adapter its provider names, merges the parameters, and
asks the adapter either for a blocking `Sage::Response` or, when a block is
given, for a stream of `Sage::Chunk`s. Three adapters ship with the library:
OpenAI (chat completions over server-sent events), Anthropic (messages,
server-sent events with named events) and Ollama (a local server that
streams newline-delimited JSON).

This project models that core. For each adapter it covers the request body,
the endpoint, the headers, the decoding of a blocking reply, the mapping of
error replies, and the line-by-line decoder of a streamed reply. It also
covers the client's dispatch and the configuration object. The transport is
not modelled: the reply the server produced is an input. JSON.parse is a
parameter (`RubyJson.Parser`), so every property holds for any parser.

Files and modules:

- `wrappers.dfy`: `Option` and `Result`.
- `ruby_string.dfy` (`RubyString`): the Ruby String methods the adapters call (`strip`, `start_with?`, `delete_prefix`, `chomp`, `include?`, `Integer#to_s`).
- `ruby_json.dfy` (`RubyJson`): parsed JSON values and the Ruby operations applied to them (`Hash#[]`, `String#[]`, `dig`, `fetch`, `empty?`, `||`, interpolation). An operation Ruby refuses with NoMethodError or TypeError yields `Raises`.
- `sage_types.dfy` (`SageTypes`): Chunk, Response, the error classes, the request an adapter receives, the HTTP exchange.
- `streaming.dfy` (`Streaming`): each decoder turns each line into an action, and `Run` folds the actions into the chunks handed to the block. The chunk contract is proved once here.
- `vendor_errors.dfy` (`VendorErrors`): the error handling that OpenAI and Anthropic share.
- `openai.dfy`, `anthropic.dfy` and `ollama.dfy`: the three adapters.
- `providers.dfy` (`Providers`): the closed set of adapters and the dispatch to them.
- `configuration.dfy` (`SageConfiguration`): the `Sage::Configuration` class.
- `client.dfy` (`SageClient`): the adapter registry and `Sage::Client`.

The streaming decoders are imperative, as in the source. OpenAI and Ollama
keep no state between lines and share one line loop, `Streaming.DecodeLines`,
over their per-line action; Anthropic's loop, `Anthropic.Decode`, keeps the
current event in a local variable. Each loop is proved equal to `Run` over
the actions of its lines. The configuration and the registry are classes
whose methods update their maps in place.

Behaviours of the code that a reader might not expect, all modelled as the
code has them:

- Anthropic skips `data:` lines under events other than `message_stop` and
  `content_block_delta` without parsing them, so a malformed payload there
  raises nothing (lib/sage/providers/anthropic.rb:61,
  `Anthropic.OtherEventsIgnored`).
- Ollama maps a failing status, 401 included, to `ProviderError`; only the
  hosted vendors raise `AuthenticationError`
  (lib/sage/providers/ollama.rb:113-116, `Providers.UnauthorizedStatus`).
  The exception is a failing body that parses to an array or to null:
  `parsed["error"]` then raises TypeError or NoMethodError, which the
  `rescue JSON::ParserError` of lib/sage/providers/ollama.rb:119-122 does
  not catch, and that escapes instead (`Ollama.HandleErrorResponse`).
- Ollama does not forward the caller's extra parameters into its request
  body (lib/sage/providers/ollama.rb:13, 35 and 70-80,
  `Ollama.ParamsNotForwarded`).
- Anthropic omits `x-api-key` when the options hold no api_key, because
  assigning nil to a Net::HTTP header deletes it
  (lib/sage/providers/anthropic.rb:122).
- OpenAI always sends `Authorization`, and sends `Bearer ` with nothing
  after it when no key is configured (lib/sage/providers/openai.rb:116).
- OpenAI and Anthropic let a TypeError escape their error handling when a
  failing reply's "error" field is not an object (see Findings); the
  adapters' `CompleteReply` and `StreamOutcome` use
  `VendorErrors.HandleErrorResponseAsWritten`, which has that escape.

## Model

| member | source | states |
|---|---|---|
| RubyString.DeletePrefix | lib/sage/providers/openai.rb:48 | the prefix is removed exactly when the string starts with it, and the rest is kept |
| RubyString.Chomp | lib/sage/providers/openai.rb:124 | one trailing "/" is removed when present, and the string is otherwise unchanged |
| RubyString.ContainsAt | lib/sage/providers/openai.rb:91-95 | `include?` holds iff the substring occurs at some position |
| RubyString.ContainsNoLonger | lib/sage/providers/openai.rb:91-95 | a string contains no other string at least as long as itself |
| RubyString.LStrip | lib/sage/providers/openai.rb:44 | String#lstrip, never longer than the line |
| RubyString.RStrip | lib/sage/providers/openai.rb:44 | String#rstrip, never longer than the line |
| RubyString.Strip | lib/sage/providers/openai.rb:44 | String#strip as rstrip after lstrip, never longer than the line |
| RubyString.LStripRemovesLeadingSpace | lib/sage/providers/openai.rb:44 | lstrip drops a run of leading whitespace, only that, and leaves a non-space first |
| RubyString.RStripRemovesTrailingSpace | lib/sage/providers/openai.rb:44 | rstrip drops a run of trailing whitespace, only that, and leaves a non-space last |
| RubyString.StripRemovesSurroundingSpace | lib/sage/providers/openai.rb:44 | strip keeps the part of the line between leading and trailing whitespace runs, framed by non-space characters |
| RubyString.TrimmedWithin | lib/sage/providers/openai.rb:44 | removing leading and then trailing whitespace leaves the line trimmed at the right position |
| RubyString.RStripTrailing | lib/sage/providers/ollama.rb:46 | rstrip removes exactly the whitespace after a non-space character |
| RubyString.StripFramed | lib/sage/providers/ollama.rb:46 | strip removes exactly the trailing whitespace after a line framed by non-space characters |
| RubyString.StripPrefixedLine | lib/sage/providers/anthropic.rb:46-49 | a prefixed line strips to prefix and text, and delete_prefix recovers the text |
| RubyString.NatToString | lib/sage/providers/openai.rb:136 | the status renders as non-empty decimal digits without a leading zero |
| RubyString.DecimalRoundTrip | lib/sage/providers/openai.rb:130 | to_i of the rendered status gives the status back |
| RubyJson.OrElse | lib/sage/providers/openai.rb:17 | `v \|\| d` is v when v is truthy, else d |
| RubyJson.Index | lib/sage/providers/ollama.rb:18 | Hash#[] looks the key up, String#[] yields the key if it occurs, and other receivers raise |
| RubyJson.DigStep | lib/sage/providers/openai.rb:17 | one dig step: a key into a Hash, an index into an Array; a key into an Array raises |
| RubyJson.Dig | lib/sage/providers/openai.rb:17 | a receiver without dig raises |
| RubyJson.DigObjects | lib/sage/providers/ollama.rb:20 | digging a key path through nested objects finds the leaf |
| RubyJson.Fetch | lib/sage/providers/openai.rb:18 | fetch returns the value of a present key (nil included) and the default otherwise; a non-Hash raises |
| RubyJson.IsEmpty | lib/sage/providers/openai.rb:57 | empty? is defined exactly for strings, arrays and hashes |
| RubyJson.Render | lib/sage/providers/ollama.rb:18 | interpolation renders strings as themselves and integers in decimal |
| SageTypes.BaseUrl | lib/sage/providers/openai.rb:121-125 | the configured base, or the default when nil or empty, with one trailing "/" removed |
| SageTypes.ChatMessages | lib/sage/providers/openai.rb:69-71 | an optional system message, then exactly one user message holding the prompt |
| SageTypes.TokenCount | lib/sage/providers/openai.rb:24-25 | `usage[key] \|\| 0` is the reported count when truthy, 0 otherwise, and raises on a non-Hash non-String |
| Streaming.Run | lib/sage/providers/openai.rb:43-60 | the fold of the lines' actions: skip, emit one chunk, or stop with the final chunk or an exception |
| Streaming.RunWellTerminated | lib/sage/chunk.rb:7-14 | after any lines, exactly the last chunk is final, only after the end marker, and it is the empty final chunk |
| Streaming.RunContentNonEmpty | lib/sage/providers/openai.rb:57 | when no action emits empty content, no non-final chunk is empty |
| Streaming.RunAppend | lib/sage/providers/openai.rb:42-61 | a body can be read in two pieces, and once the first piece has ended the stream the second changes nothing |
| Streaming.RunReference | lib/sage/providers/openai.rb:43-60 | the stream is the chunks emitted before the first stopping line, then the final chunk if that line was the end marker |
| Streaming.RunDoneNeedsFinish | lib/sage/providers/openai.rb:50-53 | the stream ends with Done only if some line asked to finish |
| Streaming.FirstStop | lib/sage/providers/openai.rb:43-60 | the first line that ends the stream: every earlier line skips or emits |
| Streaming.EmittedChunks | lib/sage/providers/openai.rb:59 | at most one chunk per line |
| Streaming.DeltaAction | lib/sage/providers/openai.rb:56-59 | nil and "" are skipped, a non-empty string is emitted, and the action never ends the stream |
| Streaming.TextChunks | lib/sage/providers/openai.rb:59 | every chunk of the fragments is non-final with non-empty text |
| Streaming.TextChunksAppend | lib/sage/providers/openai.rb:43-60 | the chunks of consecutive fragment lists concatenate |
| Streaming.FragmentThenRest | lib/sage/providers/openai.rb:43-60 | a fragment's chunk followed by a stream that ended gives the chunks of all the fragments, then the final chunk |
| Streaming.RunCons | lib/sage/providers/openai.rb:45-59 | the effect of one line on the rest: skip, emit one chunk, finish, or raise |
| Streaming.LineActions | lib/sage/providers/openai.rb:43 | one action per line, the decoder's action for that line |
| Streaming.DecodeLines | lib/sage/providers/openai.rb:42-61 | the line loop of OpenAI and Ollama hands the block exactly the chunks that `Run` gives for the lines' actions |
| VendorErrors.ExtractErrorMessageAsWritten | lib/sage/providers/openai.rb:140-145 | a body that does not parse is the message itself; the only escape is a TypeError |
| VendorErrors.ExtractErrorMessage | lib/sage/providers/anthropic.rb:141-146 | agrees with the code wherever the code returns, and falls back to the raw body where the code raises |
| VendorErrors.MessageFound | lib/sage/providers/openai.rb:142 | an error.message string is the message |
| VendorErrors.MessageFallsBack | lib/sage/providers/openai.rb:142-144 | an unparsable body, or one without an error field, is its own message |
| VendorErrors.HandleErrorResponseAsWritten | lib/sage/providers/openai.rb:127-145 | handle_error_response as the code has it: the TypeError of extract_error_message, or else exactly the corrected mapping |
| VendorErrors.ErrorForStatus | lib/sage/providers/openai.rb:130-137 | the status case table: AuthenticationError iff 401, ProviderError otherwise, and the message always ends with the extracted one |
| VendorErrors.HandleErrorResponse | lib/sage/providers/openai.rb:127-138 | the mapping a fix would give: AuthenticationError iff status 401, else ProviderError, with the 401, 429 and other-status message texts |
| VendorErrors.StringErrorFieldEscapes | lib/sage/providers/anthropic.rb:128-146 | a body {"error": "..."} makes the code raise TypeError on a 401, where the corrected version gives AuthenticationError |
| OpenAI.MaxCompletionTokensExamples | lib/sage/providers/openai.rb:91-95 | gpt-4o-mini, o1-preview, o3-mini and gpt-5 take max_completion_tokens, and gpt-4 does not |
| OpenAI.UseMaxCompletionTokens | lib/sage/providers/openai.rb:91-95 | use_max_completion_tokens?: the model starts with o1 or o3, or contains gpt-4o or gpt-5 |
| OpenAI.TokenLimitKey | lib/sage/providers/openai.rb:79-85 | the limit is named max_completion_tokens iff the model starts with o1 or o3 or contains gpt-4o or gpt-5 |
| OpenAI.BuildRequestBody | lib/sage/providers/openai.rb:68-89 | model, messages, stream, a truthy max_tokens under the model's limit name, and every other parameter copied |
| OpenAI.RequestBodyDetermined | lib/sage/providers/openai.rb:68-89 | the body is a function of the request |
| OpenAI.TokenLimitRouted | lib/sage/providers/openai.rb:79-85 | a given max_tokens is sent under exactly one name, chosen by the model |
| OpenAI.NoTokenLimit | lib/sage/providers/openai.rb:79 | without a truthy max_tokens, neither name is sent |
| OpenAI.EndpointUri | lib/sage/providers/openai.rb:121-125 | the base URL (configured or default) joined with /chat/completions |
| OpenAI.ApiKeyText | lib/sage/providers/openai.rb:116 | the configured key, or "" when none is configured |
| OpenAI.BuildHttpRequest | lib/sage/providers/openai.rb:113-119 | content-type and a Bearer authorization header, always |
| OpenAI.DecodeCompletion | lib/sage/providers/openai.rb:16-27 | the requested model is echoed, the fields are truthy, and only a reply of unexpected shape fails |
| OpenAI.ContentFound | lib/sage/providers/openai.rb:17 | choices[0].message.content is found through nested objects |
| OpenAI.DecodeWellFormed | lib/sage/providers/openai.rb:16-27 | a documented reply decodes to its content and its two counts |
| OpenAI.DecodeDefaults | lib/sage/providers/openai.rb:17-25 | any reply object whose content lookup does not raise and whose usage is a Hash or absent decodes; its content is the found one or "" when nil, and each count is the reported one or 0 when missing or falsy |
| OpenAI.DecodeEmpty | lib/sage/providers/openai.rb:17-25 | a reply object without choices and usage decodes to "" and zero counts |
| OpenAI.CompleteReply | lib/sage/providers/openai.rb:12-28 | a failing status goes through handle_error_response as written, so it is an AuthenticationError iff 401 unless the TypeError escapes; an unparsable success raises ParserError, and a response comes only from a success |
| OpenAI.Complete | lib/sage/providers/openai.rb:12-28 | sends the specified request with stream false, and returns the reply's outcome as the code computes it, error escapes included |
| OpenAI.LineAction | lib/sage/providers/openai.rb:44-59 | a line emits only non-empty content |
| OpenAI.LineActionCases | lib/sage/providers/openai.rb:44-59 | non-data lines skip, exactly `data: [DONE]` finishes, an unparsable payload raises, and a parsed one yields its delta content |
| OpenAI.Actions | lib/sage/providers/openai.rb:43 | one action per line |
| OpenAI.StreamOutcome | lib/sage/providers/openai.rb:39-61 | a failing status raises through handle_error_response as written before any chunk (AuthenticationError iff 401 unless the TypeError escapes); a success yields the run of the lines' actions |
| OpenAI.ActionsAppend | lib/sage/providers/openai.rb:43 | the actions of a body split into two pieces concatenate |
| OpenAI.Stream | lib/sage/providers/openai.rb:30-64 | sends the specified request with stream true, and hands the block exactly the stream outcome of the reply |
| OpenAI.StreamWellFormed | lib/sage/providers/openai.rb:30-64 | every stream is well terminated and every non-final chunk is non-empty |
| OpenAI.NoFinalWithoutDone | lib/sage/providers/openai.rb:50-53 | a final chunk means some line was `data: [DONE]` |
| OpenAI.LinesAfterDoneIgnored | lib/sage/providers/openai.rb:52 | nothing after [DONE] reaches the block |
| OpenAI.BlankLineSkipped | lib/sage/providers/openai.rb:45 | a blank line does nothing |
| OpenAI.DoneLineFinishes | lib/sage/providers/openai.rb:50-53 | the [DONE] line finishes the stream |
| OpenAI.DataLinePayload | lib/sage/providers/openai.rb:44-48 | a data line is read back as its payload |
| OpenAI.DeltaEventDig | lib/sage/providers/openai.rb:56 | choices[0].delta.content of a delta event is its fragment |
| OpenAI.DeltaLineAction | lib/sage/providers/openai.rb:55-59 | a delta event line emits its fragment when non-empty |
| OpenAI.ClosingLines | lib/sage/providers/openai.rb:50-53 | the closing lines end the stream with the final chunk |
| OpenAI.EventLines | lib/sage/providers/openai.rb:44-59 | one event's lines pass on its fragment |
| OpenAI.EventThenRest | lib/sage/providers/openai.rb:43-60 | one event, then the rest of the body |
| OpenAI.TranscriptRoundTrip | lib/sage/providers/openai.rb:42-61 | a stream of delta events decodes to the non-empty fragments in order, then the final chunk |
| Anthropic.BuildRequestBody | lib/sage/providers/anthropic.rb:78-91 | one user message, max_tokens defaulting to 1024, system and stream only when given, then the remaining parameters merged |
| Anthropic.RequestBodyDetermined | lib/sage/providers/anthropic.rb:78-91 | the body is a function of the request |
| Anthropic.EndpointUri | lib/sage/providers/anthropic.rb:99-103 | the base URL (configured or default) joined with /messages |
| Anthropic.BuildHttpRequest | lib/sage/providers/anthropic.rb:119-126 | content-type, anthropic-version 2023-06-01, and x-api-key exactly when the options hold an api_key |
| Anthropic.FindText | lib/sage/providers/anthropic.rb:95-96 | the find over the blocks: the first whose type is "text" gives its text, a block that refuses `[]` raises |
| Anthropic.FindTextFirst | lib/sage/providers/anthropic.rb:95-96 | after blocks whose type is missing or not "text", the first text block's text is the content |
| Anthropic.FindTextNone | lib/sage/providers/anthropic.rb:95-96 | when every block's type is missing or not "text", the content is "" |
| Anthropic.ExtractContent | lib/sage/providers/anthropic.rb:93-97 | a Hash whose content is nil or false gives "", a Hash whose content is an array gives its first text block, and a value that is neither a Hash nor a String raises |
| Anthropic.DecodeMessage | lib/sage/providers/anthropic.rb:18-29 | the requested model is echoed, counts are truthy, and only a reply of unexpected shape fails |
| Anthropic.DecodeWellFormed | lib/sage/providers/anthropic.rb:18-29 | a documented reply decodes to its first text block and input/output counts |
| Anthropic.DecodeDefaults | lib/sage/providers/anthropic.rb:18-29 | any reply object whose content extraction does not raise and whose usage is a Hash or absent decodes; its content is the extracted one, "" when the content field is nil or missing, and each count is the reported one or 0 when missing or falsy |
| Anthropic.CompleteReply | lib/sage/providers/anthropic.rb:14-30 | a failing status goes through handle_error_response as written, so it is an AuthenticationError iff 401 unless the TypeError escapes; an unparsable success raises ParserError, and a response comes only from a success |
| Anthropic.Complete | lib/sage/providers/anthropic.rb:14-30 | sends the specified request without stream, and returns the reply's outcome as the code computes it, error escapes included |
| Anthropic.DeltaText | lib/sage/providers/anthropic.rb:63-69 | what is emitted is exactly delta.text, non-empty, of a delta whose type is text_delta; a nil delta or a delta of another type is skipped; never a finish |
| Anthropic.DataAction | lib/sage/providers/anthropic.rb:53-69 | a non-event line emits only non-empty content |
| Anthropic.Step | lib/sage/providers/anthropic.rb:46-51 | a line emits only non-empty content |
| Anthropic.Actions | lib/sage/providers/anthropic.rb:45 | one action per line |
| Anthropic.StreamOutcome | lib/sage/providers/anthropic.rb:39-71 | a failing status raises through handle_error_response as written before any chunk (AuthenticationError iff 401 unless the TypeError escapes); a success yields the run of the lines' actions from no current event |
| Anthropic.ActionAt | lib/sage/providers/anthropic.rb:42-69 | a line's action is its step under the event the earlier lines left current |
| Anthropic.EventPersists | lib/sage/providers/anthropic.rb:48-51 | the current event changes only at event lines |
| Anthropic.EventLineStep | lib/sage/providers/anthropic.rb:48-51 | `event: X` makes X current and emits nothing |
| Anthropic.BlankLineStep | lib/sage/providers/anthropic.rb:53 | a blank line does nothing and keeps the event |
| Anthropic.ActionsUnfold | lib/sage/providers/anthropic.rb:45 | the actions of the lines from i on are line i's action, then the rest's actions under the new event |
| Anthropic.ActionsAppend | lib/sage/providers/anthropic.rb:45 | a body split in two: the second piece starts from the event the first left current |
| Anthropic.RunActionsAppend | lib/sage/providers/anthropic.rb:44-71 | reading a body in two pieces |
| Anthropic.Decode | lib/sage/providers/anthropic.rb:42-71 | the loop, with its mutable current event, hands the block exactly the chunks `Run` gives |
| Anthropic.Stream | lib/sage/providers/anthropic.rb:32-74 | sends the specified request with stream true, and hands the block exactly the stream outcome of the reply |
| Anthropic.StreamWellFormed | lib/sage/providers/anthropic.rb:32-74 | every stream is well terminated and every non-final chunk is non-empty |
| Anthropic.NoFinalWithoutStop | lib/sage/providers/anthropic.rb:56-59 | a final chunk means a data line was read while message_stop was current |
| Anthropic.OtherEventsIgnored | lib/sage/providers/anthropic.rb:61 | under another event nothing is emitted and the payloads are never parsed |
| Anthropic.DeltaLineStep | lib/sage/providers/anthropic.rb:61-69 | a content_block_delta data line emits its fragment when non-empty |
| Anthropic.DeltaGroupActions | lib/sage/providers/anthropic.rb:46-69 | the three lines of a delta event: skip, the fragment, skip |
| Anthropic.EventGroup | lib/sage/providers/anthropic.rb:46-69 | one delta event passes on its fragment whatever event was current |
| Anthropic.GroupThenRest | lib/sage/providers/anthropic.rb:44-71 | one delta event, then the rest under content_block_delta |
| Anthropic.ClosingGroup | lib/sage/providers/anthropic.rb:56-59 | message_stop ends the stream whatever its data |
| Anthropic.TranscriptRoundTrip | lib/sage/providers/anthropic.rb:42-71 | a stream of delta events decodes to the non-empty fragments in order, then the final chunk |
| Ollama.RequestBody | lib/sage/providers/ollama.rb:70-80 | exactly model, messages and stream |
| Ollama.ParamsNotForwarded | lib/sage/providers/ollama.rb:12-13 | the caller's parameters do not change the body |
| Ollama.EndpointUri | lib/sage/providers/ollama.rb:107-111 | the endpoint (configured or localhost:11434) joined with /api/chat |
| Ollama.BuildHttpRequest | lib/sage/providers/ollama.rb:96-105 | content-type, and Bearer authorization iff a non-empty key is configured |
| Ollama.ExtractErrorMessage | lib/sage/providers/ollama.rb:118-123 | an unparsable body is its own message; the lookup raises exactly when the body parses to a value that is neither a Hash nor a String |
| Ollama.HandleErrorResponse | lib/sage/providers/ollama.rb:113-116 | never an AuthenticationError: a failing status, 401 included, is a ProviderError naming the status, except that it is the shape error exactly when the body parses to neither a Hash nor a String |
| Ollama.ErrorFieldReported | lib/sage/providers/ollama.rb:113-122 | a body {"error": text} is reported with its text |
| Ollama.ConnectionRefused | lib/sage/providers/ollama.rb:30-31 | a refused connection is a ConnectionError |
| Ollama.DecodeChat | lib/sage/providers/ollama.rb:16-29 | the model is echoed, the fields are truthy, and failures are a shape error or the in-band error |
| Ollama.InBandError | lib/sage/providers/ollama.rb:18 | a non-empty error field is raised in band despite a success status |
| Ollama.DecodeWellFormed | lib/sage/providers/ollama.rb:20-29 | a documented reply decodes to its message content and two counts |
| Ollama.DecodeDefaults | lib/sage/providers/ollama.rb:18-29 | any reply object without a non-empty error whose content lookup does not raise decodes; its content is message.content or "" when nil, and each count is the reported one or 0 when missing or falsy |
| Ollama.MessageContentFound | lib/sage/providers/ollama.rb:20 | message.content is found through nested objects |
| Ollama.CompleteReply | lib/sage/providers/ollama.rb:12-32 | a refused connection gives the ConnectionError, a failing status maps through handle_error_response, and an unparsable success raises ParserError |
| Ollama.Complete | lib/sage/providers/ollama.rb:12-32 | sends the specified request with stream false, and returns the reply's decoding |
| Ollama.LineAction | lib/sage/providers/ollama.rb:46-59 | a line emits only non-empty content |
| Ollama.LineActionCases | lib/sage/providers/ollama.rb:46-54 | blank lines skip, an unparsable line raises, a truthy done finishes whatever the line also carries, and any other object yields its message.content delta |
| Ollama.Actions | lib/sage/providers/ollama.rb:45 | one action per line |
| Ollama.StreamOutcome | lib/sage/providers/ollama.rb:34-66 | a refused connection is the ConnectionError, a failing status raises a ProviderError or the shape error before any chunk, and a success yields the run of the lines' actions |
| Ollama.ActionsAppend | lib/sage/providers/ollama.rb:45 | the actions of a body split into two pieces concatenate |
| Ollama.Stream | lib/sage/providers/ollama.rb:34-66 | sends the specified request with stream true, and hands the block exactly the stream outcome of the reply |
| Ollama.StreamWellFormed | lib/sage/providers/ollama.rb:34-66 | every stream is well terminated and every non-final chunk is non-empty |
| Ollama.NoFinalWithoutDone | lib/sage/providers/ollama.rb:51-54 | a final chunk means some line's done field was truthy |
| Ollama.LinesAfterDoneIgnored | lib/sage/providers/ollama.rb:53 | nothing after the done line reaches the block |
| Ollama.FramedLine | lib/sage/providers/ollama.rb:46 | a framed line strips to itself |
| Ollama.DeltaLineAction | lib/sage/providers/ollama.rb:49-59 | a message line emits its fragment when non-empty |
| Ollama.DoneLineAction | lib/sage/providers/ollama.rb:51-54 | a line with a truthy done finishes |
| Ollama.MessageLine | lib/sage/providers/ollama.rb:49-59 | one message line passes on its fragment |
| Ollama.LineThenRest | lib/sage/providers/ollama.rb:44-61 | one message line, then the rest of the body |
| Ollama.TranscriptRoundTrip | lib/sage/providers/ollama.rb:44-61 | a stream of message lines and a done line decodes to the non-empty fragments in order, then the final chunk |
| Providers.CompleteResult | lib/sage/providers/base.rb:10-12 | every response echoes the model and comes from a success; an unparsable success is a ParserError; a refused connection is a ConnectionError only for Ollama |
| Providers.StreamOutcome | lib/sage/providers/base.rb:14-16 | no adapter hands the block a chunk when the connection is refused or the status fails; a refused connection is a ConnectionError only for Ollama |
| Providers.Complete | lib/sage/providers/base.rb:10-12 | dispatches to the vendor's complete, with its sent request and result |
| Providers.Stream | lib/sage/providers/base.rb:14-16 | dispatches to the vendor's stream, with its sent request and chunks |
| Providers.StreamWellFormed | lib/sage/providers/base.rb:14-16 | every adapter's stream is well terminated with non-empty content chunks |
| Providers.UnauthorizedStatus | lib/sage/providers/ollama.rb:113-116 | a 401 from OpenAI or Anthropic is an AuthenticationError exactly when the error message can be extracted, and the escaped TypeError otherwise; from Ollama it is never one |
| Providers.UnauthorizedStringErrorEscapes | lib/sage/providers/openai.rb:140-145 | a hosted vendor's 401 with body {"error": "<text>"} raises the TypeError from both complete and stream |
| SageConfiguration.ToSym | lib/sage/configuration.rb:16 | a name becomes the same key whether written as a String or a Symbol |
| SageConfiguration.NewProfile | lib/sage/profile.rb:7-12 | the profile stores the symbolised name and provider, the model as a string, and the parameters |
| SageConfiguration.Configuration.constructor | lib/sage/configuration.rb:9-13 | no providers, no profiles, no default |
| SageConfiguration.Configuration.Provider | lib/sage/configuration.rb:15-17 | stores the options under the symbolised name, replacing an earlier entry, and nothing else changes |
| SageConfiguration.Configuration.Profile | lib/sage/configuration.rb:19-21 | stores the new profile under its own name, and nothing else changes |
| SageConfiguration.Configuration.DefaultProfile | lib/sage/configuration.rb:23-29 | without a name it reads the default; with one it stores the symbol and returns it |
| SageClient.ProviderRegistry.constructor | lib/sage/client.rb:5 | the registry starts empty |
| SageClient.ProviderRegistry.RegisterProvider | lib/sage/client.rb:7-9 | stores the adapter under the symbolised name, replacing an earlier one |
| SageClient.MergeParams | lib/sage/client.rb:18 | the union of the keys, with the call's value winning |
| SageClient.Client.constructor | lib/sage/client.rb:11-13 | the client keeps the configuration it is given |
| SageClient.Client.ResolveProfile | lib/sage/client.rb:31-41 | the named or default profile; NoDefaultProfile and ProfileNotFound with their messages |
| SageClient.Client.BuildProvider | lib/sage/client.rb:43-53 | an adapter iff the provider is configured and registered; the configuration is checked first, each failure with its message |
| SageClient.Client.Complete | lib/sage/client.rb:15-25 | dispatch errors are raised before any request; otherwise the profile's model and the merged parameters go to the adapter's complete, or to its stream when a block is given, with that adapter's outcome |

## Left out

- The transport: sockets, TLS, timeouts, Net::HTTP's default headers, and the read_body fragments. A streamed body is given as the lines each_line yields.
- Network failures other than a refused connection to Ollama: they are one `NetworkFailure` value.
- URI parsing: endpoints are strings. A malformed base URL is not modelled.
- JSON generation: a request body is the hash handed to JSON.generate.
- JSON.parse: it is a parameter, not an implementation.
- The Sage::Response and Sage::Chunk classes are values without their accessor methods.
- RubyJson.Render: floats and containers render as fixed markers, not as Ruby's to_s would.
- Option values other than strings in a provider's options hash are not modelled.
- Keyword collisions: parameter hashes are restricted to those without the keys model, prompt, system and stream (`SageTypes.Params`), for a caller's parameters and a profile's alike. In Ruby such a key reaches the adapter's double splat beside the explicit keyword of the same name and collides with it; that collision is not modelled.
- The `sent` request of a refused connection is still described by the adapter's request methods, because building the request does not depend on the reply.
- Aliasing: `attr_reader :providers, :profiles` hand out the live hashes, which callers could mutate behind the configuration's back.
- The Sage.configure module function, the Railtie and the install generator are not part of this model.
- Adapter classes other than the three shipped ones, such as a caller's Base subclass, are not modelled. The set of adapters is closed (`Providers.Vendor`), because Base's abstract methods have no behaviour of their own.
- Header names are lower-case, as Net::HTTP keys them; case-insensitive lookup is not modelled.
- Ruby's return value from stream, and the block's own effects, are not modelled. The block receives the chunks in order.

## Findings

| source | as written | input that shows it | evidently intended | confidence | as-written member | corrected member |
|---|---|---|---|---|---|---|
| lib/sage/providers/openai.rb:140-145 and lib/sage/providers/anthropic.rb:141-146 | `parsed.dig("error", "message")` raises TypeError when "error" holds a String, and only JSON::ParserError is rescued, so the error escapes handle_error_response | a 401 reply with body `{"error": "invalid key"}` raises TypeError instead of AuthenticationError | fall back to the raw body whenever error.message cannot be read | not executed | VendorErrors.StringErrorFieldEscapes | VendorErrors.HandleErrorResponse |

The adapters model the code as written: `OpenAI.CompleteReply`, `OpenAI.StreamOutcome`, `Anthropic.CompleteReply` and `Anthropic.StreamOutcome` call `VendorErrors.HandleErrorResponseAsWritten`, and `Providers.UnauthorizedStringErrorEscapes` shows the escape through complete and stream. `VendorErrors.HandleErrorResponse` is the definition a fix would put in its place, and `VendorErrors.HandleErrorResponseAsWritten` is proved to agree with it everywhere except the escape. Ollama has a related escape that is not listed as a finding, because a failing Ollama body is not documented to be a Hash: a body that parses to an array or null makes `parsed["error"]` raise an error that only JSON::ParserError is rescued against (lib/sage/providers/ollama.rb:119-122), and `Ollama.HandleErrorResponse` gives the shape error for exactly those bodies.
