/**
 * Error replies of the two vendors whose error bodies follow the
 * {"error": {"message": ...}} convention: OpenAI and Anthropic carry the same
 * handle_error_response and extract_error_message, so they are modelled once.
 */
module VendorErrors {
  import opened Wrappers
  import opened RubyString
  import opened RubyJson
  import opened SageTypes

  /** The dig path error.message. */
  const MessagePath: seq<Step> := [Key("error"), Key("message")]

  /** extract_error_message as the source writes it: JSON::ParserError is
      rescued, but when "error" holds a value without dig (a String, say),
      Hash#dig raises TypeError, which escapes. */
  function ExtractErrorMessageAsWritten(body: string, parse: Parser): (r: Result<string, Error>)
    ensures parse(body).None? ==> r == Ok(body)
    ensures r.Err? ==> r.error == ShapeError
  {
    match parse(body)
    case None => Ok(body)
    case Some(parsed) =>
      match Dig(parsed, MessagePath)
      case Raises => Err(ShapeError)
      case Value(m) => Ok(if Truthy(m) then Render(m) else body)
  }

  /** extract_error_message as evidently intended: error.message when it is
      there, and otherwise the raw body, whatever the body holds. */
  function ExtractErrorMessage(body: string, parse: Parser): (msg: string)
    ensures ExtractErrorMessageAsWritten(body, parse).Ok? ==> msg == ExtractErrorMessageAsWritten(body, parse).value
    ensures ExtractErrorMessageAsWritten(body, parse).Err? ==> msg == body
  {
    match parse(body)
    case None => body
    case Some(parsed) =>
      match Dig(parsed, MessagePath)
      case Raises => body
      case Value(m) => if Truthy(m) then Render(m) else body
  }

  /** A body carrying a string under error.message yields that string. */
  lemma MessageFound(body: string, parse: Parser, text: string)
    requires parse(body) == Some(Nest(["error", "message"], JString(text)))
    ensures ExtractErrorMessage(body, parse) == text
  {
    DigObjects(Nest(["error", "message"], JString(text)), ["error", "message"], JString(text));
    assert KeyPath(["error", "message"]) == MessagePath;
  }

  /** A body without error.message, or one that does not parse, yields the raw body. */
  lemma MessageFallsBack(body: string, parse: Parser)
    requires parse(body).None? || (parse(body).Some? && parse(body).value.JObject? && "error" !in parse(body).value.fields)
    ensures ExtractErrorMessage(body, parse) == body
  {
  }

  /** handle_error_response as the source writes it. */
  function HandleErrorResponseAsWritten(status: nat, body: string, parse: Parser): (e: Error)
    ensures e == ShapeError || e.AuthenticationError? || e.ProviderError?
    ensures e != ShapeError ==> e == HandleErrorResponse(status, body, parse)
  {
    match ExtractErrorMessageAsWritten(body, parse)
    case Err(err) => err
    case Ok(msg) => ErrorForStatus(status, msg)
  }

  /** handle_error_response, with the error message extracted as intended. */
  function HandleErrorResponse(status: nat, body: string, parse: Parser): (e: Error)
    ensures e.AuthenticationError? <==> status == 401
    ensures e.ProviderError? <==> status != 401
    ensures status == 401 ==> e.message == "Invalid API key: " + ExtractErrorMessage(body, parse)
    ensures status == 429 ==> e.message == "Rate limited: " + ExtractErrorMessage(body, parse)
    ensures status != 401 && status != 429 ==>
      e.message == "API error (" + NatToString(status) + "): " + ExtractErrorMessage(body, parse)
  {
    ErrorForStatus(status, ExtractErrorMessage(body, parse))
  }

  /** The case analysis on the status code of handle_error_response
      (lib/sage/providers/openai.rb:130-137, and the same lines 131-138 of
      anthropic.rb): 401 is the authentication error, and every error ends
      with the extracted message. */
  function ErrorForStatus(status: nat, msg: string): (e: Error)
    ensures e.AuthenticationError? <==> status == 401
    ensures e.AuthenticationError? || e.ProviderError?
    ensures |msg| <= |e.message| && e.message[|e.message| - |msg|..] == msg
  {
    if status == 401 then AuthenticationError("Invalid API key: " + msg)
    else if status == 429 then ProviderError("Rate limited: " + msg)
    else ProviderError("API error (" + NatToString(status) + "): " + msg)
  }

  /** The discrepancy: a 401 whose body is {"error": "<text>"} surfaces as a
      TypeError rather than an AuthenticationError, while the intended
      extraction falls back to the raw body. */
  lemma StringErrorFieldEscapes(body: string, parse: Parser, text: string)
    requires parse(body) == Some(JObject(map["error" := JString(text)]))
    ensures ExtractErrorMessageAsWritten(body, parse) == Err(ShapeError)
    ensures HandleErrorResponseAsWritten(401, body, parse) == ShapeError
    ensures HandleErrorResponse(401, body, parse) == AuthenticationError("Invalid API key: " + body)
  {
  }
}
