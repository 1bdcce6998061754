/**
 The `/generate` handler as a decision procedure: from the start-up
 configuration, the request body and the model service's reply to the
 prompt, to the prompt actually sent (if any) and the HTTP response.

 The service itself is not modelled: `reply` stands for whatever it returns
 (or raises) when handed the prompt, and is consulted only when a prompt is
 sent.
 */
module Endpoint {
  import opened Wrappers
  import opened Text
  import Prompt
  import Tables

  const NotConfiguredMessage := "Gemini API is not configured. Please set GEMINI_API_KEY environment variable."
  const MissingFieldsMessage := "Technique and Issue are required fields."
  const FailurePrefix := "An error occurred while generating content: "
  /** The text of the `NameError` raised by reading the unbound module name `model`. */
  const UnboundModelText := "name 'model' is not defined"

  /** The JSON fields the handler reads; a missing key is `None`. */
  datatype Fields = Fields(
    technique: Option<string>,
    businessArea: Option<string>,
    icon: Option<string>,
    issue: Option<string>,
    assumptions: Option<string>)

  /**
   The request body as the handler sees it: a JSON object, or a body whose
   reading raised (not JSON, or not an object), with the exception's text.
   */
  datatype Body = JsonObject(fields: Fields) | Unreadable(reason: string)

  /** The JSON payload: `{success: true, output}` or `{success: false, error}`. */
  datatype Payload = Output(text: Option<string>) | Error(message: string) {
    predicate Success() { Output? }
  }

  datatype Response = Response(status: int, payload: Payload)

  /** What one call of the handler does: the prompt it sent, if any, and its answer. */
  datatype Exchange = Exchange(sent: Option<string>, response: Response)

  /** The remote service is usable exactly when the key is set and non-empty. */
  predicate Configured(apiKey: Option<string>) {
    Truthy(apiKey)
  }

  /** Both required fields are present and non-empty. */
  predicate HasRequiredFields(fields: Fields) {
    Truthy(fields.technique) && Truthy(fields.issue)
  }

  /** The prompt built from a request that has both required fields. */
  function PromptFor(catalog: Tables.Catalog, fields: Fields): string
    requires HasRequiredFields(fields)
  {
    Prompt.BuildPrompt(catalog, fields.technique.value, fields.businessArea, fields.icon,
                       fields.issue.value, fields.assumptions)
  }

  /**
   The handler with the configuration check the code evidently intends
   (the remote service is configured when the key is set). Configuration is
   checked before anything else; a request lacking a required field is
   refused with 400 before any prompt is built; otherwise the prompt is sent
   and the reply relayed verbatim with 200, or its error reported with 500.
   The prompt is built from `catalog`; the application's is `Tables.Shipped`.
   */
  function Generate(catalog: Tables.Catalog, apiKey: Option<string>, body: Body, reply: Result<Option<string>, string>): (x: Exchange)
    ensures x.response.status in {200, 400, 500}
    ensures x.response.payload.Success() <==> x.response.status == 200
    ensures !Configured(apiKey) ==> x == Exchange(None, Response(500, Error(NotConfiguredMessage)))
    ensures x.response.status == 400
            <==> Configured(apiKey) && body.JsonObject? && !HasRequiredFields(body.fields)
    ensures x.response.status == 400 ==> x.response.payload == Error(MissingFieldsMessage)
    ensures x.sent.Some? <==> Configured(apiKey) && body.JsonObject? && HasRequiredFields(body.fields)
    ensures x.sent.Some? ==> x.sent == Some(PromptFor(catalog, body.fields))
    ensures x.response.status == 200 <==> x.sent.Some? && reply.Success?
    ensures x.response.status == 200 ==> x.response.payload.text == reply.value
    ensures Configured(apiKey) && body.Unreadable?
            ==> x == Exchange(None, Response(500, Error(FailurePrefix + body.reason)))
    ensures x.sent.Some? && reply.Failure? ==> x.response.payload == Error(FailurePrefix + reply.error)
  {
    if !Configured(apiKey) then
      Exchange(None, Response(500, Error(NotConfiguredMessage)))
    else
      match body
      case Unreadable(reason) => Exchange(None, Response(500, Error(FailurePrefix + reason)))
      case JsonObject(fields) =>
        if !HasRequiredFields(fields) then
          Exchange(None, Response(400, Error(MissingFieldsMessage)))
        else
          var prompt := PromptFor(catalog, fields);
          match reply
          case Success(text) => Exchange(Some(prompt), Response(200, Output(text)))
          case Failure(e) => Exchange(Some(prompt), Response(500, Error(FailurePrefix + e)))
  }

  /** What the module-level name `model` is bound to after start-up. */
  datatype ModelBinding = Unbound | BoundToNone

  /** Start-up binds `model = None` only when the key is missing; with a key it stays unbound. */
  function ModelAfterStartup(apiKey: Option<string>): ModelBinding {
    if Truthy(apiKey) then Unbound else BoundToNone
  }

  /**
   The handler as written: its first step reads `model`. With a key, the
   name is unbound and the read raises `NameError`, which the broad handler
   turns into a 500; without one, `not model` holds and it answers "not
   configured". Either way it answers 500 and never sends a prompt.
   */
  function GenerateAsWritten(catalog: Tables.Catalog, apiKey: Option<string>, body: Body, reply: Result<Option<string>, string>): (x: Exchange)
    ensures x.sent == None
    ensures x.response.status == 500 && !x.response.payload.Success()
    ensures Configured(apiKey) ==> x.response.payload == Error(FailurePrefix + UnboundModelText)
    ensures !Configured(apiKey) ==> x == Generate(catalog, apiKey, body, reply)
  {
    match ModelAfterStartup(apiKey)
    case Unbound => Exchange(None, Response(500, Error(FailurePrefix + UnboundModelText)))
    case BoundToNone => Exchange(None, Response(500, Error(NotConfiguredMessage)))
  }

  /**
   The two differ exactly on configured requests: with a key set, the
   handler as written fails where the intended one answers, whatever the
   request; for a well-formed request and a successful reply that is a 500
   instead of a 200.
   */
  lemma UnboundModelDiverges(catalog: Tables.Catalog, apiKey: Option<string>, fields: Fields, text: Option<string>)
    requires Configured(apiKey) && HasRequiredFields(fields)
    ensures GenerateAsWritten(catalog, apiKey, JsonObject(fields), Success(text)).response.status == 500
    ensures Generate(catalog, apiKey, JsonObject(fields), Success(text)).response == Response(200, Output(text))
  {
  }

  /** Every prompt the handler sends names the technique and carries the issue verbatim. */
  lemma SentPromptMentionsRequest(catalog: Tables.Catalog, apiKey: Option<string>, body: Body, reply: Result<Option<string>, string>)
    requires Generate(catalog, apiKey, body, reply).sent.Some?
    ensures IsInfix(body.fields.technique.value, Generate(catalog, apiKey, body, reply).sent.value)
    ensures IsInfix(body.fields.issue.value, Generate(catalog, apiKey, body, reply).sent.value)
  {
    var f := body.fields;
    Prompt.PromptMentions(catalog, f.technique.value, f.businessArea, f.icon, f.issue.value, f.assumptions);
  }

  /**
   The documented exchanges: a configured request for "5 Whys" about
   declining sales is answered with 200 and the service's text, and the
   prompt sent names both; the same issue without a technique is refused
   with 400; without a key every request gets the "not configured" 500.
   */
  lemma DocumentedExchanges(catalog: Tables.Catalog, key: string, text: string, body: Body)
    requires key != ""
    ensures var fields := Fields(Some("5 Whys"), None, None, Some("Sales are declining"), None);
            var x := Generate(catalog, Some(key), JsonObject(fields), Success(Some(text)));
            && x.response == Response(200, Output(Some(text)))
            && IsInfix("5 Whys", x.sent.value) && IsInfix("Sales are declining", x.sent.value)
    ensures Generate(catalog, Some(key), JsonObject(Fields(None, None, None, Some("Sales are declining"), None)), Success(Some(text))).response
            == Response(400, Error(MissingFieldsMessage))
    ensures Generate(catalog, None, body, Success(Some(text))).response == Response(500, Error(NotConfiguredMessage))
  {
    var fields := Fields(Some("5 Whys"), None, None, Some("Sales are declining"), None);
    SentPromptMentionsRequest(catalog, Some(key), JsonObject(fields), Success(Some(text)));
  }
}
