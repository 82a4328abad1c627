/**
 * The provider gateway of the plan endpoint: one call to an external
 * chat-completion service, classified into a result record. The HTTP
 * exchange itself is a parameter (`Exchange`): what the network would
 * answer if the request were sent. Whether a request is sent at all is
 * part of the result.
 */
module AiProvider {
  import opened Wrappers
  import opened Text

  const OpenAiUrl := "https://api.openai.com/v1/chat/completions"
  const DefaultModel := "gpt-4o-mini"

  datatype Role = SystemRole | UserRole
  datatype Message = Message(role: Role, content: string)

  /** The POST the openai branch sends (its JSON encoding is not modelled). */
  datatype ChatRequest = ChatRequest(
    url: string,
    authorization: string,
    model: string,
    messages: seq<Message>,
    temperature: real,
    responseFormat: string)

  /** The parsed JSON body of a 2xx reply, or a body `resp.json()` rejects. */
  datatype ReplyBody = Malformed(error: string) | Completion(firstContent: Option<string>)

  /** The outcome of `fetch`: it throws, or a response arrives. */
  datatype Exchange =
    | NetworkError(error: string)
    | Response(status: int, text: string, body: ReplyBody)

  datatype LlmResult =
    | Succeeded(content: Option<string>, provider: string)
    | Failed(reason: string, details: Option<string>)
  {
    predicate Ok() { Succeeded? }
  }

  /** The result record together with the request that was sent, if any. */
  datatype Call = Call(result: LlmResult, request: Option<ChatRequest>)

  /** JavaScript truthiness of an optional string. */
  predicate Truthy(s: Option<string>) { s.Some? && s.value != "" }

  /** `(provider || "").toLowerCase()`. */
  function ProviderName(provider: Option<string>): string {
    if Truthy(provider) then Lower(provider.value) else ""
  }

  predicate IsPlaceholder(name: string) {
    name == "anthropic" || name == "mistral" || name == "google" || name == "azure-openai"
  }

  /** The message list: a system message only when `system` is non-empty, then the user prompt. */
  function Messages(system: Option<string>, prompt: string): (ms: seq<Message>)
    ensures |ms| == if Truthy(system) then 2 else 1
    ensures ms[|ms| - 1] == Message(UserRole, prompt)
    ensures ms[0].role == SystemRole <==> Truthy(system)
    ensures Truthy(system) ==> ms[0].content == system.value
  {
    (if Truthy(system) then [Message(SystemRole, system.value)] else []) + [Message(UserRole, prompt)]
  }

  function OpenAiRequest(apiKey: string, model: Option<string>, prompt: string, system: Option<string>): ChatRequest {
    ChatRequest(OpenAiUrl, "Bearer " + apiKey,
                if Truthy(model) then model.value else DefaultModel,
                Messages(system, prompt), 0.7, "json_object")
  }

  predicate Is2xx(status: int) { 200 <= status < 300 }

  /** What the openai branch makes of the network's answer. */
  function Classify(exchange: Exchange): LlmResult {
    match exchange
    case NetworkError(e) => Failed("exception", Some(e))
    case Response(status, text, body) =>
      if !Is2xx(status) then Failed("http_" + IntToString(status), Some(text))
      else match body
        case Malformed(e) => Failed("exception", Some(e))
        case Completion(content) => Succeeded(content, "openai")
  }

  /** `callLLMWithPlanPrompt`: never throws; every path ends in a result record. */
  function CallLlm(provider: Option<string>, apiKey: Option<string>, model: Option<string>,
                   prompt: string, system: Option<string>, exchange: Exchange): (c: Call)
    ensures c.request.Some? <==> ProviderName(provider) == "openai" && Truthy(apiKey)
    ensures c.request.Some? ==>
              && c.request.value.url == OpenAiUrl
              && c.request.value.authorization == "Bearer " + apiKey.value
              && c.request.value.messages == Messages(system, prompt)
              && c.request.value.model == (if Truthy(model) then model.value else DefaultModel)
    ensures c.request.None? ==> c.result.Failed? && c.result.details.None?
  {
    var name := ProviderName(provider);
    if name == "" || name == "off" then Call(Failed("provider_off", None), None)
    else if name == "openai" then
      if !Truthy(apiKey) then Call(Failed("no_api_key", None), None)
      else Call(Classify(exchange), Some(OpenAiRequest(apiKey.value, model, prompt, system)))
    else if IsPlaceholder(name) then Call(Failed("provider_not_implemented", None), None)
    else Call(Failed("unknown_provider", None), None)
  }

  /** An empty or "off" provider, in any letter case, is off and sends nothing. */
  lemma ProviderOff(provider: Option<string>, apiKey: Option<string>, model: Option<string>,
                    prompt: string, system: Option<string>, exchange: Exchange)
    requires !Truthy(provider) || Lower(provider.value) == "off"
    ensures CallLlm(provider, apiKey, model, prompt, system, exchange) == Call(Failed("provider_off", None), None)
  {
  }

  /** The result reason for every provider that is not openai. */
  lemma NonOpenAiReasons(provider: Option<string>, apiKey: Option<string>, model: Option<string>,
                         prompt: string, system: Option<string>, exchange: Exchange)
    ensures var name := ProviderName(provider);
            var c := CallLlm(provider, apiKey, model, prompt, system, exchange);
            (name == "openai" && !Truthy(apiKey) ==> c.result == Failed("no_api_key", None))
            && (IsPlaceholder(name) ==> c.result == Failed("provider_not_implemented", None))
            && (name !in {"", "off", "openai"} && !IsPlaceholder(name) ==> c.result == Failed("unknown_provider", None))
  {
  }

  /**
   * Success happens only on the openai branch after a 2xx reply, and the
   * content is the first choice's message content (possibly absent).
   */
  lemma SuccessOnlyAfter2xx(provider: Option<string>, apiKey: Option<string>, model: Option<string>,
                            prompt: string, system: Option<string>, exchange: Exchange)
    ensures var c := CallLlm(provider, apiKey, model, prompt, system, exchange);
            c.result.Ok() <==>
              ProviderName(provider) == "openai" && Truthy(apiKey)
              && exchange.Response? && Is2xx(exchange.status) && exchange.body.Completion?
    ensures var c := CallLlm(provider, apiKey, model, prompt, system, exchange);
            c.result.Ok() ==> c.result.content == exchange.body.firstContent && c.result.provider == "openai"
  {
  }

  /** A non-2xx reply to a sent request fails with reason "http_<status>". */
  lemma HttpFailure(provider: Option<string>, apiKey: Option<string>, model: Option<string>,
                    prompt: string, system: Option<string>, exchange: Exchange)
    requires ProviderName(provider) == "openai" && Truthy(apiKey)
    requires exchange.Response? && !Is2xx(exchange.status)
    ensures CallLlm(provider, apiKey, model, prompt, system, exchange).result
            == Failed("http_" + IntToString(exchange.status), Some(exchange.text))
  {
  }

  /** A thrown fetch or an unreadable body is caught and reported as "exception". */
  lemma ExceptionsAreCaught(provider: Option<string>, apiKey: Option<string>, model: Option<string>,
                            prompt: string, system: Option<string>, exchange: Exchange)
    requires ProviderName(provider) == "openai" && Truthy(apiKey)
    requires exchange.NetworkError? || (Is2xx(exchange.status) && exchange.body.Malformed?)
    ensures CallLlm(provider, apiKey, model, prompt, system, exchange).result.reason == "exception"
  {
  }
}
