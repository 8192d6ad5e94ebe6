/**
 The data exchanged by the chat gateway: the inbound request, the outbound
 requests made to the three upstream APIs, the replies those APIs give, and
 the three outcomes of one call.
 */
module ChatTypes {
  import opened JsValues

  datatype Role = User | Assistant | System

  datatype ChatMessage = ChatMessage(role: Role, content: string)

  /** The decoded inbound body. An absent field is `None`. */
  datatype ChatRequest = ChatRequest(
    message: Option<string>,
    provider: Option<string>,
    apiKey: Option<string>,
    messages: Option<seq<ChatMessage>>)

  /** The inbound body either decodes to a request or `request.json()` throws. */
  datatype Inbound = Parsed(request: ChatRequest) | Unparsable(message: string)

  /** The closed set of upstream vendors. */
  datatype Provider = OpenAI | Gemini | Perplexity

  /** The name a caller uses for a provider; also the prefix of its error texts. */
  function ProviderName(p: Provider): string {
    match p
    case OpenAI => "OpenAI"
    case Gemini => "Gemini"
    case Perplexity => "Perplexity"
  }

  /** Selection by exact string match, as the `switch` on `provider` does. */
  function ProviderNamed(name: string): (r: Option<Provider>)
    ensures r.Some? ==> ProviderName(r.value) == name
    ensures r.None? <==> forall p: Provider :: ProviderName(p) != name
  {
    if name == "Perplexity" then Some(Perplexity)
    else if name == "OpenAI" then Some(OpenAI)
    else if name == "Gemini" then Some(Gemini)
    else None
  }

  /** Every provider is selected by its own name and by no other string. */
  lemma ProviderNameRoundTrip(p: Provider, name: string)
    ensures ProviderNamed(ProviderName(p)) == Some(p)
    ensures ProviderNamed(name) == Some(p) <==> name == ProviderName(p)
  {
  }

  datatype Part = Part(text: string)

  datatype Content = Content(parts: seq<Part>)

  /** The JSON body sent upstream (the float `temperature` is not modelled).
      A generate-content body names no model: Gemini's model is in the URL. */
  datatype OutboundBody =
    | ChatCompletion(model: string, messages: seq<ChatMessage>, maxTokens: nat)
    | GenerateContent(contents: seq<Content>, maxOutputTokens: nat)

  /** One upstream HTTP request: its URL, its `Authorization` header (if any), its body. */
  datatype Outbound = Outbound(url: string, authorization: Option<string>, body: OutboundBody)

  /** The decoded upstream body: `response.json()` either yields a value or throws. */
  datatype UpstreamBody = Decoded(data: Value) | Undecodable(message: string)

  /** What the upstream API did with one request: `fetch` rejected, or it answered. */
  datatype Upstream =
    | NetworkFailure(message: string)
    | Responded(status: nat, statusText: string, body: UpstreamBody)

  /** `response.ok` */
  predicate StatusOk(status: nat) {
    200 <= status <= 299
  }

  /** An outbound call recorded in the trace of one gateway call. */
  datatype Call = Fetch(request: Outbound) | Enrich(citations: Value)

  /** The normalised result of an adapter: a single value reduced from the
      reply, or the whole reply payload augmented with `icons`. */
  datatype Reply = Text(text: Value) | WithIcons(payload: Value)

  /** The three terminal outcomes of one gateway call. The timestamp of the
      success envelope is not modelled. */
  datatype Outcome =
    | Success(response: Reply, provider: string)
    | ClientError(error: string)
    | ServerError(error: string)
  {
    function Status(): (code: nat)
      ensures code in {200, 400, 500}
    {
      match this
      case Success(_, _) => 200
      case ClientError(_) => 400
      case ServerError(_) => 500
    }
  }

  /** An outcome with the upstream calls made on the way to it, in order. */
  datatype Handled = Handled(outcome: Outcome, trace: seq<Call>)
}
