/**
 The three provider adapters of the chat gateway. Each one shapes the
 outbound request, turns a non-ok upstream status into an error, and
 normalises the decoded upstream payload. The upstream API is a parameter
 `server` and the favicon extractor a parameter `enrich`.
 */
module Adapters {
  import opened JsValues
  import opened ChatTypes

  const Fallback: string := "No response received"
  const MaxTokens: nat := 1000

  const OpenAIModel: string := "gpt-3.5-turbo"
  const GeminiModel: string := "gemini-pro"
  const PerplexityModel: string := "sonar-pro"

  const OpenAIUrl: string := "https://api.openai.com/v1/chat/completions"
  const PerplexityUrl: string := "https://api.perplexity.ai/chat/completions"
  const GeminiEndpoint: string :=
    "https://generativelanguage.googleapis.com/v1beta/models/" + GeminiModel + ":generateContent"

  /** The result of running one adapter, with the outbound calls it made. */
  datatype Run = Run(result: Completion<Reply>, trace: seq<Call>)

  predicate EndsWith(s: string, suffix: string) {
    |suffix| <= |s| && s[|s| - |suffix|..] == suffix
  }

  // ---------------------------------------------------------------------
  // Outbound requests

  /** The history followed by the new user turn. */
  function WithNewTurn(history: seq<ChatMessage>, message: string): (all: seq<ChatMessage>)
    ensures |all| == |history| + 1
    ensures all[..|history|] == history
    ensures all[|history|] == ChatMessage(User, message)
  {
    history + [ChatMessage(User, message)]
  }

  /** The bearer-token request shape shared by OpenAI and Perplexity. */
  function BearerChatRequest(url: string, model: string, message: string, apiKey: string,
                             history: seq<ChatMessage>): (out: Outbound)
    ensures out.url == url && out.authorization == Some("Bearer " + apiKey)
    ensures out.body.ChatCompletion? && out.body.model == model && out.body.maxTokens == 1000
    ensures |out.body.messages| == |history| + 1
    ensures out.body.messages[..|history|] == history
    ensures out.body.messages[|history|] == ChatMessage(User, message)
  {
    Outbound(url, Some("Bearer " + apiKey), ChatCompletion(model, WithNewTurn(history, message), MaxTokens))
  }

  function OpenAIRequest(message: string, apiKey: string, history: seq<ChatMessage>): (out: Outbound)
    ensures out.url == "https://api.openai.com/v1/chat/completions"
    ensures out.authorization == Some("Bearer " + apiKey)
    ensures out.body.ChatCompletion? && out.body.model == "gpt-3.5-turbo" && out.body.maxTokens == 1000
    ensures |out.body.messages| == |history| + 1
    ensures out.body.messages[..|history|] == history
    ensures out.body.messages[|history|] == ChatMessage(User, message)
  {
    BearerChatRequest(OpenAIUrl, OpenAIModel, message, apiKey, history)
  }

  function PerplexityRequest(message: string, apiKey: string, history: seq<ChatMessage>): (out: Outbound)
    ensures out.url == "https://api.perplexity.ai/chat/completions"
    ensures out.authorization == Some("Bearer " + apiKey)
    ensures out.body.ChatCompletion? && out.body.model == "sonar-pro" && out.body.maxTokens == 1000
    ensures |out.body.messages| == |history| + 1
    ensures out.body.messages[..|history|] == history
    ensures out.body.messages[|history|] == ChatMessage(User, message)
  {
    BearerChatRequest(PerplexityUrl, PerplexityModel, message, apiKey, history)
  }

  /** Gemini takes no history: one content with one part, the key in the URL query. */
  function GeminiRequest(message: string, apiKey: string): (out: Outbound)
    ensures out.authorization == None
    ensures EndsWith(out.url, "?key=" + apiKey)
    ensures out.url[..|out.url| - |apiKey|] ==
      "https://generativelanguage.googleapis.com/v1beta/models/gemini-pro:generateContent?key="
    ensures out.body.GenerateContent? && out.body.maxOutputTokens == 1000
    ensures |out.body.contents| == 1 && |out.body.contents[0].parts| == 1
    ensures out.body.contents[0].parts[0].text == message
  {
    var prefix := GeminiEndpoint + "?key=";
    assert prefix == "https://generativelanguage.googleapis.com/v1beta/models/gemini-pro:generateContent?key=";
    var url := prefix + apiKey;
    assert url[..|url| - |apiKey|] == prefix;
    assert url[|url| - |"?key=" + apiKey|..] == "?key=" + apiKey;
    Outbound(url, None, GenerateContent([Content([Part(message)])], MaxTokens))
  }

  // ---------------------------------------------------------------------
  // Upstream status

  /** The text of the error thrown for a non-ok upstream status. */
  function ApiErrorText(p: Provider, status: nat, statusText: string): (s: string)
    ensures |s| > |ProviderName(p)| + 12
    ensures s[..|ProviderName(p)| + 12] == ProviderName(p) + " API error: "
    ensures s[|ProviderName(p)| + 12..] == NatToString(status) + " " + statusText
  {
    ProviderName(p) + " API error: " + NatToString(status) + " " + statusText
  }

  predicate Contains(s: string, part: string) {
    exists i :: 0 <= i <= |s| && part <= s[i..]
  }

  /** The error text carries the provider's name, the status in decimal and the status text. */
  lemma ApiErrorTextMentions(p: Provider, status: nat, statusText: string)
    ensures Contains(ApiErrorText(p, status, statusText), NatToString(status))
    ensures Contains(ApiErrorText(p, status, statusText), ProviderName(p))
    ensures EndsWith(ApiErrorText(p, status, statusText), " " + statusText)
  {
    var s := ApiErrorText(p, status, statusText);
    var name := ProviderName(p);
    var digits := NatToString(status);
    var i := |name| + |" API error: "|;
    assert s[i..] == digits + " " + statusText;
    assert s[0..] == name + " API error: " + digits + " " + statusText;
    assert s[|s| - |" " + statusText|..] == " " + statusText;
  }

  /** What the adapters do with the upstream reply before looking at its
      payload: a rejected `fetch` propagates, a non-ok status throws the
      provider's API error (before the body is decoded), and an undecodable
      body propagates the decoder's error. */
  function Accept(p: Provider, reply: Upstream): (r: Completion<Value>)
    ensures reply.NetworkFailure? ==> r == Abrupt(ErrorObject(reply.message))
    ensures reply.Responded? && !StatusOk(reply.status) ==>
      r == Abrupt(ErrorObject(ApiErrorText(p, reply.status, reply.statusText)))
    ensures reply.Responded? && StatusOk(reply.status) && reply.body.Undecodable? ==>
      r == Abrupt(ErrorObject(reply.body.message))
    ensures r.Normal? <==> reply.Responded? && StatusOk(reply.status) && reply.body.Decoded?
    ensures r.Normal? ==> r.value == reply.body.data
  {
    match reply
    case NetworkFailure(m) => Abrupt(ErrorObject(m))
    case Responded(status, statusText, body) =>
      if !StatusOk(status) then Abrupt(ErrorObject(ApiErrorText(p, status, statusText)))
      else
        match body
        case Decoded(data) => Normal(data)
        case Undecodable(m) => Abrupt(ErrorObject(m))
  }

  // ---------------------------------------------------------------------
  // Payload normalisation

  /** `data.choices[0]?.message?.content || "No response received"` */
  function OpenAIText(data: Value): (r: Completion<Value>)
    ensures r.Abrupt? <==> Nullish(data) || Nullish(Lookup(data, "choices"))
    ensures r.Abrupt? ==> r.thrown.ErrorObject?
    ensures r.Normal? ==> Truthy(r.value)
  {
    match GetProp(data, "choices")
    case Abrupt(t) => Abrupt(t)
    case Normal(choices) =>
      match GetProp(choices, "0")
      case Abrupt(t) => Abrupt(t)
      case Normal(first) => Normal(Or(OptProp(OptProp(first, "message"), "content"), Str(Fallback)))
  }

  /** `data.candidates?.[0]?.content?.parts?.[0]?.text || "No response received"` */
  function GeminiText(data: Value): (r: Completion<Value>)
    ensures r.Abrupt? <==> Nullish(data)
    ensures r.Abrupt? ==> r.thrown.ErrorObject?
    ensures r.Normal? ==> Truthy(r.value)
  {
    match GetProp(data, "candidates")
    case Abrupt(t) => Abrupt(t)
    case Normal(candidates) =>
      var text := OptProp(OptProp(OptProp(OptProp(OptProp(candidates, "0"), "content"), "parts"), "0"), "text");
      Normal(Or(text, Str(Fallback)))
  }

  /** For any payload object whose first choice carries a message with a
      `content` field, whatever other fields any of them carry: a truthy
      content is the result, a falsy one gives the fallback. */
  lemma OpenAITextOfFirstChoice(data: map<string, Value>, choices: seq<Value>,
                                first: map<string, Value>, message: map<string, Value>)
    requires "choices" in data && data["choices"] == Arr(choices)
    requires |choices| > 0 && choices[0] == Obj(first)
    requires "message" in first && first["message"] == Obj(message)
    requires "content" in message
    ensures Truthy(message["content"]) ==> OpenAIText(Obj(data)) == Normal(message["content"])
    ensures !Truthy(message["content"]) ==> OpenAIText(Obj(data)) == Normal(Str(Fallback))
  {
  }

  /** Empty `choices`, a first choice without `message`, or a message without
      `content` give the fallback, not an error, whatever other fields are present. */
  lemma OpenAITextFallback(data: map<string, Value>, choices: seq<Value>, first: map<string, Value>,
                           message: map<string, Value>)
    requires "choices" in data && data["choices"] == Arr(choices)
    ensures choices == [] ==> OpenAIText(Obj(data)) == Normal(Str(Fallback))
    ensures |choices| > 0 && choices[0] == Obj(first) && "message" !in first ==>
      OpenAIText(Obj(data)) == Normal(Str(Fallback))
    ensures (|choices| > 0 && choices[0] == Obj(first) && "message" in first && first["message"] == Obj(message)
             && "content" !in message) ==>
      OpenAIText(Obj(data)) == Normal(Str(Fallback))
  {
  }

  /** A payload without `choices` makes the plain `choices[0]` read throw. */
  lemma OpenAITextWithoutChoicesThrows(m: map<string, Value>)
    requires "choices" !in m
    ensures OpenAIText(Obj(m)).Abrupt?
  {
  }

  /** For any payload object whose first candidate's content has a first part
      with a `text` field, whatever other fields any of them carry: a truthy
      text is the result, a falsy one gives the fallback. */
  lemma GeminiTextOfFirstPart(data: map<string, Value>, candidates: seq<Value>, candidate: map<string, Value>,
                              content: map<string, Value>, parts: seq<Value>, part: map<string, Value>)
    requires "candidates" in data && data["candidates"] == Arr(candidates)
    requires |candidates| > 0 && candidates[0] == Obj(candidate)
    requires "content" in candidate && candidate["content"] == Obj(content)
    requires "parts" in content && content["parts"] == Arr(parts)
    requires |parts| > 0 && parts[0] == Obj(part)
    requires "text" in part
    ensures Truthy(part["text"]) ==> GeminiText(Obj(data)) == Normal(part["text"])
    ensures !Truthy(part["text"]) ==> GeminiText(Obj(data)) == Normal(Str(Fallback))
  {
  }

  /** Anything missing along the candidate path gives the fallback, not an
      error: no `candidates`, an empty list, a first candidate without
      `content`, content without `parts`, an empty `parts`, or a first part
      without `text` (such as a function call). */
  lemma GeminiTextFallback(data: map<string, Value>, candidates: seq<Value>, candidate: map<string, Value>,
                           content: map<string, Value>, parts: seq<Value>, part: map<string, Value>)
    ensures "candidates" !in data ==> GeminiText(Obj(data)) == Normal(Str(Fallback))
    ensures "candidates" in data && data["candidates"] == Arr([]) ==> GeminiText(Obj(data)) == Normal(Str(Fallback))
    ensures ("candidates" in data && data["candidates"] == Arr(candidates) && |candidates| > 0
             && candidates[0] == Obj(candidate) && "content" !in candidate) ==>
      GeminiText(Obj(data)) == Normal(Str(Fallback))
    ensures ("candidates" in data && data["candidates"] == Arr(candidates) && |candidates| > 0
             && candidates[0] == Obj(candidate) && "content" in candidate && candidate["content"] == Obj(content)
             && "parts" !in content) ==>
      GeminiText(Obj(data)) == Normal(Str(Fallback))
    ensures ("candidates" in data && data["candidates"] == Arr(candidates) && |candidates| > 0
             && candidates[0] == Obj(candidate) && "content" in candidate && candidate["content"] == Obj(content)
             && "parts" in content && content["parts"] == Arr([])) ==>
      GeminiText(Obj(data)) == Normal(Str(Fallback))
    ensures ("candidates" in data && data["candidates"] == Arr(candidates) && |candidates| > 0
             && candidates[0] == Obj(candidate) && "content" in candidate && candidate["content"] == Obj(content)
             && "parts" in content && content["parts"] == Arr(parts) && |parts| > 0 && parts[0] == Obj(part)
             && "text" !in part) ==>
      GeminiText(Obj(data)) == Normal(Str(Fallback))
  {
  }

  // ---------------------------------------------------------------------
  // The adapters

  /** `callOpenAIAPI` */
  function CallOpenAI(message: string, apiKey: string, history: seq<ChatMessage>,
                      server: Outbound -> Upstream): (run: Run)
    ensures run.trace == [Fetch(OpenAIRequest(message, apiKey, history))]
    ensures run.result.Normal? ==> run.result.value.Text? && Truthy(run.result.value.text)
    // the result is the normalised payload the status check let through
    ensures var accepted := Accept(OpenAI, server(OpenAIRequest(message, apiKey, history)));
      && (accepted.Abrupt? ==> run.result == Abrupt(accepted.thrown))
      && (accepted.Normal? && OpenAIText(accepted.value).Normal? ==>
            run.result == Normal(Text(OpenAIText(accepted.value).value)))
      && (accepted.Normal? && OpenAIText(accepted.value).Abrupt? ==>
            run.result == Abrupt(OpenAIText(accepted.value).thrown))
    ensures var reply := server(OpenAIRequest(message, apiKey, history));
      reply.Responded? && !StatusOk(reply.status) ==>
        run.result == Abrupt(ErrorObject(ApiErrorText(OpenAI, reply.status, reply.statusText)))
  {
    var out := OpenAIRequest(message, apiKey, history);
    var result :=
      match Accept(OpenAI, server(out))
      case Abrupt(t) => Abrupt(t)
      case Normal(data) =>
        match OpenAIText(data)
        case Abrupt(t) => Abrupt(t)
        case Normal(v) => Normal(Text(v));
    Run(result, [Fetch(out)])
  }

  /** `callGeminiAPI`: note that it takes no history. */
  function CallGemini(message: string, apiKey: string, server: Outbound -> Upstream): (run: Run)
    ensures run.trace == [Fetch(GeminiRequest(message, apiKey))]
    ensures run.result.Normal? ==> run.result.value.Text? && Truthy(run.result.value.text)
    // the result is the normalised payload the status check let through
    ensures var accepted := Accept(Gemini, server(GeminiRequest(message, apiKey)));
      && (accepted.Abrupt? ==> run.result == Abrupt(accepted.thrown))
      && (accepted.Normal? && GeminiText(accepted.value).Normal? ==>
            run.result == Normal(Text(GeminiText(accepted.value).value)))
      && (accepted.Normal? && GeminiText(accepted.value).Abrupt? ==>
            run.result == Abrupt(GeminiText(accepted.value).thrown))
    ensures var reply := server(GeminiRequest(message, apiKey));
      reply.Responded? && !StatusOk(reply.status) ==>
        run.result == Abrupt(ErrorObject(ApiErrorText(Gemini, reply.status, reply.statusText)))
  {
    var out := GeminiRequest(message, apiKey);
    var result :=
      match Accept(Gemini, server(out))
      case Abrupt(t) => Abrupt(t)
      case Normal(data) =>
        match GeminiText(data)
        case Abrupt(t) => Abrupt(t)
        case Normal(v) => Normal(Text(v));
    Run(result, [Fetch(out)])
  }

  /** `data.icons = await getFavicons(data.citations); return data || "No response received"`,
      with the calls to the extractor it makes. */
  function AttachIcons(data: Value, enrich: Value -> Completion<Value>): (run: Run)
    ensures Nullish(data) ==> run == Run(Abrupt(CannotRead(data, "citations")), [])
    ensures !Nullish(data) ==> run.trace == [Enrich(Lookup(data, "citations"))]
    ensures run.result.Normal? ==>
      && (data.Obj? || data.Arr?)
      && enrich(Lookup(data, "citations")).Normal?
      && run.result.value.WithIcons?
      && var icons := enrich(Lookup(data, "citations")).value;
         var payload := run.result.value.payload;
         (data.Obj? ==> payload.Obj?
                        && payload.fields.Keys == data.fields.Keys + {"icons"}
                        && payload.fields["icons"] == icons
                        && forall k :: k in data.fields && k != "icons" ==> payload.fields[k] == data.fields[k])
         && (data.Arr? ==> payload == data)
    ensures !Nullish(data) && enrich(Lookup(data, "citations")).Abrupt? ==>
      run.result == Abrupt(enrich(Lookup(data, "citations")).thrown)
    ensures !Nullish(data) && enrich(Lookup(data, "citations")).Normal? ==>
      (run.result.Normal? <==> data.Obj? || data.Arr?)
  {
    match GetProp(data, "citations")
    case Abrupt(t) => Run(Abrupt(t), [])
    case Normal(citations) =>
      match enrich(citations)
      case Abrupt(t) => Run(Abrupt(t), [Enrich(citations)])
      case Normal(icons) =>
        assert ArrayIndex("icons").None?;
        match SetProp(data, "icons", icons)
        case Abrupt(t) => Run(Abrupt(t), [Enrich(citations)])
        case Normal(d) => Run(Normal(WithIcons(Or(d, Str(Fallback)))), [Enrich(citations)])
  }

  /** `callPerplexityAPI` */
  function CallPerplexity(message: string, apiKey: string, history: seq<ChatMessage>,
                          server: Outbound -> Upstream, enrich: Value -> Completion<Value>): (run: Run)
    ensures 1 <= |run.trace| <= 2
    ensures run.trace[0] == Fetch(PerplexityRequest(message, apiKey, history))
    ensures forall i :: 1 <= i < |run.trace| ==> run.trace[i].Enrich?
    ensures run.result.Normal? ==> run.result.value.WithIcons? && |run.trace| == 2
    // the status check's payload goes to AttachIcons, whose result and calls are this run's
    ensures var accepted := Accept(Perplexity, server(PerplexityRequest(message, apiKey, history)));
      && (accepted.Abrupt? ==> run.result == Abrupt(accepted.thrown) && |run.trace| == 1)
      && (accepted.Normal? ==>
            run.result == AttachIcons(accepted.value, enrich).result
            && run.trace[1..] == AttachIcons(accepted.value, enrich).trace)
    ensures var reply := server(PerplexityRequest(message, apiKey, history));
      reply.Responded? && !StatusOk(reply.status) ==>
        run == Run(Abrupt(ErrorObject(ApiErrorText(Perplexity, reply.status, reply.statusText))),
                   [Fetch(PerplexityRequest(message, apiKey, history))])
  {
    var out := PerplexityRequest(message, apiKey, history);
    match Accept(Perplexity, server(out))
    case Abrupt(t) => Run(Abrupt(t), [Fetch(out)])
    case Normal(data) =>
      var attached := AttachIcons(data, enrich);
      Run(attached.result, [Fetch(out)] + attached.trace)
  }

  /** The fallback text of `callPerplexityAPI` is never returned: whenever it
      succeeds, its result is the (truthy) payload object or array itself. */
  lemma PerplexityNeverFallsBack(message: string, apiKey: string, history: seq<ChatMessage>,
                                 server: Outbound -> Upstream, enrich: Value -> Completion<Value>)
    ensures var run := CallPerplexity(message, apiKey, history, server, enrich);
      run.result.Normal? ==> run.result.value.payload.Obj? || run.result.value.payload.Arr?
  {
  }
}
