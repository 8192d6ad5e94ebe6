/**
 The `POST /api/chat` handler: decode the body, validate the required
 fields, select the adapter by provider name, and wrap the adapter's result
 or its failure into one of three outcomes. The upstream API (`server`) and
 the favicon extractor (`enrich`) are parameters; the handler is a pure
 function of them and of the inbound body.
 */
module Gateway {
  import opened JsValues
  import opened ChatTypes
  import opened Adapters

  const MissingFields: string := "Missing required fields: message, provider, or apiKey"
  const UnsupportedProvider: string := "Unsupported provider"
  const InternalError: string := "Internal server error"

  /** The JavaScript value of an optional string field: `undefined` when absent. */
  function FieldValue(field: Option<string>): Value {
    match field
    case None => Undefined
    case Some(s) => Str(s)
  }

  /** A field passes `!field` only when it is present and not the empty string. */
  function Present(field: Option<string>): (ok: bool)
    ensures ok <==> Truthy(FieldValue(field))
    ensures ok <==> field.Some? && |field.value| > 0
  {
    field.Some? && field.value != ""
  }

  /** `!message || !provider || !apiKey` is false. */
  function HasRequiredFields(req: ChatRequest): (ok: bool)
    ensures ok <==> Truthy(FieldValue(req.message)) && Truthy(FieldValue(req.provider)) && Truthy(FieldValue(req.apiKey))
  {
    Present(req.message) && Present(req.provider) && Present(req.apiKey)
  }

  /** The provider a request with all required fields is dispatched to, if any. */
  function Selected(req: ChatRequest): Option<Provider>
    requires HasRequiredFields(req)
  {
    ProviderNamed(req.provider.value)
  }

  /** `messages = []` in the destructuring: an absent history is empty. */
  function History(req: ChatRequest): (h: seq<ChatMessage>)
    ensures req.messages.None? ==> h == []
    ensures req.messages.Some? ==> h == req.messages.value
  {
    match req.messages
    case None => []
    case Some(ms) => ms
  }

  /** The body of the 500 response: the `message` of an `Error`, otherwise a fixed text. */
  function ErrorText(t: Thrown): (s: string)
    ensures t.ErrorObject? ==> s == t.message
    ensures t.OtherValue? ==> s == "Internal server error"
  {
    match t
    case ErrorObject(m) => m
    case OtherValue(_) => InternalError
  }

  /** The upstream request the selected adapter sends first. */
  function FirstRequest(p: Provider, req: ChatRequest): Outbound
    requires HasRequiredFields(req)
  {
    match p
    case OpenAI => OpenAIRequest(req.message.value, req.apiKey.value, History(req))
    case Gemini => GeminiRequest(req.message.value, req.apiKey.value)
    case Perplexity => PerplexityRequest(req.message.value, req.apiKey.value, History(req))
  }

  /** The `switch (provider)` arms. */
  function Invoke(p: Provider, req: ChatRequest, server: Outbound -> Upstream,
                  enrich: Value -> Completion<Value>): (run: Run)
    requires HasRequiredFields(req)
    ensures 1 <= |run.trace| <= 2
    ensures run.trace[0] == Fetch(FirstRequest(p, req))
    ensures forall i :: 1 <= i < |run.trace| ==> run.trace[i].Enrich?
    ensures p != Perplexity ==> |run.trace| == 1
  {
    match p
    case Perplexity => CallPerplexity(req.message.value, req.apiKey.value, History(req), server, enrich)
    case OpenAI => CallOpenAI(req.message.value, req.apiKey.value, History(req), server)
    case Gemini => CallGemini(req.message.value, req.apiKey.value, server)
  }

  /** `POST`: the outcome of one call with the upstream calls it made. */
  function Post(inbound: Inbound, server: Outbound -> Upstream, enrich: Value -> Completion<Value>): (h: Handled)
    // an undecodable body is a server error and nothing is called
    ensures inbound.Unparsable? ==> h == Handled(ServerError(inbound.message), [])
    // the missing-fields check comes first, whatever the provider
    ensures inbound.Parsed? && !HasRequiredFields(inbound.request) ==>
      h == Handled(ClientError("Missing required fields: message, provider, or apiKey"), [])
    ensures inbound.Parsed? && HasRequiredFields(inbound.request) && Selected(inbound.request).None? ==>
      h == Handled(ClientError("Unsupported provider"), [])
    // a client error exactly when validation or provider selection fails
    ensures h.outcome.ClientError? <==>
      inbound.Parsed? && (!HasRequiredFields(inbound.request) || Selected(inbound.request).None?)
    // an upstream call is made exactly when an adapter is selected, and the
    // selected adapter's request is the first one
    ensures h.trace != [] <==>
      inbound.Parsed? && HasRequiredFields(inbound.request) && Selected(inbound.request).Some?
    ensures h.trace != [] ==> h.trace[0] == Fetch(FirstRequest(Selected(inbound.request).value, inbound.request))
    ensures |h.trace| <= 2
    // a dispatched request ends as its adapter's run: a normal completion is
    // the success envelope, a throw the 500 carrying the thrown error's text
    ensures inbound.Parsed? && HasRequiredFields(inbound.request) && Selected(inbound.request).Some? ==>
      var req := inbound.request;
      var run := Invoke(Selected(req).value, req, server, enrich);
      && (run.result.Normal? ==> h == Handled(Success(run.result.value, req.provider.value), run.trace))
      && (run.result.Abrupt? ==> h == Handled(ServerError(ErrorText(run.result.thrown)), run.trace))
    // success echoes the provider the request named
    ensures h.outcome.Success? ==>
      inbound.Parsed? && HasRequiredFields(inbound.request)
      && h.outcome.provider == inbound.request.provider.value
      && Selected(inbound.request).Some?
  {
    match inbound
    case Unparsable(m) => Handled(ServerError(m), [])
    case Parsed(req) =>
      if !HasRequiredFields(req) then Handled(ClientError(MissingFields), [])
      else
        match Selected(req)
        case None => Handled(ClientError(UnsupportedProvider), [])
        case Some(p) =>
          var run := Invoke(p, req, server, enrich);
          match run.result
          case Normal(reply) => Handled(Success(reply, req.provider.value), run.trace)
          case Abrupt(t) => Handled(ServerError(ErrorText(t)), run.trace)
  }

  /** A request the handler dispatches to provider `p`. */
  predicate DispatchedTo(req: ChatRequest, p: Provider) {
    HasRequiredFields(req) && Selected(req) == Some(p)
  }

  /** A non-ok upstream status becomes a 500 whose text is
      "<Provider> API error: <status> <statusText>". */
  lemma UpstreamStatusSurfaces(req: ChatRequest, p: Provider, server: Outbound -> Upstream,
                               enrich: Value -> Completion<Value>)
    requires DispatchedTo(req, p)
    requires server(FirstRequest(p, req)).Responded? && !StatusOk(server(FirstRequest(p, req)).status)
    ensures var reply := server(FirstRequest(p, req));
      Post(Parsed(req), server, enrich).outcome == ServerError(ApiErrorText(p, reply.status, reply.statusText))
  {
  }

  /** A rejected `fetch`, or an ok reply whose body does not decode, becomes
      a 500 carrying the error's own message. */
  lemma UpstreamFailureSurfaces(req: ChatRequest, p: Provider, message: string, status: nat, statusText: string,
                                server: Outbound -> Upstream, enrich: Value -> Completion<Value>)
    requires DispatchedTo(req, p)
    ensures server(FirstRequest(p, req)) == NetworkFailure(message) ==>
      Post(Parsed(req), server, enrich) == Handled(ServerError(message), [Fetch(FirstRequest(p, req))])
    ensures StatusOk(status) && server(FirstRequest(p, req)) == Responded(status, statusText, Undecodable(message)) ==>
      Post(Parsed(req), server, enrich) == Handled(ServerError(message), [Fetch(FirstRequest(p, req))])
  {
  }

  /** An ok OpenAI reply whose payload normalises is answered with that text,
      under the provider name, after exactly one upstream call. */
  lemma OpenAISuccess(req: ChatRequest, status: nat, statusText: string, data: Value,
                      server: Outbound -> Upstream, enrich: Value -> Completion<Value>)
    requires DispatchedTo(req, OpenAI)
    requires StatusOk(status) && server(FirstRequest(OpenAI, req)) == Responded(status, statusText, Decoded(data))
    requires OpenAIText(data).Normal?
    ensures Post(Parsed(req), server, enrich)
      == Handled(Success(Text(OpenAIText(data).value), "OpenAI"), [Fetch(FirstRequest(OpenAI, req))])
  {
  }

  /** An ok Gemini reply whose payload normalises is answered with that text,
      under the provider name, after exactly one upstream call. */
  lemma GeminiSuccess(req: ChatRequest, status: nat, statusText: string, data: Value,
                      server: Outbound -> Upstream, enrich: Value -> Completion<Value>)
    requires DispatchedTo(req, Gemini)
    requires StatusOk(status) && server(FirstRequest(Gemini, req)) == Responded(status, statusText, Decoded(data))
    requires GeminiText(data).Normal?
    ensures Post(Parsed(req), server, enrich)
      == Handled(Success(Text(GeminiText(data).value), "Gemini"), [Fetch(FirstRequest(Gemini, req))])
  {
  }

  /** An ok Perplexity reply that is an object is answered with the whole
      object plus `icons` set to what the extractor made of its `citations`,
      after one upstream call and one extractor call. */
  lemma PerplexitySuccess(req: ChatRequest, status: nat, statusText: string, fields: map<string, Value>,
                          icons: Value, server: Outbound -> Upstream, enrich: Value -> Completion<Value>)
    requires DispatchedTo(req, Perplexity)
    requires StatusOk(status) && server(FirstRequest(Perplexity, req)) == Responded(status, statusText, Decoded(Obj(fields)))
    requires enrich(Lookup(Obj(fields), "citations")) == Normal(icons)
    ensures Post(Parsed(req), server, enrich)
      == Handled(Success(WithIcons(Obj(fields["icons" := icons])), "Perplexity"),
                 [Fetch(FirstRequest(Perplexity, req)), Enrich(Lookup(Obj(fields), "citations"))])
  {
  }

  /** An ok reply whose payload is `null` makes the adapter's first plain
      property read throw; the 500 carries V8's TypeError text naming that
      property. */
  lemma NullPayloadSurfaces(req: ChatRequest, p: Provider, status: nat, statusText: string,
                            server: Outbound -> Upstream, enrich: Value -> Completion<Value>)
    requires DispatchedTo(req, p)
    requires StatusOk(status) && server(FirstRequest(p, req)) == Responded(status, statusText, Decoded(Null))
    ensures var key := match p case OpenAI => "choices" case Gemini => "candidates" case Perplexity => "citations";
      Post(Parsed(req), server, enrich)
      == Handled(ServerError("Cannot read properties of null (reading '" + key + "')"), [Fetch(FirstRequest(p, req))])
  {
  }

  /** Status 401 from any upstream yields a 500 whose text contains "401". */
  lemma Status401Surfaces(req: ChatRequest, p: Provider, statusText: string, body: UpstreamBody,
                          server: Outbound -> Upstream, enrich: Value -> Completion<Value>)
    requires DispatchedTo(req, p)
    requires server(FirstRequest(p, req)) == Responded(401, statusText, body)
    ensures var o := Post(Parsed(req), server, enrich).outcome;
      o.ServerError? && o.Status() == 500 && Contains(o.error, "401")
  {
    UpstreamStatusSurfaces(req, p, server, enrich);
    ApiErrorTextMentions(p, 401, statusText);
    StatusDigits401();
  }

  lemma StatusDigits401()
    ensures NatToString(401) == "401"
  {
    assert NatToString(4) == "4";
    assert NatToString(40) == "40";
  }

  /** A value thrown that is not an `Error` (here, by the favicon extractor)
      becomes a 500 with the generic text. */
  lemma NonErrorThrowIsInternalError(req: ChatRequest, server: Outbound -> Upstream,
                                     enrich: Value -> Completion<Value>)
    requires DispatchedTo(req, Perplexity)
    requires var reply := server(FirstRequest(Perplexity, req));
      reply.Responded? && StatusOk(reply.status) && reply.body.Decoded?
      && !Nullish(reply.body.data)
      && enrich(Lookup(reply.body.data, "citations")).Abrupt?
      && enrich(Lookup(reply.body.data, "citations")).thrown.OtherValue?
    ensures Post(Parsed(req), server, enrich).outcome == ServerError("Internal server error")
  {
  }

  /** Gemini never sees the history: two requests that differ only in their
      history are handled identically, whatever the upstream does. */
  lemma GeminiIgnoresHistory(req: ChatRequest, h1: Option<seq<ChatMessage>>, h2: Option<seq<ChatMessage>>,
                             server: Outbound -> Upstream, enrich: Value -> Completion<Value>)
    requires DispatchedTo(req, Gemini)
    ensures Post(Parsed(req.(messages := h1)), server, enrich) == Post(Parsed(req.(messages := h2)), server, enrich)
  {
  }

  /** OpenAI and Perplexity forward the history, in order, before the new turn. */
  lemma HistoryForwarded(req: ChatRequest, p: Provider, server: Outbound -> Upstream,
                         enrich: Value -> Completion<Value>)
    requires DispatchedTo(req, p) && p != Gemini
    ensures var trace := Post(Parsed(req), server, enrich).trace;
      trace != [] && trace[0].Fetch? && trace[0].request.body.ChatCompletion?
      && trace[0].request.body.messages == History(req) + [ChatMessage(User, req.message.value)]
  {
  }

  /** The upstream and the extractor agree on every call in `trace`. */
  predicate AgreeOn(trace: seq<Call>, s1: Outbound -> Upstream, s2: Outbound -> Upstream,
                    e1: Value -> Completion<Value>, e2: Value -> Completion<Value>) {
    forall c :: c in trace ==>
      (c.Fetch? ==> s1(c.request) == s2(c.request)) && (c.Enrich? ==> e1(c.citations) == e2(c.citations))
  }

  /** The outcome is a function of the inbound body and of the replies to the
      calls actually made: collaborators that answer those calls alike yield
      the same outcome and the same trace. */
  lemma OutcomeDependsOnlyOnReplies(inbound: Inbound, s1: Outbound -> Upstream, s2: Outbound -> Upstream,
                                    e1: Value -> Completion<Value>, e2: Value -> Completion<Value>)
    requires AgreeOn(Post(inbound, s1, e1).trace, s1, s2, e1, e2)
    ensures Post(inbound, s2, e2) == Post(inbound, s1, e1)
  {
    if inbound.Parsed? && HasRequiredFields(inbound.request) && Selected(inbound.request).Some? {
      var req := inbound.request;
      var p := Selected(req).value;
      assert Post(inbound, s1, e1).trace == Invoke(p, req, s1, e1).trace;
      InvokeDependsOnlyOnReplies(p, req, s1, s2, e1, e2);
    }
  }

  lemma InvokeDependsOnlyOnReplies(p: Provider, req: ChatRequest, s1: Outbound -> Upstream, s2: Outbound -> Upstream,
                                   e1: Value -> Completion<Value>, e2: Value -> Completion<Value>)
    requires HasRequiredFields(req)
    requires AgreeOn(Invoke(p, req, s1, e1).trace, s1, s2, e1, e2)
    ensures Invoke(p, req, s2, e2) == Invoke(p, req, s1, e1)
  {
    var out := FirstRequest(p, req);
    var trace := Invoke(p, req, s1, e1).trace;
    assert trace[0] in trace;
    assert s1(out) == s2(out);
    if p == Perplexity {
      var a := Accept(Perplexity, s1(out));
      if a.Normal? && !Nullish(a.value) {
        var citations := Lookup(a.value, "citations");
        assert trace[1] == Enrich(citations);
        assert trace[1] in trace;
      }
    }
  }
}
