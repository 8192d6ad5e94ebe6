# MindMesh chat gateway and hex colour parser, modelled in Dafny

MindMesh forwards one chat turn to one of three large-language-model APIs.
The forwarding happens in the route handler `POST /api/chat`. The handler:

- decodes the inbound body;
- checks that `message`, `provider` and `apiKey` are present and non-empty;
- selects an adapter (OpenAI, Gemini or Perplexity) by the exact provider name;
- lets the adapter build the upstream request, check the upstream status and normalise the upstream payload;
- wraps the result in a 200 envelope `{response, provider, timestamp}`, or any failure in a 400 or 500 `{error}` body.

This project models that handler as pure functions. It also models `hexToRgb`, the colour parser of the particle background.

Files and modules:

- `js_values.dfy` (`JsValues`): the JavaScript semantics the handler relies on. It covers decoded JSON values, truthiness and `||`, and property reads with and without `?.`. It also covers strict-mode property assignment, thrown values, and the decimal rendering of integers in template literals. Property reads that throw use V8's `TypeError` wording, since Next.js runs on Node.
- `chat_types.dfy` (`ChatTypes`): the data of one call. It holds the chat messages, the inbound request, the closed set of providers and their names, and the outbound requests. It also holds the upstream replies, the trace of calls made, and the three outcomes.
- `adapters.dfy` (`Adapters`): the three adapters. Each adapter is split into a request builder, the shared status check `Accept`, and a payload normaliser.
- `gateway.dfy` (`Gateway`): `POST` as the function `Post`, with the properties of the whole handler.
- `hex_color.dfy` (`HexColor`): `hexToRgb`.

Three collaborators become parameters of `Post`:

- The upstream HTTP API is a function `server: Outbound -> Upstream`. Its reply is one of three things: `fetch` rejected, the API answered with a body that decodes, or it answered with a body that does not decode.
- The favicon extractor `getFavicons` is a function `enrich: Value -> Completion<Value>`. It may return icons or throw any value.
- A failure of `request.json()` on the inbound body is the input `Unparsable(message)`.

`Post` returns the outcome together with the trace of upstream calls it made. This is how the contracts say "no upstream call was made".

## Model

| member | source | states |
|---|---|---|
| Gateway.Post | app/api/chat/route.ts:136-189 | An undecodable body gives a 500 with the decoder's message and makes no call. A missing or empty `message`, `provider` or `apiKey` gives 400 "Missing required fields: message, provider, or apiKey" with no call, whatever the provider. This check comes before the provider check. Otherwise an unknown provider gives 400 "Unsupported provider" with no call. A 400 happens exactly in these two cases. A call is made exactly when an adapter is selected, and the first call is that adapter's request. At most two calls are made. A dispatched request ends as its adapter's run: a normal completion is the 200 envelope carrying the adapter's result and the provider named in the request, and a throw is the 500 carrying the thrown `Error`'s message, or "Internal server error" for any other thrown value. A success happens only for a dispatched request. |
| Gateway.Invoke | app/api/chat/route.ts:152-161 | The selected adapter makes exactly one HTTP call, its own request, and makes it first. Only Perplexity may follow it with one call to the favicon extractor. |
| Gateway.Present | app/api/chat/route.ts:141 | A field passes `!field` exactly when its JavaScript value is truthy: present and not the empty string. |
| Gateway.HasRequiredFields | app/api/chat/route.ts:141 | Validation passes exactly when `message`, `provider` and `apiKey` are all truthy. |
| Gateway.History | app/api/chat/route.ts:139 | The `messages = []` default: an absent history is empty, a present one is used as given. |
| Gateway.UpstreamFailureSurfaces | app/api/chat/route.ts:180-188 | A rejected `fetch`, or an ok reply whose body does not decode, gives a 500 carrying that error's message, after exactly the one upstream call. |
| Gateway.NullPayloadSurfaces | app/api/chat/route.ts:48-132 | An ok reply whose payload is `null` gives a 500 whose text is V8's TypeError for the adapter's first plain read: `choices` for OpenAI, `candidates` for Gemini, `citations` for Perplexity. It follows exactly one call. |
| Gateway.OpenAISuccess | app/api/chat/route.ts:87-179 | End to end: an ok OpenAI reply gives a 200 whose response is the normalised text of that payload, under "OpenAI", after exactly one call. |
| Gateway.GeminiSuccess | app/api/chat/route.ts:130-179 | End to end: an ok Gemini reply gives a 200 whose response is the normalised text of that payload, under "Gemini", after exactly one call. |
| Gateway.PerplexitySuccess | app/api/chat/route.ts:48-52 | End to end: an ok Perplexity reply that is an object gives a 200 whose response is that object with `icons` set to the extractor's result for its `citations`. This follows one upstream call and one extractor call. |
| Gateway.UpstreamStatusSurfaces | app/api/chat/route.ts:180-188 | For every provider, a non-ok upstream status gives a 500 whose text is "<Provider> API error: <status> <statusText>". |
| Gateway.Status401Surfaces | app/api/chat/route.ts:180-188 | Upstream status 401 gives an outcome with status 500 whose error text contains "401". |
| Gateway.NonErrorThrowIsInternalError | app/api/chat/route.ts:184 | A non-`Error` value thrown by the favicon extractor gives 500 "Internal server error". |
| Gateway.GeminiIgnoresHistory | app/api/chat/route.ts:159-160 | Two Gemini requests that differ only in their history get identical outcomes and traces, for any upstream. |
| Gateway.HistoryForwarded | app/api/chat/route.ts:153-158 | For OpenAI and Perplexity, the messages sent upstream are the request's history (empty when absent) followed by the new user turn. |
| Gateway.OutcomeDependsOnlyOnReplies | app/api/chat/route.ts:169-179 | Two pairs of upstream and extractor that give the same answers to the calls actually made yield the same outcome and trace. So the response is determined by the request and the replies; the timestamp is excluded. |
| ChatTypes.ProviderNamed | app/api/chat/route.ts:152-166 | A provider is selected only when the string is exactly its name. A string that names no provider selects none. |
| ChatTypes.ProviderNameRoundTrip | app/api/chat/route.ts:152-161 | Each provider is selected by its own name and by no other string. |
| Adapters.WithNewTurn | app/api/chat/route.ts:23-26 | The outbound list is one longer than the history, keeps the history as its prefix in order, and ends with the user turn carrying `message`. |
| Adapters.OpenAIRequest | app/api/chat/route.ts:60-79 | The OpenAI request goes to the chat-completions URL with `Authorization: Bearer <key>`, model "gpt-3.5-turbo" and `max_tokens` 1000. Its messages are the history followed by the new user turn. |
| Adapters.PerplexityRequest | app/api/chat/route.ts:21-40 | The Perplexity request has the same shape as OpenAI's, with model "sonar-pro" at the Perplexity URL. |
| Adapters.GeminiRequest | app/api/chat/route.ts:97-122 | The Gemini request has no `Authorization` header. The key is the value of the `key` query parameter at the end of the generate-content URL. The body holds exactly one content with one part, whose text is `message`, and `maxOutputTokens` 1000. |
| Adapters.Accept | app/api/chat/route.ts:124-130 | A rejected `fetch` propagates its error. A status outside 200-299 throws "<Provider> API error: <status> <statusText>" before the body is decoded. An undecodable body propagates the decoder's error. The payload is passed on exactly when the status is ok and the body decodes. |
| Adapters.ApiErrorText | app/api/chat/route.ts:81-85 | The text starts with "<Provider> API error: " and continues with the status in decimal, a space and the status text. |
| Adapters.ApiErrorTextMentions | app/api/chat/route.ts:81-85 | The API error text contains the provider name and the status in decimal, and ends with the status text. |
| Adapters.OpenAIText | app/api/chat/route.ts:87-88 | It throws exactly when the payload or its `choices` is null or undefined. Otherwise the result is never falsy, so the fallback is a value and not an error. |
| Adapters.OpenAITextOfFirstChoice | app/api/chat/route.ts:88 | For any payload object, whatever other fields it and its nested objects carry: when the first choice's message has a `content`, a truthy content is the result and a falsy one gives "No response received". |
| Adapters.OpenAITextFallback | app/api/chat/route.ts:88 | For any payload object with a `choices` array: an empty array, a first choice without `message`, or a message without `content` give "No response received", not an error. |
| Adapters.OpenAITextWithoutChoicesThrows | app/api/chat/route.ts:88 | A payload object without `choices` makes the plain `choices[0]` read throw. |
| Adapters.GeminiText | app/api/chat/route.ts:130-133 | It throws exactly when the payload itself is null or undefined. Otherwise the result is never falsy. |
| Adapters.GeminiTextOfFirstPart | app/api/chat/route.ts:131-133 | For any payload object, whatever other fields it and its nested objects carry: when the first part of the first candidate's content has a `text`, a truthy text is the result and a falsy one gives "No response received". |
| Adapters.GeminiTextFallback | app/api/chat/route.ts:131-133 | For any payload object: no `candidates`, an empty `candidates`, a first candidate without `content`, content without `parts`, an empty `parts`, or a first part without `text` (such as a function-call part) give "No response received", not an error. |
| Adapters.CallOpenAI | app/api/chat/route.ts:55-89 | It makes exactly one call, the OpenAI request. A rejected fetch, a non-ok status (the OpenAI API error) or an undecodable body is the adapter's throw. Otherwise the result is the normalised payload, or the normaliser's throw. A success is text and never falsy. |
| Adapters.CallGemini | app/api/chat/route.ts:91-134 | It makes exactly one call, the Gemini request, which does not depend on any history. A rejected fetch, a non-ok status (the Gemini API error) or an undecodable body is the adapter's throw. Otherwise the result is the normalised payload, or the normaliser's throw. A success is text and never falsy. |
| Adapters.AttachIcons | app/api/chat/route.ts:48-52 | It reads `citations` (null or undefined payloads throw before any extractor call) and calls the extractor once with it. On success the payload object gains `icons` = the extractor's result, and every other field keeps its key and value. An array payload is returned unchanged. An extractor failure propagates. A primitive payload throws on the strict-mode assignment. |
| Adapters.CallPerplexity | app/api/chat/route.ts:16-53 | It calls the Perplexity request first and then at most the extractor. A rejected fetch, a non-ok status (the Perplexity API error) or an undecodable body is the adapter's throw, after exactly one call. Otherwise the payload goes to the icon attachment, whose result and calls are the adapter's. A success is the augmented payload, after both calls. |
| Adapters.PerplexityNeverFallsBack | app/api/chat/route.ts:50-52 | The `|| "No response received"` of the Perplexity adapter is never taken: a success is always an object or an array. |
| JsValues.Or | app/api/chat/route.ts:88 | `a || b` is `a` when `a` is truthy and `b` otherwise. |
| JsValues.Lookup | app/api/chat/route.ts:88 | A property read on an object gives the field, or undefined when absent. On an array or string a canonical index in range gives the element, or the one-character string, and anything else gives undefined. Booleans and numbers have no own properties. |
| JsValues.GetProp | app/api/chat/route.ts:88 | A plain property read throws an `Error` exactly on null and undefined, with V8's text "Cannot read properties of null (reading '<key>')" (or `undefined`). Elsewhere it gives the own-property lookup. |
| JsValues.OptProp | app/api/chat/route.ts:132 | An optional-chained read gives undefined on null and undefined and agrees with the plain read elsewhere. |
| JsValues.SetProp | app/api/chat/route.ts:50 | An assignment sets the field on an object and nothing else. An array is unchanged as JSON sees it. Any other value throws. |
| JsValues.NatToString | app/api/chat/route.ts:44 | `${status}` is a non-empty string of decimal digits, one digit exactly below 10, with no leading zero. |
| JsValues.DecimalRoundTrip | app/api/chat/route.ts:83 | Reading the digits back gives the status again, so the error text identifies the status. |
| JsValues.IndexKeyRoundTrip | app/api/chat/route.ts:132 | The key `[i]` reads denotes index `i`, so `[0]` is the first element. |
| HexColor.StripFirstHash | components/ui/particles.tsx:19 | Without a '#' the string is unchanged. With one, exactly one character is removed. |
| HexColor.StripRemovesFirstHash | components/ui/particles.tsx:19 | The character removed is the first '#'; everything before and after it is kept, in order. |
| HexColor.Doubled | components/ui/particles.tsx:21-24 | The result is twice as long, and its characters 2i and 2i+1 are both character i of the input. |
| HexColor.ExpandShorthand | components/ui/particles.tsx:20-25 | A 3-character string becomes its 6-character doubling. Any other length is unchanged. Hex digits stay hex digits. |
| HexColor.HexValue | components/ui/particles.tsx:26 | A string of k hex digits spells a number below 16^k. |
| HexColor.ParseIntHex | components/ui/particles.tsx:26 | `parseInt(s, 16)` is NaN exactly for the empty string. |
| HexColor.ToInt32 | components/ui/particles.tsx:27 | The 32-bit conversion lies in the signed 32-bit range, maps NaN to 0, and is congruent to its argument modulo 2^32. |
| HexColor.ShiftMask | components/ui/particles.tsx:27 | `(x >> k) & 255` is a byte, congruent modulo 256 to the shifted value. |
| HexColor.HexToRgb | components/ui/particles.tsx:18-28 | The result always has exactly three components, each in 0..255. |
| HexColor.SixDigitChannels | components/ui/particles.tsx:26-27 | For six digits the channels are the values of digit pairs 1-2, 3-4 and 5-6, in that order. |
| HexColor.ShorthandMatchesExpanded | components/ui/particles.tsx:20-27 | A 3-digit shorthand gives the same channels as its doubled 6-digit form. Each channel is 17 times its digit. |
| HexColor.WhiteChannels | app/page.tsx:14 | "#ffffff" gives [255, 255, 255]. |
| HexColor.BlackChannels | app/page.tsx:14 | "#000000" gives [0, 0, 0]. |
| HexColor.ShortWhiteChannels | components/ui/particles.tsx:20-27 | "#fff" gives [255, 255, 255]. |
| HexColor.NoDigitsIsBlack | components/ui/particles.tsx:26-27 | An input with no digits after the '#' parses to NaN and gives [0, 0, 0]. |

## Left out

- The success envelope's `timestamp` (`new Date().toISOString()`) is not modelled; it is nondeterministic. `console.error` logging is not modelled either.
- HTTP transport is not modelled: headers other than `Authorization` (such as `Content-Type`), serialisation of bodies to bytes, and JSON encoding and decoding. Decoding is abstracted to a decoded `Value` or a decoder error.
- The `temperature: 0.7` settings are not modelled, because they are floats. JSON numbers in payloads are integers only.
- Async/await is not modelled: each call is treated as sequential.
- The inbound body is modelled as typed optional fields: `message`, `provider` and `apiKey` are strings and `messages` is an array of chat messages. A body that is not an object, fields of other JSON types, and a `null` history are not modelled.
- Property reads see own properties only. Prototype members such as `length` are not modelled; none of the keys the handler reads names one.
- Serialising a payload whose fields hold `undefined` drops those fields in JSON; the model keeps the in-memory value and does not model that drop.
- The favicon extractor's internals are not modelled. Its result is taken as given, so nothing is proved about `icons` matching `citations` in length or order.
- The rest of `particles.tsx` (canvas drawing, animation, mouse tracking, `Math.random`) is not modelled. Neither are the React components in `Modoleinfo.tsx`, `animated-tooltip.tsx`, `ThemeButton.tsx`, `app/page.tsx` and `app/chat/page.tsx`.
- HexColor.HexToRgb: the input is restricted to hex digits after the first '#'. `parseInt`'s handling of whitespace, signs, a "0x" prefix and trailing non-hex characters is not modelled.
- HexColor.HexToRgb: beyond 13 hex digits, `parseInt` rounds to a double; the model keeps the exact integer. The 32-bit wrap of ToInt32 is modelled.
