# Chat relay: provider selection, demo responder and fallback

A model of the decision logic of a small chat relay server (`index.js`). The
server forwards a conversation to one of three hosted language-model
providers and returns the answer in one normalized shape,
`{ content: [ { type: "text", text } ] }`. When no provider credential is
configured, or when the upstream call fails in any way, it answers locally
with a keyword-matching demo responder instead.

The model is written in the same pure style as the source's core: a nested
conditional chooses the provider, a first-match search over an ordered
keyword table produces the demo reply, and object literals build the
provider requests and the normalized response. All of it is functions and
lemmas; two of the functions are recursive, the keyword search and the
reference walk over the provider priority list.

- `wire.dfy` (module `Wire`): messages, the normalized response, `Wrap`, and the
  `Option`/`Result` wrappers.
- `selection.dfy` (module `Selection`): the provider priority chain of the chat
  handler, the name `/health` reports, and a reference definition of
  the chain as "first available provider of a priority list".
- `demo_mode.dfy` (module `DemoMode`): `chatDemo`. It covers lower-casing, substring
  containment, the ordered keyword table, the first-match search and the four
  generic replies.
- `upstream.dfy` (module `Upstream`): the request bodies of the three provider
  adapters, and each adapter's call. The network round trip is an abstract
  `Transport` function that yields the extracted text or an error.
- `chat_endpoint.dfy` (module `ChatEndpoint`): the `POST /api/chat` handler
  (validation, dispatch, fallback on failure) and the `GET /health` handler.

Parameters stand for what the server reads from its environment or from
chance. The three credentials are a `Credentials` value. The upstream
service is `Transport`. The random choice among the generic demo replies is
an index `pick < 4`.

## Model

| member | source | states |
|---|---|---|
| `Selection.KeyOf` | index.js:20-28 | Each provider is called with its own credential (Groq's, Together AI's, HuggingFace's), and Demo with none |
| `Selection.Select` | index.js:181-193 | The selected provider is available (non-empty credential), every provider before it in the order Groq, Together AI, HuggingFace is unavailable, and Demo is chosen exactly when no credential is set |
| `Selection.Rank` | index.js:181-193 | Positions the providers in the priority order Groq, Together AI, HuggingFace, with Demo after all of them |
| `Selection.FirstAvailable` | index.js:180-193 | Reference definition: walking a priority list yields Demo or a member of the list |
| `Selection.SelectIsFirstAvailable` | index.js:181-193 | The handler's conditional chain equals the first available provider of the list Groq, Together AI, HuggingFace, so HuggingFace, though declared second, is tried last |
| `Selection.LowerPriorityKeysIgnored` | index.js:181-193 | A later credential never overrides an earlier non-empty one: configurations that agree up to the selected provider select the same provider |
| `Selection.SingleCredentialSelected` | index.js:207-210 | With exactly one credential set, that provider is selected and `/health` reports its name |
| `Selection.HealthLabel` | index.js:207-210 | Every `/health` name is non-empty, and it is "Demo" exactly for demo mode |
| `Selection.HealthName` | index.js:207-210 | `/health` reports "Demo" exactly when all three credentials are empty |
| `Selection.HealthReportsSelection` | index.js:207-210 | The name `/health` reports is always the label of the provider the chat handler selects for the same credentials |
| `Selection.HealthLabelInjective` | index.js:207-210 | Distinct providers have distinct `/health` names |
| `Wire.Last` | index.js:125 | The current user turn is an element of the conversation |
| `Wire.LastIgnoresEarlier` | index.js:125 | Messages placed before a conversation do not change its last message |
| `Wire.Wrap` | index.js:53-58 | Wrapping yields one item of type "text" whose text is the wrapped string |
| `Wire.WrapTextOf` | index.js:113-118 | Every single-"text" response is the wrapping of its own text |
| `Wire.WrapInjective` | index.js:83-88 | Wrapping keeps distinct texts distinct |
| `DemoMode.LowerChar` | index.js:125 | A character changes exactly when it is an upper-case Latin or Russian letter (block U+0400..U+042F), and the result is never such a letter |
| `DemoMode.Lower` | index.js:125 | Lower-casing keeps the length of the text |
| `DemoMode.Contains` | index.js:141 | `includes`: the empty word occurs in every text, a text contains itself, and a word that occurs is no longer than the text |
| `DemoMode.Quote` | index.js:153 | The first generic reply is non-empty and contains the message exactly as written, not lower-cased |
| `DemoMode.Defaults` | index.js:152-157 | There are exactly four generic replies, all non-empty, the first quoting the message |
| `DemoMode.FindKeyword` | index.js:140-149 | The search returns the index of a table keyword contained in the text with no earlier keyword contained, or nothing exactly when no keyword is contained |
| `DemoMode.Reply` | index.js:124-165 | The demo reply is one non-empty "text" item whose text is a table reply or one of the generic replies for the last message |
| `DemoMode.KeywordIsLower` | index.js:127-137 | Each table keyword is written in lower case |
| `DemoMode.KeywordsAreLowerCase` | index.js:127-137 | Lower-casing leaves every table keyword unchanged |
| `DemoMode.ContainsSurvivesLowering` | index.js:125 | If a word occurs in the text, its lower case occurs in the lower-cased text |
| `DemoMode.KeywordFoundInAnyCase` | index.js:141 | A table keyword written in any mix of cases anywhere in the message is contained in the lower-cased message |
| `DemoMode.ReplyIsFirstMatch` | index.js:140-149 | When some keyword occurs in the lower-cased last message, the reply is the first such keyword's reply, whatever the random pick |
| `DemoMode.ReplyFallsBackToDefault` | index.js:151-164 | When no keyword occurs, the reply is the generic reply chosen by the pick, and the first one quotes the original message |
| `DemoMode.ReplyDependsOnlyOnLastContent` | index.js:125 | Conversations whose last message has the same content get the same demo reply |
| `DemoMode.KeywordsDoNotOverlap` | index.js:127-137 | No keyword of the table contains an earlier one, so no table entry is shadowed by the entries searched before it |
| `DemoMode.EachKeywordAnswersItself` | index.js:127-149 | A message consisting of keyword j alone is answered with reply j, whatever the random pick, so every table entry is reachable. The table is searched in the order its entries are written, because `Object.entries` keeps insertion order for these string keys |
| `Upstream.GroqRequest` | index.js:40-45 | The Groq body names the model `llama-3.3-70b-versatile` and carries the whole conversation, `max_tokens` 1000 and temperature 0.7, with the Groq credential as bearer token |
| `Upstream.TogetherRequest` | index.js:101-105 | The Together AI body names the model `meta-llama/Meta-Llama-3.1-8B-Instruct-Turbo` and carries the whole conversation and `max_tokens` 1000 and no temperature |
| `Upstream.Bearer` | index.js:37 | The authorization header is "Bearer " followed by exactly the credential |
| `Upstream.HuggingFaceRequest` | index.js:65-75 | The HuggingFace body carries only the last message's content as `inputs` |
| `Upstream.BuildRequest` | index.js:181-189 | The request sent carries the selected provider's own credential, and only HuggingFace uses the inference body; Groq and Together AI send the message sequence unchanged with `max_tokens` 1000 and their own model id, and only Groq sets a temperature |
| `Upstream.CallProvider` | index.js:33-58 | An adapter succeeds exactly when the transport does, and then answers with the transport's text as one "text" item; a failure is passed on unchanged |
| `Upstream.HuggingFaceSendsOnlyLastContent` | index.js:64-75 | The HuggingFace request depends only on the last message's content |
| `ChatEndpoint.StatusCode` | index.js:174-175 | 400 exactly for a rejected body, 200 for every answered request |
| `ChatEndpoint.HandleChat` | index.js:170-204 | The body is rejected with "Invalid request" exactly when `messages` is not an array; every other request is answered with one "text" item |
| `ChatEndpoint.HealthCheck` | index.js:206-217 | `/health` answers status "ok" and the label of the provider `Select` chooses |
| `ChatEndpoint.InvalidRequestShortCircuits` | index.js:174-176 | Without a `messages` array the answer is 400 "Invalid request", the same for every credential set, transport and pick: no provider and no demo reply takes part |
| `ChatEndpoint.ProviderSuccessIsWrapped` | index.js:181-195 | A successful call of the selected provider is answered with its text wrapped as one "text" item |
| `ChatEndpoint.FailureFallsBackToDemo` | index.js:197-202 | Any failure of the selected provider's call is answered, with status 200, by the demo reply to the same messages |
| `ChatEndpoint.NoCredentialUsesDemo` | index.js:190-193 | With no credential the demo reply is returned with non-empty text, and the transport is never consulted |
| `ChatEndpoint.SinglePathAnswers` | index.js:178-202 | The answer is either the demo reply or the selected provider's text wrapped; nothing is merged from two paths |
| `ChatEndpoint.HealthMatchesChat` | index.js:207-210 | `/health` reports "Demo" exactly when the chat handler would use demo mode, which is exactly when no credential is set |

## Left out

- The HTTP server is not modelled: Express, the CORS middleware, JSON body parsing, `listen`, the port and the module export.
- The network calls are not modelled. `fetch`, the `response.ok` check, `response.json()` and the read of `choices[0].message.content` or `[0].generated_text` are folded into the abstract `Transport`. Its three error kinds are not distinguished by the handler, as in the source.
- Upstream answers whose text field is missing but which do not throw are not modelled. A `Transport` always yields a string or an error.
- `Math.random` is not modelled; the parameter `pick < 4` stands for the random index.
- DemoMode.Lower: only Basic Latin and the Cyrillic block U+0400..U+042F are mapped to lower case; other characters stay unchanged. JavaScript's `toLowerCase` covers all of Unicode, including mappings that change a string's length. This never changes which keyword matches: no keyword character is changed by lower-casing, and no character outside the two mapped ranges lower-cases to a keyword character, so a keyword occurs in the partly lower-cased text exactly when it occurs in the fully lower-cased one.
- An empty `messages` array is not modelled. It passes validation. With Groq or Together AI selected, the empty list is sent upstream and answered if the upstream answers. Otherwise, and on the HuggingFace and demo paths, the handler throws when it reads the missing last message (index.js:65, 125), also from its catch block (index.js:201). The model requires a non-empty conversation in `HandleChat`, `BuildRequest`, `CallProvider` and `DemoMode.Reply` instead.
- Messages whose `content` is not a string, and array elements that are not messages, are not modelled. `Message` always holds two strings.
- The server never checks that a message's role or content is non-empty, and neither does the model.
- Logging is left out, and so are the `/health` timestamp and the startup banner, which uses slightly different labels ("Together", "Demo Mode").
- Reading the credentials from the environment is not modelled; they are the `Credentials` parameter.
