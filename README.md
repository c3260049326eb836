# booleanai: the analysis pipeline behind `POST /api/analyze`

This project models the server side of booleanai: the HTTP handler that takes a drawn or
uploaded image of a digital-electronics question, hands it to a Gemini model together with a
fixed instruction prompt, and wraps the model's answer in a JSON envelope. The model covers:

- **Admission.** The per-IP gate (3 requests per minute) and the global limiter (at most 15
  admitted requests between two resets of a shared counter), in the order the route table applies
  them.
- **Validation.** The check on `imageData`.
- **Image normalisation.** Stripping a `data:image/<w>;base64,` prefix, decoding, converting to
  PNG, and re-encoding as standard base64 (section 4 of RFC 4648).
- **The prompt.** A fixed template followed by `JSON.stringify(variables)`.
- **The AI service.** Its initialised-or-throw guard.
- **The fallback parser.** It keeps a text that is not JSON as a `raw_response`.
- **The envelopes.** Every success, partial-success and error reply.

The modular server (`src/`) is modelled file by file. The two single-file servers (`src/index.ts`
and `index.js`) are one module, `Monolith`, which takes a `Dialect` value holding the texts in
which they differ.

Layout:

| file | models |
|---|---|
| `Wrappers.dfy`, `JsonValues.dfy`, `Http.dfy` | `Option`/`Result`; JSON values; a reply as status code plus body |
| `Types.dfy` | `src/types.ts`: the request, the image part, the envelope and the `AnalysisResult` union, with its JSON form and a shape check |
| `Base64.dfy` | the base64 text `Buffer#toString('base64')` produces, with a strict decoder as its inverse |
| `Foreign.dfy` | everything the handlers call but do not define: Node's base64 decoder, sharp, the Gemini client, `JSON.parse`, `JSON.stringify`. These are passed in as functions, and each handler returns the list of calls it made |
| `RateLimiter.dfy` | `src/middleware/rateLimiter.ts` |
| `ImageService.dfy` | `src/services/imageService.ts` and the inline copies in both single-file servers |
| `PromptGenerator.dfy` | `src/utils/promptGenerator.ts` and the inline prompts |
| `AiService.dfy` | `src/services/aiService.ts` |
| `AnalyzeController.dfy` | `src/controllers/analyzeController.ts` |
| `Routes.dfy` | `src/routes/index.ts` |
| `Monolith.dfy` | `src/index.ts` and `index.js` |

State the source mutates is modelled by classes:

- `GlobalRateLimiter` refers to one `SharedCount` cell, which stands for the static `requestCount`.
- `AiService` holds the module variable `genAI`.
- `Monolith.Server` holds `requestCount`.

The prompt template is a field set by each constructor: `AiService` takes the text of the imported
`generatePrompt` (`ModularTemplate`), `Monolith.Server` the inline prompt (`MonolithTemplate`).
The specification functions take the template as a parameter, so the lemmas about them hold
for any template. `AiService.ServiceSendsGeneratedPrompt` and `PromptGenerator.TemplatesAnnounceInOrder`
state what the actual texts give.

Each state-changing method is proved equal to a specification function (`ControllerOutcome`,
`ServeOutcome`, `MonolithOutcome`, `AnalyzeImageOutcome`). The properties are proved as lemmas
about those functions.

Behaviours of the code worth knowing:

- **Gate order.** The per-IP gate runs before the global one, in the order the route table lists
  them. A request the per-IP gate rejects never takes a global slot.
- **No shape check.** Any text `JSON.parse` accepts is reported as `success`, even when it is not
  an `AnalysisResult` (`AiService.SuccessWithoutShapeCheck`).
- **Lenient base64.** Node's decoder skips what it cannot read, so a malformed image string is
  passed on to sharp, and whatever sharp throws becomes a 500 reply.
- **No `message` from `index.js` for most errors.** Its 500 reply carries `error.statusText`,
  which only the Gemini client's HTTP errors have; for every other error the reply has no
  `message` member.

## Model

| member | source | states |
|---|---|---|
| RateLimiter.SharedCount.constructor | src/middleware/rateLimiter.ts:18 | the shared count starts at 0 |
| RateLimiter.SharedAcrossInstances | src/middleware/rateLimiter.ts:18-42 | for any two limiters and any count, a slot taken through one is seen through the other, and a reset through one clears the count and the limit for the other |
| RateLimiter.GlobalRateLimiter.constructor | src/middleware/rateLimiter.ts:22-27 | a new limiter refers to the one shared count and does not change it |
| RateLimiter.GlobalRateLimiter.IsLimitReached | src/middleware/rateLimiter.ts:33-35 | true exactly when the count is at least 15 |
| RateLimiter.GlobalRateLimiter.IncrementCount | src/middleware/rateLimiter.ts:40-42 | the count goes up by exactly one, and nothing else changes |
| RateLimiter.GlobalRateLimiter.Reset | src/middleware/rateLimiter.ts:24-26 | the count becomes 0, whatever it was |
| RateLimiter.IpRejection | src/middleware/rateLimiter.ts:5-14 | a rejection is 429 with the configured `{message}` body |
| RateLimiter.Admit | src/controllers/analyzeController.ts:17-27 | a request is admitted exactly when the count is under 15; an admitted one raises the count by one, a rejected one leaves it; from at most 15 the count stays at most 15 |
| RateLimiter.WindowAdmitsExactly | src/controllers/analyzeController.ts:17-27 | within one window, starting under the limit, exactly `min(arrivals, 15 - count)` requests are admitted, and the count records them |
| RateLimiter.CountNeverAboveLimit | src/controllers/analyzeController.ts:17-27 | check-then-increment never takes the count above 15, whatever mix of arrivals and resets |
| RateLimiter.WindowNeverAdmitsMoreThanLimit | src/middleware/rateLimiter.ts:17-42 | between two resets, at most 15 requests are admitted, however many arrive |
| RateLimiter.RejectsUntilTick | src/middleware/rateLimiter.ts:24-35 | at the limit every arrival is rejected until a reset; right after one, a request is admitted again |
| Routes.IpLimiterConfiguration | src/middleware/rateLimiter.ts:5-7 | the per-IP gate allows 3 requests per 60 000 ms and rejects with 429 |
| Types.StatusNamed | src/types.ts:18 | only `success`, `partial_success` and `error` name a status, each naming exactly one |
| Types.ApiResponse.ToBody | src/types.ts:15-20 | `message` and `status` are always written and `data` and `error` only when present; the written status reads back as the same status |
| Types.VariablesOrDefault | src/controllers/analyzeController.ts:30 | an absent `variables` becomes `{}`; a present one, `null` included, is kept; `generatePrompt` defaults its parameter the same way |
| Types.Truthy | src/controllers/analyzeController.ts:33 | a missing `imageData` and the empty string are falsy, every other string is truthy, and any other value keeps its own truthiness |
| Types.FromJsonToJson | src/types.ts:26-74 | every variant of `AnalysisResult` read back from its JSON object is itself: the tags are distinct, and every field is kept, down to the order of `kmap.variables` |
| Types.TagIdentifiesVariant | src/types.ts:68-74 | two results with the same `type` tag are of the same variant |
| Types.StringsRoundTrip | src/types.ts:43 | a string array is read back unchanged, in order |
| JsonValues.GetLastWins | src/services/aiService.ts:47 | a key is read as the value of its last member, as `JSON.parse` keeps the last of repeated keys |
| JsonValues.GetUnique | src/types.ts:26-66 | a member whose key occurs once is found by its key |
| Base64.Encode | src/services/imageService.ts:12 | the text has 4 characters per started 3-byte group |
| Base64.EncodeWellFormed | src/services/imageService.ts:12 | the text uses only the RFC 4648 alphabet, with `=` padding only at the end |
| Base64.DecodeEncode | src/services/imageService.ts:12 | decoding the encoded text gives back the bytes |
| Base64.DecodeIffEncode | src/services/imageService.ts:12 | the strict decoder accepts a text exactly when it is the encoding of the bytes it returns |
| ImageService.StripRemovesExactlyTheMatch | src/services/imageService.ts:5 | if the input starts with `data:image/<word chars>;base64,`, exactly that prefix is removed; otherwise the input is unchanged |
| ImageService.MatchLengthSound | src/services/imageService.ts:5 | a match that `MatchLength` reports is a prefix of the form `data:image/<word chars>;base64,` |
| ImageService.MatchLengthComplete | src/services/imageService.ts:5 | every prefix of that form is the match `MatchLength` reports |
| ImageService.StripDataUrlPrefix | src/services/imageService.ts:5 | the result is always a suffix of the input |
| ImageService.DataUrlPrefixUnique | src/services/imageService.ts:5 | at most one prefix length matches at position 0 |
| ImageService.SvgPrefixIsKept | src/services/imageService.ts:5 | an `image/svg+xml` data URL is left whole, because `+` is not a word character |
| ImageService.OnlyOnePrefixRemoved | src/services/imageService.ts:5 | a doubled prefix loses only its first copy |
| ImageService.Base64ToImage | src/services/imageService.ts:4-16 | succeeds exactly when the converter accepts the decoded bytes; then the MIME type is always `image/png` and the data is the base64 text of the converter's PNG bytes; otherwise the converter's error is returned |
| PromptGenerator.FillIsTemplateThenVariables | src/utils/promptGenerator.ts:1-27 | the prompt is the fixed template followed by `JSON.stringify(variables)`, and nothing else |
| PromptGenerator.FillEqualIffSerialisationsEqual | src/utils/promptGenerator.ts:2-27 | two prompts from one template are equal exactly when the serialisations of their variables are |
| PromptGenerator.DefaultFillEndsInEmptyObject | src/utils/promptGenerator.ts:1-27 | with no variables, the prompt ends in `{}` |
| PromptGenerator.GeneratePrompt | src/utils/promptGenerator.ts:1-28 | the prompt is the modular text followed by `JSON.stringify(variables)`, of `{}` when there are no variables |
| PromptGenerator.TemplatesAnnounceInOrder | src/utils/promptGenerator.ts:7-20 | the template, and each inline copy, announces the five return formats in order |
| PromptGenerator.FormatsAnnounceTags | src/utils/promptGenerator.ts:7-20 | the announced tags are logic_expression, code_conversion, kmap, binary_arithmetic and boolean_simplification, in that order, which is the union's declaration order |
| PromptGenerator.FiveAnnouncedInOrder | src/utils/promptGenerator.ts:7-20 | five sections laid end to end announce their formats at strictly increasing positions |
| PromptGenerator.InOrderEnclosed | src/utils/promptGenerator.ts:2-27 | text put before and after the sections (the introduction and the closing lines) keeps their announcements in order |
| AiService.AiService.constructor | src/services/aiService.ts:3-5 | before `initializeAI`, there is no client; the prompt template is that of the imported `generatePrompt` |
| AiService.AiService.InitializeAI | src/services/aiService.ts:10-12 | the client is the one made from the given key |
| AiService.AiService.AnalyzeImage | src/services/aiService.ts:21-35 | behaves as `AnalyzeImageOutcome` on the current client |
| AiService.AnalyzeImageOutcome | src/services/aiService.ts:26-34 | with no client: "AI service not initialized" and no calls; otherwise the model lookup error, or the model's text for exactly `generatePrompt(variables)` and the image |
| AiService.AnalyzeImageGuard | src/services/aiService.ts:26-28 | the not-initialised error with no calls happens exactly when there is no client, and the service never converts or parses |
| AiService.AnalyzeImageSendsPrompt | src/services/aiService.ts:21-34 | what is sent is the template followed by the serialised variables (those of `{}` when absent), with the given image and model; the text comes back unchanged |
| AiService.ServiceSendsGeneratedPrompt | src/services/aiService.ts:30-34 | with the service's own template, the prompt sent is exactly `generatePrompt(variables)`, and the model's text is returned unchanged |
| AiService.ParseAnalysisResponse | src/services/aiService.ts:42-61 | total; `success` exactly when `JSON.parse` accepts the text, and then the parsed value unchanged; otherwise a `raw_response` holding the text |
| AiService.FailedParseIsRawResponse | src/services/aiService.ts:52-60 | a failed parse gives `type: "raw_response"`, and the result reads back as `RawResponse(text)` |
| AiService.SuccessWithoutShapeCheck | src/services/aiService.ts:46-51 | a parsed value that is not an `AnalysisResult` is still a success |
| AnalyzeController.Controller.constructor | src/controllers/analyzeController.ts:9-10 | the controller uses the one module-level limiter and the AI service it is given |
| AnalyzeController.Controller.Handle | src/controllers/analyzeController.ts:15-81 | behaves as `ControllerOutcome` on the shared count and the AI client |
| AnalyzeController.Controller.Respond | src/controllers/analyzeController.ts:29-80 | the work after the increment behaves as `HandleAdmitted` on the service's client and template |
| AnalyzeController.AdmissionTakesOneSlot | src/controllers/analyzeController.ts:17-27 | 503 exactly when the count is at the limit, with no work and no change to the count; otherwise exactly one slot is taken, whatever follows; the count never passes 15 |
| AnalyzeController.BusyBody | src/controllers/analyzeController.ts:18-22 | the busy reply has its message and `status: "error"` and nothing else |
| AnalyzeController.MissingImageKeepsSlot | src/controllers/analyzeController.ts:27-41 | a falsy `imageData` gives 400 with the three-member error envelope; the slot stays taken and nothing is called |
| AnalyzeController.ThrownErrorsGive500 | src/controllers/analyzeController.ts:44-80 | a conversion error, a missing client, a model lookup error or a failed model call gives 500 with that error's message; the slot is not given back; a failed model call comes after exactly three calls, the last being the model call |
| AnalyzeController.NonStringImageGives500 | src/controllers/analyzeController.ts:30-80 | a truthy `imageData` that is not a string fails in `replace`, before any call |
| AnalyzeController.AnsweredGives200 | src/controllers/analyzeController.ts:54-70 | after an answer, 200 with `success` and the parsed value, or `partial_success` and the raw response, after four calls, the first the conversion and the last the parse |
| AnalyzeController.EnvelopeShape | src/controllers/analyzeController.ts:17-80 | success and partial-success replies are 200 with exactly one `data` element; every error reply has no `data` |
| AnalyzeController.Processed | src/controllers/analyzeController.ts:57-67 | one `data` element; a message and status that follow the parse verdict |
| AnalyzeController.Failed | src/controllers/analyzeController.ts:72-79 | 500 with `error.message`, `error: "Failed to process image"` and `status: "error"` |
| Routes.Route | src/routes/index.ts:9-18 | only `POST /api/analyze` reaches the analysis handler; `GET /` and `GET /ping` reach the health handlers |
| Routes.Router.Serve | src/routes/index.ts:9-18 | behaves as `ServeOutcome` |
| Routes.IpGateComesFirst | src/routes/index.ts:18 | a request the per-IP gate rejects gets 429, even with the global count at the limit, and never reaches the controller |
| Routes.AdmittedReachesController | src/routes/index.ts:18 | an admitted `POST /api/analyze` is exactly one run of the controller |
| Routes.OnlyAnalyzeTouchesState | src/routes/index.ts:9-15 | any other request leaves the count and the foreign code alone; the health checks answer their fixed messages |
| Monolith.Server.constructor | src/index.ts:18-44 | the count starts at 0, the client is made from the key, and the prompt template is the inline one |
| Monolith.Server.Serve | src/index.ts:42-121 | behaves as `MonolithOutcome` on the server's count |
| Monolith.Server.Tick | src/index.ts:46-48 | the count becomes 0 |
| Monolith.MonolithAdmission | src/index.ts:50-54 | per-IP gate first, then 503 `{message}` alone at the limit with no work; otherwise one slot; the count never passes 15 |
| Monolith.MonolithMissingImage | src/index.ts:59-61 | a falsy `imageData` gives 400 `{error}` alone, before any call, with the slot kept |
| Monolith.LookupBeforeConversion | src/index.ts:63-64 | the model is looked up before the image is converted; a lookup error means no conversion |
| Monolith.MonolithSendsInlinePrompt | src/index.ts:57-91 | the prompt is the eight-space template followed by the serialised variables (`{}` by default), sent with the converted image |
| Monolith.MonolithThrownErrors | src/index.ts:57-117 | after admission, a truthy `imageData` that is not a string, an image the converter rejects, or a failed model call gives the server's 500 reply for that error; the slot is kept and the calls stop at the one that threw |
| Monolith.MonolithAnswered | src/index.ts:97-110 | a parsed answer gives `success` with `data: [parsed]`; any other text gives `partial_success` with the verbatim `raw_response` |
| Monolith.FailureMessages | index.js:128-136 | the 500 message is `error.message` in `src/index.ts` and `error.statusText` in `index.js`, so it is absent there for errors without one |
| Monolith.MonolithDataShape | src/index.ts:50-118 | a reply carries `data` exactly when it is a 200 reply, and then one element |
| Monolith.HandledDataShape | src/index.ts:57-118 | after admission, a reply carries `data` exactly when it is a 200 reply, and then one element |
| Monolith.DialectsAgreeOnBehaviour | index.js:57-137 | any two dialects, so `index.js` and `src/index.ts`, give every request the same code, calls, count, data and status |
| Monolith.HandledAgree | index.js:57-137 | after admission, any two dialects make the same calls and answer with the same code, data and status |
| Monolith.MonolithHealthRoutes | index.js:139-140 | the health routes never touch the count; `/ping` answers the server's own text |
| Monolith.IpGate | index.js:20-24 | each single-file server allows 3 requests per 60 000 ms, with its own message |
| Monolith.ErrorTextOf | index.js:131-133 | the 500 message is `error.message` or `error.statusText`, as the server picks |
| Monolith.SameCountAsModular | src/index.ts:42-54 | each monolithic server and the modular one keep the same global count on every request, whatever prompt each uses |

## Left out

- The memory-usage print of `index.js` and the logger are left out: they are floating-point arithmetic and output used only for logging.
- The starting up of each server is left out: `dotenv`, `cors`, `express.json`, `listen`, `src/app.ts` and `src/server.ts`. The environment values they provide become parameters (`apiKey`, `modelName`).
- The timer is a `Reset`/`Tick` method; wall-clock time is not modelled.
- Concurrency is not modelled: handlers run one at a time, and no `await` separates check from increment.
- The counting done by express-rate-limit is library code. Its decision for a request is an input (`ipAdmits`), and only its configuration is modelled. A rejection is assumed to be 429 with the configured object as its body, and its rate-limit headers are not modelled.
- Routes.Route: Express's path matching (case-insensitive, optional trailing slash) is modelled as exact comparison, and a `HEAD` request, which Express answers through the matching `GET` route, is treated as unrouted. Express's own 404 page for unrouted requests is `None`.
- Node's lenient base64 decoder, sharp's conversion, the Gemini client, `JSON.parse` and `JSON.stringify` are functions given to the model, not implementations. The encoder producing base64 text from PNG bytes is implemented, since its format is fixed.
- The order of members in the JSON text of a reply is not modelled.
- `req.body` being `undefined` is not modelled: `express.json` always provides an object for JSON requests. Nor is the shape of `imageData` beyond string, truthy and falsy.
- The V8 wording of the `TypeError` thrown by `replace` on a value that is not a string is assumed: "base64String.replace is not a function".
- `generatePrompt` is deterministic because it is a Dafny function, so no separate lemma states it.
