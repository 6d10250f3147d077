# Letrabox mockup generator — a Dafny model

The application is a four-step wizard. The user uploads a photograph of a place or object, then a logo, then writes instructions. One request to a hosted image model then returns a photorealistic mockup of the logo applied to the photograph. This project models the logic under the markup:

- **The wizard session** (`App.tsx`), in module `App`. It is a class `Session` with the current `step` and the `MockupState` record as fields, and one method per event handler. `handleGenerate` awaits the remote call, so it is split into three methods:
  - `BeginGenerate`: the guard, the step change and the error reset;
  - `CompleteGenerate`: takes the client's outcome;
  - `HandleGenerate`: runs the generation client between the two.

  The invariant `Consistent` says which fields each step needs. Every handler keeps it.
- **The generation client** (`services/geminiService.ts`), in module `GeminiService`. It covers:
  - the two data-URL helpers `cleanBase64` and `getMimeType`, with their two regular expressions written as character classes and a longest-run scanner;
  - the credential pre-check;
  - the three-part request;
  - the extraction of an image from the model's answer, a loop over the parts of the first candidate with early return;
  - the rewrite of SDK errors by HTTP status.

  The answer of the remote model is a parameter (`Reply`).
- **The step indicator** (`components/StepIndicator.tsx`), in module `StepIndicator`. This is the table of four markers and the derivation of each marker's circle style and badge from the current step.
- Supporting modules:
  - `Types` holds `AppStep`, a number 0..4 because `handleBack` does arithmetic on it, and `MockupState`;
  - `JsStrings` holds the JavaScript string operations the code relies on: truthiness, `includes`, `trim` and `substring`;
  - `Wrappers` holds `Option` and `Result`;
  - `Scenarios` drives whole sessions through the handlers.

## Model

| member | source | states |
|---|---|---|
| App.Session.constructor | App.tsx:9-16 | The session starts on the base-image step with both images, the generated image and the error null and an empty description. |
| App.Session.HandleBaseImageSelect | App.tsx:18-20 | The base image is stored and the error cleared. The step and every other field are unchanged, and the session invariant is kept. |
| App.Session.HandleLogoSelect | App.tsx:22-24 | The logo is stored and the error cleared. The step and every other field are unchanged. |
| App.Session.HandleDescriptionChange | App.tsx:26-28 | The text is stored as typed, with no trimming. The error, the other fields and the step are unchanged. |
| App.Session.HandleNext | App.tsx:30-36 | Advances base→logo only with a truthy base image and logo→describe only with a truthy logo. Otherwise the step is unchanged. The record is never modified, and the step moves by at most one. |
| App.Session.HandleBack | App.tsx:38-42 | Decrements the step by exactly one when it is past the first step and not generating; otherwise it does nothing. The step stays within 0..4 and the record is unchanged. From the result step this lands on the generating step. |
| App.Session.RedoPrompt | App.tsx:265 | From the result step, returns to the description step and keeps every field, the generated image included. |
| App.Session.BeginGenerate | App.tsx:44-48 | Starts exactly when both images are truthy and the description is non-empty. If it starts, the step becomes generating and only the error changes, to null. Otherwise nothing changes. |
| App.Session.CompleteGenerate | App.tsx:57-65 | On success the image is stored and the step becomes result. On failure the step becomes describe and the error is the one fixed message, whatever was thrown. Images and description are kept in both cases. |
| App.Session.HandleGenerate | App.tsx:44-67 | Composes the two halves around the client, which is called with three arguments. It sends a request exactly when the guard holds and the key is accepted. On success the image is shown on the result step. Any failure, the classified ones included, becomes the fixed message on the description step. |
| App.Session.HandleReset | App.tsx:69-78 | From any state, restores exactly the initial session. |
| App.CanGenerate | App.tsx:45 | The handler's guard: when it holds, both images are present and the description is non-empty, so the generating step has what it needs. |
| App.GenerateButtonEnabled | App.tsx:204 | The button is enabled exactly when some character of the description is not white space. |
| App.ButtonStricterThanHandler | App.tsx:204 | An enabled "Gerar Mockup" button implies a non-empty description. Any non-empty description made only of white space passes the handler's check while the button stays disabled. |
| JsStrings.Includes | services/geminiService.ts:29 | `includes` holds exactly when the substring occurs at some position. |
| JsStrings.TrimEmptyIffBlank | App.tsx:204 | The trimmed text is empty exactly when every character is ECMAScript white space or a line terminator. |
| JsStrings.Prefix | services/geminiService.ts:107 | `substring(0, n)` is a prefix of at most `n` characters, exactly `n` when the text is long enough and the whole text otherwise. |
| GeminiService.ParseDataUrlComplete | services/geminiService.ts:5 | The `cleanBase64` pattern matches in at most one way, and the parser finds every match. |
| GeminiService.CleanBase64StripsPrefix | services/geminiService.ts:4-10 | `data:` + media type + `;base64,` + payload yields the payload. This needs a non-empty media type over letters, `-`, `+`, `/` and a non-empty payload without line terminators. |
| GeminiService.CleanBase64KeepsUnmatched | services/geminiService.ts:4-10 | A string the pattern does not match is returned unchanged. |
| GeminiService.CleanBase64 | services/geminiService.ts:4-10 | The result is either the input or the payload of a match of the pattern. |
| GeminiService.ParseMimePrefixComplete | services/geminiService.ts:14 | The `getMimeType` pattern matches in at most one way, and the parser finds every match. |
| GeminiService.GetMimeTypeReadsPrefix | services/geminiService.ts:13-19 | A prefix `data:` + type + `/` + subtype + `;base64,` yields `type/subtype`. The type must be alphanumeric and the subtype over alphanumerics, `-`, `.`, `+`; anything may follow. |
| GeminiService.GetMimeTypeFallback | services/geminiService.ts:13-19 | Without a matching prefix the result is `image/jpeg`. |
| GeminiService.GetMimeType | services/geminiService.ts:13-19 | The result is either `image/jpeg` or the `type/subtype` of a matching prefix. |
| GeminiService.MimeOutsideCleanClassIsNotCleaned | services/geminiService.ts:5-14 | The two character sets differ. A MIME type that `getMimeType` reads but that has a digit or a dot (`image/vnd.x`) makes `cleanBase64` return the whole data URL, so the URL itself is sent as image data. |
| GeminiService.SlashlessMediaTypeFallsBack | services/geminiService.ts:5-18 | Conversely, a media type of letters with no slash is cleaned, but its MIME type falls back to `image/jpeg`. |
| GeminiService.KeyRejected | services/geminiService.ts:29 | A key is rejected exactly when it is missing, empty, or has `undefined` at some position. |
| GeminiService.PlaceholderKeysRejected | services/geminiService.ts:28-31 | A missing key, an empty key and any key containing `undefined` are rejected. |
| GeminiService.Prompt | services/geminiService.ts:45-67 | Each of the four fields follows its label verbatim, in the order application type, description, base MIME type, logo MIME type. The text is exactly as long as the labels, the fields and the closing prose together. |
| GeminiService.PromptEmbedsFields | services/geminiService.ts:45-67 | The instruction text contains the application type, the description and both MIME types verbatim. |
| GeminiService.BuildRequest | services/geminiService.ts:36-87 | The request goes to `gemini-2.5-flash-image` and has exactly three parts in order: the instruction, the base image, the logo. Each image part carries its `getMimeType` and its `cleanBase64` of the input. The instruction embeds the description, the application type and both MIME types. |
| GeminiService.ThreeArgumentCallSaysUndefined | App.tsx:51-55 | The three-argument call from App puts the text `undefined` in the instruction as the application type. |
| GeminiService.FirstImage | services/geminiService.ts:98-102 | Finds the first part whose inline data is non-empty, or reports that no part has image data. |
| GeminiService.Extraction | services/geminiService.ts:90-111 | A success is the PNG data-URL prefix followed by non-empty data. A failure carries no status, and its message is the no-response message, the safety message, or starts with the text-reply prefix. |
| GeminiService.ExtractImage | services/geminiService.ts:90-111 | The loop with early return computes exactly `Extraction`. |
| GeminiService.OnlyFirstCandidateCounts | services/geminiService.ts:91-93 | Candidates after the first never affect the outcome. |
| GeminiService.SafetyStopWinsOverImages | services/geminiService.ts:93-96 | A `SAFETY` finish reason gives the safety error even when image parts exist. |
| GeminiService.ExtractionReturnsFirstImage | services/geminiService.ts:98-102 | With no safety stop, the result is `data:image/png;base64,` plus the data of the first part with image data. The prefix is always `png`, whatever MIME type the part declared. |
| GeminiService.ExtractionSucceedsOnlyWithImage | services/geminiService.ts:90-111 | Extraction succeeds if and only if there is a candidate, it was not stopped for safety, and some part carries image data. |
| GeminiService.TextReplyIsQuoted | services/geminiService.ts:105-108 | With no image and a text first part, the error has no status and its message is exactly the fixed prefix, then the first 100 characters of the text, then `...`. |
| GeminiService.EmptyAnswerIsGeneric | services/geminiService.ts:91-111 | No candidate, or a candidate with neither an image part nor a text first part, gives the generic no-response error. |
| GeminiService.ResultUrlRoundTrip | services/geminiService.ts:4-19 | The PNG data URL the client returns is read back by its own helpers: MIME type `image/png`, payload the original data. |
| GeminiService.RewriteMessage | services/geminiService.ts:116-123 | Statuses 400, 403, 429 and 500/503 each map to their fixed message. Any other status, or no status, keeps the original message. |
| GeminiService.ClientErrorsKeepTheirMessage | services/geminiService.ts:93-123 | The safety, text-reply and no-response errors carry no status, so the caller receives their own message. |
| GeminiService.SdkErrorsAreClassified | services/geminiService.ts:113-123 | A rate-limited SDK error reaches the caller as the 429 message. An SDK error with an unknown status keeps its own message. |
| GeminiService.Settle | services/geminiService.ts:69-124 | A success comes from an answer whose extraction gave that image. An extraction failure reaches the caller with its own message, because the client's own errors carry no status. |
| GeminiService.Generation | services/geminiService.ts:28-124 | A rejected key gives the configuration error, which is not rewritten. A success had an accepted key and an answer from the model, and is a PNG data URL. |
| GeminiService.GenerateMockup | services/geminiService.ts:21-125 | A request is sent exactly when the key is accepted, and it is the three-part request. A rejected key gives the configuration error, which is not rewritten. Otherwise the outcome is the extraction of the answer, with errors rewritten by status. |
| StepIndicator.StepsTable | components/StepIndicator.tsx:9-14 | Exactly four markers in increasing step order. None is for the generating step. |
| StepIndicator.CompletedAndActiveExclusive | components/StepIndicator.tsx:22-23 | A marker is never completed and active at once. |
| StepIndicator.CircleClass | components/StepIndicator.tsx:26-28 | The circle is completed exactly when the marker's step is before the current one. It is highlighted exactly when the marker is the current step, or the result marker while generating. |
| StepIndicator.View | components/StepIndicator.tsx:21-38 | A marker shows a check exactly when its step is before the current one, and its position plus one otherwise. Its caption is bright exactly when its step is not after the current one, and is the table's caption. |
| StepIndicator.Render | components/StepIndicator.tsx:21-38 | One view per table entry, in table order. |
| StepIndicator.CompletedOverrides | components/StepIndicator.tsx:26-28 | The completed style wins over the active and generating styles. |
| StepIndicator.GeneratingView | components/StepIndicator.tsx:24-28 | While generating, the first three markers are completed. The result marker is highlighted and shows its number. |
| StepIndicator.HighlightedIndex | components/StepIndicator.tsx:22-28 | For every step there is one highlighted marker, and no other marker is highlighted. |
| StepIndicator.ExactlyOneHighlighted | components/StepIndicator.tsx:22-28 | In the rendered row, the set of highlighted markers has exactly one element. |
| StepIndicator.BadgeShowsProgress | components/StepIndicator.tsx:33-38 | A marker shows a check exactly when it is completed, and otherwise its position plus one. |

## Left out

- Rendering: JSX, Tailwind class strings, SVG icons, header and footer. The circle styles are modelled as three named styles, not as class strings.
- `components/Button.tsx` and `components/ImageUploader.tsx` are not part of this model. They hold class concatenation, `FileReader`, DOM refs and drag handling, so the images reach the session as strings.
- The `GoogleGenAI` construction and the `generateContent` network call. The model's answer or the SDK's error is the `reply` parameter.
- Reading `process.env.API_KEY`: the key is a parameter. All `console` logging is left out.
- Asynchrony and React state batching: the awaited call is modelled as a method that runs between `BeginGenerate` and `CompleteGenerate`. The stale closure over `state` in `handleGenerate` is not modelled. The request uses the state as it was when the handler ran, as in the code.
- `CompleteGenerate` and `RedoPrompt` require the step on which they can run: generating for the completion, result for the button that is rendered only there. The other handlers have no precondition beyond the invariant.
- `ExtractImage`: a candidate without `content` or `parts` would throw a `TypeError` in the code, which the `catch` block would then rewrite. The model assumes every candidate carries its parts.
- `JsStrings.Prefix`: `substring` counts UTF-16 code units, while the model counts characters.
- `GeminiService.Prompt`: the fixed Portuguese prose of the instruction is reduced to the labels around the four interpolated fields. The error messages are kept verbatim.
- `Types.MockupState` has no `mockupType` field, because App never sets one and has no control for it. In services/geminiService.ts:25 `mockupType` is a required `string` parameter, but App's call (App.tsx:51-55) leaves it out, so at run time it is `undefined`. The model types the parameter as `Option<string>`, with `None` standing for the missing argument, and `GeminiService.Interpolate` renders `None` as the text `undefined`.
- `App.Session.CompleteGenerate`: the message of the client's error is discarded and the fixed message shown instead, as in the code. The scenario `RateLimitedPass` shows the rate-limit message being lost.
- `App.Consistent` does not say that a generated image exists only on the result step. The code keeps the image when "Refazer Prompt" returns to the description step and after a later failure (scenario `RedoKeepsStaleImage`), so the model keeps it too.
- The handler's guard does not trim the description; only the button does (`App.ButtonStricterThanHandler`).
