# AI fitness coach: a Dafny model of its request logic

The application is a web page and a small Node server in front of four
external services: a generative text model, an image model, a
text-to-speech service and an HTML-to-PDF engine. This project models the
logic the application itself owns and proves properties about it.

Server side (`backend/server.cjs`):
- the plan prompt (`createPlanPrompt`);
- how the model's reply is normalised before `JSON.parse`;
- how failures become status-500 replies;
- the image prompt and its empty-output check;
- the speech endpoint's input guard and default voice;
- the PDF endpoint's precondition;
- the structure of the plan document (`generatePlanHTML`).

Client side (`frontend/src/App.jsx`, `frontend/src/api/api.js`):
- the form update;
- plan generation, as a small state machine with its error messages;
- the image-modal guard;
- the narration text;
- the download file name taken from `Content-Disposition`;
- the default argument of `generateImage`.

Modules:
- `JsText`: the JavaScript string and array built-ins the code relies on. These are `trim`, `startsWith`, `includes`, `indexOf`, `lastIndexOf`, `substring`, `map` and `join`, each stated over `seq<char>`. `substring` clamps and swaps its bounds.
- `JsValues`: untyped values, truthiness, template-literal text, `x || y`, and the outcome of an awaited foreign call.
- `PlanData`: the plan the model returns.
- `PromptBuilder`, `FenceParser` and `PlanService`: the `/api/generate-plan` endpoint.
- `Enrichment`: the `/api/generate-image`, `/api/read-plan` and `/api/export-pdf` endpoints.
- `ApiClient`: the client's request bodies and the file-name choice.
- `AppState`: the `App` component as a class with the component's state as fields. Each handler is a method that updates those fields.

Each external service and `JSON.parse` is a function parameter. The model
therefore covers every reply a service can give.

## Model

| member | source | states |
|---|---|---|
| JsText.Trim | backend/server.cjs:125 | trimming never lengthens the text and leaves no white space at either end |
| JsText.TrimKeepsSlice | backend/server.cjs:125 | what `trim` keeps is one contiguous slice of the input, and everything it removes is white space |
| JsText.LastIndexOf | backend/server.cjs:127 | the result is -1 or a position where the fence occurs, and the fence occurs at no later position |
| JsText.Substring | backend/server.cjs:127 | the result is the slice between the bounds, with the bounds swapped when start is after end and a negative end clamped to 0 |
| JsText.JoinIsAccumulation | frontend/src/App.jsx:120-126 | the recursive join equals the left-to-right accumulation of `Array.prototype.join` |
| JsText.JoinIncludesEach | frontend/src/App.jsx:120-126 | every joined part occurs in the joined text |
| JsText.IndexOf | frontend/src/api/api.js:52 | the result is -1 or the position of an occurrence, and nothing occurs before it (the first occurrence) |
| JsText.IncludesIffOccurs | backend/server.cjs:149-151 | `includes` holds exactly when the text occurs at some position |
| JsText.StartsWithIffOccursAtZero | backend/server.cjs:126-128 | `startsWith` holds exactly when the text occurs at position 0 |
| JsValues.Or | backend/server.cjs:96 | JavaScript's logical or of x and y is truthy exactly when either operand is; it is x when x is truthy and y otherwise |
| JsValues.ShowOr | backend/server.cjs:96 | interpolating x or-ed with a string fallback, computed through `Or`, gives x's text when x is truthy and the fallback otherwise |
| PromptBuilder.PlanPrompt | backend/server.cjs:94-99 | the prompt opens with the coaching instruction and ends with the JSON constraint |
| PromptBuilder.PromptStatesDetail | backend/server.cjs:94-99 | every "User Details" entry occurs in the prompt |
| PromptBuilder.PromptEmbedsProfile | backend/server.cjs:96 | the prompt contains "Goal: ", "Level: ", "Location: ", "Diet: " and "Age: ", each followed by the body's value verbatim |
| PromptBuilder.PromptPlaceholders | backend/server.cjs:96 | gender, height (before "cm"), weight (before "kg") and stress level appear as given when truthy and as "N/A" when falsy; medical history falls back to "None" |
| FenceParser.Normalise | backend/server.cjs:125-130 | the decoder's input is never longer than the model's text, and a trimmed text that does not begin with a fence is passed on trimmed and otherwise unchanged |
| FenceParser.JsonFenceRoundTrip | backend/server.cjs:126-127 | any text wrapped in "```json" … "```" normalises to the trimmed text |
| FenceParser.BareFenceRoundTrip | backend/server.cjs:128-129 | any text not beginning with "json" wrapped in "```" … "```" normalises to the trimmed text |
| FenceParser.JsonTagTakesPrecedence | backend/server.cjs:126-129 | the "```json" test runs first: a bare fence around text beginning with "json" loses seven characters, not three |
| FenceParser.FenceTransparent | backend/server.cjs:125-132 | a fenced reply whose content does not start with a fence reaches the decoder exactly as the unfenced reply would |
| FenceParser.JsonFenceCutsSeven | backend/server.cjs:126-127 | with "```json" first and a later closing fence, the decoder gets the trimmed text between marker and last fence |
| FenceParser.UnclosedFence | backend/server.cjs:126-129 | with no closing fence, `substring` swaps its bounds and the decoder receives the opening marker itself |
| PlanService.FailureMessage | backend/server.cjs:148-153 | the authentication message if and only if the failure's message contains "API key"; the schema message if and only if it contains "INVALID_ARGUMENT" and not "API key"; the generic message otherwise, including when there is no message |
| PlanService.PlanRequest | backend/server.cjs:110-118 | the model call always uses gemini-2.5-flash, a JSON reply and temperature 0.7, and its contents open with the coaching preamble and contain "Goal: " followed by the body's goal |
| PlanService.GeneratePlan | backend/server.cjs:105-159 | every failure is status 500. A thrown model call gives the classified message with the original message as details. A reply whose text is absent or does not decode gives the fixed not-parsable body, which never contains the raw text. Otherwise the reply is the decoded normalised text. |
| Enrichment.ImagePrompt | backend/server.cjs:171-173 | the gym opening for a truthy `is_exercise`, the food opening otherwise, and the item name in double quotes either way |
| Enrichment.ImagePromptDetermined | backend/server.cjs:171-173 | the prompt starts with the gym template if and only if `is_exercise` is truthy (otherwise the food template), and the text between the template's quotes is the item name |
| Enrichment.ImageJobFor | backend/server.cjs:175-178 | one square image from flux-schnell, for a prompt that opens with the gym template exactly when `is_exercise` is truthy and quotes the item name |
| Enrichment.GenerateImage | backend/server.cjs:167-189 | the reply carries the first output if and only if the call returned a non-empty list whose first entry is truthy; every other case is the fixed 500 error |
| Enrichment.ReadPlan | backend/server.cjs:196-219 | 400 with no header set if and only if `text_to_speak` is falsy. Otherwise the audio headers are set and the speech job uses the text, the given voice (the default voice only when `voice_id` is undefined) and the turbo model. The reply is then the stream, or the fixed 500 error when the call throws. |
| Enrichment.PlanHtml | backend/server.cjs:226-287 | a document exists if and only if the workout, diet and tips lists are all present. It has one day block per workout and diet day, with the day as heading, and one item per exercise, meal and tip, all in input order. |
| Enrichment.ExportPdf | backend/server.cjs:289-316 | 400 if and only if the body or its workout list is missing, and then nothing is rendered. The engine receives the plan's document as A4 with backgrounds if and only if the document exists. A success carries the engine's bytes, the PDF content type, their length and the attachment disposition. Every other failure, including a document that cannot be built and an engine that throws, is the fixed 500 error. |
| ApiClient.OmittedFlagSameAsTrue | frontend/src/api/api.js:13-17 | leaving out the second argument posts exactly the body (and makes exactly the image job) that passing `true` does; any other flag reaches the server with its truthiness unchanged |
| ApiClient.DefaultRequestPicksGym | frontend/src/api/api.js:13-17 | an item requested without the second argument gets the gym prompt |
| ApiClient.LeadingNonQuote | frontend/src/api/api.js:53 | `[^"]*` takes the longest quote-free prefix: it is a prefix, holds no quote, and stops only at a quote or the end |
| ApiClient.FilenameCapture | frontend/src/api/api.js:53 | the regular expression matches if and only if the header contains `filename=`. The capture is the maximal quote-free run after the first `filename=` and one optional quote. |
| ApiClient.SuggestedFilename | frontend/src/api/api.js:50-55 | the default name when the header is absent or lacks "attachment"; a name other than the default only from a non-empty capture; the name never contains a double quote |
| ApiClient.QuotedDispositionRoundTrip | frontend/src/api/api.js:53-54 | a quote-free name written as `attachment; filename="name"` is read back unchanged |
| ApiClient.ServerHeaderFilename | backend/server.cjs:307 | the PDF endpoint's own header mentions "attachment" and yields "AI_Fitness_Plan.pdf" |
| AppState.WithInput | frontend/src/App.jsx:37-43 | the event's field becomes `checked` for a checkbox and `value` otherwise, and every other field keeps its value |
| AppState.Filled | frontend/src/App.jsx:49 | a form that passes validation has name, age and weight fields |
| AppState.FormNeedsName | frontend/src/App.jsx:18-52 | the form as first shown fails validation, and typing a non-empty name is enough to pass it |
| AppState.DataToSend | frontend/src/App.jsx:59-64 | each of the ten posted profile fields is the form field of the same name |
| AppState.NameNotSent | frontend/src/App.jsx:59-64 | the name typed into the form does not change what is posted |
| AppState.FormReachesPromptVerbatim | frontend/src/App.jsx:59-64 | the form's goal, level, location, diet and age appear verbatim after their labels in the prompt the server builds from the posted body |
| AppState.FormReachesPromptFallbacks | frontend/src/App.jsx:59-64 | the form's gender, height, weight, medical history and stress level reach that prompt, with "N/A" (or "None") in place of an empty field |
| AppState.Accepted | frontend/src/App.jsx:69 | an accepted reply is a resolved, present plan with a workout list, so its workout section always has a narration |
| AppState.ClientErrorMessage | frontend/src/App.jsx:76-87 | a server reply's status code follows the message's prefix, and a reply's error text ends the message |
| AppState.ErrorMessageNamesCase | frontend/src/App.jsx:76-87 | the message identifies its case in precedence order: a server reply with an error text, a server reply without one, no reply, anything else |
| AppState.ServerFailureShown | frontend/src/App.jsx:80-81 | a failed plan request is shown as "Server Error (500): " followed by the server's classified message |
| AppState.SectionNarration | frontend/src/App.jsx:117-127 | only a known section whose list is present gives non-empty text |
| AppState.TipSuffix | frontend/src/App.jsx:129-131 | the suffix is empty exactly when there are no tips, and otherwise ends with the first tip |
| AppState.Narration | frontend/src/App.jsx:117-131 | the spoken text starts with the section's narration and ends with the tip suffix |
| AppState.UnknownSectionNarration | frontend/src/App.jsx:117-131 | an unknown section speaks only the coach's-tip suffix (first tip only), or nothing when there are no tips |
| AppState.NarrationMentionsExercise | frontend/src/App.jsx:119-122 | the workout narration contains "name for sets sets of reps" for every exercise of every day |
| AppState.NarrationMentionsMeal | frontend/src/App.jsx:123-126 | the diet narration contains "type, which is item" for every meal of every day |
| AppState.App.constructor | frontend/src/App.jsx:12-35 | no plan, not loading, no error, a closed modal and the initial form |
| AppState.App.HandleInputChange | frontend/src/App.jsx:37-43 | the form becomes `WithInput` of the event and nothing else changes |
| AppState.App.HandleGenerate | frontend/src/App.jsx:48-93 | An incomplete form sets the validation message, sends nothing, and leaves loading and the plan as they were. Otherwise the profile is sent and loading ends false. A truthy reply with a workout list becomes the plan with no error. Any other outcome clears the plan and shows the message for what was caught. The form and modal are unchanged. |
| AppState.App.HandleItemClick | frontend/src/App.jsx:98-109 | while loading or with a modal title set, nothing is requested and nothing changes. Otherwise the image is requested with the item's body, and the modal shows the URL under the item's name, or the error title when the call fails. |
| AppState.App.CloseImageModal | frontend/src/App.jsx:325 | the modal is closed and nothing else changes |
| AppState.App.HandleReadPlan | frontend/src/App.jsx:114-139 | nothing is spoken without a plan; otherwise the section's narration followed by the tip suffix |

The round trip for a bare fence needs the wrapped text not to begin with
"json". Without that condition the "```json" test matches first and four
more characters are cut (`JsonTagTakesPrecedence`). The round trip for a
"```json" fence holds for every text, including one that contains fences
itself.

## Left out

- The generative model, image model, speech service and PDF engine: each is a function parameter. Their internals, the schema the model is given (`planSchema`), API keys and the start-up exit on a missing key are not part of this model.
- JSON.parse is the parameter `decode`. JSON grammar and the plan's validation against the schema are not modelled. A decoded plan carries its three lists as present or absent. Inner fields are strings, and an absent exercise or meal list inside a day is not represented.
- Express routing, CORS, middleware, the listening port and the HTTP transport on the client (axios, fetch, blobs, the download anchor, audio playback) are left out.
- Enrichment.ReadPlan: the audio stream's bytes and a failure after piping has begun (when the headers are already sent) are not modelled.
- Enrichment.PlanHtml: the document is modelled as its list structure and item texts. The date line, the CSS and the exact markup whitespace are not modelled.
- Strings are sequences of Unicode scalar values. JavaScript indexes UTF-16 code units, so positions differ for characters outside the Basic Multilingual Plane.
- Numbers are integers only. Fractional numbers, NaN and their text forms are not modelled, and integers are printed as plain digits, whereas JavaScript uses exponent form from 1e21 up.
- Objects and arrays are not values of the model. An object or array in a request field (truthy in JavaScript, and printed as "[object Object]" or comma-joined) is not represented.
- Async interleavings: each handler is one step. The intermediate modal title "Generating visual for …" and the loading flag while a request is in flight are set and then overwritten in the same step, so a second click during a request is not modelled.
- Console logging: every `console.error` call is left out, including the logging of the parse error and the model's raw text when decoding fails (that text is logged, never sent). Only the replies are modelled.
- React rendering, except the modal's click-to-close handler.
- handleExportPdf (the loading flag around the download) and the transport parts of readPlanSection and exportPlanAsPdf are left out. Only the file-name choice of exportPlanAsPdf is modelled.
- AppState.App.HandleReadPlan: readPlanSection is not awaited, so its catch block and alert never run, and they are not modelled.
