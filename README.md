# Affiliate shorts generator: prompt composition, fan-out and the generate button

The application takes a picture of a person and a picture of a product, plus a
few choices (aspect ratio, voice, accent, number of results, optional outfit,
background and product hints). For each result it asks an image model for a
promotional picture and then a text model for a Vietnamese voiceover
description and a structured video prompt. This project models the core of
that in Dafny:

- `Types` (types.dfy): the records of `types.ts` and the closed option sets
  of the form.
- `Strings` (strings.dfy): how a template literal prints a number, with the
  parser that reads it back, containment of one text in another, and the
  joining of a template literal's pieces.
- `Prompts` (prompts.dfy): the pure prompt builders of
  `services/geminiService.ts`:
  - the pixel dimensions;
  - the outfit and background clauses;
  - the image prompt;
  - the voice and region wording;
  - the product-information context;
  - the text-and-metadata prompt;
  - the response schema.

  The fixed wording is the source's, word for word. Every property is proved
  for an arbitrary wording record and then stated for the source's.
- `Generation` (generation.dfy): the SDK as an oracle, the requests each
  unit sends, the extraction of the generated picture and its data URI.
  `generateTextAndPromptSet` is a method that makes one text request and
  returns the oracle's answer to it; `generateSingleResult` is a method
  proved against the specification function `SingleResultRun`. The fan-out
  `generateAllContent` is a loop over the seeds, settled like `Promise.all`.
- `AppState` (app.dfy): the page of `App.tsx` as a class whose fields are
  the React state. `handleGenerateContent` makes its setter calls as field
  assignments, in the source's order. Result ids are `result-<i>-<now>`.
  Error messages are modelled exactly.

The Variation line of the image prompt names the seed as "seed value N"
(services/geminiService.ts:119); `ImagePromptNamesSeed` states that text.

## Model

| member | source | states |
|---|---|---|
| Strings.ParseDecimalOfDecimal | services/geminiService.ts:102 | the decimal text that `${seed}` prints reads back as the same number |
| Strings.DecimalInjective | services/geminiService.ts:102 | different seeds print as different texts |
| Strings.SameLeadSameNumber | services/geminiService.ts:102 | a number printed after a common lead and before a non-digit is recovered from the text |
| Prompts.Dimensions | services/geminiService.ts:98 | computes the dimensions text, "1080x1920 pixels" for 9:16 and "1920x1080 pixels" otherwise; its properties are in `DimensionsFitAspectRatio` |
| Prompts.DimensionsFitAspectRatio | services/geminiService.ts:98 | the dimensions are "1080x1920 pixels" for 9:16 and "1920x1080 pixels" for 16:9; they spell out a pixel size with the proportions of the aspect ratio, and portrait is the tall one |
| Prompts.Clause | services/geminiService.ts:100-106 | computes a clause from its wording, the hint and the seed: the quoted hint when there is one, the seed's unique-invention text otherwise; its properties are in `ClausePolicy` |
| Prompts.ClausePolicy | services/geminiService.ts:100-106 | the clause policy: with a hint, the hint is quoted at a fixed place and the clause does not depend on the seed; without one, the seed's tag is at a fixed place and different seeds give different clauses |
| Prompts.OutfitClause | services/geminiService.ts:100-102 | computes `outfitPrompt` as `Clause` with the outfit wording; its properties are in `OutfitClausePolicy` |
| Prompts.BackgroundClause | services/geminiService.ts:104-106 | computes `backgroundPrompt` as `Clause` with the background wording; its properties are in `BackgroundClausePolicy` |
| Prompts.OutfitClausePolicy | services/geminiService.ts:100-102 | a non-empty outfit hint is quoted verbatim and the clause is the same for every seed; an empty hint gives the unique-outfit text, whose opening sentence part is followed by "(seed N)", different for each seed |
| Prompts.BackgroundClausePolicy | services/geminiService.ts:104-106 | the same policy for the background clause, with the unique-setting text |
| Prompts.VariationPhraseNamesSeed | services/geminiService.ts:119 | helper for `ImagePromptInjectiveIn`: the Variation sentence holds "seed value N is provided"; `ImagePromptNamesSeed` carries the prompt-level promise |
| Prompts.ImagePrompt | services/geminiService.ts:108-120 | computes `imagePrompt` as the source's wording and the interpolated values joined in template order; its properties are in `ImagePromptStatesDimensions`, `ImagePromptNamesSeed`, `ImagePromptClauseOrder`, `ImagePromptQuotesHints` and `ImagePromptInjective` |
| Prompts.ImagePromptDimensionsIn | services/geminiService.ts:108-120 | for any wording, the image prompt opens with the dimension rule and the dimensions, contains the aspect-ratio text, and ends with "EXACTLY <dimensions>. No exceptions." |
| Prompts.ImagePromptStatesDimensions | services/geminiService.ts:108-120 | the same three facts for the source's wording |
| Prompts.ImagePromptNamesSeedIn | services/geminiService.ts:119 | for any wording and any hints, the image prompt contains "seed value N" |
| Prompts.ImagePromptNamesSeed | services/geminiService.ts:119 | the same for the source's wording |
| Prompts.ImagePromptClauseOrderIn | services/geminiService.ts:115-116 | both clauses occur in the image prompt, the outfit clause wholly before the background clause |
| Prompts.ImagePromptClauseOrder | services/geminiService.ts:115-116 | the same for the source's wording |
| Prompts.ImagePromptQuotesHintsIn | services/geminiService.ts:100-116 | a non-empty outfit or background hint appears verbatim, in quotes, in the image prompt |
| Prompts.ImagePromptQuotesHints | services/geminiService.ts:100-116 | the same for the source's wording |
| Prompts.UniqueClauseSeed | services/geminiService.ts:100-106 | a hintless clause at the same place of two equal prompts names the same seed |
| Prompts.ImagePromptInjectiveIn | services/geminiService.ts:100-120 | for any wording and any hints, two seeds that give the same image prompt are equal |
| Prompts.ImagePromptInjective | services/geminiService.ts:100-120 | the same for the source's wording: each unit of a batch sends a different image prompt |
| Prompts.VoiceDescription | services/geminiService.ts:25 | computes "a male" or "a female"; `TextPromptContents` and `TextPromptReflectsVoiceAndRegion` state how it appears |
| Prompts.RegionDescription | services/geminiService.ts:26 | computes "Southern Vietnamese" or "Northern Vietnamese"; `TextPromptContents` and `TextPromptReflectsVoiceAndRegion` state how it appears |
| Prompts.ProductInfoContext | services/geminiService.ts:27-29 | computes `productInfoContext`: the quoted product information with the seed's tag, or the fixed sentence; its properties are in `ProductInfoContextPolicy` |
| Prompts.ProductInfoContextIn | services/geminiService.ts:27-29 | non-empty product information is quoted at a fixed place, followed by the seed's tag |
| Prompts.ProductInfoContextPolicy | services/geminiService.ts:27-29 | non-empty product information is quoted verbatim, with "(seed N)" after it; empty product information gives the fixed "Analyze the product image…" sentence, the same for every seed |
| Prompts.TextPrompt | services/geminiService.ts:35-46 | computes the text-and-metadata prompt from the source's wording, the seed, the product context and the voice and accent; its properties are in `TextPromptContents`, `TextPromptReflectsVoiceAndRegion` and `TextPromptInjective` |
| Prompts.TextPromptContentsIn | services/geminiService.ts:35-46 | for any wording, the text prompt contains "IMPORTANT for seed N:" and the product context; the fixed "8 seconds" duration rule comes right before the audio rule, which names the voice and the accent |
| Prompts.TextPromptContents | services/geminiService.ts:35-46 | the same for the source's wording, where the voice is "a male"/"a female" and the accent "Southern"/"Northern Vietnamese" |
| Prompts.TextPromptReflectsVoiceAndRegionIn | services/geminiService.ts:25-45 | the text prompt determines the voice and the region it was built for |
| Prompts.TextPromptReflectsVoiceAndRegion | services/geminiService.ts:25-45 | the same for the source's wording |
| Prompts.TextPromptInjectiveIn | services/geminiService.ts:35-37 | two seeds that give the same text prompt are equal |
| Prompts.TextPromptInjective | services/geminiService.ts:35-37 | the same for the source's wording |
| Prompts.PropertyNames | services/geminiService.ts:57-75 | the names of a schema's properties, one per property and in order |
| Prompts.ResponseSchema | services/geminiService.ts:55-78 | computes the response schema's types, properties and required keys; its properties are in `ResponseSchemaKeys` |
| Prompts.ResponseSchemaKeys | services/geminiService.ts:55-78 | the schema requires exactly "description" and "animationPrompt" at top level and exactly the seven AnimationPrompt keys below; every required key is declared and every declared key is required; every leaf is a string |
| Generation.ImageCall | services/geminiService.ts:122-134 | computes what an image request sends: the image prompt, the person's and the product's pictures as JPEG, asking for an image; its property is in `ImageCallIdentifiesSeed` |
| Generation.ImageCallIdentifiesSeed | services/geminiService.ts:122-134 | within a batch, different seeds send different image requests |
| Generation.TextCall | services/geminiService.ts:31-52 | computes what a text request sends: the text prompt, the labelled product and generated pictures, and the JSON schema; its property is in `TextCallIdentifiesSeedAndPicture` |
| Generation.TextCallIdentifiesSeedAndPicture | services/geminiService.ts:31-52 | a text request determines its seed and the generated picture it carries |
| Generation.ResponseParts | services/geminiService.ts:136 | computes `candidates?.[0]?.content?.parts`, with no parts when any step is missing; `SingleResultUsesFirstImage` states how it is used |
| Generation.ImageOf | services/geminiService.ts:136-139 | computes the inline data of the first part that has some, or none; `FindInline` and `SingleResultUsesFirstImage` carry its properties |
| Generation.FindInline | services/geminiService.ts:136 | `find(p => p.inlineData)`: the index found holds the first part with inline data; none is found exactly when no part has any |
| Generation.DataUri | services/geminiService.ts:141 | computes `data:${mimeType};base64,${data}`; its properties are in `DataUriRoundTrip` |
| Generation.DataUriRoundTrip | services/geminiService.ts:141 | the data URI starts with "data:<mimeType>;base64," and ends with the payload; when the MIME type has no comma, the text after the first comma is exactly the payload |
| Generation.GenerateTextAndPromptSet | services/geminiService.ts:16-83 | one text request for this seed and picture, settled as the oracle says |
| Generation.SingleResultRun | services/geminiService.ts:85-157 | computes how one unit settles and the requests it makes, in order; its properties are in `SingleResultUsesFirstImage`, and `GenerateSingleResult` is proved equal to it |
| Generation.GenerateSingleResult | services/geminiService.ts:85-157 | the outcome and the request list are those of the specification `SingleResultRun` |
| Generation.SingleResultUsesFirstImage | services/geminiService.ts:136-156 | a unit starts with its image request. A rejection is passed on, and an answer with no inline part fails with "Không thể tạo ảnh từ AI."; neither makes a text request. Otherwise the first inline part's data is sent with the text request, and a success holds that part's data URI and exactly one prompt set |
| Generation.PromiseAll | services/geminiService.ts:184 | resolves exactly when every outcome does, with every value in order; otherwise rejects with one of the rejections |
| Generation.UnitOutcomes | services/geminiService.ts:170-182 | one outcome per seed 0..N-1, entry i being the unit run with seed i |
| Generation.GenerateAllContent | services/geminiService.ts:159-185 | runs N units, unit i with seed i, recording each unit's requests, and settles as `Promise.all` over the units in seed order |
| Generation.AllContentIsOrderedAndAllOrNothing | services/geminiService.ts:170-184 | a successful batch has exactly N results, result i being unit i's, each with one prompt set; the batch fails exactly when some unit fails, and then with that unit's error |
| Generation.BatchImageRequestsNameSeeds | services/geminiService.ts:170-182 | a batch of n units sends n image requests, unit i's first; the prompt of request i names "seed value i", and no two requests send the same payload |
| AppState.ResultId | App.tsx:68 | computes `result-${index}-${now}`; its properties are in `ResultIdsDistinct` and `TaggedIdsDistinct` |
| AppState.ResultIdsDistinct | App.tsx:68 | an id `result-<i>-<now>` determines both the index and the clock reading |
| AppState.TagResults | App.tsx:68 | tagging keeps the length, and each entry's imageUrl and promptSets; entry i gets the id `result-<i>-<now>` |
| AppState.TaggedIdsDistinct | App.tsx:68 | whatever the clock reads, the ids of one batch are pairwise distinct |
| AppState.ErrorMessage | App.tsx:70 | computes the message the catch block shows: the prefix and an Error's message, or the generic message; its properties are in `ErrorMessageKeepsCause` |
| AppState.ErrorMessageKeepsCause | App.tsx:69-70 | an Error's message appears whole after "Đã xảy ra lỗi: "; different thrown values give different messages; no failure message equals the missing-picture message |
| AppState.Settled | App.tsx:56-74 | after a batch: on success the tagged results with distinct ids and no error; on failure no results and the error message; loading is off either way |
| AppState.OptionsOf | App.tsx:57-67 | the generator gets the two pictures' base64 payloads and the form's choices unchanged |
| AppState.App.Valid | App.tsx:33-54 | the invariant every page method keeps: the result count is one of 1 to 4, result ids are distinct, and while loading there are no results and no error |
| AppState.App.CanGenerate | App.tsx:164 | whether the button is enabled: both pictures uploaded and no batch running; the constructor and `StartGeneration` state when it is off |
| AppState.App.constructor | App.tsx:31-43 | the initial state: no pictures, no results, not loading, no error, 9:16, female, south, one result, empty hints; the button is disabled |
| AppState.App.SetModelImage | App.tsx:156 | only the person's picture changes |
| AppState.App.SetProductImage | App.tsx:157 | only the product's picture changes |
| AppState.App.SetAspectRatio | App.tsx:94-95 | only the aspect ratio changes |
| AppState.App.SetVoice | App.tsx:98-99 | only the voice changes |
| AppState.App.SetRegion | App.tsx:102-103 | only the region changes |
| AppState.App.SelectResultCount | App.tsx:106-107 | the count becomes one of 1, 2, 3, 4 and nothing else changes |
| AppState.App.SetOutfitSuggestion | App.tsx:121 | only the outfit hint changes |
| AppState.App.SetBackgroundSuggestion | App.tsx:132 | only the background hint changes |
| AppState.App.SetProductInfo | App.tsx:145 | only the product information changes |
| AppState.App.StartGeneration | App.tsx:52-54 | the reset before a batch: loading, no error, no results; the button is disabled |
| AppState.App.FinishGeneration | App.tsx:68-74 | from the loading status, the status becomes `Settled` of the batch outcome: tagged results on success, the error message on failure, loading off; the inputs do not change |
| AppState.App.HandleGenerateContent | App.tsx:46-75 | with a picture missing: only the error changes, to the missing-picture message, and no request is made. Otherwise exactly `numberOfResults` units run with the form's choices, and the status becomes `Settled` of the batch. The inputs never change and loading ends off |
| AppState.HandlerOutcome | App.tsx:56-74 | a handled batch shows exactly `numberOfResults` results in seed order under distinct ids when every unit succeeds; it shows an error, and then no results, exactly when some unit failed, with that unit's message |

## Left out

- The Gemini SDK (`getAiClient`, `ai.models.generateContent`, the API key, the model names) is an oracle. The oracle is a pair of total functions from a named request to a settled outcome. A request is named by its options, seed and generated picture. `ImageCall` and `TextCall` give what each request sends, and `ImageCallIdentifiesSeed` / `TextCallIdentifiesSeedAndPicture` show that the name and the payload determine each other within a batch.
- `JSON.parse` of the text answer is folded into the oracle, which answers with a `PromptSet`. The code validates nothing, so nothing is claimed about missing fields.
- The per-field descriptions in the response schema are not modelled. They are instructions to the model; only the types, property names and required keys are.
- The prompts' instructions to the model (15–25 words, no punctuation, dynamic camera, 8-second length) are never checked by the code. They appear only as fixed wording, never as properties of outputs.
- `Promise.all` concurrency is not modelled: the units run one after another in seed order. When several units fail, the model rejects with the lowest seed's error, while the source rejects with the first to fail in time. `Generation.AllContentIsOrderedAndAllOrNothing` therefore promises only "some failing unit's error".
- `Decimal` is exact for any natural number. JavaScript prints integers from 10^21 up in exponent notation, a range that seeds (below 4) and clock readings never reach.
- `Date.now()` is a parameter: `clock(i)` is the reading while entry i is tagged.
- `console.error` is not modelled.
- The `file` field of `ImageData` is not modelled. The reader of `components/ImageUploader.tsx` (FileReader, object URLs, the `split(',')[1]` of the data URI) is also left out; `AfterFirst` reads everything after the first comma, while `split(',')[1]` reads the text between the first and the second comma; the two agree on a data URI because a base64 payload has no comma.
- The code reads `inlineData.data` and `inlineData.mimeType` without checking them. The model assumes both are present as strings.
- JSX rendering and styling are not modelled, nor is `components/GeneratedContent.tsx` (clipboard, downloads, timers, pretty-printing).
- AppState.App.HandleGenerateContent: requires that no batch is running. The page disables the button while one runs, and the handler is not re-entered in the model because its awaited call is one atomic step.
- React's batching of state updates and the closure over state captured by `useCallback` are not modelled. The handler reads the current fields, which are the values its dependency list captures.
