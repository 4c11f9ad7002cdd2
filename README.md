# VS poster generator: a verified model of its core

The application makes "versus" match posters with an image-generation API.
The user picks two sides, each with an optional image and a team or player
name. They also choose a composition, a visual style and an output format,
and may add free text. The main screen turns that selection into one
instruction prompt and calls the service; the result screen downloads the
poster or refines it with an edit request. This project models in Dafny:

- **Prompt builder** (`App.PromptFrom`, `App.BuildSmartPrompt`). It applies
  the default subject labels, adds one composition clause, one style clause
  and the "VS" request in that order, adds the typography request only when
  both names are non-blank, and appends the free text verbatim.
- **Generate action** (`App.AppState.HandleGenerate`). A class over the
  screen's state with a key gate that retries once, an empty-input guard,
  and the loading flag and generated image updated around the service call.
- **Service adapter** (`GeminiService`).
  - Request parts are assembled as image A, image B, then the text.
  - A missing API key is refused before any request is made.
  - The host's key check falls back to "present".
  - The first inline image of the response is extracted by a loop and
    returned as a PNG data URI. An inline-data object without `data` still
    counts, and gives the payload "undefined".
- **Image helpers** (`ImageUtils`). The MIME type is a first-match lookup
  over a prefix table with a default, and the data-URL header is stripped
  with `split(',')[1]`.
- **Result screen** (`ResultView`). A class over the edit state with a
  blank-prompt guard and no change on failure, plus the timestamped download
  file name.

`JsStrings` models the JavaScript string operations these rely on:
`trim`, `split` with indexing, decimal rendering, and the interpolation of
a possibly `undefined` string into a template literal. `Types` holds the
closed enumerations of `types.ts`, with the string values the SDK receives.

The builder is written over a record of its fixed sentences (`PromptTexts`).
Its structure is proved once for any wording whose clauses can be told apart
(`App.Distinguishable`). `App.AppTextsDistinguishable` shows that the
application's own wording qualifies, and `App.BuildSmartPrompt` is the
builder applied to it. The class holds the builder as a constant closure,
which the constructor sets to `BuildSmartPrompt`, as the component's closure
does.

The switch statements of the builder also have cases for `V_FORMATION`,
`TOP_BOTTOM`, `TEAM_CREST_BACK`, `RETRO_VINTAGE`, `INK_SPLASH`,
`PAPER_COLLAGE` and `MINIMALIST_FLAT`. The enumerations do not declare these
members, so those cases can never match. The model covers the declared
members exhaustively and has no counterpart for the dead cases.

A response with an empty candidate list, or whose first candidate has no
content, does not raise "No image data found in response": an empty list is
truthy, so reading `candidates[0].content.parts` fails with a TypeError
instead. The model calls this error `MalformedResponse`.

## Model

| member | source | states |
|---|---|---|
| App.Subject | App.tsx:33-34 | A blank name gives the fallback label; any other name gives its trimmed text |
| App.Opening | App.tsx:36 | Definition: the opening sentence over the two effective subjects; `App.BaseOpensWithSubjects` and `App.PromptLayout` place it first |
| App.CompositionClause | App.tsx:39-64 | Definition: one clause per declared composition member, the diagonal split wrapping both subjects; `App.CompositionClauseMark`, `App.ClausesNonEmpty`, `App.CompositionClauseDeterminesComposition` and `App.DiagonalPlacesAFirst` state its properties |
| App.StyleClause | App.tsx:67-98 | Definition: one clause per declared style member; `App.StyleClauseMarks`, `App.ClausesNonEmpty` and `App.StyleClauseDeterminesStyle` state its properties |
| App.TypographyClause | App.tsx:104 | Definition: the request to render both subjects as typography; `App.TypographyIffBothNames` says when it ends the prompt |
| App.BasePrompt | App.tsx:36-101 | Definition: opening, composition, style and "VS" clauses concatenated in that order; `App.BasePromptDeterminesSelection` shows it is injective in the selection |
| App.PromptFrom | App.tsx:32-113 | Definition: effective subjects, the fixed part, the typography request when both trimmed names are non-empty, then the labelled free text when it is non-blank. `App.PromptLayout`, `App.DetailsAppendedVerbatim`, `App.TypographyIffBothNames`, `App.TypedDefaultStillRendersNames` and `App.SelectionDeterminesPrompt` state its properties |
| App.BaseOpensWithSubjects | App.tsx:36-101 | The fixed part (opening, composition, style, "VS") begins with the opening sentence naming both subjects |
| App.PromptExtendsBase | App.tsx:100-112 | The typography request and the free text are only ever appended after the fixed part |
| App.PromptLayout | App.tsx:32-113 | The prompt starts with the opening sentence, then composition, style and "VS" clauses in that order |
| App.DetailsAppendedVerbatim | App.tsx:108-110 | Blank free text adds nothing; otherwise the label and the untrimmed free text are appended last |
| App.TypographyIffBothNames | App.tsx:103-105 | Without free text, the prompt ends with the typography request if and only if both names are non-blank |
| App.AppTypographyIffBothNames | App.tsx:103-105 | The same, for the application's own wording |
| App.TypedDefaultStillRendersNames | App.tsx:33-34 | A name typed as "Home Team" gives the same subject as a blank one, yet a different prompt, because it triggers typography |
| App.CompositionClauseMark | App.tsx:39-64 | Each composition clause ends in its own mark, whatever the subjects |
| App.StyleClauseMarks | App.tsx:67-98 | Each style clause ends in its own two marks |
| App.ClausesNonEmpty | App.tsx:39-98 | Every declared composition and style member has a non-empty clause |
| App.AppClausesNonEmpty | App.tsx:39-98 | The same, for the application's own wording |
| App.StyleClauseDeterminesStyle | App.tsx:67-98 | Two texts ending in style clauses are equal only if the styles are equal |
| App.CompositionClauseDeterminesComposition | App.tsx:39-64 | Two texts ending in composition clauses are equal only if the compositions are equal |
| App.BasePromptDeterminesSelection | App.tsx:36-101 | Equal fixed parts for the same subjects come from the same composition and style |
| App.SelectionDeterminesPrompt | App.tsx:32-113 | Different composition or style selections give different prompts |
| App.BuildSmartPrompt | App.tsx:32-113 | Definition: `App.PromptFrom` in the application's wording; `App.AppTypographyIffBothNames`, `App.AppClausesNonEmpty` and `App.AppSelectionDeterminesPrompt` state its properties, and every generic lemma applies through `App.AppTextsDistinguishable` |
| App.AppSelectionDeterminesPrompt | App.tsx:32-113 | With the application's own wording, different composition or style selections give different prompts |
| App.DiagonalPlacesAFirst | App.tsx:41 | The diagonal split clause contains subject A, then other text, then subject B |
| App.CompositionTextsMarked | App.tsx:41-53 | The application's composition sentences end in their marks |
| App.StyleTextsMarked | App.tsx:68-84 | The application's style sentences end in their marks |
| App.AppTextsDistinguishable | App.tsx:36-109 | The application's wording keeps every clause apart |
| App.NothingSupplied | App.tsx:126 | The guard holds exactly when no image would be sent and both names are the empty string, untrimmed |
| App.WhitespaceNamesPassGuard | App.tsx:126-129 | Whitespace-only names pass the untrimmed guard, yet the prompt uses both default labels and has no typography |
| App.AppState.constructor | App.tsx:10-30 | The initial selection and flags, and the key flag as the first key check reports it |
| App.AppState.CurrentPrompt | App.tsx:133 | Definition: the component's prompt closure applied to the current names, selection and free text; the constructor fixes that closure to `App.BuildSmartPrompt` |
| App.AppState.HandleGenerate | App.tsx:115-143 | No key and none selected: nothing happens. Nothing supplied: nothing is sent. Otherwise the current prompt and images are sent, only a success replaces the image, and the loading flag ends false |
| Types.ValuesDistinguish | types.ts:1-21 | Different aspect ratios, resolutions and models have different string values, so the request the SDK receives keeps them apart |
| GeminiService.CreateAIClient | services/geminiService.ts:8-13 | Fails with the missing-key error exactly when the key is empty |
| GeminiService.CheckApiKey | services/geminiService.ts:118-123 | Reports no key only when the host's capability exists and answers false |
| GeminiService.Truthy | services/geminiService.ts:27 | Definition: JavaScript truthiness of an optional string, present and non-empty |
| GeminiService.ImageCount | services/geminiService.ts:27-43 | Definition: how many of the two images are truthy; `GeminiService.GenerationParts` counts its parts by it |
| GeminiService.SentImages | services/geminiService.ts:27-43 | Exactly the truthy images, A before B |
| GeminiService.GenerationParts | services/geminiService.ts:24-46 | One PNG inline part per truthy image, in order, then exactly one text part, last |
| GeminiService.EditRequest | services/geminiService.ts:87-100 | The flash model's name with exactly two parts: the source image declared as PNG, then the prompt |
| GeminiService.GenerationRequest | services/geminiService.ts:49-60 | Definition: the pro model's name, the parts of `GeminiService.GenerationParts`, and the string values of the aspect ratio and resolution as image configuration; `GeminiService.GenerateVSCover` is proved to send exactly it, and `Types.ValuesDistinguish` shows the strings keep different selections apart |
| GeminiService.FirstInlineData | services/geminiService.ts:64-69 | Definition: the inline-data object of the first part that carries one, whether or not it holds `data`; `GeminiService.FirstInlineDataFound`, `GeminiService.FirstInlineDataAbsent` and `GeminiService.LaterPartsIgnored` state its properties |
| GeminiService.ImageFromResponse | services/geminiService.ts:62-72 | Definition: how a returned response is read, with the TypeError cases as `MalformedResponse` and a missing `data` interpolated as "undefined"; `GeminiService.ExtractImageUri` is proved to compute it and `GeminiService.ServiceResultOfParts` characterizes it |
| GeminiService.CallResult | services/geminiService.ts:48-77 | Definition: an SDK exception is rethrown unchanged, and a returned response is read by `GeminiService.ImageFromResponse` |
| GeminiService.FirstInlineDataFound | services/geminiService.ts:63-69 | The extraction yields the inline-data object of the first part with one |
| GeminiService.FirstInlineDataAbsent | services/geminiService.ts:63-72 | The extraction finds nothing exactly when no part carries inline data |
| GeminiService.LaterPartsIgnored | services/geminiService.ts:64-69 | Parts after the first image never change the result |
| GeminiService.ServiceResult | services/geminiService.ts:15-78 | An empty key fails before any request; a success is always a PNG data URI |
| GeminiService.ServiceResultOfParts | services/geminiService.ts:62-72 | With a readable part list, success holds exactly when some part has inline data and returns the first such part's `data` behind the header, "undefined" when it has none; failure is "No image data" |
| GeminiService.MissingDataRendersUndefined | services/geminiService.ts:64-67 | A first inline-data object without `data` still ends the search, and the call returns "data:image/png;base64,undefined" |
| GeminiService.PayloadOfReturnedUri | services/geminiService.ts:67 | A returned URI split at its comma gives back exactly the data |
| GeminiService.ExtractImageUri | services/geminiService.ts:62-72 | The loop returns what the extraction function specifies |
| GeminiService.PushGenerationParts | services/geminiService.ts:24-46 | The successive pushes build exactly `GeminiService.GenerationParts` |
| GeminiService.CallSdk | services/geminiService.ts:48-77 | The `try` block yields exactly `GeminiService.CallResult` of the SDK's outcome |
| GeminiService.GenerateVSCover | services/geminiService.ts:15-78 | Sends nothing without a key, otherwise exactly the generation request, and returns the service result |
| GeminiService.EditImageWithFlash | services/geminiService.ts:80-116 | Sends nothing without a key, otherwise exactly the two-part edit request, and returns the service result |
| ImageUtils.FileToBase64 | utils/imageUtils.ts:8 | Undefined exactly when the data URL has no comma; a present payload holds no comma |
| ImageUtils.FileToBase64OfDataUrl | utils/imageUtils.ts:8 | A header, one comma and a payload give back exactly the payload |
| ImageUtils.FirstMatch | utils/imageUtils.ts:23-28 | The answer is the default or the MIME type of some table entry |
| ImageUtils.GetMimeTypeFromBase64 | utils/imageUtils.ts:15-29 | Always one of the four MIME strings |
| ImageUtils.SignaturesArePrefixFree | utils/imageUtils.ts:16-22 | No signature is a prefix of another |
| ImageUtils.FirstMatchOfPrefixFree | utils/imageUtils.ts:23-27 | In a prefix-free table, any matching entry decides the lookup |
| ImageUtils.FirstMatchOfNoSignature | utils/imageUtils.ts:23-28 | With no matching entry the lookup gives the default |
| ImageUtils.SignatureDecides | utils/imageUtils.ts:17-21 | A JPEG, PNG, GIF (both variants) or BMP signature yields its own MIME type |
| ImageUtils.UnknownSignatureIsPng | utils/imageUtils.ts:28 | A payload matching no signature is reported as PNG |
| ImageUtils.TableOrderIrrelevant | utils/imageUtils.ts:16-27 | Any reordering of the table gives the same answer on every input |
| JsStrings.Trim | App.tsx:33-34 | Trimming gives the empty string exactly for blank input, and otherwise text with no whitespace at either end |
| JsStrings.SecondField | utils/imageUtils.ts:8 | `split(sep)[1]` is undefined exactly when there is no separator, and is otherwise the separator-free text after the first one |
| JsStrings.NatToDecimal | components/ResultView.tsx:20 | The rendering of a timestamp is a non-empty string of digits with no leading zero, except for zero itself |
| JsStrings.ParseNatToDecimal | components/ResultView.tsx:20 | Reading the digits back gives the timestamp |
| ResultView.DownloadFileName | components/ResultView.tsx:20 | The file name starts with "vs-cover-", ends with ".png" and has text between them |
| ResultView.TimestampOfFileName | components/ResultView.tsx:20 | The inverse of the download name: only names with the prefix and the extension give a timestamp |
| ResultView.DownloadFileNameRoundTrip | components/ResultView.tsx:20 | The timestamp can be read back from the file name |
| ResultView.DownloadFileNamesDistinct | components/ResultView.tsx:20 | Downloads at different instants get different names |
| ResultView.ResultViewState.constructor | components/ResultView.tsx:12-15 | The screen opens on the given image with empty edit text and both flags false |
| ResultView.ResultViewState.ApplyEnabled | components/ResultView.tsx:115 | The apply button is enabled exactly when the edit text is not blank |
| ResultView.ResultViewState.HandleDownload | components/ResultView.tsx:17-24 | The link points at the current image and is named exactly `vs-cover-<timestamp>.png`, from which the click's timestamp is read back |
| ResultView.ResultViewState.HandleEdit | components/ResultView.tsx:26-40 | Blank text: nothing changes and nothing is sent. Otherwise the payload after the URL's first comma is sent with the text. A success replaces the image, clears the text and closes the editor; a failure keeps all three. The loading flag ends false |

## Left out

- Rendering, CSS, icons and layout of every screen are not modelled, nor is the header component. They are markup with no behaviour to state.
- The image uploader component is not modelled: it is drag-over state and file-input plumbing.
- The file read behind `fileToBase64` is not modelled. Only the string stripping applied to its result is (`ImageUtils.FileToBase64`).
- The image-generation SDK is a parameter `sdk` that maps a request to a returned response or a thrown message. Its network behaviour is outside the model.
- The host's key-selection capability is a value (`Option<Host>`). Opening the key selection is modelled by the host as the user leaves it (`hostAfterSelection`).
- `console` logging, the alerts, `Date.now()` and `process.env.API_KEY` are left out. Outcomes are returned values, the timestamp and the key are parameters, and an alert corresponds to a `MissingInput` or failed outcome.
- Asynchrony is not modelled: each handler runs to completion as one step.
- App.AppState.HandleGenerate: `isGenerating` is true only while the call is pending, which the model does not observe; the contract states the flag once the call has settled.
- The setters the screens' inputs call (name, image, selection and edit-text fields, and opening or cancelling the editor) are not modelled. Each only assigns one field.
- JsStrings.NatToDecimal: JavaScript writes numbers from 10^21 up in exponent notation; the model renders every natural number in plain decimal, which agrees for every millisecond timestamp below that.
- The switch cases for members the enumerations do not declare are dead code and have no counterpart, as described above.
- `Types`: the string values of `CompositionType` and `PosterStyle` are not modelled. The prompt builder switches on the members, and the labels only reach the UI.
