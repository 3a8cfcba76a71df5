# Celebrity lookalike finder: a verified model of its request/response core

The application is a browser page: the user uploads a photo, the page sends it
to a generative model that looks for six celebrity lookalikes and writes a
three-part facial-proportion reading, and the page shows the reply as cards
and a radar chart. This project models, in Dafny, the logic that sits around
that one model call:

- **The service adapter** (`GeminiService`). It picks the English or Chinese
  prompt instructions and builds the request: an image part that always
  declares JPEG, the prompt, and the declared response schema. It accepts a
  parsed reply only if `celebrityMatches` and `facialAnalysis` are truthy and
  `celebrityMatches.length` is 6, and then returns the reply unchanged. Every
  failure (transport, JSON parse, shape) becomes one `Error` with the message
  "Could not get a valid response from the AI model.". The SDK call and
  `JSON.parse` are a `Reply` parameter. The parsed value is a `Json` datatype
  whose truthiness and `.length` follow JavaScript: a string's length counts
  UTF-16 code units, and an object passes the length test only through its own
  `length` property equal to the number 6. The typed records are linked to the
  untyped reply by `Decode`/`Encode` and by a `Conforms` predicate over the
  declared schema.
- **The page state machine** (`AppState.App`). It is a class with the five
  state cells `uploadedImage`, `analysisResult`, `isLoading`, `error` and
  `language`, and the upload, analyze and language handlers. The analyze
  handler receives the model call's outcome as a parameter and returns the
  request it sent, or nothing when no image is present. Its object invariant
  says that a stored result is always a reply the adapter accepted, and that it
  never sits beside an error. The render guards (`ShowsSpinner`, `ShowsError`,
  `ShowsResults`, `ShowsEmptyPrompt`) are predicates over the cells. The
  handlers' postconditions state which of them hold afterwards.
- **The upload panel** (`ImageUploader`): the `image/` type filter, the
  first-file rule, the drag highlight (`DropZone`; drag-over changes nothing,
  as its method has no `modifies` clause), and the analyze button's disabled
  state and caption.
- **The results page** (`ResultsDisplay`, `RadarChart`): the placeholder
  initials (as characters, and as the UTF-16 code units JavaScript takes),
  the image-error fallback (`MatchImage`, whose handler runs again on every
  failed load, and `OneShotMatchImage`, the intended handler that runs once;
  see "Findings"), the translation lookup with fallback to the key, one card
  per match in order, and the chart data (one point per match, full mark 100).

Two things the code does not do, which the model states as it is:

- The prompt and the declared schema ask for six typed matches and three
  analysis texts (services/geminiService.ts:21-24 and 43-73). The code checks
  only top-level truthiness and `length === 6`.
  `GeminiService.AcceptsWithoutFieldCheck` shows an accepted reply that neither
  conforms to the schema nor decodes.
- Transport, parse and format failures all end in the one message of
  services/geminiService.ts:88.

## Model

| member | source | states |
|---|---|---|
| I18n.OrKey | App.tsx:37 | `t(key)` gives the table entry when it is non-empty and otherwise the key's name; the result is empty only if both are |
| JsString.Split | App.tsx:55 | `split` on one character yields one more piece than there are separators, and no piece contains the separator |
| JsString.SplitWithoutSeparator | components/ResultsDisplay.tsx:101 | a string without the separator splits into itself alone |
| JsString.SplitAtFirst | App.tsx:55 | the first piece is the text before the first separator, and the rest is the split of what follows it |
| JsString.JoinSplit | App.tsx:55 | joining the pieces with the separator restores the original string |
| JsString.SplitJoin | App.tsx:55 | splitting a join of separator-free pieces gives the same pieces back |
| Json.Member | services/geminiService.ts:80 | property access finds a value exactly when the reply is an object with that own key; otherwise it is `undefined` |
| Json.Truthy | services/geminiService.ts:80 | `undefined` and `null` are falsy, and every array and object is truthy, even an empty one |
| Json.LengthIsSix | services/geminiService.ts:80 | only an array, a string or an object can have `length === 6`; a string passing it has between three and six characters |
| Json.Utf16Length | services/geminiService.ts:80 | a string's JavaScript `length` is between its character count and twice that |
| Json.Utf16LengthOfBmp | services/geminiService.ts:80 | for characters of the Basic Multilingual Plane the JavaScript length is the character count |
| GeminiService.LanguageInstruction | services/geminiService.ts:10-12 | the answer-language instruction is the Chinese one exactly for `zh` and the English one exactly otherwise |
| GeminiService.CelebrityInstruction | services/geminiService.ts:14-16 | the celebrity instruction is the Chinese one exactly for `zh` and the English one exactly otherwise |
| GeminiService.PromptLayout | services/geminiService.ts:18-25 | the prompt opens with the same fixed text in both languages, then holds the selected language instruction, the fixed first step, and the selected celebrity instruction |
| GeminiService.TemplateLayout | services/geminiService.ts:18-25 | a template's opening, its two inserts and the middle between them sit at the positions the lengths before them give |
| GeminiService.PromptEndsWithClosing | services/geminiService.ts:21-24 | in both languages the prompt ends with the same fixed text: the rest of step two and steps three to five |
| GeminiService.FirstInsertDecides | services/geminiService.ts:18-25 | two texts from the same template whose first inserts start with different characters differ |
| GeminiService.PromptsDiffer | services/geminiService.ts:18-25 | the English and Chinese prompts are different texts |
| GeminiService.BuildRequest | services/geminiService.ts:28-75 | the request has an image part declaring `image/jpeg` whatever was uploaded, with the payload unchanged, then the locale's prompt; the model name is fixed; the reply is declared JSON of the response schema |
| GeminiService.Conforms | services/geminiService.ts:43-73 | a value conforming to an object schema is an object holding every required key, and one conforming to an array schema is an array |
| GeminiService.Decode | services/geminiService.ts:84 | a reply that reads as an `AnalysisResult` is an object whose `celebrityMatches` is an array with one element per decoded match, and the shape check accepts it exactly when there are six |
| GeminiService.Accepts | services/geminiService.ts:80-81 | an accepted reply is an object that has both top-level keys |
| GeminiService.TryBody | services/geminiService.ts:77-84 | the `try` block succeeds exactly on a parsed reply passing the shape check; a non-null parsed reply failing it throws the "unexpected data format" error |
| GeminiService.AnalyzeImageForLookalike | services/geminiService.ts:8-89 | the request is the one built for the payload and language; the call resolves exactly on an accepted parsed reply and then returns it unchanged; every other outcome rejects with the one fixed error, whatever its cause |
| GeminiService.DecodeMatches | types.ts:16-19 | the match list decodes exactly when every element decodes, and then element by element in order |
| GeminiService.EncodeMatches | types.ts:16-19 | encoding keeps the number and order of matches |
| GeminiService.DecodeEncode | types.ts:2-19 | every analysis result survives encoding to JSON and decoding unchanged |
| GeminiService.EncodeConforms | services/geminiService.ts:43-73 | every encoded analysis result conforms to the declared response schema |
| GeminiService.ConformingMatchDecodes | services/geminiService.ts:49-59 | an element with the five required match fields of the declared types decodes to a match |
| GeminiService.ConformingAnalysisDecodes | services/geminiService.ts:61-70 | an object with the three required analysis strings decodes to a facial analysis |
| GeminiService.ConformingDecodes | services/geminiService.ts:43-73 | a schema-conforming reply decodes to an analysis result with one match per array element |
| GeminiService.DecodedMatchConforms | services/geminiService.ts:49-59 | an element that decodes to a match conforms to the match schema |
| GeminiService.DecodedAnalysisConforms | services/geminiService.ts:61-70 | an object that decodes to a facial analysis conforms to the analysis schema |
| GeminiService.ConformsIffDecodes | services/geminiService.ts:43-73 | the declared response schema accepts exactly the replies that read as an `AnalysisResult` |
| GeminiService.ConformingAcceptedIffSix | services/geminiService.ts:80-81 | on schema-conforming replies the shape check accepts if and only if there are exactly six matches |
| GeminiService.SixMatchReplyAccepted | services/geminiService.ts:77-84 | a complete six-match reply is returned as is and decodes to the same result, so its fortune and its first angle are the reply's |
| GeminiService.OtherCountRejected | services/geminiService.ts:80-88 | a complete reply with any other number of matches is rejected with the uniform message |
| GeminiService.AcceptsWithoutFieldCheck | services/geminiService.ts:80-84 | a reply whose matches are a six-character string and whose analysis is `true` passes the check and is returned, although it does not conform to the schema |
| AppState.Payload | App.tsx:55 | `split(',')[1]` is defined exactly when the data URL has a comma, and it contains no comma |
| AppState.PayloadAfterFirstComma | App.tsx:55 | the payload is the text after the first comma, up to the next comma or the end |
| AppState.PayloadOfDataUrl | App.tsx:55 | for a base64 data URL the payload is exactly its data |
| AppState.ErrorText | App.tsx:59 | an `Error` is shown as the locale's prefix, a space and its message; any other thrown value as the locale's unknown-error text; never empty |
| AppState.FailureShownUniformly | App.tsx:58-59 | every service failure is shown as the locale's prefix followed by the adapter's single message |
| AppState.T | App.tsx:37 | the page's lookup returns the locale's non-empty text and never the key |
| AppState.App.constructor | App.tsx:31-35 | no image, no result, not loading, no error, English |
| AppState.App.ShowsSpinner | App.tsx:97 | while the spinner shows, the analyze button is disabled |
| AppState.App.ShowsError | App.tsx:99 | an error shows only when a non-empty message is set, and under the invariant never beside a stored result |
| AppState.App.ShowsResults | App.tsx:105 | results show only for a stored result with an image, never with the empty prompt, and under the invariant they are an accepted reply with no error beside them |
| AppState.App.ShowsEmptyPrompt | App.tsx:114 | the empty prompt shows only without an image, with no spinner and the analyze button disabled |
| AppState.App.SetLanguage | App.tsx:77-78 | the language becomes the chosen one and nothing else changes |
| AppState.App.HandleImageUpload | App.tsx:39-43 | the image becomes the reader's result (a data URL, or `null` after a failed read), result and error are cleared, loading and language unchanged; neither results nor error show, and after a failed read with nothing pending the empty prompt shows |
| AppState.App.BeginAnalyze | App.tsx:50-55 | loading starts, error and result are cleared, and the payload is cut from the data URL; the spinner shows and the analyze button is disabled |
| AppState.App.HandleAnalyze | App.tsx:45-63 | without an image: nothing is sent, the error is "upload first", loading and result unchanged. With one: the built request is sent; success stores the reply and shows results; failure stores prefix plus the uniform message and shows it; loading ends either way |
| AppState.UploadedTypeIgnored | App.tsx:39-63 | whatever media type a base64 data URL carries, analyzing it sends exactly its data, declared as `image/jpeg` |
| AppState.AnalyzeGoodReply | App.tsx:45-63 | on an uploaded image, a six-match reply is shown as the result, and the image stays |
| AppState.AnalyzeFailedCall | App.tsx:45-63 | on an uploaded image, a failed model call, whatever its cause, leaves no result, no loading, and the locale's prefix with the uniform message |
| AppState.UploadAnalyzeTwice | App.tsx:39-63 | upload then a good reply shows that reply as the results, and a later transport failure replaces them by the error |
| ImageUploader.T | components/ImageUploader.tsx:36 | the panel's lookup returns the locale's non-empty text and never the key |
| ImageUploader.FirstFile | components/ImageUploader.tsx:49 | `files?.[0]` is present exactly when the list is non-null and non-empty, and is its first file |
| ImageUploader.HandleFileChange | components/ImageUploader.tsx:38-46 | a file goes to the reader exactly when its type starts with `image/` |
| ImageUploader.SelectedFile | components/ImageUploader.tsx:48-53 | a selection passes on a file exactly when its first file is an image, and then that file |
| ImageUploader.OnlyFirstFileMatters | components/ImageUploader.tsx:59 | files after the first never change what is passed on |
| ImageUploader.AnalyzeDisabled | components/ImageUploader.tsx:121 | the button is enabled exactly when an image is present and nothing is loading |
| ImageUploader.ButtonLabel | components/ImageUploader.tsx:124 | the caption is the locale's "analyzing" text while loading, otherwise its "find my lookalike" text |
| ImageUploader.LabelShowsLoading | components/ImageUploader.tsx:124 | the two captions differ in each language |
| ImageUploader.DropZone.constructor | components/ImageUploader.tsx:35 | the drop zone starts unhighlighted |
| ImageUploader.DropZone.OnDragEnter | components/ImageUploader.tsx:70-74 | drag-enter sets the highlight |
| ImageUploader.DropZone.OnDragOver | components/ImageUploader.tsx:65-68 | drag-over leaves the highlight as it is |
| ImageUploader.DropZone.OnDragLeave | components/ImageUploader.tsx:76-80 | drag-leave clears the highlight |
| ImageUploader.DropZone.OnDrop | components/ImageUploader.tsx:55-63 | a drop clears the highlight and passes on the first dropped file if it is an image |
| ImageUploader.DropZone.OnFileInputChange | components/ImageUploader.tsx:48-53 | an input change passes on a file exactly when the first selected file is an image, and then that file |
| ResultsDisplay.T | components/ResultsDisplay.tsx:53 | every entry of the results table is non-empty, so `t` returns the locale's text and never falls back to the key |
| ResultsDisplay.FirstChars | components/ResultsDisplay.tsx:101 | mapping pieces to first characters and joining yields at most one character per piece |
| ResultsDisplay.Initials | components/ResultsDisplay.tsx:101 | the initials have at most as many characters as the name has space-separated pieces |
| ResultsDisplay.WordStarts | components/ResultsDisplay.tsx:101 | the reference list of word-initial characters contains no space, and each of its characters occurs in the text |
| ResultsDisplay.FirstCharsOfSplit | components/ResultsDisplay.tsx:101 | the first characters of the space-separated pieces are the word-initial characters |
| ResultsDisplay.InitialsAreWordStarts | components/ResultsDisplay.tsx:101 | the initials are exactly the characters that begin a word (a non-space at the start or after a space), in order |
| ResultsDisplay.WordStartsSubsequence | components/ResultsDisplay.tsx:101 | the word-initial characters form a subsequence of the text |
| ResultsDisplay.InitialsWithinName | components/ResultsDisplay.tsx:101 | the initials are a subsequence of the name, contain no space, and number at most the count of spaces plus one |
| ResultsDisplay.InitialsOfOneWord | components/ResultsDisplay.tsx:101 | a name without spaces gives its first character, and an empty name gives the empty string |
| ResultsDisplay.FirstCodeUnit | components/ResultsDisplay.tsx:101 | `n[0]` is the first character itself inside the Basic Multilingual Plane and a high surrogate beyond it |
| ResultsDisplay.FirstUnits | components/ResultsDisplay.tsx:101 | the code-unit initials have one unit per word-initial character, the first code unit of that character |
| ResultsDisplay.InitialUnits | components/ResultsDisplay.tsx:101 | the initials JavaScript computes are, position by position, the first code units of the character initials |
| ResultsDisplay.InitialUnitsOfBmpName | components/ResultsDisplay.tsx:101 | for a name inside the Basic Multilingual Plane the code-unit initials are exactly the character initials |
| ResultsDisplay.InitialUnitsKeepHighSurrogate | components/ResultsDisplay.tsx:101 | a word starting with U+1F600 contributes only the lone high surrogate D83D |
| ResultsDisplay.PlaceholderUrl | components/ResultsDisplay.tsx:101 | the fallback address is the placeholder base followed, without encoding, by the name's word-initial characters: no space, in the name's order |
| ResultsDisplay.MatchImage.constructor | components/ResultsDisplay.tsx:94-98 | a card image starts loading the match's picture |
| ResultsDisplay.MatchImage.LoadFailed | components/ResultsDisplay.tsx:98-102 | every failed load runs the handler, which sets the placeholder address and starts one more load, since clearing `onerror` does not remove React's listener |
| ResultsDisplay.FailingPlaceholderKeepsReloading | components/ResultsDisplay.tsx:98-102 | with the handler as written, n failures start n + 1 loads, without bound, and leave the placeholder address in place |
| ResultsDisplay.OneShotMatchImage.constructor | components/ResultsDisplay.tsx:94-98 | the corrected image starts on the match's picture, not yet fallen back |
| ResultsDisplay.OneShotMatchImage.LoadFailed | components/ResultsDisplay.tsx:98-102 | the corrected handler switches to the placeholder on the first failure and ignores every later one; the invariant keeps the loads at two at most |
| ResultsDisplay.FailingPlaceholderStops | components/ResultsDisplay.tsx:98-102 | with the corrected handler, any number of failures starts at most two loads and leaves the placeholder address in place |
| ResultsDisplay.MatchCards | components/ResultsDisplay.tsx:92-108 | one card per match, in input order, each showing that match's picture, name, similarity, localised angle line and reason |
| ResultsDisplay.AnalysisCards | components/ResultsDisplay.tsx:71-85 | three cards, fortune then health then makeup, each titled from the table over the reply's text |
| ResultsDisplay.ChartAgreesWithCards | components/ResultsDisplay.tsx:60 | the i-th chart point and the i-th match card show the same similarity and angle |
| RadarChart.ChartData | components/RadarChartComponent.tsx:23-27 | one point per match, in order: subject is the angle, value is the similarity, and the full mark is 100, the top of the radius domain |
| RadarChart.T | components/RadarChartComponent.tsx:21 | the chart's lookup returns the locale's non-empty text and never the key |
| RadarChart.SeriesLabel | components/RadarChartComponent.tsx:41 | the series is labelled "Similarity" in English and "相似度" in Chinese, never the bare key |

## Findings

| source | as written | input that shows it | evidently intended | confidence | as-written member | corrected member |
|---|---|---|---|---|---|---|
| components/ResultsDisplay.tsx:98-102 | the handler clears the element's `onerror` property, but React attaches `onError` as an event listener, which stays; every failed load re-runs the handler, and assigning `src` starts another load | a match whose picture fails and whose placeholder also fails (the placeholder host unreachable) | the fallback runs once, so a failing placeholder ends the attempts | not executed; React 17 and later attach `error` on `img` as a listener | ResultsDisplay.FailingPlaceholderKeepsReloading | ResultsDisplay.FailingPlaceholderStops |

## Left out

- The model call itself (`generateContent`, the SDK client and its API key) is I/O with a foreign SDK. Its outcome, together with `JSON.parse`, is the `Reply` parameter.
- `JSON.parse` is not modelled as a parser. A parsed reply is any `Json` value, and a failed parse is `Unparseable`.
- `console.error` logging is a side effect only.
- `async`/`await` and React's state batching and `useCallback` dependencies are not modelled. Each handler is one sequential method. The pending state during the call is modelled by `BeginAnalyze`. Interleavings, such as a language switch while a call is pending, are not modelled.
- `FileReader.readAsDataURL` is browser I/O. The uploader's handlers return the file they would hand to the reader. The reader's result (a data URL, or `null` after a failed or aborted read) is the argument of `HandleImageUpload`.
- The JSX markup, CSS classes, icons, the loading spinner and the chart library's drawing are presentational.
- Translation entries that only feed headings and instructions (title, subtitle, upload texts, section titles) are presentational. The tables hold only the entries whose values feed a modelled value.
- The schema's `description` strings are natural-language hints to the model and are not modelled.
- The rendering of `similarity` as `NN%` is floating-point formatting and is not modelled. The similarity is an opaque real.
- The rendering of a reply that passed the check but does not decode is not modelled. The card and chart helpers work on typed records, so a reply with a string or objects of the wrong shape under `celebrityMatches` is not covered.
- Json.Member: inherited prototype properties are not modelled. Only the keys `celebrityMatches`, `facialAnalysis` and `length` are ever looked up, and none of them is inherited from `Object.prototype`.
- GeminiService.TryBody: the message of the `TypeError` thrown for a `null` reply is V8's text. Other engines word it differently. It never reaches the caller, because the `catch` replaces it.
- ResultsDisplay.FirstChars: keeps the whole first character of each piece. JavaScript's `n[0]` keeps the first UTF-16 code unit, a lone high surrogate for a character beyond the Basic Multilingual Plane. `FirstUnits` models that exactly, and `InitialUnitsOfBmpName` shows the two agree on names inside that plane.
- ResultsDisplay.Initials: same as `FirstChars`. The character version feeds the placeholder address, because a Dafny `char` cannot hold a lone surrogate.
- ResultsDisplay.PlaceholderUrl: for a word starting beyond the Basic Multilingual Plane it holds the whole character where JavaScript puts the lone high surrogate. The URL parser would turn that surrogate into U+FFFD, which is not modelled either.
- ResultsDisplay.MatchImage: the image load itself is browser I/O. A failed load is a call of `LoadFailed`, and `loads` counts the loads started. The element's `onerror` property is not a field, because the handler only clears it and React never reads it.
- Json.LengthIsSix: parsed strings are sequences of Unicode scalar values, so a string holding an unpaired `\uD8xx`-style surrogate escape is not modelled. Such a string can reach length 6 (one unit for the lone surrogate) and be accepted by the check, but no `Parsed` value stands for it.
