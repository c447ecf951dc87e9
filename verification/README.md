# Cosmetic scanner core, modelled in Dafny

The application scans a cosmetic product, by its barcode or from a photo, and
asks an AI model for a safety analysis of its ingredients, tailored to the
user's skin types. Under the React screens sit a few sequential decisions,
and this project models them as pure functions over immutable datatypes:

- the scan handlers of `App.tsx`. The barcode path looks the product up,
  using placeholders on a miss, and then asks the text model. The image path
  tries to decode a barcode from the photo first and otherwise sends the
  base64 payload of its data URL to the vision model. Only a returned
  analysis is saved.
- the scan history. It is capped at ten entries, newest first. The home
  screen lists the newest three, and selecting an entry shows its stored
  analysis.
- the user profile and its edit buffers: the default profile, toggling a skin
  type, renaming, save and cancel.
- the lookup response normalisation of `services/productService.ts`.
- the grounding-source extraction of `services/aiService.ts`, and the
  null/success contract of its two analysis calls.
- the report computations of `components/AnalysisView.tsx`: the status
  filter, the per-status counts and button texts, the status badge, the score
  ring's dash offset, and when the sources section is shown.
- the camera screen of `components/ScannerView.tsx`: how a camera start
  failure is classified, the torch transition, teardown, and where a gallery
  file is routed.

Every outside party is an oracle value. The Services record holds the lookup
response for a barcode, the text model's and the vision model's replies, and
what decoding a file finds. A chosen file carries the data URL FileReader
produces for it, or nothing when reading fails. Camera start and torch
outcomes, stored values and clock readings are parameters.

Modules: `Util` (Option, JavaScript truthiness, Array.prototype.filter,
subsequences), `Text` (split and join on a character, includes, the decimal
rendering of a number), `Types`, `Externals`, `ProductService`, `AiService`,
`History`, `Profile`, `AnalysisView`, `ScannerView`, `ScanPipeline`.

The model follows the code, in particular where a reader might expect a stronger design:

- The skin-type selection is a sequence, not a set. Toggling keeps it free of
  duplicates only when it starts free of them, and a stored profile is taken
  without any check.
- The AI response is cast, not validated against its schema. The model's
  datatypes take a reply to be shaped as the schema says: a status is one of
  the three spellings and the score is an integer. What the code does with a
  reply outside that shape is listed under "Left out".
- The source raises four different alerts, not two kinds of failure message.
  The model raises three of them; the fourth, "An error occurred during
  scanning.", is explained under "Left out".

## Model

| member | source | states |
|---|---|---|
| Types.StatusesEnumerated | types.ts:4 | an ingredient status is one of exactly three values, with distinct spellings SAFE, CAUTION, HARMFUL |
| Types.SkinTypesEnumerated | types.ts:34-40 | there are exactly five skin types, listed once each in declaration order, with distinct string values |
| Types.SkinTypeNames | App.tsx:91 | the skin types handed to the AI are the selection's string values, in order, one per selected type |
| Util.Filter | App.tsx:133 | filtering keeps exactly the elements satisfying the predicate, with their multiplicities, as a subsequence of the input |
| ProductService.GetProductByBarcode | services/productService.ts:10-24 | a product is returned exactly for a decoded body with status 1 and a product object; it echoes the barcode and passes the image through; a missing or empty name becomes "Unknown Product", a missing brand "Unknown Brand", missing ingredients ""; name and brand are never empty; every other response gives null |
| AiService.Collect | services/aiService.ts:34-44 | the collected sources are exactly the sources of chunks with a web part and a non-empty uri and title |
| AiService.CollectAppend | services/aiService.ts:36-43 | collecting proceeds chunk by chunk in chunk order |
| AiService.FindIndex | services/aiService.ts:46 | findIndex returns the first position with the uri, or -1 when no source has it |
| AiService.FindIndexIsFirst | services/aiService.ts:46 | a position passes the findIndex filter exactly when its uri does not occur earlier |
| AiService.DedupIsUnseen | services/aiService.ts:46 | the index-based filter equals the reference de-duplication that keeps a source when its uri has not been seen before |
| AiService.ExtractDistinct | services/aiService.ts:46 | extracted sources have pairwise distinct uris |
| AiService.ExtractOnlyWellFormed | services/aiService.ts:34-37 | every extracted source came from a well-formed chunk and has a non-empty uri and title; missing or non-array chunks give no sources |
| AiService.ExtractKeepsFirstInOrder | services/aiService.ts:46 | the result is an order-preserving subsequence of the collected sources, and each kept source is the first one with its uri |
| AiService.ExtractComplete | services/aiService.ts:35-46 | the uri of every well-formed chunk appears in the result |
| AiService.ExtractIdempotent | services/aiService.ts:32-47 | extracting again from the extracted sources gives them back unchanged |
| AiService.AnalyzeReply | services/aiService.ts:75-85 | an analysis is returned exactly when the call succeeded with a non-empty text that parsed; it is the parsed object with sources replaced by exactly the extracted list (the image call at lines 117-127 is the same) |
| AiService.AnalysisSourcesDistinct | services/aiService.ts:79 | a returned analysis always has sources, with distinct uris |
| AnalysisView.FilterAllUnchanged | components/AnalysisView.tsx:15-16 | the All filter returns the ingredient list unchanged |
| AnalysisView.FilterOnlyExact | components/AnalysisView.tsx:15-18 | a status filter returns exactly the ingredients with that status, with their multiplicities, as an order-preserving subsequence, and equals the list whose length its button shows |
| AnalysisView.CountsSumToTotal | components/AnalysisView.tsx:149 | the three status counts sum to the number of ingredients |
| AnalysisView.StatusLabels | components/AnalysisView.tsx:38-45 | the badge maps each status spelling to itself and any other string to "" |
| AnalysisView.CapitalizedNames | components/AnalysisView.tsx:149 | capitalising the status spellings gives "Safe", "Caution", "Harmful" |
| AnalysisView.FilterButtonText | components/AnalysisView.tsx:149 | the All button reads "All", and each status button reads its capitalised name and its count in parentheses |
| AnalysisView.DashOffset | components/AnalysisView.tsx:97 | the offset is 440 at score 0 and 0 at score 100, lies within [0, 440] for scores in [0, 100], and leaves that range outside it |
| AnalysisView.DashOffsetMonotone | components/AnalysisView.tsx:97 | a higher score never gives a larger offset |
| AnalysisView.SourcesShownIffGrounded | components/AnalysisView.tsx:180 | for an analysis the service returned, the sources section shows exactly when some grounding chunk was well formed |
| History.Push | App.tsx:117 | the new history has length min(old + 1, 10), the new entry first, then the newest old entries in order |
| History.PushIsPrefix | App.tsx:117 | one save keeps the first ten of the new entry followed by the old history |
| History.PushAllKeepsNewest | App.tsx:117 | after any run of saves the history is the new entries, newest first, then the old ones, cut to ten, so entries leave oldest first |
| History.HomeRecent | App.tsx:239 | the home screen lists the first min(length, 3) entries of the history |
| History.SelectRecorded | App.tsx:110-116 | a saved entry has the id as its barcode, the analysis's name and brand, and selecting it yields the analysis unchanged |
| History.SavedEntryListedFirst | App.tsx:239 | after a save the new entry heads the home list |
| Profile.LoadProfile | App.tsx:20-27 | with nothing stored the profile is "Sarah Jenkins" with Oily and Sensitive; a stored profile is used as it is |
| Profile.OpenApp | App.tsx:29-30 | at start-up the edit buffers hold the loaded profile and the form is closed |
| Profile.Toggle | App.tsx:131-137 | toggling flips the type's membership and no other's; a present type is removed with the others kept in order and multiplicity; an absent type is appended; a selection without duplicates stays so |
| Profile.ToggleTwiceRestores | App.tsx:131-137 | toggling an absent type twice restores the selection exactly |
| Profile.ToggleTwiceMovesToEnd | App.tsx:131-137 | toggling a present type twice moves it to the end of a duplicate-free selection |
| Profile.SaveProfile | App.tsx:139-144 | save replaces the whole profile with the buffers and closes the form |
| Profile.CancelProfileEdit | App.tsx:146-150 | cancel keeps the profile, resets the buffers to it and closes the form |
| Profile.StepKeepsConsistent | App.tsx:139-150 | every enabled action keeps the buffers equal to the profile whenever the form is closed, and only save changes the profile |
| Profile.RunKeepsConsistent | App.tsx:139-150 | every run of actions keeps that invariant |
| Profile.EditButtonsAgree | App.tsx:220 | from a closed form, the home screen's edit button, which does not reset the buffers, opens the same state as the profile screen's, which does (line 303) |
| Profile.SaveThenReload | App.tsx:142 | a saved profile comes back identical at the next start |
| ScanPipeline.InitialSession | App.tsx:36-37 | at start-up the history is the stored list as it is, or empty |
| ScanPipeline.ProductQuery | App.tsx:49-54 | on a miss the text request is "Unknown Product", "Generic", "" and the profile's skin types; a found product's non-empty name and brand and its ingredients are used |
| ScanPipeline.SaveAnalysisResult | App.tsx:106-120 | saving makes the analysis current and pushes its entry onto the history, changing nothing else |
| ScanPipeline.ScanByBarcode | App.tsx:40-67 | one text request is made from the lookup result; with an analysis the result is saved under the barcode, otherwise the "could not analyze" alert is raised and the history is untouched; the scanner is closed either way |
| ScanPipeline.Payload | App.tsx:88 | the payload is undefined exactly when the data URL has no comma, and holds no comma otherwise |
| ScanPipeline.PayloadOfDataUrl | App.tsx:87-88 | the payload of a base64 data URL (RFC 2397, section 3) whose media type and data hold no comma is exactly its data |
| ScanPipeline.PayloadAfterFirstComma | App.tsx:88 | the payload is the first comma-free segment after the first comma |
| ScanPipeline.ImageId | App.tsx:94 | the synthetic id is "IMAGE_" followed by the decimal clock value |
| ScanPipeline.ImageUploadSteps | App.tsx:69-104 | a photo that decodes is handled as a scan of the decoded barcode; otherwise an unreadable file or a missing temporary element gives "Failed to analyze image." with no model call, and a readable one gives one vision request on its payload, media type and skin types; a reply that yields no analysis gives the "Could not identify product from image." alert and leaves the session as it was, and a reply that yields one saves exactly that analysis under the image id and the clock |
| ScanPipeline.HandleImageUploadAsWritten | App.tsx:75 | the temporary scanner finds its element only while the home screen is rendered; otherwise the handler fails with no model call and no history change |
| ScanPipeline.HistoryOnlyOnSuccess | App.tsx:56-60 | on both paths an alert leaves the history and the current analysis unchanged, and without an alert one entry for the new current analysis is pushed |
| ScanPipeline.PlaceholderOnlyOnMiss | App.tsx:49-54 | on a lookup miss the request carries the placeholder identity; a found product is asked about by its own name, brand and ingredients, so "Generic" never replaces a found brand |
| ScanPipeline.BarcodeEntryRecorded | App.tsx:106-120 | a successful barcode scan records an entry keyed by the barcode, carrying the current analysis verbatim with its name and brand, and the history grows to at most ten |
| ScanPipeline.ImageEntryRecorded | App.tsx:91-94 | a successful photo analysis made one vision request on the data URL's payload, the current analysis is the one that request returned, and the newest history entry, capped at ten, holds it under "IMAGE_" and the clock |
| ScanPipeline.ImageNotIdentified | App.tsx:91-97 | a readable photo without a barcode whose vision reply yields no analysis raises the "Could not identify product from image." alert and leaves the history and the current analysis unchanged |
| ScanPipeline.DecodedPhotoIsBarcodeScan | App.tsx:77-79 | a photo that decodes to a barcode has exactly the outcome of scanning that barcode, and no vision request is made |
| ScanPipeline.HistoryStaysCapped | App.tsx:117 | neither handler lets the history exceed ten entries |
| ScanPipeline.RunCallback | App.tsx:484-486 | a decoded code from the scanner screen goes to the barcode handler, a file to the image handler |
| ScanPipeline.RunCallbackAsWritten | App.tsx:484-486 | the same routing into the image handler as written |
| ScanPipeline.GalleryFallbackFailsAsWritten | App.tsx:75 | as written, a barcode-less gallery photo chosen on the scanner screen ends in "Failed to analyze image." with no model call |
| ScanPipeline.GalleryFallbackReachesVision | App.tsx:86-91 | with the intended handler, that photo gets one vision request on its payload, exactly as if the scanner were closed |
| ScanPipeline.HomeUploadUnaffected | App.tsx:161 | for uploads from the home screen, which holds the element, the handler as written and the intended one agree |
| ScanPipeline.HomeFileChange | App.tsx:159 | the home file input exists only on the home screen, does nothing without a file, and runs the image handler as written with one, which there equals the corrected handler |
| ScanPipeline.OpenEntry | App.tsx:438 | clicking an entry makes its stored analysis current and changes nothing else |
| ScanPipeline.OpenSavedEntry | App.tsx:240 | opening the entry just saved shows the analysis already current |
| ScannerView.ErrorMessage | components/ScannerView.tsx:46-50 | the denial message is shown exactly for an error named NotAllowedError or whose text includes "Permission denied", the generic camera message otherwise |
| ScannerView.StartScanner | components/ScannerView.tsx:20-52 | initialising ends either way; an error is shown exactly when the camera is not scanning afterwards; a scanner is created only when none is held; the message follows the error's classification |
| ScannerView.ToggleTorch | components/ScannerView.tsx:64-76 | the torch flips exactly when a scanner exists, is scanning and the constraint was applied; nothing else changes |
| ScannerView.HandleFileChange | components/ScannerView.tsx:82-108 | without a file nothing happens and the input is not reset; with one exactly one callback runs, the decoded code on success and the file otherwise, and afterwards processing is off and the input reset |
| ScannerView.MountEstablishes | components/ScannerView.tsx:54-55 | the first start establishes the screen invariant, and the torch is enabled afterwards exactly when the camera started |
| ScannerView.HandleKeepsInvariant | components/ScannerView.tsx:133 | retry, the torch button while enabled, and picking a file keep the torch on only while scanning and an error only while not scanning |
| ScannerView.TorchOnlyWhileScanning | components/ScannerView.tsx:57-60 | over any run of events the invariant holds, so when the torch is on the teardown stops the camera |
| Text.Split | App.tsx:88 | split yields at least one piece and no piece contains the separator |
| Text.JoinSplit | App.tsx:88 | joining the pieces of a split restores the string |
| Text.SplitJoin | App.tsx:88 | splitting a join of separator-free pieces gives the pieces back |
| Text.Contains | components/ScannerView.tsx:46 | includes holds exactly when the text occurs at some position |
| Text.Decimal | App.tsx:94 | a number's decimal form is non-empty, all digits, without a leading zero |
| Text.DecimalRoundTrip | App.tsx:94 | reading the decimal form back gives the number |
| Text.DecimalInjective | App.tsx:94 | distinct clock values give distinct ids |

## Left out

- Network calls: the OpenFoodFacts fetch and the Gemini calls are oracle answers in the Services record, so nothing about their content is modelled.
- The prompt wording and the response schema are configuration for the AI service and have no local behaviour.
- html5-qrcode: decoding, camera start and stop, and applyVideoConstraints are reduced to their success or failure outcomes.
- Browser I/O: FileReader, localStorage, JSON parse and stringify, Date.now, alert and console. Stored values and clock readings are parameters, and writes to storage are not modelled.
- The "An error occurred during scanning." alert: only a throwing localStorage write inside the try can reach it, and storage is not modelled.
- A localStorage write that throws after a save has already updated the state is not modelled; on the image path it would raise "Failed to analyze image." after the save.
- The isAnalyzing flag and the timing of the nested finally blocks: these are async timing only.
- The camera effect re-runs when the callbacks' identity changes on an App re-render; the model starts the camera once at mount and then on retry.
- Stored data is taken as a well-formed record, with no validation, as the code does. A stored "null" and chunks that are not objects are outside the datatypes.
- Non-string values in the AI's JSON are outside the datatypes, since the response is cast, not checked.
- AnalysisView.CountsSumToTotal: holds only for replies whose statuses are the three spellings. The code does not check this. An ingredient with any other status string would show under "All" but in no count, and getStatusLabel's empty-string branch exists for it.
- AnalysisView.DashOffset: the score is an integer. The schema's NUMBER admits fractions and JavaScript computes the offset in floating point; real arithmetic on an integer score is what is stated.
- Navigation (tabs, back, close, scan another), BottomNav, JSX and CSS, picsum images, and the history list's `safetyScore || '--'` display are pure UI.
- Clearing the temporary file scanner is taken not to throw; html5-qrcode throws from clear only while a scan runs, and these instances never start one.
- Text.Decimal: Number-to-string is modelled for natural numbers; the exponent form JavaScript uses from 10^21 on does not arise for clock values.
- ScanPipeline.ProductQuery: for a found product with an empty name or brand, which the lookup never returns, only non-emptiness is stated.

## Findings

| source | as written | input that shows it | evidently intended | confidence | as-written member | corrected member |
|---|---|---|---|---|---|---|
| App.tsx:75 | the image handler creates its temporary scanner for the `app-file-scan-temp` element, which only the home screen renders (line 161); while the scanner screen is open App renders it instead (lines 483-488), and the gallery fallback of the scanner screen calls the handler then | on the scanner screen, choose a readable gallery photo without a barcode: the constructor throws for the missing element, the outer catch alerts "Failed to analyze image." and the vision model is never asked | the photo is sent to the vision model as it is from the home screen | medium, not executed; it rests on html5-qrcode throwing for a missing element id, and on React not re-rendering App between `setIsScanning(false)` (line 70) and line 75. React 18 batches that update, so the scanner screen is still rendered at line 75; React 17 legacy mode re-renders synchronously outside event handlers and would render the home screen, with the element, first | ScanPipeline.GalleryFallbackFailsAsWritten | ScanPipeline.GalleryFallbackReachesVision |
