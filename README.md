# LinearVoice, modelled in Dafny

LinearVoice is a browser extension that lets a user of Linear.app trigger
keyboard shortcuts by voice. The user holds an activation key and speaks, then
releases the key. The recording goes from the content script, through the
background service worker, to an offscreen document. The offscreen document
transcribes the speech with a speech-recognition model. It embeds the
transcript and picks the catalogue shortcut whose voice trigger is most
similar. The content script then replays that shortcut's key events on the page.

This project models that path and proves properties of it.

- **The shortcut catalogue and key dispatch** (`Catalogue`, the eleven
  `…Section` modules, `Shortcuts`, `KeyDispatch`). The catalogue is a literal
  of 121 descriptors. `KeyDispatch` covers the key-code table, the modifier
  flags (auto-shift symbols; `cmd` as meta on a Mac and as ctrl elsewhere), and
  the keydown/keyup trace that executing a shortcut dispatches, with the 50 ms
  pauses between sequential keys. Each key goes to the element focused when it
  is dispatched (`KeyDispatch.Focus`), since a key can move the focus.
- **The offscreen document** (`Speech`, `Matching`, `EmbeddingIndex`,
  `OffscreenModel`, `OffscreenProperties`, `Offscreen`).
  - Loading models: the WebGPU probe, reloading only a missing or changed
    model, warm-up, building the trigger index, and progress messages.
  - Transcription: stripping the data-URL prefix, the confidence heuristic,
    cosine similarity, the first-maximum match with the 0.65 threshold, and
    intent processing.
  - The `OffscreenDocument` class holds the five state variables. Each of its
    methods is proved equal to a state function.
- **The background service worker** (`Background`). It keeps two state
  variables: the current settings and the offscreen-readiness flag. The model
  covers document setup, the message router, the settings merge for model
  loading, reading settings, the install and startup flows, and the
  listener's reply rule.
- **The content script** (`Content`).
  - The settings.
  - The recording and processing flags.
  - The key-listener registrations, which are modelled as abort controllers.
  - The toasts shown.
  - The keydown and keyup guards, and the outcome of a voice command.
- **The popup's model-progress hook** (`PopupProgress`). It covers the progress
  reducer, the error path of the status check, and `isLoading` and
  `modelsReady`.
- **The offline snapshot generator** (`GenerateEmbeddings`). It is the nested
  loop that embeds every trigger under `${shortcutId}:${trigger}`, with its
  progress lines.
- **The offscreen console forwarder** (`OffscreenLogger`). It covers
  serialising and deserialising errors, the development-mode gate and
  `handleOffscreenLog`.
- **Shared pieces**:
  - `Js`: JavaScript `trim`, `toLowerCase`, `indexOf`, and thrown values.
  - `OrderedMaps`: JavaScript objects and `Map`s with insertion order.
  - `Config`: constants, default settings and the settings merge.
  - `Messages`: the message and response shapes.

Parameters stand in for the browser, the machine-learning runtime and the
clock. Examples are `OffscreenModel.Host`, `Background.Host`, `Matching.Sqrt`
and `EmbeddingIndex.Embedder`. The imperative parts of the extension are
classes whose fields the methods update. Each class method is proved equal to
a function of the old state. The properties are proved about those functions.

Three behaviours of the code are worth stating plainly, because the model
keeps them:

- `setupOffscreenDocument` sets `offscreenReady` only after
  `chrome.offscreen.createDocument` returns (src/entrypoints/background.ts:30-52).
  When creation throws, the flag stays false, so the next
  `ensureOffscreenReady` tries again.
- An unknown message type reaching the background makes its listener throw,
  and no error reply is sent. It is not answered with `{success: false}`. See
  "Findings".
- After installing, the "LinearVoice Ready" notification is shown whenever the
  offscreen document replies, even with `{success: false}`. See "Findings".

The class methods follow the code in both cases. The corrected behaviour is
stated separately (`Background.HandleCorrected`,
`Background.InstalledCorrected`) and its properties are proved there.

## Model

| member | source | states |
|---|---|---|
| Catalogue.Sequential | src/core/shortcuts.ts:10-18 | a sequential descriptor has non-empty keys and no modifiers |
| Catalogue.Chord | src/core/shortcuts.ts:10-18 | a non-sequential descriptor has exactly one key, carrying its modifiers |
| Catalogue.FindIndex | src/core/shortcuts.ts:1207-1209 | the position of the first entry with the id; none iff no entry has it |
| Catalogue.Find | src/core/shortcuts.ts:1207-1209 | `findShortcutById`: an entry of the catalogue with that id, or null exactly when no entry has that id |
| KeyDispatch.UpperChar | src/core/shortcuts.ts:1183-1184 | upper-casing a letter is undone by lower-casing it |
| KeyDispatch.KeyCode | src/core/shortcuts.ts:1151-1191 | a key in the special-key table gets its table code; any other single letter gets `Key` and the letter upper-cased; anything else is returned as it is, so a non-empty key never gets an empty code |
| KeyDispatch.KeyCodeOfLetter | src/core/shortcuts.ts:1151-1191 | a single letter maps to `Key` plus that letter in upper case |
| KeyDispatch.KeyCodeCaseInsensitive | src/core/shortcuts.ts:1151-1191 | `a` and `A` give the same code |
| KeyDispatch.KeyCodeShiftedCharacters | src/core/shortcuts.ts:1151-1191 | `?` shares `Slash` with `/` and `+` shares `Equal` with `=` |
| KeyDispatch.KeyCodePassThrough | src/core/shortcuts.ts:1151-1191 | a key that is in neither the table nor the letters is returned unchanged, so a non-empty key never gets an empty code |
| KeyDispatch.ModifierFlags | src/core/shortcuts.ts:1101-1127 | meta iff `cmd` on a Mac; ctrl iff `ctrl`, or `cmd` off a Mac; alt iff `alt`; shift iff `shift` or the key is an auto-shift symbol; `cmd` always sets meta or ctrl |
| KeyDispatch.CmdIsPlatformPrimary | src/core/shortcuts.ts:1101-1127 | with `cmd` and no `ctrl`, meta is set iff on a Mac and ctrl is set iff not |
| KeyDispatch.NoModifiersOnlyAutoShift | src/core/shortcuts.ts:1101-1127 | without modifiers, meta, ctrl and alt are false and shift holds iff the key is an auto-shift symbol |
| KeyDispatch.KeyPress | src/core/shortcuts.ts:1097-1146 | one dispatch is a keydown and then a keyup on the same target, with the key, its code, and the shift, meta, ctrl and alt flags `ModifierFlags` gives for the key and modifiers |
| KeyDispatch.SequentialTrace | src/core/shortcuts.ts:1080-1087 | n sequential keys give 3n-1 steps: key i is pressed on the element focused when it is dispatched, and consecutive keys are separated by a pause |
| KeyDispatch.SequentialTraceAt | src/core/shortcuts.ts:1080-1087 | key i is pressed at steps 3i and 3i+1 on the element focused at that point, in key order, followed by a 50 ms pause unless it is the last key |
| KeyDispatch.SequentialTraceUnmodified | src/core/shortcuts.ts:1083 | every event of a sequential shortcut has meta, ctrl and alt false, and shift set iff its key is an auto-shift symbol |
| KeyDispatch.NextKeyExtendsTrace | src/core/shortcuts.ts:1080-1087 | after the steps of the first i keys, pressing key i and, unless it is the last, pausing gives exactly the steps of the first i+1 keys |
| KeyDispatch.ExecuteShortcut | src/core/shortcuts.ts:1079-1092 | the loop dispatches the sequential trace, each key on the element then focused; a non-sequential shortcut is one press of `keys[0]` with its modifiers |
| KeyDispatch.CommandKExample | src/core/shortcuts.ts:1097-1146 | cmd+k gives metaKey on a Mac and ctrlKey elsewhere, with code `KeyK` |
| KeyDispatch.QuestionMarkExample | src/core/shortcuts.ts:1101-1116 | `?` is sent with shift and the code `Slash` |
| Js.MessageOr | src/entrypoints/background.ts:175-181 | `error.message` for an Error, and otherwise the fallback text |
| Js.Trim | src/entrypoints/offscreen/main.ts:546 | the result is an infix of the input with no whitespace at either end, and it is empty iff the input is all whitespace |
| Js.TrimDropsOnlyWhiteSpace | src/entrypoints/offscreen/main.ts:546 | everything `trim` drops, before and after the result, is whitespace |
| Js.TrimIdempotent | src/entrypoints/offscreen/main.ts:555 | trimming twice is trimming once |
| Js.ToLower | src/entrypoints/content/index.tsx:129-130 | lower-cases each character and keeps the length |
| Js.IndexOf | src/entrypoints/offscreen/main.ts:617 | the first position of the character, or none iff it is absent |
| OrderedMaps.Get | scripts/generate-embeddings.ts:49-53 | lookup finds the stored value, or none iff the key is absent |
| OrderedMaps.GetAt | src/entrypoints/offscreen/main.ts:720-727 | with distinct keys, every stored pair is found under its key |
| OrderedMaps.SetKeys | scripts/generate-embeddings.ts:49 | assigning keeps the key order; a new key goes last |
| OrderedMaps.SetGet | scripts/generate-embeddings.ts:49 | after assigning, the key reads the new value and other keys are unchanged |
| OrderedMaps.SetNew | scripts/generate-embeddings.ts:49 | assigning a new key appends one pair |
| OrderedMaps.SetDistinct | scripts/generate-embeddings.ts:49 | assigning keeps the keys distinct |
| Config.DefaultSettings | src/config.ts:126-133 | the defaults are the `DEFAULTS` constants |
| Config.Merge | src/entrypoints/background.ts:245-251 | `{ ...base, ...over }`: every field present in `over` wins, and every absent one keeps the base value |
| Config.Whole | src/entrypoints/background.ts:245-251 | full settings as a partial object that sets every field |
| Messages.Ok | src/entrypoints/background.ts:205-207 | a successful response carries no error |
| Messages.Fail | src/entrypoints/background.ts:175-181 | a failed response carries its error text |
| Messages.ProgressMessage | src/entrypoints/offscreen/main.ts:188-205 | a `MODEL_PROGRESS` message with the model type, the rounded progress and the status |
| Messages.RoundPercent | src/entrypoints/offscreen/main.ts:198 | rounding keeps a percentage within [0, 100] |
| Speech.StripDataUrlPrefix | src/entrypoints/offscreen/main.ts:617 | input without a comma is unchanged, and the result has no comma |
| Speech.StripDataUrl | src/entrypoints/offscreen/main.ts:617 | `header,payload` gives back the payload |
| Speech.ByteOf | src/entrypoints/offscreen/main.ts:620-624 | a character below 256 is its own byte |
| Speech.BinaryBytes | src/entrypoints/offscreen/main.ts:620-624 | one byte per character, in order |
| Speech.BinaryToBytes | src/entrypoints/offscreen/main.ts:620-624 | the loop fills a fresh array with exactly those bytes |
| Speech.TextOf | src/entrypoints/offscreen/main.ts:546 | the plain-string output, the `text` field, or "" |
| Speech.SpecialCount | src/entrypoints/offscreen/main.ts:640-645 | counts the characters outside `[a-zA-Z0-9\s]`; zero iff there are none |
| Speech.CalculateConfidence | src/entrypoints/offscreen/main.ts:632-652 | the score is in [0, 1]; it is 0 iff the text is empty; 0.8 iff at least five characters with at most 30% special, 0.6 iff fewer than five with at most 30% special, 0.5 iff at least five with more than 30% special, 0.3 iff fewer than five with more than 30% special |
| Matching.DotSymmetric | src/entrypoints/offscreen/main.ts:476-480 | the dot product is symmetric |
| Matching.NonZeroProduct | src/entrypoints/offscreen/main.ts:486 | two non-zero norms have a non-zero product |
| Matching.NormOfZero | src/entrypoints/offscreen/main.ts:482-484 | a zero vector has squared norm 0 |
| Matching.Cosine | src/entrypoints/offscreen/main.ts:467-487 | 0 for vectors of different lengths or with a zero norm; otherwise the similarity times the product of the two roots is the dot product |
| Matching.CosineSymmetric | src/entrypoints/offscreen/main.ts:467-487 | cosine similarity is symmetric |
| Matching.CosineDegenerate | src/entrypoints/offscreen/main.ts:468-470 | different lengths, or a zero vector, give 0 |
| Matching.CosineSelf | src/entrypoints/offscreen/main.ts:467-487 | a non-zero vector has similarity 1 with itself, given an exact root |
| Matching.CosineSimilarity | src/entrypoints/offscreen/main.ts:467-487 | the accumulator loop computes the cosine specification |
| Matching.FirstMax | src/entrypoints/offscreen/main.ts:720-727 | the first index of a greatest value, so a later tie does not replace it |
| Matching.Similarities | src/entrypoints/offscreen/main.ts:720-723 | one similarity per index entry, in index order |
| Matching.MatchOf | src/entrypoints/offscreen/main.ts:730-741 | a match iff some similarity reaches 0.65; it is the greatest, its confidence is that similarity, and its id and trigger come from the same entry |
| Matching.BestMatch | src/entrypoints/offscreen/main.ts:704-746 | `findEmbeddingMatch`'s loop computes `MatchOf` of the similarities |
| Matching.IntentSound | src/entrypoints/offscreen/main.ts:674-699 | `processIntent` names a shortcut only at or above the threshold, for an entry of the index, and only with an embedder and an index; its confidence is the greatest similarity over the index; every other outcome is `{null, 0}` |
| Matching.Intent | src/entrypoints/offscreen/main.ts:674-699 | blank text, a missing embedder or a missing index give `{null, 0}`; a named shortcut has confidence at least 0.65 and a matched trigger |
| Matching.IntentOfTrimmed | src/entrypoints/offscreen/main.ts:680-699 | an empty text, a missing embedder or index, a failed embedding, or no match give `{null, 0}`; a named shortcut has confidence at least 0.65 |
| Matching.IntentIgnoresSurroundingSpace | src/entrypoints/offscreen/main.ts:678-680 | surrounding whitespace does not change the intent |
| Matching.ProcessIntent | src/entrypoints/offscreen/main.ts:674-699 | the method computes the intent specification |
| EmbeddingIndex.KeyInjective | scripts/generate-embeddings.ts:47 | for ids without `:`, the key `${id}:${trigger}` determines both the id and the trigger |
| EmbeddingIndex.TriggersOf | scripts/generate-embeddings.ts:38 | one (id, trigger) pair per voice trigger, in order |
| EmbeddingIndex.Pairs | scripts/generate-embeddings.ts:37-38 | the catalogue's (id, trigger) pairs, as many as it has voice triggers in all |
| EmbeddingIndex.PairsOfShortcut | scripts/generate-embeddings.ts:37-38 | a pair is visited iff its trigger belongs to a catalogue shortcut with that id |
| EmbeddingIndex.PairsAppend | scripts/generate-embeddings.ts:37-38 | the pairs of a concatenation are the concatenated pairs |
| EmbeddingIndex.BuildSnoc | src/entrypoints/offscreen/main.ts:396-405 | building one more pair assigns its key in the index built so far |
| EmbeddingIndex.Build | src/entrypoints/offscreen/main.ts:385-413 | a failed build fails with the error of embedding one of the pairs' triggers |
| EmbeddingIndex.BuildFailure | src/entrypoints/offscreen/main.ts:385-413 | building fails iff embedding some trigger fails, and it fails with the first such error |
| EmbeddingIndex.BuildFailurePersists | src/entrypoints/offscreen/main.ts:385-413 | once building fails, later pairs do not change the result |
| EmbeddingIndex.BuildCoherent | scripts/generate-embeddings.ts:47-53 | every entry is stored under its own key with its trigger's embedding; keys are distinct; there are no more entries than pairs |
| EmbeddingIndex.BuildComplete | scripts/generate-embeddings.ts:37-53 | every visited pair has an entry |
| EmbeddingIndex.BuildLookup | scripts/generate-embeddings.ts:47-53 | with ids free of `:`, each pair's key holds exactly that pair's entry |
| EmbeddingIndex.BuildIds | scripts/generate-embeddings.ts:49-53 | every entry's id and trigger form a visited pair |
| EmbeddingIndex.VisitedNext | scripts/generate-embeddings.ts:38 | the inner loop visits one more pair |
| EmbeddingIndex.VisitedShortcut | scripts/generate-embeddings.ts:37 | finishing a shortcut has visited the pairs of the catalogue prefix |
| EmbeddingIndex.VisitedPrefix | scripts/generate-embeddings.ts:37-38 | the visited pairs are a prefix of all pairs |
| EmbeddingIndex.VisitedFailure | src/entrypoints/offscreen/main.ts:385-413 | a failure in the loop is the failure of the whole build |
| EmbeddingIndex.BuildVisitsNext | scripts/generate-embeddings.ts:38-53 | visiting the next trigger either makes the whole build fail with its error, or assigns its entry in the index built so far |
| GenerateEmbeddings.ProgressMarksMembers | scripts/generate-embeddings.ts:55-58 | a progress line is printed for count x iff 0 < x <= n and x is a multiple of 10 |
| GenerateEmbeddings.ProgressMarksShape | scripts/generate-embeddings.ts:55-58 | n/10 lines, with strictly increasing counts, none beyond n |
| GenerateEmbeddings.ProgressMarks | scripts/generate-embeddings.ts:55-58 | after n triggers there have been n/10 progress lines |
| GenerateEmbeddings.ProgressMarksStep | scripts/generate-embeddings.ts:55-58 | counting one more trigger adds a progress line exactly when the new count is a multiple of 10 |
| GenerateEmbeddings.NextTrigger | scripts/generate-embeddings.ts:38-58 | one inner-loop step: a failed embedding is the failure of the whole run; otherwise the index gains that trigger's entry and the count grows by one |
| GenerateEmbeddings.ReachedBounds | scripts/generate-embeddings.ts:37-38 | before shortcut i the pairs of the shortcuts before it are visited, and after it those of the shortcuts up to it |
| GenerateEmbeddings.EmbedShortcut | scripts/generate-embeddings.ts:38-58 | the inner loop either adds every trigger of the shortcut, keeping count and progress lines in step, or stops at the first failure, which is the whole run's |
| GenerateEmbeddings.GenerateEmbeddings | scripts/generate-embeddings.ts:15-70 | success iff every trigger embeds; then the snapshot holds the index built from every (id, trigger) pair in catalogue order, with `count` equal to the number of pairs and the model name, and the progress lines are the multiples of 10; a failure is the first trigger's error |
| Offscreen.ComputeEmbeddings | src/entrypoints/offscreen/main.ts:385-413 | the nested loop computes the index specification, or the first error |
| OffscreenModel.GpuCheck | src/entrypoints/offscreen/main.ts:160-183 | `verifyWebGPU` throws unless an adapter is found |
| OffscreenModel.CallbackMessages | src/entrypoints/offscreen/main.ts:244-253 | each progress callback sends at most one message |
| OffscreenModel.Silence | src/entrypoints/offscreen/main.ts:270 | the warm-up buffer has 16000 samples |
| OffscreenModel.AsrStep | src/entrypoints/offscreen/main.ts:235-280 | the embedding fields and the index are untouched; success records the requested model with a pipeline and ends with a 100% "ready" or "already loaded" message; an error only arises when a load was needed; the first message is about the speech model |
| OffscreenModel.EmbeddingStep | src/entrypoints/offscreen/main.ts:283-333 | the speech fields are untouched; success records the requested model with a pipeline and ends with a 100% "ready" or "already loaded" message; an error only arises when a load was needed; the first message is about the embedding model |
| OffscreenModel.InitializeMatching | src/entrypoints/offscreen/main.ts:418-441 | only the index changes; with an embedding pipeline it is set; without one, or with a snapshot, it cannot fail; a failure is the error of embedding one of the catalogue's triggers |
| OffscreenModel.LoadFailed | src/entrypoints/offscreen/main.ts:340-353 | the state is kept, the reply is `{success:false}` with the error's message or "Failed to load models", and two progress messages follow the earlier ones, one per model, both showing the error |
| OffscreenModel.LoadModels | src/entrypoints/offscreen/main.ts:218-354 | success iff the reply is `{success:true}`; on success both requested models are current; without WebGPU the state is kept and exactly the two error messages are sent |
| OffscreenModel.Heard | src/entrypoints/offscreen/main.ts:520-546 | text is heard iff decoding the base64, decoding the audio and recognition all succeed; a base64 failure is returned as it is |
| OffscreenModel.Transcribe | src/entrypoints/offscreen/main.ts:503-594 | a success carries no error and a non-empty transcription; a failure carries an error and no data; without a speech pipeline the reply is "ASR model not loaded" |
| OffscreenModel.ModelName | src/entrypoints/offscreen/main.ts:568 | `currentASRModel \|\| "unknown"`: the model name when it is present and non-empty, and "unknown" otherwise |
| OffscreenProperties.AsrStepEffect | src/entrypoints/offscreen/main.ts:235-280 | the speech step touches only the speech fields; when the model is already loaded it changes nothing; a failed load keeps the state and returns its error; a successful one records the pipeline and the model, which stay recorded when the warm-up then fails with its error |
| OffscreenProperties.EmbeddingStepEffect | src/entrypoints/offscreen/main.ts:283-333 | the same for the embedding step; after a successful load the state and error are those of `initializeMatching` on the loaded state |
| OffscreenProperties.LoadModelsResult | src/entrypoints/offscreen/main.ts:218-354 | success iff no error; on success both requested models are current; on failure the reply is `{success:false, error}` and both progress messages are 0 with the error; without WebGPU the state is unchanged |
| OffscreenProperties.LoadModelsConsistent | src/entrypoints/offscreen/main.ts:218-354 | a pipeline is present iff its model name is, and an index only with an embedding pipeline |
| OffscreenProperties.LoadModelsIdempotent | src/entrypoints/offscreen/main.ts:235-236 | after a successful load, repeating it with the same ids loads nothing, sends only "already loaded" messages and leaves the state as it was |
| OffscreenProperties.FailedIndexIsNotRetried | src/entrypoints/offscreen/main.ts:283-333 | when building the index fails once, a repeat call keeps the pipeline, reports success and still has no index |
| OffscreenProperties.ProgressMessagePercent | src/entrypoints/offscreen/main.ts:188-205 | a progress message for a percentage carries a percentage |
| OffscreenProperties.LoadingMessagesPercent | src/entrypoints/offscreen/main.ts:244-253 | callbacks reporting percentages yield percentage messages |
| OffscreenProperties.AsrStepPercent | src/entrypoints/offscreen/main.ts:235-280 | the speech step sends only percentages |
| OffscreenProperties.EmbeddingStepPercent | src/entrypoints/offscreen/main.ts:283-333 | the embedding step sends only percentages |
| OffscreenProperties.LoadFailedPercent | src/entrypoints/offscreen/main.ts:340-353 | the catch block sends percentages |
| OffscreenProperties.LoadModelsSendsPercentages | src/entrypoints/offscreen/main.ts:218-354 | every progress value sent while loading is in [0, 100] |
| OffscreenProperties.LoadedIndexFindsEveryTrigger | src/entrypoints/offscreen/main.ts:396-405 | after a successful load without a snapshot, every trigger of the catalogue is in the index under `${id}:${trigger}` with its own id, trigger and embedding |
| OffscreenProperties.TranscribeResponse | src/entrypoints/offscreen/main.ts:503-594 | "ASR model not loaded" without a pipeline; the error's message or "Transcription failed" when decoding or recognition fails; "No speech detected" for blank text; otherwise the trimmed text, the confidence of the untrimmed text (in (0, 1]), the model name or "unknown", and the intent |
| Offscreen.OffscreenDocument.constructor | src/entrypoints/offscreen/main.ts:64-79 | all five state variables start empty |
| Offscreen.OffscreenDocument.LoadPrecomputedEmbeddings | src/entrypoints/offscreen/main.ts:359-380 | the snapshot's entries, or none |
| Offscreen.OffscreenDocument.InitializeMatching | src/entrypoints/offscreen/main.ts:418-441 | the new state is `initializeMatching`'s specification of the old one |
| Offscreen.OffscreenDocument.LoadAsrModel | src/entrypoints/offscreen/main.ts:235-280 | the new state, the messages and the error are the speech step's |
| Offscreen.OffscreenDocument.LoadEmbeddingModel | src/entrypoints/offscreen/main.ts:283-333 | the new state, the messages and the error are the embedding step's |
| Offscreen.OffscreenDocument.HandleLoadModels | src/entrypoints/offscreen/main.ts:218-354 | the new state, the response and the messages are `LoadModels` of the old state |
| Offscreen.OffscreenDocument.HandleTranscribe | src/entrypoints/offscreen/main.ts:503-594 | the response is `Transcribe` of the current state |
| Offscreen.OffscreenDocument.OnMessage | src/entrypoints/offscreen/main.ts:90-151 | LOAD_MODELS and TRANSCRIBE are answered asynchronously with the handler's response; any other type throws and is not answered |
| OffscreenLogger.SerializeArg | src/utils/offscreen-logger.ts:75-99 | primitives pass unchanged, and an Error becomes an error record |
| OffscreenLogger.DeserializeArg | src/utils/offscreen-logger.ts:104-125 | anything other than an error record passes unchanged, and a record becomes an Error |
| OffscreenLogger.ErrorRecordFields | src/utils/offscreen-logger.ts:80-87 | an Error serialises to `{__error: true, name, message, stack}` |
| OffscreenLogger.DeserializeRecord | src/utils/offscreen-logger.ts:104-123 | a record deserialises to an Error with its name and message |
| OffscreenLogger.StringPropOf | src/utils/offscreen-logger.ts:111-118 | a string property is read back as it is |
| OffscreenLogger.StackPropOf | src/utils/offscreen-logger.ts:119-121 | the stack is copied only when it is a non-empty string |
| OffscreenLogger.ErrorRoundTrip | src/utils/offscreen-logger.ts:75-123 | an Error survives the round trip with its name and message, and with its stack when that is non-empty |
| OffscreenLogger.PrimitiveRoundTrip | src/utils/offscreen-logger.ts:75-125 | a primitive survives the round trip unchanged |
| OffscreenLogger.Intercept | src/utils/offscreen-logger.ts:36-62 | a log message is forwarded iff the level passes the gate (dev mode, or "error"); it carries the level, the time and each argument serialised |
| OffscreenLogger.ConsoleMethod | src/utils/offscreen-logger.ts:151-166 | error, warn, info and debug go to their own console method, and anything else to `log` |
| OffscreenLogger.HandleOffscreenLog | src/utils/offscreen-logger.ts:131-169 | returns true iff the type is `OFFSCREEN_LOG`; outputs iff it is a log that passes the gate, with every argument deserialised |
| OffscreenLogger.ForwardedErrorsArrive | src/utils/offscreen-logger.ts:36-125 | a forwarded Error reaches the background as an Error with its name and message |
| Background.LoadModelsMessage | src/entrypoints/background.ts:255-262 | a model-loading request for the settings' speech and embedding models |
| Background.Setup | src/entrypoints/background.ts:30-52 | a document is created only when no offscreen context exists; the flag is set unless creation throws; a thrown error leaves the state unchanged |
| Background.EnsureReady | src/entrypoints/background.ts:57-63 | does nothing once ready; otherwise sets up the document and waits 100 ms exactly when no error occurred; ready iff no error |
| Background.GetSettings | src/entrypoints/background.ts:268-281 | the stored settings unmerged, the defaults when nothing is stored, or `{success:false}` with the storage error |
| Background.Listener | src/entrypoints/background.ts:161-186 | a settled handler keeps the channel open and replies with its result or `{success:false, error}`; a synchronous throw escapes and sends no reply |
| Background.Forward | src/entrypoints/background.ts:222-234 | the offscreen reply follows the effects of becoming ready; a setup failure rejects |
| Background.UnknownTypeUnanswered | src/entrypoints/background.ts:209-211 | as written, an unknown type such as "PING" makes the listener throw and sends no reply |
| Background.UnknownTypeAnswered | src/entrypoints/background.ts:175-181 | with a rejection, an unknown type is answered with "Unknown message type: …" |
| Background.Handle | src/entrypoints/background.ts:191-213 | as written: the listener answers iff the type has a case; an unknown type changes nothing and has no effects; only LOAD_MODELS changes the settings, and only TRANSCRIBE and LOAD_MODELS have effects |
| Background.HandleCorrected | src/entrypoints/background.ts:191-213 | with the default case rejecting, every message is handled; state and effects are those of the code, and so is the result for every known type |
| Background.AnsweredIffKnown | src/entrypoints/background.ts:161-213 | as written, a message is answered iff its type has a case, and then the corrected router agrees; otherwise the listener throws "Unknown message type: …" |
| Background.EveryMessageAnswered | src/entrypoints/background.ts:161-213 | the corrected router answers every message that is not a log, asynchronously, and an unknown type with "Unknown message type: …" |
| Background.LoadModelsForwardsSettings | src/entrypoints/background.ts:239-263 | the payload settings are merged over the current ones, and the merged settings' models are requested |
| Background.ReadyForwardsDirectly | src/entrypoints/background.ts:222-234 | once ready, a transcription request is only forwarded |
| Background.InstalledThenTranscribe | src/entrypoints/background.ts:72-123 | after a successful install, a transcription request creates no document |
| Background.InstallNotification | src/entrypoints/background.ts:98-119 | "LinearVoice Ready" iff the offscreen document reports success, and the error notification otherwise |
| Background.InstallNotificationAsWritten | src/entrypoints/background.ts:98-119 | as written, "LinearVoice Ready" iff the reply arrives at all, and the error notification iff sending rejects |
| Background.Installed | src/entrypoints/background.ts:72-123 | a storage failure changes nothing; a completed install has the stored settings merged over the defaults (or keeps the current ones), a ready document, and ends by requesting the models and then notifying as written |
| Background.InstalledCorrected | src/entrypoints/background.ts:72-123 | the same state and error as the code, with the last notification replaced by the one that is ready only on a successful load |
| Background.Started | src/entrypoints/background.ts:128-152 | a storage failure changes nothing; a completed startup has the stored settings merged over the defaults, a ready document, ends by requesting the models, and the request was answered |
| Background.FailedLoadAnnouncedReady | src/entrypoints/background.ts:98-119 | without WebGPU, the offscreen reply is `{success:false}`, yet the notification as written says ready; the corrected one says error |
| Background.InstallLoadsStoredModels | src/entrypoints/background.ts:72-123 | with stored settings and an existing or creatable document, the new state is the merged settings and ready; the effects are setup, the model request and one notification, which as written says ready iff any reply arrives and, corrected, iff the reply reports success |
| Background.InstallStoresSettingsFirst | src/entrypoints/background.ts:77-83 | with nothing stored, the current settings are saved before anything else |
| Background.InstallAndStartupAgree | src/entrypoints/background.ts:128-152 | install and startup take in stored settings alike and request the same models |
| Background.ServiceWorker.constructor | src/entrypoints/background.ts:20-21 | the default settings, not ready |
| Background.ServiceWorker.SetupOffscreenDocument | src/entrypoints/background.ts:30-52 | the new state and effects are `Setup` of the old state |
| Background.ServiceWorker.EnsureOffscreenReady | src/entrypoints/background.ts:57-63 | the new state and effects are `EnsureReady` of the old state |
| Background.ServiceWorker.ForwardToOffscreen | src/entrypoints/background.ts:222-234 | the new state and effects are `Forward` of the old state |
| Background.ServiceWorker.HandleMessage | src/entrypoints/background.ts:191-213 | the new state, the effects and the outcome are `Handle` of the old state, so an unknown type throws |
| Background.ServiceWorker.OnMessage | src/entrypoints/background.ts:161-186 | a log message is passed to `handleOffscreenLog` and the listener returns false; any other message is routed and replied to by the listener rule |
| Background.ServiceWorker.OnInstalled | src/entrypoints/background.ts:72-123 | the new state and effects are `Installed` of the old state, with the notification as written |
| Background.ServiceWorker.OnStartup | src/entrypoints/background.ts:128-152 | the new state and effects are `Started` of the old state |
| Content.Register | src/entrypoints/content/index.tsx:105-156 | appends a live registration for the key, keeping the earlier ones' keys |
| Content.RegisterLeavesOneLive | src/entrypoints/content/index.tsx:107-114 | after re-registration only the new listeners respond, and only to the new key |
| Content.LoadedSettings | src/entrypoints/content/index.tsx:84-96 | the stored settings over the defaults, or the defaults when nothing is stored or reading fails |
| Content.Initialised | src/entrypoints/content/index.tsx:51-56 | the settings become the loaded ones, the flags and toasts are kept, and when one registration was live the only live one afterwards is for the lower-cased new key |
| Content.SettingsChanged | src/entrypoints/content/index.tsx:59-78 | only a local change with a new value matters; it replaces the settings; the listeners change only when the key changes, and then only the new key is live; flags and toasts are kept |
| Content.KeyDown | src/entrypoints/content/index.tsx:123-142 | a session starts iff the lower-cased key is the registered one, the target is not editable and the content script is idle; then recording starts with the "release key" toast, and otherwise nothing changes |
| Content.KeyUp | src/entrypoints/content/index.tsx:145-151 | processing starts iff the key matches while recording, and otherwise nothing changes |
| Content.RecordingFailed | src/entrypoints/content/index.tsx:174-180 | recording stops, the error toast is appended, nothing else changes, and the invariant is kept |
| Content.Conclude | src/entrypoints/content/index.tsx:187-239 | a failed recording, or a failed send, ends with the error's message or "Command failed"; a shortcut is executed only for a successful transcription naming a catalogue id, and then it is that entry; "not found" only when no entry has the id |
| Content.Finish | src/entrypoints/content/index.tsx:187-243 | processing ends, the other flags and the listeners are kept, toasts are only appended, and the last one is the ending's toast |
| Content.EndingToast | src/entrypoints/content/index.tsx:207-233 | a completion toast iff the shortcut was executed, otherwise an error toast |
| Content.StepsPreserveValid | src/entrypoints/content/index.tsx:39-243 | every handler keeps three things: recording and processing never both hold, one registration is live, and it is for the lower-cased activation key |
| Content.OldKeyIgnoredAfterChange | src/entrypoints/content/index.tsx:59-78 | after the activation key changes, the old key no longer starts a session |
| Content.SessionEndsIdle | src/entrypoints/content/index.tsx:165-243 | keydown, keyup and processing end with neither flag set |
| Content.ProcessingIgnoresKeys | src/entrypoints/content/index.tsx:134 | while processing, key events change nothing |
| Content.OneFinalToast | src/entrypoints/content/index.tsx:187-243 | exactly one completion or error toast is shown, and it is the last |
| Content.ExecutedOnlyWhenFound | src/entrypoints/content/index.tsx:207-233 | a shortcut is executed only for a successful transcription whose intent names an id found in the catalogue, and then it is that entry |
| Content.FailedReplyShown | src/entrypoints/content/index.tsx:207-239 | a failed reply shows its error, or "Transcription failed" |
| Content.ContentScript.constructor | src/entrypoints/content/index.tsx:39-42 | the default settings, idle, no listeners |
| Content.ContentScript.LoadSettings | src/entrypoints/content/index.tsx:84-96 | the settings become `LoadedSettings` |
| Content.ContentScript.SetupKeyboardListener | src/entrypoints/content/index.tsx:105-156 | aborts the previous registration and registers the lower-cased key |
| Content.ContentScript.Init | src/entrypoints/content/index.tsx:51-79 | the new state is `Initialised` of the old one |
| Content.ContentScript.OnSettingsChanged | src/entrypoints/content/index.tsx:59-78 | the new state is `SettingsChanged` of the old one |
| Content.ContentScript.OnKeyDown | src/entrypoints/content/index.tsx:123-142 | the new state is `KeyDown` of the old one; the result says whether a session started |
| Content.ContentScript.OnRecordingFailed | src/entrypoints/content/index.tsx:174-180 | recording is cleared and an error toast shown |
| Content.ContentScript.OnKeyUp | src/entrypoints/content/index.tsx:145-151 | the new state is `KeyUp` of the old one; the result says whether processing started |
| Content.ContentScript.Conclusion | src/entrypoints/content/index.tsx:207-233 | the ending is `Conclude`, and the shortcut's key trace is dispatched exactly when it is executed |
| Content.ContentScript.FinishVoiceCommand | src/entrypoints/content/index.tsx:187-243 | sends the recording, shows the toasts, ends idle, and dispatches the executed shortcut's trace |
| PopupProgress.InitialProgress | src/hooks/use-model-progress.ts:11-21 | both models start at 0 with "Checking..." |
| PopupProgress.Received | src/hooks/use-model-progress.ts:25-42 | only a progress message with a numeric progress and a non-empty status changes a record, and only the record of its model type |
| PopupProgress.ReceivedAllAppend | src/hooks/use-model-progress.ts:25-42 | receiving two runs of messages is receiving their concatenation |
| PopupProgress.StatusChecked | src/hooks/use-model-progress.ts:51-73 | a failed request sets both records to 0 with "Error checking status"; a sent request changes nothing |
| PopupProgress.StatusRequest | src/hooks/use-model-progress.ts:55-58 | the request is LOAD_MODELS carrying the popup's settings |
| PopupProgress.ReadyExcludesLoading | src/hooks/use-model-progress.ts:75-78 | `modelsReady` implies not `isLoading`; with percentages, exactly one holds |
| PopupProgress.LoadingMessagesFor | src/entrypoints/offscreen/main.ts:244-253 | a model's loading messages speak only of that model |
| PopupProgress.ReceivedOthers | src/hooks/use-model-progress.ts:29-40 | messages for the embedding model leave the speech record alone |
| PopupProgress.RoundWhole | src/entrypoints/offscreen/main.ts:198 | 0 and 100 are sent as they are |
| PopupProgress.AsrStepEndsAtHundred | src/entrypoints/offscreen/main.ts:235-280 | a successful speech step leaves its record at 100 |
| PopupProgress.EmbeddingStepEndsAtHundred | src/entrypoints/offscreen/main.ts:283-333 | a successful embedding step leaves its record at 100 and speaks only of the embedding model |
| PopupProgress.EmbeddingStepMessagesFor | src/entrypoints/offscreen/main.ts:283-333 | every message of the embedding step, successful or not, is about the embedding model |
| PopupProgress.SuccessfulLoadShowsReady | src/hooks/use-model-progress.ts:75-78 | after a successful load, the messages leave the popup ready and not loading |
| PopupProgress.LoadFailedShowsError | src/entrypoints/offscreen/main.ts:340-353 | the catch block's two messages leave both records at 0 with the error, so the popup is loading |
| PopupProgress.FailedLoadShowsError | src/entrypoints/offscreen/main.ts:340-353 | after a failed load, both records are at 0 with the error, and the popup is loading |
| PopupProgress.ProgressHook.constructor | src/hooks/use-model-progress.ts:11-21 | the initial records |
| PopupProgress.ProgressHook.OnMessage | src/hooks/use-model-progress.ts:25-42 | the records become `Received` of the old ones |
| PopupProgress.ProgressHook.CheckModelStatus | src/hooks/use-model-progress.ts:51-73 | sends the request, and the records become `StatusChecked` of the old ones |
| PopupProgress.ProgressHook.IsLoading | src/hooks/use-model-progress.ts:75-76 | holds iff either progress is below 100 |
| PopupProgress.ProgressHook.ModelsReady | src/hooks/use-model-progress.ts:75-78 | holds iff both progress values are 100, and then `isLoading` is false |

## Left out

- Floating point: similarities, norms, confidence and progress are reals.
  `Math.sqrt` is a parameter, assumed only to be non-zero on non-zero input.
  NaN, infinities and Float32 rounding are not modelled. `Math.round` is
  `Messages.Round`, the floor of x + 0.5, which is what `Math.round` computes
  for finite x. Norm non-negativity is not proved.
- The speech and embedding models, `atob`, audio decoding, JSON cloning and
  printing numbers are parameters. The WebGPU probe is an input.
- Browser plumbing is modelled as effects (document creation, waits, messages,
  storage writes, notifications) or as inputs (offscreen contexts, stored
  settings, storage changes, replies). This covers `chrome.runtime`
  messaging, `chrome.offscreen`, `chrome.storage` and `chrome.notifications`.
  The notification icon URL is left out.
- Timing is left out: `performance.now`, `devLog`, and all console output
  other than the forwarded logs. The generator's file writing and its size
  report are left out too. `initOffscreenLogger`'s patching of `console` is
  reduced to `Intercept`, one call per level.
- Concurrency: each handler is one atomic step. The content script splits at
  its awaits (keydown, recording failure, keyup, finish). These are not
  modelled:
  - two overlapping `ensureOffscreenReady` calls creating two documents;
  - a message sent before a new document's listener is registered;
  - concurrent model loads.
- Offscreen.OffscreenDocument.OnMessage: requires a LOAD_MODELS message to
  carry model ids. Messages are broadcast, so the popup's `{settings}`
  request and the content script's TRANSCRIBE also reach the offscreen
  document. There the request's missing ids are `undefined`, and the duplicate
  replies race with the background's; neither case is modelled.
- Content.ContentScript.FinishVoiceCommand: takes the reply as a response. An
  `undefined` reply, when no listener answers, is not modelled. The
  storage-change value is taken as full settings, as the code casts it.
- Catalogue: every entry is proved to have non-empty keys, and every
  non-sequential entry exactly one key (the `Entry` subtype). These are not
  proved of the literal: distinct ids, and no `:` in any id.
  `EmbeddingIndex.BuildLookup` and
  `OffscreenProperties.LoadedIndexFindsEveryTrigger` take the absence of `:`
  as a precondition.
- Shortcuts.FindShortcutById and Shortcuts.AllShortcuts are stated over the
  literal but carry no contract of their own; their properties are those of
  `Catalogue.Find` over any catalogue. The content script and the offscreen
  document take the catalogue as a constructor parameter (`Shortcuts.All` in
  the extension) to keep the proofs over it small.
- KeyDispatch.KeyCode: the special-key table is a finite map, so a key that
  names a property every JavaScript object inherits (`constructor`,
  `toString`, …) is passed through. In the code `specialKeys[key]` finds the
  inherited function for such a key. No catalogue shortcut uses one of these keys.
- OffscreenLogger.DeserializeArg: the rebuilt error's name and message are
  read with `StringProp`, which turns a non-string field into its display
  string. The code assigns `errorData.name` as it is, and the `Error`
  constructor converts only the message, so a non-string name stays a
  non-string. Likewise a truthy stack that is not a string becomes its display
  string in the model (`StackProp`), while the code assigns it as it is.
  Records that `serializeArg` makes always have string fields.
- `navigator.platform` and its Mac test (src/core/shortcuts.ts:1074) are an
  input: every dispatch takes `isMac` as a parameter.
- Strings are sequences of characters. UTF-16 code units, and `toLowerCase`
  outside ASCII, are not modelled.
- The snapshot is used whichever embedding model is requested, as in the code.
- OffscreenProperties.FailedIndexIsNotRetried records the code's behaviour: a
  failed index build leaves a loaded pipeline without an index, and later
  loads do not retry it.
- The offscreen document's own `handleMessage` also throws synchronously for
  an unknown type. `Offscreen.OffscreenDocument.OnMessage` models that as
  written: the listener throws and sends no reply.
- Audio recording (`src/core/audio.ts`), the popup's markup, the toasts'
  rendering and React's listener registration are not part of this model.

## Findings

| source | as written | input that shows it | evidently intended | confidence | as-written member | corrected member |
|---|---|---|---|---|---|---|
| src/entrypoints/background.ts:209-211 | `handleMessage` is not `async`. Its default case throws synchronously, so the error escapes the `.catch` at lines 175-181. The listener throws and never calls `sendResponse`. | a message `{type: "PING"}` | the listener replies `{success: false, error: "Unknown message type: PING"}` | medium, not executed | Background.UnknownTypeUnanswered | Background.EveryMessageAnswered |
| src/entrypoints/background.ts:98-119 | the "LinearVoice Ready" notification is shown for any reply. The offscreen document reports a failed load as a resolved `{success: false}` (src/entrypoints/offscreen/main.ts:340-353), not as a rejection. | installing on a browser without WebGPU | show the error notification unless the reply has `success: true` | medium, not executed | Background.FailedLoadAnnouncedReady | Background.InstalledCorrected |
