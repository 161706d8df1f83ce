# Speech recognition session: a Dafny model

This project models the core of a dictation web app. A user speaks, a
platform recognition engine returns results, and the app keeps an
editable, ordered transcript of what was said.

The model follows the code module by module:

- `RecognitionContext` (`recognition_context.dfy`) is the recognition context. It holds the ordered
  transcript, the session status (`idle | listening | processing | error`),
  the settings and the audio level. Each command is a pure function on the
  old value: append, toggle favourite, delete by id, undo last, clear,
  partial settings merge and the level clamp. A `RecognitionProvider` class
  applies these functions to its fields. Its invariant is that ids stay
  unique and the level stays in [0, 1].
- `SpeechRecognition` (`speech_recognition.dfy`) is the `useSpeechRecognition` hook. It has
  `listening`/`supported` flags around one recognition object. That
  `Engine` is modelled by its configuration fields, `start`/`stop` call
  counters, and whether its `onend` handler restarts it. Results are
  normalised to `{isFinal, transcript}`.
- `TextBox` (`text_box.dfy`) is the dictation text box. It turns a result batch into a
  sent final text or a space-prefixed interim preview, and it has
  trim-and-send rules.
- `CombinedTranscript`, `RecognitionButton`, `ControlPanel` and
  `TranscriptItemCard` are the view decision rules. They cover the
  space-joined combined text with its undo wiring, the record button's
  toggle, disabled state, icon and style priorities, the two mutually
  exclusive pop-overs, the language label, and the three confidence bands.
- `Types` holds the shared records. `Strings` models the JavaScript
  built-ins the code relies on (`trim`, `split(sep)[0]`, `toUpperCase`,
  `join`).

Behaviour of the code that the model keeps as written:

- Only one recognition object is ever created, and only the `not-allowed`
  error is treated specially. Every committed item has confidence 0.95.
- `autoDetectLanguage` is a setting that nothing reads.
- `startListening` sets `listening` and requests a start even when already
  listening. `stopListening` sets `idle` from any status.
- `handleEnd` moves `error` back to `idle`, so the error status clears
  without a new start.

## Model

| member | source | states |
|---|---|---|
| `RecognitionContext.ToggleFavorite` | src/context/RecognitionContext.tsx:166-168 | same length and order; exactly the items with the given id have `isFavorite` flipped, every other item and every other field is unchanged |
| `RecognitionContext.ToggleFavoriteTwice` | src/context/RecognitionContext.tsx:166-168 | toggling the same id twice is the identity |
| `RecognitionContext.ToggleFavoriteAbsent` | src/context/RecognitionContext.tsx:166-168 | toggling an id no item carries leaves the list unchanged |
| `RecognitionContext.ToggleFavoriteOne` | src/context/RecognitionContext.tsx:166-168 | with unique ids, toggling item k's id flips item k and nothing else |
| `RecognitionContext.ToggleFavoriteKeepsIds` | src/context/RecognitionContext.tsx:166-168 | ids and texts stay in place, so ids stay unique |
| `RecognitionContext.Delete` | src/context/RecognitionContext.tsx:170-172 | an item survives iff it was present and its id differs; the length drops by the number of items carrying the id |
| `RecognitionContext.DeleteAppend` | src/context/RecognitionContext.tsx:170-172 | deletion distributes over concatenation, so survivors keep their original order |
| `RecognitionContext.DeleteAbsent` | src/context/RecognitionContext.tsx:170-172 | deleting an absent id leaves the list unchanged |
| `RecognitionContext.DeleteOne` | src/context/RecognitionContext.tsx:170-172 | with unique ids, deleting item k's id yields exactly the list without item k |
| `RecognitionContext.DeleteKeepsUniqueIds` | src/context/RecognitionContext.tsx:170-172 | deletion keeps ids unique |
| `RecognitionContext.DeleteIdempotent` | src/context/RecognitionContext.tsx:170-172 | deleting the same id twice equals deleting it once |
| `RecognitionContext.UndoLast` | src/context/RecognitionContext.tsx:174-176 | an empty list stays empty; otherwise the result plus the old last item is the old list ([A,B,C] gives [A,B]) |
| `RecognitionContext.UndoLastAfterAppend` | src/context/RecognitionContext.tsx:174-176 | undo after a commit gives back the list from before the commit |
| `RecognitionContext.UndoLastKeepsUniqueIds` | src/context/RecognitionContext.tsx:174-176 | undo keeps ids unique |
| `RecognitionContext.AppendKeepsUniqueIds` | src/context/RecognitionContext.tsx:53-63 | committing an item with a fresh id keeps ids unique |
| `RecognitionContext.MergeSettings` | src/context/RecognitionContext.tsx:162-164 | each field present in the partial object is overwritten; each absent field keeps its old value |
| `RecognitionContext.MergeSettingsIdempotent` | src/context/RecognitionContext.tsx:162-164 | applying the same partial settings twice equals applying them once |
| `RecognitionContext.MergeSettingsNoChange` | src/context/RecognitionContext.tsx:162-164 | the empty partial object changes nothing |
| `RecognitionContext.ClampLevel` | src/context/RecognitionContext.tsx:115-117 | the published level is in [0, 1]; it equals the input inside that range, 0 below it and 1 above it |
| `RecognitionContext.RecognitionProvider.constructor` | src/context/RecognitionContext.tsx:25-51 | starts with an empty transcript, status idle, level 0 and the defaults fa-IR, continuous, interim results, 1 alternative, no auto-detect |
| `RecognitionContext.RecognitionProvider.HandleResult` | src/context/RecognitionContext.tsx:53-66 | adds one item at the tail and keeps earlier items; the new item has the given id, text and timestamp, confidence 0.95 and is not a favourite; its language is the detected language when that is non-empty, else the settings' language; ids stay unique |
| `RecognitionContext.RecognitionProvider.HandleError` | src/context/RecognitionContext.tsx:68-71 | the status becomes error and nothing else changes |
| `RecognitionContext.RecognitionProvider.HandleEnd` | src/context/RecognitionContext.tsx:73-76 | the status becomes idle and the level 0 |
| `RecognitionContext.RecognitionProvider.StartListening` | src/context/RecognitionContext.tsx:148-151 | the status becomes listening and one call to the recognition start function is recorded; nothing else changes |
| `RecognitionContext.RecognitionProvider.StopListening` | src/context/RecognitionContext.tsx:153-156 | recognition is stopped once and the status becomes idle |
| `RecognitionContext.RecognitionProvider.ClearTranscript` | src/context/RecognitionContext.tsx:158-160 | the transcript is empty whatever it held |
| `RecognitionContext.RecognitionProvider.UpdateSettings` | src/context/RecognitionContext.tsx:162-164 | the settings become the merge of the old settings with the partial object; nothing else changes |
| `RecognitionContext.RecognitionProvider.ToggleFavoriteItem` | src/context/RecognitionContext.tsx:166-168 | the transcript becomes its toggled form and ids stay unique |
| `RecognitionContext.RecognitionProvider.DeleteTranscriptItem` | src/context/RecognitionContext.tsx:170-172 | the transcript loses the items with the id and ids stay unique |
| `RecognitionContext.RecognitionProvider.UndoLastTranscript` | src/context/RecognitionContext.tsx:174-176 | the transcript loses its last item |
| `RecognitionContext.RecognitionProvider.PublishAudioLevel` | src/context/RecognitionContext.tsx:115-117 | the published level is the clamped sample, so it stays in [0, 1] |
| `SpeechRecognition.Engine.constructor` | src/hooks/use-speech-recognition.ts:73 | `new SpeechRecognition()`: platform configuration defaults, no start or stop yet, the restarting `onend` attached |
| `SpeechRecognition.Engine.Start` | src/hooks/use-speech-recognition.ts:56 | `start()` is recorded exactly once |
| `SpeechRecognition.Engine.Stop` | src/hooks/use-speech-recognition.ts:63 | `stop()` is recorded exactly once |
| `SpeechRecognition.ProcessResult` | src/hooks/use-speech-recognition.ts:27-33 | same count and order of results, each mapped to its `isFinal` flag and its first alternative's transcript; none when a result has no alternative |
| `SpeechRecognition.SpeechRecognitionHook.constructor` | src/hooks/use-speech-recognition.ts:68-84 | `supported` is true iff the window exists and offers the standard or the webkit-prefixed constructor, and exactly then a fresh object exists; not listening |
| `SpeechRecognition.SpeechRecognitionHook.Listen` | src/hooks/use-speech-recognition.ts:44-59 | a no-op when already listening, unsupported or without an object; otherwise sets `listening`, configures lang/interimResults/continuous/maxAlternatives with defaults "", true, false, 1, assigns grammars only when given, and starts the object exactly once |
| `SpeechRecognition.SpeechRecognitionHook.Stop` | src/hooks/use-speech-recognition.ts:61-66 | a no-op unless listening, supported and holding an object; otherwise stops the object once, clears `listening` and calls `onEnd` once |
| `SpeechRecognition.SpeechRecognitionHook.HandleError` | src/hooks/use-speech-recognition.ts:35-42 | ignored without an object; `not-allowed` disables the restarting end handler and clears `listening`; every error with an object is forwarded with its code |
| `SpeechRecognition.SpeechRecognitionHook.OnEngineEnd` | src/hooks/use-speech-recognition.ts:86-94 | the object is restarted once iff the hook is listening (the hook's invariant keeps the restarting handler attached while it listens); configuration, stops and handler are unchanged |
| `SpeechRecognition.NotAllowedStopsRestart` | src/hooks/use-speech-recognition.ts:35-42 | after a `not-allowed` error the object ending does not restart it, and the hook is not listening |
| `TextBox.FirstFinal` | src/components/text-box.tsx:18-19 | the index of the first final result, or the batch length when none is final |
| `TextBox.Interim` | src/components/text-box.tsx:24-25 | `filter(x => !x.isFinal)`: every non-final result's transcript is kept, and every kept transcript comes from a non-final result; never longer than the batch |
| `TextBox.InterimAppend` | src/components/text-box.tsx:24-25 | the filter distributes over concatenation, so kept transcripts stay in batch order |
| `TextBox.InterimOne` | src/components/text-box.tsx:24-25 | a single final result contributes nothing, a single interim result its transcript |
| `TextBox.SpacePrefixed` | src/components/text-box.tsx:23-29 | the preview's length is the sum of the transcript lengths plus one per transcript, and a non-empty preview starts with a space |
| `TextBox.SpacePrefixedIsJoin` | src/components/text-box.tsx:23-29 | a non-empty preview is one space followed by the transcripts joined by single spaces |
| `TextBox.PreviewEmpty` | src/components/text-box.tsx:23-29 | the preview is empty iff the batch holds no non-final result (an empty batch gives "") |
| `TextBox.InterimAll` | src/components/text-box.tsx:24-25 | for a batch with no final result, the filtered transcripts are all of them, in order |
| `TextBox.BuildPreview` | src/components/text-box.tsx:23-29 | the loop builds the preview of the non-final transcripts, in order, each after a single space |
| `TextBox.TextBox.constructor` | src/components/text-box.tsx:14-16 | the message starts empty, nothing is sent or reported, and the box uses the given hook |
| `TextBox.TextBox.OnResult` | src/components/text-box.tsx:17-31 | if any result is final, the first final transcript is sent and the message cleared; otherwise nothing is sent and the message becomes the interim preview |
| `TextBox.TextBox.OnChange` | src/components/text-box.tsx:58 | the message becomes the typed value |
| `TextBox.TextBox.OnEnd` | src/components/text-box.tsx:32-36 | the trimmed message is sent iff it is non-empty; the message is kept |
| `TextBox.TextBox.HandleSend` | src/components/text-box.tsx:45-50 | the trimmed message is sent and the message cleared iff the trimmed message is non-empty; otherwise nothing changes |
| `TextBox.TextBox.HandleRecord` | src/components/text-box.tsx:40-43 | when recording and the hook is listening, stops the object once and sends the trimmed message through the end handler; when not recording and the hook is idle and supported, listens with fa-IR, interim results on, continuous off, grammars kept, one start; on either no-op path the hook's `listening` and the whole object are unchanged and nothing is sent; always reports `!isRecording` |
| `TextBox.EndThenSend` | src/components/text-box.tsx:32-50 | because the end handler keeps the message, a send right after it sends the same trimmed text a second time |
| `Strings.Trim` | src/components/text-box.tsx:33-34 | the result is a slice of the input with only whitespace cut from either end; it does not start or end with whitespace; it is empty iff the input is all whitespace |
| `Strings.TrimIdempotent` | src/components/text-box.tsx:33-34 | `trim` is idempotent: a trimmed text trimmed again is unchanged |
| `Strings.BeforeFirst` | src/components/ControlPanel.tsx:40 | `split(sep)[0]`: a prefix of the input that holds no separator and ends at the first separator or at the end |
| `Strings.ToUpper` | src/components/ControlPanel.tsx:40 | `toUpperCase`: same length, each character upper-cased; no lower-case ASCII letter remains and every other character is kept |
| `Strings.ToUpperIdempotent` | src/components/ControlPanel.tsx:40 | upper-casing twice is upper-casing once |
| `Strings.Join` | src/components/CombinedTranscript.tsx:11 | `join`: "" for no strings, the string itself for one, and otherwise the total length plus one separator between neighbours |
| `CombinedTranscript.Texts` | src/components/CombinedTranscript.tsx:11 | the item texts in transcript order |
| `CombinedTranscript.CombinedText` | src/components/CombinedTranscript.tsx:11 | the item texts joined by single spaces: an empty transcript gives "", one item gives its text, and n >= 1 items give the summed text length plus n - 1 |
| `CombinedTranscript.CombinedTextAppend` | src/components/CombinedTranscript.tsx:11 | a committed item adds a single space and its text at the end of the combined text |
| `CombinedTranscript.UndoDropsLastSegment` | src/components/CombinedTranscript.tsx:11 | undo removes exactly the last segment ("A B C" becomes "A B"); a single item leaves "" |
| `CombinedTranscript.UndoNeverDisabledWhenShown` | src/components/CombinedTranscript.tsx:19-43 | the card renders iff the transcript is non-empty, so a rendered undo button is never disabled |
| `CombinedTranscript.Undo` | src/components/CombinedTranscript.tsx:42 | the button invokes `undoLastTranscript`, so the combined text loses its last segment; only the transcript of the session changes |
| `RecognitionButton.Toggle` | src/components/RecognitionButton.tsx:8-14 | a tap stops listening iff listening and starts it otherwise |
| `RecognitionButton.ButtonStyle` | src/components/RecognitionButton.tsx:16-26 | listening wins, then error, then the plain style; processing is not consulted |
| `RecognitionButton.ButtonIcon` | src/components/RecognitionButton.tsx:28-38 | processing shows the spinner, then listening the active mic, then error the crossed mic, else the idle mic |
| `RecognitionButton.AriaLabel` | src/components/RecognitionButton.tsx:45 | "Stop recording" iff listening |
| `RecognitionButton.Caption` | src/components/RecognitionButton.tsx:58 | "Listening..." iff listening |
| `RecognitionButton.DisabledExactly` | src/components/RecognitionButton.tsx:46 | disabled iff the status is processing or error, so a session in error cannot be restarted from this button |
| `RecognitionButton.StyleIgnoresProcessing` | src/components/RecognitionButton.tsx:16-26 | the style in processing is the style in idle |
| `ControlPanel.LanguageLabel` | src/components/ControlPanel.tsx:40 | the upper-cased text before the first "-" (the whole code when it has none); holds no "-" |
| `ControlPanel.DefaultLanguageLabel` | src/components/ControlPanel.tsx:40 | the default language fa-IR is labelled "FA" |
| `ControlPanel.SelectLanguageChangesOnlyLanguage` | src/components/ControlPanel.tsx:70-73 | merging a language-only partial object changes the language and nothing else |
| `ControlPanel.ControlPanel.constructor` | src/components/ControlPanel.tsx:16-17 | both pop-overs start closed |
| `ControlPanel.ControlPanel.ToggleLanguageSelector` | src/components/ControlPanel.tsx:19-22 | flips the language pop-over and forces settings closed, so the two are never open together |
| `ControlPanel.ControlPanel.ToggleSettings` | src/components/ControlPanel.tsx:24-27 | flips the settings pop-over and forces the language pop-over closed |
| `ControlPanel.ControlPanel.SelectLanguage` | src/components/ControlPanel.tsx:70-73 | sets the language setting, keeps the other settings, and closes the selector |
| `ControlPanel.ControlPanel.SetContinuous` | src/components/ControlPanel.tsx:88 | `continuous` becomes the checked value and no other setting changes |
| `ControlPanel.ControlPanel.SetInterimResults` | src/components/ControlPanel.tsx:98 | `interimResults` becomes the checked value and no other setting changes |
| `ControlPanel.ControlPanel.SetMaxAlternatives` | src/components/ControlPanel.tsx:105-113 | `maxAlternatives` becomes the chosen option, always in 1..5, and no other setting changes |
| `ControlPanel.ControlPanel.ClearAll` | src/components/ControlPanel.tsx:55-58 | reachable only while the transcript is non-empty; empties it |
| `TranscriptItemCard.ConfidenceColor` | src/components/TranscriptItem.tsx:19-23 | emerald iff confidence >= 0.8, amber iff 0.6 <= confidence < 0.8, rose iff confidence < 0.6, so every value has exactly one band |
| `TranscriptItemCard.ConfidenceColorMonotone` | src/components/TranscriptItem.tsx:19-23 | raising the confidence never moves to a lower band |
| `TranscriptItemCard.CommittedItemIsEmerald` | src/components/TranscriptItem.tsx:19-20 | every committed item (confidence 0.95) shows emerald |
| `TranscriptItemCard.FavoriteClickFlipsOnlyThisItem` | src/components/TranscriptItem.tsx:77 | the favourite button passes this item's id, which, with unique ids, flips this item alone |
| `TranscriptItemCard.DeleteClickRemovesOnlyThisItem` | src/components/TranscriptItem.tsx:86 | the delete button passes this item's id, which, with unique ids, removes this item alone and keeps the rest in order |

## Left out

- The microphone analysis pipeline (`getUserMedia`, `AudioContext`, FFT averaging, the animation-frame loop) is I/O and floating-point work. Only the clamp of the normalised level is modelled, on reals.
- The recognition engine itself is abstract. It is seen only through its configuration, its `start`/`stop` counts and its end handler. Its defaults (`lang` "", no interim results, not continuous, 1 alternative) are assumed platform values.
- `useEventCallback`, React effect timing and stale closures are not modelled. The effect that re-attaches `onend` when `listening` changes is modelled as `Listen` restoring the restarting handler.
- The hook's unmount cleanup (stop and detach handlers) is not modelled.
- The context and the hook are not composed. The context destructures `isListening`, `start`, `stop`, `transcript`, `error` and `detectedLanguage`, but the hook returns only `listen`, `listening`, `stop` and `supported`. `onResult` also receives an array, while the context's handler takes a text and a language. Each side is therefore modelled against its own contract.
- `RecognitionContext.RecognitionProvider.StartListening`: the `start` the context destructures is not returned by the hook, so it is `undefined`, and the call at src/context/RecognitionContext.tsx:150 throws after the status has been set to listening. The model's `recognitionStarts` counter stands for that attempted call; it does not claim that recognition starts. `recognitionStops` counts calls to the hook's real `stop`.
- The context's published `transcript`, `isListening`, `errorMessage` and `detectedLanguage` come from fields the hook does not return, so they are `undefined`; they are not modelled. The published `confidence` is the literal `0` (src/context/RecognitionContext.tsx:184) and is not modelled either.
- uuid generation and `new Date()` become parameters. The id must be fresh, which keeps ids unique.
- `console.error` in the error handlers is not modelled.
- The clipboard copy, `setTimeout`, `speechSynthesis`, `formatDistanceToNow` and the rounded percentage are not modelled.
- Purely presentational files are not modelled: the visualiser, card, header, app shell, transcript list and display, chip, theme, and the language table.
- `Strings.ToUpper` (through `Strings.UpperChar`): only maps ASCII letters. Full Unicode upper-casing (which can change the length, as with "ß") is not modelled. Every language code offered in src/components/LanguageSelector.tsx:8-23 is ASCII, so `ControlPanel.LanguageLabel` is not affected for those codes.
- `RecognitionContext.MergeSettings`: treats only absent keys as "keep". A key present with the value `undefined` would overwrite under a JavaScript spread, and that case is not modelled.
- `SpeechRecognition.ProcessResult`: the engine's `resultIndex` is ignored, as in the code. A result without alternatives, where the code throws, is `None`.
- `ControlPanel.ControlPanel.SetMaxAlternatives`: the `Number(...)` conversion of the select value is taken to give back the chosen option.
