/** Value types shared by the recognition context, the speech-recognition hook
    and the view components: `TranscriptItem`, `RecognitionSettings`,
    `RecognitionStatus`, the hook's `RecognizedSpeech` and `ListenOptions`,
    and the shape of the engine's result list. */
module Types {

  datatype Option<+T> = None | Some(value: T) {
    /** The value, or `default` when absent (a destructuring default or a spread that keeps the old key). */
    function GetOr(default: T): T {
      match this
      case Some(v) => v
      case None => default
    }
  }

  /** `RecognitionStatus`. */
  datatype Status = Idle | Listening | Processing | Error

  /** A committed utterance. `timestamp` is the clock reading taken at commit time. */
  datatype TranscriptItem = TranscriptItem(
    id: string,
    text: string,
    timestamp: int,
    language: string,
    confidence: real,
    isFavorite: bool)

  /** `RecognitionSettings`; `autoDetectLanguage` is an optional key. */
  datatype Settings = Settings(
    language: string,
    continuous: bool,
    interimResults: bool,
    maxAlternatives: int,
    autoDetectLanguage: Option<bool>)

  /** `Partial<RecognitionSettings>`: `None` is a key the object does not carry. */
  datatype PartialSettings = PartialSettings(
    language: Option<string>,
    continuous: Option<bool>,
    interimResults: Option<bool>,
    maxAlternatives: Option<int>,
    autoDetectLanguage: Option<bool>)

  /** The empty partial object `{}`. */
  const NoChange := PartialSettings(None, None, None, None, None)

  /** What the hook hands to `onResult` for one engine result. */
  datatype RecognizedSpeech = RecognizedSpeech(isFinal: bool, transcript: string)

  /** One alternative of an engine result. */
  datatype Alternative = Alternative(transcript: string, confidence: real)

  /** One entry of the engine's result list: a finality flag and its alternatives, best first. */
  datatype SpeechResult = SpeechResult(isFinal: bool, alternatives: seq<Alternative>)

  /** A grammar list handed to the engine; its contents are opaque to the hook. */
  type Grammar = string

  /** `ListenOptions`: `None` is an option the caller left out (or, for
      `grammars`, gave a falsy value). */
  datatype ListenOptions = ListenOptions(
    lang: Option<string>,
    interimResults: Option<bool>,
    continuous: Option<bool>,
    maxAlternatives: Option<int>,
    grammars: Option<Grammar>)
}
