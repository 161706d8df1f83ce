/** The `useSpeechRecognition` hook: a `listening`/`supported` state machine
    around one platform recognition object. The object is modelled by the
    configuration the hook writes into it, the number of `start` and `stop`
    calls it receives, and whether its `onend` handler is the restarting one.
    Calls the hook makes into its owner (`onEnd`, `onError`) are returned to
    the caller; the `onResult` payload is `ProcessResult`. */
module SpeechRecognition {
  import opened Types

  /** The platform recognition object (`recognition.current`). */
  class Engine {
    var lang: string
    var interimResults: bool
    var continuous: bool
    var maxAlternatives: int
    var grammars: Option<Grammar>
    var starts: nat
    var stops: nat
    /** True while `onend` is the handler that restarts a listening session;
        false once it has been replaced by the no-op handler. */
    var restartOnEnd: bool

    /** `new SpeechRecognition()` with the platform's default configuration,
        after the hook has attached its handlers. */
    constructor ()
      ensures lang == "" && !interimResults && !continuous && maxAlternatives == 1 && grammars == None
      ensures starts == 0 && stops == 0 && restartOnEnd
    {
      lang := "";
      interimResults := false;
      continuous := false;
      maxAlternatives := 1;
      grammars := None;
      starts := 0;
      stops := 0;
      restartOnEnd := true;
    }

    /** The configuration the hook writes before starting the object. */
    ghost function Config(): (string, bool, bool, int, Option<Grammar>)
      reads this
    {
      (lang, interimResults, continuous, maxAlternatives, grammars)
    }

    method Start()
      modifies this`starts
      ensures starts == old(starts) + 1
    {
      starts := starts + 1;
    }

    method Stop()
      modifies this`stops
      ensures stops == old(stops) + 1
    {
      stops := stops + 1;
    }
  }

  /** `processResult`: each engine result becomes its finality flag and the
      transcript of its first alternative, in order. `None` when some result
      has no alternative, where `result[0].transcript` throws. */
  function ProcessResult(results: seq<SpeechResult>): (r: Option<seq<RecognizedSpeech>>)
    ensures r.Some? <==> forall i :: 0 <= i < |results| ==> |results[i].alternatives| > 0
    ensures r.Some? ==> |r.value| == |results|
    ensures r.Some? ==> forall i :: 0 <= i < |results| ==>
      r.value[i].isFinal == results[i].isFinal && r.value[i].transcript == results[i].alternatives[0].transcript
  {
    if results == [] then Some([])
    else if |results[0].alternatives| == 0 then None
    else
      match ProcessResult(results[1..])
      case None => None
      case Some(rest) =>
        Some([RecognizedSpeech(results[0].isFinal, results[0].alternatives[0].transcript)] + rest)
  }

  /** The state the hook keeps across renders. */
  class SpeechRecognitionHook {
    var listening: bool
    var supported: bool
    const recognition: Engine?

    /** The hook is supported exactly when it holds a recognition object,
        and while it is listening the object's `onend` is the restarting
        handler (the effect re-attaches it whenever `listening` changes). */
    ghost predicate Valid()
      reads this, recognition
    {
      && (supported <==> recognition != null)
      && (recognition != null && listening ==> recognition.restartOnEnd)
    }

    /** First render plus the mount effect: `supported` and the object exist
        exactly when the window offers `SpeechRecognition` or
        `webkitSpeechRecognition`. */
    constructor (windowDefined: bool, hasStandard: bool, hasWebkit: bool)
      ensures Valid()
      ensures !listening
      ensures supported == (windowDefined && (hasStandard || hasWebkit))
      ensures recognition != null ==> fresh(recognition)
      ensures recognition != null ==>
        && recognition.starts == 0 && recognition.stops == 0 && recognition.restartOnEnd
    {
      listening := false;
      if windowDefined && (hasStandard || hasWebkit) {
        var engine := new Engine();
        recognition := engine;
        supported := true;
      } else {
        recognition := null;
        supported := false;
      }
    }

    /** `listen(options)`: a no-op while listening, when unsupported or
        without an object; otherwise configures the object (missing options
        default to `""`, `true`, `false`, `1`; `grammars` only when given)
        and starts it once. The changed `listening` re-runs the effect that
        attaches the restarting `onend` handler. */
    method Listen(options: ListenOptions)
      requires Valid()
      modifies this`listening, recognition
      ensures Valid()
      ensures old(listening) || !supported || recognition == null ==>
        listening == old(listening) && (recognition != null ==> unchanged(recognition))
      ensures !old(listening) && supported && recognition != null ==>
        && listening
        && recognition.lang == options.lang.GetOr("")
        && recognition.interimResults == options.interimResults.GetOr(true)
        && recognition.continuous == options.continuous.GetOr(false)
        && recognition.maxAlternatives == options.maxAlternatives.GetOr(1)
        && recognition.grammars == (if options.grammars.Some? then options.grammars else old(recognition.grammars))
        && recognition.starts == old(recognition.starts) + 1
        && recognition.stops == old(recognition.stops)
        && recognition.restartOnEnd
    {
      if listening || !supported || recognition == null {
        return;
      }
      listening := true;
      recognition.lang := options.lang.GetOr("");
      recognition.interimResults := options.interimResults.GetOr(true);
      recognition.continuous := options.continuous.GetOr(false);
      recognition.maxAlternatives := options.maxAlternatives.GetOr(1);
      if options.grammars.Some? {
        recognition.grammars := options.grammars;
      }
      recognition.restartOnEnd := true;
      recognition.Start();
    }

    /** `stop()`: a no-op unless listening, supported and holding an object;
        otherwise stops the object once, clears `listening` and calls `onEnd`
        once (`endCalled`). */
    method Stop() returns (endCalled: bool)
      requires Valid()
      modifies this`listening, recognition
      ensures Valid()
      ensures endCalled == (old(listening) && supported && recognition != null)
      ensures endCalled ==> !listening && recognition.stops == old(recognition.stops) + 1
      ensures !endCalled ==> listening == old(listening) && (recognition != null ==> unchanged(recognition))
      ensures recognition != null ==>
        && recognition.Config() == old(recognition.Config())
        && recognition.starts == old(recognition.starts)
        && recognition.restartOnEnd == old(recognition.restartOnEnd)
    {
      endCalled := listening && supported && recognition != null;
      if !endCalled {
        return;
      }
      recognition.Stop();
      listening := false;
    }

    /** `handleError(event)`: ignored without an object; `not-allowed`
        replaces `onend` by a no-op and clears `listening`; every other
        error leaves both alone. Each error with an object is forwarded to
        `onError` with its code (`reported`). */
    method HandleError(code: string) returns (reported: Option<string>)
      requires Valid()
      modifies this`listening, recognition
      ensures Valid()
      ensures recognition != null ==>
        && recognition.Config() == old(recognition.Config())
        && recognition.starts == old(recognition.starts)
        && recognition.stops == old(recognition.stops)
      ensures recognition == null ==> reported == None && listening == old(listening)
      ensures recognition != null ==> reported == Some(code)
      ensures recognition != null && code == "not-allowed" ==> !listening && !recognition.restartOnEnd
      ensures recognition != null && code != "not-allowed" ==>
        listening == old(listening) && recognition.restartOnEnd == old(recognition.restartOnEnd)
    {
      if recognition == null {
        return None;
      }
      if code == "not-allowed" {
        recognition.restartOnEnd := false;
        listening := false;
      }
      reported := Some(code);
    }

    /** The object's `onend`: the attached handler restarts the object
        exactly when the hook is still listening; the no-op handler, which
        is only in place while the hook is not listening, does nothing. */
    method OnEngineEnd()
      requires Valid()
      modifies recognition
      ensures Valid()
      ensures recognition != null ==>
        recognition.starts == old(recognition.starts) + (if listening then 1 else 0)
      ensures recognition != null ==>
        && recognition.Config() == old(recognition.Config())
        && recognition.stops == old(recognition.stops)
        && recognition.restartOnEnd == old(recognition.restartOnEnd)
    {
      if recognition != null && recognition.restartOnEnd && listening {
        recognition.Start();
      }
    }
  }

  /** After a `not-allowed` error, the object ending does not restart it. */
  method NotAllowedStopsRestart(hook: SpeechRecognitionHook)
    requires hook.Valid() && hook.recognition != null
    modifies hook`listening, hook.recognition
    ensures hook.recognition.starts == old(hook.recognition.starts)
    ensures !hook.listening
  {
    var reported := hook.HandleError("not-allowed");
    hook.OnEngineEnd();
  }
}
