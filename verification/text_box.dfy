/** The dictation text box: reconciles each batch of recognised speech into
    either a sent final text or an interim preview in the message field, and
    sends the trimmed message on demand and when recognition ends. */
module TextBox {
  import opened Types
  import opened Strings
  import SpeechRecognition

  /** `results.find(x => x.isFinal)`, as an index: the first final result,
      or `|results|` when there is none. */
  function FirstFinal(results: seq<RecognizedSpeech>): (k: nat)
    ensures k <= |results|
    ensures forall j :: 0 <= j < k ==> !results[j].isFinal
    ensures k < |results| ==> results[k].isFinal
  {
    if results == [] then 0
    else if results[0].isFinal then 0
    else 1 + FirstFinal(results[1..])
  }

  /** `results.filter(x => !x.isFinal)`, keeping only the transcripts. */
  function Interim(results: seq<RecognizedSpeech>): (ts: seq<string>)
    ensures |ts| <= |results|
    ensures forall i :: 0 <= i < |results| && !results[i].isFinal ==> results[i].transcript in ts
    ensures forall t :: t in ts ==>
      exists i :: 0 <= i < |results| && !results[i].isFinal && results[i].transcript == t
  {
    if results == [] then []
    else
      var last := results[|results| - 1];
      Interim(results[..|results| - 1]) + (if last.isFinal then [] else [last.transcript])
  }

  /** The filter distributes over concatenation: kept transcripts stay in
      batch order. */
  lemma {:induction false} InterimAppend(a: seq<RecognizedSpeech>, b: seq<RecognizedSpeech>)
    ensures Interim(a + b) == Interim(a) + Interim(b)
  {
    if b != [] {
      assert (a + b)[..|a + b| - 1] == a + b[..|b| - 1];
      InterimAppend(a, b[..|b| - 1]);
    } else {
      assert a + b == a;
    }
  }

  /** A final result contributes nothing; an interim one its transcript. */
  lemma InterimOne(r: RecognizedSpeech)
    ensures Interim([r]) == if r.isFinal then [] else [r.transcript]
  {
    assert [r][..0] == [];
  }

  /** The preview built from the interim transcripts: each one preceded by a single space. */
  function SpacePrefixed(ts: seq<string>): (text: string)
    ensures |text| == TotalLength(ts) + |ts|
    ensures ts != [] ==> text[0] == ' '
  {
    if ts == [] then "" else SpacePrefixed(ts[..|ts| - 1]) + " " + ts[|ts| - 1]
  }

  /** A non-empty preview is a space followed by the transcripts joined by single spaces. */
  lemma {:induction false} SpacePrefixedIsJoin(ts: seq<string>)
    requires ts != []
    ensures SpacePrefixed(ts) == " " + Join(ts, " ")
  {
    var init, last := ts[..|ts| - 1], ts[|ts| - 1];
    if |ts| > 1 {
      SpacePrefixedIsJoin(init);
      calc {
        SpacePrefixed(ts);
        SpacePrefixed(init) + " " + last;
        (" " + Join(init, " ")) + " " + last;
        " " + (Join(init, " ") + " " + last);
        " " + Join(ts, " ");
      }
    } else {
      assert init == [];
    }
  }

  /** The preview is empty exactly when the batch holds no interim result. */
  lemma PreviewEmpty(results: seq<RecognizedSpeech>)
    ensures SpacePrefixed(Interim(results)) == "" <==> Interim(results) == []
  {
  }

  /** The interim preview of a batch without final results lists every transcript. */
  lemma {:induction false} InterimAll(results: seq<RecognizedSpeech>)
    requires forall j :: 0 <= j < |results| ==> !results[j].isFinal
    ensures |Interim(results)| == |results|
    ensures forall j :: 0 <= j < |results| ==> Interim(results)[j] == results[j].transcript
  {
    if results != [] {
      var init, last := results[..|results| - 1], results[|results| - 1];
      InterimAll(init);
      var ts := Interim(results);
      assert ts == Interim(init) + [last.transcript];
      forall j | 0 <= j < |results| ensures ts[j] == results[j].transcript {
        if j < |init| {
          assert init[j] == results[j];
        }
      }
    }
  }

  /** The `forEach` loop of `onResult`: appends a space and each interim
      transcript, in order, to an initially empty text. */
  method BuildPreview(results: seq<RecognizedSpeech>) returns (text: string)
    ensures text == SpacePrefixed(Interim(results))
  {
    var pending := Interim(results);
    text := "";
    var i := 0;
    while i < |pending|
      invariant 0 <= i <= |pending|
      invariant text == SpacePrefixed(pending[..i])
    {
      assert pending[..i + 1][..i] == pending[..i];
      text := text + " " + pending[i];
      i := i + 1;
    }
    assert pending[..i] == pending;
  }

  /** The text box: the message field and its owner's callbacks, recorded as
      the messages passed to `onSend` and the flags passed to `onRecord`. */
  class TextBox {
    var message: string
    var sent: seq<string>
    var recordReports: seq<bool>
    const speech: SpeechRecognition.SpeechRecognitionHook

    constructor (speech: SpeechRecognition.SpeechRecognitionHook)
      ensures message == "" && sent == [] && recordReports == []
      ensures this.speech == speech
    {
      message := "";
      sent := [];
      recordReports := [];
      this.speech := speech;
    }

    /** `onResult(results)`: the first final result is sent and the message
        cleared; without one, the message becomes the interim preview. */
    method OnResult(results: seq<RecognizedSpeech>)
      modifies this`message, this`sent
      ensures var k := FirstFinal(results);
        if k < |results| then
          sent == old(sent) + [results[k].transcript] && message == ""
        else
          sent == old(sent) && message == SpacePrefixed(Interim(results))
    {
      var k := FirstFinal(results);
      if k < |results| {
        sent := sent + [results[k].transcript];
        message := "";
      } else {
        message := BuildPreview(results);
      }
    }

    /** `onChange`: the field shows what the user typed. */
    method OnChange(value: string)
      modifies this`message
      ensures message == value
    {
      message := value;
    }

    /** `onEnd`: the trimmed message is sent when it is not empty; the
        message itself stays. */
    method OnEnd()
      modifies this`sent
      ensures sent == old(sent) + (if Trim(message) != "" then [Trim(message)] else [])
    {
      if Trim(message) != "" {
        sent := sent + [Trim(message)];
      }
    }

    /** `handleSend`: sends the trimmed message and clears it when it is not
        empty; otherwise nothing changes. */
    method HandleSend()
      modifies this`message, this`sent
      ensures Trim(old(message)) != "" ==> sent == old(sent) + [Trim(old(message))] && message == ""
      ensures Trim(old(message)) == "" ==> sent == old(sent) && message == old(message)
    {
      if Trim(message) != "" {
        sent := sent + [Trim(message)];
        message := "";
      }
    }

    /** `handleRecord`: stops recognition when recording (the hook then calls
        this box's `onEnd`), otherwise listens in `fa-IR` with interim
        results and without continuous mode; reports `!isRecording`. */
    method HandleRecord(isRecording: bool)
      requires speech.Valid()
      modifies this`sent, this`recordReports, speech`listening, speech.recognition
      ensures speech.Valid()
      ensures recordReports == old(recordReports) + [!isRecording]
      ensures isRecording && old(speech.listening) && speech.supported ==>
        && !speech.listening
        && speech.recognition.stops == old(speech.recognition.stops) + 1
        && speech.recognition.starts == old(speech.recognition.starts)
        && speech.recognition.Config() == old(speech.recognition.Config())
        && speech.recognition.restartOnEnd == old(speech.recognition.restartOnEnd)
        && sent == old(sent) + (if Trim(message) != "" then [Trim(message)] else [])
      ensures isRecording && !(old(speech.listening) && speech.supported) ==>
        && speech.listening == old(speech.listening) && sent == old(sent)
        && (speech.recognition != null ==> unchanged(speech.recognition))
      ensures !isRecording && !old(speech.listening) && speech.supported ==>
        && speech.listening
        && speech.recognition.lang == "fa-IR"
        && speech.recognition.interimResults
        && !speech.recognition.continuous
        && speech.recognition.maxAlternatives == 1
        && speech.recognition.grammars == old(speech.recognition.grammars)
        && speech.recognition.starts == old(speech.recognition.starts) + 1
        && speech.recognition.stops == old(speech.recognition.stops)
        && speech.recognition.restartOnEnd
      ensures !isRecording && (old(speech.listening) || !speech.supported) ==>
        && speech.listening == old(speech.listening)
        && (speech.recognition != null ==> unchanged(speech.recognition))
      ensures !isRecording ==> sent == old(sent)
    {
      if isRecording {
        var endCalled := speech.Stop();
        if endCalled {
          OnEnd();
        }
      } else {
        speech.Listen(ListenOptions(Some("fa-IR"), Some(true), Some(false), None, None));
      }
      recordReports := recordReports + [!isRecording];
    }
  }

  /** Because `onEnd` keeps the message, a send after recognition ends sends
      the same text a second time. */
  method EndThenSend(box: TextBox)
    requires Trim(box.message) != ""
    modifies box`sent, box`message
    ensures box.sent == old(box.sent) + [Trim(old(box.message)), Trim(old(box.message))]
    ensures box.message == ""
  {
    box.OnEnd();
    box.HandleSend();
  }
}
