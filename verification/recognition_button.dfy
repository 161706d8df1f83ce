/** The record button: what a tap does, when the button is disabled, and
    which icon, style, label and caption it shows, all decided from
    `isListening` and `status`. */
module RecognitionButton {
  import opened Types

  /** The context command a tap invokes. */
  datatype Command = CallStartListening | CallStopListening

  /** The icon shown inside the button. */
  datatype Icon = Spinner | ActiveMic | MicOff | IdleMic

  /** The look of the button. */
  datatype Style = Pulsing | Alert | Plain

  /** `handleToggle`: stop while listening, start otherwise. */
  function Toggle(isListening: bool): (c: Command)
    ensures c == CallStopListening <==> isListening
    ensures c == CallStartListening <==> !isListening
  {
    if isListening then CallStopListening else CallStartListening
  }

  /** The button's `disabled` attribute. */
  predicate Disabled(status: Status) {
    status == Processing || status == Error
  }

  /** `getButtonIcon`: processing first, then listening, then error, then the default mic. */
  function ButtonIcon(isListening: bool, status: Status): (icon: Icon)
    ensures icon == Spinner <==> status == Processing
    ensures icon == ActiveMic <==> status != Processing && isListening
    ensures icon == MicOff <==> status == Error && !isListening
    ensures icon == IdleMic <==> !isListening && status != Processing && status != Error
  {
    if status == Processing then Spinner
    else if isListening then ActiveMic
    else if status == Error then MicOff
    else IdleMic
  }

  /** `getButtonStyles`: listening first, then error, then the default; `processing` is not consulted. */
  function ButtonStyle(isListening: bool, status: Status): (style: Style)
    ensures style == Pulsing <==> isListening
    ensures style == Alert <==> !isListening && status == Error
    ensures style == Plain <==> !isListening && status != Error
  {
    if isListening then Pulsing
    else if status == Error then Alert
    else Plain
  }

  /** The `aria-label`. */
  function AriaLabel(isListening: bool): (shown: string)
    ensures shown == "Stop recording" <==> isListening
    ensures shown == "Start recording" <==> !isListening
  {
    if isListening then "Stop recording" else "Start recording"
  }

  /** The caption under the button. */
  function Caption(isListening: bool): (caption: string)
    ensures caption == "Listening..." <==> isListening
    ensures caption == "Tap to speak" <==> !isListening
  {
    if isListening then "Listening..." else "Tap to speak"
  }

  /** The button is disabled exactly in `processing` and `error`; in
      particular a session in error cannot be restarted from it. */
  lemma DisabledExactly(status: Status)
    ensures Disabled(status) <==> status !in {Idle, Listening}
    ensures status == Error ==> Disabled(status)
  {
  }

  /** The style looks the same in `processing` as in `idle`. */
  lemma StyleIgnoresProcessing(isListening: bool)
    ensures ButtonStyle(isListening, Processing) == ButtonStyle(isListening, Idle)
  {
  }
}
