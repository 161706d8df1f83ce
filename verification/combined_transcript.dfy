/** The combined-transcript card: the committed texts joined by single
    spaces, shown only when the transcript is not empty, with an undo button
    wired to `undoLastTranscript`. */
module CombinedTranscript {
  import opened Types
  import opened Strings
  import opened RecognitionContext

  /** The texts of the items, in transcript order. */
  function Texts(items: seq<TranscriptItem>): (ts: seq<string>)
    ensures |ts| == |items|
    ensures forall i :: 0 <= i < |items| ==> ts[i] == items[i].text
  {
    seq(|items|, i requires 0 <= i < |items| => items[i].text)
  }

  /** The sum of the lengths of the items' texts. */
  function TextLength(items: seq<TranscriptItem>): nat {
    TotalLength(Texts(items))
  }

  /** `combinedText`: `fullTranscript.map(item => item.text).join(" ")`. An
      empty transcript gives the empty text, a single item its own text, and
      n >= 1 items the sum of their lengths plus n - 1 separators. */
  function CombinedText(items: seq<TranscriptItem>): (text: string)
    ensures items == [] ==> text == ""
    ensures |items| == 1 ==> text == items[0].text
    ensures |items| >= 1 ==> |text| == TextLength(items) + |items| - 1
  {
    Join(Texts(items), " ")
  }

  /** Committing an item adds its text after a single space (or as the whole
      text when the transcript was empty). */
  lemma CombinedTextAppend(items: seq<TranscriptItem>, item: TranscriptItem)
    ensures CombinedText(items + [item]) ==
      if items == [] then item.text else CombinedText(items) + " " + item.text
  {
    assert Texts(items + [item])[..|items|] == Texts(items);
  }

  /** Undo removes exactly the last segment: "A B C" becomes "A B". */
  lemma UndoDropsLastSegment(items: seq<TranscriptItem>)
    requires items != []
    ensures |items| == 1 ==> CombinedText(UndoLast(items)) == ""
    ensures |items| >= 2 ==>
      CombinedText(items) == CombinedText(UndoLast(items)) + " " + items[|items| - 1].text
  {
    var rest := UndoLast(items);
    assert items == rest + [items[|items| - 1]];
    CombinedTextAppend(rest, items[|items| - 1]);
  }

  /** The card renders only for a non-empty transcript (`length === 0` returns null). */
  predicate Renders(items: seq<TranscriptItem>) {
    |items| != 0
  }

  /** The undo button's `disabled` test. */
  predicate UndoDisabled(items: seq<TranscriptItem>) {
    |items| == 0
  }

  /** Whenever the card, and so the undo button, is rendered, the button is enabled. */
  lemma UndoNeverDisabledWhenShown(items: seq<TranscriptItem>)
    ensures Renders(items) ==> !UndoDisabled(items)
    ensures !Renders(items) <==> CombinedText(items) == "" && items == []
  {
  }

  /** The undo button: invokes `undoLastTranscript` on the provider; only
      reachable while the card is rendered. */
  method Undo(context: RecognitionProvider)
    requires context.Valid() && Renders(context.fullTranscript)
    modifies context`fullTranscript
    ensures context.Valid()
    ensures context.fullTranscript == UndoLast(old(context.fullTranscript))
    ensures |old(context.fullTranscript)| >= 2 ==>
      CombinedText(old(context.fullTranscript))
        == CombinedText(context.fullTranscript) + " " + old(context.fullTranscript)[|old(context.fullTranscript)| - 1].text
  {
    UndoDropsLastSegment(context.fullTranscript);
    context.UndoLastTranscript();
  }
}
