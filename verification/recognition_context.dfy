/** The recognition context: the ordered transcript, the session status, the
    settings and the audio level, and the commands that change them. Each
    command is a total transformation of the old value (`[...prev, item]`,
    `map`, `filter`, `slice(0, -1)`, a spread merge), given here as a
    function; the provider class applies them to its fields. */
module RecognitionContext {
  import opened Types

  /** The confidence every committed item carries. */
  const CommittedConfidence: real := 0.95

  /** `defaultSettings`. */
  const DefaultSettings := Settings("fa-IR", true, true, 1, Some(false))

  /** No two items share an id. */
  predicate UniqueIds(items: seq<TranscriptItem>) {
    forall i, j :: 0 <= i < j < |items| ==> items[i].id != items[j].id
  }

  /** `id` names no item of `items`. */
  predicate FreshId(items: seq<TranscriptItem>, id: string) {
    forall i :: 0 <= i < |items| ==> items[i].id != id
  }

  /** `detectedLang` is a non-empty string (JavaScript truthiness). */
  predicate Truthy(detectedLang: Option<string>) {
    detectedLang.Some? && detectedLang.value != ""
  }

  /** The item `handleResult` builds for recognised `text`. */
  function NewItem(id: string, text: string, detectedLang: Option<string>, settings: Settings, timestamp: int): TranscriptItem {
    TranscriptItem(
      id, text, timestamp,
      if Truthy(detectedLang) then detectedLang.value else settings.language,
      CommittedConfidence, false)
  }

  /** `item` with its favourite flag flipped. */
  function Flip(item: TranscriptItem): TranscriptItem {
    item.(isFavorite := !item.isFavorite)
  }

  /** `toggleFavorite(id)`: flips the flag of exactly the items whose id is `id`. */
  function ToggleFavorite(items: seq<TranscriptItem>, id: string): (r: seq<TranscriptItem>)
    ensures |r| == |items|
    ensures forall i :: 0 <= i < |items| ==>
      r[i] == (if items[i].id == id then Flip(items[i]) else items[i])
  {
    if items == [] then []
    else [if items[0].id == id then Flip(items[0]) else items[0]] + ToggleFavorite(items[1..], id)
  }

  /** The number of items whose id is `id`. */
  function CountId(items: seq<TranscriptItem>, id: string): nat {
    if items == [] then 0 else (if items[0].id == id then 1 else 0) + CountId(items[1..], id)
  }

  /** `deleteTranscriptItem(id)`: keeps exactly the items whose id is not `id`. */
  function Delete(items: seq<TranscriptItem>, id: string): (r: seq<TranscriptItem>)
    ensures |r| == |items| - CountId(items, id)
    ensures forall x :: x in r <==> x in items && x.id != id
  {
    if items == [] then []
    else (if items[0].id == id then [] else [items[0]]) + Delete(items[1..], id)
  }

  /** `undoLastTranscript`: every item but the last; nothing from an empty list. */
  function UndoLast(items: seq<TranscriptItem>): (r: seq<TranscriptItem>)
    ensures items == [] ==> r == []
    ensures items != [] ==> r + [items[|items| - 1]] == items
  {
    if items == [] then [] else items[..|items| - 1]
  }

  /** `updateSettings(partial)`: `{ ...prev, ...partial }`. */
  function MergeSettings(prev: Settings, partial: PartialSettings): (s: Settings)
    ensures partial.language.Some? ==> s.language == partial.language.value
    ensures partial.language.None? ==> s.language == prev.language
    ensures partial.continuous.Some? ==> s.continuous == partial.continuous.value
    ensures partial.continuous.None? ==> s.continuous == prev.continuous
    ensures partial.interimResults.Some? ==> s.interimResults == partial.interimResults.value
    ensures partial.interimResults.None? ==> s.interimResults == prev.interimResults
    ensures partial.maxAlternatives.Some? ==> s.maxAlternatives == partial.maxAlternatives.value
    ensures partial.maxAlternatives.None? ==> s.maxAlternatives == prev.maxAlternatives
    ensures partial.autoDetectLanguage.Some? ==> s.autoDetectLanguage == partial.autoDetectLanguage
    ensures partial.autoDetectLanguage.None? ==> s.autoDetectLanguage == prev.autoDetectLanguage
  {
    Settings(
      partial.language.GetOr(prev.language),
      partial.continuous.GetOr(prev.continuous),
      partial.interimResults.GetOr(prev.interimResults),
      partial.maxAlternatives.GetOr(prev.maxAlternatives),
      if partial.autoDetectLanguage.Some? then partial.autoDetectLanguage else prev.autoDetectLanguage)
  }

  /** The published audio level: `Math.min(1, Math.max(0, level))`. */
  function ClampLevel(level: real): (r: real)
    ensures 0.0 <= r <= 1.0
    ensures 0.0 <= level <= 1.0 ==> r == level
    ensures level < 0.0 ==> r == 0.0
    ensures level > 1.0 ==> r == 1.0
  {
    if level > 1.0 then 1.0 else if level < 0.0 then 0.0 else level
  }

  // ---------------------------------------------------------------------------
  // Properties of the list commands

  /** Toggling the same id twice restores the list. */
  lemma ToggleFavoriteTwice(items: seq<TranscriptItem>, id: string)
    ensures ToggleFavorite(ToggleFavorite(items, id), id) == items
  {
    var once := ToggleFavorite(items, id);
    var twice := ToggleFavorite(once, id);
    forall i | 0 <= i < |items| ensures twice[i] == items[i] {
      assert once[i].id == items[i].id;
    }
  }

  /** Toggling an id no item carries changes nothing. */
  lemma ToggleFavoriteAbsent(items: seq<TranscriptItem>, id: string)
    requires FreshId(items, id)
    ensures ToggleFavorite(items, id) == items
  {
  }

  /** With unique ids, toggling the id of item `k` flips that item and no other. */
  lemma ToggleFavoriteOne(items: seq<TranscriptItem>, k: nat)
    requires UniqueIds(items) && k < |items|
    ensures ToggleFavorite(items, items[k].id) == items[k := Flip(items[k])]
  {
  }

  /** Toggling keeps ids (so it keeps them unique) and the order of items. */
  lemma ToggleFavoriteKeepsIds(items: seq<TranscriptItem>, id: string)
    ensures forall i :: 0 <= i < |items| ==>
      ToggleFavorite(items, id)[i].id == items[i].id && ToggleFavorite(items, id)[i].text == items[i].text
    ensures UniqueIds(items) ==> UniqueIds(ToggleFavorite(items, id))
  {
  }

  /** Deletion distributes over concatenation: survivors keep their order. */
  lemma {:induction false} DeleteAppend(a: seq<TranscriptItem>, b: seq<TranscriptItem>, id: string)
    ensures Delete(a + b, id) == Delete(a, id) + Delete(b, id)
  {
    if a == [] {
      assert a + b == b;
    } else {
      assert (a + b)[1..] == a[1..] + b;
      DeleteAppend(a[1..], b, id);
    }
  }

  /** Deleting an id no item carries changes nothing. */
  lemma {:induction false} DeleteAbsent(items: seq<TranscriptItem>, id: string)
    requires FreshId(items, id)
    ensures Delete(items, id) == items
  {
    if items != [] {
      DeleteAbsent(items[1..], id);
      assert [items[0]] + items[1..] == items;
    }
  }

  /** With unique ids, the id of item `k` names no item before it and none after it. */
  lemma UniqueIdsSplit(items: seq<TranscriptItem>, k: nat)
    requires UniqueIds(items) && k < |items|
    ensures FreshId(items[..k], items[k].id) && FreshId(items[k + 1..], items[k].id)
  {
    var id := items[k].id;
    var before, after := items[..k], items[k + 1..];
    forall i | 0 <= i < |before| ensures before[i].id != id {
      assert before[i] == items[i];
    }
    forall i | 0 <= i < |after| ensures after[i].id != id {
      assert after[i] == items[k + 1 + i];
    }
  }

  /** With unique ids, deleting the id of item `k` removes that item alone. */
  lemma {:induction false} DeleteOne(items: seq<TranscriptItem>, k: nat)
    requires UniqueIds(items) && k < |items|
    ensures Delete(items, items[k].id) == items[..k] + items[k + 1..]
  {
    var id := items[k].id;
    var before, after := items[..k], items[k + 1..];
    assert items == before + ([items[k]] + after);
    UniqueIdsSplit(items, k);
    assert Delete([items[k]], id) == [] by {
      assert [items[k]][1..] == [];
    }
    calc {
      Delete(items, id);
      { DeleteAppend(before, [items[k]] + after, id); }
      Delete(before, id) + Delete([items[k]] + after, id);
      { DeleteAppend([items[k]], after, id); }
      Delete(before, id) + (Delete([items[k]], id) + Delete(after, id));
      { DeleteAbsent(before, id); DeleteAbsent(after, id); }
      before + ([] + after);
    }
    assert [] + after == after;
  }

  /** Deleting keeps ids unique. */
  lemma {:induction false} DeleteKeepsUniqueIds(items: seq<TranscriptItem>, id: string)
    requires UniqueIds(items)
    ensures UniqueIds(Delete(items, id))
  {
    if items != [] {
      var rest := Delete(items[1..], id);
      DeleteKeepsUniqueIds(items[1..], id);
      if items[0].id != id {
        forall x | x in rest ensures x.id != items[0].id {
          var j :| 0 <= j < |items[1..]| && items[1..][j] == x;
          assert items[j + 1] == x;
        }
      }
    }
  }

  /** Deleting twice is deleting once. */
  lemma {:induction false} DeleteIdempotent(items: seq<TranscriptItem>, id: string)
    ensures Delete(Delete(items, id), id) == Delete(items, id)
  {
    var once := Delete(items, id);
    assert FreshId(once, id) by {
      forall i | 0 <= i < |once| ensures once[i].id != id {
        assert once[i] in once;
      }
    }
    DeleteAbsent(once, id);
  }

  /** Undo is the inverse of committing: it drops exactly the appended item. */
  lemma UndoLastAfterAppend(items: seq<TranscriptItem>, item: TranscriptItem)
    ensures UndoLast(items + [item]) == items
  {
    assert (items + [item])[..|items|] == items;
  }

  /** Undo keeps ids unique. */
  lemma UndoLastKeepsUniqueIds(items: seq<TranscriptItem>)
    requires UniqueIds(items)
    ensures UniqueIds(UndoLast(items))
  {
  }

  /** Committing an item with a fresh id keeps ids unique. */
  lemma AppendKeepsUniqueIds(items: seq<TranscriptItem>, item: TranscriptItem)
    requires UniqueIds(items) && FreshId(items, item.id)
    ensures UniqueIds(items + [item])
  {
  }

  /** Applying the same partial settings twice is applying them once. */
  lemma MergeSettingsIdempotent(prev: Settings, partial: PartialSettings)
    ensures MergeSettings(MergeSettings(prev, partial), partial) == MergeSettings(prev, partial)
  {
  }

  /** The empty partial object changes nothing. */
  lemma MergeSettingsNoChange(prev: Settings)
    ensures MergeSettings(prev, NoChange) == prev
  {
  }

  // ---------------------------------------------------------------------------
  // The provider's state

  /** `RecognitionProvider`: the state the context publishes and the
      handlers that update it. `recognitionStarts` and `recognitionStops`
      count the calls the context makes to the recognition start and stop
      functions it holds. */
  class RecognitionProvider {
    var fullTranscript: seq<TranscriptItem>
    var status: Status
    var settings: Settings
    var audioLevel: real
    var recognitionStarts: nat
    var recognitionStops: nat

    /** Ids are unique and the published level lies in [0, 1]. */
    ghost predicate Valid()
      reads this
    {
      UniqueIds(fullTranscript) && 0.0 <= audioLevel <= 1.0
    }

    /** The initial state of the provider. */
    constructor ()
      ensures Valid()
      ensures fullTranscript == [] && status == Idle && settings == DefaultSettings && audioLevel == 0.0
      ensures recognitionStarts == 0 && recognitionStops == 0
    {
      fullTranscript := [];
      status := Idle;
      settings := DefaultSettings;
      audioLevel := 0.0;
      recognitionStarts := 0;
      recognitionStops := 0;
    }

    /** `handleResult(text, detectedLang)`: commits one item at the tail.
        `id` is the fresh identifier and `timestamp` the clock reading. */
    method HandleResult(text: string, detectedLang: Option<string>, id: string, timestamp: int)
      requires Valid() && FreshId(fullTranscript, id)
      modifies this`fullTranscript
      ensures Valid()
      ensures |fullTranscript| == |old(fullTranscript)| + 1
      ensures fullTranscript[..|old(fullTranscript)|] == old(fullTranscript)
      ensures var item := fullTranscript[|fullTranscript| - 1];
        && item.id == id && item.text == text && item.timestamp == timestamp
        && item.confidence == CommittedConfidence && !item.isFavorite
        && item.language == (if Truthy(detectedLang) then detectedLang.value else settings.language)
    {
      var item := NewItem(id, text, detectedLang, settings, timestamp);
      AppendKeepsUniqueIds(fullTranscript, item);
      fullTranscript := fullTranscript + [item];
    }

    /** `handleError`: the session is in error. */
    method HandleError(message: string)
      modifies this`status
      ensures status == Error
    {
      status := Error;
    }

    /** `handleEnd`: the session is idle and the level drops to 0. */
    method HandleEnd()
      requires Valid()
      modifies this`status, this`audioLevel
      ensures Valid()
      ensures status == Idle && audioLevel == 0.0
    {
      status := Idle;
      audioLevel := 0.0;
    }

    /** `startListening`: the status becomes listening, then the recognition
        start function is called once (the call is recorded, not its effect). */
    method StartListening()
      modifies this`status, this`recognitionStarts
      ensures status == Listening
      ensures recognitionStarts == old(recognitionStarts) + 1
    {
      status := Listening;
      recognitionStarts := recognitionStarts + 1;
    }

    /** `stopListening`: recognition is stopped once, then the status becomes idle. */
    method StopListening()
      modifies this`status, this`recognitionStops
      ensures status == Idle
      ensures recognitionStops == old(recognitionStops) + 1
    {
      recognitionStops := recognitionStops + 1;
      status := Idle;
    }

    /** `clearTranscript`. */
    method ClearTranscript()
      requires Valid()
      modifies this`fullTranscript
      ensures Valid()
      ensures fullTranscript == []
    {
      fullTranscript := [];
    }

    /** `updateSettings(partial)`. */
    method UpdateSettings(partial: PartialSettings)
      modifies this`settings
      ensures settings == MergeSettings(old(settings), partial)
    {
      settings := MergeSettings(settings, partial);
    }

    /** `toggleFavorite(id)`. */
    method ToggleFavoriteItem(id: string)
      requires Valid()
      modifies this`fullTranscript
      ensures Valid()
      ensures fullTranscript == ToggleFavorite(old(fullTranscript), id)
    {
      ToggleFavoriteKeepsIds(fullTranscript, id);
      fullTranscript := ToggleFavorite(fullTranscript, id);
    }

    /** `deleteTranscriptItem(id)`. */
    method DeleteTranscriptItem(id: string)
      requires Valid()
      modifies this`fullTranscript
      ensures Valid()
      ensures fullTranscript == Delete(old(fullTranscript), id)
    {
      DeleteKeepsUniqueIds(fullTranscript, id);
      fullTranscript := Delete(fullTranscript, id);
    }

    /** `undoLastTranscript`. */
    method UndoLastTranscript()
      requires Valid()
      modifies this`fullTranscript
      ensures Valid()
      ensures fullTranscript == UndoLast(old(fullTranscript))
    {
      UndoLastKeepsUniqueIds(fullTranscript);
      fullTranscript := UndoLast(fullTranscript);
    }

    /** One sample of the analyser loop: `normalized` is the average
        frequency magnitude over 128, published clamped to [0, 1]. */
    method PublishAudioLevel(normalized: real)
      requires Valid()
      modifies this`audioLevel
      ensures Valid()
      ensures audioLevel == ClampLevel(normalized)
    {
      audioLevel := ClampLevel(normalized);
    }
  }
}
