/** One transcript entry's card: its confidence colour and its favourite and
    delete buttons. */
module TranscriptItemCard {
  import opened Types
  import opened RecognitionContext

  /** The colour of the confidence dot. */
  datatype Band = Rose | Amber | Emerald

  /** The order of the bands, lowest first. */
  function Rank(b: Band): nat {
    match b
    case Rose => 0
    case Amber => 1
    case Emerald => 2
  }

  /** `getConfidenceColor`: emerald from 0.8, amber from 0.6, rose below. */
  function ConfidenceColor(confidence: real): (band: Band)
    ensures band == Emerald <==> confidence >= 0.8
    ensures band == Amber <==> 0.6 <= confidence < 0.8
    ensures band == Rose <==> confidence < 0.6
  {
    if confidence >= 0.8 then Emerald
    else if confidence >= 0.6 then Amber
    else Rose
  }

  /** Raising the confidence never moves it to a lower band. */
  lemma ConfidenceColorMonotone(c1: real, c2: real)
    requires c1 <= c2
    ensures Rank(ConfidenceColor(c1)) <= Rank(ConfidenceColor(c2))
  {
  }

  /** Every committed item shows emerald: its confidence is always 0.95. */
  lemma CommittedItemIsEmerald(id: string, text: string, detectedLang: Option<string>, settings: Settings, timestamp: int)
    ensures ConfidenceColor(NewItem(id, text, detectedLang, settings, timestamp).confidence) == Emerald
  {
  }

  /** The id the favourite button passes to `onToggleFavorite`. */
  function FavoriteTarget(item: TranscriptItem): string {
    item.id
  }

  /** The id the delete button passes to `onDelete`. */
  function DeleteTarget(item: TranscriptItem): string {
    item.id
  }

  /** In a transcript with unique ids, the favourite button of item `k`
      flips item `k` and no other. */
  lemma FavoriteClickFlipsOnlyThisItem(items: seq<TranscriptItem>, k: nat)
    requires UniqueIds(items) && k < |items|
    ensures ToggleFavorite(items, FavoriteTarget(items[k])) == items[k := Flip(items[k])]
  {
    ToggleFavoriteOne(items, k);
  }

  /** In a transcript with unique ids, the delete button of item `k`
      removes item `k` and keeps every other item in order. */
  lemma DeleteClickRemovesOnlyThisItem(items: seq<TranscriptItem>, k: nat)
    requires UniqueIds(items) && k < |items|
    ensures Delete(items, DeleteTarget(items[k])) == items[..k] + items[k + 1..]
  {
    DeleteOne(items, k);
  }
}
