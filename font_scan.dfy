/** The scan over the first page's text items that remembers the font size of
    the text containing the syllable "인" (the seal mark beside which a
    signature usually goes). */
module FontScan {

  /** The Hangul syllable "인" (U+C778), a single UTF-16 code unit, so that
      the script's substring test for it is a test for this one character. */
  const Marker: char := '\U{C778}'

  /** One text item as the PDF renderer reports it: its string and the first
      entry of its transform matrix, the horizontal scale, which the script
      reads as the font size. */
  datatype TextItem = TextItem(str: string, size: real)

  predicate HasMarker(item: TextItem)
  {
    Marker in item.str
  }

  /** The font size after a left-to-right pass over `items` that starts from
      `prev` and overwrites it at every item containing the marker. Defined
      from the end: the pass's value after the last item is that item's size
      when it matches, and otherwise the value it had before. */
  function FontSizeAfter(items: seq<TextItem>, prev: real): real
  {
    if items == [] then prev
    else if HasMarker(items[|items| - 1]) then items[|items| - 1].size
    else FontSizeAfter(items[..|items| - 1], prev)
  }

  /** The last item that contains the marker wins: whatever matched earlier
      is overwritten by it, and nothing after it changes the size. */
  lemma {:induction false} LastMarkerWins(items: seq<TextItem>, prev: real, k: nat)
    requires k < |items| && HasMarker(items[k])
    requires forall j :: k < j < |items| ==> !HasMarker(items[j])
    ensures FontSizeAfter(items, prev) == items[k].size
  {
    if k < |items| - 1 {
      var front := items[..|items| - 1];
      assert front[k] == items[k];
      assert forall j :: k < j < |front| ==> front[j] == items[j];
      LastMarkerWins(front, prev, k);
    }
  }

  /** With no item containing the marker the size keeps its previous value. */
  lemma {:induction false} NoMarkerKeepsSize(items: seq<TextItem>, prev: real)
    requires forall j :: 0 <= j < |items| ==> !HasMarker(items[j])
    ensures FontSizeAfter(items, prev) == prev
  {
    if items != [] {
      var front := items[..|items| - 1];
      assert forall j :: 0 <= j < |front| ==> front[j] == items[j];
      NoMarkerKeepsSize(front, prev);
    }
  }

  /** The size after the pass is the previous value or the size of some item
      that contains the marker: the scan invents no other value. */
  lemma {:induction false} SizeComesFromMarker(items: seq<TextItem>, prev: real)
    ensures FontSizeAfter(items, prev) == prev ||
            exists k :: 0 <= k < |items| && HasMarker(items[k]) && items[k].size == FontSizeAfter(items, prev)
  {
    if items != [] && !HasMarker(items[|items| - 1]) {
      var front := items[..|items| - 1];
      SizeComesFromMarker(front, prev);
      if FontSizeAfter(front, prev) != prev {
        var k :| 0 <= k < |front| && HasMarker(front[k]) && front[k].size == FontSizeAfter(front, prev);
        assert items[k] == front[k];
      }
    }
  }
}
