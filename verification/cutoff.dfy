/** The cutoff filter applied to a parsed feed and the choice of the cutoff
    from the delivery history. */
module Cutoff {
  import opened RssTypes

  /** "One day ago" fallback, in milliseconds. */
  const OneDay: int := 86_400_000

  /** An item is new when it has a publish time strictly after the cutoff. */
  predicate IsPubDateMatch(pubDate: Option<int>, cutoff: int)
  {
    pubDate.Some? && pubDate.value > cutoff
  }

  /** The longest prefix of `entries` whose items are all new: the scan stops
      at the first item that is missing a date or is not after the cutoff. */
  function TakeAfter(entries: seq<Entry>, cutoff: int): (r: seq<Entry>)
    ensures r <= entries
    ensures forall i :: 0 <= i < |r| ==> IsPubDateMatch(r[i].pubDate, cutoff)
    ensures |r| < |entries| ==> !IsPubDateMatch(entries[|r|].pubDate, cutoff)
  {
    if entries != [] && IsPubDateMatch(entries[0].pubDate, cutoff) then
      [entries[0]] + TakeAfter(entries[1..], cutoff)
    else
      []
  }

  /** The three properties of TakeAfter determine it: any prefix made of new
      items that cannot be extended by the next item is TakeAfter itself. */
  lemma TakeAfterIsTheMaximalPrefix(entries: seq<Entry>, cutoff: int, p: seq<Entry>)
    requires p <= entries
    requires forall i :: 0 <= i < |p| ==> IsPubDateMatch(p[i].pubDate, cutoff)
    requires |p| < |entries| ==> !IsPubDateMatch(entries[|p|].pubDate, cutoff)
    ensures p == TakeAfter(entries, cutoff)
  {
  }

  /** An item that is not new hides every item behind it, even items that
      would be new on their own. */
  lemma {:induction false} StaleItemStopsTheScan(entries: seq<Entry>, cutoff: int, k: nat)
    requires k < |entries|
    requires !IsPubDateMatch(entries[k].pubDate, cutoff)
    ensures |TakeAfter(entries, cutoff)| <= k
  {
    if k > 0 && IsPubDateMatch(entries[0].pubDate, cutoff) {
      StaleItemStopsTheScan(entries[1..], cutoff, k - 1);
    }
  }

  /** Items dated 10, 8 and 5 against cutoff 8: only the first is new, since
      8 is not after 8. */
  lemma CutoffExample(a: Entry, b: Entry, c: Entry)
    requires a.pubDate == Some(10) && b.pubDate == Some(8) && c.pubDate == Some(5)
    ensures TakeAfter([a, b, c], 8) == [a]
  {
    assert [a, b, c][1..] == [b, c];
  }

  /** The scan over a copy of the entry list: takes items from the front
      while they are new. */
  method UpdateAfterLastPush(entries: seq<Entry>, cutoff: int) returns (result: seq<Entry>)
    ensures result == TakeAfter(entries, cutoff)
  {
    result := [];
    var list := entries;
    while list != [] && IsPubDateMatch(list[0].pubDate, cutoff)
      invariant entries == result + list
      invariant TakeAfter(entries, cutoff) == result + TakeAfter(list, cutoff)
      decreases |list|
    {
      assert TakeAfter(list, cutoff) == [list[0]] + TakeAfter(list[1..], cutoff);
      SplitFirst(list);
      AppendAssoc(result, [list[0]], list[1..]);
      AppendAssoc(result, [list[0]], TakeAfter(list[1..], cutoff));
      result := result + [list[0]];
      list := list[1..];
    }
  }

  /** Index of the first weekly record of the history, if any. */
  function FindWeekly(list: seq<HistoryRecord>): (r: Option<nat>)
    ensures r.Some? ==> r.value < |list| && list[r.value].kind == Weekly
    ensures r.Some? ==> forall k :: 0 <= k < r.value ==> list[k].kind != Weekly
    ensures r.None? ==> forall k :: 0 <= k < |list| ==> list[k].kind != Weekly
  {
    if list == [] then None
    else if list[0].kind == Weekly then Some(0)
    else match FindWeekly(list[1..])
      case None => None
      case Some(i) => Some(i + 1)
  }

  /** The cutoff for a batch: the time of the most recent record (history is
      newest first) for a daily run, of the most recent weekly record for a
      weekly run, and one day before `now` when there is no such record. */
  function ChooseCutoff(list: seq<HistoryRecord>, isWeekly: bool, now: int): (r: int)
    ensures !isWeekly && list != [] ==> r == list[0].time
    ensures !isWeekly && list == [] ==> r == now - OneDay
    ensures isWeekly && (forall k :: 0 <= k < |list| ==> list[k].kind != Weekly) ==> r == now - OneDay
    ensures isWeekly ==> forall k ::
      (0 <= k < |list| && list[k].kind == Weekly && forall j :: 0 <= j < k ==> list[j].kind != Weekly)
      ==> r == list[k].time
  {
    var found := if isWeekly then FindWeekly(list) else if list != [] then Some(0) else None;
    match found
    case Some(i) => list[i].time
    case None => now - OneDay
  }
}
