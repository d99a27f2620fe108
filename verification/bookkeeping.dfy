/** Value-level specification of the per-source outcome handling and of one
    fetch round: the pending slots (`toFetchList`), the push list and the
    article count, and the invariants a round keeps. */
module Bookkeeping {
  import opened RssTypes
  import opened Cutoff
  import opened Aggregation

  /** At most this many articles are taken from one source per batch. */
  const MaxArticles: nat := 5

  /** The state a fetch round works on. */
  datatype Ledger = Ledger(toFetch: seq<Option<Source>>, pushList: seq<Push>, count: nat)

  function Min(a: nat, b: nat): nat { if a <= b then a else b }

  /** A pending slot for this url (an emptied slot holds None). */
  predicate HoldsUrl(slot: Option<Source>, url: string)
  {
    slot.Some? && slot.value.url == url
  }

  /** lodash `findIndex` for the first pending slot of `url`; -1 if none. */
  function FirstSlot(slots: seq<Option<Source>>, url: string): (r: int)
    ensures -1 <= r < |slots|
    ensures r >= 0 ==> HoldsUrl(slots[r], url) && forall k :: 0 <= k < r ==> !HoldsUrl(slots[k], url)
    ensures r < 0 ==> forall k :: 0 <= k < |slots| ==> !HoldsUrl(slots[k], url)
  {
    if slots == [] then -1
    else if HoldsUrl(slots[0], url) then 0
    else
      var i := FirstSlot(slots[1..], url);
      if i < 0 then -1 else i + 1
  }

  /** The urls of the pending slots, in slot order. */
  function PendingUrls(slots: seq<Option<Source>>): seq<string>
  {
    if slots == [] then []
    else (if slots[0].Some? then [slots[0].value.url] else []) + PendingUrls(slots[1..])
  }

  /** The sources of the pending slots, in slot order. */
  function PendingSources(slots: seq<Option<Source>>): seq<Source>
  {
    if slots == [] then []
    else (if slots[0].Some? then [slots[0].value] else []) + PendingSources(slots[1..])
  }

  lemma {:induction false} PendingUrlsAppend(a: seq<Option<Source>>, b: seq<Option<Source>>)
    ensures PendingUrls(a + b) == PendingUrls(a) + PendingUrls(b)
  {
    if a == [] {
      assert a + b == b;
    } else {
      assert (a + b)[1..] == a[1..] + b;
      PendingUrlsAppend(a[1..], b);
    }
  }

  lemma {:induction false} PendingUrlsAbsent(slots: seq<Option<Source>>, url: string)
    requires forall k :: 0 <= k < |slots| ==> !HoldsUrl(slots[k], url)
    ensures url !in PendingUrls(slots)
  {
    if slots != [] {
      PendingUrlsAbsent(slots[1..], url);
    }
  }

  lemma {:induction false} PendingUrlsEmptySlot(slots: seq<Option<Source>>, i: nat)
    requires i < |slots| && slots[i].Some?
    ensures slots[i].value.url in multiset(PendingUrls(slots))
    ensures multiset(PendingUrls(slots[i := None]))
      == multiset(PendingUrls(slots)) - multiset{slots[i].value.url}
  {
    var u := slots[i].value.url;
    var cleared := slots[i := None];
    TailOfUpdate(slots, i, None);
    var tail := multiset(PendingUrls(slots[1..]));
    if i == 0 {
      assert PendingUrls(cleared) == PendingUrls(slots[1..]);
      assert PendingUrls(slots) == [u] + PendingUrls(slots[1..]);
      assert multiset(PendingUrls(slots)) == multiset{u} + tail;
      assert multiset{u} + tail - multiset{u} == tail;
    } else {
      PendingUrlsEmptySlot(slots[1..], i - 1);
      var head := if slots[0].Some? then [slots[0].value.url] else [];
      assert PendingUrls(cleared) == head + PendingUrls(cleared[1..]);
      assert PendingUrls(slots) == head + PendingUrls(slots[1..]);
      assert multiset(PendingUrls(cleared)) == multiset(head) + (tail - multiset{u});
      assert multiset(PendingUrls(slots)) == multiset(head) + tail;
      RemoveAfterAdd(multiset(head), tail, u);
    }
  }

  /** `toFetchList[findIndex(...)] = null`: empties the first pending slot of
      `url`. Exactly one pending copy of the url goes, or nothing when the url
      is not pending (the assignment at index -1 does not touch the slots). */
  function Cleared(slots: seq<Option<Source>>, url: string): seq<Option<Source>>
  {
    var i := FirstSlot(slots, url);
    if i < 0 then slots else slots[i := None]
  }

  /** Clearing keeps the number of slots and removes exactly one pending
      copy of the url (none when it is not pending). */
  lemma ClearedRemovesOneCopy(slots: seq<Option<Source>>, url: string)
    ensures |Cleared(slots, url)| == |slots|
    ensures multiset(PendingUrls(Cleared(slots, url))) == multiset(PendingUrls(slots)) - multiset{url}
  {
    var i := FirstSlot(slots, url);
    if i < 0 {
      PendingUrlsAbsent(slots, url);
    } else {
      PendingUrlsEmptySlot(slots, i);
    }
  }

  /** Clearing empties the first pending slot of the url and no other. */
  lemma ClearedEmptiesFirstSlot(slots: seq<Option<Source>>, url: string)
    ensures var r := Cleared(slots, url);
      && (forall k :: 0 <= k < |slots| && k != FirstSlot(slots, url) ==> r[k] == slots[k])
      && (FirstSlot(slots, url) >= 0 ==> r[FirstSlot(slots, url)].None?)
  {
  }

  /** `toFetchList.filter(item => !isNull(item))`: the pending slots, in order. */
  function Compact(slots: seq<Option<Source>>): (r: seq<Option<Source>>)
    ensures forall k :: 0 <= k < |r| ==> r[k].Some?
    ensures PendingSources(r) == PendingSources(slots)
    ensures PendingUrls(r) == PendingUrls(slots)
    ensures forall x :: x in r ==> x in slots
  {
    if slots == [] then []
    else
      var rest := Compact(slots[1..]);
      if slots[0].Some? then
        assert ([slots[0]] + rest)[1..] == rest;
        [slots[0]] + rest
      else rest
  }

  /** Two slot lists without emptied slots are equal when they hold the same
      sources in the same order. */
  lemma {:induction false} PendingSourcesDetermine(a: seq<Option<Source>>, b: seq<Option<Source>>)
    requires forall k :: 0 <= k < |a| ==> a[k].Some?
    requires forall k :: 0 <= k < |b| ==> b[k].Some?
    requires PendingSources(a) == PendingSources(b)
    ensures a == b
  {
    if a != [] && b != [] {
      var pa, pb := PendingSources(a[1..]), PendingSources(b[1..]);
      assert PendingSources(a) == [a[0].value] + pa;
      assert PendingSources(b) == [b[0].value] + pb;
      assert pa == ([a[0].value] + pa)[1..];
      assert pb == ([b[0].value] + pb)[1..];
      PendingSourcesDetermine(a[1..], b[1..]);
      assert a == [a[0]] + a[1..];
      assert b == [b[0]] + b[1..];
    }
  }

  /** The filter's result is the only slot list without emptied slots that
      holds the pending sources of the input, in order. */
  lemma CompactIsTheFilter(slots: seq<Option<Source>>, r: seq<Option<Source>>)
    requires forall k :: 0 <= k < |r| ==> r[k].Some?
    requires PendingSources(r) == PendingSources(slots)
    ensures r == Compact(slots)
  {
    PendingSourcesDetermine(r, Compact(slots));
  }

  /** `cloneDeep(sourceList)`: one pending slot per source. */
  function Slots(sources: seq<Source>): (r: seq<Option<Source>>)
    ensures |r| == |sources|
    ensures forall k :: 0 <= k < |r| ==> r[k] == Some(sources[k])
  {
    seq(|sources|, i requires 0 <= i < |sources| => Some(sources[i]))
  }

  function SourceUrls(sources: seq<Source>): seq<string>
  {
    seq(|sources|, i requires 0 <= i < |sources| => sources[i].url)
  }

  lemma {:induction false} PendingUrlsOfSlots(sources: seq<Source>)
    ensures PendingUrls(Slots(sources)) == SourceUrls(sources)
  {
    if sources != [] {
      PendingUrlsOfSlots(sources[1..]);
      assert Slots(sources)[1..] == Slots(sources[1..]);
      assert SourceUrls(sources) == [sources[0].url] + SourceUrls(sources[1..]);
    }
  }

  /** The qualifying items of an outcome; none unless the feed parsed. */
  function NewArticles(outcome: Outcome, cutoff: int): seq<Entry>
  {
    match outcome
    case Feed(entries) => TakeAfter(entries, cutoff)
    case _ => []
  }

  /** `parseCheck` for one source and its fetch outcome. A failure changes
      nothing. A success empties the source's slot; when the feed has at least
      one new item it also appends exactly one record holding the first
      min(5, n) new items and adds their number to the count. */
  function Settle(t: Ledger, source: Source, outcome: Outcome, cutoff: int): Ledger
  {
    if outcome.Failed? then t
    else
      var found := NewArticles(outcome, cutoff);
      var toFetch := Cleared(t.toFetch, source.url);
      if found == [] then Ledger(toFetch, t.pushList, t.count)
      else
        var taken := found[..Min(MaxArticles, |found|)];
        Ledger(toFetch, t.pushList + [Push(source, taken)], t.count + |taken|)
  }

  /** What `parseCheck` does with one outcome: a failure changes nothing; a
      success empties the source's slot; a record is appended exactly when
      the feed parsed and its first item is new, and it holds the first
      min(5, n) of the n new items (all newer than the cutoff), whose number
      is added to the count. */
  lemma SettleOutcome(t: Ledger, source: Source, outcome: Outcome, cutoff: int)
    ensures var r := Settle(t, source, outcome, cutoff);
      && (outcome.Failed? ==> r == t)
      && (!outcome.Failed? ==> r.toFetch == Cleared(t.toFetch, source.url))
      && |t.pushList| <= |r.pushList| <= |t.pushList| + 1
      && r.pushList[..|t.pushList|] == t.pushList
      && ((|r.pushList| > |t.pushList|) <==>
            (outcome.Feed? && outcome.entries != [] && IsPubDateMatch(outcome.entries[0].pubDate, cutoff)))
      && (|r.pushList| > |t.pushList| ==>
            var p := r.pushList[|t.pushList|];
            && outcome.Feed?
            && p.source == source
            && p.list <= outcome.entries
            && |p.list| == Min(MaxArticles, |TakeAfter(outcome.entries, cutoff)|)
            && 1 <= |p.list| <= MaxArticles
            && (forall i :: 0 <= i < |p.list| ==> IsPubDateMatch(p.list[i].pubDate, cutoff))
            && r.count == t.count + |p.list|)
      && (|r.pushList| == |t.pushList| ==> r.count == t.count)
  {
    var r := Settle(t, source, outcome, cutoff);
    if !outcome.Failed? {
      var found := NewArticles(outcome, cutoff);
      if found != [] {
        var p := Push(source, found[..Min(MaxArticles, |found|)]);
        AppendParts(t.pushList, [p]);
      }
    }
  }

  /** Settle written out field by field, for the imperative handler. */
  lemma SettleFields(t: Ledger, source: Source, outcome: Outcome, cutoff: int)
    requires !outcome.Failed?
    ensures var found := NewArticles(outcome, cutoff);
      var r := Settle(t, source, outcome, cutoff);
      && r.toFetch == Cleared(t.toFetch, source.url)
      && (found == [] ==> r.pushList == t.pushList && r.count == t.count)
      && (found != [] ==>
            r.pushList == t.pushList + [Push(source, found[..Min(MaxArticles, |found|)])] &&
            r.count == t.count + Min(MaxArticles, |found|))
  {
  }

  /** One round: the outcome of every slot of the round's snapshot, applied in
      order. An emptied slot in the snapshot behaves as a failing fetch. */
  function RunRound(t: Ledger, snapshot: seq<Option<Source>>, fetch: (Source, nat) -> Outcome,
                    round: nat, cutoff: int): Ledger
    decreases |snapshot|
  {
    if snapshot == [] then t
    else SettleSlot(RunRound(t, snapshot[..|snapshot| - 1], fetch, round, cutoff), snapshot[|snapshot| - 1], fetch, round, cutoff)
  }

  /** One slot of a round's snapshot: its source's outcome is settled; an
      emptied slot behaves as a failing fetch. */
  function SettleSlot(t: Ledger, slot: Option<Source>, fetch: (Source, nat) -> Outcome, round: nat, cutoff: int): Ledger
  {
    match slot
    case None => t
    case Some(s) => Settle(t, s, fetch(s, round), cutoff)
  }

  /** Every url with a record or a pending slot is accounted for by a
      distinct copy of that url in the batch's source list. */
  ghost predicate Inventory(t: Ledger, sources: multiset<string>)
  {
    multiset(Urls(t.pushList)) + multiset(PendingUrls(t.toFetch)) <= sources
  }

  /** What one settled outcome does to the slots, the records and the count. */
  lemma SettleAccounting(t: Ledger, source: Source, outcome: Outcome, cutoff: int)
    ensures var r := Settle(t, source, outcome, cutoff);
      && |r.toFetch| == |t.toFetch|
      && multiset(PendingUrls(r.toFetch)) <= multiset(PendingUrls(t.toFetch))
      && r.count - t.count == TotalArticles(r.pushList) - TotalArticles(t.pushList)
      && (|r.pushList| == |t.pushList| ==> r.pushList == t.pushList)
      && (|r.pushList| > |t.pushList| ==> !outcome.Failed? && Urls(r.pushList) == Urls(t.pushList) + [source.url])
  {
    var r := Settle(t, source, outcome, cutoff);
    if !outcome.Failed? {
      ClearedRemovesOneCopy(t.toFetch, source.url);
      var found := NewArticles(outcome, cutoff);
      if found != [] {
        var p := Push(source, found[..Min(MaxArticles, |found|)]);
        assert r.pushList == t.pushList + [p] && r.count == t.count + |p.list|;
        TotalArticlesSnoc(t.pushList, p);
        UrlsAppend(t.pushList, [p]);
        assert Urls([p]) == [source.url];
      } else {
        assert r.pushList == t.pushList && r.count == t.count;
      }
    }
  }

  /** A settled outcome keeps the inventory when its source is pending. */
  lemma SettleKeepsInventory(t: Ledger, source: Source, outcome: Outcome, cutoff: int,
                             sources: multiset<string>)
    requires Inventory(t, sources)
    requires source.url in multiset(PendingUrls(t.toFetch))
    ensures Inventory(Settle(t, source, outcome, cutoff), sources)
  {
    SettleAccounting(t, source, outcome, cutoff);
    var r := Settle(t, source, outcome, cutoff);
    if !outcome.Failed? {
      ClearedRemovesOneCopy(t.toFetch, source.url);
      assert multiset(PendingUrls(r.toFetch)) == multiset(PendingUrls(t.toFetch)) - multiset{source.url};
    }
  }

  /** A round only appends records, the count grows by exactly the articles
      appended, the slots keep their number and no url becomes pending. */
  lemma {:induction false} RoundAccounting(t: Ledger, snapshot: seq<Option<Source>>,
                                           fetch: (Source, nat) -> Outcome, round: nat, cutoff: int)
    ensures var r := RunRound(t, snapshot, fetch, round, cutoff);
      && |r.toFetch| == |t.toFetch|
      && multiset(PendingUrls(r.toFetch)) <= multiset(PendingUrls(t.toFetch))
      && t.pushList <= r.pushList
      && r.count - t.count == TotalArticles(r.pushList) - TotalArticles(t.pushList)
    decreases |snapshot|
  {
    if snapshot != [] {
      var init := snapshot[..|snapshot| - 1];
      RoundAccounting(t, init, fetch, round, cutoff);
      var before := RunRound(t, init, fetch, round, cutoff);
      match snapshot[|snapshot| - 1]
      case None =>
      case Some(s) =>
        SettleAccounting(before, s, fetch(s, round), cutoff);
    }
  }

  /** The records of `ps` from index `from` on each hold between 1 and 5
      articles and come from a source of `snapshot`. */
  ghost predicate RecordsFrom(ps: seq<Push>, from: nat, snapshot: seq<Option<Source>>)
  {
    forall k :: from <= k < |ps| ==> 1 <= |ps[k].list| <= MaxArticles && Some(ps[k].source) in snapshot
  }

  /** One more slot: the records may grow by one record of that slot's
      source. */
  lemma RecordsFromSnoc(before: seq<Push>, after: seq<Push>, from: nat,
                        init: seq<Option<Source>>, last: Option<Source>)
    requires from <= |before| <= |after| <= |before| + 1
    requires after[..|before|] == before
    requires RecordsFrom(before, from, init)
    requires |after| > |before| ==>
      1 <= |after[|before|].list| <= MaxArticles && last == Some(after[|before|].source)
    ensures RecordsFrom(after, from, init + [last])
  {
    forall k | from <= k < |after|
      ensures 1 <= |after[k].list| <= MaxArticles && Some(after[k].source) in init + [last]
    {
      if k < |before| {
        assert after[k] == before[k];
      }
    }
  }

  /** Every record a round appends comes from a source of the round's
      snapshot and holds between 1 and 5 articles. */
  lemma {:induction false} RoundRecords(t: Ledger, snapshot: seq<Option<Source>>,
                                        fetch: (Source, nat) -> Outcome, round: nat, cutoff: int)
    ensures var r := RunRound(t, snapshot, fetch, round, cutoff);
      |t.pushList| <= |r.pushList| && RecordsFrom(r.pushList, |t.pushList|, snapshot)
    decreases |snapshot|
  {
    if snapshot != [] {
      var init := snapshot[..|snapshot| - 1];
      var last := snapshot[|snapshot| - 1];
      RoundRecords(t, init, fetch, round, cutoff);
      var before := RunRound(t, init, fetch, round, cutoff);
      var r := RunRound(t, snapshot, fetch, round, cutoff);
      SplitLast(snapshot);
      if last.Some? {
        SettleOutcome(before, last.value, fetch(last.value, round), cutoff);
      }
      RecordsFromSnoc(before.pushList, r.pushList, |t.pushList|, init, last);
    }
  }

  /** One slot keeps the inventory when it is pending together with the
      slots still to come. */
  lemma SettleSlotKeepsInventory(t: Ledger, slot: Option<Source>, rest: seq<Option<Source>>,
                                 fetch: (Source, nat) -> Outcome, round: nat, cutoff: int,
                                 sources: multiset<string>)
    requires multiset(PendingUrls([slot] + rest)) <= multiset(PendingUrls(t.toFetch))
    requires Inventory(t, sources)
    ensures var r := SettleSlot(t, slot, fetch, round, cutoff);
      multiset(PendingUrls(rest)) <= multiset(PendingUrls(r.toFetch)) && Inventory(r, sources)
  {
    assert ([slot] + rest)[1..] == rest;
    match slot
    case None =>
      assert PendingUrls([slot] + rest) == PendingUrls(rest);
    case Some(s) =>
      var outcome := fetch(s, round);
      assert PendingUrls([slot] + rest) == [s.url] + PendingUrls(rest);
      SettleKeepsInventory(t, s, outcome, cutoff, sources);
      var r := Settle(t, s, outcome, cutoff);
      if !outcome.Failed? {
        ClearedRemovesOneCopy(t.toFetch, s.url);
        assert multiset(PendingUrls(r.toFetch)) == multiset(PendingUrls(t.toFetch)) - multiset{s.url};
      }
  }

  /** Inventory is kept by a round whose snapshot lists pending slots only,
      each at most as often as it is pending (`rest` is the part of the
      snapshot still to come). In particular every source settled in the
      round finds its own pending slot. */
  lemma {:induction false} RoundKeepsInventory(t: Ledger, snapshot: seq<Option<Source>>, rest: seq<Option<Source>>,
                                               fetch: (Source, nat) -> Outcome, round: nat, cutoff: int,
                                               sources: multiset<string>)
    requires multiset(PendingUrls(snapshot + rest)) <= multiset(PendingUrls(t.toFetch))
    requires Inventory(t, sources)
    ensures var r := RunRound(t, snapshot, fetch, round, cutoff);
      multiset(PendingUrls(rest)) <= multiset(PendingUrls(r.toFetch)) && Inventory(r, sources)
    decreases |snapshot|
  {
    if snapshot == [] {
      assert snapshot + rest == rest;
    } else {
      var init := snapshot[..|snapshot| - 1];
      var last := snapshot[|snapshot| - 1];
      SplitLast(snapshot);
      AppendAssoc(init, [last], rest);
      RoundKeepsInventory(t, init, [last] + rest, fetch, round, cutoff, sources);
      SettleSlotKeepsInventory(RunRound(t, init, fetch, round, cutoff), last, rest, fetch, round, cutoff, sources);
    }
  }

  /** When the batch's source list has no repeated url, a source whose fetch
      succeeded is no longer pending, so no later round fetches it again. */
  lemma SettledSourceLeavesPending(t: Ledger, source: Source, outcome: Outcome, cutoff: int,
                                   sources: multiset<string>)
    requires Inventory(t, sources) && SingleCopies(sources)
    requires !outcome.Failed?
    ensures source.url !in PendingUrls(Settle(t, source, outcome, cutoff).toFetch)
  {
    var r := Settle(t, source, outcome, cutoff);
    ClearedRemovesOneCopy(t.toFetch, source.url);
    assert multiset(PendingUrls(t.toFetch))[source.url] <= sources[source.url];
    assert multiset(PendingUrls(r.toFetch))[source.url] == 0;
  }
}
