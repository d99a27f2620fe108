/** The feed task's batch state: the source list, the pending slots of the
    current batch, the records and article count collected so far, the
    round counter and the finish flag, with the operations that drive one
    batch from launch to the delivery record. Fetching is replaced by an
    outcome oracle `fetch(source, round)`; the clock, the weekday and the
    emoji filter are parameters. */
module RssTask {
  import opened RssTypes
  import opened Cutoff
  import opened Aggregation
  import opened Bookkeeping
  import opened Digest

  /** Saturday and Sunday (weekday numbering with Sunday = 0): no batch is
      launched on these days. */
  predicate IsSilentDay(weekday: int)
  {
    weekday == 6 || weekday == 0
  }

  /** A round is dispatched only while the round counter, once incremented,
      stays below this bound. */
  const RoundLimit: nat := 4

  /** The slots a call with counter `fetchTimes` works on: from the second
      call on, emptied slots are dropped first. */
  function Remaining(slots: seq<Option<Source>>, fetchTimes: nat): seq<Option<Source>>
  {
    if fetchTimes > 1 then Compact(slots) else slots
  }

  /** The delivery-history record of a finished batch. */
  function PushRecord(isWeekly: bool, time: int, content: string, ps: seq<Push>): (r: HistoryRecord)
    ensures r.kind == Weekly <==> isWeekly
    ensures r.time == time && r.content == content
    ensures |r.articles| == TotalArticles(ps)
  {
    HistoryRecord(if isWeekly then Weekly else Daily, time, content, Articles(ps))
  }

  /** The history record lists every article of every record, in record
      order, as its title and link. */
  lemma PushRecordArticles(isWeekly: bool, time: int, content: string, ps: seq<Push>)
    ensures FlattenedFrom(PushRecord(isWeekly, time, content, ps).articles, ps)
  {
    ArticlesFlatten(ps);
  }

  /** Sorting by weight keeps "one record per url". */
  lemma OrderByWeightKeepsDistinct(ps: seq<Push>)
    requires UrlsDistinct(ps)
    ensures UrlsDistinct(OrderByWeight(ps))
  {
    OrderByWeightPermutes(ps);
    DistinctIffSingleCopies(ps);
    DistinctIffSingleCopies(OrderByWeight(ps));
  }

  /** Sorting keeps the records, their articles and their urls. */
  lemma OrderByWeightKeepsRecords(ps: seq<Push>)
    ensures forall p :: p in OrderByWeight(ps) ==> p in ps
    ensures TotalArticles(OrderByWeight(ps)) == TotalArticles(ps)
    ensures multiset(Urls(OrderByWeight(ps))) == multiset(Urls(ps))
  {
    TotalArticlesOrderByWeight(ps);
    OrderByWeightPermutes(ps);
    forall p | p in OrderByWeight(ps) ensures p in ps {
      assert p in multiset(OrderByWeight(ps));
    }
  }

  /** Every record holds one to five articles. */
  predicate Bounded(ps: seq<Push>)
  {
    forall p :: p in ps ==> 1 <= |p.list| <= MaxArticles
  }

  /** Sorting keeps the article bounds of the records and their total. */
  lemma SortKeepsBounded(ps: seq<Push>)
    requires Bounded(ps)
    ensures Bounded(OrderByWeight(ps)) && TotalArticles(OrderByWeight(ps)) == TotalArticles(ps)
  {
    OrderByWeightKeepsRecords(ps);
  }

  /** De-duplicating keeps the article bounds of the records. */
  lemma DedupKeepsBounded(ps: seq<Push>)
    requires Bounded(ps)
    ensures Bounded(UniqByUrl(ps))
  {
    UniqByUrlKeeps(ps);
  }

  /** Sorting keeps a ledger within its batch. */
  lemma SortKeepsBatch(t: Ledger, sources: multiset<string>)
    requires Inventory(t, sources) && (SingleCopies(sources) ==> t.count == TotalArticles(t.pushList))
    ensures var s := Ledger(t.toFetch, OrderByWeight(t.pushList), t.count);
      Inventory(s, sources) && (SingleCopies(sources) ==> s.count == TotalArticles(s.pushList))
  {
    OrderByWeightKeepsRecords(t.pushList);
  }

  /** Settling one outcome keeps the article bounds of the records and keeps
      the count covering (or matching) the articles listed. */
  lemma SettleKeepsBounded(t: Ledger, source: Source, outcome: Outcome, cutoff: int)
    requires Bounded(t.pushList) && TotalArticles(t.pushList) <= t.count
    ensures var r := Settle(t, source, outcome, cutoff);
      && Bounded(r.pushList) && TotalArticles(r.pushList) <= r.count
      && (t.count == TotalArticles(t.pushList) ==> r.count == TotalArticles(r.pushList))
  {
    var r := Settle(t, source, outcome, cutoff);
    SettleOutcome(t, source, outcome, cutoff);
    SettleAccounting(t, source, outcome, cutoff);
    forall p | p in r.pushList ensures 1 <= |p.list| <= MaxArticles {
      var k :| 0 <= k < |r.pushList| && r.pushList[k] == p;
      if k < |t.pushList| {
        assert r.pushList[..|t.pushList|][k] == p;
        assert p in t.pushList;
      }
    }
  }

  /** A round keeps the article bounds of the records, and the count grows
      by exactly the articles it adds. */
  lemma RoundKeepsBounded(t: Ledger, fetch: (Source, nat) -> Outcome, round: nat, cutoff: int)
    requires Bounded(t.pushList)
    ensures var r := RunRound(t, t.toFetch, fetch, round, cutoff);
      Bounded(r.pushList) && r.count - t.count == TotalArticles(r.pushList) - TotalArticles(t.pushList)
  {
    var r := RunRound(t, t.toFetch, fetch, round, cutoff);
    RoundAccounting(t, t.toFetch, fetch, round, cutoff);
    RoundRecords(t, t.toFetch, fetch, round, cutoff);
    forall p | p in r.pushList ensures 1 <= |p.list| <= MaxArticles {
      var k :| 0 <= k < |r.pushList| && r.pushList[k] == p;
      if k < |t.pushList| {
        assert p in t.pushList;
      }
    }
  }

  /** A sub-bag of a bag without repeated urls has no repeated urls. */
  lemma SingleCopiesOfSubBag(a: multiset<string>, b: multiset<string>)
    requires a <= b && SingleCopies(b)
    ensures SingleCopies(a)
  {
    forall u ensures a[u] <= 1 {
      assert a[u] <= b[u];
    }
  }

  /** When the batch's sources have distinct urls, so have its records, and
      the de-duplication before the finish drops nothing. */
  lemma UniqByUrlWithinBatch(ps: seq<Push>, sources: multiset<string>)
    requires multiset(Urls(ps)) <= sources && SingleCopies(sources)
    ensures UniqByUrl(ps) == ps
  {
    SingleCopiesOfSubBag(multiset(Urls(ps)), sources);
    DistinctIffSingleCopies(ps);
    UniqByUrlOfDistinct(ps);
  }

  /** The article lines of one record appended to the text built so far. */
  method AppendArticleLines(text: string, es: seq<Entry>) returns (r: string)
    ensures r == text + Concat(ArticleLines(es))
  {
    r := text;
    assert es[..0] == [];
    assert r == text + Concat(ArticleLines(es[..0]));
    var j := 0;
    while j < |es|
      invariant 0 <= j <= |es|
      invariant r == text + Concat(ArticleLines(es[..j]))
    {
      ghost var done := Concat(ArticleLines(es[..j]));
      ArticleLinesSnoc(es, j);
      AppendAssoc(text, done, ArticleLine(es[j]));
      r := r + ArticleLine(es[j]);
      j := j + 1;
    }
    assert es[..|es|] == es;
  }

  /** The index line and the article lines of every record, in order,
      appended to the text built so far. */
  method AppendSourceLines(text: string, ps: seq<Push>) returns (r: string)
    ensures r == text + Concat(SourceLines(ps))
  {
    r := text;
    assert ps[..0] == [];
    assert r == text + Concat(SourceLines(ps[..0]));
    var i := 0;
    while i < |ps|
      invariant 0 <= i <= |ps|
      invariant r == text + Concat(SourceLines(ps[..i]))
    {
      ghost var done := Concat(SourceLines(ps[..i]));
      var line := IndexLine(i, ps[i]);
      r := r + line;
      r := AppendArticleLines(r, ps[i].list);
      SourceLinesSnoc(ps, i);
      AppendAssoc(text, done, line);
      AppendAssoc(text, done + line, Concat(ArticleLines(ps[i].list)));
      i := i + 1;
    }
    assert ps[..|ps|] == ps;
  }

  class BatchState {
    var sourceList: seq<Source>
    /** `toFetchList`: one slot per source still to fetch; None once fetched. */
    var toFetch: seq<Option<Source>>
    var fetchStartTime: int
    /** The cutoff: only items published after it are new. */
    var lastFetchTime: int
    var fetchTimes: nat
    var isWeeklyTask: bool
    var done: bool
    var pushList: seq<Push>
    var count: nat
    var weeklyUrl: string
    /** The source list cloned by the last launch. */
    ghost var batch: seq<Source>
    /** Fetch rounds dispatched since the last launch. */
    ghost var rounds: nat

    function AsLedger(): Ledger
      reads this
    {
      Ledger(toFetch, pushList, count)
    }

    /** Every record holds one to five articles; the count covers the
        records and equals their total until the batch finishes; at most
        three rounds are dispatched per batch. */
    ghost predicate Valid()
      reads this
    {
      Sound() && (!done ==> count == TotalArticles(pushList))
    }

    /** Valid() without the exact count, which the de-duplication before
        the finish may break. */
    ghost predicate Sound()
      reads this
    {
      && Bounded(pushList)
      && TotalArticles(pushList) <= count
      && rounds <= fetchTimes
      && rounds < RoundLimit
    }

    /** Records and pending slots stay within the launched source list
        (one url copy each); with distinct source urls the count is exact
        even after the finish. */
    ghost predicate InBatch()
      reads this
    {
      && Inventory(AsLedger(), multiset(SourceUrls(batch)))
      && (SingleCopies(multiset(SourceUrls(batch))) ==> count == TotalArticles(pushList))
    }

    /** The module's initial values; the null times are 0. */
    constructor ()
      ensures sourceList == [] && toFetch == [] && pushList == [] && count == 0
      ensures fetchStartTime == 0 && lastFetchTime == 0 && fetchTimes == 0
      ensures !isWeeklyTask && !done && weeklyUrl == ""
      ensures Valid() && InBatch()
    {
      sourceList := [];
      toFetch := [];
      fetchStartTime := 0;
      lastFetchTime := 0;
      fetchTimes := 0;
      isWeeklyTask := false;
      done := false;
      pushList := [];
      count := 0;
      weeklyUrl := "";
      batch := [];
      rounds := 0;
    }

    /** Chooses the cutoff from the delivery history (newest first). */
    method HandlePushHistory(list: seq<HistoryRecord>, now: int)
      modifies this`lastFetchTime
      ensures lastFetchTime == ChooseCutoff(list, isWeeklyTask, now)
    {
      var lastPushItem: Option<HistoryRecord> := if list != [] then Some(list[0]) else None;
      if isWeeklyTask {
        var i := FindWeekly(list);
        lastPushItem := if i.Some? then Some(list[i.value]) else None;
      }
      lastFetchTime := if lastPushItem.Some? then lastPushItem.value.time else now - OneDay;
    }

    /** Resets the batch: no records, zero count, one pending slot per
        source, not finished, round counter at zero. */
    method Launch()
      modifies this`toFetch, this`pushList, this`count, this`done, this`fetchTimes, this`batch, this`rounds
      ensures toFetch == Slots(sourceList) && pushList == [] && count == 0
      ensures !done && fetchTimes == 0
      ensures batch == sourceList && rounds == 0
      ensures Valid() && InBatch()
    {
      pushList := [];
      count := 0;
      toFetch := Slots(sourceList);
      done := false;
      fetchTimes := 0;
      batch := sourceList;
      rounds := 0;
      PendingUrlsOfSlots(sourceList);
    }

    /** Takes the fetched source list; launches a batch when it is non-empty
        and the day is not silent, stamping the batch with `startTime`. */
    method HandleSourceList(list: seq<Source>, weekday: int, startTime: int)
      requires Valid()
      modifies this
      ensures sourceList == list && toFetch == Slots(list)
      ensures lastFetchTime == old(lastFetchTime) && isWeeklyTask == old(isWeeklyTask) && weeklyUrl == old(weeklyUrl)
      ensures list != [] && !IsSilentDay(weekday) ==>
        && fetchStartTime == startTime && pushList == [] && count == 0
        && !done && fetchTimes == 0 && batch == list && rounds == 0 && InBatch()
      ensures !(list != [] && !IsSilentDay(weekday)) ==>
        && fetchStartTime == old(fetchStartTime) && pushList == old(pushList) && count == old(count)
        && done == old(done) && fetchTimes == old(fetchTimes) && batch == old(batch) && rounds == old(rounds)
      ensures Valid()
    {
      sourceList := list;
      toFetch := Slots(sourceList);
      if |sourceList| > 0 && !IsSilentDay(weekday) {
        fetchStartTime := startTime;
        Launch();
      }
    }

    /** One activation by a scheduled job: the job fixes the batch kind, the
        cutoff comes from the history (or one day before `now` when no
        history came back), then a non-empty source list is handled. */
    method ActivateFetchTask(weekly: bool, history: Option<seq<HistoryRecord>>, sources: seq<Source>,
                             weekday: int, now: int, startTime: int)
      requires Valid()
      modifies this
      ensures isWeeklyTask == weekly && weeklyUrl == old(weeklyUrl)
      ensures history.Some? ==> lastFetchTime == ChooseCutoff(history.value, weekly, now)
      ensures history.None? ==> lastFetchTime == now - OneDay
      ensures sources == [] ==>
        && sourceList == old(sourceList) && toFetch == old(toFetch) && fetchStartTime == old(fetchStartTime)
        && pushList == old(pushList) && count == old(count) && done == old(done) && fetchTimes == old(fetchTimes)
      ensures sources != [] ==> sourceList == sources && toFetch == Slots(sources)
      ensures sources != [] && !IsSilentDay(weekday) ==>
        && fetchStartTime == startTime && pushList == [] && count == 0 && !done && fetchTimes == 0 && InBatch()
      ensures sources != [] && IsSilentDay(weekday) ==>
        && fetchStartTime == old(fetchStartTime) && pushList == old(pushList) && count == old(count)
        && done == old(done) && fetchTimes == old(fetchTimes)
      ensures Valid()
    {
      isWeeklyTask := weekly;
      if history.Some? {
        HandlePushHistory(history.value, now);
      } else {
        lastFetchTime := now - OneDay;
      }
      if sources != [] {
        HandleSourceList(sources, weekday, startTime);
      }
    }

    /** Handles one source's fetch outcome against the current cutoff. */
    method ParseCheck(source: Source, outcome: Outcome)
      requires Valid()
      modifies this`toFetch, this`pushList, this`count
      ensures AsLedger() == Settle(old(AsLedger()), source, outcome, lastFetchTime)
      ensures Valid()
    {
      if outcome.Failed? {
        return;
      }
      ghost var t := AsLedger();
      SettleFields(t, source, outcome, lastFetchTime);
      SettleKeepsBounded(t, source, outcome, lastFetchTime);
      var records, total := pushList, count;
      if outcome.Feed? && outcome.entries != [] {
        var found := UpdateAfterLastPush(outcome.entries, lastFetchTime);
        if found != [] {
          var taken := found[..Min(MaxArticles, |found|)];
          total := total + |taken|;
          records := records + [Push(source, taken)];
        }
      }
      var slots := toFetch;
      var index := FirstSlot(slots, source.url);
      if index >= 0 {
        slots := slots[index := None];
      }
      assert Ledger(slots, records, total) == Settle(t, source, outcome, lastFetchTime);
      toFetch, pushList, count := slots, records, total;
    }

    /** One fetch round: every slot of the current slot list is fetched
        (round number `fetchTimes`) and its outcome handled, in slot order. */
    method Round(fetch: (Source, nat) -> Outcome)
      requires Valid()
      modifies this`toFetch, this`pushList, this`count
      ensures AsLedger() == RunRound(old(AsLedger()), old(toFetch), fetch, fetchTimes, lastFetchTime)
      ensures Valid()
    {
      var snapshot := toFetch;
      ghost var start := AsLedger();
      var i := 0;
      while i < |snapshot|
        invariant 0 <= i <= |snapshot|
        invariant AsLedger() == RunRound(start, snapshot[..i], fetch, fetchTimes, lastFetchTime)
        invariant Valid()
        decreases |snapshot| - i
      {
        if snapshot[i].Some? {
          var s := snapshot[i].value;
          ParseCheck(s, fetch(s, fetchTimes));
        }
        assert snapshot[..i + 1][..i] == snapshot[..i];
        i := i + 1;
      }
      assert snapshot[..|snapshot|] == snapshot;
    }

    /** Assembles the digest text: the fixed text when there are no
        records; otherwise the header with the count, the weekly banner when
        due, per record its 0-based index line and one line per article,
        and the footer; then the emoji filter. */
    method MakeUpMessage(weekday: int, filterEmoji: string -> string) returns (msg: string)
      ensures msg == filterEmoji(Message(pushList, count, weekday, weeklyUrl))
    {
      var ps := pushList;
      var text := "";
      if |ps| == 0 {
        text := NoNewContent;
        ConcatSnoc([], NoNewContent);
        assert [] + [NoNewContent] == [NoNewContent];
        assert text == Message(ps, count, weekday, weeklyUrl);
      } else {
        text := text + Header(count);
        var banner: seq<string> := [];
        if weekday == WeeklyDay && weeklyUrl != "" {
          text := text + Banner(weeklyUrl);
          banner := [Banner(weeklyUrl)];
          ConcatSnoc([], Banner(weeklyUrl));
          assert [] + banner == banner;
        }
        assert banner == if ShowsBanner(weekday, weeklyUrl) then [Banner(weeklyUrl)] else [];
        assert text == Header(count) + Concat(banner);
        text := AppendSourceLines(text, ps);
        text := text + Footer;
        MessageParts(ps, count, weekday, weeklyUrl);
        ConcatAppend(banner, SourceLines(ps));
        AppendAssoc(Header(count), Concat(banner), Concat(SourceLines(ps)));
        assert text == Header(count) + Concat(banner) + Concat(SourceLines(ps)) + Footer;
        assert text == Message(ps, count, weekday, weeklyUrl);
      }
      msg := filterEmoji(text);
    }

    /** The finish: takes effect once per batch. Sorts the records by
        descending weight and, when there are any, produces the history
        record and, on the weekly day of a weekly batch, the summary issue
        (holding the message). */
    method FetchDataCb(weekday: int, filterEmoji: string -> string)
      returns (record: Option<HistoryRecord>, issue: Option<string>)
      requires Sound()
      modifies this`done, this`pushList
      ensures done && Valid()
      ensures old(InBatch()) ==> InBatch()
      ensures old(done) ==> pushList == old(pushList) && record.None? && issue.None?
      ensures !old(done) ==> pushList == OrderByWeight(old(pushList))
      ensures record.Some? <==> !old(done) && old(pushList) != []
      ensures record.Some? ==>
        record.value == PushRecord(isWeeklyTask, fetchStartTime, filterEmoji(Message(pushList, count, weekday, weeklyUrl)), pushList)
      ensures issue.Some? <==> record.Some? && weekday == WeeklyDay && isWeeklyTask
      ensures issue.Some? ==> issue.value == record.value.content
    {
      record := None;
      issue := None;
      if done {
        return;
      }
      done := true;
      if pushList != [] {
        SortRecords();
        var r;
        r, issue := Report(weekday, filterEmoji);
        record := Some(r);
      }
    }

    /** `orderBy(pushList, 'weight', 'desc')` on the batch state. */
    method SortRecords()
      requires Sound()
      modifies this`pushList
      ensures pushList == OrderByWeight(old(pushList))
      ensures Sound()
      ensures old(InBatch()) ==> InBatch()
    {
      SortKeepsBounded(pushList);
      if InBatch() {
        SortKeepsBatch(AsLedger(), multiset(SourceUrls(batch)));
      }
      pushList := OrderByWeight(pushList);
    }

    /** The outputs of a finish with records: the history record holding
        the digest text and, on the weekly day of a weekly batch, the
        summary issue with the same text. */
    method Report(weekday: int, filterEmoji: string -> string) returns (record: HistoryRecord, issue: Option<string>)
      ensures record == PushRecord(isWeeklyTask, fetchStartTime, filterEmoji(Message(pushList, count, weekday, weeklyUrl)), pushList)
      ensures issue.Some? <==> weekday == WeeklyDay && isWeeklyTask
      ensures issue.Some? ==> issue.value == record.content
    {
      var message := MakeUpMessage(weekday, filterEmoji);
      issue := None;
      if weekday == WeeklyDay && isWeeklyTask {
        issue := Some(message);
      }
      record := PushRecord(isWeeklyTask, fetchStartTime, message, pushList);
    }

    /** A dispatched round, counted in `rounds`. */
    method Dispatch(fetch: (Source, nat) -> Outcome)
      requires Valid() && rounds < fetchTimes < RoundLimit
      modifies this`toFetch, this`pushList, this`count, this`rounds
      ensures AsLedger() == RunRound(old(AsLedger()), old(toFetch), fetch, fetchTimes, lastFetchTime)
      ensures rounds == old(rounds) + 1
      ensures Valid()
      ensures old(InBatch()) ==> InBatch()
    {
      ghost var t := AsLedger();
      Round(fetch);
      rounds := rounds + 1;
      RoundKeepsBounded(t, fetch, fetchTimes, lastFetchTime);
      if old(InBatch()) {
        assert t.toFetch + [] == t.toFetch;
        RoundKeepsInventory(t, t.toFetch, [], fetch, fetchTimes, lastFetchTime, multiset(SourceUrls(batch)));
      }
    }

    /** The finish branch of the controller: de-duplicates the records by
        url (keeping the first of each), then runs the finish. */
    method Finish(weekday: int, filterEmoji: string -> string)
      returns (record: Option<HistoryRecord>, issue: Option<string>)
      requires Valid()
      modifies this`pushList, this`done
      ensures Valid()
      ensures old(InBatch()) ==> InBatch()
      ensures FinishedFrom(old(pushList), old(done), weekday, filterEmoji, record, issue)
    {
      Dedup();
      record, issue := FetchDataCb(weekday, filterEmoji);
      UniqByUrlKeeps(old(pushList));
      if !old(done) {
        OrderByWeightKeepsDistinct(UniqByUrl(old(pushList)));
      }
    }

    /** The state and outputs after the finish branch, from records `ps0`
        and finish flag `done0`: finished, one record per url (the first of
        each); when the batch was not yet finished, the records are sorted
        by descending weight and, when there are any, the history record
        holds the digest of the sorted records, with the summary issue on
        the weekly day of a weekly batch. */
    ghost predicate FinishedFrom(ps0: seq<Push>, done0: bool, weekday: int, filterEmoji: string -> string,
                                 record: Option<HistoryRecord>, issue: Option<string>)
      reads this
    {
      && done && UrlsDistinct(pushList)
      && (done0 ==> pushList == UniqByUrl(ps0) && record.None? && issue.None?)
      && (!done0 ==>
            && pushList == OrderByWeight(UniqByUrl(ps0))
            && (record.Some? <==> pushList != [])
            && (record.Some? ==>
                  record.value == PushRecord(isWeeklyTask, fetchStartTime, filterEmoji(Message(pushList, count, weekday, weeklyUrl)), pushList))
            && (issue.Some? <==> record.Some? && weekday == WeeklyDay && isWeeklyTask)
            && (issue.Some? ==> issue.value == record.value.content))
    }

    /** The state after a dispatched round from ledger `t0`: the round has
        run on the ledger's slots, one more round is counted, and the batch
        is not finished by it. */
    ghost predicate DispatchedFrom(t0: Ledger, done0: bool, rounds0: nat, fetch: (Source, nat) -> Outcome)
      reads this
    {
      && AsLedger() == RunRound(t0, t0.toFetch, fetch, fetchTimes, lastFetchTime)
      && done == done0 && rounds == rounds0 + 1
    }

    /** `uniqBy(pushList, 'url')` on the batch state. */
    method Dedup()
      requires Sound()
      modifies this`pushList
      ensures pushList == UniqByUrl(old(pushList))
      ensures Sound()
      ensures old(InBatch()) ==> InBatch()
    {
      if InBatch() && SingleCopies(multiset(SourceUrls(batch))) {
        UniqByUrlWithinBatch(pushList, multiset(SourceUrls(batch)));
      }
      UniqByUrlTotal(pushList);
      UniqByUrlKeeps(pushList);
      DedupKeepsBounded(pushList);
      pushList := UniqByUrl(pushList);
    }

    /** Counts a controller call and, from the second call on, drops the
        emptied slots. */
    method CountCall()
      requires Valid()
      modifies this`fetchTimes, this`toFetch
      ensures fetchTimes == old(fetchTimes) + 1
      ensures toFetch == Remaining(old(toFetch), fetchTimes)
      ensures Valid() && rounds < fetchTimes
      ensures old(InBatch()) ==> InBatch()
    {
      fetchTimes := fetchTimes + 1;
      if fetchTimes > 1 {
        toFetch := Compact(toFetch);
      }
      assert PendingUrls(toFetch) == PendingUrls(old(toFetch));
    }

        /** The branch of the controller after the call is counted: dispatches
        a round while slots remain and fewer than four calls were made,
        otherwise finishes. */
    method Proceed(fetch: (Source, nat) -> Outcome, weekday: int, filterEmoji: string -> string)
      returns (dispatched: bool, record: Option<HistoryRecord>, issue: Option<string>)
      requires Valid() && rounds < fetchTimes
      modifies this`toFetch, this`pushList, this`count, this`done, this`rounds
      ensures Valid()
      ensures old(InBatch()) ==> InBatch()
      ensures dispatched <==> |old(toFetch)| > 0 && fetchTimes < RoundLimit
      ensures dispatched ==> DispatchedFrom(old(AsLedger()), old(done), old(rounds), fetch) && record.None? && issue.None?
      ensures !dispatched ==>
        && toFetch == old(toFetch) && count == old(count) && rounds == old(rounds)
        && FinishedFrom(old(pushList), old(done), weekday, filterEmoji, record, issue)
    {
      if |toFetch| > 0 && fetchTimes < RoundLimit {
        Dispatch(fetch);
        dispatched, record, issue := true, None, None;
      } else {
        dispatched := false;
        record, issue := Finish(weekday, filterEmoji);
      }
    }

    /** One call of the round controller: counts the call, drops emptied
        slots from the second call on, then either dispatches a round (slots
        remain and fewer than four calls so far) or de-duplicates the records
        by url and finishes. */
    method FetchRSSUpdate(fetch: (Source, nat) -> Outcome, weekday: int, filterEmoji: string -> string)
      returns (dispatched: bool, record: Option<HistoryRecord>, issue: Option<string>)
      requires Valid()
      modifies this`fetchTimes, this`toFetch, this`pushList, this`count, this`done, this`rounds
      ensures Valid()
      ensures old(InBatch()) ==> InBatch()
      ensures fetchTimes == old(fetchTimes) + 1
      ensures dispatched <==> |Remaining(old(toFetch), fetchTimes)| > 0 && fetchTimes < RoundLimit
      ensures dispatched ==>
        DispatchedFrom(Ledger(Remaining(old(toFetch), fetchTimes), old(pushList), old(count)), old(done), old(rounds), fetch)
        && record.None? && issue.None?
      ensures !dispatched ==>
        && toFetch == Remaining(old(toFetch), fetchTimes) && count == old(count) && rounds == old(rounds)
        && FinishedFrom(old(pushList), old(done), weekday, filterEmoji, record, issue)
    {
      CountCall();
      dispatched, record, issue := Proceed(fetch, weekday, filterEmoji);
    }

    /** The result of the weekly summary issue: its url, or "" when none
        came back. */
    method SetWeeklyUrl(res: Option<string>)
      modifies this`weeklyUrl
      ensures weeklyUrl == (if res.Some? then res.value else "")
    {
      weeklyUrl := if res.Some? then res.value else "";
    }

    /** A whole batch driven by repeated controller calls: launch, then call
        the controller until it stops dispatching. The batch ends finished,
        after at most four calls and three rounds, with one record per url
        sorted by descending weight. */
    method RunBatch(fetch: (Source, nat) -> Outcome, weekday: int, filterEmoji: string -> string)
      returns (record: Option<HistoryRecord>, issue: Option<string>)
      requires Valid()
      modifies this`toFetch, this`pushList, this`count, this`done, this`fetchTimes, this`batch, this`rounds
      ensures Valid() && InBatch() && done
      ensures 1 <= fetchTimes <= RoundLimit && rounds == fetchTimes - 1
      ensures batch == sourceList
      ensures UrlsDistinct(pushList) && SortedByWeight(pushList)
      ensures SingleCopies(multiset(SourceUrls(sourceList))) ==> count == TotalArticles(pushList)
      ensures record.Some? <==> pushList != []
    {
      Launch();
      var dispatched := true;
      record := None;
      issue := None;
      while dispatched
        invariant Valid() && InBatch() && batch == sourceList
        invariant dispatched ==> !done && fetchTimes < RoundLimit && rounds == fetchTimes
        invariant !dispatched ==> done && 1 <= fetchTimes <= RoundLimit && rounds == fetchTimes - 1
        invariant !dispatched ==> UrlsDistinct(pushList) && SortedByWeight(pushList) && (record.Some? <==> pushList != [])
        decreases if dispatched then RoundLimit + 1 - fetchTimes else 0
      {
        ghost var ps0 := pushList;
        dispatched, record, issue := FetchRSSUpdate(fetch, weekday, filterEmoji);
        if !dispatched {
          OrderByWeightSorted(UniqByUrl(ps0));
        }
      }
    }
  }
}
