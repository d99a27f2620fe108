/** Values handled by the feed task: feed items, sources, fetch outcomes,
    per-source push records and delivery-history records. */
module RssTypes {

  datatype Option<+T> = None | Some(value: T)

  /** One feed item. `pubDate` is None when the item has no publish date or
      the date does not parse; timestamps are integers (milliseconds). */
  datatype Entry = Entry(title: string, link: string, pubDate: Option<int>)

  /** One syndicated feed as held in the source list. */
  datatype Source = Source(url: string, title: string, weight: int)

  /** A source together with the articles selected from it
      (the source object extended with a `list` field). */
  datatype Push = Push(source: Source, list: seq<Entry>)

  /** What fetching and parsing one source produced:
      - Failed: the fetch or the parse threw (network error, parse error,
        a feed whose `entries` is missing);
      - NoFeed: the parser resolved without a feed structure, which the
        task treats as a success with no new articles;
      - Feed: the parsed feed items, newest first. */
  datatype Outcome = Failed | NoFeed | Feed(entries: seq<Entry>)

  datatype Kind = Daily | Weekly

  /** The title/link projection of an article kept in the history. */
  datatype ArticleRef = ArticleRef(title: string, link: string)

  /** A delivery-history record, as handed to the history writer and as
      read back to choose the next cutoff. */
  datatype HistoryRecord = HistoryRecord(kind: Kind, time: int, content: string, articles: seq<ArticleRef>)

  /** Sequence identities, stated once over any element type. */
  lemma SplitFirst<T>(s: seq<T>)
    requires s != []
    ensures s == [s[0]] + s[1..]
  {
  }

  lemma SplitLast<T>(s: seq<T>)
    requires s != []
    ensures s == s[..|s| - 1] + [s[|s| - 1]]
  {
  }

  lemma AppendAssoc<T>(a: seq<T>, b: seq<T>, c: seq<T>)
    ensures a + (b + c) == (a + b) + c
  {
  }

  lemma AppendParts<T>(a: seq<T>, b: seq<T>)
    ensures (a + b)[..|a|] == a && (a + b)[|a|..] == b
  {
  }

  lemma TailOfUpdate<T>(s: seq<T>, i: nat, v: T)
    requires i < |s|
    ensures i == 0 ==> s[i := v][1..] == s[1..]
    ensures i > 0 ==> s[i := v][1..] == s[1..][i - 1 := v]
  {
  }

  /** Taking one copy out after adding a bag that does not hold it. */
  lemma RemoveAfterAdd<T>(a: multiset<T>, b: multiset<T>, u: T)
    requires u in b
    ensures a + (b - multiset{u}) == (a + b) - multiset{u}
  {
  }

  /** The middle part of a prefix, read off the whole sequence. */
  lemma SliceOfPrefix<T>(s: seq<T>, a: seq<T>, m: seq<T>)
    requires a + m <= s
    ensures |a| + |m| <= |s| && s[|a|..|a| + |m|] == m
  {
    assert s[..|a| + |m|] == a + m;
  }
}
