/** The collection transformations applied to the push list: de-duplication
    by source url, the stable ordering by descending weight, and the flattening
    of all selected articles to their title/link projection. */
module Aggregation {
  import opened RssTypes

  /** The source url of each push record, in order. */
  function Urls(ps: seq<Push>): (r: seq<string>)
    ensures |r| == |ps|
  {
    seq(|ps|, i requires 0 <= i < |ps| => ps[i].source.url)
  }

  lemma UrlsAppend(a: seq<Push>, b: seq<Push>)
    ensures Urls(a + b) == Urls(a) + Urls(b)
  {
    forall k | 0 <= k < |a| + |b| ensures Urls(a + b)[k] == (Urls(a) + Urls(b))[k] {
      if k < |a| {
        assert (a + b)[k] == a[k];
      } else {
        assert (a + b)[k] == b[k - |a|];
      }
    }
  }

  /** At most one push record per source url. */
  predicate UrlsDistinct(ps: seq<Push>)
  {
    forall i, j :: 0 <= i < j < |ps| ==> ps[i].source.url != ps[j].source.url
  }

  /** Every url occurs at most once in the bag. */
  ghost predicate SingleCopies(m: multiset<string>)
  {
    forall u :: m[u] <= 1
  }

  lemma UrlsPrepend(x: Push, s: seq<Push>)
    ensures Urls([x] + s) == [x.source.url] + Urls(s)
  {
    UrlsAppend([x], s);
    assert Urls([x]) == [x.source.url];
  }

  lemma UrlsCons(ps: seq<Push>)
    requires ps != []
    ensures Urls(ps) == [ps[0].source.url] + Urls(ps[1..])
  {
    SplitFirst(ps);
    UrlsAppend([ps[0]], ps[1..]);
    assert Urls([ps[0]]) == [ps[0].source.url];
  }

  lemma {:induction false} DistinctToSingleCopies(ps: seq<Push>)
    requires UrlsDistinct(ps)
    ensures SingleCopies(multiset(Urls(ps)))
  {
    if ps != [] {
      var rest := ps[1..];
      var u := ps[0].source.url;
      assert UrlsDistinct(rest) by {
        forall i, j | 0 <= i < j < |rest| ensures rest[i].source.url != rest[j].source.url {
          assert rest[i] == ps[i + 1] && rest[j] == ps[j + 1];
        }
      }
      DistinctToSingleCopies(rest);
      UrlsCons(ps);
      assert u !in Urls(rest) by {
        forall k | 0 <= k < |rest| ensures Urls(rest)[k] != u {
          assert rest[k] == ps[k + 1];
        }
      }
    }
  }

  lemma {:induction false} SingleCopiesToDistinct(ps: seq<Push>)
    requires SingleCopies(multiset(Urls(ps)))
    ensures UrlsDistinct(ps)
  {
    if ps != [] {
      var rest := ps[1..];
      var u := ps[0].source.url;
      UrlsCons(ps);
      assert multiset(Urls(rest))[u] == 0 by {
        assert multiset(Urls(ps))[u] == 1 + multiset(Urls(rest))[u];
      }
      assert SingleCopies(multiset(Urls(rest))) by {
        forall v ensures multiset(Urls(rest))[v] <= 1 {
          assert multiset(Urls(ps))[v] >= multiset(Urls(rest))[v];
        }
      }
      SingleCopiesToDistinct(rest);
      forall i, j | 0 <= i < j < |ps| ensures ps[i].source.url != ps[j].source.url {
        if i == 0 {
          assert Urls(rest)[j - 1] == ps[j].source.url;
        } else {
          assert rest[i - 1] == ps[i] && rest[j - 1] == ps[j];
        }
      }
    }
  }

  /** "One record per url" is "every url at most once in the bag of urls". */
  lemma DistinctIffSingleCopies(ps: seq<Push>)
    ensures UrlsDistinct(ps) <==> SingleCopies(multiset(Urls(ps)))
  {
    if UrlsDistinct(ps) {
      DistinctToSingleCopies(ps);
    }
    if SingleCopies(multiset(Urls(ps))) {
      SingleCopiesToDistinct(ps);
    }
  }

  /** lodash `uniqBy(pushList, 'url')`: keeps the first record of each url,
      in their original order. */
  function UniqByUrl(ps: seq<Push>): seq<Push>
    decreases |ps|
  {
    if ps == [] then []
    else
      var prefix := ps[..|ps| - 1];
      var last := ps[|ps| - 1];
      var r := UniqByUrl(prefix);
      if last.source.url in Urls(r) then r else r + [last]
  }

  /** The result has one record per url, keeps only records of the input,
      keeps every url of the input and no more copies of a url than the
      input has. */
  lemma {:induction false} UniqByUrlKeeps(ps: seq<Push>)
    ensures var r := UniqByUrl(ps);
      && UrlsDistinct(r)
      && (forall x :: x in r ==> x in ps)
      && (forall u :: u in Urls(r) <==> u in Urls(ps))
      && multiset(Urls(r)) <= multiset(Urls(ps))
    decreases |ps|
  {
    if ps != [] {
      var prefix := ps[..|ps| - 1];
      var last := ps[|ps| - 1];
      UniqByUrlKeeps(prefix);
      var r := UniqByUrl(prefix);
      SplitLast(ps);
      UrlsAppend(prefix, [last]);
      assert Urls([last]) == [last.source.url];
      if last.source.url !in Urls(r) {
        UrlsAppend(r, [last]);
        assert forall i :: 0 <= i < |r| ==> Urls(r)[i] == r[i].source.url;
      }
    }
  }

  /** Reference definition of "keep the first record of each url": the
      records whose url does not occur earlier in the list, in order. */
  function FirstOccurrences(ps: seq<Push>): seq<Push>
    decreases |ps|
  {
    if ps == [] then []
    else
      var prefix := ps[..|ps| - 1];
      var last := ps[|ps| - 1];
      FirstOccurrences(prefix) + if last.source.url in Urls(prefix) then [] else [last]
  }

  lemma {:induction false} UniqByUrlKeepsFirstOccurrences(ps: seq<Push>)
    ensures UniqByUrl(ps) == FirstOccurrences(ps)
    decreases |ps|
  {
    if ps != [] {
      var prefix := ps[..|ps| - 1];
      UniqByUrlKeepsFirstOccurrences(prefix);
      UniqByUrlKeeps(prefix);
      var last := ps[|ps| - 1];
      assert last.source.url in Urls(UniqByUrl(prefix)) <==> last.source.url in Urls(prefix);
    }
  }

  /** With no repeated url there is nothing to drop. */
  lemma {:induction false} UniqByUrlOfDistinct(ps: seq<Push>)
    requires UrlsDistinct(ps)
    ensures UniqByUrl(ps) == ps
    decreases |ps|
  {
    if ps != [] {
      var prefix := ps[..|ps| - 1];
      var last := ps[|ps| - 1];
      assert UrlsDistinct(prefix) by {
        forall i, j | 0 <= i < j < |prefix| ensures prefix[i].source.url != prefix[j].source.url {
          assert prefix[i] == ps[i] && prefix[j] == ps[j];
        }
      }
      UniqByUrlOfDistinct(prefix);
      assert last.source.url !in Urls(prefix) by {
        forall k | 0 <= k < |prefix| ensures Urls(prefix)[k] != last.source.url {
          assert prefix[k] == ps[k];
        }
      }
      SplitLast(ps);
    }
  }

  /** De-duplicating twice is de-duplicating once. */
  lemma UniqByUrlIdempotent(ps: seq<Push>)
    ensures UniqByUrl(UniqByUrl(ps)) == UniqByUrl(ps)
  {
    UniqByUrlKeeps(ps);
    UniqByUrlOfDistinct(UniqByUrl(ps));
  }

  /** Ordered by descending weight. */
  predicate SortedByWeight(ps: seq<Push>)
  {
    forall i, j :: 0 <= i < j < |ps| ==> ps[i].source.weight >= ps[j].source.weight
  }

  /** Puts `x` in front of the first record whose weight is not greater. */
  function InsertByWeight(x: Push, s: seq<Push>): seq<Push>
  {
    if s == [] || s[0].source.weight <= x.source.weight then [x] + s
    else [s[0]] + InsertByWeight(x, s[1..])
  }

  /** Inserting adds exactly `x` to the records and its url to the urls. */
  lemma {:induction false} InsertByWeightPermutes(x: Push, s: seq<Push>)
    ensures multiset(InsertByWeight(x, s)) == multiset(s) + multiset{x}
    ensures multiset(Urls(InsertByWeight(x, s))) == multiset(Urls(s)) + multiset{x.source.url}
  {
    if s == [] || s[0].source.weight <= x.source.weight {
      UrlsPrepend(x, s);
    } else {
      InsertByWeightPermutes(x, s[1..]);
      var t := InsertByWeight(x, s[1..]);
      SplitFirst(s);
      UrlsPrepend(s[0], t);
      UrlsCons(s);
    }
  }

  /** Inserting keeps a common upper bound on the weights. */
  lemma {:induction false} InsertByWeightBound(x: Push, s: seq<Push>, w: int)
    requires x.source.weight <= w
    requires forall k :: 0 <= k < |s| ==> s[k].source.weight <= w
    ensures forall k :: 0 <= k < |InsertByWeight(x, s)| ==> InsertByWeight(x, s)[k].source.weight <= w
  {
    if !(s == [] || s[0].source.weight <= x.source.weight) {
      InsertByWeightBound(x, s[1..], w);
    }
  }

  lemma {:induction false} InsertByWeightSorted(x: Push, s: seq<Push>)
    requires SortedByWeight(s)
    ensures SortedByWeight(InsertByWeight(x, s))
  {
    if !(s == [] || s[0].source.weight <= x.source.weight) {
      var t := InsertByWeight(x, s[1..]);
      InsertByWeightSorted(x, s[1..]);
      InsertByWeightBound(x, s[1..], s[0].source.weight);
      assert InsertByWeight(x, s) == [s[0]] + t;
    }
  }

  function OrderByWeight(ps: seq<Push>): seq<Push>
  {
    if ps == [] then [] else InsertByWeight(ps[0], OrderByWeight(ps[1..]))
  }

  lemma {:induction false} OrderByWeightSorted(ps: seq<Push>)
    ensures SortedByWeight(OrderByWeight(ps))
  {
    if ps != [] {
      OrderByWeightSorted(ps[1..]);
      InsertByWeightSorted(ps[0], OrderByWeight(ps[1..]));
    }
  }

  /** Sorting is a permutation of the records, and so of their urls. */
  lemma {:induction false} OrderByWeightPermutes(ps: seq<Push>)
    ensures multiset(OrderByWeight(ps)) == multiset(ps)
    ensures multiset(Urls(OrderByWeight(ps))) == multiset(Urls(ps))
  {
    if ps != [] {
      OrderByWeightPermutes(ps[1..]);
      InsertByWeightPermutes(ps[0], OrderByWeight(ps[1..]));
      SplitFirst(ps);
      UrlsCons(ps);
    }
  }

  /** The records of one weight, in order. */
  function WithWeight(ps: seq<Push>, w: int): seq<Push>
  {
    if ps == [] then []
    else (if ps[0].source.weight == w then [ps[0]] else []) + WithWeight(ps[1..], w)
  }

  lemma WithWeightPrepend(x: Push, s: seq<Push>, w: int)
    ensures WithWeight([x] + s, w) == (if x.source.weight == w then [x] else []) + WithWeight(s, w)
  {
    assert ([x] + s)[1..] == s;
  }

  lemma {:induction false} InsertByWeightStable(x: Push, s: seq<Push>, w: int)
    requires SortedByWeight(s)
    ensures WithWeight(InsertByWeight(x, s), w)
      == (if x.source.weight == w then [x] else []) + WithWeight(s, w)
  {
    if s == [] || s[0].source.weight <= x.source.weight {
      WithWeightPrepend(x, s, w);
    } else {
      InsertByWeightStable(x, s[1..], w);
      var t := InsertByWeight(x, s[1..]);
      WithWeightPrepend(s[0], t, w);
      WithWeightPrepend(s[0], s[1..], w);
      SplitFirst(s);
      var cx: seq<Push> := if x.source.weight == w then [x] else [];
      var c0: seq<Push> := if s[0].source.weight == w then [s[0]] else [];
      assert cx == [] || c0 == [];
      AppendAssoc(c0, cx, WithWeight(s[1..], w));
      AppendAssoc(cx, c0, WithWeight(s[1..], w));
    }
  }

  /** Stability: records of equal weight keep their relative order. */
  lemma {:induction false} OrderByWeightStable(ps: seq<Push>, w: int)
    ensures WithWeight(OrderByWeight(ps), w) == WithWeight(ps, w)
  {
    if ps != [] {
      OrderByWeightStable(ps[1..], w);
      OrderByWeightSorted(ps[1..]);
      InsertByWeightStable(ps[0], OrderByWeight(ps[1..]), w);
    }
  }

  /** Number of selected articles over all records. */
  function TotalArticles(ps: seq<Push>): nat
    decreases |ps|
  {
    if ps == [] then 0 else TotalArticles(ps[..|ps| - 1]) + |ps[|ps| - 1].list|
  }

  lemma {:induction false} TotalArticlesAppend(a: seq<Push>, b: seq<Push>)
    ensures TotalArticles(a + b) == TotalArticles(a) + TotalArticles(b)
    decreases |b|
  {
    if b != [] {
      var b' := b[..|b| - 1];
      assert (a + b)[..|a + b| - 1] == a + b';
      assert (a + b)[|a + b| - 1] == b[|b| - 1];
      TotalArticlesAppend(a, b');
    } else {
      assert a + b == a;
    }
  }

  lemma TotalArticlesSnoc(ps: seq<Push>, p: Push)
    ensures TotalArticles(ps + [p]) == TotalArticles(ps) + |p.list|
  {
    AppendParts(ps, [p]);
  }

  lemma TotalArticlesPrepend(x: Push, s: seq<Push>)
    ensures TotalArticles([x] + s) == |x.list| + TotalArticles(s)
  {
    TotalArticlesAppend([x], s);
    assert TotalArticles([x]) == |x.list| by { assert [x][..0] == []; }
  }

  lemma {:induction false} TotalArticlesInsert(x: Push, s: seq<Push>)
    ensures TotalArticles(InsertByWeight(x, s)) == |x.list| + TotalArticles(s)
  {
    if s == [] || s[0].source.weight <= x.source.weight {
      TotalArticlesPrepend(x, s);
    } else {
      TotalArticlesInsert(x, s[1..]);
      TotalArticlesPrepend(s[0], InsertByWeight(x, s[1..]));
      TotalArticlesPrepend(s[0], s[1..]);
      SplitFirst(s);
    }
  }

  /** Sorting neither adds nor drops articles. */
  lemma {:induction false} TotalArticlesOrderByWeight(ps: seq<Push>)
    ensures TotalArticles(OrderByWeight(ps)) == TotalArticles(ps)
  {
    if ps != [] {
      TotalArticlesOrderByWeight(ps[1..]);
      TotalArticlesInsert(ps[0], OrderByWeight(ps[1..]));
      TotalArticlesPrepend(ps[0], ps[1..]);
      SplitFirst(ps);
    }
  }

  /** De-duplicating never adds articles. */
  lemma {:induction false} UniqByUrlTotal(ps: seq<Push>)
    ensures TotalArticles(UniqByUrl(ps)) <= TotalArticles(ps)
    decreases |ps|
  {
    if ps != [] {
      var prefix := ps[..|ps| - 1];
      var last := ps[|ps| - 1];
      UniqByUrlTotal(prefix);
      var r := UniqByUrl(prefix);
      assert (r + [last])[..|r|] == r;
    }
  }

  /** The title/link projection of each article. */
  function Refs(es: seq<Entry>): (r: seq<ArticleRef>)
    ensures |r| == |es|
  {
    seq(|es|, i requires 0 <= i < |es| => ArticleRef(es[i].title, es[i].link))
  }

  /** All articles of all records, flattened in record order and projected to
      title and link. */
  function Articles(ps: seq<Push>): (r: seq<ArticleRef>)
    ensures |r| == TotalArticles(ps)
    decreases |ps|
  {
    if ps == [] then [] else Articles(ps[..|ps| - 1]) + Refs(ps[|ps| - 1].list)
  }

  /** Article j of record i sits at position TotalArticles(ps[..i]) + j. */
  lemma {:induction false} ArticlesAt(ps: seq<Push>, i: nat, j: nat)
    requires i < |ps| && j < |ps[i].list|
    ensures TotalArticles(ps[..i]) + j < |Articles(ps)|
    ensures Articles(ps)[TotalArticles(ps[..i]) + j] == ArticleRef(ps[i].list[j].title, ps[i].list[j].link)
    decreases |ps|
  {
    var prefix := ps[..|ps| - 1];
    assert Articles(ps) == Articles(prefix) + Refs(ps[|ps| - 1].list);
    if i == |ps| - 1 {
      assert ps[..i] == prefix;
    } else {
      assert prefix[..i] == ps[..i];
      ArticlesAt(prefix, i, j);
    }
  }

  /** `arts` holds every article of every record of `ps`, in record order,
      as its title and link: article j of record i at position
      TotalArticles(ps[..i]) + j. */
  predicate FlattenedFrom(arts: seq<ArticleRef>, ps: seq<Push>)
  {
    forall i, j :: 0 <= i < |ps| && 0 <= j < |ps[i].list| ==>
      var k := TotalArticles(ps[..i]) + j;
      k < |arts| && arts[k] == ArticleRef(ps[i].list[j].title, ps[i].list[j].link)
  }

  lemma ArticlesFlatten(ps: seq<Push>)
    ensures FlattenedFrom(Articles(ps), ps)
  {
    var arts := Articles(ps);
    forall i, j | 0 <= i < |ps| && 0 <= j < |ps[i].list|
      ensures TotalArticles(ps[..i]) + j < |arts|
      ensures arts[TotalArticles(ps[..i]) + j] == ArticleRef(ps[i].list[j].title, ps[i].list[j].link)
    {
      ArticlesAt(ps, i, j);
    }
  }
}
