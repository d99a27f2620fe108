/** The digest text: a header with the article count, an optional weekly
    banner, one numbered line per source followed by one line per article,
    and a fixed footer; or a fixed text when nothing was collected. The
    message is specified as the list of its blocks (each ending in a blank
    line, except the footer) and their concatenation. */
module Digest {
  import opened RssTypes
  import opened Aggregation

  const NoNewContent: string := "暂时还没有新增文章~"
  const Footer: string := "历史推送可在[周推送汇总](https://github.com/MechanicianW/little-robot/issues)查看"

  /** The weekday on which the weekly banner may be shown (Friday). */
  const WeeklyDay: int := 5

  function Digit(d: nat): char
    requires d < 10
  {
    ('0' as int + d) as char
  }

  predicate IsDigits(s: string)
  {
    forall i :: 0 <= i < |s| ==> '0' <= s[i] <= '9'
  }

  /** Decimal rendering of a non-negative number, as in a template literal. */
  function NatToString(n: nat): (s: string)
    ensures s != [] && IsDigits(s)
  {
    if n < 10 then [Digit(n)] else NatToString(n / 10) + [Digit(n % 10)]
  }

  /** The number a string of decimal digits denotes. */
  function DecimalValue(s: string): nat
    requires IsDigits(s)
  {
    if s == [] then 0 else DecimalValue(s[..|s| - 1]) * 10 + (s[|s| - 1] as int - '0' as int)
  }

  lemma {:induction false} NatToStringRoundTrip(n: nat)
    ensures DecimalValue(NatToString(n)) == n
  {
    if n >= 10 {
      NatToStringRoundTrip(n / 10);
      var s := NatToString(n);
      assert s[..|s| - 1] == NatToString(n / 10);
    }
  }

  function Header(count: nat): string
  {
    "新鲜货" + NatToString(count) + "篇\n\n"
  }

  function Banner(weeklyUrl: string): string
  {
    "周末愉快~\n\n[本周推送汇总](" + weeklyUrl + ")已生成\n\n"
  }

  /** The banner is shown on the weekly day once a weekly summary url exists. */
  predicate ShowsBanner(weekday: int, weeklyUrl: string)
  {
    weekday == WeeklyDay && weeklyUrl != ""
  }

  /** "<index>.<title> | <n>篇 " for the record at 0-based `index`. */
  function IndexLine(index: nat, p: Push): string
  {
    NatToString(index) + "." + p.source.title + " | " + NatToString(|p.list|) + "篇 \n\n"
  }

  /** A markdown link to one article. */
  function ArticleLine(e: Entry): string
  {
    "[" + e.title + "](" + e.link + ")\n\n"
  }

  function ArticleLines(es: seq<Entry>): (r: seq<string>)
    ensures |r| == |es|
  {
    seq(|es|, i requires 0 <= i < |es| => ArticleLine(es[i]))
  }

  /** The blocks of all records: per record its index line, then its articles. */
  function SourceLines(ps: seq<Push>): seq<string>
    decreases |ps|
  {
    if ps == [] then []
    else
      var n := |ps| - 1;
      SourceLines(ps[..n]) + [IndexLine(n, ps[n])] + ArticleLines(ps[n].list)
  }

  /** All blocks of the message. */
  function Lines(ps: seq<Push>, count: nat, weekday: int, weeklyUrl: string): seq<string>
  {
    if ps == [] then [NoNewContent]
    else
      [Header(count)] + (if ShowsBanner(weekday, weeklyUrl) then [Banner(weeklyUrl)] else [])
      + SourceLines(ps) + [Footer]
  }

  function Concat(ls: seq<string>): string
    decreases |ls|
  {
    if ls == [] then "" else Concat(ls[..|ls| - 1]) + ls[|ls| - 1]
  }

  /** The digest text before emoji filtering. */
  function Message(ps: seq<Push>, count: nat, weekday: int, weeklyUrl: string): string
  {
    Concat(Lines(ps, count, weekday, weeklyUrl))
  }

  lemma ConcatSnoc(ls: seq<string>, s: string)
    ensures Concat(ls + [s]) == Concat(ls) + s
  {
    assert (ls + [s])[..|ls|] == ls;
  }

  lemma {:induction false} ConcatAppend(a: seq<string>, b: seq<string>)
    ensures Concat(a + b) == Concat(a) + Concat(b)
    decreases |b|
  {
    if b == [] {
      assert a + b == a;
    } else {
      var b', last := b[..|b| - 1], b[|b| - 1];
      ConcatAppend(a, b');
      ConcatSnoc(a + b', last);
      assert a + b == (a + b') + [last] by {
        SplitLast(b);
        AppendAssoc(a, b', [last]);
      }
      AppendAssoc(Concat(a), Concat(b'), last);
    }
  }

  /** The text of the first j+1 articles extends that of the first j. */
  lemma ArticleLinesSnoc(es: seq<Entry>, j: nat)
    requires j < |es|
    ensures Concat(ArticleLines(es[..j + 1])) == Concat(ArticleLines(es[..j])) + ArticleLine(es[j])
  {
    assert ArticleLines(es[..j + 1]) == ArticleLines(es[..j]) + [ArticleLine(es[j])];
    ConcatSnoc(ArticleLines(es[..j]), ArticleLine(es[j]));
  }

  /** The text of the first i+1 records extends that of the first i by the
      index line and the article lines of record i. */
  lemma SourceLinesSnoc(ps: seq<Push>, i: nat)
    requires i < |ps|
    ensures Concat(SourceLines(ps[..i + 1]))
      == Concat(SourceLines(ps[..i])) + IndexLine(i, ps[i]) + Concat(ArticleLines(ps[i].list))
  {
    assert ps[..i + 1][..i] == ps[..i];
    var before := SourceLines(ps[..i]) + [IndexLine(i, ps[i])];
    assert SourceLines(ps[..i + 1]) == before + ArticleLines(ps[i].list);
    ConcatAppend(before, ArticleLines(ps[i].list));
    ConcatSnoc(SourceLines(ps[..i]), IndexLine(i, ps[i]));
  }

  lemma {:induction false} SourceLinesLength(ps: seq<Push>)
    ensures |SourceLines(ps)| == |ps| + TotalArticles(ps)
    decreases |ps|
  {
    if ps != [] {
      SourceLinesLength(ps[..|ps| - 1]);
    }
  }

  lemma {:induction false} SourceLinesPrefix(ps: seq<Push>, i: nat)
    requires i <= |ps|
    ensures SourceLines(ps[..i]) <= SourceLines(ps)
    decreases |ps|
  {
    if i < |ps| {
      var n := |ps| - 1;
      assert ps[..n][..i] == ps[..i];
      SourceLinesPrefix(ps[..n], i);
    } else {
      assert ps[..i] == ps;
    }
  }

  /** Record i occupies one index line followed by exactly its article lines,
      starting after the lines of the records before it. */
  lemma SourceBlock(ps: seq<Push>, i: nat)
    requires i < |ps|
    ensures var start := i + TotalArticles(ps[..i]);
      && start + 1 + |ps[i].list| <= |SourceLines(ps)|
      && SourceLines(ps)[start..start + 1 + |ps[i].list|] == [IndexLine(i, ps[i])] + ArticleLines(ps[i].list)
  {
    var upto := ps[..i + 1];
    assert upto[..i] == ps[..i];
    assert upto[i] == ps[i];
    SourceLinesLength(ps[..i]);
    SourceLinesPrefix(ps, i + 1);
    var block := [IndexLine(i, ps[i])] + ArticleLines(ps[i].list);
    AppendAssoc(SourceLines(ps[..i]), [IndexLine(i, ps[i])], ArticleLines(ps[i].list));
    assert SourceLines(upto) == SourceLines(ps[..i]) + block;
    SliceOfPrefix(SourceLines(ps), SourceLines(ps[..i]), block);
  }

  /** The first block of a non-empty listing is the line of record 0. */
  lemma SourceLinesStart(ps: seq<Push>)
    requires ps != []
    ensures SourceLines(ps) != [] && SourceLines(ps)[0] == IndexLine(0, ps[0])
  {
    SourceBlock(ps, 0);
    assert ps[..0] == [];
  }

  /** Shape of the block list: header first and footer last, the banner
      second exactly when it is due, and one block per record plus one per
      article in between. */
  lemma LinesShape(ps: seq<Push>, count: nat, weekday: int, weeklyUrl: string)
    ensures ps == [] ==> Lines(ps, count, weekday, weeklyUrl) == [NoNewContent]
    ensures ps != [] ==>
      var ls := Lines(ps, count, weekday, weeklyUrl);
      && |ls| == 2 + (if ShowsBanner(weekday, weeklyUrl) then 1 else 0) + |ps| + TotalArticles(ps)
      && ls[0] == Header(count)
      && ls[|ls| - 1] == Footer
      && (ls[1] == Banner(weeklyUrl) <==> ShowsBanner(weekday, weeklyUrl))
  {
    if ps != [] {
      SourceLinesLength(ps);
      SourceLinesStart(ps);
      var ls := Lines(ps, count, weekday, weeklyUrl);
      if !ShowsBanner(weekday, weeklyUrl) {
        assert ls[1] == IndexLine(0, ps[0]);
        assert IndexLine(0, ps[0])[0] == '0';
        assert Banner(weeklyUrl)[0] == '周';
      }
    }
  }

  lemma ConcatStart(ls: seq<string>)
    requires ls != [] && ls[0] != ""
    ensures Concat(ls) != "" && Concat(ls)[0] == ls[0][0]
  {
    assert ls == [ls[0]] + ls[1..];
    ConcatAppend([ls[0]], ls[1..]);
    assert Concat([ls[0]]) == ls[0] by { ConcatSnoc([], ls[0]); }
  }

  lemma ConcatFrame(h: string, body: seq<string>, f: string)
    ensures Concat([h] + body + [f]) == h + Concat(body) + f
  {
    ConcatSnoc([h] + body, f);
    ConcatAppend([h], body);
    ConcatSnoc([], h);
  }

  /** The text of a non-empty listing: header, then the banner (when due)
      and the record blocks, then the footer. */
  lemma MessageParts(ps: seq<Push>, count: nat, weekday: int, weeklyUrl: string)
    requires ps != []
    ensures Message(ps, count, weekday, weeklyUrl)
      == Header(count) + Concat((if ShowsBanner(weekday, weeklyUrl) then [Banner(weeklyUrl)] else []) + SourceLines(ps)) + Footer
  {
    var body := (if ShowsBanner(weekday, weeklyUrl) then [Banner(weeklyUrl)] else []) + SourceLines(ps);
    assert Lines(ps, count, weekday, weeklyUrl) == [Header(count)] + body + [Footer];
    ConcatFrame(Header(count), body, Footer);
  }

  /** Shape of the text: the fixed text when nothing was collected; otherwise
      it opens with the header and closes with the footer. */
  lemma MessageFrame(ps: seq<Push>, count: nat, weekday: int, weeklyUrl: string)
    ensures ps == [] ==> Message(ps, count, weekday, weeklyUrl) == NoNewContent
    ensures ps != [] ==>
      var m := Message(ps, count, weekday, weeklyUrl);
      && Header(count) <= m
      && |m| >= |Header(count)| + |Footer|
      && m[|m| - |Footer|..] == Footer
  {
    if ps == [] {
      ConcatSnoc([], NoNewContent);
    } else {
      MessageParts(ps, count, weekday, weeklyUrl);
    }
  }

  lemma BannerStart(weeklyUrl: string)
    ensures Banner(weeklyUrl) != "" && Banner(weeklyUrl)[0] == '周'
  {
  }

  lemma IndexLineStart(p: Push)
    ensures IndexLine(0, p) != "" && IndexLine(0, p)[0] == '0'
  {
  }

  /** Whether `b` starts the text after `h` is decided by `show`, given that
      the rest starts with `b` when `show` holds and with another character
      otherwise. */
  lemma PrefixAfterIff(m: string, h: string, x: string, f: string, b: string, show: bool)
    requires m == h + x + f
    requires show ==> b <= x + f
    requires !show ==> x + f != [] && b != [] && (x + f)[0] != b[0]
    ensures |h| <= |m| && (b <= m[|h|..] <==> show)
  {
    assert m[|h|..] == x + f;
  }

  lemma BannerLeads(b: string, ls: seq<string>, f: string)
    ensures b <= Concat([b] + ls) + f
  {
    ConcatAppend([b], ls);
    ConcatSnoc([], b);
  }

  lemma ListingLeads(ps: seq<Push>, f: string)
    requires ps != []
    ensures Concat(SourceLines(ps)) + f != [] && (Concat(SourceLines(ps)) + f)[0] == '0'
  {
    SourceLinesStart(ps);
    IndexLineStart(ps[0]);
    ConcatStart(SourceLines(ps));
  }

  /** The weekly banner follows the header exactly when it is due. */
  lemma MessageBanner(ps: seq<Push>, count: nat, weekday: int, weeklyUrl: string)
    requires ps != []
    ensures var m := Message(ps, count, weekday, weeklyUrl);
      |Header(count)| <= |m| && (Banner(weeklyUrl) <= m[|Header(count)|..] <==> ShowsBanner(weekday, weeklyUrl))
  {
    var show := ShowsBanner(weekday, weeklyUrl);
    var b := Banner(weeklyUrl);
    var body := (if show then [b] else []) + SourceLines(ps);
    MessageParts(ps, count, weekday, weeklyUrl);
    BannerStart(weeklyUrl);
    if show {
      BannerLeads(b, SourceLines(ps), Footer);
    } else {
      assert body == SourceLines(ps);
      ListingLeads(ps, Footer);
    }
    PrefixAfterIff(Message(ps, count, weekday, weeklyUrl), Header(count), Concat(body), Footer, b, show);
  }
}
