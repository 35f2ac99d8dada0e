/**
 * The application shell: the Header's home/dashboard toggle and the
 * Dashboard's statistics over the history (total, average trust score,
 * image/video shares, recent entries, issue counts and the top issues,
 * per-key metric means).
 */
module App {
  import opened Wrappers
  import opened Numbers
  import opened Items
  import opened SessionStore
  import opened Submission

  // ---------------------------------------------------------------- Header

  datatype View = Home | Dashboard

  /** The Header's second button: back home from the dashboard, to the dashboard from anywhere else. */
  function NextView(current: View): (v: View)
    ensures current == Dashboard ==> v == Home
    ensures current != Dashboard ==> v == Dashboard
  {
    if current == Dashboard then Home else Dashboard
  }

  /** Two presses come back to where they started. */
  lemma NextViewInvolution(current: View)
    ensures NextView(NextView(current)) == current
  {
  }

  // ---------------------------------------------------------------- Scores

  /** The reduce step: a missing score counts as 0. */
  function ScoreOf(item: AnalysisItem): real {
    item.score.GetOr(0.0)
  }

  /** `history.reduce((a, b) => a + (b.score ?? 0), 0)`. */
  function ScoreSum(h: seq<AnalysisItem>): real {
    if h == [] then 0.0 else ScoreSum(h[..|h| - 1]) + ScoreOf(h[|h| - 1])
  }

  /** Every entry's score, where present, lies in [0, 1]. */
  predicate ScoresInUnit(h: seq<AnalysisItem>) {
    forall i :: 0 <= i < |h| ==> 0.0 <= ScoreOf(h[i]) <= 1.0
  }

  lemma {:induction false} ScoreSumBounds(h: seq<AnalysisItem>)
    requires ScoresInUnit(h)
    ensures 0.0 <= ScoreSum(h) <= |h| as real
  {
    if h != [] {
      var p := h[..|h| - 1];
      assert ScoresInUnit(p) by {
        forall i | 0 <= i < |p| ensures 0.0 <= ScoreOf(p[i]) <= 1.0 {
          assert p[i] == h[i];
        }
      }
      ScoreSumBounds(p);
    }
  }

  /** `avgScore`: the mean score as a rounded percentage, 0 for an empty history. */
  function AvgScore(h: seq<AnalysisItem>): (r: int)
    ensures h == [] ==> r == 0
  {
    if |h| == 0 then 0 else Round(ScoreSum(h) / |h| as real * 100.0)
  }

  /** With scores in [0, 1] the average is a percentage. */
  lemma AvgScoreIsPercent(h: seq<AnalysisItem>)
    requires ScoresInUnit(h)
    ensures 0 <= AvgScore(h) <= 100
  {
    if h != [] {
      ScoreSumBounds(h);
      RoundPercent(ScoreSum(h) / |h| as real);
    }
  }

  /** A history the submissions built has an average trust score in [0, 100]. */
  lemma EngineAvgScoreIsPercent(s: UIState)
    requires HistoryFromEngine(s)
    ensures 0 <= AvgScore(s.history) <= 100
  {
    assert ScoresInUnit(s.history) by {
      forall i | 0 <= i < |s.history| ensures 0.0 <= ScoreOf(s.history[i]) <= 1.0 {
        assert EngineDone(s.history[i]);
      }
    }
    AvgScoreIsPercent(s.history);
  }

  // ---------------------------------------------------------------- Shares

  /** `history.filter(h => h.type === t).length`. */
  function CountType(h: seq<AnalysisItem>, t: MediaType): (n: nat)
    ensures n <= |h|
  {
    if h == [] then 0
    else CountType(h[..|h| - 1], t) + (if h[|h| - 1].mediaType == t then 1 else 0)
  }

  /** Every entry is an image or a video. */
  lemma {:induction false} CountTypesPartition(h: seq<AnalysisItem>)
    ensures CountType(h, Image) + CountType(h, Video) == |h|
  {
    if h != [] {
      CountTypesPartition(h[..|h| - 1]);
    }
  }

  /** The "Image %" and "Video %" cards, which are shown only for a non-empty history. */
  function SharePct(h: seq<AnalysisItem>, t: MediaType): (r: Option<int>)
    ensures r.None? <==> h == []
    ensures r.Some? ==> 0 <= r.value <= 100
  {
    if |h| == 0 then None
    else
      var x := CountType(h, t) as real / |h| as real;
      RoundPercent(x);
      Some(Round(x * 100.0))
  }

  /**
   * The two shares add up to 100, or to 101 when both land on a half
   * (one image in eight entries shows 13% and 88%).
   */
  lemma SharesSum(h: seq<AnalysisItem>)
    requires h != []
    ensures 100 <= SharePct(h, Image).value + SharePct(h, Video).value <= 101
  {
    CountTypesPartition(h);
    var n := |h| as real;
    var x := CountType(h, Image) as real / n;
    var y := CountType(h, Video) as real / n;
    FractionsAddUp(CountType(h, Image) as real, CountType(h, Video) as real, n);
    assert y * 100.0 == 100.0 - x * 100.0;
    RoundComplement(x * 100.0);
  }

  /** The example above: one image among eight entries. */
  lemma SharesCanSumTo101(h: seq<AnalysisItem>)
    requires |h| == 8 && CountType(h, Image) == 1
    ensures SharePct(h, Image) == Some(13) && SharePct(h, Video) == Some(88)
  {
    CountTypesPartition(h);
    assert CountType(h, Image) as real / 8.0 * 100.0 == 12.5;
    assert CountType(h, Video) as real / 8.0 * 100.0 == 87.5;
  }

  // ---------------------------------------------------------------- Recent

  const RecentCount := 5

  /** `history.slice(0, 5)`: the newest entries, in history order. */
  function Recent(h: seq<AnalysisItem>): (r: seq<AnalysisItem>)
    ensures |r| == if |h| < RecentCount then |h| else RecentCount
    ensures r <= h
  {
    if |h| < RecentCount then h else h[..RecentCount]
  }

  // ---------------------------------------------------------------- Distinct keys in first-seen order

  predicate Distinct(xs: seq<string>) {
    forall i, j :: 0 <= i < j < |xs| ==> xs[i] != xs[j]
  }

  /**
   * The keys of a JavaScript object filled by walking `xs`, in the order
   * `Object.entries` lists them: each key once, where it first occurred.
   */
  function FirstSeen(xs: seq<string>): (r: seq<string>)
    ensures forall x :: x in r <==> x in xs
    ensures Distinct(r)
  {
    if xs == [] then []
    else
      var p := FirstSeen(xs[..|xs| - 1]);
      var x := xs[|xs| - 1];
      assert xs == xs[..|xs| - 1] + [x];
      if x in p then p else p + [x]
  }

  /** Where `x` first occurs in `xs`. */
  function FirstIndex(xs: seq<string>, x: string): (k: nat)
    requires x in xs
    ensures k < |xs| && xs[k] == x
    ensures forall j :: 0 <= j < k ==> xs[j] != x
  {
    if xs[0] == x then 0 else 1 + FirstIndex(xs[1..], x)
  }

  lemma {:induction false} FirstIndexPrefix(xs: seq<string>, y: string, x: string)
    requires x in xs
    ensures FirstIndex(xs + [y], x) == FirstIndex(xs, x)
  {
    if xs[0] != x {
      assert (xs + [y])[1..] == xs[1..] + [y];
      FirstIndexPrefix(xs[1..], y, x);
    }
  }

  /** FirstSeen lists the keys in the order of their first occurrences. */
  lemma {:induction false} FirstSeenOrder(xs: seq<string>, i: nat, j: nat)
    requires i < j < |FirstSeen(xs)|
    ensures FirstIndex(xs, FirstSeen(xs)[i]) < FirstIndex(xs, FirstSeen(xs)[j])
  {
    var q := xs[..|xs| - 1];
    var x := xs[|xs| - 1];
    var p := FirstSeen(q);
    var r := FirstSeen(xs);
    assert xs == q + [x];
    assert r[i] == p[i];
    FirstIndexPrefix(q, x, p[i]);
    if j < |p| {
      assert r[j] == p[j];
      FirstSeenOrder(q, i, j);
      FirstIndexPrefix(q, x, p[j]);
    } else {
      assert r == p + [x] && x !in q;
      assert forall k :: 0 <= k < |q| ==> xs[k] == q[k];
    }
  }

  // ---------------------------------------------------------------- Issue counts

  /** The labels of one entry's issues, in order; an entry without issues has none. */
  function LabelsOf(item: AnalysisItem): (r: seq<string>)
    ensures item.issues.None? ==> r == []
    ensures item.issues.Some? ==> |r| == |item.issues.value|
  {
    if item.issues.None? then []
    else seq(|item.issues.value|, k requires 0 <= k < |item.issues.value| => item.issues.value[k].labelText)
  }

  /** Every issue label of the history, entry by entry, in the order the nested `forEach` visits them. */
  function AllLabels(h: seq<AnalysisItem>): seq<string> {
    if h == [] then [] else AllLabels(h[..|h| - 1]) + LabelsOf(h[|h| - 1])
  }

  lemma {:induction false} AllLabelsAppend(a: seq<AnalysisItem>, b: seq<AnalysisItem>)
    ensures AllLabels(a + b) == AllLabels(a) + AllLabels(b)
  {
    if b == [] {
      assert a + b == a;
    } else {
      var c := b[..|b| - 1];
      var last := b[|b| - 1];
      assert a + b == (a + c) + [last];
      assert b == c + [last];
      AllLabelsSnoc(a + c, last);
      AllLabelsSnoc(c, last);
      AllLabelsAppend(a, c);
    }
  }

  lemma AllLabelsSnoc(h: seq<AnalysisItem>, item: AnalysisItem)
    ensures AllLabels(h + [item]) == AllLabels(h) + LabelsOf(item)
  {
    assert (h + [item])[..|h|] == h;
  }

  /** One `[label, count]` pair of `Object.entries(issueCounts)`. */
  datatype LabelCount = LabelCount(labelText: string, count: nat)

  /** `Object.entries` of the object counting the labels `xs`. */
  function Entries(xs: seq<string>): (r: seq<LabelCount>)
    ensures |r| == |FirstSeen(xs)|
    ensures forall k :: 0 <= k < |r| ==> r[k].labelText == FirstSeen(xs)[k] && r[k].count == multiset(xs)[r[k].labelText]
  {
    var order := FirstSeen(xs);
    seq(|order|, k requires 0 <= k < |order| => LabelCount(order[k], multiset(xs)[order[k]]))
  }

  /** `Object.entries(issueCounts)` for the history `h`. */
  function IssueCounts(h: seq<AnalysisItem>): seq<LabelCount> {
    Entries(AllLabels(h))
  }

  /** Every label of `xs` is listed, and only those. */
  ghost predicate ListsLabels(r: seq<LabelCount>, xs: seq<string>) {
    forall l :: l in xs <==> exists k :: 0 <= k < |r| && r[k].labelText == l
  }

  /** Each listed count is the label's number of occurrences in `xs`, and positive. */
  ghost predicate CountsOccurrences(r: seq<LabelCount>, xs: seq<string>) {
    forall k :: 0 <= k < |r| ==> r[k].count == multiset(xs)[r[k].labelText] && r[k].count > 0
  }

  /** No label is listed twice. */
  ghost predicate LabelsDistinct(r: seq<LabelCount>) {
    forall i, j :: 0 <= i < j < |r| ==> r[i].labelText != r[j].labelText
  }

  /** Labels are listed in the order of their first occurrence in `xs`. */
  ghost predicate InFirstSeenOrder(r: seq<LabelCount>, xs: seq<string>) {
    forall i, j :: 0 <= i < j < |r| ==>
      r[i].labelText in xs && r[j].labelText in xs && FirstIndex(xs, r[i].labelText) < FirstIndex(xs, r[j].labelText)
  }

  /** Every label that occurs is listed, with its positive count, and only those. */
  lemma EntriesCover(xs: seq<string>)
    ensures ListsLabels(Entries(xs), xs)
    ensures CountsOccurrences(Entries(xs), xs)
  {
    var r := Entries(xs);
    var order := FirstSeen(xs);
    forall l | l in xs ensures exists k :: 0 <= k < |r| && r[k].labelText == l {
      var k :| 0 <= k < |order| && order[k] == l;
      assert r[k].labelText == l;
    }
    forall k | 0 <= k < |r| ensures r[k].count > 0 {
      assert order[k] in xs;
    }
  }

  /** Each label is listed once, in the order of first occurrence. */
  lemma EntriesOrder(xs: seq<string>)
    ensures LabelsDistinct(Entries(xs))
    ensures InFirstSeenOrder(Entries(xs), xs)
  {
    var r := Entries(xs);
    forall i, j | 0 <= i < j < |r|
      ensures r[i].labelText in xs && r[j].labelText in xs && FirstIndex(xs, r[i].labelText) < FirstIndex(xs, r[j].labelText)
    {
      assert FirstSeen(xs)[i] in FirstSeen(xs) && FirstSeen(xs)[j] in FirstSeen(xs);
      FirstSeenOrder(xs, i, j);
    }
  }

  /**
   * The issue counts list every label that occurs in the history, each once,
   * with its number of occurrences, in the order labels were first counted.
   */
  lemma IssueCountsSpec(h: seq<AnalysisItem>)
    ensures ListsLabels(IssueCounts(h), AllLabels(h))
    ensures CountsOccurrences(IssueCounts(h), AllLabels(h))
    ensures LabelsDistinct(IssueCounts(h))
    ensures InFirstSeenOrder(IssueCounts(h), AllLabels(h))
  {
    EntriesCover(AllLabels(h));
    EntriesOrder(AllLabels(h));
  }

  /** An entry without issues contributes nothing to the counts. */
  lemma NoIssuesExcluded(a: seq<AnalysisItem>, item: AnalysisItem, b: seq<AnalysisItem>)
    requires item.issues.None?
    ensures IssueCounts(a + [item] + b) == IssueCounts(a + b)
  {
    AllLabelsAppend(a + [item], b);
    AllLabelsAppend(a, [item]);
    AllLabelsAppend(a, b);
    assert AllLabels([item]) == [] by {
      assert [item][..0] == [];
    }
    assert AllLabels(a + [item]) == AllLabels(a);
    assert AllLabels(a + [item] + b) == AllLabels(a + b);
  }

  /** A JavaScript object used as a counting dictionary: its entries and the order its keys were added in. */
  datatype Counter = Counter(counts: map<string, nat>, order: seq<string>)

  /** `obj[l] = (obj[l] || 0) + 1`: a new key goes to the end of the key order. */
  function Bump(c: Counter, l: string): (r: Counter)
    ensures l in r.counts
  {
    if l in c.counts then Counter(c.counts[l := c.counts[l] + 1], c.order)
    else Counter(c.counts[l := 1], c.order + [l])
  }

  /** The counter after the labels `xs`: its keys in first-seen order, and each count. */
  ghost predicate Tally(c: Counter, xs: seq<string>) {
    && c.order == FirstSeen(xs)
    && (forall l :: l in c.counts <==> l in xs)
    && (forall l :: l in c.counts ==> c.counts[l] == multiset(xs)[l])
  }

  /** `Object.entries` of the counter. */
  function EntriesOf(c: Counter): seq<LabelCount>
    requires forall l :: l in c.order ==> l in c.counts
  {
    seq(|c.order|, k requires 0 <= k < |c.order| => LabelCount(c.order[k], c.counts[c.order[k]]))
  }

  lemma TallyEntries(c: Counter, xs: seq<string>)
    requires Tally(c, xs)
    ensures forall l :: l in c.order ==> l in c.counts
    ensures EntriesOf(c) == Entries(xs)
  {
  }

  /** Counting one more label keeps the counter in step with the labels seen. */
  lemma TallyBump(c: Counter, xs: seq<string>, l: string)
    requires Tally(c, xs)
    ensures Tally(Bump(c, l), xs + [l])
  {
    var ys := xs + [l];
    assert ys[..|xs|] == xs;
    assert multiset(ys) == multiset(xs) + multiset{l};
    var r := Bump(c, l);
    forall k | k in r.counts ensures r.counts[k] == multiset(ys)[k] {
      if k != l {
        assert k in c.counts;
      }
    }
  }

  /** The `j`-th step of the inner loop appends the `j`-th label. */
  lemma TallyStep(c: Counter, before: seq<string>, labels: seq<string>, j: nat)
    requires j < |labels| && Tally(c, before + labels[..j])
    ensures Tally(Bump(c, labels[j]), before + labels[..j + 1])
  {
    assert before + labels[..j + 1] == (before + labels[..j]) + [labels[j]];
    TallyBump(c, before + labels[..j], labels[j]);
  }

  lemma AllLabelsStep(history: seq<AnalysisItem>, i: nat)
    requires i < |history|
    ensures AllLabels(history[..i + 1]) == AllLabels(history[..i]) + LabelsOf(history[i])
  {
    assert history[..i + 1][..i] == history[..i];
  }

  /** The outer `forEach` callback: `h.issues?.forEach(...)` counts the entry's labels, if it has issues. */
  method CountEntryIssues(c: Counter, item: AnalysisItem, ghost before: seq<string>) returns (r: Counter)
    requires Tally(c, before)
    ensures Tally(r, before + LabelsOf(item))
  {
    r := c;
    ghost var labels := LabelsOf(item);
    if item.issues.Some? {
      var issues := item.issues.value;
      var j := 0;
      assert before + labels[..0] == before;
      while j < |issues|
        invariant 0 <= j <= |issues|
        invariant Tally(r, before + labels[..j])
      {
        TallyStep(r, before, labels, j);
        r := Bump(r, issues[j].labelText);
        j := j + 1;
      }
      assert labels[..j] == labels;
    } else {
      assert before + labels == before;
    }
  }

  /**
   * The nested `forEach` that fills `issueCounts`, followed by
   * `Object.entries`: the result is `IssueCounts(history)`.
   */
  method CountIssues(history: seq<AnalysisItem>) returns (entries: seq<LabelCount>)
    ensures entries == IssueCounts(history)
  {
    var issueCounts := Counter(map[], []);
    var i := 0;
    while i < |history|
      invariant 0 <= i <= |history|
      invariant Tally(issueCounts, AllLabels(history[..i]))
    {
      AllLabelsStep(history, i);
      issueCounts := CountEntryIssues(issueCounts, history[i], AllLabels(history[..i]));
      i := i + 1;
    }
    assert history[..i] == history;
    TallyEntries(issueCounts, AllLabels(history));
    entries := EntriesOf(issueCounts);
  }

  // ---------------------------------------------------------------- Top issues

  /** Non-increasing by count. */
  predicate SortedByCount(es: seq<LabelCount>) {
    forall i, j :: 0 <= i < j < |es| ==> es[i].count >= es[j].count
  }

  /** The entries with count `c`, in their order. */
  function WithCount(es: seq<LabelCount>, c: nat): seq<LabelCount> {
    if es == [] then [] else (if es[0].count == c then [es[0]] else []) + WithCount(es[1..], c)
  }

  /** Insert `x` before the first entry whose count does not exceed its own. */
  function Insert(x: LabelCount, s: seq<LabelCount>): (r: seq<LabelCount>)
    ensures multiset(r) == multiset(s) + multiset{x}
  {
    if s == [] || s[0].count <= x.count then [x] + s
    else
      assert s == [s[0]] + s[1..];
      [s[0]] + Insert(x, s[1..])
  }

  /** Dropping the head of a sorted list leaves it sorted. */
  lemma TailSorted(s: seq<LabelCount>)
    requires s != [] && SortedByCount(s)
    ensures SortedByCount(s[1..])
  {
    var tail := s[1..];
    forall i, j | 0 <= i < j < |tail| ensures tail[i].count >= tail[j].count {
      assert tail[i] == s[i + 1] && tail[j] == s[j + 1];
    }
  }

  /** An entry in front of a sorted list keeps it sorted when its count is at least the head's. */
  lemma ConsSorted(e: LabelCount, t: seq<LabelCount>)
    requires SortedByCount(t)
    requires t != [] ==> e.count >= t[0].count
    ensures SortedByCount([e] + t)
  {
    var r := [e] + t;
    forall i, j | 0 <= i < j < |r| ensures r[i].count >= r[j].count {
      assert r[j] == t[j - 1];
      if i > 0 {
        assert r[i] == t[i - 1];
      } else if j > 1 {
        assert t[0].count >= t[j - 1].count;
      }
    }
  }

  /** The head of an insertion is the inserted entry or the old head. */
  lemma InsertHead(x: LabelCount, s: seq<LabelCount>)
    ensures Insert(x, s) != []
    ensures Insert(x, s)[0] == x || (s != [] && Insert(x, s)[0] == s[0])
  {
  }

  lemma {:induction false} InsertSorted(x: LabelCount, s: seq<LabelCount>)
    requires SortedByCount(s)
    ensures SortedByCount(Insert(x, s))
  {
    if s == [] || s[0].count <= x.count {
      ConsSorted(x, s);
    } else {
      var tail := s[1..];
      TailSorted(s);
      InsertSorted(x, tail);
      var t := Insert(x, tail);
      InsertHead(x, tail);
      if tail != [] {
        assert s[0].count >= s[1].count;
      }
      ConsSorted(s[0], t);
    }
  }

  /**
   * `sort((a, b) => b[1] - a[1])`: Array.prototype.sort is stable, so an
   * insertion sort that keeps equal counts in their order.
   */
  function SortByCount(es: seq<LabelCount>): (r: seq<LabelCount>)
    ensures multiset(r) == multiset(es)
    ensures SortedByCount(r)
  {
    if es == [] then []
    else
      assert es == [es[0]] + es[1..];
      InsertSorted(es[0], SortByCount(es[1..]));
      Insert(es[0], SortByCount(es[1..]))
  }

  /** The entries of count `c` among `[e] + s`: `e` first when it has that count. */
  lemma WithCountCons(e: LabelCount, s: seq<LabelCount>, c: nat)
    ensures WithCount([e] + s, c) == (if e.count == c then [e] else []) + WithCount(s, c)
  {
    assert ([e] + s)[1..] == s;
  }

  /** Insertion only passes over entries of larger count, so it keeps the order within each count. */
  lemma {:induction false} InsertWithCount(x: LabelCount, s: seq<LabelCount>, c: nat)
    ensures WithCount(Insert(x, s), c) == WithCount([x] + s, c)
  {
    if s != [] && s[0].count > x.count {
      var tail := s[1..];
      var t := Insert(x, tail);
      assert Insert(x, s) == [s[0]] + t;
      assert s == [s[0]] + tail;
      InsertWithCount(x, tail, c);
      WithCountCons(s[0], t, c);
      WithCountCons(x, tail, c);
      WithCountCons(x, s, c);
      WithCountCons(s[0], tail, c);
      if x.count == c {
        assert WithCount(Insert(x, s), c) == WithCount(t, c);
        assert WithCount(s, c) == WithCount(tail, c);
      } else {
        assert WithCount(t, c) == WithCount(tail, c);
        assert WithCount([x] + s, c) == WithCount(s, c);
      }
    }
  }

  /** Sorting keeps the entries of each count in their original order: the sort is stable. */
  lemma {:induction false} SortByCountStable(es: seq<LabelCount>, c: nat)
    ensures WithCount(SortByCount(es), c) == WithCount(es, c)
  {
    if es != [] {
      var rest := SortByCount(es[1..]);
      SortByCountStable(es[1..], c);
      InsertWithCount(es[0], rest, c);
      WithCountCons(es[0], rest, c);
      WithCountCons(es[0], es[1..], c);
      assert es == [es[0]] + es[1..];
    }
  }

  const TopCount := 5

  /** `topIssues`: the five most frequent labels, most frequent first. */
  function TopIssues(h: seq<AnalysisItem>): (r: seq<LabelCount>)
    ensures |r| <= TopCount
    ensures |r| == if |SortByCount(IssueCounts(h))| < TopCount then |SortByCount(IssueCounts(h))| else TopCount
    ensures SortedByCount(r)
    ensures r <= SortByCount(IssueCounts(h))
  {
    var sorted := SortByCount(IssueCounts(h));
    if |sorted| < TopCount then sorted else sorted[..TopCount]
  }

  /** No label left out of the top list was counted more often than one in it. */
  lemma TopIssuesAreLargest(h: seq<AnalysisItem>)
    ensures var r := TopIssues(h);
      forall e :: e in IssueCounts(h) && e !in r ==> forall j :: 0 <= j < |r| ==> e.count <= r[j].count
  {
    var r := TopIssues(h);
    var sorted := SortByCount(IssueCounts(h));
    forall e | e in IssueCounts(h) && e !in r ensures forall j :: 0 <= j < |r| ==> e.count <= r[j].count {
      assert e in multiset(sorted);
      var k :| 0 <= k < |sorted| && sorted[k] == e;
      PrefixIndex(sorted, r, k);
    }
  }

  /** An element of a sequence at an index below a prefix's length belongs to that prefix. */
  lemma PrefixIndex(s: seq<LabelCount>, r: seq<LabelCount>, k: nat)
    requires r <= s && k < |s|
    ensures k < |r| ==> s[k] in r
  {
    if k < |r| {
      assert r[k] == s[k];
    }
  }

  /** Where the `k`-th entry lands among the entries of its count. */
  function Pos(s: seq<LabelCount>, c: nat, k: nat): (p: nat)
    requires k < |s| && s[k].count == c
    ensures p < |WithCount(s, c)| && WithCount(s, c)[p] == s[k]
  {
    if k == 0 then 0
    else
      assert s[k] == s[1..][k - 1];
      (if s[0].count == c then 1 else 0) + Pos(s[1..], c, k - 1)
  }

  lemma {:induction false} PosMonotone(s: seq<LabelCount>, c: nat, k1: nat, k2: nat)
    requires k1 < k2 < |s| && s[k1].count == c && s[k2].count == c
    ensures Pos(s, c, k1) < Pos(s, c, k2)
  {
    if k1 > 0 {
      assert s[k1] == s[1..][k1 - 1] && s[k2] == s[1..][k2 - 1];
      PosMonotone(s[1..], c, k1 - 1, k2 - 1);
    }
  }

  /** Positions among the entries of one count are ordered as the entries are. */
  lemma PosOrder(s: seq<LabelCount>, c: nat, k1: nat, k2: nat)
    requires k1 < |s| && k2 < |s| && s[k1].count == c && s[k2].count == c
    ensures Pos(s, c, k1) < Pos(s, c, k2) <==> k1 < k2
  {
    if k1 < k2 {
      PosMonotone(s, c, k1, k2);
    } else if k2 < k1 {
      PosMonotone(s, c, k2, k1);
    }
  }

  predicate DistinctEntries(s: seq<LabelCount>) {
    forall i, j :: 0 <= i < j < |s| ==> s[i] != s[j]
  }

  lemma {:induction false} WithCountIn(s: seq<LabelCount>, c: nat, x: LabelCount)
    requires x in WithCount(s, c)
    ensures x in s
  {
    if x != s[0] {
      WithCountIn(s[1..], c, x);
    }
  }

  lemma {:induction false} WithCountDistinct(s: seq<LabelCount>, c: nat)
    requires DistinctEntries(s)
    ensures DistinctEntries(WithCount(s, c))
  {
    if s != [] {
      var t := s[1..];
      assert DistinctEntries(t) by {
        forall i, j | 0 <= i < j < |t| ensures t[i] != t[j] {
          assert t[i] == s[i + 1] && t[j] == s[j + 1];
        }
      }
      WithCountDistinct(t, c);
      if s[0].count == c {
        var w := WithCount(s, c);
        var wt := WithCount(t, c);
        assert w == [s[0]] + wt;
        forall i, j | 0 <= i < j < |w| ensures w[i] != w[j] {
          if i == 0 {
            assert w[j] == wt[j - 1];
            if s[0] == wt[j - 1] {
              WithCountIn(t, c, s[0]);
            }
          } else {
            assert w[i] == wt[i - 1] && w[j] == wt[j - 1];
          }
        }
      }
    }
  }

  /** Every entry of the sorted list comes from the input. */
  lemma SortedMember(es: seq<LabelCount>, k: nat)
    requires k < |SortByCount(es)|
    ensures SortByCount(es)[k] in es
  {
    assert SortByCount(es)[k] in multiset(SortByCount(es));
  }

  /** In a list without repeats, equal entries sit at the same index. */
  lemma DistinctIndex(w: seq<LabelCount>, a: nat, b: nat)
    requires DistinctEntries(w) && a < |w| && b < |w| && w[a] == w[b]
    ensures a == b
  {
  }

  /**
   * When `r` lists the entries of count `c` in the same order as `es`, and
   * those are distinct, two of them keep their relative order.
   */
  lemma SameOrderWithCount(es: seq<LabelCount>, r: seq<LabelCount>, c: nat, i: nat, j: nat, p: nat, q: nat)
    requires WithCount(r, c) == WithCount(es, c) && DistinctEntries(WithCount(es, c))
    requires i < j < |r| && r[i].count == c && r[j].count == c
    requires p < |es| && q < |es| && es[p] == r[i] && es[q] == r[j]
    ensures p < q
  {
    var w := WithCount(es, c);
    var a := Pos(r, c, i);
    var b := Pos(r, c, j);
    PosMonotone(r, c, i, j);
    var pa := Pos(es, c, p);
    var qb := Pos(es, c, q);
    DistinctIndex(w, pa, a);
    DistinctIndex(w, qb, b);
    PosOrder(es, c, p, q);
  }

  /** Two entries of equal count come out of the sort in the order they went in. */
  lemma StableTies(es: seq<LabelCount>, i: nat, j: nat)
    requires DistinctEntries(es)
    requires i < j < |SortByCount(es)| && SortByCount(es)[i].count == SortByCount(es)[j].count
    ensures exists p, q :: 0 <= p < q < |es| && es[p] == SortByCount(es)[i] && es[q] == SortByCount(es)[j]
  {
    var r := SortByCount(es);
    var c := r[i].count;
    SortByCountStable(es, c);
    WithCountDistinct(es, c);
    SortedMember(es, i);
    SortedMember(es, j);
    var p :| 0 <= p < |es| && es[p] == r[i];
    var q :| 0 <= q < |es| && es[q] == r[j];
    SameOrderWithCount(es, r, c, i, j, p, q);
  }

  /** Sorting the counted entries keeps labels of equal count in first-counted order. */
  lemma SortedEntriesTies(xs: seq<string>, i: nat, j: nat)
    requires i < j < |SortByCount(Entries(xs))| && SortByCount(Entries(xs))[i].count == SortByCount(Entries(xs))[j].count
    ensures var r := SortByCount(Entries(xs));
      r[i].labelText in xs && r[j].labelText in xs && FirstIndex(xs, r[i].labelText) < FirstIndex(xs, r[j].labelText)
  {
    var es := Entries(xs);
    EntriesOrder(xs);
    StableTies(es, i, j);
  }

  /** Labels with equal counts keep, in the top list, the order in which they were first counted. */
  lemma TopIssuesTies(h: seq<AnalysisItem>, i: nat, j: nat)
    requires i < j < |TopIssues(h)| && TopIssues(h)[i].count == TopIssues(h)[j].count
    ensures var r := TopIssues(h); var xs := AllLabels(h);
      r[i].labelText in xs && r[j].labelText in xs && FirstIndex(xs, r[i].labelText) < FirstIndex(xs, r[j].labelText)
  {
    var sorted := SortByCount(IssueCounts(h));
    assert TopIssues(h)[i] == sorted[i] && TopIssues(h)[j] == sorted[j];
    SortedEntriesTies(AllLabels(h), i, j);
  }

  // ---------------------------------------------------------------- Metric averages

  /** `Object.entries(h.metrics)` for an entry that has metrics; none otherwise. */
  function MetricsOf(item: AnalysisItem): seq<Metric> {
    if item.metrics.None? then [] else item.metrics.value
  }

  /** Every metric of the history, entry by entry, in the order the nested `forEach` visits them. */
  function AllMetrics(h: seq<AnalysisItem>): seq<Metric> {
    if h == [] then [] else AllMetrics(h[..|h| - 1]) + MetricsOf(h[|h| - 1])
  }

  /** The sum of the values recorded under `key`. */
  function SumFor(ms: seq<Metric>, key: string): (r: real)
    ensures key !in Keys(ms) ==> r == 0.0
  {
    if ms == [] then 0.0
    else
      var p := ms[..|ms| - 1];
      assert Keys(ms) == Keys(p) + [ms[|ms| - 1].key];
      SumFor(p, key) + (if ms[|ms| - 1].key == key then ms[|ms| - 1].value else 0.0)
  }

  /** How many values are recorded under `key`: positive exactly for the keys that occur. */
  function CountFor(ms: seq<Metric>, key: string): (n: nat)
    ensures n > 0 <==> key in Keys(ms)
  {
    if ms == [] then 0
    else
      var p := ms[..|ms| - 1];
      assert Keys(ms) == Keys(p) + [ms[|ms| - 1].key];
      CountFor(p, key) + (if ms[|ms| - 1].key == key then 1 else 0)
  }

  /** One `{ k, v }` of `metricAverages`. */
  datatype MetricAverage = MetricAverage(key: string, mean: real)

  /** The means of the metrics `ms`, one per key in first-seen order, over the values recorded under that key. */
  function Averages(ms: seq<Metric>): (r: seq<MetricAverage>)
    ensures |r| == |FirstSeen(Keys(ms))|
    ensures forall i :: 0 <= i < |r| ==>
      r[i].key == FirstSeen(Keys(ms))[i] && r[i].mean == SumFor(ms, r[i].key) / CountFor(ms, r[i].key) as real
  {
    var order := FirstSeen(Keys(ms));
    seq(|order|, k requires 0 <= k < |order| => MetricAverage(order[k], SumFor(ms, order[k]) / CountFor(ms, order[k]) as real))
  }

  /** `metricAverages` for the history `h`. */
  function MetricAverages(h: seq<AnalysisItem>): seq<MetricAverage> {
    Averages(AllMetrics(h))
  }

  lemma {:induction false} AllMetricsAppend(a: seq<AnalysisItem>, b: seq<AnalysisItem>)
    ensures AllMetrics(a + b) == AllMetrics(a) + AllMetrics(b)
  {
    if b == [] {
      assert a + b == a;
    } else {
      var c := b[..|b| - 1];
      var last := b[|b| - 1];
      assert a + b == (a + c) + [last];
      assert b == c + [last];
      AllMetricsSnoc(a + c, last);
      AllMetricsSnoc(c, last);
      AllMetricsAppend(a, c);
    }
  }

  lemma AllMetricsSnoc(h: seq<AnalysisItem>, item: AnalysisItem)
    ensures AllMetrics(h + [item]) == AllMetrics(h) + MetricsOf(item)
  {
    assert (h + [item])[..|h|] == h;
  }

  /** An entry without metrics is left out of every mean, not counted as zero. */
  lemma NoMetricsExcluded(a: seq<AnalysisItem>, item: AnalysisItem, b: seq<AnalysisItem>)
    requires item.metrics.None?
    ensures MetricAverages(a + [item] + b) == MetricAverages(a + b)
  {
    AllMetricsAppend(a + [item], b);
    AllMetricsAppend(a, [item]);
    AllMetricsAppend(a, b);
    assert AllMetrics([item]) == [] by {
      assert [item][..0] == [];
    }
    assert AllMetrics(a + [item]) == AllMetrics(a);
    assert AllMetrics(a + [item] + b) == AllMetrics(a + b);
  }

  /** Values in [0, 1] give sums between 0 and their count. */
  lemma {:induction false} SumForBounds(ms: seq<Metric>, key: string)
    requires forall i :: 0 <= i < |ms| ==> 0.0 <= ms[i].value <= 1.0
    ensures 0.0 <= SumFor(ms, key) <= CountFor(ms, key) as real
  {
    if ms != [] {
      SumForBounds(ms[..|ms| - 1], key);
    }
  }

  lemma MeanInUnit(sum: real, n: real)
    requires n > 0.0 && 0.0 <= sum <= n
    ensures 0.0 <= sum / n <= 1.0
  {
  }

  /** With metric values in [0, 1], every mean lies in [0, 1]. */
  lemma AveragesInUnit(ms: seq<Metric>)
    requires forall i :: 0 <= i < |ms| ==> 0.0 <= ms[i].value <= 1.0
    ensures forall a :: a in Averages(ms) ==> 0.0 <= a.mean <= 1.0
  {
    var r := Averages(ms);
    forall a | a in r ensures 0.0 <= a.mean <= 1.0 {
      var i :| 0 <= i < |r| && r[i] == a;
      assert a.key in Keys(ms);
      SumForBounds(ms, a.key);
      MeanInUnit(SumFor(ms, a.key), CountFor(ms, a.key) as real);
    }
  }

  lemma {:induction false} EngineMetricsInUnit(h: seq<AnalysisItem>)
    requires forall i :: i in h ==> EngineDone(i)
    ensures forall k :: 0 <= k < |AllMetrics(h)| ==> 0.0 <= AllMetrics(h)[k].value <= 1.0
  {
    if h != [] {
      var p := h[..|h| - 1];
      var last := h[|h| - 1];
      assert forall i :: i in p ==> i in h;
      EngineMetricsInUnit(p);
      assert EngineDone(last);
      var ms := AllMetrics(h);
      forall k | 0 <= k < |ms| ensures 0.0 <= ms[k].value <= 1.0 {
        if k >= |AllMetrics(p)| {
          assert ms[k] == last.metrics.value[k - |AllMetrics(p)|];
        }
      }
    }
  }

  /** A history the submissions built shows every metric mean in [0, 1] (so every bar within 0-100%). */
  lemma EngineMetricAveragesInUnit(s: UIState)
    requires HistoryFromEngine(s)
    ensures forall a :: a in MetricAverages(s.history) ==> 0.0 <= a.mean <= 1.0
  {
    EngineMetricsInUnit(s.history);
    AveragesInUnit(AllMetrics(s.history));
  }

  /** `metricSums[k]`: the running `{ sum, c }` of one key. */
  datatype Acc = Acc(sum: real, c: nat)

  /** The `metricSums` object: its entries and the order its keys were added in. */
  datatype Sums = Sums(accs: map<string, Acc>, order: seq<string>)

  /** `metricSums[k] = metricSums[k] || { sum: 0, c: 0 }; metricSums[k].sum += v; metricSums[k].c += 1`. */
  function AddMetric(s: Sums, m: Metric): (r: Sums)
    ensures m.key in r.accs
  {
    var prev := if m.key in s.accs then s.accs[m.key] else Acc(0.0, 0);
    Sums(s.accs[m.key := Acc(prev.sum + m.value, prev.c + 1)], if m.key in s.accs then s.order else s.order + [m.key])
  }

  /** The sums after the metrics `ms`: keys in first-seen order, each with its sum and count. */
  ghost predicate Summed(s: Sums, ms: seq<Metric>) {
    && s.order == FirstSeen(Keys(ms))
    && (forall k :: k in s.accs <==> k in Keys(ms))
    && (forall k :: k in s.accs ==> s.accs[k] == Acc(SumFor(ms, k), CountFor(ms, k)))
  }

  /** First-seen order after one more key: unchanged when the key was already seen, else extended by it. */
  lemma FirstSeenSnoc(xs: seq<string>, y: string)
    ensures FirstSeen(xs + [y]) == if y in xs then FirstSeen(xs) else FirstSeen(xs) + [y]
  {
    assert (xs + [y])[..|xs|] == xs;
  }

  /** One more metric adds its value to its own key's sum and one to its count. */
  lemma SumCountSnoc(ms: seq<Metric>, m: Metric, k: string)
    ensures SumFor(ms + [m], k) == SumFor(ms, k) + (if m.key == k then m.value else 0.0)
    ensures CountFor(ms + [m], k) == CountFor(ms, k) + (if m.key == k then 1 else 0)
  {
    assert (ms + [m])[..|ms|] == ms;
  }

  lemma KeysSnoc(ms: seq<Metric>, m: Metric)
    ensures Keys(ms + [m]) == Keys(ms) + [m.key]
  {
    assert (ms + [m])[..|ms|] == ms;
  }

  lemma SummedAddOrder(s: Sums, ms: seq<Metric>, m: Metric)
    requires s.order == FirstSeen(Keys(ms)) && (forall k :: k in s.accs <==> k in Keys(ms))
    ensures AddMetric(s, m).order == FirstSeen(Keys(ms + [m]))
  {
    KeysSnoc(ms, m);
    FirstSeenSnoc(Keys(ms), m.key);
  }

  lemma SummedAddKeys(s: Sums, ms: seq<Metric>, m: Metric)
    requires forall k :: k in s.accs <==> k in Keys(ms)
    ensures forall k :: k in AddMetric(s, m).accs <==> k in Keys(ms + [m])
  {
    KeysSnoc(ms, m);
  }

  lemma SummedAddValues(s: Sums, ms: seq<Metric>, m: Metric)
    requires forall k :: k in s.accs <==> k in Keys(ms)
    requires forall k :: k in s.accs ==> s.accs[k] == Acc(SumFor(ms, k), CountFor(ms, k))
    ensures forall k :: k in AddMetric(s, m).accs ==> AddMetric(s, m).accs[k] == Acc(SumFor(ms + [m], k), CountFor(ms + [m], k))
  {
    var r := AddMetric(s, m);
    forall k | k in r.accs ensures r.accs[k] == Acc(SumFor(ms + [m], k), CountFor(ms + [m], k)) {
      SumCountSnoc(ms, m, k);
    }
  }

  lemma SummedAdd(s: Sums, ms: seq<Metric>, m: Metric)
    requires Summed(s, ms)
    ensures Summed(AddMetric(s, m), ms + [m])
  {
    SummedAddOrder(s, ms, m);
    SummedAddKeys(s, ms, m);
    SummedAddValues(s, ms, m);
  }

  lemma SummedStep(s: Sums, before: seq<Metric>, ms: seq<Metric>, j: nat)
    requires j < |ms| && Summed(s, before + ms[..j])
    ensures Summed(AddMetric(s, ms[j]), before + ms[..j + 1])
  {
    assert before + ms[..j + 1] == (before + ms[..j]) + [ms[j]];
    SummedAdd(s, before + ms[..j], ms[j]);
  }

  lemma AllMetricsStep(history: seq<AnalysisItem>, i: nat)
    requires i < |history|
    ensures AllMetrics(history[..i + 1]) == AllMetrics(history[..i]) + MetricsOf(history[i])
  {
    assert history[..i + 1][..i] == history[..i];
  }

  /** `Object.entries(metricSums).map(([k, { sum, c }]) => ({ k, v: sum / c }))`. */
  function AveragesOf(s: Sums): seq<MetricAverage>
    requires forall k :: k in s.order ==> k in s.accs && s.accs[k].c > 0
  {
    seq(|s.order|, i requires 0 <= i < |s.order| => MetricAverage(s.order[i], s.accs[s.order[i]].sum / s.accs[s.order[i]].c as real))
  }

  lemma SummedAverages(s: Sums, ms: seq<Metric>)
    requires Summed(s, ms)
    ensures forall k :: k in s.order ==> k in s.accs && s.accs[k].c > 0
    ensures AveragesOf(s) == Averages(ms)
  {
  }

  /** The outer `forEach` callback: an entry's metrics, if any, are added key by key. */
  method SumEntryMetrics(s: Sums, item: AnalysisItem, ghost before: seq<Metric>) returns (r: Sums)
    requires Summed(s, before)
    ensures Summed(r, before + MetricsOf(item))
  {
    r := s;
    if item.metrics.Some? {
      var ms := item.metrics.value;
      var j := 0;
      assert before + ms[..0] == before;
      while j < |ms|
        invariant 0 <= j <= |ms|
        invariant Summed(r, before + ms[..j])
      {
        SummedStep(r, before, ms, j);
        r := AddMetric(r, ms[j]);
        j := j + 1;
      }
      assert ms[..j] == ms;
    } else {
      assert before + MetricsOf(item) == before;
    }
  }

  /**
   * The nested `forEach` that fills `metricSums`, followed by the map to
   * means: the result is `MetricAverages(history)`.
   */
  method SumMetrics(history: seq<AnalysisItem>) returns (averages: seq<MetricAverage>)
    ensures averages == MetricAverages(history)
  {
    var metricSums := Sums(map[], []);
    var i := 0;
    while i < |history|
      invariant 0 <= i <= |history|
      invariant Summed(metricSums, AllMetrics(history[..i]))
    {
      AllMetricsStep(history, i);
      metricSums := SumEntryMetrics(metricSums, history[i], AllMetrics(history[..i]));
      i := i + 1;
    }
    assert history[..i] == history;
    SummedAverages(metricSums, AllMetrics(history));
    averages := AveragesOf(metricSums);
  }
}
