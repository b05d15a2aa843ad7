/**
 * The dashboard's flip card: on the front, an animated bar chart of how many tracked
 * companies fall in each job category (the five largest); on the back, a todo list and
 * a month calendar.
 */
module BubbleChart {
  import opened Wrappers
  import opened Text
  import opened Lists
  import opened CivilDate
  import Animation

  datatype Company = Company(name: string, jobCategory: string)

  /** The eight categories, in the order that fixes their hues and breaks ties. */
  const JobInterests: seq<string> :=
    ["프론트엔드", "백엔드", "풀스택", "데이터 분석", "DevOps", "모바일 앱", "UI/UX", "AI/ML"]

  // ---------------------------------------------------------------------------
  // Aggregation

  /** Number of companies in `companies` whose category is `category`. */
  function CategoryCount(companies: seq<Company>, category: string): (n: nat)
    ensures n <= |companies|
  {
    if companies == [] then 0
    else
      var last := if companies[|companies| - 1].jobCategory == category then 1 else 0;
      CategoryCount(companies[..|companies| - 1], category) + last
  }

  /** Counting is additive over concatenation. */
  lemma {:induction false} CategoryCountAppend(a: seq<Company>, b: seq<Company>, category: string)
    ensures CategoryCount(a + b, category) == CategoryCount(a, category) + CategoryCount(b, category)
    decreases |b|
  {
    if b != [] {
      assert (a + b)[..|a + b| - 1] == a + b[..|b| - 1];
      CategoryCountAppend(a, b[..|b| - 1], category);
    } else {
      assert a + b == a;
    }
  }

  /** A category no company has counts zero; a company of another category does not count. */
  lemma {:induction false} CategoryCountAbsent(companies: seq<Company>, category: string)
    requires forall i :: 0 <= i < |companies| ==> companies[i].jobCategory != category
    ensures CategoryCount(companies, category) == 0
  {
    if companies != [] {
      CategoryCountAbsent(companies[..|companies| - 1], category);
    }
  }

  /** The counts the effect reads off `jobCounts`, one per label in label order. */
  method JobCounts(companies: seq<Company>) returns (counts: seq<nat>)
    ensures counts == Counts(companies)
  {
    var jobCounts := CountJobs(JobInterests, companies);
    counts := seq(|JobInterests|, i requires 0 <= i < |JobInterests| => jobCounts[JobInterests[i]]);
  }

  /**
   * The counting record of both charts (`jobCounts` here, `categoryCounts` on the
   * dashboard): every category starts at 0, then each company bumps its own category if
   * that is one of them; a company of any other category is skipped.
   */
  method CountJobs(categories: seq<string>, companies: seq<Company>) returns (jobCounts: map<string, nat>)
    ensures jobCounts.Keys == set l | l in categories
    ensures forall l :: l in jobCounts ==> jobCounts[l] == CategoryCount(companies, l)
  {
    jobCounts := map[];
    for i := 0 to |categories|
      invariant jobCounts.Keys == set k | 0 <= k < i :: categories[k]
      invariant forall l :: l in jobCounts ==> jobCounts[l] == 0
    {
      jobCounts := jobCounts[categories[i] := 0];
    }
    assert (set k | 0 <= k < |categories| :: categories[k]) == set l | l in categories;
    for i := 0 to |companies|
      invariant jobCounts.Keys == set l | l in categories
      invariant forall l :: l in jobCounts ==> jobCounts[l] == CategoryCount(companies[..i], l)
    {
      assert companies[..i + 1][..i] == companies[..i];
      var c := companies[i].jobCategory;
      if c in jobCounts {
        jobCounts := jobCounts[c := jobCounts[c] + 1];
      }
    }
    assert companies[..|companies|] == companies;
  }

  // ---------------------------------------------------------------------------
  // Ranking

  datatype Hsla = Hsla(hue: int, saturation: int, lightness: int, alpha: real)

  /** One bar: its category, its count, and the category's position in `JobInterests`, which fixes its hue. */
  datatype Bar = Bar(category: string, count: nat, hueIndex: nat)

  /** `hsla(i * 40, 80%, 65%, 1)`. */
  function Fill(b: Bar): Hsla {
    Hsla(b.hueIndex * 40, 80, 65, 1.0)
  }

  /** The gradient's lower stop: the bar's own hue at 0.3 opacity. */
  function Fade(b: Bar): (c: Hsla)
    ensures c.hue == Fill(b).hue && c.alpha == 0.3
  {
    Fill(b).(alpha := 0.3)
  }

  /** The lower stop as written: `hsla(${i * 40}, 80%, 65%, 0.3)` with `i` the bar's rank after sorting. */
  function FadeAsWritten(rank: nat): Hsla {
    Hsla(rank * 40, 80, 65, 0.3)
  }

  /** One "AI/ML" company ranks that category first, so its gradient runs from hue 280 to hue 0. */
  lemma FadeAsWrittenMismatch()
    ensures var bars := BarData(Counts([Company("x", "AI/ML")]));
      bars[0].category == "AI/ML" && Fill(bars[0]).hue == 280
      && FadeAsWritten(0).hue == 0 && Fade(bars[0]).hue == 280
  {
    var cs := [Company("x", "AI/ML")];
    var counts := Counts(cs);
    forall k | 0 <= k < 7 ensures counts[k] == 0 {
      CategoryCountAbsent(cs, JobInterests[k]);
    }
    assert counts[7] == 1;
    TopBarIsLargest(counts, 7);
  }

  function CountOf(b: Bar): int {
    b.count
  }

  /** Counts for the eight categories, as `CountJobs` computes them. */
  function Counts(companies: seq<Company>): (r: seq<nat>)
    ensures |r| == |JobInterests|
    ensures forall i :: 0 <= i < |r| ==> r[i] == CategoryCount(companies, JobInterests[i])
  {
    seq(|JobInterests|, i requires 0 <= i < |JobInterests| => CategoryCount(companies, JobInterests[i]))
  }

  /** `jobInterests.map((job, i) => ...)`, before sorting. */
  function Unsorted(counts: seq<nat>): (r: seq<Bar>)
    requires |counts| == |JobInterests|
    ensures |r| == |JobInterests|
    ensures forall i :: 0 <= i < |r| ==> r[i] == Bar(JobInterests[i], counts[i], i)
  {
    seq(|JobInterests|, i requires 0 <= i < |JobInterests| => Bar(JobInterests[i], counts[i], i))
  }

  /** `barData`: the bars sorted by count, largest first and stably, then cut to five. */
  function BarData(counts: seq<nat>): seq<Bar>
    requires |counts| == |JobInterests|
  {
    Take(SortDesc(Unsorted(counts), CountOf), 5)
  }

  /**
   * Exactly five bars, largest count first; each is the bar of its own category with
   * that category's count; ties keep category order, among the five and across the
   * cut; and no category left out has a larger count than one kept.
   */
  lemma BarDataRanked(counts: seq<nat>)
    requires |counts| == |JobInterests|
    ensures var r := BarData(counts);
      && |r| == 5
      && (forall i, j :: 0 <= i < j < 5 ==> r[i].count >= r[j].count)
      && (forall i :: 0 <= i < 5 ==> r[i] in Unsorted(counts))
      && (forall i :: 0 <= i < 5 ==> (
             && 0 <= r[i].hueIndex < 8
             && r[i].category == JobInterests[r[i].hueIndex]
             && r[i].count == counts[r[i].hueIndex]))
      && (forall i, j :: 0 <= i < j < 5 && r[i].count == r[j].count ==> r[i].hueIndex < r[j].hueIndex)
      && (forall k :: 0 <= k < |JobInterests| && (forall i :: 0 <= i < 5 ==> r[i].hueIndex != k) ==>
            counts[k] <= r[4].count)
      && (forall i, k ::
            (0 <= i < 5 && 0 <= k < |JobInterests| && (forall m :: 0 <= m < 5 ==> r[m].hueIndex != k) && counts[k] == r[i].count)
            ==> r[i].hueIndex < k)
  {
    BarDataMembers(counts);
    BarDataTies(counts);
    BarDataKeepsLargest(counts);
    BarDataCutTies(counts);
  }

  /** The five bars are pre-sort bars, largest count first. */
  lemma BarDataMembers(counts: seq<nat>)
    requires |counts| == |JobInterests|
    ensures var r := BarData(counts);
      && |r| == 5
      && (forall i, j :: 0 <= i < j < 5 ==> r[i].count >= r[j].count)
      && (forall i :: 0 <= i < 5 ==> r[i] in Unsorted(counts))
  {
    var u := Unsorted(counts);
    var s := SortDesc(u, CountOf);
    SortDescCorrect(u, CountOf);
    forall i | 0 <= i < |s| ensures s[i] in u {
      assert s[i] in multiset(s);
    }
  }

  /** Equal counts among the five keep category order. */
  lemma BarDataTies(counts: seq<nat>)
    requires |counts| == |JobInterests|
    ensures var r := BarData(counts);
      |r| == 5 &&
      forall i, j :: 0 <= i < j < 5 && r[i].count == r[j].count ==> r[i].hueIndex < r[j].hueIndex
  {
    var u := Unsorted(counts);
    var s := SortDesc(u, CountOf);
    SortDescCorrect(u, CountOf);
    forall i, j | 0 <= i < j < 5 && s[i].count == s[j].count
      ensures s[i].hueIndex < s[j].hueIndex
    {
      TiesKeepOrder(u, s, i, j);
    }
  }

  /** No category cut by `slice(0, 5)` counts more than the fifth bar kept. */
  lemma BarDataKeepsLargest(counts: seq<nat>)
    requires |counts| == |JobInterests|
    ensures var r := BarData(counts);
      |r| == 5 &&
      forall k :: 0 <= k < |JobInterests| && (forall i :: 0 <= i < 5 ==> r[i].hueIndex != k) ==>
        counts[k] <= r[4].count
  {
    var u := Unsorted(counts);
    var s := SortDesc(u, CountOf);
    SortDescCorrect(u, CountOf);
    forall k | 0 <= k < |JobInterests| && (forall i :: 0 <= i < 5 ==> s[i].hueIndex != k)
      ensures counts[k] <= s[4].count
    {
      CutBarNoLarger(u, s, k);
    }
  }

  /** A category cut by `slice(0, 5)` whose count equals a kept bar's comes after it in category order. */
  lemma BarDataCutTies(counts: seq<nat>)
    requires |counts| == |JobInterests|
    ensures var r := BarData(counts);
      |r| == 5 &&
      forall i, k ::
        (0 <= i < 5 && 0 <= k < |JobInterests| && (forall m :: 0 <= m < 5 ==> r[m].hueIndex != k) && counts[k] == r[i].count)
        ==> r[i].hueIndex < k
  {
    var u := Unsorted(counts);
    var s := SortDesc(u, CountOf);
    SortDescCorrect(u, CountOf);
    forall i, k | 0 <= i < 5 && 0 <= k < |JobInterests| && (forall m :: 0 <= m < 5 ==> s[m].hueIndex != k)
        && counts[k] == s[i].count
      ensures s[i].hueIndex < k
    {
      CutBarAfter(u, s, i, k);
    }
  }

  /** A cut bar tying with a kept one sits after it in the stable sort, so after it in category order. */
  lemma CutBarAfter(u: seq<Bar>, s: seq<Bar>, i: int, k: int)
    requires |u| == |JobInterests| && forall m :: 0 <= m < |u| ==> u[m].hueIndex == m
    requires |s| == |u| && SameTies(s, u, CountOf) && multiset(s) == multiset(u)
    requires 0 <= i < 5 && 0 <= k < |u| && s[i].count == u[k].count
    requires forall m :: 0 <= m < 5 ==> s[m].hueIndex != k
    ensures s[i].hueIndex < k
  {
    assert u[k] in multiset(s);
    var j :| 0 <= j < |s| && s[j] == u[k];
    assert j >= 5;
    TiesKeepOrder(u, s, i, j);
  }

  /** A bar that the sort places after the first five counts no more than the fifth. */
  lemma CutBarNoLarger(u: seq<Bar>, s: seq<Bar>, k: int)
    requires |u| == |JobInterests| && 0 <= k < |u| && u[k].hueIndex == k
    requires |s| == |u| && SortedDesc(s, CountOf) && multiset(s) == multiset(u)
    requires forall i :: 0 <= i < 5 ==> s[i].hueIndex != k
    ensures u[k].count <= s[4].count
  {
    assert u[k] in multiset(s);
    var j :| 0 <= j < |s| && s[j] == u[k];
    assert j >= 5;
    assert CountOf(s[4]) >= CountOf(s[j]);
  }

  /** In a stable sort of `u` (whose hue indices increase), two equal counts keep their category order. */
  lemma TiesKeepOrder(u: seq<Bar>, s: seq<Bar>, i: int, j: int)
    requires |u| == |JobInterests| && forall k :: 0 <= k < |u| ==> u[k].hueIndex == k
    requires SameTies(s, u, CountOf) && multiset(s) == multiset(u)
    requires 0 <= i < j < |s| && s[i].count == s[j].count
    ensures s[i].hueIndex < s[j].hueIndex
  {
    var k := s[i].count;
    var p := KeyIs(CountOf, k);
    var ts := Filter(s, p);
    assert Ties(s, CountOf, k) == Ties(u, CountOf, k);
    assert p(s[i]) && p(s[j]);
    FilterIndices(s, p, i, j);
    var a, b :| 0 <= a < b < |ts| && ts[a] == s[i] && ts[b] == s[j];
    FilterIncreasing(u, p, a, b);
  }

  /** Two positions of a filtered sequence keep their order in the filtered result. */
  lemma {:induction false} FilterIndices<T>(s: seq<T>, p: T -> bool, i: int, j: int)
    requires 0 <= i < j < |s| && p(s[i]) && p(s[j])
    ensures exists a, b :: 0 <= a < b < |Filter(s, p)| && Filter(s, p)[a] == s[i] && Filter(s, p)[b] == s[j]
  {
    var t := Filter(s[1..], p);
    assert s[j] == s[1..][j - 1];
    if i == 0 {
      FilterFound(s[1..], p, j - 1);
      var b :| 0 <= b < |t| && t[b] == s[j];
      assert Filter(s, p) == [s[0]] + t;
      assert Filter(s, p)[0] == s[i] && Filter(s, p)[b + 1] == s[j];
    } else {
      assert s[i] == s[1..][i - 1];
      FilterIndices(s[1..], p, i - 1, j - 1);
      var a, b :| 0 <= a < b < |t| && t[a] == s[i] && t[b] == s[j];
      if p(s[0]) {
        assert Filter(s, p) == [s[0]] + t;
        assert Filter(s, p)[a + 1] == s[i] && Filter(s, p)[b + 1] == s[j];
      } else {
        assert Filter(s, p) == t;
      }
    }
  }

  lemma {:induction false} FilterFound<T>(s: seq<T>, p: T -> bool, j: int)
    requires 0 <= j < |s| && p(s[j])
    ensures exists b :: 0 <= b < |Filter(s, p)| && Filter(s, p)[b] == s[j]
  {
    assert s[j] in Filter(s, p);
  }

  /** Filtering bars whose hue index equals their position gives strictly increasing hue indices. */
  lemma FilterIncreasing(u: seq<Bar>, p: Bar -> bool, a: int, b: int)
    requires forall k :: 0 <= k < |u| ==> u[k].hueIndex == k
    requires 0 <= a < b < |Filter(u, p)|
    ensures Filter(u, p)[a].hueIndex < Filter(u, p)[b].hueIndex
  {
    FilterRising(u, p);
  }

  /** Hue indices strictly increase along `s`. */
  ghost predicate Rising(s: seq<Bar>) {
    forall a, b :: 0 <= a < b < |s| ==> s[a].hueIndex < s[b].hueIndex
  }

  lemma {:induction false} FilterRising(s: seq<Bar>, p: Bar -> bool)
    requires Rising(s)
    ensures Rising(Filter(s, p))
  {
    if s != [] {
      var t := s[1..];
      assert Rising(t) by {
        forall a, b | 0 <= a < b < |t| ensures t[a].hueIndex < t[b].hueIndex {
          assert t[a] == s[a + 1] && t[b] == s[b + 1];
        }
      }
      FilterRising(t, p);
      assert s == [s[0]] + t;
      FilterCons(s[0], t, p);
      if p(s[0]) {
        var g := Filter(t, p);
        forall j | 0 <= j < |g| ensures s[0].hueIndex < g[j].hueIndex {
          var m :| 0 <= m < |t| && t[m] == g[j];
          assert t[m] == s[m + 1];
        }
        ConsRising(s[0], g);
      }
    }
  }

  lemma ConsRising(x: Bar, g: seq<Bar>)
    requires Rising(g)
    requires forall j :: 0 <= j < |g| ==> x.hueIndex < g[j].hueIndex
    ensures Rising([x] + g)
  {
    var f := [x] + g;
    forall a, b | 0 <= a < b < |f| ensures f[a].hueIndex < f[b].hueIndex {
      assert f[b] == g[b - 1];
      if a > 0 {
        assert f[a] == g[a - 1];
      }
    }
  }

  /** When one category has a positive count and all others are zero, that category ranks first. */
  lemma TopBarIsLargest(counts: seq<nat>, t: int)
    requires |counts| == |JobInterests| && 0 <= t < |counts| && counts[t] > 0
    requires forall k :: 0 <= k < |counts| && k != t ==> counts[k] == 0
    ensures BarData(counts)[0] == Bar(JobInterests[t], counts[t], t)
  {
    var u := Unsorted(counts);
    var s := SortDesc(u, CountOf);
    SortDescCorrect(u, CountOf);
    assert u[t] in multiset(s);
    var j :| 0 <= j < |s| && s[j] == u[t];
    assert s[0] in multiset(u);
    var z :| 0 <= z < |u| && u[z] == s[0];
    assert s[0].count >= s[j].count;
  }

  // ---------------------------------------------------------------------------
  // Geometry of one frame

  /** What one frame draws for one bar: its box, its gradient stops, where its two labels go and their opacity. */
  datatype BarShape = BarShape(
    x: real, y: real, width: real, height: real,
    top: Hsla, bottom: Hsla,
    countAt: Animation.Point, labelAt: Animation.Point, textOpacity: real)

  /** `Math.max(...counts, 1)`. */
  function MaxCount(bars: seq<Bar>): (m: nat)
    ensures m >= 1
    ensures forall i :: 0 <= i < |bars| ==> bars[i].count <= m
    ensures m == 1 || exists i :: 0 <= i < |bars| && bars[i].count == m
  {
    if bars == [] then 1
    else
      var rest := MaxCount(bars[1..]);
      assert forall i :: 1 <= i < |bars| ==> bars[i] == bars[1..][i - 1];
      if bars[0].count >= rest then bars[0].count else rest
  }

  /** `Math.min(70, width / (n * 1.5))`; with no bars the quotient is infinite and 70 wins. */
  function BarWidth(n: nat, width: real): (w: real)
    requires width >= 0.0
    ensures 0.0 <= w <= 70.0
    ensures n > 0 ==> w * (n as real * 1.5) <= width
  {
    if n == 0 then 70.0
    else
      var q := width / (n as real * 1.5);
      assert q * (n as real * 1.5) == width;
      Animation.Min(70.0, q)
  }

  /** The bar's height once fully grown: its share of the largest count times 60% of the canvas height. */
  function FullHeight(count: nat, maxCount: nat, height: real): real
    requires maxCount >= 1
  {
    if count > 0 then (count as real / maxCount as real) * (height * 0.6) else 0.0
  }

  function StartX(n: nat, barWidth: real, width: real): real {
    (width - (n as real * barWidth + (n as real - 1.0) * (barWidth * 0.3))) / 2.0
  }

  /** What `animate` draws for bar `i` of `n`, given the largest count `m`. */
  function Shape(b: Bar, i: nat, n: nat, m: nat, progress: real, width: real, height: real): BarShape
    requires width >= 0.0 && m >= 1
  {
    var bw := BarWidth(n, width);
    var x := StartX(n, bw, width) + i as real * (bw + bw * 0.3);
    var h := FullHeight(b.count, m, height) * progress;
    var y := height - h - 50.0;
    BarShape(x, y, bw, h, Fill(b), FadeAsWritten(i),
      Animation.Point(x + bw / 2.0, y + 20.0), Animation.Point(x + bw / 2.0, height - 20.0),
      Animation.Min(progress * 2.0, 1.0))
  }

  /** Everything `animate` draws for the bars `bars` at `progress` on a `width` by `height` canvas. */
  function Layout(bars: seq<Bar>, progress: real, width: real, height: real): (r: seq<BarShape>)
    requires width >= 0.0
    ensures |r| == |bars|
    ensures forall i :: 0 <= i < |bars| ==> r[i] == Shape(bars[i], i, |bars|, MaxCount(bars), progress, width, height)
  {
    seq(|bars|, i requires 0 <= i < |bars| => Shape(bars[i], i, |bars|, MaxCount(bars), progress, width, height))
  }

  /** A bar's full height lies between 0 and 60% of the canvas height. */
  lemma FullHeightBounded(c: nat, m: nat, h: real)
    requires 1 <= m && c <= m && h >= 0.0
    ensures 0.0 <= FullHeight(c, m, h) <= h * 0.6
  {
    Animation.ShareBounded(c as real, m as real, h * 0.6);
  }

  /**
   * Each bar stands on the line 50 above the bottom, grows to at most 60% of the height, and its
   * labels fade in together. The upper stop has the category's hue, the lower one the rank's, so
   * the two agree exactly when the bar is drawn at its category's own position.
   */
  lemma ShapeBounded(b: Bar, i: nat, n: nat, m: nat, progress: real, width: real, height: real)
    requires 0.0 <= progress <= 1.0 && width >= 0.0 && height >= 0.0 && 1 <= m && b.count <= m
    ensures var r := Shape(b, i, n, m, progress, width, height);
      && 0.0 <= r.height <= height * 0.6
      && r.y + r.height == height - 50.0
      && r.height == FullHeight(b.count, m, height) * progress
      && r.textOpacity == Animation.TextOpacity(progress)
      && r.top == Fill(b) && r.top.hue == b.hueIndex * 40
      && r.bottom == FadeAsWritten(i) && r.bottom.hue == i * 40 && r.bottom.alpha == 0.3
      && (r.bottom == Fade(b) <==> i == b.hueIndex)
      && r.countAt.x == r.labelAt.x == r.x + r.width / 2.0
  {
    var r := Shape(b, i, n, m, progress, width, height);
    var f := FullHeight(b.count, m, height);
    assert r.height == f * progress;
    FullHeightBounded(b.count, m, height);
    Animation.ScaleMonotone(f, 0.0, progress);
    Animation.ScaleMonotone(f, progress, 1.0);
    assert r.height <= f * 1.0 == f <= height * 0.6;
  }

  lemma LayoutBounded(bars: seq<Bar>, progress: real, width: real, height: real)
    requires 0.0 <= progress <= 1.0 && width >= 0.0 && height >= 0.0
    ensures var r := Layout(bars, progress, width, height);
      forall i :: 0 <= i < |r| ==>
        && 0.0 <= r[i].height <= height * 0.6
        && r[i].y + r[i].height == height - 50.0
        && r[i].textOpacity == Animation.TextOpacity(progress)
        && r[i].top.hue == bars[i].hueIndex * 40
        && r[i].bottom.hue == i * 40
        && (r[i].bottom.hue == r[i].top.hue <==> bars[i].hueIndex == i)
  {
    forall i | 0 <= i < |bars| {
      ShapeBounded(bars[i], i, |bars|, MaxCount(bars), progress, width, height);
    }
  }

  /** Full heights follow the counts, and the largest count gets the full 60%. */
  lemma FullHeightMonotone(ci: nat, cj: nat, m: nat, height: real)
    requires 1 <= m && ci <= cj <= m && height >= 0.0
    ensures FullHeight(ci, m, height) <= FullHeight(cj, m, height)
    ensures cj == m ==> FullHeight(cj, m, height) == height * 0.6
  {
    FullHeightBounded(ci, m, height);
    if ci > 0 {
      Animation.ShareMonotone(ci as real, cj as real, m as real, height * 0.6);
    }
  }

  /** Heights follow the counts at every progress, and at full progress the largest count reaches 60% of the height. */
  lemma ShapesProportional(bi: Bar, i: nat, bj: Bar, j: nat, n: nat, m: nat, progress: real, width: real, height: real)
    requires 0.0 <= progress <= 1.0 && width >= 0.0 && height >= 0.0
    requires 1 <= m && bi.count <= m && bj.count <= m
    ensures var ri, rj := Shape(bi, i, n, m, progress, width, height), Shape(bj, j, n, m, progress, width, height);
      && (bi.count <= bj.count ==> ri.height <= rj.height)
      && (progress == 1.0 && bj.count == m ==> rj.height == height * 0.6)
  {
    var ci, cj := bi.count, bj.count;
    var fi, fj := FullHeight(ci, m, height), FullHeight(cj, m, height);
    var ri, rj := Shape(bi, i, n, m, progress, width, height), Shape(bj, j, n, m, progress, width, height);
    assert ri.height == fi * progress && rj.height == fj * progress;
    FullHeightMonotone(cj, cj, m, height);
    if ci <= cj {
      FullHeightMonotone(ci, cj, m, height);
      FullHeightBounded(ci, m, height);
      Animation.ScaleMonotone(progress, fi, fj);
      assert fi * progress <= fj * progress;
    }
  }

  /** A later progress never draws a bar shorter. */
  lemma LayoutGrows(bars: seq<Bar>, p: real, q: real, width: real, height: real, i: int)
    requires 0.0 <= p <= q <= 1.0 && width >= 0.0 && height >= 0.0 && 0 <= i < |bars|
    ensures Layout(bars, p, width, height)[i].height <= Layout(bars, q, width, height)[i].height
  {
    FullHeightBounded(bars[i].count, MaxCount(bars), height);
    Animation.ScaleMonotone(FullHeight(bars[i].count, MaxCount(bars), height), p, q);
  }

  /** The row of `n` bars fits the canvas with equal margins on both sides. */
  lemma RowCentred(n: nat, width: real)
    requires width >= 0.0 && n > 0
    ensures var bw := BarWidth(n, width); var sx := StartX(n, bw, width);
      && 0.0 <= sx
      && sx == width - (sx + (n as real - 1.0) * (bw + bw * 0.3) + bw)
  {
    var bw := BarWidth(n, width);
    var k := n as real;
    assert bw * (k * 1.5) <= width;
    assert k * bw + (k - 1.0) * (bw * 0.3) == bw * (k * 1.3 - 0.3);
    assert bw * (k * 1.3 - 0.3) <= bw * (k * 1.5);
  }

  /** Bars go left to right, one bar width plus 30% apart, inside the canvas, with equal margins left and right. */
  lemma ShapesCentred(b0: Bar, b1: Bar, i: nat, n: nat, m: nat, progress: real, width: real, height: real)
    requires width >= 0.0 && 1 <= m && 0 < n
    ensures var first, last := Shape(b0, 0, n, m, progress, width, height), Shape(b1, n - 1, n, m, progress, width, height);
      && 0.0 <= first.x
      && first.x == width - (last.x + last.width)
      && Shape(b1, i + 1, n, m, progress, width, height).x == Shape(b0, i, n, m, progress, width, height).x + first.width * 1.3
  {
    RowCentred(n, width);
  }

  // ---------------------------------------------------------------------------
  // Calendar grid on the back of the card

  datatype Cell = Cell(day: int, currentMonth: bool, date: Date)

  /** The `i`-th of the 42 cells: trailing days of the previous month, the month itself, then the next month. */
  function GridCell(year: int, month: int, i: int): Cell
    requires 0 <= month < 12 && 0 <= i < 42
  {
    var first := FirstDayOfMonth(year, month);
    var dim := DaysInMonth(year, month);
    if i < first then
      var (py, pm) := PrevMonth(year, month);
      var pd := DaysInMonth(py, pm) - first + i + 1;
      Cell(pd, false, Date(py, pm, pd))
    else if i < first + dim then
      Cell(i - first + 1, true, Date(year, month, i - first + 1))
    else
      var (ny, nm) := NextMonth(year, month);
      Cell(i - first - dim + 1, false, Date(ny, nm, i - first - dim + 1))
  }

  /** `generateCalendarGrid`, with its three filling loops. */
  method CalendarGrid(year: int, month: int) returns (days: seq<Cell>)
    requires 0 <= month < 12
    ensures |days| == 42
    ensures forall i :: 0 <= i < 42 ==> days[i] == GridCell(year, month, i)
  {
    var daysInMonth := DaysInMonth(year, month);
    var firstDay := FirstDayOfMonth(year, month);
    days := [];
    var prevMonthDays := if month == 0 then DaysInMonth(year - 1, 11) else DaysInMonth(year, month - 1);
    for i := 0 to firstDay
      invariant |days| == i
      invariant forall k :: 0 <= k < i ==> days[k] == GridCell(year, month, k)
    {
      var d := prevMonthDays - firstDay + i + 1;
      days := days + [Cell(d, false, Date(if month == 0 then year - 1 else year, if month == 0 then 11 else month - 1, d))];
    }
    for i := 1 to daysInMonth + 1
      invariant |days| == firstDay + i - 1
      invariant forall k :: 0 <= k < |days| ==> days[k] == GridCell(year, month, k)
    {
      days := days + [Cell(i, true, Date(year, month, i))];
    }
    var remainingDays := 42 - |days|;
    for i := 1 to remainingDays + 1
      invariant |days| == firstDay + daysInMonth + i - 1
      invariant forall k :: 0 <= k < |days| ==> days[k] == GridCell(year, month, k)
    {
      days := days + [Cell(i, false, Date(if month == 11 then year + 1 else year, if month == 11 then 0 else month + 1, i))];
    }
  }

  /** Every cell is a real date showing its own day of the month, flagged as current exactly when it lies in the shown month. */
  lemma GridCellsValid(year: int, month: int, i: int)
    requires 0 <= month < 12 && 0 <= i < 42
    ensures var c := GridCell(year, month, i);
      && IsValid(c.date) && c.day == c.date.day
      && (c.currentMonth <==> c.date.year == year && c.date.month == month)
  {
  }

  /** The first cell is the Sunday on or before the 1st. */
  lemma GridStartsOnSunday(year: int, month: int)
    requires 0 <= month < 12
    ensures Weekday(DayNumber(GridCell(year, month, 0).date)) == 0
    ensures DayNumber(GridCell(year, month, 0).date) == DayNumber(Date(year, month, 1)) - FirstDayOfMonth(year, month)
  {
    var first := FirstDayOfMonth(year, month);
    WeekdayAfterWeek(DayNumber(Date(year, month, 1)));
    if first > 0 {
      var (py, pm) := PrevMonth(year, month);
      MonthsAreContiguous(py, pm);
      PrevNextInverse(year, month);
      DayNumberInMonth(py, pm, DaysInMonth(py, pm) - first + 1);
      DayNumberInMonth(py, pm, DaysInMonth(py, pm));
    }
  }

  /** Cell `i + 1` is the day after cell `i`. */
  lemma GridStep(year: int, month: int, i: int)
    requires 0 <= month < 12 && 0 <= i < 41
    ensures DayNumber(GridCell(year, month, i + 1).date) == DayNumber(GridCell(year, month, i).date) + 1
  {
    var first := FirstDayOfMonth(year, month);
    var dim := DaysInMonth(year, month);
    var a, b := GridCell(year, month, i).date, GridCell(year, month, i + 1).date;
    if i + 1 == first {
      var (py, pm) := PrevMonth(year, month);
      MonthsAreContiguous(py, pm);
      PrevNextInverse(year, month);
    } else if i + 1 == first + dim {
      MonthsAreContiguous(year, month);
    } else {
      assert a.year == b.year && a.month == b.month && b.day == a.day + 1;
      DayNumberInMonth(a.year, a.month, a.day);
      DayNumberInMonth(b.year, b.month, b.day);
    }
  }

  /** The 42 cells are consecutive days, and the month's days sit at positions `first` to `first + dim - 1`. */
  lemma GridConsecutive(year: int, month: int)
    requires 0 <= month < 12
    ensures forall i :: 0 <= i < 41 ==>
      DayNumber(GridCell(year, month, i + 1).date) == DayNumber(GridCell(year, month, i).date) + 1
    ensures forall d :: 1 <= d <= DaysInMonth(year, month) ==>
      GridCell(year, month, FirstDayOfMonth(year, month) + d - 1) == Cell(d, true, Date(year, month, d))
  {
    forall i | 0 <= i < 41
      ensures DayNumber(GridCell(year, month, i + 1).date) == DayNumber(GridCell(year, month, i).date) + 1
    {
      GridStep(year, month, i);
    }
  }

  // ---------------------------------------------------------------------------
  // The component's state

  /** A todo item; `toggleTodo` flips `completed` on the shared object, not on a copy. */
  class Todo {
    const text: string
    var completed: bool

    constructor (text: string, completed: bool)
      ensures this.text == text && this.completed == completed
    {
      this.text := text;
      this.completed := completed;
    }
  }

  ghost predicate DistinctTodos(todos: seq<Todo>) {
    forall i, j :: 0 <= i < j < |todos| ==> todos[i] != todos[j]
  }

  class View {
    var width: real
    var height: real
    var isFlipped: bool
    /** `barData` of the current effect run, as captured by its `animate` closure. */
    var bars: seq<Bar>
    /** The canvas size the current effect run's `animate` closure captured; its frames draw at this size. */
    var drawnWidth: real
    var drawnHeight: real
    /** What the canvas shows: the shapes of the last frame drawn. */
    var painted: seq<BarShape>
    const clock: Animation.FrameLoop
    var newCompany: string
    var selectedJobCategory: string
    var todos: seq<Todo>
    var newTodo: string
    var currentMonth: int
    var currentYear: int

    ghost predicate Valid()
      reads this, clock
    {
      && clock.Valid()
      && width >= 0.0 && height >= 0.0
      && drawnWidth >= 0.0 && drawnHeight >= 0.0
      && 0 <= currentMonth < 12
      && DistinctTodos(todos)
    }

    /** Initial state for a given today; the canvas has no size until the first resize. */
    constructor (today: Date)
      requires IsValid(today)
      ensures Valid() && fresh(clock)
      ensures width == 0.0 && height == 0.0 && isFlipped && bars == [] && painted == []
      ensures drawnWidth == 0.0 && drawnHeight == 0.0
      ensures currentMonth == today.month && currentYear == today.year
      ensures newCompany == "" && selectedJobCategory == "" && newTodo == ""
      ensures |todos| == 4
      ensures todos[0].text == "이력서 업데이트하기" && !todos[0].completed
      ensures todos[1].text == "자기소개서 작성하기" && todos[1].completed
      ensures todos[2].text == "포트폴리오 정리하기" && !todos[2].completed
      ensures todos[3].text == "면접 준비하기" && !todos[3].completed
    {
      width, height, isFlipped := 0.0, 0.0, true;
      drawnWidth, drawnHeight := 0.0, 0.0;
      bars, painted := [], [];
      clock := new Animation.FrameLoop();
      newCompany, selectedJobCategory := "", "";
      var t0 := new Todo("이력서 업데이트하기", false);
      var t1 := new Todo("자기소개서 작성하기", true);
      var t2 := new Todo("포트폴리오 정리하기", false);
      var t3 := new Todo("면접 준비하기", false);
      todos := [t0, t1, t2, t3];
      newTodo := "";
      currentMonth, currentYear := today.month, today.year;
    }

    /** `handleResize`: the canvas takes its element's size. */
    method Resize(w: real, h: real)
      requires Valid() && w >= 0.0 && h >= 0.0
      modifies this`width, this`height
      ensures Valid()
      ensures width == w && height == h
      ensures drawnWidth == old(drawnWidth) && drawnHeight == old(drawnHeight)
      ensures isFlipped == old(isFlipped) && bars == old(bars) && painted == old(painted)
      ensures todos == old(todos) && currentMonth == old(currentMonth) && currentYear == old(currentYear)
    {
      width, height := w, h;
    }

    /** One call of `animate`: advance the clock, draw the frame, request the next one while unfinished. */
    method Animate()
      requires Valid() && clock.queued == {}
      modifies this`painted, clock
      ensures Valid()
      ensures clock.progress == Animation.Advance(old(clock.progress))
      ensures clock.progress < 1.0 ==> clock.queued == {old(clock.issued)} && clock.handle == Some(old(clock.issued))
      ensures clock.progress == 1.0 ==> clock.queued == {} && clock.handle == None
      ensures painted == Layout(bars, clock.progress, drawnWidth, drawnHeight)
      ensures width == old(width) && height == old(height) && isFlipped == old(isFlipped) && bars == old(bars)
      ensures drawnWidth == old(drawnWidth) && drawnHeight == old(drawnHeight)
      ensures todos == old(todos) && currentMonth == old(currentMonth) && currentYear == old(currentYear)
    {
      clock.Tick();
      painted := Layout(bars, clock.progress, drawnWidth, drawnHeight);
    }

    /** The graph effect, run whenever the size, the companies or the side shown changes. */
    method RunEffect(companies: seq<Company>)
      requires Valid()
      modifies this`bars, this`drawnWidth, this`drawnHeight, this`painted, clock
      ensures Valid()
      ensures width == old(width) && height == old(height) && isFlipped == old(isFlipped)
      ensures todos == old(todos) && currentMonth == old(currentMonth) && currentYear == old(currentYear)
      ensures width == 0.0 || height == 0.0 || !isFlipped ==>
        bars == old(bars) && painted == old(painted) && clock.progress == old(clock.progress)
        && clock.queued == old(clock.queued) && clock.handle == old(clock.handle)
        && drawnWidth == old(drawnWidth) && drawnHeight == old(drawnHeight)
      ensures width != 0.0 && height != 0.0 && isFlipped ==>
        && bars == BarData(Counts(companies))
        && drawnWidth == width && drawnHeight == height
        && clock.progress == Animation.Step
        && clock.queued == {old(clock.issued)} && clock.handle == Some(old(clock.issued))
        && painted == Layout(bars, Animation.Step, width, height)
    {
      if width == 0.0 || height == 0.0 || !isFlipped {
        return;
      }
      var counts := JobCounts(companies);
      bars, drawnWidth, drawnHeight := BarData(counts), width, height;
      clock.Restart();
      Animate();
    }

    /** The browser runs the queued frame `f`. */
    method Frame(f: nat)
      requires Valid() && f in clock.queued
      modifies this`painted, clock
      ensures Valid()
      ensures clock.progress == Animation.Advance(old(clock.progress))
      ensures painted == Layout(bars, clock.progress, drawnWidth, drawnHeight)
      ensures width == old(width) && height == old(height) && isFlipped == old(isFlipped) && bars == old(bars)
      ensures drawnWidth == old(drawnWidth) && drawnHeight == old(drawnHeight)
      ensures todos == old(todos) && currentMonth == old(currentMonth) && currentYear == old(currentYear)
    {
      clock.Fire(f);
      Animate();
    }

    /** The effect's cleanup: cancel the queued frame, if any. */
    method Cleanup()
      requires Valid()
      modifies clock
      ensures Valid()
      ensures clock.handle == None && clock.queued == {} && clock.progress == old(clock.progress)
    {
      clock.Cancel();
    }

    /** `toggleFlip`: stop the animation, then show the other side. */
    method ToggleFlip()
      requires Valid()
      modifies this`isFlipped, clock
      ensures Valid()
      ensures isFlipped == !old(isFlipped)
      ensures clock.handle == None && clock.queued == {} && clock.progress == old(clock.progress)
      ensures width == old(width) && height == old(height) && bars == old(bars) && painted == old(painted)
      ensures drawnWidth == old(drawnWidth) && drawnHeight == old(drawnHeight)
      ensures todos == old(todos) && currentMonth == old(currentMonth) && currentYear == old(currentYear)
    {
      clock.Cancel();
      isFlipped := !isFlipped;
    }

    method PrevMonthClick()
      requires Valid()
      modifies this`currentMonth, this`currentYear
      ensures Valid()
      ensures (currentYear, currentMonth) == PrevMonth(old(currentYear), old(currentMonth))
      ensures todos == old(todos) && isFlipped == old(isFlipped) && painted == old(painted)
    {
      if currentMonth == 0 {
        currentMonth, currentYear := 11, currentYear - 1;
      } else {
        currentMonth := currentMonth - 1;
      }
    }

    method NextMonthClick()
      requires Valid()
      modifies this`currentMonth, this`currentYear
      ensures Valid()
      ensures (currentYear, currentMonth) == NextMonth(old(currentYear), old(currentMonth))
      ensures todos == old(todos) && isFlipped == old(isFlipped) && painted == old(painted)
    {
      if currentMonth == 11 {
        currentMonth, currentYear := 0, currentYear + 1;
      } else {
        currentMonth := currentMonth + 1;
      }
    }

    /** `addTodo`: a non-blank input becomes a new, open todo at the end, and the input is cleared. */
    method AddTodo()
      requires Valid()
      modifies this`todos, this`newTodo
      ensures Valid()
      ensures IsBlank(old(newTodo)) ==> todos == old(todos) && newTodo == old(newTodo)
      ensures !IsBlank(old(newTodo)) ==>
        && |todos| == |old(todos)| + 1 && todos[..|old(todos)|] == old(todos)
        && fresh(todos[|old(todos)|])
        && todos[|old(todos)|].text == Trim(old(newTodo)) && !todos[|old(todos)|].completed
        && newTodo == ""
      ensures isFlipped == old(isFlipped) && painted == old(painted) && currentMonth == old(currentMonth)
    {
      if !IsBlank(newTodo) {
        var t := new Todo(Trim(newTodo), false);
        todos := todos + [t];
        newTodo := "";
      }
    }

    /** `toggleTodo`: flips the one todo at `index`; every other todo keeps its state. */
    method ToggleTodo(index: int)
      requires Valid() && 0 <= index < |todos|
      modifies todos[index]
      ensures Valid()
      ensures todos[index].completed == !old(todos[index].completed)
      ensures forall j :: 0 <= j < |todos| && j != index ==> todos[j].completed == old(todos[j].completed)
      ensures forall j :: 0 <= j < |todos| ==> todos[j].text == old(todos[j].text)
    {
      var t := todos[index];
      t.completed := !t.completed;
    }

    /** `removeTodo`: drops the todo at `index`; an index outside the list removes nothing. */
    method RemoveTodo(index: int)
      requires Valid()
      modifies this`todos
      ensures Valid()
      ensures todos == RemoveAt(old(todos), index)
      ensures isFlipped == old(isFlipped) && painted == old(painted) && newTodo == old(newTodo)
    {
      todos := RemoveAt(todos, index);
      assert DistinctTodos(todos) by {
        if 0 <= index < |old(todos)| {
          forall i, j | 0 <= i < j < |todos| ensures todos[i] != todos[j] {
            var i', j' := if i < index then i else i + 1, if j < index then j else j + 1;
            assert todos[i] == old(todos)[i'] && todos[j] == old(todos)[j'];
          }
        }
      }
    }

    /** `addCompany`: with a non-blank name and a chosen category, hands the trimmed name to the dashboard and clears both inputs. */
    method AddCompany() returns (added: Option<Company>)
      requires Valid()
      modifies this`newCompany, this`selectedJobCategory
      ensures Valid()
      ensures !IsBlank(old(newCompany)) && old(selectedJobCategory) != "" ==>
        added == Some(Company(Trim(old(newCompany)), old(selectedJobCategory)))
        && newCompany == "" && selectedJobCategory == ""
      ensures IsBlank(old(newCompany)) || old(selectedJobCategory) == "" ==>
        added == None && newCompany == old(newCompany) && selectedJobCategory == old(selectedJobCategory)
      ensures todos == old(todos) && isFlipped == old(isFlipped) && painted == old(painted)
    {
      if !IsBlank(newCompany) && selectedJobCategory != "" {
        added := Some(Company(Trim(newCompany), selectedJobCategory));
        newCompany, selectedJobCategory := "", "";
      } else {
        added := None;
      }
    }
  }
}
