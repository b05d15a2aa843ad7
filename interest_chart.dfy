/**
 * The horizontal bar chart of job interests: one row per entry, growing from a fixed
 * left margin in proportion to the entry's value, with a legend of the first five.
 */
module InterestChart {
  import opened Wrappers
  import opened Lists
  import Animation

  datatype JobInterest = JobInterest(category: string, value: nat, color: string)

  /** What one frame draws for one row: its box, its gradient stops, where its two labels go and their opacity. */
  datatype RowShape = RowShape(
    x: real, y: real, width: real, height: real,
    left: string, right: string,
    labelAt: Animation.Point, valueAt: Animation.Point, textOpacity: real)

  /** Left margin reserved for the category labels. */
  const LabelMargin: real := 80.0

  /** `Math.max(...values, 1)`. */
  function MaxValue(rows: seq<JobInterest>): (m: nat)
    ensures m >= 1
    ensures forall i :: 0 <= i < |rows| ==> rows[i].value <= m
    ensures m == 1 || exists i :: 0 <= i < |rows| && rows[i].value == m
  {
    if rows == [] then 1
    else
      var rest := MaxValue(rows[1..]);
      assert forall i :: 1 <= i < |rows| ==> rows[i] == rows[1..][i - 1];
      if rows[0].value >= rest then rows[0].value else rest
  }

  /** `Math.min(30, height / (n * 1.5))`; with no rows the quotient is infinite and 30 wins. */
  function BarHeight(n: nat, height: real): (h: real)
    requires height >= 0.0
    ensures 0.0 <= h <= 30.0
    ensures n > 0 ==> h * (n as real * 1.5) <= height
  {
    if n == 0 then 30.0
    else
      var q := height / (n as real * 1.5);
      assert q * (n as real * 1.5) == height;
      Animation.Min(30.0, q)
  }

  /** The row's width once fully grown: its share of the largest value times 70% of the canvas width. */
  function FullWidth(value: nat, maxValue: nat, width: real): real
    requires maxValue >= 1
  {
    if value > 0 then (value as real / maxValue as real) * (width * 0.7) else 0.0
  }

  function StartY(n: nat, barHeight: real, height: real): real {
    (height - (n as real * barHeight + (n as real - 1.0) * (barHeight * 0.5))) / 2.0
  }

  /** What `animate` draws for row `i` of `n`, given the largest value `m`. */
  function Row(d: JobInterest, i: nat, n: nat, m: nat, progress: real, width: real, height: real): RowShape
    requires height >= 0.0 && m >= 1
  {
    var bh := BarHeight(n, height);
    var y := StartY(n, bh, height) + i as real * (bh + bh * 0.5);
    var w := FullWidth(d.value, m, width) * progress;
    RowShape(LabelMargin, y, w, bh, d.color, d.color + "80",
      Animation.Point(LabelMargin - 10.0, y + bh / 2.0 + 4.0),
      Animation.Point(LabelMargin + w + 10.0, y + bh / 2.0 + 4.0),
      Animation.Min(progress * 2.0, 1.0))
  }

  /** Every entry is drawn, none is dropped. */
  function Layout(rows: seq<JobInterest>, progress: real, width: real, height: real): (r: seq<RowShape>)
    requires height >= 0.0
    ensures |r| == |rows|
    ensures forall i :: 0 <= i < |rows| ==> r[i] == Row(rows[i], i, |rows|, MaxValue(rows), progress, width, height)
  {
    seq(|rows|, i requires 0 <= i < |rows| => Row(rows[i], i, |rows|, MaxValue(rows), progress, width, height))
  }

  /** A row's full width lies between 0 and 70% of the canvas width. */
  lemma FullWidthBounded(v: nat, m: nat, width: real)
    requires 1 <= m && v <= m && width >= 0.0
    ensures 0.0 <= FullWidth(v, m, width) <= width * 0.7
  {
    Animation.ShareBounded(v as real, m as real, width * 0.7);
  }

  /** Full widths follow the values, and the largest value gets the full 70%. */
  lemma FullWidthMonotone(vi: nat, vj: nat, m: nat, width: real)
    requires 1 <= m && vi <= vj <= m && width >= 0.0
    ensures FullWidth(vi, m, width) <= FullWidth(vj, m, width)
    ensures vj == m ==> FullWidth(vj, m, width) == width * 0.7
  {
    FullWidthBounded(vi, m, width);
    if vi > 0 {
      Animation.ShareMonotone(vi as real, vj as real, m as real, width * 0.7);
    }
  }

  /**
   * Each row starts at x = 80 and is at most 70% of the width long; the category label
   * sits 10 to the left of the bar, the value label 10 to the right of its current end,
   * both on the row's middle line, and both fade in with the progress.
   */
  lemma RowBounded(d: JobInterest, i: nat, n: nat, m: nat, progress: real, width: real, height: real)
    requires 0.0 <= progress <= 1.0 && width >= 0.0 && height >= 0.0 && 1 <= m && d.value <= m
    ensures var r := Row(d, i, n, m, progress, width, height);
      && r.x == 80.0
      && 0.0 <= r.width <= width * 0.7
      && r.width == FullWidth(d.value, m, width) * progress
      && r.labelAt.x == r.x - 10.0
      && r.valueAt.x == r.x + r.width + 10.0
      && r.labelAt.y == r.valueAt.y == r.y + r.height / 2.0 + 4.0
      && r.textOpacity == Animation.TextOpacity(progress)
  {
    var f := FullWidth(d.value, m, width);
    FullWidthBounded(d.value, m, width);
    Animation.ScaleMonotone(f, 0.0, progress);
    Animation.ScaleMonotone(f, progress, 1.0);
    assert 0.0 <= f <= width * 0.7;
    assert f * progress <= f;
    assert Row(d, i, n, m, progress, width, height).width == f * progress;
  }

  /** Widths follow the values at every progress; at full progress the largest value spans 70% of the width. */
  lemma RowsProportional(di: JobInterest, i: nat, dj: JobInterest, j: nat, n: nat, m: nat, progress: real, width: real, height: real)
    requires 0.0 <= progress <= 1.0 && width >= 0.0 && height >= 0.0
    requires 1 <= m && di.value <= m && dj.value <= m
    ensures var ri, rj := Row(di, i, n, m, progress, width, height), Row(dj, j, n, m, progress, width, height);
      && (di.value <= dj.value ==> ri.width <= rj.width)
      && (progress == 1.0 && dj.value == m ==> rj.width == width * 0.7)
  {
    var fi, fj := FullWidth(di.value, m, width), FullWidth(dj.value, m, width);
    FullWidthMonotone(dj.value, dj.value, m, width);
    if di.value <= dj.value {
      FullWidthMonotone(di.value, dj.value, m, width);
      FullWidthBounded(di.value, m, width);
      Animation.ScaleMonotone(progress, fi, fj);
      assert fi * progress <= fj * progress;
    }
  }

  /** The stack of `n` rows fits the canvas with equal margins above and below. */
  lemma StackCentred(n: nat, height: real)
    requires height >= 0.0 && n > 0
    ensures var bh := BarHeight(n, height); var sy := StartY(n, bh, height);
      && 0.0 <= sy
      && sy == height - (sy + (n as real - 1.0) * (bh + bh * 0.5) + bh)
  {
    var bh := BarHeight(n, height);
    var k := n as real;
    assert bh * (k * 1.5) <= height;
    assert k * bh + (k - 1.0) * (bh * 0.5) == bh * (k * 1.5 - 0.5);
    assert bh * (k * 1.5 - 0.5) <= bh * (k * 1.5);
  }

  /** Rows go top to bottom, a bar height plus half of it apart, with equal margins above and below. */
  lemma RowsCentred(d0: JobInterest, d1: JobInterest, i: nat, n: nat, m: nat, progress: real, width: real, height: real)
    requires height >= 0.0 && 1 <= m && 0 < n
    ensures var first, last := Row(d0, 0, n, m, progress, width, height), Row(d1, n - 1, n, m, progress, width, height);
      && 0.0 <= first.y
      && first.y == height - (last.y + last.height)
      && Row(d1, i + 1, n, m, progress, width, height).y == Row(d0, i, n, m, progress, width, height).y + first.height * 1.5
  {
    StackCentred(n, height);
  }

  /** The legend under the chart: the first five entries only. */
  function Legend(rows: seq<JobInterest>): (r: seq<JobInterest>)
    ensures |r| == if |rows| < 5 then |rows| else 5
    ensures forall i :: 0 <= i < |r| ==> r[i] == rows[i]
  {
    Take(rows, 5)
  }

  class Chart {
    var width: real
    var height: real
    /** The entries the current effect run draws. */
    var rows: seq<JobInterest>
    /** The canvas size the current effect run's `animate` closure captured; its frames draw at this size. */
    var drawnWidth: real
    var drawnHeight: real
    /** What the canvas shows: the shapes of the last frame drawn. */
    var painted: seq<RowShape>
    const clock: Animation.FrameLoop

    ghost predicate Valid()
      reads this, clock
    {
      clock.Valid() && width >= 0.0 && height >= 0.0 && drawnWidth >= 0.0 && drawnHeight >= 0.0
    }

    constructor ()
      ensures Valid() && fresh(clock)
      ensures width == 0.0 && height == 0.0 && rows == [] && painted == []
      ensures drawnWidth == 0.0 && drawnHeight == 0.0
    {
      width, height, rows, painted := 0.0, 0.0, [], [];
      drawnWidth, drawnHeight := 0.0, 0.0;
      clock := new Animation.FrameLoop();
    }

    /** `handleResize`: the canvas takes its parent's size. */
    method Resize(w: real, h: real)
      requires Valid() && w >= 0.0 && h >= 0.0
      modifies this`width, this`height
      ensures Valid()
      ensures width == w && height == h && rows == old(rows) && painted == old(painted)
      ensures drawnWidth == old(drawnWidth) && drawnHeight == old(drawnHeight)
    {
      width, height := w, h;
    }

    /** One call of `animate`: advance the clock, draw the frame, request the next one while unfinished. */
    method Animate()
      requires Valid() && clock.queued == {}
      modifies this`painted, clock
      ensures Valid()
      ensures clock.progress == Animation.Advance(old(clock.progress))
      ensures clock.progress < 1.0 ==> clock.queued == {old(clock.issued)} && clock.handle == Some(old(clock.issued))
      ensures clock.progress == 1.0 ==> clock.queued == {} && clock.handle == None
      ensures painted == Layout(rows, clock.progress, drawnWidth, drawnHeight)
      ensures width == old(width) && height == old(height) && rows == old(rows)
      ensures drawnWidth == old(drawnWidth) && drawnHeight == old(drawnHeight)
    {
      clock.Tick();
      painted := Layout(rows, clock.progress, drawnWidth, drawnHeight);
    }

    /** The graph effect, run whenever the size or the entries change. */
    method RunEffect(jobInterests: seq<JobInterest>)
      requires Valid()
      modifies this`rows, this`drawnWidth, this`drawnHeight, this`painted, clock
      ensures Valid()
      ensures width == old(width) && height == old(height)
      ensures width == 0.0 || height == 0.0 || jobInterests == [] ==>
        rows == old(rows) && painted == old(painted) && clock.progress == old(clock.progress)
        && clock.queued == old(clock.queued) && clock.handle == old(clock.handle)
        && drawnWidth == old(drawnWidth) && drawnHeight == old(drawnHeight)
      ensures width != 0.0 && height != 0.0 && jobInterests != [] ==>
        && rows == jobInterests
        && drawnWidth == width && drawnHeight == height
        && clock.progress == Animation.Step
        && clock.queued == {old(clock.issued)} && clock.handle == Some(old(clock.issued))
        && painted == Layout(jobInterests, Animation.Step, width, height)
    {
      if width == 0.0 || height == 0.0 || |jobInterests| == 0 {
        return;
      }
      rows, drawnWidth, drawnHeight := jobInterests, width, height;
      clock.Restart();
      Animate();
    }

    /** The browser runs the queued frame `f`. */
    method Frame(f: nat)
      requires Valid() && f in clock.queued
      modifies this`painted, clock
      ensures Valid()
      ensures clock.progress == Animation.Advance(old(clock.progress))
      ensures painted == Layout(rows, clock.progress, drawnWidth, drawnHeight)
      ensures width == old(width) && height == old(height) && rows == old(rows)
      ensures drawnWidth == old(drawnWidth) && drawnHeight == old(drawnHeight)
    {
      clock.Fire(f);
      Animate();
    }

    /** The effect's cleanup: cancel the queued frame, if any. */
    method Cleanup()
      requires Valid()
      modifies clock
      ensures Valid()
      ensures clock.handle == None && clock.queued == {} && clock.progress == old(clock.progress)
    {
      clock.Cancel();
    }
  }
}
