/**
 * The progress clock shared by the two canvas charts: a value in [0, 1] advanced by
 * 0.03 per animation frame and clamped at 1, and the single pending frame request that
 * the chart keeps in a ref so that it can cancel it; also the scaling facts both charts'
 * bar geometry rests on.
 */
module Animation {
  import opened Wrappers

  const Step: real := 0.03

  function Min(a: real, b: real): real {
    if a <= b then a else b
  }

  /** A position on the canvas. */
  datatype Point = Point(x: real, y: real)

  /** A share `c / m` of a non-negative length, with `c <= m`, lies between 0 and that length. */
  lemma ShareBounded(c: real, m: real, h: real)
    requires 1.0 <= m && 0.0 <= c <= m && h >= 0.0
    ensures 0.0 <= (c / m) * h <= h
  {
  }

  /** A larger share of the same length is at least as long. */
  lemma ShareMonotone(a: real, b: real, m: real, h: real)
    requires 1.0 <= m && 0.0 <= a <= b && h >= 0.0
    ensures (a / m) * h <= (b / m) * h
  {
  }

  /** Scaling a non-negative length by a larger factor never shortens it. */
  lemma ScaleMonotone(f: real, p: real, q: real)
    requires 0.0 <= f && 0.0 <= p <= q
    ensures f * p <= f * q
  {
  }

  /** One tick: `Math.min(progress + 0.03, 1)`. */
  function Advance(p: real): (q: real)
    requires 0.0 <= p <= 1.0
    ensures 0.0 < q <= 1.0
    ensures p < q || p == q == 1.0
    ensures q < 1.0 ==> q - p == Step
  {
    Min(p + Step, 1.0)
  }

  /** The progress after `k` ticks from a reset. */
  function ProgressAfter(k: nat): (p: real)
    ensures 0.0 <= p <= 1.0
  {
    if k == 0 then 0.0 else Advance(ProgressAfter(k - 1))
  }

  /** After `k` ticks the progress is `min(0.03 * k, 1)`. */
  lemma {:induction false} ProgressAfterIs(k: nat)
    ensures ProgressAfter(k) == Min(Step * k as real, 1.0)
  {
    if k > 0 {
      ProgressAfterIs(k - 1);
    }
  }

  /** Each tick before the end strictly increases the progress; it is below 1 for 33 ticks and reaches 1 at the 34th. */
  lemma RunLength(k: nat)
    ensures k < 34 ==> ProgressAfter(k) < ProgressAfter(k + 1)
    ensures ProgressAfter(k) == 1.0 <==> k >= 34
  {
    ProgressAfterIs(k);
    ProgressAfterIs(k + 1);
  }

  /** Label opacity, `Math.min(progress * 2, 1)`: the labels are fully visible from half-way. */
  function TextOpacity(p: real): (o: real)
    requires 0.0 <= p <= 1.0
    ensures 0.0 <= o <= 1.0
    ensures o == 1.0 <==> p >= 0.5
    ensures p < 0.5 ==> o == 2.0 * p
  {
    Min(p * 2.0, 1.0)
  }

  lemma TextOpacityMonotone(p: real, q: real)
    requires 0.0 <= p <= q <= 1.0
    ensures TextOpacity(p) <= TextOpacity(q)
  {
  }

  /**
   * The animation state of one chart instance: `animationProgressRef`, `animationRef`
   * (the handle of the requested frame) and, standing in for the browser, the set of
   * frame callbacks still queued and the number of handles handed out.
   */
  class FrameLoop {
    var progress: real
    var handle: Option<nat>
    var queued: set<nat>
    var issued: nat

    /** At most one frame is queued, it is the one the ref names, and one is queued only while the run is unfinished. */
    ghost predicate Valid()
      reads this
    {
      && 0.0 <= progress <= 1.0
      && (handle.None? ==> queued == {})
      && (handle.Some? ==> queued <= {handle.value} && handle.value < issued)
      && (queued != {} ==> progress < 1.0)
    }

    constructor ()
      ensures Valid() && progress == 0.0 && handle == None && queued == {} && issued == 0
    {
      progress, handle, queued, issued := 0.0, None, {}, 0;
    }

    /** `if (ref.current !== null) { cancelAnimationFrame(ref.current); ref.current = null }`. */
    method Cancel()
      requires Valid()
      modifies this
      ensures Valid()
      ensures handle == None && queued == {}
      ensures progress == old(progress) && issued == old(issued)
    {
      if handle.Some? {
        queued := queued - {handle.value};
        handle := None;
      }
    }

    /** What the effect does before the first frame: cancel any queued frame, then reset the progress. */
    method Restart()
      requires Valid()
      modifies this
      ensures Valid()
      ensures handle == None && queued == {} && progress == 0.0 && issued == old(issued)
    {
      Cancel();
      progress := 0.0;
    }

    /** The browser runs queued frame `f`; from then on it is no longer queued. */
    method Fire(f: nat)
      requires Valid() && f in queued
      modifies this
      ensures Valid() && queued == {}
      ensures progress == old(progress) && handle == old(handle) && issued == old(issued)
      ensures progress < 1.0
    {
      queued := queued - {f};
    }

    /** The clock part of `animate`: advance, then request a new frame exactly when the run is unfinished. */
    method Tick()
      requires Valid() && queued == {}
      modifies this
      ensures Valid()
      ensures progress == Advance(old(progress))
      ensures progress < 1.0 ==> handle == Some(old(issued)) && queued == {old(issued)} && issued == old(issued) + 1
      ensures progress == 1.0 ==> handle == None && queued == {} && issued == old(issued)
    {
      progress := Advance(progress);
      if progress < 1.0 {
        handle := Some(issued);
        queued := {issued};
        issued := issued + 1;
      } else {
        handle := None;
      }
    }
  }
}
