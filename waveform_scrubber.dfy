/** The logic of the player's waveform scrubber: reducing a waveform to the
    number of bars that fit, and turning a touch position into playback
    progress. */
module Scrubber {
  import IntArith

  function Min(a: int, b: int): int {
    if a <= b then a else b
  }

  // ---------------------------------------------------------------------------
  // Downsampling
  // ---------------------------------------------------------------------------

  /** First index of bucket i when n values are spread over t buckets. */
  function BucketStart(n: nat, t: nat, i: nat): nat
    requires t >= 1
  {
    i * n / t
  }

  /** One past the last index of bucket i, never past n. */
  function BucketEnd(n: nat, t: nat, i: nat): nat
    requires t >= 1
  {
    Min((i + 1) * n / t, n)
  }

  /** a[s] + … + a[e-1], added left to right; 0 when the range is empty. */
  function Sum(a: seq<real>, s: nat, e: nat): real
    requires e <= |a|
    decreases e
  {
    if e <= s then 0.0 else Sum(a, s, e - 1) + a[e - 1]
  }

  /** The value of one bar: the mean of its bucket, or 0 for an empty bucket. */
  function BucketMean(a: seq<real>, s: nat, e: nat): real
    requires e <= |a|
  {
    if e > s then Sum(a, s, e) / (e - s) as real else 0.0
  }

  /** What `downsample` returns: the input itself when it already fits,
      otherwise one bucket mean per target slot. */
  function Downsampled(a: seq<real>, t: nat): (r: seq<real>)
  {
    if |a| <= t then a
    else seq(t, i requires 0 <= i < t => BucketMean(a, BucketStart(|a|, t, i), BucketEnd(|a|, t, i)))
  }

  /** Every bucket lies inside the input, and the cap at n never bites. */
  lemma BucketBounds(n: nat, t: nat, i: nat)
    requires 1 <= t && i < t
    ensures BucketStart(n, t, i) <= BucketEnd(n, t, i) == (i + 1) * n / t <= n
  {
    assert (i + 1) * n == i * n + n;
    IntArith.DivMonotone(i * n, (i + 1) * n, t);
    IntArith.MulMonotone(i + 1, t, n);
    IntArith.DivMonotone((i + 1) * n, t * n, t);
    IntArith.DivModUnique(t * n, n, 0, t);
  }

  /** The buckets tile the input: the first starts at 0, each ends where the
      next starts, and the last ends at n. */
  lemma BucketsTile(n: nat, t: nat)
    requires t >= 1
    ensures BucketStart(n, t, 0) == 0
    ensures BucketEnd(n, t, t - 1) == n
    ensures forall i :: 0 <= i < t - 1 ==> BucketEnd(n, t, i) == BucketStart(n, t, i + 1)
  {
    BucketBounds(n, t, t - 1);
    IntArith.DivModUnique(t * n, n, 0, t);
    forall i | 0 <= i < t - 1
      ensures BucketEnd(n, t, i) == BucketStart(n, t, i + 1)
    {
      BucketBounds(n, t, i);
    }
  }

  /** When there are more values than buckets, no bucket is empty. */
  lemma BucketsNonEmpty(n: nat, t: nat, i: nat)
    requires 1 <= t < n && i < t
    ensures BucketStart(n, t, i) < BucketEnd(n, t, i)
  {
    BucketBounds(n, t, i);
    IntArith.DivAddDivisor(i * n, t);
    IntArith.DivMonotone(i * n + t, (i + 1) * n, t);
  }

  /** A sum of k values in [lo, hi] lies in [k·lo, k·hi]. */
  lemma {:induction false} SumBounds(a: seq<real>, s: nat, e: nat, lo: real, hi: real)
    requires s <= e <= |a|
    requires forall k :: s <= k < e ==> lo <= a[k] <= hi
    ensures (e - s) as real * lo <= Sum(a, s, e) <= (e - s) as real * hi
    decreases e
  {
    if e > s {
      SumBounds(a, s, e - 1, lo, hi);
      assert (e - s) as real * lo == (e - 1 - s) as real * lo + lo;
      assert (e - s) as real * hi == (e - 1 - s) as real * hi + hi;
    }
  }

  /** A sum of k values in [k·lo, k·hi], divided by k, lies in [lo, hi]. */
  lemma MeanWithin(sum: real, k: real, lo: real, hi: real)
    requires k > 0.0 && k * lo <= sum <= k * hi
    ensures lo <= sum / k <= hi
  {
    assert sum / k - lo == (sum - k * lo) / k;
    assert hi - sum / k == (k * hi - sum) / k;
  }

  /** One bar of a downsampled waveform lies within the input's range. */
  lemma BarWithinRange(a: seq<real>, t: nat, i: nat, lo: real, hi: real)
    requires i < t < |a|
    requires forall k :: 0 <= k < |a| ==> lo <= a[k] <= hi
    ensures lo <= BucketMean(a, BucketStart(|a|, t, i), BucketEnd(|a|, t, i)) <= hi
  {
    var s, e := BucketStart(|a|, t, i), BucketEnd(|a|, t, i);
    BucketsNonEmpty(|a|, t, i);
    SumBounds(a, s, e, lo, hi);
    MeanWithin(Sum(a, s, e), (e - s) as real, lo, hi);
  }

  /** Downsampling never leaves the range of the input: every bar lies between
      the smallest and the largest amplitude (a constant waveform stays constant). */
  lemma DownsampledWithinRange(a: seq<real>, t: nat, lo: real, hi: real)
    requires forall k :: 0 <= k < |a| ==> lo <= a[k] <= hi
    ensures |Downsampled(a, t)| == if |a| <= t then |a| else t
    ensures forall i :: 0 <= i < |Downsampled(a, t)| ==> lo <= Downsampled(a, t)[i] <= hi
  {
    if |a| > t {
      forall i | 0 <= i < t
        ensures lo <= Downsampled(a, t)[i] <= hi
      {
        BarWithinRange(a, t, i, lo, hi);
      }
    }
  }

  /** `downsample`: the input array itself when it fits, otherwise a new
      array of bucket means. The input is only read. */
  method Downsample(amplitudes: array<real>, targetSize: nat) returns (result: array<real>)
    ensures amplitudes.Length <= targetSize ==> result == amplitudes
    ensures amplitudes.Length > targetSize ==> fresh(result)
    ensures result[..] == Downsampled(amplitudes[..], targetSize)
  {
    if amplitudes.Length <= targetSize {
      return amplitudes;
    }
    var n := amplitudes.Length;
    result := new real[targetSize];
    for i := 0 to targetSize
      invariant forall k :: 0 <= k < i ==>
                  result[k] == BucketMean(amplitudes[..], BucketStart(n, targetSize, k), BucketEnd(n, targetSize, k))
    {
      var start := i * n / targetSize;
      var end := Min((i + 1) * n / targetSize, n);
      BucketBounds(n, targetSize, i);
      var sum := 0.0;
      for j := start to end
        invariant sum == Sum(amplitudes[..], start, j)
      {
        sum := sum + amplitudes[j];
      }
      result[i] := if end > start then sum / (end - start) as real else 0.0;
    }
  }

  // ---------------------------------------------------------------------------
  // Touch position to progress
  // ---------------------------------------------------------------------------

  /** `(x / width).coerceIn(0, 1)`. */
  function Progress(x: real, width: int): (r: real)
    requires width > 0
    ensures 0.0 <= r <= 1.0
    ensures 0.0 <= x <= width as real ==> r == x / width as real
    ensures x < 0.0 ==> r == 0.0
    ensures x > width as real ==> r == 1.0
  {
    var p := x / width as real;
    if p < 0.0 then 0.0 else if p > 1.0 then 1.0 else p
  }

  /** Moving the finger right never moves the progress left. */
  lemma ProgressIsMonotone(x: real, y: real, width: int)
    requires width > 0 && x <= y
    ensures Progress(x, width) <= Progress(y, width)
  {
    assert x / width as real <= y / width as real;
  }

  /** The gesture state of the scrubber. */
  class ScrubberGesture {
    var isDragging: bool
    var dragProgress: real

    ghost predicate Valid()
      reads this
    {
      0.0 <= dragProgress <= 1.0
    }

    constructor()
      ensures Valid() && !isDragging && dragProgress == 0.0
    {
      isDragging := false;
      dragProgress := 0.0;
    }

    /** What the bars show: the finger's position while dragging, otherwise
        the player's progress. */
    function DisplayProgress(progress: real): (r: real)
      reads this
      ensures Valid() && 0.0 <= progress <= 1.0 ==> 0.0 <= r <= 1.0
      ensures !isDragging ==> r == progress
    {
      if isDragging then dragProgress else progress
    }

    /** `onPress` up to `tryAwaitRelease`, and `onDragStart`. */
    method Press(x: real, width: int)
      requires width > 0
      modifies this
      ensures Valid() && isDragging && dragProgress == Progress(x, width)
    {
      isDragging := true;
      dragProgress := Progress(x, width);
    }

    /** `onPress` after the release: the drag ends and the pressed position is reported. */
    method Release() returns (reported: real)
      requires Valid()
      modifies this
      ensures Valid() && !isDragging && dragProgress == old(dragProgress)
      ensures reported == dragProgress && 0.0 <= reported <= 1.0
    {
      isDragging := false;
      reported := dragProgress;
    }

    /** `onDragEnd` and `onDragCancel`. */
    method EndDrag()
      modifies this
      ensures !isDragging && dragProgress == old(dragProgress)
    {
      isDragging := false;
    }

    /** `onHorizontalDrag`: follows the finger and reports the new position. */
    method Drag(x: real, width: int) returns (reported: real)
      requires width > 0
      modifies this
      ensures Valid() && isDragging == old(isDragging)
      ensures dragProgress == Progress(x, width) && reported == dragProgress
    {
      dragProgress := Progress(x, width);
      reported := dragProgress;
    }
  }
}
