/** src/image.rs, the fixed-point bicubic resize: window and weights per output pixel, weights quantised to 22 bits, an
    integer accumulation seeded with half a unit, and the shift-and-clamp back to a byte, in two separable passes.
    The floating-point coefficient computation is read as exact real arithmetic. */
module Resize {
  import opened Arith
  import opened Prelude

  /** `1 << PRECISION_BITS`. */
  const SCALE: int := 4194304

  /** The rounding bias, half a unit. */
  const BIAS: int := 2097152

  // ----- the kernel -----

  function Abs(x: real): real { if x < 0.0 then -x else x }

  function Cubic(x0: real): real
  {
    var a := -0.5;
    var x := Abs(x0);
    if x < 1.0 then ((a + 2.0) * x - (a + 3.0)) * x * x + 1.0
    else if x < 2.0 then (((x - 5.0) * x + 8.0) * x - 4.0) * a
    else 0.0
  }

  lemma CubicCentre(x: real)
    requires 0.0 <= x <= 0.5
    ensures Cubic(x) >= 0.5625
  {
    var y := 0.5 - x;
    SquareBelow(y, 0.5);
    SquareBelow(x, 0.5);
    ProductNonNegative(y, 0.875 + 1.75 * x - 1.5 * x * x);
    assert Cubic(x) == 0.5625 + y * (0.875 + 1.75 * x - 1.5 * x * x);
  }

  lemma SquareBelow(x: real, b: real)
    requires 0.0 <= x <= b
    ensures 0.0 <= x * x <= b * b
  {
  }

  lemma ProductBelow(x: real, y: real, a: real, b: real)
    requires 0.0 <= x <= a && 0.0 <= y <= b
    ensures 0.0 <= x * y <= a * b
  {
  }

  lemma CubicPositive(x: real)
    requires 0.0 <= x <= 1.0
    ensures Cubic(x) >= 0.0
  {
    if x < 1.0 {
      var y := 1.0 + x - 1.5 * x * x;
      SquareBelow(x, 1.0);
      assert x * x <= x;
      ProductBelow(1.0 - x, y, 1.0, 2.0);
      assert Cubic(x) == (1.0 - x) * y;
    }
  }

  lemma CubicFloor(x: real)
    requires 0.0 <= x
    ensures Cubic(x) >= -0.08
  {
    if x <= 1.0 {
      CubicPositive(x);
    } else if x < 2.0 {
      var y := x - 1.0;
      var third := 1.0 / 3.0;
      var gap := (y - third) * (y - third) * (4.0 / 3.0 - y);
      ProductNonNegative((y - third) * (y - third), 4.0 / 3.0 - y);
      assert (y - third) * (y - third) == y * y - 2.0 * third * y + third * third;
      assert gap == 4.0 / 27.0 - y * (1.0 - y) * (1.0 - y);
      assert Cubic(x) == -0.5 * (y * (1.0 - y) * (1.0 - y));
    }
  }

  lemma ProductNonNegative(x: real, y: real)
    requires x >= 0.0 && y >= 0.0
    ensures x * y >= 0.0
  {
  }

  // ----- windows and weights -----

  function Ratio(inSize: nat, outSize: nat): (s: real)
    requires inSize > 0 && outSize > 0
    ensures s > 0.0
  {
    (inSize as real) / (outSize as real)
  }

  function FilterScale(s: real): (fs: real)
    ensures fs >= 1.0 && fs >= s
  {
    if s > 1.0 then s else 1.0
  }

  function Center(s: real, xx: nat): real { (xx as real + 0.5) * s }

  function XMin(s: real, xx: nat): nat
  {
    Max((Center(s, xx) - 2.0 * FilterScale(s) + 0.5).Floor, 0)
  }

  function XMax(inSize: nat, s: real, xx: nat): int
  {
    Min((Center(s, xx) + 2.0 * FilterScale(s) + 0.5).Floor, inSize)
  }

  /** The kernel's argument for source position `x`. */
  function Arg(s: real, xx: nat, x: int): real
  {
    (x as real - Center(s, xx) + 0.5) / FilterScale(s)
  }

  /** Unnormalised weight of source position `x`. */
  function Raw(s: real, xx: nat, x: int): real { Cubic(Arg(s, xx, x)) }

  function RawSum(s: real, xx: nat, lo: int, hi: int): real
    decreases hi - lo
  {
    if lo >= hi then 0.0 else RawSum(s, xx, lo, hi - 1) + Raw(s, xx, hi - 1)
  }

  lemma {:induction false} RawSumSplit(s: real, xx: nat, lo: int, mid: int, hi: int)
    requires lo <= mid <= hi
    ensures RawSum(s, xx, lo, hi) == RawSum(s, xx, lo, mid) + RawSum(s, xx, mid, hi)
    decreases hi - mid
  {
    if mid < hi {
      RawSumSplit(s, xx, lo, mid, hi - 1);
    }
  }

  lemma {:induction false} RawSumAtLeast(s: real, xx: nat, lo: int, hi: int, w: real)
    requires lo <= hi && forall x :: lo <= x < hi ==> Raw(s, xx, x) >= w
    ensures RawSum(s, xx, lo, hi) >= w * ((hi - lo) as real)
    decreases hi - lo
  {
    hide Raw;
    if lo < hi {
      RawSumAtLeast(s, xx, lo, hi - 1, w);
      assert w * ((hi - lo) as real) == w * ((hi - 1 - lo) as real) + w;
    }
  }

  lemma CubicIsEven(x: real)
    ensures Cubic(x) == Cubic(Abs(x))
  {
  }

  /** Tap `x` is within `r` filter widths of the window's centre. */
  predicate Near(s: real, xx: nat, x: int, r: real)
  {
    Abs(x as real - Center(s, xx) + 0.5) <= r * FilterScale(s)
  }

  /** The weight of a tap by its distance from the centre. */
  lemma TapBounds(s: real, xx: nat, x: int)
    ensures Raw(s, xx, x) >= -0.08
    ensures Near(s, xx, x, 1.0) ==> Raw(s, xx, x) >= 0.0
    ensures Near(s, xx, x, 0.5) ==> Raw(s, xx, x) >= 0.5625
  {
    hide Cubic, Center;
    var d, fs := x as real - Center(s, xx) + 0.5, FilterScale(s);
    AbsDiv(d, fs);
    CubicIsEven(d / fs);
    CubicFloor(Abs(d / fs));
    if Abs(d) <= fs {
      DivBelow(Abs(d), fs, 1.0);
      CubicPositive(Abs(d / fs));
    }
    if Abs(d) <= 0.5 * fs {
      DivBelow(Abs(d), fs, 0.5);
      CubicCentre(Abs(d / fs));
    }
  }

  lemma AbsDiv(d: real, fs: real)
    requires fs > 0.0
    ensures Abs(d / fs) == Abs(d) / fs
  {
    if d < 0.0 {
      assert (-d) / fs == -(d / fs);
      DivBelow(-d, fs, (-d) / fs);
    } else {
      DivBelow(d, fs, d / fs);
    }
  }

  lemma DivBelow(d: real, fs: real, b: real)
    requires fs > 0.0 && d >= 0.0
    ensures d / fs >= 0.0 && (d <= b * fs ==> d / fs <= b)
  {
    assert (d / fs) * fs == d;
  }

  lemma ScaledWindow(inSize: nat, outSize: nat, xx: nat)
    requires 0 < inSize && xx < outSize
    ensures var s := Ratio(inSize, outSize);
      Center(s, xx) - 0.5 * s >= 0.0 && Center(s, xx) + 0.5 * s <= inSize as real
  {
    var s := Ratio(inSize, outSize);
    assert s * (outSize as real) == inSize as real;
    assert Center(s, xx) - 0.5 * s == (xx as real) * s;
    assert Center(s, xx) + 0.5 * s == ((xx + 1) as real) * s;
    ScaleBy(0.0, xx as real, s);
    ScaleBy((xx + 1) as real, outSize as real, s);
  }

  lemma ScaleBy(a: real, b: real, c: real)
    requires a <= b && c >= 0.0
    ensures a * c <= b * c
  {
  }

  /** Every window lies inside the source and is not empty; no index is ever out of range. */
  lemma WindowInRange(inSize: nat, outSize: nat, xx: nat)
    requires 0 < inSize && xx < outSize
    ensures var s := Ratio(inSize, outSize); XMin(s, xx) < XMax(inSize, s, xx) <= inSize
  {
    var s := Ratio(inSize, outSize);
    var b, c := CentreTaps(inSize, outSize, xx);
  }

  /** The taps within half a filter width of the centre: at least as many as the filter scale's whole part. */
  lemma CentreTaps(inSize: nat, outSize: nat, xx: nat) returns (b: int, c: int)
    requires 0 < inSize && xx < outSize
    ensures
      var s := Ratio(inSize, outSize);
      && XMin(s, xx) <= b < c <= XMax(inSize, s, xx)
      && c - b >= FilterScale(s).Floor >= 1
      && forall x :: b <= x < c ==> Near(s, xx, x, 0.5)
  {
    hide Center;
    ScaledWindow(inSize, outSize, xx);
    var s := Ratio(inSize, outSize);
    var fs, center := FilterScale(s), Center(s, xx);
    if s > 1.0 {
      b := -((-(center - 0.5 * fs - 0.5)).Floor);
      c := (center + 0.5 * fs - 0.5).Floor + 1;
    } else {
      b := center.Floor;
      c := b + 1;
      if b == inSize {
        b, c := b - 1, c - 1;
      }
    }
  }

  /** The taps within one filter width: all but at most one filter width's worth on either side. */
  lemma InnerTaps(inSize: nat, outSize: nat, xx: nat, b: int, c: int) returns (a: int, d: int)
    requires 0 < inSize && xx < outSize
    requires var s := Ratio(inSize, outSize);
      XMin(s, xx) <= b < c <= XMax(inSize, s, xx) && forall x :: b <= x < c ==> Near(s, xx, x, 0.5)
    ensures var s := Ratio(inSize, outSize);
      && XMin(s, xx) <= a <= b && c <= d <= XMax(inSize, s, xx)
      && a - XMin(s, xx) <= FilterScale(s).Floor + 1
      && XMax(inSize, s, xx) - d <= FilterScale(s).Floor + 1
      && (forall x :: a <= x < b ==> Near(s, xx, x, 1.0))
      && (forall x :: c <= x < d ==> Near(s, xx, x, 1.0))
  {
    hide Center;
    var s := Ratio(inSize, outSize);
    var fs, center := FilterScale(s), Center(s, xx);
    assert Near(s, xx, b, 0.5) && Near(s, xx, c - 1, 0.5);
    a := Min(Max((center - fs - 0.5).Floor + 1, XMin(s, xx)), b);
    d := Max(Min((center + fs - 0.5).Floor + 1, XMax(inSize, s, xx)), c);
  }

  /** The sizes of the unnormalised weights, summed. */
  function RawSize(s: real, xx: nat, lo: int, hi: int): real
    decreases hi - lo
  {
    if lo >= hi then 0.0 else RawSize(s, xx, lo, hi - 1) + Abs(Raw(s, xx, hi - 1))
  }

  lemma {:induction false} RawSizeSplit(s: real, xx: nat, lo: int, mid: int, hi: int)
    requires lo <= mid <= hi
    ensures RawSize(s, xx, lo, hi) == RawSize(s, xx, lo, mid) + RawSize(s, xx, mid, hi)
    decreases hi - mid
  {
    if mid < hi {
      RawSizeSplit(s, xx, lo, mid, hi - 1);
    }
  }

  /** Weights of at least `-e` are at most `2·e` each larger in size than in sum. */
  lemma {:induction false} RawSizeAtMost(s: real, xx: nat, lo: int, hi: int, e: real)
    requires lo <= hi && e >= 0.0 && forall x :: lo <= x < hi ==> Raw(s, xx, x) >= -e
    ensures RawSize(s, xx, lo, hi) <= RawSum(s, xx, lo, hi) + 2.0 * e * ((hi - lo) as real)
    decreases hi - lo
  {
    hide Raw;
    if lo < hi {
      RawSizeAtMost(s, xx, lo, hi - 1, e);
      assert 2.0 * e * ((hi - lo) as real) == 2.0 * e * ((hi - 1 - lo) as real) + 2.0 * e;
    }
  }

  /** The weights of a window never cancel: for all sizes their total is positive, and they are not much larger in size
      than in total. */
  lemma TotalPositive(inSize: nat, outSize: nat, xx: nat)
    requires 0 < inSize && xx < outSize
    ensures var s := Ratio(inSize, outSize);
      && RawSum(s, xx, XMin(s, xx), XMax(inSize, s, xx)) > 0.0
      && RawSize(s, xx, XMin(s, xx), XMax(inSize, s, xx)) <= 3.7 * RawSum(s, xx, XMin(s, xx), XMax(inSize, s, xx))
  {
    hide Raw, Center, Near, XMin, XMax, FilterScale, RawSum, RawSize, Ratio;
    var s := Ratio(inSize, outSize);
    var b, c := CentreTaps(inSize, outSize, xx);
    var a, d := InnerTaps(inSize, outSize, xx, b, c);
    var lo, hi := XMin(s, xx) as int, XMax(inSize, s, xx);
    InnerSum(s, xx, a, b, c, d);
    LobeSum(s, xx, lo, a);
    LobeSum(s, xx, d, hi);
    RawSumSplit(s, xx, lo, a, hi);
    RawSumSplit(s, xx, a, d, hi);
    RawSizeSplit(s, xx, lo, a, hi);
    RawSizeSplit(s, xx, a, d, hi);
  }

  /** The taps within one filter width. */
  lemma InnerSum(s: real, xx: nat, a: int, b: int, c: int, d: int)
    requires a <= b <= c <= d
    requires forall x :: b <= x < c ==> Near(s, xx, x, 0.5)
    requires forall x :: a <= x < b || c <= x < d ==> Near(s, xx, x, 1.0)
    ensures RawSum(s, xx, a, d) >= 0.5625 * ((c - b) as real)
    ensures RawSize(s, xx, a, d) <= RawSum(s, xx, a, d)
  {
    hide Raw, Center, Near, RawSum, RawSize;
    forall x ensures (Near(s, xx, x, 1.0) ==> Raw(s, xx, x) >= 0.0)
      && (Near(s, xx, x, 0.5) ==> Raw(s, xx, x) >= 0.5625)
    {
      TapBounds(s, xx, x);
    }
    RawSumSplit(s, xx, a, b, d);
    RawSumSplit(s, xx, b, c, d);
    RawSumAtLeast(s, xx, a, b, 0.0);
    RawSumAtLeast(s, xx, b, c, 0.5625);
    RawSumAtLeast(s, xx, c, d, 0.0);
    RawSizeAtMost(s, xx, a, d, 0.0);
  }

  /** Any taps at all. */
  lemma LobeSum(s: real, xx: nat, lo: int, hi: int)
    requires lo <= hi
    ensures RawSum(s, xx, lo, hi) >= -0.08 * ((hi - lo) as real)
    ensures RawSize(s, xx, lo, hi) <= RawSum(s, xx, lo, hi) + 0.16 * ((hi - lo) as real)
  {
    hide Raw, RawSum, RawSize;
    forall x ensures Raw(s, xx, x) >= -0.08 {
      TapBounds(s, xx, x);
    }
    RawSumAtLeast(s, xx, lo, hi, -0.08);
    RawSizeAtMost(s, xx, lo, hi, 0.08);
  }

  /** A window holds at most four filter widths of taps, and one more. */
  lemma TapsBound(inSize: nat, outSize: nat, xx: nat)
    requires 0 < inSize && xx < outSize
    ensures var s := Ratio(inSize, outSize);
      (XMax(inSize, s, xx) - XMin(s, xx)) as real <= 4.0 * FilterScale(s) + 1.0
  {
    hide Center;
    WindowInRange(inSize, outSize, xx);
  }

  // ----- normalised weights -----

  function SumOf(w: seq<real>): real
  {
    if w == [] then 0.0 else SumOf(w[..|w| - 1]) + w[|w| - 1]
  }

  function RawWeights(s: real, xx: nat, lo: int, n: nat): (w: seq<real>)
    ensures |w| == n && forall k :: 0 <= k < n ==> w[k] == Raw(s, xx, lo + k)
  {
    seq(n, k requires 0 <= k < n => Raw(s, xx, lo + k))
  }

  function Scaled(w: seq<real>, total: real): (out: seq<real>)
    requires total != 0.0
    ensures |out| == |w| && forall k :: 0 <= k < |w| ==> out[k] == w[k] / total
  {
    seq(|w|, k requires 0 <= k < |w| => w[k] / total)
  }

  lemma {:induction false} SumOfRaw(s: real, xx: nat, lo: int, n: nat)
    ensures SumOf(RawWeights(s, xx, lo, n)) == RawSum(s, xx, lo, lo + n)
  {
    hide Raw;
    if n > 0 {
      assert RawWeights(s, xx, lo, n)[..n - 1] == RawWeights(s, xx, lo, n - 1);
      SumOfRaw(s, xx, lo, n - 1);
    }
  }

  lemma {:induction false} SumOfScaled(w: seq<real>, total: real)
    requires total != 0.0
    ensures SumOf(Scaled(w, total)) == SumOf(w) / total
  {
    if w != [] {
      var front := w[..|w| - 1];
      SumOfScaled(front, total);
      assert Scaled(w, total)[..|w| - 1] == Scaled(front, total);
      DivAdd(SumOf(front), w[|w| - 1], total);
    }
  }

  lemma DivAdd(a: real, b: real, c: real)
    requires c != 0.0
    ensures (a + b) / c == a / c + b / c
  {
  }

  /** The weights of output pixel `xx`. */
  function Weights(inSize: nat, outSize: nat, xx: nat): (w: seq<real>)
    requires 0 < inSize && xx < outSize
    ensures
      var s := Ratio(inSize, outSize);
      |w| == XMax(inSize, s, xx) - XMin(s, xx) > 0
  {
    var s := Ratio(inSize, outSize);
    var lo := XMin(s, xx);
    WindowInRange(inSize, outSize, xx);
    TotalPositive(inSize, outSize, xx);
    Scaled(RawWeights(s, xx, lo, XMax(inSize, s, xx) - lo), RawSum(s, xx, lo, XMax(inSize, s, xx)))
  }

  /** The weights of every output pixel sum to one, for all sizes. */
  lemma WeightsSumToOne(inSize: nat, outSize: nat, xx: nat)
    requires 0 < inSize && xx < outSize
    ensures SumOf(Weights(inSize, outSize, xx)) == 1.0
  {
    hide Raw, XMin, XMax;
    var s := Ratio(inSize, outSize);
    var lo, hi := XMin(s, xx), XMax(inSize, s, xx);
    WindowInRange(inSize, outSize, xx);
    TotalPositive(inSize, outSize, xx);
    SumOfRaw(s, xx, lo, hi - lo);
    SumOfScaled(RawWeights(s, xx, lo, hi - lo), RawSum(s, xx, lo, hi));
    Cancel(RawSum(s, xx, lo, hi));
  }

  /** The total size of the weights, negative lobes included. */
  function WeightSize(w: seq<real>): real
  {
    if w == [] then 0.0 else WeightSize(w[..|w| - 1]) + Abs(w[|w| - 1])
  }

  lemma {:induction false} SizeOfRaw(s: real, xx: nat, lo: int, n: nat)
    ensures WeightSize(RawWeights(s, xx, lo, n)) == RawSize(s, xx, lo, lo + n)
  {
    hide Raw;
    if n > 0 {
      assert RawWeights(s, xx, lo, n)[..n - 1] == RawWeights(s, xx, lo, n - 1);
      SizeOfRaw(s, xx, lo, n - 1);
    }
  }

  lemma {:induction false} SizeOfScaled(w: seq<real>, total: real)
    requires total > 0.0
    ensures WeightSize(Scaled(w, total)) == WeightSize(w) / total
  {
    if w != [] {
      var front, last := w[..|w| - 1], w[|w| - 1];
      SizeOfScaled(front, total);
      assert Scaled(w, total)[..|w| - 1] == Scaled(front, total);
      AbsDiv(last, total);
      DivAdd(WeightSize(front), Abs(last), total);
    }
  }

  /** The negative lobes are small: the sizes of the weights of every output pixel sum to at most 3.7, for all sizes. */
  lemma WeightsStaySmall(inSize: nat, outSize: nat, xx: nat)
    requires 0 < inSize && xx < outSize
    ensures WeightSize(Weights(inSize, outSize, xx)) <= 3.7
  {
    hide Raw, XMin, XMax;
    var s := Ratio(inSize, outSize);
    var lo, hi := XMin(s, xx), XMax(inSize, s, xx);
    WindowInRange(inSize, outSize, xx);
    TotalPositive(inSize, outSize, xx);
    SizeOfRaw(s, xx, lo, hi - lo);
    SizeOfScaled(RawWeights(s, xx, lo, hi - lo), RawSum(s, xx, lo, hi));
    RawSizePositive(s, xx, lo, hi);
    DivBelow(RawSize(s, xx, lo, hi), RawSum(s, xx, lo, hi), 3.7);
  }

  lemma {:induction false} RawSizePositive(s: real, xx: nat, lo: int, hi: int)
    ensures RawSize(s, xx, lo, hi) >= 0.0
    decreases hi - lo
  {
    hide Raw;
    if lo < hi {
      RawSizePositive(s, xx, lo, hi - 1);
    }
  }

  lemma Cancel(x: real)
    requires x != 0.0
    ensures x / x == 1.0
  {
  }

  // ----- what the weights are, without the kernel -----

  lemma Powers(t: real)
    ensures var u, t2, t3 := 1.0 - t, t * t, t * t * t;
      && u * u == 1.0 - 2.0 * t + t2 && u * u * u == 1.0 - 3.0 * t + 3.0 * t2 - t3
      && t * u * u == t - 2.0 * t2 + t3 && u * t * t == t2 - t3
  {
    var u := 1.0 - t;
    assert u * u == 1.0 - 2.0 * t + t * t;
    assert u * u * u == u * u - t * (u * u);
    assert t * (u * u) == t - 2.0 * (t * t) + t * t * t;
    assert u * t * t == t * t - t * t * t;
  }

  lemma NearPiece(t: real)
    requires 0.0 <= t <= 1.0
    ensures Cubic(t) == Cubic(-t) == 1.0 - 2.5 * (t * t) + 1.5 * (t * t * t)
  {
    assert (1.5 * t - 2.5) * t * t == 1.5 * (t * t * t) - 2.5 * (t * t);
  }

  lemma FarPiece(t: real)
    requires 0.0 <= t <= 1.0
    ensures Cubic(1.0 + t) == Cubic(-1.0 - t) == -0.5 * (t - 2.0 * (t * t) + t * t * t)
  {
    var x := 1.0 + t;
    assert x * x == 1.0 + 2.0 * t + t * t;
    assert x * x * x == 1.0 + 3.0 * t + 3.0 * (t * t) + t * t * t by {
      assert x * x * x == (x * x) + t * (x * x);
    }
    assert ((x - 5.0) * x + 8.0) * x - 4.0 == x * x * x - 5.0 * (x * x) + 8.0 * x - 4.0;
    assert t == 1.0 ==> t * t == 1.0 && t * t * t == 1.0;
  }

  /** At a fraction `t` between two source pixels the four weights reproduce constants, lines and parabolas. */
  lemma FourTaps(t: real)
    requires 0.0 <= t < 1.0
    ensures var a, b, c, d := Cubic(-1.0 - t), Cubic(-t), Cubic(1.0 - t), Cubic(2.0 - t);
      && a + b + c + d == 1.0
      && -a + c + 2.0 * d == t
      && a + c + 4.0 * d == t * t
  {
    hide Cubic;
    var u := 1.0 - t;
    NearPiece(t);
    FarPiece(t);
    NearPiece(u);
    FarPiece(u);
    assert 1.0 + u == 2.0 - t;
    Powers(t);
  }

  /** Four weights for the pixels from `lo` on reproduce constants, lines and parabolas at `p`. */
  predicate Reproduce(w: seq<real>, lo: real, p: real)
  {
    && |w| == 4 && w[0] + w[1] + w[2] + w[3] == 1.0
    && w[0] * lo + w[1] * (lo + 1.0) + w[2] * (lo + 2.0) + w[3] * (lo + 3.0) == p
    && w[0] * (lo * lo) + w[1] * ((lo + 1.0) * (lo + 1.0)) + w[2] * ((lo + 2.0) * (lo + 2.0))
       + w[3] * ((lo + 3.0) * (lo + 3.0)) == p * p
  }

  /** The source position output pixel `xx` stands for. */
  function Position(inSize: nat, outSize: nat, xx: nat): real
    requires inSize > 0 && outSize > 0
  {
    (xx as real + 0.5) * ((inSize as real) / (outSize as real)) - 0.5
  }

  lemma PositionIsCenter(inSize: nat, outSize: nat, xx: nat)
    requires inSize > 0 && outSize > 0
    ensures Position(inSize, outSize, xx) == Center(Ratio(inSize, outSize), xx) - 0.5
  {
  }

  /** Without shrinking and away from the borders, four weights around the exact source position reproduce constants,
      lines and parabolas exactly. */
  lemma KeepsParabolas(inSize: nat, outSize: nat, xx: nat)
    requires 0 < inSize <= outSize && xx < outSize
    requires var p := Position(inSize, outSize, xx); p >= 1.0 && p.Floor + 3 <= inSize
    ensures
      var p, lo := Position(inSize, outSize, xx), XMin(Ratio(inSize, outSize), xx);
      lo == p.Floor - 1 && Reproduce(Weights(inSize, outSize, xx), lo as real, p)
  {
    hide Position, Reproduce, Raw, Cubic, XMin, Weights, Ratio, Center;
    var p := Position(inSize, outSize, xx);
    PositionIsCenter(inSize, outSize, xx);
    FourWeights(inSize, outSize, xx);
    var t := p - p.Floor as real;
    FourTaps(t);
    Moments(Cubic(-1.0 - t), Cubic(-t), Cubic(1.0 - t), Cubic(2.0 - t), p.Floor as real, t);
  }

  lemma FourWeights(inSize: nat, outSize: nat, xx: nat)
    requires 0 < inSize <= outSize && xx < outSize
    requires var p := Center(Ratio(inSize, outSize), xx) - 0.5; p >= 1.0 && p.Floor + 3 <= inSize
    ensures
      var p := Center(Ratio(inSize, outSize), xx) - 0.5;
      var t := p - p.Floor as real;
      && XMin(Ratio(inSize, outSize), xx) == p.Floor - 1
      && Weights(inSize, outSize, xx) == [Cubic(-1.0 - t), Cubic(-t), Cubic(1.0 - t), Cubic(2.0 - t)]
  {
    hide Raw, Cubic, XMin, XMax, Ratio, Center, RawSum;
    var s := Ratio(inSize, outSize);
    var p := Center(s, xx) - 0.5;
    var t, lo := p - p.Floor as real, XMin(s, xx);
    UnclippedTaps(inSize, outSize, xx);
    FourTaps(t);
    FourSum(s, xx, lo);
    var w := RawWeights(s, xx, lo, 4);
    assert w == [Cubic(-1.0 - t), Cubic(-t), Cubic(1.0 - t), Cubic(2.0 - t)];
    ScaledByOne(w);
  }

  lemma ScaledByOne(w: seq<real>)
    ensures Scaled(w, 1.0) == w
  {
  }

  lemma UnclippedTaps(inSize: nat, outSize: nat, xx: nat)
    requires 0 < inSize <= outSize && xx < outSize
    requires var p := Center(Ratio(inSize, outSize), xx) - 0.5; p >= 1.0 && p.Floor + 3 <= inSize
    ensures
      var s := Ratio(inSize, outSize);
      var p := Center(s, xx) - 0.5;
      var t, lo := p - p.Floor as real, XMin(s, xx);
      && lo == p.Floor - 1 && XMax(inSize, s, xx) == lo + 4
      && Raw(s, xx, lo) == Cubic(-1.0 - t) && Raw(s, xx, lo + 1) == Cubic(-t)
      && Raw(s, xx, lo + 2) == Cubic(1.0 - t) && Raw(s, xx, lo + 3) == Cubic(2.0 - t)
  {
    hide Cubic;
    DivBelow(inSize as real, outSize as real, 1.0);
  }

  lemma FourSum(s: real, xx: nat, lo: int)
    ensures RawSum(s, xx, lo, lo + 4)
         == Raw(s, xx, lo) + Raw(s, xx, lo + 1) + Raw(s, xx, lo + 2) + Raw(s, xx, lo + 3)
  {
    hide Raw;
    assert RawSum(s, xx, lo, lo + 1) == Raw(s, xx, lo);
    assert RawSum(s, xx, lo, lo + 2) == RawSum(s, xx, lo, lo + 1) + Raw(s, xx, lo + 1);
    assert RawSum(s, xx, lo, lo + 3) == RawSum(s, xx, lo, lo + 2) + Raw(s, xx, lo + 2);
    assert RawSum(s, xx, lo, lo + 4) == RawSum(s, xx, lo, lo + 3) + Raw(s, xx, lo + 3);
  }

  lemma Moments(a: real, b: real, c: real, d: real, n: real, t: real)
    requires a + b + c + d == 1.0 && -a + c + 2.0 * d == t && a + c + 4.0 * d == t * t
    ensures Reproduce([a, b, c, d], n - 1.0, n + t)
  {
    var m, nn := n - 1.0, n * n;
    assert m + 1.0 == n && m + 2.0 == n + 1.0 && m + 3.0 == n + 2.0;
    assert (a + b + c + d) * n == a * n + b * n + c * n + d * n;
    assert (a + b + c + d) * nn == a * nn + b * nn + c * nn + d * nn;
    assert (-a + c + 2.0 * d) * n == -(a * n) + c * n + 2.0 * (d * n);
    Shifted(a, n, -1.0);
    Shifted(c, n, 1.0);
    Shifted(d, n, 2.0);
    assert (n + t) * (n + t) == nn + 2.0 * (t * n) + t * t;
  }

  lemma Shifted(a: real, n: real, k: real)
    ensures a * (n + k) == a * n + k * a
    ensures a * ((n + k) * (n + k)) == a * (n * n) + 2.0 * k * (a * n) + k * k * a
  {
    assert (n + k) * (n + k) == n * n + 2.0 * k * n + k * k;
  }

  lemma CubicEighths()
    ensures Cubic(-1.75) == Cubic(1.75) == -3.0 / 128.0 && Cubic(-1.25) == Cubic(1.25) == -9.0 / 128.0
    ensures Cubic(-0.75) == Cubic(0.75) == 29.0 / 128.0 && Cubic(-0.25) == Cubic(0.25) == 111.0 / 128.0
  {
  }

  lemma HalvedArgs(n: nat, xx: nat)
    requires n > 0
    ensures var s, lo := Ratio(2 * n, n), 2 * xx - 3;
      && Raw(s, xx, lo) == Cubic(-1.75) && Raw(s, xx, lo + 1) == Cubic(-1.25)
      && Raw(s, xx, lo + 2) == Cubic(-0.75) && Raw(s, xx, lo + 3) == Cubic(-0.25)
      && Raw(s, xx, lo + 4) == Cubic(0.25) && Raw(s, xx, lo + 5) == Cubic(0.75)
      && Raw(s, xx, lo + 6) == Cubic(1.25) && Raw(s, xx, lo + 7) == Cubic(1.75)
  {
    hide Cubic, Arg, Ratio;
    HalfRatio(n);
    HalvedArg(xx, 0);
    HalvedArg(xx, 1);
    HalvedArg(xx, 2);
    HalvedArg(xx, 3);
    HalvedArg(xx, 4);
    HalvedArg(xx, 5);
    HalvedArg(xx, 6);
    HalvedArg(xx, 7);
  }

  lemma HalfRatio(n: nat)
    requires n > 0
    ensures Ratio(2 * n, n) == 2.0
  {
    var r := n as real;
    assert ((2 * n) as real) == 2.0 * r;
    assert 2.0 * r / r == 2.0;
  }

  lemma HalvedArg(xx: nat, k: nat)
    ensures Arg(2.0, xx, 2 * xx - 3 + k) == 0.5 * (k as real) - 1.75
  {
  }

  /** Halving away from the borders: the eight weights, in 256ths. */
  lemma HalvingWeights(n: nat, xx: nat)
    requires 2 <= xx && xx + 2 < n
    ensures
      var w := Weights(2 * n, n, xx);
      && XMin(Ratio(2 * n, n), xx) == 2 * xx - 3 && |w| == 8
      && w[0] * 256.0 == -3.0 && w[1] * 256.0 == -9.0 && w[2] * 256.0 == 29.0 && w[3] * 256.0 == 111.0
      && w[4] * 256.0 == 111.0 && w[5] * 256.0 == 29.0 && w[6] * 256.0 == -9.0 && w[7] * 256.0 == -3.0
  {
    var s := Ratio(2 * n, n);
    HalfRatio(n);
    var lo := 2 * xx - 3;
    assert XMin(s, xx) == lo && XMax(2 * n, s, xx) == lo + 8;
    CubicEighths();
    HalvedArgs(n, xx);
    hide Cubic, Raw, RawSum, XMin, XMax, Ratio;
    FourSum(s, xx, lo);
    FourSum(s, xx, lo + 4);
    RawSumSplit(s, xx, lo, lo + 4, lo + 8);
  }

  // ----- a resize to the image's own shape -----

  /** At the source's own size every window has a single weight, on its own pixel. */
  lemma OwnSizeWeights(n: nat, xx: nat)
    requires xx < n
    ensures
      var w, lo := Weights(n, n, xx), XMin(Ratio(n, n), xx);
      && lo <= xx < lo + |w| && forall k :: 0 <= k < |w| ==> w[k] == if lo + k == xx then 1.0 else 0.0
  {
    var s := Ratio(n, n);
    assert s == 1.0;
    var lo, hi := XMin(s, xx), XMax(n, s, xx);
    assert lo == Max(xx - 1, 0) && hi == Min(xx + 3, n);
    forall x | lo <= x < hi ensures Raw(s, xx, x) == if x == xx then 1.0 else 0.0 {
      assert Arg(s, xx, x) == (x - xx) as real;
    }
    OneHotSum(s, xx, lo, hi);
  }

  lemma {:induction false} OneHotSum(s: real, xx: nat, lo: int, hi: int)
    requires lo <= hi && forall x :: lo <= x < hi ==> Raw(s, xx, x) == if x == xx then 1.0 else 0.0
    ensures RawSum(s, xx, lo, hi) == if lo <= xx < hi then 1.0 else 0.0
    decreases hi - lo
  {
    hide Raw;
    if lo < hi {
      OneHotSum(s, xx, lo, hi - 1);
    }
  }

  method PrecomputeCoeffs(inSize: nat, outSize: nat) returns (out: seq<(nat, seq<real>)>)
    requires 0 < inSize && 0 < outSize
    ensures |out| == outSize
    ensures forall xx :: 0 <= xx < outSize ==>
      out[xx] == (XMin(Ratio(inSize, outSize), xx), Weights(inSize, outSize, xx))
  {
    hide Raw, Ratio, FilterScale, Center;
    var scale := Ratio(inSize, outSize);
    out := [];
    for xx := 0 to outSize
      invariant |out| == xx
      invariant forall k :: 0 <= k < xx ==> out[k] == (XMin(scale, k), Weights(inSize, outSize, k))
    {
      var xmin := XMin(scale, xx);
      var xmax := XMax(inSize, scale, xx);
      WindowInRange(inSize, outSize, xx);
      var weights: seq<real> := [];
      var total := 0.0;
      for x := xmin to xmax
        invariant weights == RawWeights(scale, xx, xmin, x - xmin)
        invariant total == RawSum(scale, xx, xmin, x)
      {
        var w := Raw(scale, xx, x);
        weights := weights + [w];
        total := total + w;
      }
      TotalPositive(inSize, outSize, xx);
      if total != 0.0 {
        weights := Scaled(weights, total);
      }
      out := out + [(xmin, weights)];
    }
  }

  // ----- fixed point -----

  /** Round half away from zero at `SCALE`: truncation after adding or subtracting a half. */
  function Quantize(c: real): int
  {
    if c < 0.0 then -((-(c * (SCALE as real) - 0.5)).Floor) else (c * (SCALE as real) + 0.5).Floor
  }

  lemma QuantizeError(c: real)
    ensures Abs(Quantize(c) as real - c * 4194304.0) <= 0.5
  {
  }

  function QuantizeAll(w: seq<real>): (q: seq<int>)
    ensures |q| == |w| && forall k :: 0 <= k < |w| ==> q[k] == Quantize(w[k])
  {
    seq(|w|, k requires 0 <= k < |w| => Quantize(w[k]))
  }

  /** Shift down and clamp to a byte. The shift of a positive accumulator is division rounding down. */
  function Clip8(acc: int): (v: int)
    ensures 0 <= v <= 255
  {
    if acc <= 0 then 0 else if acc / SCALE >= 255 then 255 else acc / SCALE
  }

  function Clamp(x: real): real { if x < 0.0 then 0.0 else if x > 255.0 then 255.0 else x }

  function IntTerm(v: int, q: int): int { v * q }

  function RealTerm(v: int, w: real): real { (v as real) * w }

  function IntDot(vals: seq<int>, q: seq<int>): int
    requires |vals| == |q|
  {
    if q == [] then 0 else IntDot(vals[..|q| - 1], q[..|q| - 1]) + IntTerm(vals[|q| - 1], q[|q| - 1])
  }

  /** The exact weighted sum the fixed-point pass stands for. */
  function RealDot(vals: seq<int>, w: seq<real>): real
    requires |vals| == |w|
  {
    if w == [] then 0.0 else RealDot(vals[..|w| - 1], w[..|w| - 1]) + RealTerm(vals[|w| - 1], w[|w| - 1])
  }

  predicate IsBytes(vals: seq<int>) { forall k :: 0 <= k < |vals| ==> 0 <= vals[k] <= 255 }

  lemma {:induction false} DotError(vals: seq<int>, w: seq<real>)
    requires |vals| == |w| && IsBytes(vals)
    ensures Abs(IntDot(vals, QuantizeAll(w)) as real - RealDot(vals, w) * 4194304.0) <= 127.5 * (|w| as real)
  {
    hide Quantize, IntTerm, RealTerm;
    if w != [] {
      var n := |w| - 1;
      DotError(vals[..n], w[..n]);
      assert QuantizeAll(w)[..n] == QuantizeAll(w[..n]);
      QuantizeError(w[n]);
      TermError(vals[n], Quantize(w[n]), w[n]);
      SumError(IntDot(vals[..n], QuantizeAll(w[..n])), IntTerm(vals[n], Quantize(w[n])), RealDot(vals[..n], w[..n]),
               RealTerm(vals[n], w[n]), n);
    }
  }

  lemma SumError(a: int, b: int, x: real, y: real, n: nat)
    requires Abs(a as real - x * 4194304.0) <= 127.5 * (n as real) && Abs(b as real - y * 4194304.0) <= 127.5
    ensures Abs((a + b) as real - (x + y) * 4194304.0) <= 127.5 * ((n + 1) as real)
  {
  }

  lemma TermError(v: int, q: int, w: real)
    requires 0 <= v <= 255 && Abs(q as real - w * 4194304.0) <= 0.5
    ensures Abs(IntTerm(v, q) as real - RealTerm(v, w) * 4194304.0) <= 127.5
  {
    var vr := v as real;
    var e, x := q as real - w * 4194304.0, vr * w;
    assert IntTerm(v, q) as real == vr * (q as real);
    Distribute(vr, w * 4194304.0, e);
    assert vr * (w * 4194304.0) == x * 4194304.0;
    assert IntTerm(v, q) as real - x * 4194304.0 == vr * e;
    HalfOf(vr, e);
    assert RealTerm(v, w) == x;
  }

  lemma HalfOf(vr: real, e: real)
    requires 0.0 <= vr <= 255.0 && -0.5 <= e <= 0.5
    ensures -127.5 <= vr * e <= 127.5
  {
    if e >= 0.0 {
      ProductBelow(vr, e, 255.0, 0.5);
    } else {
      ProductBelow(vr, -e, 255.0, 0.5);
      assert vr * (-e) == -(vr * e);
    }
  }

  lemma Distribute(a: real, b: real, c: real)
    ensures a * (b + c) == a * b + a * c && c * a == a * c
  {
  }

  /** One output value of a pass: bias, accumulate, clip. */
  function Resample(vals: seq<int>, q: seq<int>): (v: int)
    requires |vals| == |q|
    ensures 0 <= v <= 255
  {
    Clip8(BIAS + IntDot(vals, q))
  }

  lemma ClipError(acc: int, r: real, e: real)
    requires (acc - BIAS) as real == r * 4194304.0 + e && Abs(e) < 2097152.0
    ensures Abs(Clip8(acc) as real - Clamp(r)) < 1.0
  {
    var f := acc / SCALE;
    assert f * SCALE <= acc < f * SCALE + SCALE;
    assert (f * SCALE) as real == f as real * 4194304.0;
    assert -1.0 < f as real - r < 1.0;
  }

  /** Error bound: with fewer than 2^22 / 255 taps, every byte a pass produces is less than one away from the exact
      weighted sum clamped to a byte. */
  lemma PassError(vals: seq<int>, w: seq<real>)
    requires |vals| == |w| && IsBytes(vals) && 255 * |w| < SCALE
    ensures Abs(Resample(vals, QuantizeAll(w)) as real - Clamp(RealDot(vals, w))) < 1.0
  {
    hide IntDot, RealDot, QuantizeAll, Clip8, Clamp;
    DotError(vals, w);
    var dot := IntDot(vals, QuantizeAll(w));
    ClipError(BIAS + dot, RealDot(vals, w), dot as real - RealDot(vals, w) * 4194304.0);
  }

  lemma {:induction false} SolidDot(vals: seq<int>, w: seq<real>, v: int)
    requires |vals| == |w| && forall k :: 0 <= k < |vals| ==> vals[k] == v
    ensures RealDot(vals, w) == (v as real) * SumOf(w)
  {
    if w != [] {
      var n := |w| - 1;
      SolidDot(vals[..n], w[..n], v);
      assert (v as real) * (SumOf(w[..n]) + w[n]) == (v as real) * SumOf(w[..n]) + (v as real) * w[n];
    }
  }

  /** A constant line stays exactly constant. */
  lemma SolidExact(vals: seq<int>, inSize: nat, outSize: nat, xx: nat, v: int)
    requires 0 < inSize && xx < outSize && 0 <= v <= 255
    requires var w := Weights(inSize, outSize, xx);
      |vals| == |w| && 255 * |w| < SCALE && forall k :: 0 <= k < |vals| ==> vals[k] == v
    ensures Resample(vals, QuantizeAll(Weights(inSize, outSize, xx))) == v
  {
    hide Weights, Resample;
    var w := Weights(inSize, outSize, xx);
    WeightsSumToOne(inSize, outSize, xx);
    SolidDot(vals, w, v);
    PassError(vals, w);
  }

  /** Few enough taps whenever an axis shrinks by at most 4096. */
  lemma FewTaps(inSize: nat, outSize: nat, xx: nat)
    requires 0 < inSize <= 4096 * outSize && xx < outSize
    ensures 255 * |Weights(inSize, outSize, xx)| < SCALE
  {
    hide Weights, XMin, XMax;
    TapsBound(inSize, outSize, xx);
    RatioBelow(inSize, outSize, 4096);
  }

  lemma RatioBelow(inSize: nat, outSize: nat, b: nat)
    requires 0 < inSize <= b * outSize && 0 < outSize
    ensures Ratio(inSize, outSize) <= b as real
  {
    assert (inSize as real) <= (b as real) * (outSize as real);
    DivBelow(inSize as real, outSize as real, b as real);
  }

  // ----- the two passes -----

  predicate Readable(buf: seq<int>, width: nat, y: nat, x: nat, ch: nat)
  {
    Join(Join(y, width, x), 3, ch) < |buf|
  }

  /** Source byte of row `y`, column `x`, channel `ch` in a `width`-wide interleaved RGB buffer. */
  function Pixel(buf: seq<int>, width: nat, y: nat, x: nat, ch: nat): (v: int)
    requires Readable(buf, width, y, x, ch)
    ensures v in buf
  {
    buf[Join(Join(y, width, x), 3, ch)]
  }

  /** Every index a horizontal window touches is a source byte. */
  lemma RowWindowInRange(inH: nat, inW: nat, outW: nat, y: nat, xx: nat, ch: nat, k: nat)
    requires y < inH && 0 < inW && xx < outW && ch < 3 && k < |Weights(inW, outW, xx)|
    ensures XMin(Ratio(inW, outW), xx) + k < inW
    ensures Join(Join(y, inW, XMin(Ratio(inW, outW), xx) + k), 3, ch) < Times(Times(inH, inW), 3)
  {
    hide Weights, XMin, XMax, Join, Times;
    WindowInRange(inW, outW, xx);
    JoinSplit(y, XMin(Ratio(inW, outW), xx) + k, inH, inW);
    JoinSplit(Join(y, inW, XMin(Ratio(inW, outW), xx) + k), ch, Times(inH, inW), 3);
  }

  /** Every index a vertical window touches is an entry of the first pass. */
  lemma ColumnWindowInRange(inH: nat, outH: nat, outW: nat, yy: nat, x: nat, ch: nat, k: nat)
    requires 0 < inH && yy < outH && x < outW && ch < 3 && k < |Weights(inH, outH, yy)|
    ensures Join(Join(XMin(Ratio(inH, outH), yy) + k, outW, x), 3, ch) < Times(Times(inH, outW), 3)
  {
    hide Weights, XMin, XMax, Join, Times;
    WindowInRange(inH, outH, yy);
    JoinSplit(XMin(Ratio(inH, outH), yy) + k, x, inH, outW);
    JoinSplit(Join(XMin(Ratio(inH, outH), yy) + k, outW, x), ch, Times(inH, outW), 3);
  }

  /** `n` pixels of row `y` from column `lo` on lie in the buffer. */
  predicate RowReadable(buf: seq<int>, width: nat, y: nat, ch: nat, lo: nat, n: nat)
  {
    forall x: nat :: lo <= x < lo + n ==> Readable(buf, width, y, x, ch)
  }

  /** `n` pixels of column `x` from row `lo` on lie in the buffer. */
  predicate ColumnReadable(buf: seq<int>, width: nat, x: nat, ch: nat, lo: nat, n: nat)
  {
    forall y: nat :: lo <= y < lo + n ==> Readable(buf, width, y, x, ch)
  }

  lemma RowIsReadable(src: seq<int>, inH: nat, inW: nat, outW: nat, y: nat, xx: nat, ch: nat)
    requires y < inH && 0 < inW && xx < outW && ch < 3 && |src| >= Times(Times(inH, inW), 3)
    ensures RowReadable(src, inW, y, ch, XMin(Ratio(inW, outW), xx), |Weights(inW, outW, xx)|)
  {
    hide Weights, XMin, Join, Times;
    var lo := XMin(Ratio(inW, outW), xx);
    forall x: nat | lo <= x < lo + |Weights(inW, outW, xx)| ensures Readable(src, inW, y, x, ch) {
      RowWindowInRange(inH, inW, outW, y, xx, ch, x - lo);
    }
  }

  lemma ColumnIsReadable(horiz: seq<int>, inH: nat, outH: nat, outW: nat, yy: nat, x: nat, ch: nat)
    requires 0 < inH && yy < outH && x < outW && ch < 3 && |horiz| >= Times(Times(inH, outW), 3)
    ensures ColumnReadable(horiz, outW, x, ch, XMin(Ratio(inH, outH), yy), |Weights(inH, outH, yy)|)
  {
    hide Weights, XMin, Join, Times;
    var lo := XMin(Ratio(inH, outH), yy);
    forall y: nat | lo <= y < lo + |Weights(inH, outH, yy)| ensures Readable(horiz, outW, y, x, ch) {
      ColumnWindowInRange(inH, outH, outW, yy, x, ch, y - lo);
    }
  }

  /** The bytes a horizontal window covers. */
  function RowWindow(buf: seq<int>, width: nat, y: nat, ch: nat, lo: nat, n: nat): (vals: seq<int>)
    requires RowReadable(buf, width, y, ch, lo, n)
    ensures |vals| == n && forall k :: 0 <= k < n ==> vals[k] == Pixel(buf, width, y, lo + k, ch)
  {
    seq(n, k requires 0 <= k < n => Pixel(buf, width, y, lo + k, ch))
  }

  /** The bytes a vertical window covers. */
  function ColumnWindow(buf: seq<int>, width: nat, x: nat, ch: nat, lo: nat, n: nat): (vals: seq<int>)
    requires ColumnReadable(buf, width, x, ch, lo, n)
    ensures |vals| == n && forall k :: 0 <= k < n ==> vals[k] == Pixel(buf, width, lo + k, x, ch)
  {
    seq(n, k requires 0 <= k < n => Pixel(buf, width, lo + k, x, ch))
  }

  /** Entry of row `y`, output column `xx`, channel `ch` of the horizontally resampled buffer. */
  function HorizVal(src: seq<int>, inH: nat, inW: nat, outW: nat, y: nat, xx: nat, ch: nat): (v: int)
    requires y < inH && 0 < inW && xx < outW && ch < 3 && |src| >= Times(Times(inH, inW), 3)
    ensures 0 <= v <= 255
  {
    RowIsReadable(src, inH, inW, outW, y, xx, ch);
    var w := Weights(inW, outW, xx);
    Resample(RowWindow(src, inW, y, ch, XMin(Ratio(inW, outW), xx), |w|), QuantizeAll(w))
  }

  /** Entry of output row `yy`, column `x`, channel `ch` of the final buffer. */
  function VertVal(horiz: seq<int>, inH: nat, outH: nat, outW: nat, yy: nat, x: nat, ch: nat): (v: int)
    requires 0 < inH && yy < outH && x < outW && ch < 3 && |horiz| >= Times(Times(inH, outW), 3)
    ensures 0 <= v <= 255
  {
    ColumnIsReadable(horiz, inH, outH, outW, yy, x, ch);
    var w := Weights(inH, outH, yy);
    Resample(ColumnWindow(horiz, outW, x, ch, XMin(Ratio(inH, outH), yy), |w|), QuantizeAll(w))
  }

  /** Row, column and channel of the `i`-th entry of a buffer of `h` rows of `w` pixels. */
  lemma EntrySplits(h: nat, w: nat, i: nat)
    requires i < Times(Times(h, w), 3)
    ensures w > 0 && Quot(Quot(i, 3), w) < h && Rem(Quot(i, 3), w) < w && Rem(i, 3) < 3
    ensures Join(Join(Quot(Quot(i, 3), w), w, Rem(Quot(i, 3), w)), 3, Rem(i, 3)) == i
  {
    SplitJoin(i, Times(h, w), 3);
    SplitJoin(Quot(i, 3), h, w);
  }

  lemma EntryJoins(h: nat, w: nat, y: nat, x: nat, ch: nat)
    requires y < h && x < w && ch < 3
    ensures
      var i := Join(Join(y, w, x), 3, ch);
      i < Times(Times(h, w), 3) && Quot(Quot(i, 3), w) == y && Rem(Quot(i, 3), w) == x && Rem(i, 3) == ch
  {
    JoinSplit(y, x, h, w);
    JoinSplit(Join(y, w, x), ch, Times(h, w), 3);
  }

  /** Entry `i` of the horizontally resampled buffer. */
  function HorizAt(src: seq<int>, inH: nat, inW: nat, outW: nat, i: nat): (v: int)
    requires 0 < inW && |src| >= Times(Times(inH, inW), 3) && i < Times(Times(inH, outW), 3)
    ensures 0 <= v <= 255
  {
    EntrySplits(inH, outW, i);
    HorizVal(src, inH, inW, outW, Quot(Quot(i, 3), outW), Rem(Quot(i, 3), outW), Rem(i, 3))
  }

  /** Entry `i` of the final buffer. */
  function VertAt(horiz: seq<int>, inH: nat, outH: nat, outW: nat, i: nat): (v: int)
    requires 0 < inH && |horiz| >= Times(Times(inH, outW), 3) && i < Times(Times(outH, outW), 3)
    ensures 0 <= v <= 255
  {
    EntrySplits(outH, outW, i);
    VertVal(horiz, inH, outH, outW, Quot(Quot(i, 3), outW), Rem(Quot(i, 3), outW), Rem(i, 3))
  }

  /** The horizontally resampled buffer. */
  function Horizontal(src: seq<int>, inH: nat, inW: nat, outW: nat): (out: seq<int>)
    requires 0 < inW && |src| >= Times(Times(inH, inW), 3)
    ensures |out| == Times(Times(inH, outW), 3)
    ensures forall i :: 0 <= i < |out| ==> out[i] == HorizAt(src, inH, inW, outW, i)
  {
    seq(Times(Times(inH, outW), 3), i requires 0 <= i < Times(Times(inH, outW), 3) => HorizAt(src, inH, inW, outW, i))
  }

  /** The whole resized buffer. */
  function Resized(src: seq<int>, inH: nat, inW: nat, outH: nat, outW: nat): (out: seq<int>)
    requires 0 < inH && 0 < inW && |src| >= Times(Times(inH, inW), 3)
    ensures |out| == Times(Times(outH, outW), 3) && IsBytes(out)
    ensures forall i :: 0 <= i < |out| ==> out[i] == VertAt(Horizontal(src, inH, inW, outW), inH, outH, outW, i)
  {
    var horiz := Horizontal(src, inH, inW, outW);
    seq(Times(Times(outH, outW), 3), i requires 0 <= i < Times(Times(outH, outW), 3) =>
      VertAt(horiz, inH, outH, outW, i))
  }

  /** The accumulate-and-clip loop of one output value. */
  method Accumulate(vals: seq<int>, q: seq<int>) returns (v: int)
    requires |vals| == |q|
    ensures v == Resample(vals, q)
  {
    var acc := BIAS;
    for k := 0 to |q|
      invariant acc == BIAS + IntDot(vals[..k], q[..k])
    {
      assert vals[..k + 1][..k] == vals[..k] && q[..k + 1][..k] == q[..k];
      acc := acc + IntTerm(vals[k], q[k]);
    }
    assert vals[..|q|] == vals && q[..|q|] == q;
    v := Clip8(acc);
  }

  method HorizontalPass(src: seq<int>, inH: nat, inW: nat, outW: nat) returns (horiz: seq<int>)
    requires 0 < inW && 0 < outW && |src| >= Times(Times(inH, inW), 3)
    ensures |horiz| == Times(Times(inH, outW), 3)
    ensures forall i :: 0 <= i < |horiz| ==> horiz[i] == HorizAt(src, inH, inW, outW, i)
  {
    hide Weights, XMin, XMax, Join, Times, Quot, Rem, Resample, Ratio, Pixel, RowReadable;
    var coeffs := PrecomputeCoeffs(inW, outW);
    horiz := [];
    TimesSnoc(0, outW);
    TimesSnoc(0, 3);
    for y := 0 to inH
      invariant |horiz| == Times(Times(y, outW), 3) <= Times(Times(inH, outW), 3)
      invariant forall i :: 0 <= i < |horiz| ==> horiz[i] == HorizAt(src, inH, inW, outW, i)
    {
      TimesSnoc(y, outW);
      for xx := 0 to outW
        invariant |horiz| == Times(Join(y, outW, xx), 3) <= Times(Times(inH, outW), 3)
        invariant forall i :: 0 <= i < |horiz| ==> horiz[i] == HorizAt(src, inH, inW, outW, i)
      {
        JoinSplit(y, xx, inH, outW);
        var p := Join(y, outW, xx);
        JoinStep(y, outW, xx);
        TimesSnoc(p, 3);
        TimesBelow(p + 1, Times(inH, outW), 3);
        var (xmin, w) := coeffs[xx];
        for ch := 0 to 3
          invariant |horiz| == Join(p, 3, ch) <= Times(Times(inH, outW), 3)
          invariant forall i :: 0 <= i < |horiz| ==> horiz[i] == HorizAt(src, inH, inW, outW, i)
        {
          EntryJoins(inH, outW, y, xx, ch);
          JoinStep(p, 3, ch);
          RowIsReadable(src, inH, inW, outW, y, xx, ch);
          var v := Accumulate(RowWindow(src, inW, y, ch, xmin, |w|), QuantizeAll(w));
          horiz := horiz + [v];
        }
      }
    }
  }

  method VerticalPass(horiz: seq<int>, inH: nat, outH: nat, outW: nat) returns (out: seq<int>)
    requires 0 < inH && 0 < outH && 0 < outW && |horiz| == Times(Times(inH, outW), 3)
    ensures |out| == Times(Times(outH, outW), 3)
    ensures forall i :: 0 <= i < |out| ==> out[i] == VertAt(horiz, inH, outH, outW, i)
  {
    hide Weights, XMin, XMax, Join, Times, Quot, Rem, Resample, Ratio, Pixel, ColumnReadable;
    var coeffs := PrecomputeCoeffs(inH, outH);
    out := [];
    TimesSnoc(0, outW);
    TimesSnoc(0, 3);
    for yy := 0 to outH
      invariant |out| == Times(Times(yy, outW), 3) <= Times(Times(outH, outW), 3)
      invariant forall i :: 0 <= i < |out| ==> out[i] == VertAt(horiz, inH, outH, outW, i)
    {
      var (ymin, w) := coeffs[yy];
      TimesSnoc(yy, outW);
      for x := 0 to outW
        invariant |out| == Times(Join(yy, outW, x), 3) <= Times(Times(outH, outW), 3)
        invariant forall i :: 0 <= i < |out| ==> out[i] == VertAt(horiz, inH, outH, outW, i)
      {
        JoinSplit(yy, x, outH, outW);
        var p := Join(yy, outW, x);
        JoinStep(yy, outW, x);
        TimesSnoc(p, 3);
        TimesBelow(p + 1, Times(outH, outW), 3);
        for ch := 0 to 3
          invariant |out| == Join(p, 3, ch) <= Times(Times(outH, outW), 3)
          invariant forall i :: 0 <= i < |out| ==> out[i] == VertAt(horiz, inH, outH, outW, i)
        {
          EntryJoins(outH, outW, yy, x, ch);
          JoinStep(p, 3, ch);
          ColumnIsReadable(horiz, inH, outH, outW, yy, x, ch);
          var v := Accumulate(ColumnWindow(horiz, outW, x, ch, ymin, |w|), QuantizeAll(w));
          out := out + [v];
        }
      }
    }
  }

  lemma JoinStep(q: nat, d: nat, r: nat)
    ensures Join(q, d, r + 1) == Join(q, d, r) + 1
  {
  }

  /** The resize: refused exactly for a zero dimension or a short buffer, otherwise one byte per channel and output
      pixel. A solid colour survives both passes whenever no axis shrinks by more than 4096, and a resize to the own
      shape changes nothing. */
  method ResizeBicubicU8(src: seq<int>, inH: nat, inW: nat, outH: nat, outW: nat) returns (r: Result<seq<int>, Error>)
    requires IsBytes(src)
    ensures r.Err? <==> inH == 0 || inW == 0 || outH == 0 || outW == 0 || |src| < Times(Times(inH, inW), 3)
    ensures r.Ok? ==> r.value == Resized(src, inH, inW, outH, outW)
    ensures r.Ok? && inW <= 4096 * outW && inH <= 4096 * outH ==>
      forall i :: 0 <= i < |r.value| && SolidChannel(src, Times(inH, inW), Rem(i, 3)) ==> r.value[i] == src[Rem(i, 3)]
    ensures r.Ok? && outH == inH && outW == inW ==> r.value == src[..Times(Times(inH, inW), 3)]
  {
    hide Weights, Times, Rem, Quot, Join, Resample;
    if inH == 0 || inW == 0 || outH == 0 || outW == 0 {
      return Err(Msg("resize: zero dimension"));
    }
    if |src| < Times(Times(inH, inW), 3) {
      return Err(Msg("resize: pixel buffer too small"));
    }
    var horiz := HorizontalPass(src, inH, inW, outW);
    var out := VerticalPass(horiz, inH, outH, outW);
    assert horiz == Horizontal(src, inH, inW, outW);
    assert out == Resized(src, inH, inW, outH, outW);
    r := Ok(out);
    if outH == inH && outW == inW {
      OwnShape(src, inH, inW);
    }
    if inW <= 4096 * outW && inH <= 4096 * outH {
      forall i | 0 <= i < |out| && SolidChannel(src, Times(inH, inW), Rem(i, 3)) ensures out[i] == src[Rem(i, 3)] {
        SolidThroughBoth(src, horiz, inH, inW, outH, outW, i);
      }
    }
  }

  /** A weight of one on one value, and zero elsewhere, reproduces that byte exactly. */
  lemma {:induction false} OneHotDot(vals: seq<int>, w: seq<real>, j: nat)
    requires |vals| == |w| && forall k :: 0 <= k < |w| ==> w[k] == if k == j then 1.0 else 0.0
    ensures IntDot(vals, QuantizeAll(w)) == if j < |w| then vals[j] * SCALE else 0
  {
    if w != [] {
      var n := |w| - 1;
      assert QuantizeAll(w)[..n] == QuantizeAll(w[..n]);
      OneHotDot(vals[..n], w[..n], j);
      assert Quantize(w[n]) == if n == j then SCALE else 0;
    }
  }

  lemma OneHotByte(vals: seq<int>, w: seq<real>, j: nat)
    requires |vals| == |w| && j < |w| && 0 <= vals[j] <= 255
    requires forall k :: 0 <= k < |w| ==> w[k] == if k == j then 1.0 else 0.0
    ensures Resample(vals, QuantizeAll(w)) == vals[j]
  {
    OneHotDot(vals, w, j);
    hide IntDot, QuantizeAll;
    DivUnique(BIAS + vals[j] * SCALE, vals[j], BIAS, SCALE);
  }

  /** At its own width a row stays as it is. */
  lemma OwnWidth(src: seq<int>, inH: nat, inW: nat, y: nat, xx: nat, ch: nat)
    requires IsBytes(src) && y < inH && xx < inW && ch < 3 && |src| >= Times(Times(inH, inW), 3)
    ensures Readable(src, inW, y, xx, ch) && HorizVal(src, inH, inW, inW, y, xx, ch) == Pixel(src, inW, y, xx, ch)
  {
    hide Weights, Times, Join, Resample, XMin, XMax, QuantizeAll, RowReadable;
    EntryJoins(inH, inW, y, xx, ch);
    RowIsReadable(src, inH, inW, inW, y, xx, ch);
    OwnSizeWeights(inW, xx);
    var w, lo := Weights(inW, inW, xx), XMin(Ratio(inW, inW), xx);
    OneHotByte(RowWindow(src, inW, y, ch, lo, |w|), w, xx - lo);
  }

  /** At its own height a column stays as it is. */
  lemma OwnHeight(horiz: seq<int>, inH: nat, outW: nat, yy: nat, x: nat, ch: nat)
    requires IsBytes(horiz) && yy < inH && x < outW && ch < 3 && |horiz| >= Times(Times(inH, outW), 3)
    ensures Readable(horiz, outW, yy, x, ch)
    ensures VertVal(horiz, inH, inH, outW, yy, x, ch) == Pixel(horiz, outW, yy, x, ch)
  {
    hide Weights, Times, Join, Resample, XMin, XMax, QuantizeAll, ColumnReadable;
    EntryJoins(inH, outW, yy, x, ch);
    ColumnIsReadable(horiz, inH, inH, outW, yy, x, ch);
    OwnSizeWeights(inH, yy);
    var w, lo := Weights(inH, inH, yy), XMin(Ratio(inH, inH), yy);
    OneHotByte(ColumnWindow(horiz, outW, x, ch, lo, |w|), w, yy - lo);
  }

  /** A resize to the image's own shape changes no byte. */
  lemma OwnShape(src: seq<int>, inH: nat, inW: nat)
    requires IsBytes(src) && 0 < inH && 0 < inW && |src| >= Times(Times(inH, inW), 3)
    ensures Resized(src, inH, inW, inH, inW) == src[..Times(Times(inH, inW), 3)]
  {
    hide Times, Quot, Rem, Join, HorizVal, VertVal;
    var n := Times(Times(inH, inW), 3);
    var horiz, out := Horizontal(src, inH, inW, inW), Resized(src, inH, inW, inH, inW);
    forall i | 0 <= i < n ensures horiz[i] == src[i] {
      EntrySplits(inH, inW, i);
      OwnWidth(src, inH, inW, Quot(Quot(i, 3), inW), Rem(Quot(i, 3), inW), Rem(i, 3));
    }
    forall i | 0 <= i < n ensures out[i] == src[i] {
      EntrySplits(inH, inW, i);
      OwnHeight(horiz, inH, inW, Quot(Quot(i, 3), inW), Rem(Quot(i, 3), inW), Rem(i, 3));
    }
  }

  /** Channel `ch` has one value over the first `pixels` pixels. */
  predicate SolidChannel(src: seq<int>, pixels: nat, ch: nat)
  {
    ch < |src| && forall p: nat :: p < pixels ==> Join(p, 3, ch) < |src| && src[Join(p, 3, ch)] == src[ch]
  }

  lemma SolidHoriz(src: seq<int>, inH: nat, inW: nat, outW: nat, y: nat, xx: nat, ch: nat)
    requires IsBytes(src) && y < inH && 0 < inW <= 4096 * outW && xx < outW && ch < 3
    requires |src| >= Times(Times(inH, inW), 3) && SolidChannel(src, Times(inH, inW), ch)
    ensures HorizVal(src, inH, inW, outW, y, xx, ch) == src[ch]
  {
    hide Weights, Times, Join, Resample, XMin, XMax, QuantizeAll, RowReadable;
    RowIsReadable(src, inH, inW, outW, y, xx, ch);
    var w := Weights(inW, outW, xx);
    var lo := XMin(Ratio(inW, outW), xx);
    var vals := RowWindow(src, inW, y, ch, lo, |w|);
    forall k: nat | k < |w| ensures vals[k] == src[ch] {
      WindowInRange(inW, outW, xx);
      JoinSplit(y, lo + k, inH, inW);
    }
    FewTaps(inW, outW, xx);
    SolidExact(vals, inW, outW, xx, src[ch]);
  }

  lemma SolidThroughBoth(src: seq<int>, horiz: seq<int>, inH: nat, inW: nat, outH: nat, outW: nat, i: nat)
    requires IsBytes(src) && 0 < inW <= 4096 * outW && 0 < inH <= 4096 * outH && |src| >= Times(Times(inH, inW), 3)
    requires i < Times(Times(outH, outW), 3) && SolidChannel(src, Times(inH, inW), Rem(i, 3))
    requires |horiz| == Times(Times(inH, outW), 3)
    requires forall j :: 0 <= j < |horiz| ==> horiz[j] == HorizAt(src, inH, inW, outW, j)
    ensures VertAt(horiz, inH, outH, outW, i) == src[Rem(i, 3)]
  {
    hide Weights, Times, Rem, Quot, Join, Resample, XMin, XMax, QuantizeAll, ColumnReadable, HorizVal;
    EntrySplits(outH, outW, i);
    var yy, x, ch := Quot(Quot(i, 3), outW), Rem(Quot(i, 3), outW), Rem(i, 3);
    ColumnIsReadable(horiz, inH, outH, outW, yy, x, ch);
    var w := Weights(inH, outH, yy);
    var lo := XMin(Ratio(inH, outH), yy);
    var vals := ColumnWindow(horiz, outW, x, ch, lo, |w|);
    forall k: nat | k < |w| ensures vals[k] == src[ch] {
      WindowInRange(inH, outH, yy);
      EntryJoins(inH, outW, lo + k, x, ch);
      SolidHoriz(src, inH, inW, outW, lo + k, x, ch);
    }
    FewTaps(inH, outH, yy);
    SolidExact(vals, inH, outH, yy, src[ch]);
  }

  // ----- both passes against the exact resize -----

  /** An exact weighted sum of exact values. */
  function ExactDot(vals: seq<real>, w: seq<real>): real
    requires |vals| == |w|
  {
    if w == [] then 0.0 else ExactDot(vals[..|w| - 1], w[..|w| - 1]) + Mul(vals[|w| - 1], w[|w| - 1])
  }

  /** What the horizontal pass stands for: the exact weighted sum of the row's bytes, clamped. */
  function ExactHoriz(src: seq<int>, inH: nat, inW: nat, outW: nat, y: nat, xx: nat, ch: nat): real
    requires y < inH && 0 < inW && xx < outW && ch < 3 && |src| >= Times(Times(inH, inW), 3)
  {
    RowIsReadable(src, inH, inW, outW, y, xx, ch);
    var w := Weights(inW, outW, xx);
    Clamp(RealDot(RowWindow(src, inW, y, ch, XMin(Ratio(inW, outW), xx), |w|), w))
  }

  /** The exact values a vertical window covers. */
  function ExactColumn(src: seq<int>, inH: nat, inW: nat, outW: nat, x: nat, ch: nat, lo: nat, n: nat)
      : (vals: seq<real>)
    requires 0 < inW && x < outW && ch < 3 && |src| >= Times(Times(inH, inW), 3) && lo + n <= inH
    ensures |vals| == n && forall k :: 0 <= k < n ==> vals[k] == ExactHoriz(src, inH, inW, outW, lo + k, x, ch)
  {
    seq(n, k requires 0 <= k < n => ExactHoriz(src, inH, inW, outW, lo + k, x, ch))
  }

  /** The exact separable bicubic, clamped after each pass as the source clamps. */
  function ExactResize(src: seq<int>, inH: nat, inW: nat, outH: nat, outW: nat, yy: nat, x: nat, ch: nat): real
    requires 0 < inH && 0 < inW && yy < outH && x < outW && ch < 3 && |src| >= Times(Times(inH, inW), 3)
  {
    WindowInRange(inH, outH, yy);
    var w := Weights(inH, outH, yy);
    Clamp(ExactDot(ExactColumn(src, inH, inW, outW, x, ch, XMin(Ratio(inH, outH), yy), |w|), w))
  }

  lemma ClampClose(a: real, b: real)
    ensures Abs(Clamp(a) - Clamp(b)) <= Abs(a - b)
  {
  }

  lemma TermClose(v: real, r: real, w: real)
    requires Abs(v - r) < 1.0
    ensures Abs(Mul(v, w) - Mul(r, w)) <= Abs(w)
  {
    var d := v - r;
    assert Mul(v, w) - Mul(r, w) == d * w;
    ProductBelow(Abs(d), Abs(w), 1.0, Abs(w));
    assert Abs(d * w) == Abs(d) * Abs(w) by {
      AbsProduct(d, w);
    }
  }

  lemma AbsProduct(a: real, b: real)
    ensures Abs(a * b) == Abs(a) * Abs(b)
  {
    if a >= 0.0 && b >= 0.0 {
      ProductBelow(a, b, a, b);
    } else if a >= 0.0 {
      ProductBelow(a, -b, a, -b);
    } else if b >= 0.0 {
      ProductBelow(-a, b, -a, b);
    } else {
      ProductBelow(-a, -b, -a, -b);
    }
  }

  /** Values less than one off move a weighted sum by at most the weights' size. */
  lemma {:induction false} DotClose(vals: seq<int>, exact: seq<real>, w: seq<real>)
    requires |vals| == |exact| == |w| && forall k :: 0 <= k < |w| ==> Abs(vals[k] as real - exact[k]) < 1.0
    ensures Abs(RealDot(vals, w) - ExactDot(exact, w)) <= WeightSize(w)
  {
    hide Mul;
    if w != [] {
      var n := |w| - 1;
      DotClose(vals[..n], exact[..n], w[..n]);
      TermClose(vals[n] as real, exact[n], w[n]);
      assert RealTerm(vals[n], w[n]) == Mul(vals[n] as real, w[n]) by {
        TermIsMul(vals[n], w[n]);
      }
    }
  }

  lemma TermIsMul(v: int, w: real)
    ensures RealTerm(v, w) == Mul(v as real, w)
  {
  }

  lemma HorizError(src: seq<int>, inH: nat, inW: nat, outW: nat, y: nat, xx: nat, ch: nat)
    requires IsBytes(src) && y < inH && 0 < inW <= 4096 * outW && xx < outW && ch < 3
    requires |src| >= Times(Times(inH, inW), 3)
    ensures Abs(HorizVal(src, inH, inW, outW, y, xx, ch) as real - ExactHoriz(src, inH, inW, outW, y, xx, ch)) < 1.0
  {
    hide Weights, Times, Join, Resample, XMin, RealDot, Clamp, QuantizeAll;
    RowIsReadable(src, inH, inW, outW, y, xx, ch);
    FewTaps(inW, outW, xx);
    var w := Weights(inW, outW, xx);
    var vals := RowWindow(src, inW, y, ch, XMin(Ratio(inW, outW), xx), |w|);
    forall k | 0 <= k < |vals| ensures 0 <= vals[k] <= 255 {
      assert vals[k] in src;
    }
    PassError(vals, w);
  }

  /** Error bound of the whole resize: each byte is less than 4.7 away from the exact separable bicubic, whenever no
      axis shrinks by more than 4096. */
  lemma TwoPassError(src: seq<int>, inH: nat, inW: nat, outH: nat, outW: nat, yy: nat, x: nat, ch: nat)
    requires IsBytes(src) && 0 < inW <= 4096 * outW && 0 < inH <= 4096 * outH && |src| >= Times(Times(inH, inW), 3)
    requires yy < outH && x < outW && ch < 3
    ensures Join(Join(yy, outW, x), 3, ch) < |Resized(src, inH, inW, outH, outW)|
    ensures Abs(Resized(src, inH, inW, outH, outW)[Join(Join(yy, outW, x), 3, ch)] as real
                - ExactResize(src, inH, inW, outH, outW, yy, x, ch)) < 4.7
  {
    hide Weights, Times, Rem, Quot, Join, Resample, XMin, XMax, RealDot, ExactDot, Clamp, QuantizeAll, HorizVal,
      ExactHoriz;
    EntryJoins(outH, outW, yy, x, ch);
    var horiz := Horizontal(src, inH, inW, outW);
    ColumnIsReadable(horiz, inH, outH, outW, yy, x, ch);
    WindowInRange(inH, outH, yy);
    FewTaps(inH, outH, yy);
    WeightsStaySmall(inH, outH, yy);
    var w := Weights(inH, outH, yy);
    var lo := XMin(Ratio(inH, outH), yy);
    var vals := ColumnWindow(horiz, outW, x, ch, lo, |w|);
    var exact := ExactColumn(src, inH, inW, outW, x, ch, lo, |w|);
    forall k | 0 <= k < |w| ensures Abs(vals[k] as real - exact[k]) < 1.0 && 0 <= vals[k] <= 255 {
      EntryJoins(inH, outW, lo + k, x, ch);
      HorizError(src, inH, inW, outW, lo + k, x, ch);
    }
    PassError(vals, w);
    DotClose(vals, exact, w);
    ClampClose(RealDot(vals, w), ExactDot(exact, w));
  }
}
