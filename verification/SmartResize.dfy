/** src/image.rs, `smart_resize`: the shape an image or video is resized to, and when its pixel count lies within the
    bounds. */
module SmartResize {
  import opened Arith
  import opened Prelude
  import opened Resize

  /** Round half to even. */
  function RoundTiesEven(x: real): int
  {
    var f := x.Floor;
    var d := x - f as real;
    if d < 0.5 then f else if d > 0.5 then f + 1 else if f % 2 == 0 then f else f + 1
  }

  function Ceil(x: real): int { -((-x).Floor) }

  ghost predicate IsSqrt(root: real -> real)
  {
    forall x :: x >= 0.0 ==> root(x) >= 0.0 && Mul(root(x), root(x)) == x
  }

  function RoundFactor(x: nat, factor: nat): int
    requires factor > 0
  {
    RoundTiesEven((x as real) / (factor as real)) * factor
  }

  /** The pixel budget a shape uses. */
  function Budget(temporal: nat, h: int, w: int): int { Max(temporal, 1) * (h * w) }

  predicate IsMultiple(x: int, factor: nat) { factor > 0 && x >= 0 && x % factor == 0 }

  lemma MultipleOf(k: int, factor: nat)
    requires k >= 0 && factor > 0
    ensures IsMultiple(k * factor, factor) && (k >= 1 ==> k * factor >= factor)
  {
    DivUnique(k * factor, k, 0, factor);
    MulMonotone(0, k, factor);
    if k >= 1 {
      MulMonotone(1, k, factor);
    }
  }

  lemma RoundIsNonNegative(x: nat, factor: nat)
    requires factor > 0
    ensures IsMultiple(RoundFactor(x, factor), factor)
  {
    var q := (x as real) / (factor as real);
    DivBelow(x as real, factor as real, 0.0);
    MultipleOf(RoundTiesEven(q), factor);
  }

  /** `q` blocks are the nearest to `x` pixels, and an even number of blocks when two are equally near. */
  predicate NearestBlocks(x: nat, factor: nat, q: nat)
  {
    && 2 * x <= 2 * (q * factor) + factor && 2 * (q * factor) <= 2 * x + factor
    && (2 * x == 2 * (q * factor) + factor || 2 * (q * factor) == 2 * x + factor ==> q % 2 == 0)
  }

  /** A rounded side is the nearest number of whole blocks, ties going to the even one, and there is no other. */
  lemma RoundFactorIsNearest(x: nat, factor: nat, q: nat)
    requires factor > 0
    ensures RoundFactor(x, factor) == q * factor <==> NearestBlocks(x, factor, q)
  {
    var k := RoundTiesEven((x as real) / (factor as real));
    RoundedIsNearest(x, factor);
    hide RoundTiesEven, NearestBlocks;
    if NearestBlocks(x, factor, q) {
      NearestIsUnique(x, factor, k, q);
    }
    if RoundFactor(x, factor) == q * factor {
      SameBlocks(k, q, factor);
    }
  }

  lemma RoundedIsNearest(x: nat, factor: nat)
    requires factor > 0
    ensures var k := RoundTiesEven((x as real) / (factor as real)); k >= 0 && NearestBlocks(x, factor, k)
  {
    var r := (x as real) / (factor as real);
    DivMul(x as real, factor as real);
    DivBelow(x as real, factor as real, 0.0);
    var k := RoundTiesEven(r);
    HalfAway(r);
    hide RoundTiesEven, Mul;
    ScaledHalves(r, k, x, factor);
    if 2 * x == 2 * (k * factor) + factor {
      TieAbove(r, k, x, factor);
    } else if 2 * (k * factor) == 2 * x + factor {
      TieBelow(r, k, x, factor);
    }
  }

  lemma HalfAway(r: real)
    ensures var k := RoundTiesEven(r) as real;
      k - 0.5 <= r <= k + 0.5 && (r == k - 0.5 || r == k + 0.5 ==> RoundTiesEven(r) % 2 == 0)
    ensures r >= 0.0 ==> RoundTiesEven(r) >= 0
  {
  }

  lemma Halves(k: real, f: real)
    ensures Mul(k - 0.5, f) == Mul(k, f) - 0.5 * f && Mul(k + 0.5, f) == Mul(k, f) + 0.5 * f
  {
  }

  lemma NotMore(a: real, b: real, f: real)
    requires a <= b && f >= 0.0
    ensures Mul(a, f) <= Mul(b, f)
  {
    ScaleBy(a, b, f);
  }

  lemma ScaledHalves(r: real, k: nat, x: nat, factor: nat)
    requires Mul(r, factor as real) == x as real && k as real - 0.5 <= r <= k as real + 0.5
    ensures 2 * x <= 2 * (k * factor) + factor && 2 * (k * factor) <= 2 * x + factor
  {
    var f, kf := factor as real, (k * factor) as real;
    Halves(k as real, f);
    NotMore(k as real - 0.5, r, f);
    NotMore(r, k as real + 0.5, f);
    assert kf == Mul(k as real, f);
    hide Mul;
    assert kf - 0.5 * f <= x as real <= kf + 0.5 * f;
  }

  lemma SameBlocks(a: nat, b: nat, d: nat)
    requires d > 0 && a * d == b * d
    ensures a == b
  {
    DivUnique(a * d, a, 0, d);
    DivUnique(b * d, b, 0, d);
  }

  lemma TieAbove(r: real, k: int, x: nat, factor: nat)
    requires factor > 0 && Mul(r, factor as real) == x as real && 2 * x == 2 * (k * factor) + factor
    ensures r == k as real + 0.5
  {
    var f := factor as real;
    assert (k * factor) as real == (k as real) * f;
    CancelBoth(r, k as real + 0.5, f);
  }

  lemma TieBelow(r: real, k: int, x: nat, factor: nat)
    requires factor > 0 && Mul(r, factor as real) == x as real && 2 * (k * factor) == 2 * x + factor
    ensures r == k as real - 0.5
  {
    var f := factor as real;
    assert (k * factor) as real == (k as real) * f;
    CancelBoth(r, k as real - 0.5, f);
  }

  lemma NearestIsUnique(x: nat, factor: nat, a: nat, b: nat)
    requires factor > 0 && NearestBlocks(x, factor, a) && NearestBlocks(x, factor, b)
    ensures a == b
  {
    BlocksApart(a, b, factor);
    BlocksApart(b, a, factor);
  }

  lemma BlocksApart(a: nat, b: nat, d: nat)
    requires d > 0 && b * d <= a * d + d
    ensures b <= a + 1 && (b == a + 1 ==> b * d == a * d + d)
  {
    assert (a + 1) * d == a * d + d && (a + 2) * d == a * d + 2 * d;
    if b > a + 1 {
      MulMonotone(a + 2, b, d);
    }
  }

  /** `factor` times the whole part of `x / factor` is at most `x`. */
  function FloorTo(x: real, factor: nat): int
    requires factor > 0
  {
    (x / (factor as real)).Floor * factor
  }

  function CeilTo(x: real, factor: nat): int
    requires factor > 0
  {
    Ceil(x / (factor as real)) * factor
  }

  lemma FactorMore(a: real, b: real, f: real)
    requires a < b && f > 0.0
    ensures Mul(a, f) < Mul(b, f)
  {
    MulPositive(b - a, f);
  }

  lemma OneFactor(a: real, f: real)
    ensures Mul(a + 1.0, f) == Mul(a, f) + f
  {
  }

  lemma FloorToBelow(x: real, factor: nat)
    requires factor > 0 && x >= 0.0
    ensures 0.0 <= FloorTo(x, factor) as real <= x < FloorTo(x, factor) as real + factor as real
    ensures FloorTo(x, factor) % factor == 0
  {
    var f := factor as real;
    var q := x / f;
    DivBelow(x, f, 0.0);
    MultipleOf(q.Floor, factor);
    DivMul(x, f);
    ScaleBy(q.Floor as real, q, f);
    assert FloorTo(x, factor) as real == Mul(q.Floor as real, f);
    FactorMore(q, q.Floor as real + 1.0, f);
    OneFactor(q.Floor as real, f);
  }

  lemma CeilToAbove(x: real, factor: nat)
    requires factor > 0 && x > 0.0
    ensures x <= CeilTo(x, factor) as real < x + factor as real && IsMultiple(CeilTo(x, factor), factor)
        && CeilTo(x, factor) >= factor
  {
    var f := factor as real;
    var q := x / f;
    DivMul(x, f);
    MultipleOf(Ceil(q), factor);
    ScaleBy(q, Ceil(q) as real, f);
    assert CeilTo(x, factor) as real == Mul(Ceil(q) as real, f);
    FactorMore(Ceil(q) as real, q + 1.0, f);
    OneFactor(q, f);
  }

  /** Both sides times `beta` fit inside `h × w`, so the shape fits the budget `beta` was computed from. */
  lemma ShrunkBudget(t: real, h: real, w: real, hb: real, wb: real, beta: real, limit: real)
    requires t > 0.0 && beta > 0.0 && hb >= 0.0 && wb >= 0.0
    requires Mul(Mul(beta, beta), limit) == Mul(t, Mul(h, w))
    requires Mul(hb, beta) <= h && Mul(wb, beta) <= w
    ensures Mul(t, Mul(hb, wb)) <= limit
  {
    hide Mul;
    MulPositive(beta, beta);
    MulNonNegative(hb, beta);
    MulNonNegative(wb, beta);
    MulBelow(Mul(hb, beta), Mul(wb, beta), h, w);
    MulBelow(Mul(Mul(hb, beta), Mul(wb, beta)), t, Mul(h, w), t);
    Regroup(t, hb, wb, beta);
    MulCommutes(Mul(h, w), t);
    MulCommutes(Mul(beta, beta), limit);
    CancelRight(Mul(t, Mul(hb, wb)), limit, Mul(beta, beta));
  }

  /** Both sides reach `beta` times `h × w`, so the shape reaches the budget. */
  lemma GrownBudget(t: real, h: real, w: real, hb: real, wb: real, beta: real, limit: real)
    requires t > 0.0 && beta > 0.0 && h >= 0.0 && w >= 0.0
    requires Mul(Mul(beta, beta), Mul(t, Mul(h, w))) == limit
    requires hb >= Mul(h, beta) && wb >= Mul(w, beta)
    ensures Mul(t, Mul(hb, wb)) >= limit
  {
    hide Mul;
    MulNonNegative(h, beta);
    MulNonNegative(w, beta);
    MulBelow(Mul(h, beta), Mul(w, beta), hb, wb);
    MulBelow(Mul(Mul(h, beta), Mul(w, beta)), t, Mul(hb, wb), t);
    Regroup(t, h, w, beta);
    MulCommutes(Mul(hb, wb), t);
    MulCommutes(Mul(beta, beta), Mul(t, Mul(h, w)));
  }

  /** The side `s` grown from `x` so that, scaled alike with `y`, `t` frames reach `limit` pixels: the least multiple of
      `factor` that is long enough. Stated without the square root. */
  predicate LeastReaching(s: nat, factor: nat, x: nat, y: nat, t: nat, limit: nat)
  {
    && IsMultiple(s, factor) && s >= factor
    && SquareTimes(s, t, y) >= x * limit && SquareTimes(s - factor, t, y) < x * limit
  }

  /** The greatest multiple of `factor` that stays within the scaled `x`, but at least `factor` itself. */
  predicate GreatestWithin(s: nat, factor: nat, x: nat, y: nat, t: nat, limit: nat)
  {
    && IsMultiple(s, factor) && s >= factor
    && (s == factor || SquareTimes(s, t, y) <= x * limit) && SquareTimes(s + factor, t, y) > x * limit
  }

  /** The shape the source's three branches choose. */
  predicate Chosen(factor: nat, height: nat, width: nat, temporal: nat, minPixels: nat, maxPixels: nat, h: nat, w: nat)
    requires factor > 0
  {
    var t, rounded := Max(temporal, 1), Rounded(factor, height, width, temporal);
    && IsMultiple(h, factor) && IsMultiple(w, factor)
    && if rounded > maxPixels then
         && GreatestWithin(h, factor, height, width, t, maxPixels)
         && GreatestWithin(w, factor, width, height, t, maxPixels)
       else if rounded < minPixels then
         && LeastReaching(h, factor, height, width, t, minPixels)
         && LeastReaching(w, factor, width, height, t, minPixels)
       else
         h == RoundFactor(height, factor) && w == RoundFactor(width, factor)
  }

  /** The pixels of the shape with both sides rounded. */
  function Rounded(factor: nat, height: nat, width: nat, temporal: nat): int
    requires factor > 0
  {
    Budget(temporal, RoundFactor(height, factor), RoundFactor(width, factor))
  }

  /** There is one grown side. */
  lemma LeastIsUnique(a: nat, b: nat, factor: nat, x: nat, y: nat, t: nat, limit: nat)
    requires LeastReaching(a, factor, x, y, t, limit) && LeastReaching(b, factor, x, y, t, limit)
    ensures a == b
  {
    LeastIsLeast(a, b, factor, x, y, t, limit);
    LeastIsLeast(b, a, factor, x, y, t, limit);
  }

  /** There is one shrunk side. */
  lemma GreatestIsUnique(a: nat, b: nat, factor: nat, x: nat, y: nat, t: nat, limit: nat)
    requires GreatestWithin(a, factor, x, y, t, limit) && GreatestWithin(b, factor, x, y, t, limit)
    ensures a == b
  {
    GreatestIsGreatest(a, b, factor, x, y, t, limit);
    GreatestIsGreatest(b, a, factor, x, y, t, limit);
  }

  /** So a caller can find the chosen shape with integers alone. */
  lemma ChosenIsUnique(factor: nat, height: nat, width: nat, temporal: nat, minPixels: nat, maxPixels: nat, h: nat,
      w: nat, h': nat, w': nat)
    requires factor > 0 && Chosen(factor, height, width, temporal, minPixels, maxPixels, h, w)
    requires Chosen(factor, height, width, temporal, minPixels, maxPixels, h', w')
    ensures h == h' && w == w'
  {
    hide GreatestWithin, LeastReaching, RoundFactor, Rounded;
    var t, rounded := Max(temporal, 1), Rounded(factor, height, width, temporal);
    if rounded > maxPixels {
      GreatestIsUnique(h, h', factor, height, width, t, maxPixels);
      GreatestIsUnique(w, w', factor, width, height, t, maxPixels);
    } else if rounded < minPixels {
      LeastIsUnique(h, h', factor, height, width, t, minPixels);
      LeastIsUnique(w, w', factor, width, height, t, minPixels);
    }
  }

  /** A multiple long enough for the lower budget. */
  predicate Reaches(s: nat, factor: nat, x: nat, y: nat, t: nat, limit: nat)
  {
    IsMultiple(s, factor) && s >= factor && SquareTimes(s, t, y) >= x * limit
  }

  /** A multiple short enough for the upper budget, or a single block. */
  predicate Stays(s: nat, factor: nat, x: nat, y: nat, t: nat, limit: nat)
  {
    IsMultiple(s, factor) && s >= factor && (s == factor || SquareTimes(s, t, y) <= x * limit)
  }

  lemma LeastIsLeast(s: nat, a: nat, factor: nat, x: nat, y: nat, t: nat, limit: nat)
    requires LeastReaching(s, factor, x, y, t, limit) && Reaches(a, factor, x, y, t, limit)
    ensures s <= a
  {
    if a < s {
      StepApart(a, s, factor);
      SquareTimesMonotone(a, s - factor, t, y);
    }
  }

  lemma GreatestIsGreatest(s: nat, a: nat, factor: nat, x: nat, y: nat, t: nat, limit: nat)
    requires GreatestWithin(s, factor, x, y, t, limit) && Stays(a, factor, x, y, t, limit)
    ensures a <= s
  {
    if s < a {
      StepApart(s, a, factor);
      SquareTimesMonotone(s + factor, a, t, y);
    }
  }

  lemma StepApart(a: nat, b: nat, factor: nat)
    requires IsMultiple(a, factor) && IsMultiple(b, factor) && a < b
    ensures a + factor <= b
  {
    if b - a < factor {
      DivUnique(b, a / factor, b - a, factor);
    }
  }

  lemma SquareTimesMonotone(a: nat, b: nat, t: nat, y: nat)
    requires a <= b
    ensures SquareTimes(a, t, y) <= SquareTimes(b, t, y)
  {
    MulMonotone(a, b, a);
    MulMonotone(a, b, b);
    MulMonotone(a * a, b * b, t);
    MulMonotone(a * a * t, b * b * t, y);
  }

  function SquareTimes(s: nat, t: nat, y: nat): nat { s * s * t * y }

  /** `smart_resize_with`: the chosen shape, and exactly when its pixel count lies within the bounds. */
  method SmartResizeWith(root: real -> real, factor: nat, height: nat, width: nat, temporal: nat, minPixels: nat,
                         maxPixels: nat)
    returns (r: Result<(nat, nat), Error>)
    requires IsSqrt(root) && factor > 0
    ensures r.Err? <==> height == 0 || width == 0 || Max(height, width) > 200 * Min(height, width)
    ensures r.Ok? ==> IsMultiple(r.value.0, factor) && IsMultiple(r.value.1, factor)
    ensures r.Ok? && minPixels > 0 ==> r.value.0 >= factor && r.value.1 >= factor
    ensures
      var (rh, rw) := (RoundFactor(height, factor), RoundFactor(width, factor));
      var rounded := Budget(temporal, rh, rw);
      r.Ok? ==>
        && (minPixels <= rounded <= maxPixels ==> r.value == (rh, rw))
        && (rounded <= maxPixels ==> Budget(temporal, r.value.0, r.value.1) >= minPixels)
        && (rounded > maxPixels ==>
              Budget(temporal, r.value.0, r.value.1) <= maxPixels || r.value.0 == factor || r.value.1 == factor)
    ensures r.Ok? ==> Chosen(factor, height, width, temporal, minPixels, maxPixels, r.value.0, r.value.1)
    ensures r.Ok? ==>
      (minPixels <= Budget(temporal, r.value.0, r.value.1) <= maxPixels <==>
        KeepsBounds(factor, height, width, temporal, minPixels, maxPixels))
  {
    hide IsSqrt, RoundFactor, LeastReaching, GreatestWithin, SquareTimes;
    var hi, lo := Max(height, width), Min(height, width);
    if lo == 0 {
      return Err(Msg("smart_resize: zero dimension"));
    }
    AspectIsRatio(hi, lo);
    if (hi as real) / (lo as real) > 200.0 {
      return Err(Msg("smart_resize: aspect ratio exceeds 200"));
    }
    var hb, wb := RoundFactor(height, factor), RoundFactor(width, factor);
    RoundIsNonNegative(height, factor);
    RoundIsNonNegative(width, factor);
    var budget := Budget(temporal, hb, wb);
    if budget > maxPixels {
      hb, wb := Shrink(root, factor, height, width, temporal, maxPixels);
    } else if budget < minPixels {
      hb, wb := Grow(root, factor, height, width, temporal, minPixels);
    } else {
      NonZero(temporal, hb, wb, factor);
    }
    WithinBoundsIff(factor, height, width, temporal, minPixels, maxPixels, hb, wb);
    r := Ok((hb, wb));
  }

  /** Comparing a side with the exact scaled side `q`, where `q·q·t·y` is `x·limit`, without the square root. */
  lemma SideCompare(s: nat, q: real, t: nat, y: nat, target: nat)
    requires q >= 0.0 && t > 0 && y > 0 && Mul(Mul(q, q), (t * y) as real) == target as real
    ensures (s as real >= q) <==> SquareTimes(s, t, y) >= target
    ensures (s as real <= q) <==> SquareTimes(s, t, y) <= target
  {
    var sr, k := s as real, (t * y) as real;
    Product(t, y);
    SquareCast(s, t, y);
    assert SquareTimes(s, t, y) as real == Mul(Mul(sr, sr), k);
    if sr > q {
      SquareMore(q, sr);
      FactorMore(Mul(q, q), Mul(sr, sr), k);
    } else if sr < q {
      SquareMore(sr, q);
      FactorMore(Mul(sr, sr), Mul(q, q), k);
    }
  }

  lemma SquareMore(a: real, b: real)
    requires 0.0 <= a < b
    ensures Mul(a, a) < Mul(b, b)
  {
    MulPositive(b - a, b + a);
    assert (b - a) * (b + a) == b * b - a * a;
  }

  lemma SquareCast(s: nat, t: nat, y: nat)
    ensures SquareTimes(s, t, y) as real == Mul(Mul(s as real, s as real), (t * y) as real)
  {
    assert s * s * t * y == (s * s) * (t * y);
    assert ((s * s) * (t * y)) as real == (s * s) as real * (t * y) as real;
    assert (s * s) as real == (s as real) * (s as real);
  }

  /** `q` is `x` scaled by the ratio of the budgets. */
  lemma GrownTarget(x: nat, y: nat, t: nat, beta: real, limit: nat)
    requires Mul(Mul(beta, beta), Mul(t as real, Mul(x as real, y as real))) == limit as real
    ensures Mul(Mul(Mul(x as real, beta), Mul(x as real, beta)), (t * y) as real) == (x * limit) as real
  {
    var xr, yr, tr := x as real, y as real, t as real;
    assert (t * y) as real == tr * yr;
    assert (x * limit) as real == xr * (limit as real);
    assert xr * ((beta * beta) * (tr * (xr * yr))) == ((xr * beta) * (xr * beta)) * (tr * yr) by {
      FiveFactors(xr, beta, tr, yr);
    }
  }

  lemma FiveFactors(x: real, b: real, t: real, y: real)
    ensures x * ((b * b) * (t * (x * y))) == ((x * b) * (x * b)) * (t * y)
  {
    assert t * (x * y) == x * (t * y);
    assert (b * b) * (x * (t * y)) == (x * (b * b)) * (t * y);
    assert (x * b) * (x * b) == x * (x * (b * b));
    assert x * ((x * (b * b)) * (t * y)) == (x * (x * (b * b))) * (t * y);
  }

  lemma ShrunkTarget(x: nat, y: nat, t: nat, beta: real, q: real, limit: nat)
    requires beta > 0.0 && Mul(q, beta) == x as real
    requires Mul(Mul(beta, beta), limit as real) == Mul(t as real, Mul(x as real, y as real))
    ensures Mul(Mul(q, q), (t * y) as real) == (x * limit) as real
  {
    var xr, yr, tr, lr := x as real, y as real, t as real, limit as real;
    assert (t * y) as real == tr * yr;
    assert (x * limit) as real == xr * lr;
    // Both sides times the positive square of `beta`.
    assert Mul(xr * lr, beta * beta) == xr * (tr * (xr * yr)) by {
      assert (xr * lr) * (beta * beta) == xr * ((beta * beta) * lr);
    }
    assert Mul((q * q) * (tr * yr), beta * beta) == xr * (tr * (xr * yr)) by {
      FiveFactors(q, beta, tr, yr);
      QSquare(q, beta, tr, yr, xr);
    }
    MulPositive(beta, beta);
    CancelBoth(xr * lr, (q * q) * (tr * yr), beta * beta);
  }

  lemma QSquare(q: real, b: real, t: real, y: real, x: real)
    requires q * b == x
    ensures ((q * q) * (t * y)) * (b * b) == x * (t * (x * y))
  {
    assert (q * q) * (b * b) == (q * b) * (q * b);
    assert ((q * q) * (t * y)) * (b * b) == ((q * q) * (b * b)) * (t * y);
    assert (x * x) * (t * y) == x * (t * (x * y));
  }

  lemma CancelBoth(a: real, b: real, c: real)
    requires c > 0.0 && Mul(a, c) == Mul(b, c)
    ensures a == b
  {
    CancelRight(a, b, c);
    CancelRight(b, a, c);
  }

  lemma AspectIsRatio(hi: nat, lo: nat)
    requires lo > 0
    ensures (hi as real) / (lo as real) > 200.0 <==> hi > 200 * lo
  {
    DivBelow(hi as real, lo as real, 200.0);
    assert (hi as real) / (lo as real) * (lo as real) == hi as real;
    if (hi as real) / (lo as real) <= 200.0 {
      ScaleBy((hi as real) / (lo as real), 200.0, lo as real);
    }
  }

  lemma NonZero(temporal: nat, hb: int, wb: int, factor: nat)
    requires IsMultiple(hb, factor) && IsMultiple(wb, factor)
    ensures Budget(temporal, hb, wb) > 0 ==> hb >= factor && wb >= factor
  {
    if hb < factor {
      assert hb == 0;
      assert Budget(temporal, hb, wb) == 0;
    } else if wb < factor {
      assert wb == 0;
      assert Budget(temporal, hb, wb) == 0;
    }
  }

  function Area(temporal: nat, h: nat, w: nat): real { Mul(Max(temporal, 1) as real, Mul(h as real, w as real)) }

  lemma BudgetIsArea(temporal: nat, h: nat, w: nat)
    ensures Budget(temporal, h, w) as real == Area(temporal, h, w)
  {
    assert (h * w) as real == (h as real) * (w as real);
  }

  lemma PositiveRoot(root: real -> real, x: real)
    requires IsSqrt(root) && x > 0.0
    ensures root(x) > 0.0 && Mul(root(x), root(x)) == x
  {
    ZeroSquare();
  }

  lemma ZeroSquare()
    ensures Mul(0.0, 0.0) == 0.0
  {
  }

  lemma SquarePositive(s: nat, t: nat, y: nat)
    requires s > 0 && t > 0 && y > 0
    ensures SquareTimes(s, t, y) > 0
  {
    Product(s, s);
    Product(s * s, t);
    Product(s * s * t, y);
  }

  lemma SwapTarget(h: nat, w: nat, t: nat)
    ensures Mul(t as real, Mul(h as real, w as real)) == Mul(t as real, Mul(w as real, h as real))
  {
  }

  lemma GrownSide(s: nat, factor: nat, x: nat, y: nat, t: nat, beta: real, limit: nat)
    requires factor > 0 && t > 0 && y > 0 && x > 0 && beta > 0.0 && s >= factor && IsMultiple(s, factor)
    requires Mul(Mul(beta, beta), Mul(t as real, Mul(x as real, y as real))) == limit as real
    requires Mul(x as real, beta) <= s as real < Mul(x as real, beta) + factor as real
    ensures LeastReaching(s, factor, x, y, t, limit)
  {
    hide Mul, SquareTimes;
    var q := Mul(x as real, beta);
    MulPositive(x as real, beta);
    GrownTarget(x, y, t, beta, limit);
    SideCompare(s, q, t, y, x * limit);
    SideCompare(s - factor, q, t, y, x * limit);
  }

  lemma ShrunkSide(s: nat, q: real, factor: nat, x: nat, y: nat, t: nat, beta: real, limit: nat)
    requires factor > 0 && t > 0 && y > 0 && x > 0 && beta > 0.0 && q >= 0.0 && Mul(q, beta) == x as real
    requires Mul(Mul(beta, beta), limit as real) == Mul(t as real, Mul(x as real, y as real))
    requires s == Max(factor, FloorTo(q, factor))
    ensures GreatestWithin(s, factor, x, y, t, limit)
  {
    hide Mul, SquareTimes, FloorTo;
    FloorToBelow(q, factor);
    MultipleOf(1, factor);
    ShrunkTarget(x, y, t, beta, q, limit);
    SideCompare(s, q, t, y, x * limit);
    SideCompare(s + factor, q, t, y, x * limit);
  }

  /** The over-budget branch. */
  method Shrink(root: real -> real, factor: nat, height: nat, width: nat, temporal: nat, maxPixels: nat)
    returns (hb: nat, wb: nat)
    requires IsSqrt(root) && factor > 0 && height > 0 && width > 0
    ensures IsMultiple(hb, factor) && IsMultiple(wb, factor) && hb >= factor && wb >= factor
    ensures Budget(temporal, hb, wb) <= maxPixels || hb == factor || wb == factor
    ensures GreatestWithin(hb, factor, height, width, Max(temporal, 1), maxPixels)
    ensures GreatestWithin(wb, factor, width, height, Max(temporal, 1), maxPixels)
  {
    hide IsSqrt, FloorTo, Mul, Budget, SquareTimes;
    MultipleOf(1, factor);
    if maxPixels == 0 {
      // Division by a zero budget is infinite, so both quotients are zero.
      SquarePositive(factor + factor, Max(temporal, 1), width);
      SquarePositive(factor + factor, Max(temporal, 1), height);
      return factor, factor;
    }
    var t, h, w, limit := Max(temporal, 1) as real, height as real, width as real, maxPixels as real;
    MulPositive(h, w);
    MulPositive(t, Mul(h, w));
    DivMul(Mul(t, Mul(h, w)), limit);
    var ratio := Mul(t, Mul(h, w)) / limit;
    PositiveRoot(root, ratio);
    var beta := root(ratio);
    DivMul(h, beta);
    DivMul(w, beta);
    FloorToBelow(h / beta, factor);
    FloorToBelow(w / beta, factor);
    hb := Max(factor, FloorTo(h / beta, factor));
    wb := Max(factor, FloorTo(w / beta, factor));
    SwapTarget(height, width, Max(temporal, 1));
    ShrunkSide(hb, h / beta, factor, height, width, Max(temporal, 1), beta, maxPixels);
    ShrunkSide(wb, w / beta, factor, width, height, Max(temporal, 1), beta, maxPixels);
    if hb != factor && wb != factor {
      MulBelow(hb as real, beta, h / beta, beta);
      MulBelow(wb as real, beta, w / beta, beta);
      ShrunkBudget(t, h, w, hb as real, wb as real, beta, limit);
      BudgetIsArea(temporal, hb, wb);
    }
  }

  /** The under-budget branch. */
  method Grow(root: real -> real, factor: nat, height: nat, width: nat, temporal: nat, minPixels: nat)
    returns (hb: nat, wb: nat)
    requires IsSqrt(root) && factor > 0 && height > 0 && width > 0 && minPixels > 0
    ensures IsMultiple(hb, factor) && IsMultiple(wb, factor) && hb >= factor && wb >= factor
    ensures Budget(temporal, hb, wb) >= minPixels
    ensures LeastReaching(hb, factor, height, width, Max(temporal, 1), minPixels)
    ensures LeastReaching(wb, factor, width, height, Max(temporal, 1), minPixels)
  {
    hide IsSqrt, CeilTo, Mul, Budget, IsMultiple, LeastReaching;
    var t, h, w := Max(temporal, 1) as real, height as real, width as real;
    MulPositive(h, w);
    MulPositive(t, Mul(h, w));
    DivMul(minPixels as real, Mul(t, Mul(h, w)));
    var ratio := minPixels as real / Mul(t, Mul(h, w));
    PositiveRoot(root, ratio);
    var beta := root(ratio);
    MulPositive(h, beta);
    MulPositive(w, beta);
    CeilToAbove(Mul(h, beta), factor);
    CeilToAbove(Mul(w, beta), factor);
    hb := CeilTo(Mul(h, beta), factor);
    wb := CeilTo(Mul(w, beta), factor);
    SwapTarget(height, width, Max(temporal, 1));
    GrownSide(hb, factor, height, width, Max(temporal, 1), beta, minPixels);
    GrownSide(wb, factor, width, height, Max(temporal, 1), beta, minPixels);
    GrownBudget(t, h, w, hb as real, wb as real, beta, minPixels as real);
    BudgetIsArea(temporal, hb, wb);
  }

  // ----- when the pixel count lies within the bounds -----

  /** The scaled side is shorter than one block, so shrinking clamps it to the block. */
  predicate Clamped(factor: nat, x: nat, y: nat, t: nat, limit: nat) { SquareTimes(factor, t, y) > x * limit }

  /** Whole blocks beside a side of one block that a budget has room for. */
  function Blocks(factor: nat, t: nat, limit: nat): nat
    requires factor > 0 && t > 0
  {
    Positive(factor, t);
    limit / (t * (factor * factor))
  }

  lemma Positive(factor: nat, t: nat)
    requires factor > 0 && t > 0
    ensures t * (factor * factor) > 0
  {
    Product(factor, factor);
    Product(t, factor * factor);
  }

  /** Beside a side of one block, the scaled side does not reach the first block without room. */
  predicate StripFits(factor: nat, x: nat, y: nat, t: nat, limit: nat)
    requires factor > 0 && t > 0
  {
    SquareTimes((Blocks(factor, t, limit) + 1) * factor, t, y) > x * limit
  }

  /** The shrunk shape meets the upper budget: not both sides are clamped, and beside a clamped one there is room. */
  predicate ShrunkFits(factor: nat, height: nat, width: nat, t: nat, maxPixels: nat)
    requires factor > 0 && t > 0
  {
    var hc, wc := Clamped(factor, height, width, t, maxPixels), Clamped(factor, width, height, t, maxPixels);
    && !(hc && wc)
    && (hc ==> StripFits(factor, width, height, t, maxPixels))
    && (wc ==> StripFits(factor, height, width, t, maxPixels))
  }

  /** Some pair of long enough sides meets the upper budget. */
  predicate GrownFits(factor: nat, height: nat, width: nat, t: nat, minPixels: nat, maxPixels: nat)
  {
    exists a: nat, b: nat | a <= maxPixels && b <= maxPixels ::
      && Reaches(a, factor, height, width, t, minPixels) && Reaches(b, factor, width, height, t, minPixels)
      && t * (a * b) <= maxPixels
  }

  /** Some pair of short enough sides meets the lower budget. */
  predicate ShrunkReaches(factor: nat, height: nat, width: nat, t: nat, minPixels: nat, maxPixels: nat)
  {
    exists a: nat, b: nat | a <= Max(factor, height * maxPixels) && b <= Max(factor, width * maxPixels) ::
      && Stays(a, factor, height, width, t, maxPixels) && Stays(b, factor, width, height, t, maxPixels)
      && t * (a * b) >= minPixels
  }

  /** What a caller can check before the call: the chosen shape will lie within both bounds. */
  predicate KeepsBounds(factor: nat, height: nat, width: nat, temporal: nat, minPixels: nat, maxPixels: nat)
    requires factor > 0
  {
    var t, rounded := Max(temporal, 1), Rounded(factor, height, width, temporal);
    if rounded > maxPixels then
      && ShrunkFits(factor, height, width, t, maxPixels)
      && ShrunkReaches(factor, height, width, t, minPixels, maxPixels)
    else if rounded < minPixels then GrownFits(factor, height, width, t, minPixels, maxPixels)
    else true
  }

  lemma SquaresOrder(p: nat, q: nat, k: nat)
    requires k > 0 && p < q
    ensures p * p * k < q * q * k
  {
    MulMonotone(p, q, p);
    MulMonotone(p + 1, q, q);
    assert p * q < q * q;
    MulMonotone(p * p + 1, q * q, k);
    assert (p * p + 1) * k == p * p * k + k;
  }

  lemma ProductsOrder(a: nat, b: nat, c: nat, d: nat)
    requires a <= c && b <= d
    ensures a * b <= c * d
    ensures a < c && b < d ==> a * b < c * d
  {
    MulMonotone(a, c, b);
    MulMonotone(b, d, c);
    if a < c && b < d {
      MulMonotone(b + 1, d, c);
      assert (b + 1) * c == b * c + c;
    }
  }

  /** Both sides' squares multiply to the square of the pixel count. */
  lemma SideProduct(h: nat, w: nat, t: nat, x: nat, y: nat)
    ensures SquareTimes(h, t, y) * SquareTimes(w, t, x) == (t * (h * w)) * (t * (h * w)) * (x * y)
  {
    FourSquares(h * h, w * w, t * y, t * x);
    assert h * h * t * y == (h * h) * (t * y) && w * w * t * x == (w * w) * (t * x);
    assert (h * h) * (w * w) == (h * w) * (h * w);
    assert (t * y) * (t * x) == (t * t) * (x * y);
    FourSquares(h * w, t, h * w, t);
    assert ((h * w) * (h * w)) * ((t * t) * (x * y)) == ((h * w) * (h * w)) * (t * t) * (x * y);
  }

  lemma FourSquares(a: int, b: int, c: int, d: int)
    ensures (a * c) * (b * d) == (a * b) * (c * d)
  {
    assert (a * c) * (b * d) == a * (c * (b * d));
    assert c * (b * d) == b * (c * d);
  }

  lemma LimitProduct(x: nat, y: nat, limit: nat)
    ensures (x * limit) * (y * limit) == limit * limit * (x * y)
  {
    FourSquares(x, y, limit, limit);
  }

  /** Sides within the scaled ones meet the budget, sides beyond them exceed it, and so strictly. */
  lemma AgainstLimit(h: nat, w: nat, t: nat, x: nat, y: nat, limit: nat)
    requires x > 0 && y > 0
    ensures SquareTimes(h, t, y) <= x * limit && SquareTimes(w, t, x) <= y * limit ==> t * (h * w) <= limit
    ensures SquareTimes(h, t, y) >= x * limit && SquareTimes(w, t, x) >= y * limit ==> t * (h * w) >= limit
    ensures SquareTimes(h, t, y) < x * limit && SquareTimes(w, t, x) < y * limit ==> t * (h * w) < limit
    ensures SquareTimes(h, t, y) > x * limit && SquareTimes(w, t, x) > y * limit ==> t * (h * w) > limit
  {
    var a, b, p := SquareTimes(h, t, y), SquareTimes(w, t, x), t * (h * w);
    SideProduct(h, w, t, x, y);
    LimitProduct(x, y, limit);
    Product(x, y);
    if a <= x * limit && b <= y * limit {
      ProductsOrder(a, b, x * limit, y * limit);
    }
    if a >= x * limit && b >= y * limit {
      ProductsOrder(x * limit, y * limit, a, b);
    }
    if p < limit {
      SquaresOrder(p, limit, x * y);
    } else if p > limit {
      SquaresOrder(limit, p, x * y);
    }
  }

  /** Shrinking never goes below a quarter of the upper budget. */
  lemma ShrunkAboveQuarter(factor: nat, height: nat, width: nat, t: nat, maxPixels: nat, h: nat, w: nat)
    requires height > 0 && width > 0
    requires GreatestWithin(h, factor, height, width, t, maxPixels)
    requires GreatestWithin(w, factor, width, height, t, maxPixels)
    ensures 4 * (t * (h * w)) > maxPixels
  {
    hide SquareTimes;
    SquareTimesMonotone(h + factor, 2 * h, t, width);
    SquareTimesMonotone(w + factor, 2 * w, t, height);
    AgainstLimit(2 * h, 2 * w, t, height, width, maxPixels);
    assert t * ((2 * h) * (2 * w)) == 4 * (t * (h * w));
  }

  lemma StripPixels(factor: nat, t: nat, k: nat)
    ensures t * (factor * (k * factor)) == k * (t * (factor * factor))
  {
    assert factor * (k * factor) == k * (factor * factor);
    assert t * (k * (factor * factor)) == k * (t * (factor * factor));
  }

  /** One side is a single block, the other is as long as the budget lets it be: room for it is room for its blocks. */
  lemma StripIff(factor: nat, x: nat, y: nat, t: nat, limit: nat, s: nat)
    requires factor > 0 && t > 0 && GreatestWithin(s, factor, x, y, t, limit) && !Clamped(factor, x, y, t, limit)
    ensures t * (factor * s) <= limit <==> StripFits(factor, x, y, t, limit)
  {
    hide SquareTimes;
    var n, d, k := Blocks(factor, t, limit), t * (factor * factor), s / factor;
    Positive(factor, t);
    assert limit == n * d + limit % d;
    assert s == k * factor;
    StripPixels(factor, t, k);
    MultipleOf(n + 1, factor);
    if k <= n {
      MulMonotone(k, n, d);
      MulMonotone(k + 1, n + 1, factor);
      assert (k + 1) * factor == s + factor;
      SquareTimesMonotone(s + factor, (n + 1) * factor, t, y);
    } else {
      MulMonotone(n + 1, k, d);
      assert (n + 1) * d == n * d + d;
      MulMonotone(n + 1, k, factor);
      SquareTimesMonotone((n + 1) * factor, s, t, y);
    }
  }

  lemma ClampedIsBlock(factor: nat, x: nat, y: nat, t: nat, limit: nat, s: nat)
    requires GreatestWithin(s, factor, x, y, t, limit)
    ensures Clamped(factor, x, y, t, limit) ==> s == factor
    ensures !Clamped(factor, x, y, t, limit) ==> SquareTimes(s, t, y) <= x * limit
  {
    hide SquareTimes;
    SquareTimesMonotone(factor, s, t, y);
  }

  /** The upper budget after shrinking, exactly. */
  lemma ShrunkFitsIff(factor: nat, height: nat, width: nat, t: nat, maxPixels: nat, h: nat, w: nat)
    requires height > 0 && width > 0 && t > 0
    requires GreatestWithin(h, factor, height, width, t, maxPixels)
    requires GreatestWithin(w, factor, width, height, t, maxPixels)
    ensures t * (h * w) <= maxPixels <==> ShrunkFits(factor, height, width, t, maxPixels)
  {
    hide SquareTimes, GreatestWithin, StripFits;
    ghost var hc, wc := Clamped(factor, height, width, t, maxPixels), Clamped(factor, width, height, t, maxPixels);
    GreatestIsBlock(factor, height, width, t, maxPixels, h);
    ClampedIsBlock(factor, height, width, t, maxPixels, h);
    ClampedIsBlock(factor, width, height, t, maxPixels, w);
    AgainstLimit(h, w, t, height, width, maxPixels);
    if hc && !wc {
      StripIff(factor, width, height, t, maxPixels, w);
    } else if wc && !hc {
      StripIff(factor, height, width, t, maxPixels, h);
      assert t * (h * factor) == t * (factor * h);
    }
  }

  lemma GreatestIsBlock(factor: nat, x: nat, y: nat, t: nat, limit: nat, s: nat)
    requires GreatestWithin(s, factor, x, y, t, limit)
    ensures factor > 0 && s >= factor
  {
  }

  /** The lower budget after shrinking, exactly. */
  lemma ShrunkReachesIff(factor: nat, height: nat, width: nat, t: nat, minPixels: nat, maxPixels: nat, h: nat, w: nat)
    requires height > 0 && width > 0 && t > 0
    requires GreatestWithin(h, factor, height, width, t, maxPixels)
    requires GreatestWithin(w, factor, width, height, t, maxPixels)
    ensures t * (h * w) >= minPixels <==> ShrunkReaches(factor, height, width, t, minPixels, maxPixels)
  {
    hide SquareTimes;
    SideBelowSquare(h, t, width);
    SideBelowSquare(w, t, height);
    if t * (h * w) >= minPixels {
      assert Stays(h, factor, height, width, t, maxPixels) && Stays(w, factor, width, height, t, maxPixels);
    } else {
      forall a: nat, b: nat
        | Stays(a, factor, height, width, t, maxPixels) && Stays(b, factor, width, height, t, maxPixels)
        ensures t * (a * b) < minPixels
      {
        GreatestIsGreatest(h, a, factor, height, width, t, maxPixels);
        GreatestIsGreatest(w, b, factor, width, height, t, maxPixels);
        ProductsOrder(a, b, h, w);
        MulMonotone(a * b, h * w, t);
      }
    }
  }

  lemma SideBelowSquare(s: nat, t: nat, y: nat)
    requires t > 0 && y > 0
    ensures s <= SquareTimes(s, t, y)
  {
    if s > 0 {
      Product(s, s);
      Product(s * s, t);
      Product(s * s * t, y);
    }
  }

  lemma SidesBelowPixels(a: nat, b: nat, t: nat)
    requires a > 0 && b > 0 && t > 0
    ensures a <= t * (a * b) && b <= t * (a * b)
  {
    Product(a, b);
    Product(t, a * b);
  }

  /** Both budgets after growing: the lower one always, the upper one exactly. */
  lemma GrownFitsIff(factor: nat, height: nat, width: nat, t: nat, minPixels: nat, maxPixels: nat, h: nat, w: nat)
    requires height > 0 && width > 0 && t > 0
    requires LeastReaching(h, factor, height, width, t, minPixels)
    requires LeastReaching(w, factor, width, height, t, minPixels)
    ensures t * (h * w) >= minPixels
    ensures t * (h * w) <= maxPixels <==> GrownFits(factor, height, width, t, minPixels, maxPixels)
  {
    hide SquareTimes;
    AgainstLimit(h, w, t, height, width, minPixels);
    SidesBelowPixels(h, w, t);
    if t * (h * w) <= maxPixels {
      assert Reaches(h, factor, height, width, t, minPixels) && Reaches(w, factor, width, height, t, minPixels);
    } else {
      forall a: nat, b: nat
        | Reaches(a, factor, height, width, t, minPixels) && Reaches(b, factor, width, height, t, minPixels)
        ensures t * (a * b) > maxPixels
      {
        LeastIsLeast(h, a, factor, height, width, t, minPixels);
        LeastIsLeast(w, b, factor, width, height, t, minPixels);
        ProductsOrder(h, w, a, b);
        MulMonotone(h * w, a * b, t);
      }
    }
  }

  /** The documented promise, a pixel count within both bounds, holds exactly when `KeepsBounds` says so. After growing
      the lower bound always holds; after shrinking more than a quarter of the upper one is left. */
  lemma WithinBoundsIff(factor: nat, height: nat, width: nat, temporal: nat, minPixels: nat, maxPixels: nat, h: nat,
      w: nat)
    requires factor > 0 && height > 0 && width > 0
    requires Chosen(factor, height, width, temporal, minPixels, maxPixels, h, w)
    ensures minPixels <= Budget(temporal, h, w) <= maxPixels <==>
      KeepsBounds(factor, height, width, temporal, minPixels, maxPixels)
    ensures Rounded(factor, height, width, temporal) > maxPixels ==> 4 * Budget(temporal, h, w) > maxPixels
    ensures Rounded(factor, height, width, temporal) <= maxPixels ==> Budget(temporal, h, w) >= minPixels
  {
    hide RoundFactor, ShrunkFits, ShrunkReaches, GrownFits, GreatestWithin, LeastReaching;
    var t, rounded := Max(temporal, 1), Rounded(factor, height, width, temporal);
    if rounded > maxPixels {
      ShrunkFitsIff(factor, height, width, t, maxPixels, h, w);
      ShrunkReachesIff(factor, height, width, t, minPixels, maxPixels, h, w);
      ShrunkAboveQuarter(factor, height, width, t, maxPixels, h, w);
    } else if rounded < minPixels {
      GrownFitsIff(factor, height, width, t, minPixels, maxPixels, h, w);
    }
  }

  // ----- bounds that are always kept -----

  /** A side next to a single block, with an aspect ratio of at most 200. */
  lemma StripWithinAspect(factor: nat, x: nat, y: nat, t: nat, limit: nat, s: nat)
    requires 0 < x <= 200 * y && SquareTimes(s, t, y) <= x * limit && 200 * (t * (factor * factor)) <= limit
    ensures t * (factor * s) <= limit
  {
    var p := t * (factor * s);
    AspectSquare(s, t, x, y, limit);
    assert p * p == (t * (factor * factor)) * (s * s * t) by {
      assert p * p == (t * t) * ((factor * s) * (factor * s));
      assert (factor * s) * (factor * s) == (factor * factor) * (s * s);
      FourSquares(t, t, factor * factor, s * s);
    }
    ProductsOrder(t * (factor * factor), s * s * t, t * (factor * factor), 200 * limit);
    MulMonotone(200 * (t * (factor * factor)), limit, limit);
    assert (t * (factor * factor)) * (200 * limit) == (200 * (t * (factor * factor))) * limit;
    if p > limit {
      SquaresOrder(limit, p, 1);
    }
  }

  lemma AspectSquare(s: nat, t: nat, x: nat, y: nat, limit: nat)
    requires 0 < x <= 200 * y
    ensures SquareTimes(s, t, y) <= x * limit ==> s * s * t <= 200 * limit
    ensures SquareTimes(s, t, y) < x * limit ==> s * s * t < 200 * limit
  {
    MulMonotone(x, 200 * y, limit);
    assert (200 * y) * limit == (200 * limit) * y;
    if s * s * t > 200 * limit {
      MulMonotone(200 * limit + 1, s * s * t, y);
      assert (200 * limit + 1) * y == (200 * limit) * y + y;
    } else if s * s * t == 200 * limit {
      assert SquareTimes(s, t, y) == (200 * limit) * y;
    }
  }

  lemma GrownProduct(p: nat, q: nat, factor: nat)
    ensures (p + factor) * (q + factor) == p * q + factor * (p + q + factor)
  {
    assert (p + factor) * (q + factor) == p * q + p * factor + factor * q + factor * factor;
  }

  /** A grown side is less than a block longer than the scaled one. */
  lemma GrownWithinAspect(factor: nat, height: nat, width: nat, t: nat, minPixels: nat, reach: nat, h: nat, w: nat)
    requires 0 < height <= 200 * width && 0 < width <= 200 * height && t > 0 && reach * reach * t >= 200 * minPixels
    requires LeastReaching(h, factor, height, width, t, minPixels)
    requires LeastReaching(w, factor, width, height, t, minPixels)
    ensures t * (h * w) <= minPixels + t * (factor * (2 * reach + factor))
  {
    hide SquareTimes;
    var p, q := h - factor, w - factor;
    AspectSquare(p, t, height, width, minPixels);
    AspectSquare(q, t, width, height, minPixels);
    BelowReach(p, reach, t);
    BelowReach(q, reach, t);
    AgainstLimit(p, q, t, height, width, minPixels);
    GrownProduct(p, q, factor);
    MulMonotone(p + q + factor, 2 * reach + factor, factor);
    MulMonotone(factor * (p + q + factor), factor * (2 * reach + factor), t);
    assert t * (p * q + factor * (p + q + factor)) == t * (p * q) + t * (factor * (p + q + factor));
  }

  lemma BelowReach(p: nat, reach: nat, t: nat)
    requires p * p * t < reach * reach * t
    ensures p < reach
  {
    if p >= reach {
      ProductsOrder(reach, reach, p, p);
      MulMonotone(reach * reach, p * p, t);
    }
  }

  /** Bounds far enough apart for the block size and the aspect limit are kept for every accepted shape. */
  lemma SafeBounds(factor: nat, height: nat, width: nat, temporal: nat, minPixels: nat, maxPixels: nat, reach: nat,
      h: nat, w: nat)
    requires factor > 0 && 0 < height <= 200 * width && 0 < width <= 200 * height
    requires Chosen(factor, height, width, temporal, minPixels, maxPixels, h, w)
    requires var t := Max(temporal, 1);
      && 4 * minPixels <= maxPixels && 200 * (t * (factor * factor)) <= maxPixels
      && reach * reach * t >= 200 * minPixels && minPixels + t * (factor * (2 * reach + factor)) <= maxPixels
    ensures minPixels <= Budget(temporal, h, w) <= maxPixels
  {
    hide RoundFactor, SquareTimes, Clamped;
    var t, rounded := Max(temporal, 1), Rounded(factor, height, width, temporal);
    WithinBoundsIff(factor, height, width, temporal, minPixels, maxPixels, h, w);
    if rounded > maxPixels {
      if h == factor && w == factor {
      } else if h == factor {
        StripWithinAspect(factor, width, height, t, maxPixels, w);
      } else if w == factor {
        StripWithinAspect(factor, height, width, t, maxPixels, h);
        assert h * factor == factor * h;
      } else {
        AgainstLimit(h, w, t, height, width, maxPixels);
      }
    } else if rounded < minPixels {
      GrownWithinAspect(factor, height, width, t, minPixels, reach, h, w);
    }
  }

  /** The shipped image bounds are kept for every accepted shape. */
  lemma ImageDefaultsHold(height: nat, width: nat, h: nat, w: nat)
    requires height > 0 && width > 0 && Max(height, width) <= 200 * Min(height, width)
    requires Chosen(32, height, width, 1, 65536, 16777216, h, w)
    ensures 65536 <= Budget(1, h, w) <= 16777216
  {
    hide Chosen;
    SafeBounds(32, height, width, 1, 65536, 16777216, 3621, h, w);
  }

  /** The shipped video bounds are kept for every accepted shape of up to 122 frames. */
  lemma VideoDefaultsHold(height: nat, width: nat, frames: nat, h: nat, w: nat)
    requires height > 0 && width > 0 && Max(height, width) <= 200 * Min(height, width) && frames <= 122
    requires Chosen(32, height, width, frames, 4096, 25165824, h, w)
    ensures 4096 <= Budget(frames, h, w) <= 25165824
  {
    hide Chosen;
    SafeBounds(32, height, width, frames, 4096, 25165824, 906, h, w);
  }

  // ----- inputs on which the bounds fail -----

  /** Growing may overshoot: one pixel with a budget of 1 to 100 rounds to nothing and grows to a whole block. */
  lemma GrowthCanOvershoot(h: nat, w: nat)
    requires Chosen(32, 1, 1, 1, 1, 100, h, w)
    ensures Rounded(32, 1, 1, 1) < 1 && Budget(1, h, w) == 1024 > 100
  {
    assert RoundTiesEven(1.0 / 32.0) == 0;
    assert Chosen(32, 1, 1, 1, 1, 100, 32, 32);
    ChosenIsUnique(32, 1, 1, 1, 1, 100, h, w, 32, 32);
  }

  /** Shrinking a narrow strip may overshoot: its short side stays one block. */
  lemma StripCanOvershoot(h: nat, w: nat)
    requires Chosen(32, 32, 6400, 1, 0, 1000, h, w)
    ensures (h, w) == (32, 416) && Budget(1, h, w) == 13312 > 1000
  {
    assert RoundTiesEven(1.0) == 1 && RoundTiesEven(200.0) == 200;
    assert Chosen(32, 32, 6400, 1, 0, 1000, 32, 416);
    ChosenIsUnique(32, 32, 6400, 1, 0, 1000, h, w, 32, 416);
  }

  /** Shrinking a long video may overshoot the shipped bounds: both sides stay one block. */
  lemma LongVideoOvershoots(h: nat, w: nat)
    requires Chosen(32, 720, 1280, 100000, 4096, 25165824, h, w)
    ensures (h, w) == (32, 32) && Budget(100000, h, w) == 102400000 > 25165824
  {
    assert RoundTiesEven(22.5) == 22 && RoundTiesEven(40.0) == 40;
    assert Chosen(32, 720, 1280, 100000, 4096, 25165824, 32, 32);
    ChosenIsUnique(32, 720, 1280, 100000, 4096, 25165824, h, w, 32, 32);
  }

  /** Shrinking may undershoot bounds that are close together. */
  lemma ShrinkingCanUndershoot(h: nat, w: nat)
    requires Chosen(32, 63, 63, 1, 3969, 3969, h, w)
    ensures (h, w) == (32, 32) && Budget(1, h, w) == 1024 < 3969
  {
    assert RoundTiesEven(63.0 / 32.0) == 2;
    assert Chosen(32, 63, 63, 1, 3969, 3969, 32, 32);
    ChosenIsUnique(32, 63, 63, 1, 3969, 3969, h, w, 32, 32);
  }
}
