/** src/models/llama.rs and src/models/qwen35.rs, the sparse mixture-of-experts feed-forward: routing inverted into
    per-expert token lists, and the direct sum it stands for. Exact arithmetic over the reals. */
module Moe {
  import opened Prelude
  import opened Attention

  /** The smallest positive normal single-precision number, `f32::MIN_POSITIVE`. */
  const MIN_POSITIVE: real := 1.0 / 85070591730234615865843651857942052864.0

  /** The layer: the router's row of one token, the experts, the always-on shared branch (gated or not), the
      exponential, and the library sort of expert indices by falling probability (ties in an order of its own). */
  datatype MoeMlp = MoeMlp(
    router: Vec -> seq<real>,
    experts: seq<Vec -> Vec>,
    shared: Vec -> Vec,
    expf: real -> real,
    sort: seq<real> -> seq<nat>,
    expertsPerTok: nat,
    normTopkProb: bool,
    routedScalingFactor: real)

  ghost predicate WellFormed(moe: MoeMlp)
  {
    && moe.experts != []
    && (forall x :: |moe.router(x)| == |moe.experts|)
    && (forall x :: moe.expf(x) > 0.0)
    && forall probs :: SortsDown(probs, moe.sort(probs))
  }

  // ----- router probabilities -----

  function SumSeq(xs: seq<real>): real
  {
    if xs == [] then 0.0 else xs[0] + SumSeq(xs[1..])
  }

  function MaxOf(xs: seq<real>): (m: real)
    requires xs != []
    ensures m in xs && forall i :: 0 <= i < |xs| ==> xs[i] <= m
  {
    if |xs| == 1 then xs[0]
    else
      var m := MaxOf(xs[1..]);
      assert forall i :: 1 <= i < |xs| ==> xs[i] == xs[1..][i - 1];
      if xs[0] >= m then xs[0] else m
  }

  function Exps(expf: real -> real, row: seq<real>, m: real): (out: seq<real>)
    ensures |out| == |row| && forall i :: 0 <= i < |row| ==> out[i] == expf(row[i] - m)
  {
    seq(|row|, i requires 0 <= i < |row| => expf(row[i] - m))
  }

  /** The stabilised softmax of one router row. */
  function Softmax(expf: real -> real, row: seq<real>): (probs: seq<real>)
    requires row != [] && forall x :: expf(x) > 0.0
    ensures |probs| == |row|
  {
    var exps := Exps(expf, row, MaxOf(row));
    SumPositive(exps);
    var sum := SumSeq(exps);
    seq(|row|, i requires 0 <= i < |row| => exps[i] / sum)
  }

  lemma {:induction false} SumPositive(xs: seq<real>)
    requires forall i :: 0 <= i < |xs| ==> xs[i] > 0.0
    ensures xs != [] ==> SumSeq(xs) > 0.0
    ensures SumSeq(xs) >= 0.0
  {
    if xs != [] {
      SumPositive(xs[1..]);
    }
  }

  lemma {:induction false} SumScaled(xs: seq<real>, ys: seq<real>, c: real)
    requires |ys| == |xs| && c != 0.0 && forall i :: 0 <= i < |xs| ==> ys[i] == xs[i] / c
    ensures SumSeq(ys) == SumSeq(xs) / c
  {
    if xs != [] {
      SumScaled(xs[1..], ys[1..], c);
      assert xs[0] / c + SumSeq(xs[1..]) / c == (xs[0] + SumSeq(xs[1..])) / c;
    }
  }

  /** Router probabilities are positive and sum to one. */
  lemma SoftmaxIsDistribution(expf: real -> real, row: seq<real>)
    requires row != [] && forall x :: expf(x) > 0.0
    ensures SumSeq(Softmax(expf, row)) == 1.0
    ensures forall i :: 0 <= i < |row| ==> Softmax(expf, row)[i] > 0.0
  {
    var exps := Exps(expf, row, MaxOf(row));
    SumPositive(exps);
    SumScaled(exps, Softmax(expf, row), SumSeq(exps));
    assert SumSeq(exps) / SumSeq(exps) == 1.0;
    forall i | 0 <= i < |row| ensures Softmax(expf, row)[i] > 0.0 {
      DivPositive(exps[i], SumSeq(exps));
    }
  }

  lemma DivPositive(a: real, b: real)
    requires a > 0.0 && b > 0.0
    ensures a / b > 0.0
  {
  }

  /** What the exponential is known for. */
  ghost predicate Exponential(expf: real -> real)
  {
    && (forall x :: expf(x) > 0.0)
    && (forall x, y :: Times(expf(x), expf(y)) == expf(x + y))
    && forall x, y :: x <= y ==> expf(x) <= expf(y)
  }

  function Times(a: real, b: real): real { a * b }

  /** The plain exponentials of a row, without the shift by its maximum. */
  function PlainExps(expf: real -> real, row: seq<real>): (out: seq<real>)
    ensures |out| == |row| && forall i :: 0 <= i < |row| ==> out[i] == expf(row[i])
  {
    seq(|row|, i requires 0 <= i < |row| => expf(row[i]))
  }

  /** The shift by the maximum cancels: each probability is its exponential's share of the plain exponentials. */
  lemma ShiftCancels(expf: real -> real, row: seq<real>, i: nat)
    requires row != [] && Exponential(expf) && i < |row|
    ensures Times(Softmax(expf, row)[i], SumSeq(PlainExps(expf, row))) == expf(row[i])
  {
    var m := MaxOf(row);
    var exps, plain := Exps(expf, row, m), PlainExps(expf, row);
    SumPositive(exps);
    hide Times, SumSeq;
    forall j | 0 <= j < |row| ensures plain[j] == Times(exps[j], expf(m)) {
      assert row[j] - m + m == row[j];
    }
    SumTimes(exps, plain, expf(m));
    ShareOf(exps[i], SumSeq(exps), expf(m));
  }

  /** A larger score never has the smaller probability. */
  lemma SoftmaxKeepsOrder(expf: real -> real, row: seq<real>, i: nat, j: nat)
    requires row != [] && Exponential(expf) && i < |row| && j < |row| && row[i] <= row[j]
    ensures Softmax(expf, row)[i] <= Softmax(expf, row)[j]
  {
    OrderedExps(expf, row, MaxOf(row), i, j);
    SoftmaxOrder(expf, row, i, j);
  }

  lemma OrderedExps(expf: real -> real, row: seq<real>, m: real, i: nat, j: nat)
    requires Exponential(expf) && i < |row| && j < |row| && row[i] <= row[j]
    ensures Exps(expf, row, m)[i] <= Exps(expf, row, m)[j]
  {
    hide Times;
  }

  lemma SoftmaxOrder(expf: real -> real, row: seq<real>, i: nat, j: nat)
    requires row != [] && i < |row| && j < |row| && forall x :: expf(x) > 0.0
    requires Exps(expf, row, MaxOf(row))[i] <= Exps(expf, row, MaxOf(row))[j]
    ensures Softmax(expf, row)[i] <= Softmax(expf, row)[j]
  {
    var exps := Exps(expf, row, MaxOf(row));
    SumPositive(exps);
    hide SumSeq, Exps, MaxOf;
    DivMonotone(exps[i], exps[j], SumSeq(exps));
  }

  lemma ShareOf(e: real, sum: real, c: real)
    requires sum > 0.0
    ensures Times(e / sum, Times(sum, c)) == Times(e, c)
  {
    assert e / sum * sum == e;
    assert e / sum * (sum * c) == (e / sum * sum) * c;
  }

  lemma {:induction false} SumTimes(xs: seq<real>, ys: seq<real>, c: real)
    requires |ys| == |xs| && forall i :: 0 <= i < |xs| ==> ys[i] == Times(xs[i], c)
    ensures SumSeq(ys) == Times(SumSeq(xs), c)
  {
    if xs != [] {
      SumTimes(xs[1..], ys[1..], c);
    }
  }

  // ----- top-k -----

  /** A permutation of `0..n`. */
  predicate Permutes(idx: seq<nat>, n: nat)
  {
    && |idx| == n
    && (forall i :: 0 <= i < n ==> idx[i] < n)
    && forall i, j :: 0 <= i < j < n ==> idx[i] != idx[j]
  }

  /** `idx` is a permutation of the indices of `probs`, by falling probability. */
  predicate SortsDown(probs: seq<real>, idx: seq<nat>)
  {
    && Permutes(idx, |probs|)
    && forall i, j :: 0 <= i < j < |idx| ==> probs[idx[i]] >= probs[idx[j]]
  }

  /** A token's experts: `k` distinct ones, none less probable than one left out. */
  predicate TopK(probs: seq<real>, k: nat, top: seq<nat>)
  {
    && |top| == k
    && (forall i :: 0 <= i < k ==> top[i] < |probs|)
    && (forall i, j :: 0 <= i < j < k ==> top[i] != top[j])
    && forall i, e :: 0 <= i < k && 0 <= e < |probs| && e !in top ==> probs[top[i]] >= probs[e]
  }

  lemma {:induction false} PermutationCovers(idx: seq<nat>, n: nat, e: nat)
    requires Permutes(idx, n) && e < n
    ensures e in idx
  {
    if e !in idx {
      var s := set i | 0 <= i < n :: idx[i];
      var all := Range(n);
      SeqSetSize(idx);
      assert s <= all - {e};
      SubsetSize(s, all - {e});
    }
  }

  lemma {:induction false} SeqSetSize(idx: seq<nat>)
    requires forall i, j :: 0 <= i < j < |idx| ==> idx[i] != idx[j]
    ensures |set i | 0 <= i < |idx| :: idx[i]| == |idx|
  {
    if idx != [] {
      var front := idx[..|idx| - 1];
      SeqSetSize(front);
      var a, b := set i | 0 <= i < |idx| :: idx[i], set i | 0 <= i < |front| :: front[i];
      assert a == b + {idx[|idx| - 1]};
    }
  }

  function Range(n: nat): (s: set<nat>)
    ensures |s| == n && forall x: nat :: x in s <==> x < n
  {
    if n == 0 then {} else Range(n - 1) + {n - 1}
  }

  lemma {:induction false} SubsetSize(a: set<nat>, b: set<nat>)
    requires a <= b
    ensures |a| <= |b|
  {
    assert b == a + (b - a);
  }

  /** The first `k` of a sorted permutation are a top-k choice. */
  lemma SortedPrefixIsTopK(probs: seq<real>, idx: seq<nat>, k: nat)
    requires SortsDown(probs, idx) && k <= |probs|
    ensures TopK(probs, k, idx[..k])
  {
    forall i, e: nat | 0 <= i < k && e < |probs| && e !in idx[..k] ensures probs[idx[i]] >= probs[e] {
      PermutationCovers(idx, |probs|, e);
      InSuffix(idx, k, e);
      var j :| 0 <= j < |idx[k..]| && idx[k..][j] == e;
      assert idx[k + j] == e;
    }
  }

  lemma InSuffix(idx: seq<nat>, k: nat, e: nat)
    requires k <= |idx| && e in idx && e !in idx[..k]
    ensures e in idx[k..]
  {
    assert idx == idx[..k] + idx[k..];
  }

  // ----- weights -----

  function Prob(probs: seq<real>, e: nat): real { if e < |probs| then probs[e] else 0.0 }

  function Pick(probs: seq<real>, top: seq<nat>): (out: seq<real>)
    ensures |out| == |top| && forall i :: 0 <= i < |top| ==> out[i] == Prob(probs, top[i])
  {
    seq(|top|, i requires 0 <= i < |top| => Prob(probs, top[i]))
  }

  function MaxReal(a: real, b: real): real { if a >= b then a else b }

  function Denominator(moe: MoeMlp, probs: seq<real>, top: seq<nat>): (d: real)
    ensures d > 0.0
  {
    if moe.normTopkProb then MaxReal(SumSeq(Pick(probs, top)), MIN_POSITIVE) else 1.0
  }

  function PostScale(moe: MoeMlp): real { if moe.normTopkProb then 1.0 else moe.routedScalingFactor }

  /** The weight of expert `e` for a token: renormalised over the token's experts, or scaled. */
  function Weight(moe: MoeMlp, probs: seq<real>, top: seq<nat>, e: nat): real
  {
    Prob(probs, e) / Denominator(moe, probs, top) * PostScale(moe)
  }

  function Weights(moe: MoeMlp, probs: seq<real>, top: seq<nat>): (out: seq<real>)
    ensures |out| == |top| && forall i :: 0 <= i < |top| ==> out[i] == Weight(moe, probs, top, top[i])
  {
    seq(|top|, i requires 0 <= i < |top| => Weight(moe, probs, top, top[i]))
  }

  lemma {:induction false} SumBound(xs: seq<real>, m: real)
    requires forall i :: 0 <= i < |xs| ==> xs[i] <= m
    ensures SumSeq(xs) <= m * (|xs| as real)
  {
    if xs != [] {
      SumBound(xs[1..], m);
      assert m * (|xs| as real) == m + m * ((|xs| - 1) as real);
    }
  }

  lemma {:induction false} SumAtLeast(xs: seq<real>, i: nat)
    requires i < |xs| && forall j :: 0 <= j < |xs| ==> xs[j] >= 0.0
    ensures SumSeq(xs) >= xs[i]
  {
    if i > 0 {
      SumAtLeast(xs[1..], i - 1);
    } else {
      NonNegative(xs[1..]);
    }
  }

  lemma {:induction false} NonNegative(xs: seq<real>)
    requires forall j :: 0 <= j < |xs| ==> xs[j] >= 0.0
    ensures SumSeq(xs) >= 0.0
  {
    if xs != [] {
      NonNegative(xs[1..]);
    }
  }

  /** The chosen probabilities never vanish: a token's best expert is among its choices, and holds at least its
      share. */
  lemma TopKKeepsAShare(probs: seq<real>, k: nat, top: seq<nat>)
    requires probs != [] && TopK(probs, k, top) && k >= 1 && SumSeq(probs) == 1.0
    requires forall i :: 0 <= i < |probs| ==> probs[i] > 0.0
    ensures SumSeq(Pick(probs, top)) * (|probs| as real) >= 1.0
  {
    hide SumSeq, TopK;
    var m := MaxOf(probs);
    SumBound(probs, m);
    var i := BestIsChosen(probs, k, top, m);
    SumAtLeast(Pick(probs, top), i);
    ScaleUp(m, SumSeq(Pick(probs, top)), |probs| as real);
  }

  lemma BestIsChosen(probs: seq<real>, k: nat, top: seq<nat>, m: real) returns (i: nat)
    requires TopK(probs, k, top) && k >= 1 && m in probs && forall e :: 0 <= e < |probs| ==> probs[e] <= m
    ensures i < |top| && top[i] < |probs| && probs[top[i]] == m
  {
    var best :| 0 <= best < |probs| && probs[best] == m;
    if best in top {
      i :| 0 <= i < k && top[i] == best;
    } else {
      i := 0;
      assert probs[top[0]] >= probs[best];
    }
  }

  lemma ScaleUp(a: real, b: real, c: real)
    requires a <= b && c >= 0.0
    ensures a * c <= b * c
  {
  }

  /** Renormalised weights sum to exactly one for every router row, whatever the choice among ties, for any number of
      experts up to 2^126; the `MIN_POSITIVE` guard never bites there. */
  lemma NormalisedWeightsSumToOne(expf: real -> real, moe: MoeMlp, row: seq<real>, k: nat, top: seq<nat>)
    requires row != [] && forall x :: expf(x) > 0.0
    requires moe.normTopkProb && k >= 1 && TopK(Softmax(expf, row), k, top)
    requires |row| <= 85070591730234615865843651857942052864
    ensures SumSeq(Weights(moe, Softmax(expf, row), top)) == 1.0
  {
    var probs := Softmax(expf, row);
    SoftmaxIsDistribution(expf, row);
    TopKKeepsAShare(probs, k, top);
    NormalisedSum(moe, probs, k, top);
  }

  /** Each weight: a chosen expert's share of the chosen probabilities, or its probability times the routing factor. */
  lemma WeightIs(expf: real -> real, moe: MoeMlp, row: seq<real>, k: nat, top: seq<nat>, i: nat)
    requires row != [] && forall x :: expf(x) > 0.0
    requires k >= 1 && TopK(Softmax(expf, row), k, top) && i < k
    requires |row| <= 85070591730234615865843651857942052864
    ensures var probs, w := Softmax(expf, row), Weights(moe, Softmax(expf, row), top);
      && (moe.normTopkProb ==> Times(w[i], SumSeq(Pick(probs, top))) == probs[top[i]])
      && (!moe.normTopkProb ==> w[i] == Times(probs[top[i]], moe.routedScalingFactor))
  {
    var probs := Softmax(expf, row);
    SoftmaxIsDistribution(expf, row);
    TopKKeepsAShare(probs, k, top);
    ShareAboveFloor(probs, top);
    hide *;
    WeightFrom(moe, probs, top, i);
  }

  lemma ShareAboveFloor(probs: seq<real>, top: seq<nat>)
    requires 0 < |probs| <= 85070591730234615865843651857942052864
    requires SumSeq(Pick(probs, top)) * (|probs| as real) >= 1.0
    ensures SumSeq(Pick(probs, top)) >= MIN_POSITIVE
  {
    hide SumSeq, Pick;
    AboveFloor(SumSeq(Pick(probs, top)), |probs| as real, 85070591730234615865843651857942052864.0);
  }

  lemma WeightFrom(moe: MoeMlp, probs: seq<real>, top: seq<nat>, i: nat)
    requires i < |top| && top[i] < |probs| && SumSeq(Pick(probs, top)) >= MIN_POSITIVE
    ensures var w := Weights(moe, probs, top);
      && (moe.normTopkProb ==> Times(w[i], SumSeq(Pick(probs, top))) == probs[top[i]])
      && (!moe.normTopkProb ==> w[i] == Times(probs[top[i]], moe.routedScalingFactor))
  {
    hide SumSeq, Pick, Times;
    if moe.normTopkProb {
      ShareBack(probs[top[i]], SumSeq(Pick(probs, top)));
    } else {
      Scaled(probs[top[i]], moe.routedScalingFactor);
    }
  }

  lemma ShareBack(p: real, s: real)
    requires s > 0.0
    ensures Times(p / s * 1.0, s) == p
  {
    assert p / s * s == p;
  }

  lemma Scaled(p: real, f: real)
    ensures p / 1.0 * f == Times(p, f)
  {
  }

  lemma NormalisedSum(moe: MoeMlp, probs: seq<real>, k: nat, top: seq<nat>)
    requires moe.normTopkProb && TopK(probs, k, top)
    requires 0 < |probs| <= 85070591730234615865843651857942052864
    requires SumSeq(Pick(probs, top)) * (|probs| as real) >= 1.0
    ensures SumSeq(Weights(moe, probs, top)) == 1.0
  {
    hide SumSeq, Pick, TopK;
    var s := SumSeq(Pick(probs, top));
    AboveFloor(s, |probs| as real, 85070591730234615865843651857942052864.0);
    assert Denominator(moe, probs, top) == s;
    SumScaled(Pick(probs, top), Weights(moe, probs, top), s);
  }

  lemma AboveFloor(s: real, n: real, b: real)
    requires s * n >= 1.0 && 0.0 < n <= b
    ensures s >= 1.0 / b
  {
    PositiveFactor(s, n);
    assert s * b >= s * n by {
      ScaleUp(n, b, s);
    }
    assert s == s * b / b;
    DivMonotone(1.0, s * b, b);
  }

  lemma PositiveFactor(s: real, n: real)
    requires s * n >= 1.0 && 0.0 < n
    ensures s > 0.0
  {
    if s <= 0.0 {
      ScaleUp(s, 0.0, n);
    }
  }

  lemma DivMonotone(x: real, y: real, b: real)
    requires x <= y && b > 0.0
    ensures x / b <= y / b
  {
  }

  // ----- vectors -----

  function VAdd(a: Vec, b: Vec): (out: Vec)
    ensures |out| == |a|
    ensures forall i :: 0 <= i < |a| ==> out[i] == a[i] + (if i < |b| then b[i] else 0.0)
  {
    seq(|a|, i requires 0 <= i < |a| => a[i] + (if i < |b| then b[i] else 0.0))
  }

  function VScale(v: Vec, w: real): (out: Vec)
    ensures |out| == |v| && forall i :: 0 <= i < |v| ==> out[i] == v[i] * w
  {
    seq(|v|, i requires 0 <= i < |v| => v[i] * w)
  }

  function Zeros(h: nat): (out: Vec)
    ensures |out| == h && forall i :: 0 <= i < h ==> out[i] == 0.0
  {
    seq(h, _ => 0.0)
  }

  lemma AddCommutes(a: Vec, b: Vec, c: Vec)
    ensures VAdd(VAdd(a, b), c) == VAdd(VAdd(a, c), b)
  {
  }

  // ----- the direct sum and its order-independence -----

  /** Adding the contributions of a list of experts, in list order. */
  function Accumulate(contribution: nat -> Vec, acc: Vec, experts: seq<nat>): Vec
  {
    if experts == [] then acc
    else VAdd(Accumulate(contribution, acc, experts[..|experts| - 1]), contribution(experts[|experts| - 1]))
  }

  lemma {:induction false} AccumulateMoveLast(contribution: nat -> Vec, acc: Vec, experts: seq<nat>, i: nat)
    requires i < |experts|
    ensures Accumulate(contribution, acc, experts)
         == VAdd(Accumulate(contribution, acc, experts[..i] + experts[i + 1..]), contribution(experts[i]))
    decreases |experts|
  {
    var n := |experts| - 1;
    if i == n {
      assert experts[..i] + experts[i + 1..] == experts[..n];
    } else {
      var front := experts[..n];
      AccumulateMoveLast(contribution, acc, front, i);
      var without := experts[..i] + experts[i + 1..];
      assert without[..|without| - 1] == front[..i] + front[i + 1..];
      assert without[|without| - 1] == experts[n];
      AddCommutes(Accumulate(contribution, acc, front[..i] + front[i + 1..]), contribution(experts[i]),
        contribution(experts[n]));
    }
  }

  predicate NoRepeats(s: seq<nat>)
  {
    forall i, j :: 0 <= i < j < |s| ==> s[i] != s[j]
  }

  lemma EmptyHasNone(a: seq<nat>, b: seq<nat>)
    requires a == [] && b != []
    ensures exists e: nat :: e in b && e !in a
  {
    assert b[0] in b;
  }

  /** Any two orders of the same experts add up to the same vector. */
  lemma {:induction false} AccumulateAnyOrder(contribution: nat -> Vec, acc: Vec, a: seq<nat>, b: seq<nat>)
    requires NoRepeats(a) && NoRepeats(b) && forall e: nat :: e in a <==> e in b
    ensures Accumulate(contribution, acc, a) == Accumulate(contribution, acc, b)
    decreases |a|
  {
    if a == [] {
      assert b == [] by {
        if b != [] {
          EmptyHasNone(a, b);
        }
      }
    } else {
      var last := a[|a| - 1];
      assert last in a;
      var j :| 0 <= j < |b| && b[j] == last;
      var a', b' := a[..|a| - 1], b[..j] + b[j + 1..];
      forall e: nat ensures e in a' <==> e in b' {
        if e in a' {
          var i :| 0 <= i < |a'| && a'[i] == e;
          assert e in b;
          var x :| 0 <= x < |b| && b[x] == e;
          assert x != j;
          assert b'[if x < j then x else x - 1] == e;
        }
        if e in b' {
          var x :| 0 <= x < |b'| && b'[x] == e;
          assert b[if x < j then x else x + 1] == e;
          assert e in a;
          var i :| 0 <= i < |a| && a[i] == e;
          assert i != |a| - 1;
          assert a'[i] == e;
        }
      }
      AccumulateAnyOrder(contribution, acc, a', b');
      AccumulateMoveLast(contribution, acc, b, j);
    }
  }

  /** What one expert contributes to one token. */
  function Contribution(moe: MoeMlp, x: Vec, probs: seq<real>, top: seq<nat>): nat -> Vec
  {
    (e: nat) => if e < |moe.experts| then VScale(moe.experts[e](x), Weight(moe, probs, top, e)) else []
  }

  /** The weighted sum over the token's own experts: what the layer means. */
  function DirectSum(moe: MoeMlp, x: Vec, probs: seq<real>, top: seq<nat>): Vec
  {
    Accumulate(Contribution(moe, x, probs, top), Zeros(|x|), top)
  }

  // ----- inverted routing -----

  /** One token's routing: its probabilities and its experts. */
  datatype Route = Route(probs: seq<real>, top: seq<nat>)

  /** How many experts a token uses: the configured count, at most all and at least one. */
  function TopCount(moe: MoeMlp): (k: nat)
    ensures k >= 1 && (1 <= moe.expertsPerTok <= |moe.experts| ==> k == moe.expertsPerTok)
    ensures moe.experts != [] ==> k <= |moe.experts| && (moe.expertsPerTok > |moe.experts| ==> k == |moe.experts|)
  {
    Max(Min(moe.expertsPerTok, |moe.experts|), 1)
  }

  predicate ValidRoute(moe: MoeMlp, r: Route)
  {
    |r.probs| == |moe.experts| && TopK(r.probs, TopCount(moe), r.top)
  }

  /** The list of expert `e` after the first `n` tokens: the tokens that chose it, in order, with their weights. */
  function RoutedTo(moe: MoeMlp, routes: seq<Route>, e: nat, n: nat): seq<(nat, real)>
    requires n <= |routes|

  {
    if n == 0 then []
    else
      var r := routes[n - 1];
      RoutedTo(moe, routes, e, n - 1)
      + (if e in r.top then [(n - 1, Weight(moe, r.probs, r.top, e))] else [])
  }

  /** Every entry is a token below `n` that chose `e`, with its weight. */
  predicate ListSound(moe: MoeMlp, routes: seq<Route>, e: nat, n: nat, list: seq<(nat, real)>)
    requires n <= |routes|
  {
    forall i :: 0 <= i < |list| ==>
      && list[i].0 < n
      && e in routes[list[i].0].top
      && list[i].1 == Weight(moe, routes[list[i].0].probs, routes[list[i].0].top, e)
  }

  predicate Ascending(list: seq<(nat, real)>)
  {
    forall i, j :: 0 <= i < j < |list| ==> list[i].0 < list[j].0
  }

  predicate Lists(list: seq<(nat, real)>, t: nat) { exists i :: 0 <= i < |list| && list[i].0 == t }

  /** What it means for `list` to be expert `e`'s share of the first `n` tokens: exactly the tokens that chose it, each
      once, in order, with the right weight. */
  predicate ExpertList(moe: MoeMlp, routes: seq<Route>, e: nat, n: nat, list: seq<(nat, real)>)
    requires n <= |routes|
  {
    && ListSound(moe, routes, e, n, list)
    && Ascending(list)
    && forall t: nat :: t < n && e in routes[t].top ==> Lists(list, t)
  }

  /** A token is in an expert's list exactly if it chose that expert, exactly once, with that weight. */
  lemma {:induction false} RoutedIff(moe: MoeMlp, routes: seq<Route>, e: nat, n: nat)
    requires n <= |routes|
    ensures ExpertList(moe, routes, e, n, RoutedTo(moe, routes, e, n))
  {
    if n > 0 {
      RoutedIff(moe, routes, e, n - 1);
      var front := RoutedTo(moe, routes, e, n - 1);
      if e in routes[n - 1].top {
        AppendToken(moe, routes, e, n, front);
      } else {
        forall t: nat | t < n && e in routes[t].top ensures Lists(front, t) {
          assert t < n - 1;
        }
        assert RoutedTo(moe, routes, e, n) == front;
      }
    }
  }

  lemma AppendToken(moe: MoeMlp, routes: seq<Route>, e: nat, n: nat, front: seq<(nat, real)>)
    requires 0 < n <= |routes| && e in routes[n - 1].top && ExpertList(moe, routes, e, n - 1, front)
    ensures ExpertList(moe, routes, e, n,
              front + [(n - 1, Weight(moe, routes[n - 1].probs, routes[n - 1].top, e))])
  {
    hide Weight;
    var list := front + [(n - 1, Weight(moe, routes[n - 1].probs, routes[n - 1].top, e))];
    forall t: nat | t < n && e in routes[t].top ensures Lists(list, t) {
      if t == n - 1 {
        assert list[|front|].0 == t;
      } else {
        assert Lists(front, t);
        var i :| 0 <= i < |front| && front[i].0 == t;
        assert list[i].0 == t;
      }
    }
  }

  /** Total length of the first `m` expert lists. */
  function TotalRouted(moe: MoeMlp, routes: seq<Route>, n: nat, m: nat): nat
    requires n <= |routes| && m <= |moe.experts|

  {
    if m == 0 then 0 else TotalRouted(moe, routes, n, m - 1) + |RoutedTo(moe, routes, m - 1, n)|
  }

  function CountIn(top: seq<nat>, m: nat): nat
  {
    if m == 0 then 0 else CountIn(top, m - 1) + (if m - 1 in top then 1 else 0)
  }

  lemma {:induction false} TotalStep(moe: MoeMlp, routes: seq<Route>, n: nat, m: nat)
    requires 0 < n <= |routes| && m <= |moe.experts|
    ensures TotalRouted(moe, routes, n, m) == TotalRouted(moe, routes, n - 1, m) + CountIn(routes[n - 1].top, m)
  {
    if m > 0 {
      TotalStep(moe, routes, n, m - 1);
    }
  }

  lemma {:induction false} CountIsSize(top: seq<nat>, m: nat)
    ensures CountIn(top, m) == |set e: nat | e < m && e in top|
  {
    if m > 0 {
      CountIsSize(top, m - 1);
      var s := set e: nat | e < m && e in top;
      var s' := set e: nat | e < m - 1 && e in top;
      assert s == if m - 1 in top then s' + {m - 1} else s';
    } else {
      assert (set e: nat | e < 0 && e in top) == {};
    }
  }

  /** Conservation: every token is in exactly `k` lists, so the lists' lengths add up to tokens times `k`. */
  lemma {:induction false} ListLengthsSum(moe: MoeMlp, routes: seq<Route>, n: nat)
    requires n <= |routes|
    requires forall i :: 0 <= i < |routes| ==> ValidRoute(moe, routes[i])
    ensures TotalRouted(moe, routes, n, |moe.experts|) == n * TopCount(moe)
  {
    var m := |moe.experts|;
    if n == 0 {
      NothingRouted(moe, routes, m);
    } else {
      ListLengthsSum(moe, routes, n - 1);
      TotalStep(moe, routes, n, m);
      var top := routes[n - 1].top;
      CountIsSize(top, m);
      SeqSetSize(top);
      assert (set e: nat | e < m && e in top) == (set i | 0 <= i < |top| :: top[i]);
      var k := TopCount(moe);
      assert n * k == (n - 1) * k + k;
    }
  }

  lemma {:induction false} NothingRouted(moe: MoeMlp, routes: seq<Route>, m: nat)
    requires m <= |moe.experts|
    ensures TotalRouted(moe, routes, 0, m) == 0
  {
    if m > 0 {
      NothingRouted(moe, routes, m - 1);
    }
  }

  // ----- the layer -----

  /** How one token is routed. */
  function RouteOf(moe: MoeMlp, x: Vec): (r: Route)
    requires WellFormed(moe)
  {
    assert moe.router(x) != [];
    var probs := Softmax(moe.expf, moe.router(x));
    assert SortsDown(probs, moe.sort(probs));
    Route(probs, moe.sort(probs)[..TopCount(moe)])
  }

  lemma RouteIsValid(moe: MoeMlp, x: Vec)
    requires WellFormed(moe)
    ensures ValidRoute(moe, RouteOf(moe, x))
  {
    assert moe.router(x) != [];
    var probs := Softmax(moe.expf, moe.router(x));
    assert SortsDown(probs, moe.sort(probs));
    SortedPrefixIsTopK(probs, moe.sort(probs), TopCount(moe));
  }

  /** The members of `top` in the order in which `order` meets them. */
  function ChosenAlong(order: seq<nat>, top: seq<nat>): seq<nat>
  {
    if order == [] then []
    else
      var last := order[|order| - 1];
      ChosenAlong(order[..|order| - 1], top) + (if last in top then [last] else [])
  }

  lemma {:induction false} ChosenAlongMembers(order: seq<nat>, top: seq<nat>)
    requires NoRepeats(order)
    ensures NoRepeats(ChosenAlong(order, top))
    ensures forall e: nat :: e in ChosenAlong(order, top) <==> e in order && e in top
  {
    if order != [] {
      var front := order[..|order| - 1];
      ChosenAlongMembers(front, top);
      assert order == front + [order[|order| - 1]];
      assert order[|order| - 1] !in front;
    }
  }

  /** Visiting the experts in any order, and adding up those a token chose, gives the token's direct sum. */
  lemma AnyExpertOrder(moe: MoeMlp, x: Vec, r: Route, order: seq<nat>)
    requires ValidRoute(moe, r) && Permutes(order, |moe.experts|)
    ensures Accumulate(Contribution(moe, x, r.probs, r.top), Zeros(|x|), ChosenAlong(order, r.top))
         == DirectSum(moe, x, r.probs, r.top)
  {
    ChosenAlongMembers(order, r.top);
    forall e: nat | e in r.top ensures e in order {
      var i :| 0 <= i < |r.top| && r.top[i] == e;
      PermutationCovers(order, |moe.experts|, e);
    }
    AccumulateAnyOrder(Contribution(moe, x, r.probs, r.top), Zeros(|x|), ChosenAlong(order, r.top), r.top);
  }

  function Upto(n: nat): (s: seq<nat>)
    ensures Permutes(s, n) && forall i :: 0 <= i < n ==> s[i] == i
  {
    seq(n, i requires 0 <= i < n => i)
  }

  function Routes(moe: MoeMlp, xs: seq<Vec>): (routes: seq<Route>)
    requires WellFormed(moe)
    ensures |routes| == |xs| && forall t :: 0 <= t < |xs| ==> routes[t] == RouteOf(moe, xs[t])
  {
    seq(|xs|, t requires 0 <= t < |xs| => RouteOf(moe, xs[t]))
  }

  /** Invert the per-token choices into per-expert lists. */
  method Invert(moe: MoeMlp, xs: seq<Vec>) returns (routed: seq<seq<(nat, real)>>)
    requires WellFormed(moe)
    ensures |routed| == |moe.experts|
    ensures forall e :: 0 <= e < |routed| ==> ExpertList(moe, Routes(moe, xs), e, |xs|, routed[e])
    ensures forall e :: 0 <= e < |routed| ==> routed[e] == RoutedTo(moe, Routes(moe, xs), e, |xs|)
  {
    hide Weight, RouteOf, WellFormed, TopK;
    ghost var routes := Routes(moe, xs);
    routed := seq(|moe.experts|, _ => []);
    for ti := 0 to |xs|
      invariant |routed| == |moe.experts|
      invariant forall e :: 0 <= e < |routed| ==> routed[e] == RoutedTo(moe, routes, e, ti)
    {
      var r := RouteOf(moe, xs[ti]);
      RouteIsValid(moe, xs[ti]);
      InRange(r.probs, TopCount(moe), r.top);
      ghost var before := routed;
      for j := 0 to |r.top|
        invariant |routed| == |moe.experts|
        invariant forall e :: 0 <= e < |routed| ==>
          routed[e] == before[e] + (if e in r.top[..j] then [(ti, Weight(moe, r.probs, r.top, e))] else [])
      {
        var e := r.top[j];
        assert r.top[..j + 1] == r.top[..j] + [e];
        assert e !in r.top[..j];
        routed := routed[e := routed[e] + [(ti, Weight(moe, r.probs, r.top, e))]];
      }
      assert r.top[..|r.top|] == r.top;
    }
    forall e | 0 <= e < |routed| ensures ExpertList(moe, routes, e, |xs|, routed[e]) {
      RoutedIff(moe, routes, e, |xs|);
    }
  }

  lemma InRange(probs: seq<real>, k: nat, top: seq<nat>)
    requires TopK(probs, k, top)
    ensures NoRepeats(top) && forall i :: 0 <= i < |top| ==> top[i] < |probs|
  {
  }

  /** Token `t`'s running sum once expert `e` has been added for the tokens below `done`. */
  function WithExpert(moe: MoeMlp, x: Vec, r: Route, e: nat, before: Vec, added: bool): Vec
  {
    if added && e in r.top then VAdd(before, Contribution(moe, x, r.probs, r.top)(e)) else before
  }

  /** Run one expert on its gathered tokens and scatter the weighted rows back. */
  method AddExpert(moe: MoeMlp, xs: seq<Vec>, routes: seq<Route>, e: nat, toks: seq<(nat, real)>, before: seq<Vec>)
    returns (out: seq<Vec>)
    requires e < |moe.experts| && |routes| == |xs| == |before|
    requires ExpertList(moe, routes, e, |xs|, toks)
    ensures |out| == |xs|
    ensures forall t :: 0 <= t < |xs| ==> out[t] == WithExpert(moe, xs[t], routes[t], e, before[t], true)
  {
    hide Weight;
    var xe := seq(|toks|, i requires 0 <= i < |toks| && toks[i].0 < |xs| => xs[toks[i].0]);
    var ye := seq(|toks|, i requires 0 <= i < |toks| => VScale(moe.experts[e](xe[i]), toks[i].1));
    out := before;
    ghost var done := 0;
    for i := 0 to |toks|
      invariant |out| == |xs| && 0 <= done <= |xs| && done == if i == 0 then 0 else toks[i - 1].0 + 1
      invariant forall t :: 0 <= t < |xs| ==> out[t] == WithExpert(moe, xs[t], routes[t], e, before[t], t < done)
    {
      var t := toks[i].0;
      forall u | done <= u < t ensures e !in routes[u].top {
        NotSkipped(moe, routes, e, |xs|, toks, i, u);
      }
      out := out[t := VAdd(out[t], ye[i])];
      done := t + 1;
    }
    forall u | done <= u < |xs| ensures e !in routes[u].top {
      NotSkipped(moe, routes, e, |xs|, toks, |toks|, u);
    }
  }

  /** No token between two neighbours of an expert's list chose that expert. */
  lemma NotSkipped(moe: MoeMlp, routes: seq<Route>, e: nat, n: nat, toks: seq<(nat, real)>, i: nat, u: nat)
    requires n <= |routes| && e < |moe.experts| && ExpertList(moe, routes, e, n, toks)
    requires i <= |toks| && u < n && (i > 0 ==> toks[i - 1].0 < u) && (i < |toks| ==> u < toks[i].0)
    ensures e !in routes[u].top
  {
    hide Weight;
    forall j | 0 <= j < |toks| ensures toks[j].0 != u {
      if j < i {
        assert toks[j].0 <= toks[i - 1].0;
      } else {
        assert toks[i].0 <= toks[j].0;
      }
    }
  }

  /** The whole feed-forward: each token gets the weighted sum over its own experts plus the shared branch. */
  method Forward(moe: MoeMlp, xs: seq<Vec>) returns (out: seq<Vec>)
    requires WellFormed(moe)
    ensures |out| == |xs|
    ensures forall t :: 0 <= t < |xs| ==>
      var r := RouteOf(moe, xs[t]);
      out[t] == VAdd(DirectSum(moe, xs[t], r.probs, r.top), moe.shared(xs[t]))
  {
    hide Weight, RouteOf, WellFormed, ExpertList, RoutedTo;
    var routed := Invert(moe, xs);
    ghost var routes := Routes(moe, xs);
    out := seq(|xs|, t requires 0 <= t < |xs| => Zeros(|xs[t]|));
    for e := 0 to |routed|
      invariant |out| == |xs|
      invariant forall t :: 0 <= t < |xs| ==> out[t] == PartialSum(moe, xs[t], routes[t], e)
    {
      ghost var before := out;
      if routed[e] != [] {
        out := AddExpert(moe, xs, Routes(moe, xs), e, routed[e], out);
      } else {
        forall t | 0 <= t < |xs| ensures e !in routes[t].top {
          NotSkipped(moe, routes, e, |xs|, routed[e], 0, t);
        }
      }
      forall t | 0 <= t < |xs| ensures out[t] == PartialSum(moe, xs[t], routes[t], e + 1) {
        PartialSumStep(moe, xs[t], routes[t], e);
      }
    }
    forall t | 0 <= t < |xs|
      ensures out[t] == DirectSum(moe, xs[t], RouteOf(moe, xs[t]).probs, RouteOf(moe, xs[t]).top)
    {
      RouteIsValid(moe, xs[t]);
      AnyExpertOrder(moe, xs[t], routes[t], Upto(|moe.experts|));
    }
    out := seq(|xs|, t requires 0 <= t < |xs| && |out| == |xs| => VAdd(out[t], moe.shared(xs[t])));
  }

  /** A token's sum over the experts below `e`. */
  function PartialSum(moe: MoeMlp, x: Vec, r: Route, e: nat): Vec
  {
    Accumulate(Contribution(moe, x, r.probs, r.top), Zeros(|x|), ChosenAlong(Upto(e), r.top))
  }

  lemma PartialSumStep(moe: MoeMlp, x: Vec, r: Route, e: nat)
    ensures PartialSum(moe, x, r, e + 1) == WithExpert(moe, x, r, e, PartialSum(moe, x, r, e), true)
  {
    assert Upto(e + 1)[..e] == Upto(e);
    var chosen := ChosenAlong(Upto(e), r.top);
    assert ChosenAlong(Upto(e + 1), r.top) == chosen + (if e in r.top then [e] else []);
    if e in r.top {
      assert (chosen + [e])[..|chosen|] == chosen;
      var c := Contribution(moe, x, r.probs, r.top);
      assert Accumulate(c, Zeros(|x|), chosen + [e]) == VAdd(Accumulate(c, Zeros(|x|), chosen), c(e));
    } else {
      assert chosen + [] == chosen;
    }
  }
}
