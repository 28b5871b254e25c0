/** src/primitives/attention.rs: masked scaled-dot-product attention and its chunked prefill form.
    One batch row is modelled; the head axis lives inside the vectors. Attention itself is an arbitrary
    function of a query and the sequence of keys and values it can see (the kernel); the section on
    softmax shows that additive masking makes the eager formula such a function. */
module Attention {
  import opened Prelude

  type Vec = seq<real>

  /** One cached position of one layer: its rotated key and its value. */
  datatype KV = KV(k: Vec, v: Vec)

  /** The attention output of one query over the keys it sees, in order. */
  type Kernel = (Vec, seq<KV>) -> Vec

  /** How attention is masked. `keep` holds one row per query, or a single row broadcast over them. */
  datatype AttnMask =
    | NoMask
    | Causal
    | Additive(keep: seq<seq<bool>>)

  const SDPA_MAX_FUSED_QLEN: nat := 8

  /** The shapes the kernel accepts for `qLen` queries over `kLen` keys. */
  predicate MaskFits(mask: AttnMask, qLen: nat, kLen: nat)
  {
    match mask
    case NoMask => true
    case Causal => qLen <= kLen
    case Additive(keep) =>
      (|keep| == qLen || |keep| == 1) && forall r :: 0 <= r < |keep| ==> |keep[r]| == kLen
  }

  /** The keys an additive mask row leaves visible, in order. */
  function Visible<T>(keys: seq<T>, keep: seq<bool>): (vis: seq<T>)
    requires |keep| == |keys|
    ensures |vis| <= |keys|
  {
    if keys == [] then []
    else (if keep[0] then [keys[0]] else []) + Visible(keys[1..], keep[1..])
  }

  /** The keys query row `r` of `qLen` attends. Causal queries are aligned to the end of the keys. */
  function VisibleTo(mask: AttnMask, kvs: seq<KV>, r: nat, qLen: nat): seq<KV>
    requires r < qLen && MaskFits(mask, qLen, |kvs|)
  {
    match mask
    case NoMask => kvs
    case Causal => kvs[..|kvs| - qLen + r + 1]
    case Additive(keep) => Visible(kvs, if |keep| == qLen then keep[r] else keep[0])
  }

  /** One correct attention call: the fused kernel's specification. */
  function Sdpa(kernel: Kernel, qs: seq<Vec>, kvs: seq<KV>, mask: AttnMask): (out: seq<Vec>)
    requires MaskFits(mask, |qs|, |kvs|)
    ensures |out| == |qs|
    ensures forall r :: 0 <= r < |qs| ==> out[r] == kernel(qs[r], VisibleTo(mask, kvs, r, |qs|))
  {
    seq(|qs|, r requires 0 <= r < |qs| => kernel(qs[r], VisibleTo(mask, kvs, r, |qs|)))
  }

  lemma CausalChunk(kernel: Kernel, qs: seq<Vec>, kvs: seq<KV>, c0: nat, c1: nat)
    requires c0 <= c1 <= |qs| <= |kvs|
    ensures Sdpa(kernel, qs[c0..c1], kvs[..|kvs| - |qs| + c1], Causal) == Sdpa(kernel, qs, kvs, Causal)[c0..c1]
  {
    var part := Sdpa(kernel, qs[c0..c1], kvs[..|kvs| - |qs| + c1], Causal);
    var whole := Sdpa(kernel, qs, kvs, Causal);
    forall r | 0 <= r < c1 - c0 ensures part[r] == whole[c0..c1][r] {
      var seen := |kvs| - |qs| + c0 + r + 1;
      assert kvs[..|kvs| - |qs| + c1][..seen] == kvs[..seen];
      assert VisibleTo(Causal, kvs[..|kvs| - |qs| + c1], r, c1 - c0) == kvs[..seen];
      assert VisibleTo(Causal, kvs, c0 + r, |qs|) == kvs[..seen];
      assert whole[c0..c1][r] == whole[c0 + r] == kernel(qs[c0 + r], kvs[..seen]);
    }
  }

  lemma NoMaskChunk(kernel: Kernel, qs: seq<Vec>, kvs: seq<KV>, c0: nat, c1: nat)
    requires c0 <= c1 <= |qs|
    ensures Sdpa(kernel, qs[c0..c1], kvs, NoMask) == Sdpa(kernel, qs, kvs, NoMask)[c0..c1]
  {
    var whole := Sdpa(kernel, qs, kvs, NoMask);
    forall r | 0 <= r < c1 - c0
      ensures Sdpa(kernel, qs[c0..c1], kvs, NoMask)[r] == whole[c0..c1][r]
    {
      assert VisibleTo(NoMask, kvs, r, c1 - c0) == VisibleTo(NoMask, kvs, c0 + r, |qs|);
      assert whole[c0..c1][r] == whole[c0 + r];
    }
  }

  lemma AdditiveChunk(kernel: Kernel, qs: seq<Vec>, kvs: seq<KV>, keep: seq<seq<bool>>, c0: nat, c1: nat)
    requires c0 < c1 <= |qs| && MaskFits(Additive(keep), |qs|, |kvs|)
    ensures var part := if |keep| == |qs| then keep[c0..c1] else keep;
      && MaskFits(Additive(part), c1 - c0, |kvs|)
      && Sdpa(kernel, qs[c0..c1], kvs, Additive(part)) == Sdpa(kernel, qs, kvs, Additive(keep))[c0..c1]
  {
    var part := if |keep| == |qs| then keep[c0..c1] else keep;
    var whole := Sdpa(kernel, qs, kvs, Additive(keep));
    forall r | 0 <= r < c1 - c0
      ensures Sdpa(kernel, qs[c0..c1], kvs, Additive(part))[r] == whole[c0..c1][r]
    {
      assert VisibleTo(Additive(part), kvs, r, c1 - c0) == VisibleTo(Additive(keep), kvs, c0 + r, |qs|);
      assert whole[c0..c1][r] == whole[c0 + r];
    }
  }

  /** The shapes on which the fused kernel is right: few query rows, a single head, or a head size it does not break
      on. */
  predicate FusedIsRight(qLen: nat, heads: nat, headDim: nat)
  {
    qLen <= 8 || heads < 2 || headDim < 64 || !IsPowerOfTwo(headDim)
  }

  predicate IsPowerOfTwo(n: nat)
    decreases n
  {
    n == 1 || (n > 1 && n % 2 == 0 && IsPowerOfTwo(n / 2))
  }

  lemma PowersOfTwo(n: nat)
    requires n <= 256
    ensures IsPowerOfTwo(n) <==>
      n == 1 || n == 2 || n == 4 || n == 8 || n == 16 || n == 32 || n == 64 || n == 128 || n == 256
  {
  }

  /** `sdpa_fused`: nothing is promised, so nothing may be asked, on the shapes the kernel gets wrong. */
  method SdpaFused(kernel: Kernel, heads: nat, headDim: nat, queries: seq<Vec>, kvs: seq<KV>, mask: AttnMask)
    returns (out: seq<Vec>)
    requires MaskFits(mask, |queries|, |kvs|) && FusedIsRight(|queries|, heads, headDim)
    ensures out == Sdpa(kernel, queries, kvs, mask)
  {
    out := Sdpa(kernel, queries, kvs, mask);
  }

  /** Splitting the queries into chunks of at most eight rows, each attending exactly its own key
      prefix, is one attention call over all of them. */
  method SdpaChunkedPrefill(kernel: Kernel, heads: nat, headDim: nat, queries: seq<Vec>, kvs: seq<KV>, mask: AttnMask)
    returns (out: seq<Vec>)
    requires MaskFits(mask, |queries|, |kvs|)
    ensures out == Sdpa(kernel, queries, kvs, mask)
  {
    var qLen, kLen := |queries|, |kvs|;
    out := [];
    var c0 := 0;
    while c0 < qLen
      invariant 0 <= c0 <= qLen && |out| == c0
      invariant out == Sdpa(kernel, queries, kvs, mask)[..c0]
    {
      var c1 := Min(c0 + SDPA_MAX_FUSED_QLEN, qLen);
      var chunk := queries[c0..c1];
      var part: seq<Vec>;
      match mask {
        case NoMask =>
          part := SdpaFused(kernel, heads, headDim, chunk, kvs, NoMask);
          NoMaskChunk(kernel, queries, kvs, c0, c1);
        case Causal =>
          var end := kLen - qLen + c1;
          part := SdpaFused(kernel, heads, headDim, chunk, kvs[..end], Causal);
          CausalChunk(kernel, queries, kvs, c0, c1);
        case Additive(keep) =>
          AdditiveChunk(kernel, queries, kvs, keep, c0, c1);
          if |keep| == qLen {
            part := SdpaFused(kernel, heads, headDim, chunk, kvs, Additive(keep[c0..c1]));
          } else {
            part := SdpaFused(kernel, heads, headDim, chunk, kvs, Additive(keep));
          }
      }
      assert part == Sdpa(kernel, queries, kvs, mask)[c0..c1];
      out := out + part;
      c0 := c1;
    }
  }

  /** The dispatch in `sdpa`: shapes that hit the broken kernel are chunked, all others are one call. */
  method SdpaDispatch(kernel: Kernel, heads: nat, headDim: nat, queries: seq<Vec>, kvs: seq<KV>, mask: AttnMask)
    returns (out: seq<Vec>)
    requires MaskFits(mask, |queries|, |kvs|)
    ensures out == Sdpa(kernel, queries, kvs, mask)
  {
    if |queries| > SDPA_MAX_FUSED_QLEN && heads >= 2 && headDim >= 64 && IsPowerOfTwo(headDim) {
      out := SdpaChunkedPrefill(kernel, heads, headDim, queries, kvs, mask);
    } else {
      out := SdpaFused(kernel, heads, headDim, queries, kvs, mask);
    }
  }

  /** The additive causal mask `causal_mask` builds, as mask rows. */
  function CausalKeep(qLen: nat, kLen: nat): seq<seq<bool>>
    requires qLen <= kLen
  {
    seq(qLen, r => seq(kLen, j => j <= kLen - qLen + r))
  }

  /** One query row: everything after column `last` is masked. */
  method MaskRow(data: array<bool>, start: nat, kLen: nat, last: nat)
    requires start + kLen <= data.Length && forall x :: start <= x < start + kLen ==> data[x]
    modifies data
    ensures forall x :: start <= x < start + kLen ==> data[x] == (x - start <= last)
    ensures forall x :: 0 <= x < data.Length && !(start <= x < start + kLen) ==> data[x] == old(data[x])
  {
    var j := 0;
    while j < kLen
      invariant 0 <= j <= kLen
      invariant forall x :: start <= x < start + j ==> data[x] == (x - start <= last)
      invariant forall x :: start + j <= x < start + kLen ==> data[x]
      invariant forall x :: 0 <= x < data.Length && !(start <= x < start + kLen) ==> data[x] == old(data[x])
    {
      if j > last {
        data[start + j] := false;
      }
      j := j + 1;
    }
  }

  /** The eager path's causal mask, one flat row-major buffer: `true` keeps, `false` blocks. */
  method CausalMask(qLen: nat, kLen: nat) returns (data: array<bool>)
    requires qLen <= kLen
    ensures fresh(data) && data[..] == Flatten(CausalKeep(qLen, kLen))
  {
    var offset := kLen - qLen;
    ghost var rows := CausalKeep(qLen, kLen);
    data := new bool[qLen * kLen](_ => true);
    var r := 0;
    while r < qLen
      invariant 0 <= r <= qLen
      invariant r * kLen <= data.Length == qLen * kLen
      invariant data[..r * kLen] == Flatten(rows[..r])
      invariant forall x :: r * kLen <= x < data.Length ==> data[x]
    {
      RowInBounds(r, qLen, kLen);
      ghost var start, before := r * kLen, data[..r * kLen];
      MaskRow(data, r * kLen, kLen, offset + r);
      assert data[..start] == before;
      assert data[start..start + kLen] == rows[r];
      FlattenSnoc(rows[..r], rows[r]);
      assert rows[..r + 1] == rows[..r] + [rows[r]];
      assert data[..start + kLen] == data[..start] + data[start..start + kLen];
      r := r + 1;
    }
    assert rows[..r] == rows;
    assert data[..] == data[..r * kLen];
  }

  lemma RowInBounds(r: nat, rows: nat, width: nat)
    requires r < rows
    ensures (r + 1) * width == r * width + width <= rows * width
  {
    assert (r + 1) * width <= rows * width;
  }

  /** A mask row that keeps exactly a window leaves that window visible. */
  lemma {:induction false} VisibleWindow<T>(keys: seq<T>, keep: seq<bool>, lo: nat, hi: nat)
    requires |keep| == |keys| && lo <= hi <= |keys|
    requires forall j :: 0 <= j < |keys| ==> (keep[j] <==> lo <= j < hi)
    ensures Visible(keys, keep) == keys[lo..hi]
    decreases |keys|
  {
    if keys != [] {
      if lo > 0 {
        VisibleWindow(keys[1..], keep[1..], lo - 1, hi - 1);
        assert keys[1..][lo - 1..hi - 1] == keys[lo..hi];
      } else if hi > 0 {
        VisibleWindow(keys[1..], keep[1..], 0, hi - 1);
        assert keys[lo..hi] == [keys[0]] + keys[1..][..hi - 1];
      } else {
        VisibleWindow(keys[1..], keep[1..], 0, 0);
      }
    }
  }

  /** `causal_mask` encodes the fused kernel's implicit causal convention: same visible keys, so the
      eager and the fused path attend alike. */
  lemma CausalMaskIsCausal(kernel: Kernel, qs: seq<Vec>, kvs: seq<KV>)
    requires |qs| <= |kvs| && qs != []
    ensures MaskFits(Additive(CausalKeep(|qs|, |kvs|)), |qs|, |kvs|)
    ensures Sdpa(kernel, qs, kvs, Additive(CausalKeep(|qs|, |kvs|))) == Sdpa(kernel, qs, kvs, Causal)
  {
    var keep := CausalKeep(|qs|, |kvs|);
    forall r | 0 <= r < |qs|
      ensures VisibleTo(Additive(keep), kvs, r, |qs|) == VisibleTo(Causal, kvs, r, |qs|)
    {
      VisibleWindow(kvs, keep[r], 0, |kvs| - |qs| + r + 1);
    }
  }

  // ----- the eager softmax formula -----

  /** Component `d` of `sum_j w_j * v_j`, where a blocked key has weight `exp(-inf) = 0`. */
  function WeightedSum(weight: (Vec, Vec) -> real, q: Vec, kvs: seq<KV>, keep: seq<bool>, d: nat): real
    requires |keep| == |kvs| && forall j :: 0 <= j < |kvs| ==> d < |kvs[j].v|
  {
    if kvs == [] then 0.0
    else (if keep[0] then weight(q, kvs[0].k) * kvs[0].v[d] else 0.0)
         + WeightedSum(weight, q, kvs[1..], keep[1..], d)
  }

  /** The softmax denominator over the same keys. */
  function WeightTotal(weight: (Vec, Vec) -> real, q: Vec, kvs: seq<KV>, keep: seq<bool>): real
    requires |keep| == |kvs|
  {
    if kvs == [] then 0.0
    else (if keep[0] then weight(q, kvs[0].k) else 0.0) + WeightTotal(weight, q, kvs[1..], keep[1..])
  }

  function KeepAll(n: nat): (keep: seq<bool>)
    ensures |keep| == n
  {
    seq(n, _ => true)
  }

  /** Blocked keys drop out: numerator and denominator are those of the unmasked formula over the
      visible keys only, for every score function. */
  lemma {:induction false} MaskedSoftmaxSeesOnlyVisible(
    weight: (Vec, Vec) -> real, q: Vec, kvs: seq<KV>, keep: seq<bool>, d: nat)
    requires |keep| == |kvs| && forall j :: 0 <= j < |kvs| ==> d < |kvs[j].v|
    ensures forall kv :: kv in Visible(kvs, keep) ==> d < |kv.v|
    ensures WeightedSum(weight, q, kvs, keep, d)
         == WeightedSum(weight, q, Visible(kvs, keep), KeepAll(|Visible(kvs, keep)|), d)
    ensures WeightTotal(weight, q, kvs, keep)
         == WeightTotal(weight, q, Visible(kvs, keep), KeepAll(|Visible(kvs, keep)|))
  {
    if kvs != [] {
      MaskedSoftmaxSeesOnlyVisible(weight, q, kvs[1..], keep[1..], d);
      var rest := Visible(kvs[1..], keep[1..]);
      if keep[0] {
        assert Visible(kvs, keep)[1..] == rest;
        assert KeepAll(|rest| + 1)[1..] == KeepAll(|rest|);
      } else {
        assert Visible(kvs, keep) == rest;
      }
    }
  }
}
