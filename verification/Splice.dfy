/** src/models/deepstack.rs (`splice_vision_features`, `add_visual_features`, the fused layer loop) and
    src/joycaption.rs (the gather-index splice): putting feature rows at placeholder positions. `T` is a row. */
module Splice {
  import opened Prelude

  /** How many of the first `p` positions are visual. */
  function Rank(mask: seq<bool>, p: nat): (n: nat)
    requires p <= |mask|
    ensures n <= p
  {
    if p == 0 then 0 else Rank(mask, p - 1) + (if mask[p - 1] then 1 else 0)
  }

  function MaskOf(ids: seq<int>, tokens: seq<int>): (mask: seq<bool>)
    ensures |mask| == |ids| && forall p :: 0 <= p < |ids| ==> mask[p] == (ids[p] in tokens)
  {
    seq(|ids|, p requires 0 <= p < |ids| => ids[p] in tokens)
  }

  lemma {:induction false} RankBelow(mask: seq<bool>, p: nat, q: nat)
    requires p <= q <= |mask|
    ensures Rank(mask, p) <= Rank(mask, q)
    ensures p < q && mask[p] ==> Rank(mask, p) < Rank(mask, q)
    ensures (forall k :: p <= k < q ==> mask[k]) ==> Rank(mask, q) == Rank(mask, p) + (q - p)
    ensures (forall k :: p <= k < q ==> !mask[k]) ==> Rank(mask, q) == Rank(mask, p)
  {
    if p < q {
      RankBelow(mask, p, q - 1);
    }
  }

  lemma RankBelowAll(mask: seq<bool>, p: nat)
    requires p < |mask|
    ensures mask[p] ==> Rank(mask, p) < Rank(mask, |mask|)
  {
    RankBelow(mask, p, |mask|);
  }

  /** The feature that belongs at visual position `p`. */
  function FeatureAt<T>(mask: seq<bool>, feats: seq<T>, p: nat): T
    requires p < |mask| && mask[p] && Rank(mask, |mask|) == |feats|
  {
    RankBelowAll(mask, p);
    feats[Rank(mask, p)]
  }

  /** Rows `[0, i)` of `out` are spliced: feature `Rank(p)` where the mask is set, the embedding elsewhere. */
  ghost predicate SplicedTo<T>(embeds: seq<T>, mask: seq<bool>, feats: seq<T>, out: seq<T>, i: nat)
    requires i <= |mask| == |embeds|
  {
    && |out| == i
    && Rank(mask, |mask|) == |feats|
    && forall p :: 0 <= p < i ==> out[p] == if mask[p] then FeatureAt(mask, feats, p) else embeds[p]
  }

  ghost predicate IsSpliced<T>(embeds: seq<T>, mask: seq<bool>, feats: seq<T>, out: seq<T>)
    requires |mask| == |embeds|
  {
    SplicedTo(embeds, mask, feats, out, |embeds|)
  }

  /** The rows of positions `i..j`, all visual or all not. */
  function Span<T>(embeds: seq<T>, mask: seq<bool>, feats: seq<T>, i: nat, j: nat): seq<T>
    requires i <= j <= |mask| == |embeds| && Rank(mask, |mask|) == |feats|
    requires i < j ==> forall k :: i <= k < j ==> mask[k] == mask[i]
  {
    RankBelow(mask, i, j);
    RankBelow(mask, j, |mask|);
    if i < j && mask[i] then feats[Rank(mask, i)..Rank(mask, j)] else embeds[i..j]
  }

  lemma ExtendSpan<T>(embeds: seq<T>, mask: seq<bool>, feats: seq<T>, out: seq<T>, i: nat, j: nat)
    requires i <= j <= |mask| == |embeds| && SplicedTo(embeds, mask, feats, out, i)
    requires i < j ==> forall k :: i <= k < j ==> mask[k] == mask[i]
    ensures SplicedTo(embeds, mask, feats, out + Span(embeds, mask, feats, i, j), j)
  {
    RankBelow(mask, i, j);
    RankBelow(mask, j, |mask|);
    var span := Span(embeds, mask, feats, i, j);
    var all := out + span;
    forall p | 0 <= p < j ensures all[p] == if mask[p] then FeatureAt(mask, feats, p) else embeds[p] {
      if p < i {
        assert all[p] == out[p];
      } else {
        RankBelow(mask, i, p);
        assert all[p] == span[p - i] && mask[p] == mask[i];
      }
    }
  }

  /** Replace every placeholder row by the next feature row, stitching whole spans. */
  method SpliceVisionFeatures<T>(embeds: seq<T>, ids: seq<int>, feats: seq<T>, tokens: seq<int>)
    returns (r: Result<seq<T>, Error>)
    requires |ids| == |embeds|
    ensures r.Ok? <==> Rank(MaskOf(ids, tokens), |ids|) == |feats|
    ensures r.Ok? ==> IsSpliced(embeds, MaskOf(ids, tokens), feats, r.value)
  {
    var s := |embeds|;
    var mask := MaskOf(ids, tokens);
    var numVis := Rank(mask, s);
    if numVis != |feats| {
      return Err(Msg("vlm splice: vision tokens and feature rows differ in number"));
    }
    if numVis == 0 {
      forall p | 0 <= p < s ensures !mask[p] {
        RankBelowAll(mask, p);
      }
      return Ok(embeds);
    }
    var pieces: seq<seq<T>> := [];
    var featOff, i := 0, 0;
    while i < s
      invariant 0 <= i <= s && featOff == Rank(mask, i)
      invariant SplicedTo(embeds, mask, feats, Flatten(pieces), i)
    {
      var vis := ids[i] in tokens;
      var j := i;
      while j < s && (ids[j] in tokens) == vis
        invariant i <= j <= s && (j == i ==> (ids[j] in tokens) == vis)
        invariant forall k :: i <= k < j ==> mask[k] == vis
        decreases s - j
      {
        j := j + 1;
      }
      var n := j - i;
      ExtendSpan(embeds, mask, feats, Flatten(pieces), i, j);
      RankBelow(mask, i, j);
      RankBelow(mask, j, s);
      var piece: seq<T>;
      if vis {
        piece := feats[featOff..featOff + n];
        featOff := featOff + n;
      } else {
        piece := embeds[i..j];
      }
      FlattenSnoc(pieces, piece);
      pieces := pieces + [piece];
      i := j;
    }
    r := Ok(Flatten(pieces));
  }

  // ----- the gather-index form -----

  function GatherEntry(mask: seq<bool>, nText: nat, p: nat): nat
    requires p < |mask|
  {
    if mask[p] then nText + Rank(mask, p) else p
  }

  /** Text position `p` keeps row `p`; the `k`-th image token takes appended row `nText + k`. */
  method ImageGatherIndex(ids: seq<int>, nVis: nat, nText: nat, token: int) returns (r: Result<seq<nat>, Error>)
    ensures r.Ok? <==> |ids| == nText && Rank(MaskOf(ids, [token]), |ids|) == nVis
    ensures r.Ok? ==>
      |r.value| == |ids| && forall p :: 0 <= p < |ids| ==> r.value[p] == GatherEntry(MaskOf(ids, [token]), nText, p)
  {
    if |ids| != nText {
      return Err(Msg("joycaption splice: ids length differs from embedding rows"));
    }
    var mask := MaskOf(ids, [token]);
    if Rank(mask, |ids|) != nVis {
      return Err(Msg("joycaption splice: image tokens and projected rows differ in number"));
    }
    var out: seq<nat>, vi := [], 0;
    for p := 0 to |ids|
      invariant |out| == p && vi == Rank(mask, p)
      invariant forall q :: 0 <= q < p ==> out[q] == GatherEntry(mask, nText, q)
    {
      assert mask[p] == (ids[p] == token);
      if ids[p] == token {
        out := out + [nText + vi];
        vi := vi + 1;
      } else {
        out := out + [p];
      }
    }
    r := Ok(out);
  }

  /** Gathering from the embeddings with the features appended is the same splice. */
  method SpliceByGather<T>(embeds: seq<T>, ids: seq<int>, feats: seq<T>, token: int)
    returns (r: Result<seq<T>, Error>)
    ensures r.Ok? <==> |ids| == |embeds| && Rank(MaskOf(ids, [token]), |ids|) == |feats|
    ensures r.Ok? ==> IsSpliced(embeds, MaskOf(ids, [token]), feats, r.value)
  {
    var gather := ImageGatherIndex(ids, |feats|, |embeds|, token);
    if gather.Err? {
      return Err(gather.error);
    }
    var idx, src, mask := gather.value, embeds + feats, MaskOf(ids, [token]);
    forall p | 0 <= p < |idx| ensures idx[p] < |src| {
      RankBelowAll(mask, p);
    }
    var out := seq(|idx|, p requires 0 <= p < |idx| && idx[p] < |src| => src[idx[p]]);
    forall p | 0 <= p < |out|
      ensures out[p] == if mask[p] then FeatureAt(mask, feats, p) else embeds[p]
    {
      RankBelowAll(mask, p);
    }
    r := Ok(out);
  }

  /** There is only one spliced sequence, so both forms agree wherever both apply. */
  lemma SpliceIsUnique<T>(embeds: seq<T>, mask: seq<bool>, feats: seq<T>, a: seq<T>, b: seq<T>)
    requires |mask| == |embeds| && IsSpliced(embeds, mask, feats, a) && IsSpliced(embeds, mask, feats, b)
    ensures a == b
  {
    assert forall p :: 0 <= p < |a| ==> a[p] == b[p];
  }

  // ----- DeepStack fusion -----

  ghost predicate IsFused<T>(plus: (T, T) -> T, h: seq<T>, mask: seq<bool>, visual: seq<T>, out: seq<T>, i: nat)
    requires i <= |mask| == |h|
  {
    && |out| == i
    && Rank(mask, |mask|) == |visual|
    && forall p :: 0 <= p < i ==> out[p] == if mask[p] then plus(h[p], FeatureAt(mask, visual, p)) else h[p]
  }

  function PlusRows<T>(plus: (T, T) -> T, a: seq<T>, b: seq<T>): (out: seq<T>)
    requires |a| == |b|
    ensures |out| == |a| && forall i :: 0 <= i < |a| ==> out[i] == plus(a[i], b[i])
  {
    seq(|a|, i requires 0 <= i < |a| => plus(a[i], b[i]))
  }

  /** Add feature row `Rank(p)` to every visual position, leave the others alone. */
  method AddVisualFeatures<T>(plus: (T, T) -> T, h: seq<T>, mask: seq<bool>, visual: seq<T>)
    returns (r: Result<seq<T>, Error>)
    ensures r.Ok? <==> |mask| == |h| && Rank(mask, |mask|) == |visual|
    ensures r.Ok? ==> IsFused(plus, h, mask, visual, r.value, |h|)
  {
    var s := |h|;
    if |mask| != s {
      return Err(Msg("deepstack mask length differs from sequence length"));
    }
    var numVisual := Rank(mask, s);
    if numVisual != |visual| {
      return Err(Msg("deepstack: visual positions and feature rows differ in number"));
    }
    if numVisual == 0 {
      forall p | 0 <= p < s ensures !mask[p] {
        RankBelowAll(mask, p);
      }
      return Ok(h);
    }
    var pieces: seq<seq<T>> := [];
    var visOff, i := 0, 0;
    while i < s
      invariant 0 <= i <= s && visOff == Rank(mask, i)
      invariant IsFused(plus, h, mask, visual, Flatten(pieces), i)
    {
      var isVis := mask[i];
      var j := i;
      while j < s && mask[j] == isVis
        invariant i <= j <= s && (j == i ==> mask[j] == isVis)
        invariant forall k :: i <= k < j ==> mask[k] == isVis
        decreases s - j
      {
        j := j + 1;
      }
      var n := j - i;
      var span := h[i..j];
      RankBelow(mask, i, j);
      RankBelow(mask, j, s);
      if isVis {
        span := PlusRows(plus, span, visual[visOff..visOff + n]);
        visOff := visOff + n;
      }
      FuseSpan(plus, h, mask, visual, Flatten(pieces), i, j, span);
      FlattenSnoc(pieces, span);
      pieces := pieces + [span];
      i := j;
    }
    r := Ok(Flatten(pieces));
  }

  lemma FuseSpan<T>(plus: (T, T) -> T, h: seq<T>, mask: seq<bool>, visual: seq<T>, out: seq<T>, i: nat, j: nat,
      span: seq<T>)
    requires i < j <= |mask| == |h| && IsFused(plus, h, mask, visual, out, i)
    requires forall k :: i <= k < j ==> mask[k] == mask[i]
    requires Rank(mask, i) <= Rank(mask, j) <= |visual|
    requires mask[i] ==> Rank(mask, j) == Rank(mask, i) + (j - i)
    requires span == if mask[i] then PlusRows(plus, h[i..j], visual[Rank(mask, i)..Rank(mask, j)]) else h[i..j]
    ensures IsFused(plus, h, mask, visual, out + span, j)
  {
    var all := out + span;
    forall p | 0 <= p < j ensures all[p] == if mask[p] then plus(h[p], FeatureAt(mask, visual, p)) else h[p] {
      if i <= p {
        RankBelow(mask, i, p);
        assert all[p] == span[p - i] && h[i..j][p - i] == h[p];
        if mask[i] {
          assert Rank(mask, p) == Rank(mask, i) + (p - i);
          assert visual[Rank(mask, i)..Rank(mask, j)][p - i] == visual[Rank(mask, p)];
        }
      } else {
        assert all[p] == out[p];
      }
    }
  }

  /** One fused layer: the layer alone once the taps have run out, else the layer with its own tap added. */
  ghost predicate FusedStep<T>(plus: (T, T) -> T, mask: seq<bool>, taps: seq<seq<T>>, layers: seq<seq<T> -> seq<T>>,
                               i: nat, h: seq<T>, next: seq<T>)
    requires i < |layers|
  {
    var out := layers[i](h);
    if i < |taps| then |mask| == |out| && IsFused(plus, out, mask, taps[i], next, |out|) else next == out
  }

  ghost predicate KeepsLength<T(!new)>(layer: seq<T> -> seq<T>) { forall h :: |layer(h)| == |h| }

  predicate TapFits<T>(h0: seq<T>, mask: seq<bool>, tap: seq<T>)
  {
    |mask| == |h0| && Rank(mask, |mask|) == |tap|
  }

  /** Some tap that would be added does not fit. */
  predicate TapMismatch<T>(h0: seq<T>, mask: seq<bool>, taps: seq<seq<T>>, numLayers: nat)
  {
    exists i :: 0 <= i < |taps| && i < numLayers && !TapFits(h0, mask, taps[i])
  }

  /** `deepstack_fused_decoder_layers`: the `i`-th tap is added right after the `i`-th layer. Refused exactly when a tap
      that is reached does not fit; without taps it is the plain stack. */
  method FusedDecoderLayers<T(!new)>(plus: (T, T) -> T, h0: seq<T>, mask: seq<bool>, taps: seq<seq<T>>,
                               layers: seq<seq<T> -> seq<T>>)
    returns (r: Result<seq<T>, Error>, ghost trace: seq<seq<T>>)
    requires forall i :: 0 <= i < |layers| ==> KeepsLength(layers[i])
    ensures r.Err? <==> TapMismatch(h0, mask, taps, |layers|)
    ensures r.Ok? ==>
      && |trace| == |layers| + 1 && trace[0] == h0 && trace[|layers|] == r.value
      && forall i :: 0 <= i < |layers| ==> FusedStep(plus, mask, taps, layers, i, trace[i], trace[i + 1])
  {
    hide IsFused;
    var h := h0;
    trace := [h0];
    for i := 0 to |layers|
      invariant |trace| == i + 1 && trace[0] == h0 && trace[i] == h && |h| == |h0|
      invariant forall k :: 0 <= k < i ==> FusedStep(plus, mask, taps, layers, k, trace[k], trace[k + 1])
      invariant forall k :: 0 <= k < i && k < |taps| ==> TapFits(h0, mask, taps[k])
    {
      ghost var before := h;
      assert KeepsLength(layers[i]) && |layers[i](h)| == |h|;
      h := layers[i](h);
      assert |h| == |h0|;
      if i < |taps| {
        var fused := AddVisualFeatures(plus, h, mask, taps[i]);
        if fused.Err? {
          return fused, trace;
        }
        assert TapFits(h0, mask, taps[i]);
        FusedLength(plus, h, mask, taps[i], fused.value);
        h := fused.value;
      }
      trace := trace + [h];
      assert FusedStep(plus, mask, taps, layers, i, before, h);
    }
    r := Ok(h);
  }

  lemma FusedLength<T>(plus: (T, T) -> T, h: seq<T>, mask: seq<bool>, visual: seq<T>, out: seq<T>)
    requires |mask| == |h| && IsFused(plus, h, mask, visual, out, |h|)
    ensures |out| == |h|
  {
  }

  /** Fusion and splice put the same feature at the same place: fusing onto rows that are zero exactly at the visual
      positions is the splice. */
  lemma FusionMatchesSplice<T>(plus: (T, T) -> T, zero: T, embeds: seq<T>, blank: seq<T>, mask: seq<bool>,
                               feats: seq<T>, fused: seq<T>)
    requires forall x :: plus(zero, x) == x
    requires |mask| == |embeds| == |blank|
    requires forall p :: 0 <= p < |mask| ==> blank[p] == if mask[p] then zero else embeds[p]
    requires IsFused(plus, blank, mask, feats, fused, |blank|)
    ensures IsSpliced(embeds, mask, feats, fused)
  {
    assert forall p :: 0 <= p < |fused| ==> fused[p] == if mask[p] then FeatureAt(mask, feats, p) else embeds[p];
  }
}
