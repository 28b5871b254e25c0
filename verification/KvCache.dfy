/** src/primitives/kv_cache.rs: the growing-concat cache. A slot is `[batch][position]`; the head axis is
    inside the keys and values. */
module KvCache {
  import opened Prelude
  import opened Attention

  /** Every layer's slot: nothing yet, or the cached positions of each batch row. */
  type Slots = seq<Option<seq<seq<KV>>>>

  /** The slot is a rectangular tensor of `b` rows by `n` positions (`None` counts as width 0). */
  predicate SlotShaped(slot: Option<seq<seq<KV>>>, b: nat, n: nat)
  {
    match slot
    case None => n == 0
    case Some(rows) => |rows| == b && forall r :: 0 <= r < b ==> |rows[r]| == n
  }

  /** All layers advance in lockstep. */
  predicate Shaped(slots: Slots, b: nat, n: nat)
  {
    forall l :: 0 <= l < |slots| ==> SlotShaped(slots[l], b, n)
  }

  /** What one layer caches for batch row `r`. */
  function SlotRow(slot: Option<seq<seq<KV>>>, r: nat): seq<KV>
  {
    if slot.Some? && r < |slot.value| then slot.value[r] else []
  }

  /** The per-layer view of one batch row. */
  function Row(slots: Slots, r: nat): (view: seq<seq<KV>>)
    ensures |view| == |slots|
    ensures forall l :: 0 <= l < |slots| ==> view[l] == SlotRow(slots[l], r)
  {
    seq(|slots|, l requires 0 <= l < |slots| => SlotRow(slots[l], r))
  }

  /** Every row gathered by its index along the batch axis. */
  function Gather<T>(rows: seq<T>, keep: seq<nat>): (out: seq<T>)
    requires forall i :: 0 <= i < |keep| ==> keep[i] < |rows|
    ensures |out| == |keep|
    ensures forall i :: 0 <= i < |keep| ==> out[i] == rows[keep[i]]
  {
    seq(|keep|, i requires 0 <= i < |keep| => rows[keep[i]])
  }

  /** Every row cut to its first `len` positions. */
  function CutRows(rows: seq<seq<KV>>, len: nat): (out: seq<seq<KV>>)
    ensures |out| == |rows|
    ensures forall r :: 0 <= r < |rows| ==> out[r] == rows[r][..Min(len, |rows[r]|)]
  {
    seq(|rows|, r requires 0 <= r < |rows| => rows[r][..Min(len, |rows[r]|)])
  }

  /** Every slot cut to its first `len` positions. */
  function Truncated(slots: Slots, len: nat): (out: Slots)
    ensures |out| == |slots|
    ensures forall l :: 0 <= l < |slots| ==>
      out[l] == (if slots[l].Some? then Some(CutRows(slots[l].value, len)) else None)
  {
    seq(|slots|, l requires 0 <= l < |slots| =>
      if slots[l].Some? then Some(CutRows(slots[l].value, len)) else None)
  }

  class ContiguousKvCache {
    var layers: Slots

    constructor (numLayers: nat)
      ensures |layers| == numLayers && forall l :: 0 <= l < numLayers ==> layers[l] == None
    {
      layers := seq(numLayers, _ => None);
    }

    /** Pre-populated with one sequence's per-layer keys and values. */
    constructor Seeded(view: seq<seq<KV>>)
      ensures |layers| == |view| && forall l :: 0 <= l < |view| ==> layers[l] == Some([view[l]])
    {
      layers := seq(|view|, l requires 0 <= l < |view| => Some([view[l]]));
    }

    /** Positions cached so far, inferred from layer 0: the RoPE offset of the next step. */
    function Offset(): nat
      reads this
    {
      if layers != [] && layers[0].Some? && layers[0].value != [] then |layers[0].value[0]| else 0
    }

    /** Append this step's keys and values to `layer` and return everything to attend over. */
    method Update(layer: nat, step: seq<seq<KV>>) returns (all: seq<seq<KV>>)
      requires layer < |layers|
      requires layers[layer].Some? ==> |layers[layer].value| == |step|
      modifies this
      ensures layers == old(layers)[layer := Some(all)]
      ensures |all| == |step|
      ensures forall r :: 0 <= r < |step| ==> all[r] == SlotRow(old(layers[layer]), r) + step[r]
    {
      match layers[layer] {
        case Some(prior) =>
          all := seq(|step|, r requires 0 <= r < |step| && |prior| == |step| => prior[r] + step[r]);
        case None =>
          all := step;
      }
      layers := layers[layer := Some(all)];
    }

    /** Compact the batch to the rows in `keep`, in that order. */
    method RetainSequences(keep: seq<nat>)
      requires forall l, i :: 0 <= l < |layers| && layers[l].Some? && 0 <= i < |keep| ==>
        keep[i] < |layers[l].value|
      modifies this
      ensures |layers| == old(|layers|)
      ensures forall l :: 0 <= l < |layers| ==>
        && (layers[l].Some? <==> old(layers)[l].Some?)
        && (layers[l].Some? ==> layers[l].value == Gather(old(layers)[l].value, keep))
    {
      ghost var before := layers;
      var l := 0;
      while l < |layers|
        invariant 0 <= l <= |layers| == |before|
        invariant layers[l..] == before[l..]
        invariant forall i :: 0 <= i < l ==>
          && (layers[i].Some? <==> before[i].Some?)
          && (layers[i].Some? ==> layers[i].value == Gather(before[i].value, keep))
      {
        assert layers[l] == layers[l..][0] == before[l];
        if layers[l].Some? {
          layers := layers[l := Some(Gather(layers[l].value, keep))];
        }
        l := l + 1;
      }
    }

    /** Drop cached positions past `len`. */
    method Truncate(len: int) returns (res: Result<(), Error>)
      requires exists b: nat, n: nat :: Shaped(layers, b, n)
      modifies this
      ensures len < 0 ==> res.Err? && layers == old(layers)
      ensures len >= 0 ==> res.Ok? && layers == Truncated(old(layers), len)
    {
      if len < 0 {
        return Err(Msg("truncate: negative len"));
      }
      ghost var before := layers;
      ghost var b: nat, n: nat :| Shaped(before, b, n);
      var l := 0;
      while l < |layers|
        invariant 0 <= l <= |layers| == |before|
        invariant layers[..l] == Truncated(before, len)[..l]
        invariant layers[l..] == before[l..]
      {
        assert layers[l] == layers[l..][0] == before[l];
        match layers[l] {
          case None =>
          case Some(rows) =>
            if rows != [] && |rows[0]| > len {
              layers := layers[l := Some(CutRows(rows, len))];
            } else {
              assert SlotShaped(before[l], b, n);
              forall r | 0 <= r < |rows| ensures CutRows(rows, len)[r] == rows[r] {
                assert |rows[r]| == |rows[0]|;
              }
              assert CutRows(rows, len) == rows;
            }
        }
        assert layers[l] == Truncated(before, len)[l];
        l := l + 1;
      }
      res := Ok(());
    }

    method Reset()
      modifies this
      ensures |layers| == old(|layers|) && forall l :: 0 <= l < |layers| ==> layers[l] == None
    {
      layers := seq(|layers|, _ => None);
    }

    /** A snapshot of every layer, or `None` if any layer is still empty. */
    function Export(): (view: Option<seq<seq<seq<KV>>>>)
      reads this
      ensures view.Some? <==> forall l :: 0 <= l < |layers| ==> layers[l].Some?
      ensures view.Some? ==> |view.value| == |layers|
      ensures view.Some? ==> forall l :: 0 <= l < |layers| ==> layers[l] == Some(view.value[l])
    {
      if forall l :: 0 <= l < |layers| ==> layers[l].Some?
      then Some(seq(|layers|, l requires 0 <= l < |layers| && layers[l].Some? reads this => layers[l].value))
      else None
    }
  }

}
