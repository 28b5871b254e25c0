/** src/primitives/paged_kv_cache.rs: one sequence's keys and values in fixed-size blocks of a pool that many
    sequences share. A block is immutable once it carries data, so sequences with a common prefix point at
    the same blocks; what a cache has not offered for sharing it keeps once, contiguously, in `frozen`. */
module PagedKv {
  import opened Arith
  import opened Attention
  import KvCache
  import opened Prelude

  /** One block: per layer, the keys and values of `blockSize` positions. No layers at all: not materialised,
      its data lives in the owner's `frozen`. */
  datatype PhysBlock = PhysBlock(layers: seq<seq<KV>>)

  type Blocks = seq<Option<PhysBlock>>

  // ----- blocks as values -----

  predicate LiveBlock(blocks: Blocks, id: nat)
  {
    id < |blocks| && blocks[id].Some?
  }

  predicate Materialized(blocks: Blocks, id: nat)
  {
    LiveBlock(blocks, id) && blocks[id].value.layers != []
  }

  /** LiveBlock blocks without data. */
  predicate Unfilled(blocks: Blocks, ids: seq<nat>)
  {
    forall b :: 0 <= b < |ids| ==> LiveBlock(blocks, ids[b]) && !Materialized(blocks, ids[b])
  }

  /** A block is live exactly while it is held, and only a materialised block is held twice. */
  ghost predicate Counted(blocks: Blocks, held: multiset<nat>)
  {
    && (forall id :: id in held <==> LiveBlock(blocks, id))
    && (forall id :: id in held && !Materialized(blocks, id) ==> held[id] == 1)
  }

  predicate FullBlock(block: PhysBlock, numLayers: nat, blockSize: nat)
  {
    |block.layers| == numLayers && forall l :: 0 <= l < numLayers ==> |block.layers[l]| == blockSize
  }

  /** Every block of a table is live, and full once it is materialised. */
  predicate TableShaped(blocks: Blocks, ids: seq<nat>, numLayers: nat, blockSize: nat)
  {
    forall b :: 0 <= b < |ids| ==>
      && LiveBlock(blocks, ids[b])
      && (Materialized(blocks, ids[b]) ==> FullBlock(blocks[ids[b]].value, numLayers, blockSize))
  }

  predicate AllMaterialized(blocks: Blocks, ids: seq<nat>)
  {
    forall b :: 0 <= b < |ids| ==> Materialized(blocks, ids[b])
  }

  /** The blocks of a table joined in table order: what `layer` caches in them. */
  function Joined(blocks: Blocks, ids: seq<nat>, layer: nat, numLayers: nat, blockSize: nat): (out: seq<KV>)
    requires TableShaped(blocks, ids, numLayers, blockSize) && AllMaterialized(blocks, ids)
    requires layer < numLayers
    ensures |out| == Times(|ids|, blockSize)
  {
    if ids == [] then [] else
      var front := ids[..|ids| - 1];
      TimesSnoc(|front|, blockSize);
      assert Materialized(blocks, ids[|ids| - 1]);
      Joined(blocks, front, layer, numLayers, blockSize) + blocks[ids[|ids| - 1]].value.layers[layer]
  }

  /** Block `b` of a run of whole blocks. */
  function Chunk(run: seq<KV>, b: nat, blockSize: nat): (out: seq<KV>)
    requires Times(b + 1, blockSize) <= |run|
    ensures |out| == blockSize
  {
    TimesSnoc(b, blockSize);
    run[Times(b, blockSize)..Times(b + 1, blockSize)]
  }

  lemma CutSplits(x: nat, d: nat)
    requires d > 0
    ensures x == Times(Quot(x, d), d) + Rem(x, d) && Rem(x, d) < d
  {
  }

  lemma TimesSum(a: nat, b: nat, d: nat)
    ensures Times(a + b, d) == Times(a, d) + Times(b, d)
  {
  }

  /** Cutting the join back into blocks gives the blocks. */
  lemma {:induction false} ChunkOfJoined(blocks: Blocks, ids: seq<nat>, layer: nat, numLayers: nat, blockSize: nat,
      b: nat)
    requires TableShaped(blocks, ids, numLayers, blockSize) && AllMaterialized(blocks, ids)
    requires layer < numLayers && b < |ids|
    ensures Times(b + 1, blockSize) <= Times(|ids|, blockSize)
    ensures Chunk(Joined(blocks, ids, layer, numLayers, blockSize), b, blockSize) == blocks[ids[b]].value.layers[layer]
  {
    hide Times;
    TimesBelow(b + 1, |ids|, blockSize);
    var front := ids[..|ids| - 1];
    TimesSnoc(|front|, blockSize);
    TimesSnoc(b, blockSize);
    if b < |front| {
      ChunkOfJoined(blocks, front, layer, numLayers, blockSize, b);
    }
  }

  /** A materialised block at place `b` repeats its slice of the run. */
  predicate ChunkAgrees(blocks: Blocks, id: nat, run: seq<KV>, layer: nat, b: nat, blockSize: nat)
  {
    Materialized(blocks, id) ==>
      && layer < |blocks[id].value.layers|
      && Times(b + 1, blockSize) <= |run|
      && blocks[id].value.layers[layer] == Chunk(run, b, blockSize)
  }

  /** The frozen half of a layer agrees with the table: either it is still to be built, from blocks that all
      carry data, or it holds every block and each materialised block repeats its slice of it. */
  predicate FrozenAgrees(blocks: Blocks, ids: seq<nat>, frozen: Option<seq<KV>>, layer: nat, blockSize: nat)
  {
    match frozen
    case None => AllMaterialized(blocks, ids)
    case Some(run) =>
      && |run| == Times(|ids|, blockSize)
      && forall b :: 0 <= b < |ids| ==> ChunkAgrees(blocks, ids[b], run, layer, b, blockSize)
  }

  /** Building the missing half from the table agrees with the table. */
  lemma JoinedAgrees(blocks: Blocks, ids: seq<nat>, layer: nat, numLayers: nat, blockSize: nat)
    requires TableShaped(blocks, ids, numLayers, blockSize) && AllMaterialized(blocks, ids)
    requires layer < numLayers
    ensures FrozenAgrees(blocks, ids, Some(Joined(blocks, ids, layer, numLayers, blockSize)), layer, blockSize)
  {
    var run := Joined(blocks, ids, layer, numLayers, blockSize);
    forall b | 0 <= b < |ids| ensures ChunkAgrees(blocks, ids[b], run, layer, b, blockSize) {
      hide Times, Chunk, Joined;
      ChunkOfJoined(blocks, ids, layer, numLayers, blockSize, b);
    }
  }

  /** What the frozen half stands for, built or not. */
  function FrozenKv(blocks: Blocks, ids: seq<nat>, frozen: Option<seq<KV>>, layer: nat, numLayers: nat,
      blockSize: nat): (out: seq<KV>)
    requires TableShaped(blocks, ids, numLayers, blockSize) && layer < numLayers
    requires FrozenAgrees(blocks, ids, frozen, layer, blockSize)
    ensures |out| == Times(|ids|, blockSize)
  {
    match frozen
    case None => Joined(blocks, ids, layer, numLayers, blockSize)
    case Some(run) => run
  }

  /** Cutting the join of the first blocks out of the whole run. */
  lemma {:induction false} JoinedIsPrefix(blocks: Blocks, ids: seq<nat>, n: nat, run: seq<KV>, layer: nat,
      numLayers: nat, blockSize: nat)
    requires n <= |ids| && layer < numLayers
    requires TableShaped(blocks, ids, numLayers, blockSize) && AllMaterialized(blocks, ids[..n])
    requires FrozenAgrees(blocks, ids, Some(run), layer, blockSize)
    ensures Times(n, blockSize) <= |run|
    ensures Joined(blocks, ids[..n], layer, numLayers, blockSize) == run[..Times(n, blockSize)]
  {
    hide Times;
    TimesBelow(n, |ids|, blockSize);
    if n == 0 {
      TimesSnoc(0, blockSize);
    } else {
      TimesSnoc(n - 1, blockSize);
      assert ids[..n][..n - 1] == ids[..n - 1];
      assert Materialized(blocks, ids[..n][n - 1]);
      forall b | 0 <= b < n - 1 ensures Materialized(blocks, ids[b]) {
        assert Materialized(blocks, ids[..n][b]);
      }
      assert AllMaterialized(blocks, ids[..n - 1]);
      JoinedIsPrefix(blocks, ids, n - 1, run, layer, numLayers, blockSize);
      assert ChunkAgrees(blocks, ids[n - 1], run, layer, n - 1, blockSize);
    }
  }

  /** Newly frozen blocks, not materialised, behind the ones already there. */
  lemma ExtendedAgrees(before: Blocks, after: Blocks, ids: seq<nat>, more: seq<nat>, run: seq<KV>, head: seq<KV>,
      layer: nat, blockSize: nat)
    requires FrozenAgrees(before, ids, Some(run), layer, blockSize)
    requires forall b :: 0 <= b < |ids| ==> ids[b] < |before| && ids[b] < |after| && after[ids[b]] == before[ids[b]]
    requires forall b :: 0 <= b < |more| ==> !Materialized(after, more[b])
    requires |head| == Times(|more|, blockSize)
    ensures FrozenAgrees(after, ids + more, Some(run + head), layer, blockSize)
  {
    TimesSum(|ids|, |more|, blockSize);
    forall b | 0 <= b < |ids + more| ensures ChunkAgrees(after, (ids + more)[b], run + head, layer, b, blockSize) {
      hide Times;
      if b < |ids| {
        assert ChunkAgrees(before, ids[b], run, layer, b, blockSize);
        if Materialized(before, ids[b]) {
          TimesSnoc(b, blockSize);
          assert Chunk(run + head, b, blockSize) == Chunk(run, b, blockSize);
        }
      } else {
        assert !Materialized(after, more[b - |ids|]);
      }
    }
  }

  /** Dropping blocks from the end of the table. */
  lemma ShrunkAgrees(before: Blocks, after: Blocks, ids: seq<nat>, n: nat, run: seq<KV>, layer: nat, blockSize: nat)
    requires FrozenAgrees(before, ids, Some(run), layer, blockSize) && n <= |ids|
    requires forall b :: 0 <= b < n ==> ids[b] < |before| && ids[b] < |after| && after[ids[b]] == before[ids[b]]
    ensures Times(n, blockSize) <= |run|
    ensures FrozenAgrees(after, ids[..n], Some(run[..Times(n, blockSize)]), layer, blockSize)
  {
    TimesBelow(n, |ids|, blockSize);
    forall b | 0 <= b < n ensures ChunkAgrees(after, ids[..n][b], run[..Times(n, blockSize)], layer, b, blockSize) {
      assert ChunkAgrees(before, ids[b], run, layer, b, blockSize);
      if Materialized(before, ids[b]) {
        TimesSnoc(b, blockSize);
        TimesBelow(b + 1, n, blockSize);
        hide Times;
        assert Chunk(run[..Times(n, blockSize)], b, blockSize) == Chunk(run, b, blockSize);
      }
    }
  }

  lemma CountedTwice(ids: seq<nat>, a: nat, b: nat)
    requires a < b < |ids| && ids[a] == ids[b]
    ensures multiset(ids)[ids[a]] >= 2
  {
    assert ids == ids[..b] + [ids[b]] + ids[b + 1..];
    assert ids[..b][a] == ids[a];
  }

  /** The blocks' join is the beginning of what a layer caches. */
  predicate OfferedLayer(blocks: Blocks, ids: seq<nat>, content: seq<KV>, layer: nat, numLayers: nat, blockSize: nat)
    requires TableShaped(blocks, ids, numLayers, blockSize) && AllMaterialized(blocks, ids) && layer < numLayers
  {
    Joined(blocks, ids, layer, numLayers, blockSize) <= content
  }

  /** A cache whose blocks nobody touched keeps its content: what makes sharing invisible to the others. */
  lemma {:induction false} JoinedDependsOnOwnBlocks(before: Blocks, after: Blocks, ids: seq<nat>, layer: nat,
      numLayers: nat, blockSize: nat)
    requires TableShaped(before, ids, numLayers, blockSize) && AllMaterialized(before, ids) && layer < numLayers
    requires KeptFor(before, after, multiset(ids))
    ensures TableShaped(after, ids, numLayers, blockSize) && AllMaterialized(after, ids)
    ensures Joined(after, ids, layer, numLayers, blockSize) == Joined(before, ids, layer, numLayers, blockSize)
  {
    forall b | 0 <= b < |ids|
      ensures Materialized(after, ids[b]) && FullBlock(after[ids[b]].value, numLayers, blockSize)
    {
      assert ids[b] in multiset(ids) && Materialized(before, ids[b]);
    }
    if ids != [] {
      var front := ids[..|ids| - 1];
      assert ids == front + [ids[|ids| - 1]];
      JoinedDependsOnOwnBlocks(before, after, front, layer, numLayers, blockSize);
    }
  }

  function OrEmpty(kv: Option<seq<KV>>): seq<KV>
  {
    if kv.Some? then kv.value else []
  }

  lemma BuiltAgrees(blocks: Blocks, ids: seq<nat>, frozen: Option<seq<KV>>, layer: nat, numLayers: nat, blockSize: nat)
    requires TableShaped(blocks, ids, numLayers, blockSize) && layer < numLayers
    requires FrozenAgrees(blocks, ids, frozen, layer, blockSize)
    ensures FrozenAgrees(blocks, ids, Some(FrozenKv(blocks, ids, frozen, layer, numLayers, blockSize)), layer,
        blockSize)
  {
    if frozen.None? {
      JoinedAgrees(blocks, ids, layer, numLayers, blockSize);
    }
  }

  lemma TableGrows(before: Blocks, after: Blocks, ids: seq<nat>, more: seq<nat>, numLayers: nat, blockSize: nat)
    requires TableShaped(before, ids, numLayers, blockSize)
    requires KeptFor(before, after, multiset(ids))
    requires Unfilled(after, more)
    ensures TableShaped(after, ids + more, numLayers, blockSize)
  {
    forall b | 0 <= b < |ids + more|
      ensures LiveBlock(after, (ids + more)[b])
      ensures Materialized(after, (ids + more)[b]) ==> FullBlock(after[(ids + more)[b]].value, numLayers, blockSize)
    {
      if b < |ids| {
        assert ids[b] in multiset(ids) && LiveBlock(before, ids[b]);
      } else {
        assert !Materialized(after, more[b - |ids|]);
      }
    }
  }

  /** The halves of every layer agree with the table. */
  predicate Consistent(blocks: Blocks, ids: seq<nat>, frozen: seq<Option<seq<KV>>>, tail: seq<Option<seq<KV>>>,
      numLayers: nat, blockSize: nat)
  {
    && |tail| == numLayers && |frozen| == numLayers
    && TableShaped(blocks, ids, numLayers, blockSize)
    && forall l :: 0 <= l < numLayers ==> FrozenAgrees(blocks, ids, frozen[l], l, blockSize)
  }

  /** Per layer: the blocks of the table, then the tail. */
  function ViewOf(blocks: Blocks, ids: seq<nat>, frozen: seq<Option<seq<KV>>>, tail: seq<Option<seq<KV>>>,
      numLayers: nat, blockSize: nat): (view: seq<seq<KV>>)
    requires Consistent(blocks, ids, frozen, tail, numLayers, blockSize)
    ensures |view| == numLayers
    ensures forall l :: 0 <= l < numLayers ==>
      view[l] == FrozenKv(blocks, ids, frozen[l], l, numLayers, blockSize) + OrEmpty(tail[l])
  {
    seq(numLayers, l requires 0 <= l < numLayers =>
      FrozenKv(blocks, ids, frozen[l], l, numLayers, blockSize) + OrEmpty(tail[l]))
  }

  /** An empty table and empty halves cache nothing. */
  lemma EmptyView(blocks: Blocks, frozen: seq<Option<seq<KV>>>, tail: seq<Option<seq<KV>>>, numLayers: nat,
      blockSize: nat)
    requires |frozen| == |tail| == numLayers
    requires forall l :: 0 <= l < numLayers ==> frozen[l] == None && tail[l] == None
    ensures Consistent(blocks, [], frozen, tail, numLayers, blockSize)
    ensures ViewOf(blocks, [], frozen, tail, numLayers, blockSize) == seq(numLayers, _ => [])
  {
  }

  /** One layer after a freeze: `cut` positions moved from the tail behind the frozen run, `more` blocks
      joined the table, and the layer caches what it did. */
  lemma LayerFrozen(before: Blocks, after: Blocks, ids: seq<nat>, more: seq<nat>, frozen: Option<seq<KV>>,
      tail: seq<KV>, cut: nat, layer: nat, numLayers: nat, blockSize: nat)
    requires TableShaped(before, ids, numLayers, blockSize) && layer < numLayers
    requires FrozenAgrees(before, ids, frozen, layer, blockSize)
    requires KeptFor(before, after, multiset(ids))
    requires Unfilled(after, more)
    requires cut == Times(|more|, blockSize) <= |tail|
    ensures TableShaped(after, ids + more, numLayers, blockSize)
    ensures var run := FrozenKv(before, ids, frozen, layer, numLayers, blockSize);
      && FrozenAgrees(after, ids + more, Some(run + tail[..cut]), layer, blockSize)
      && FrozenKv(after, ids + more, Some(run + tail[..cut]), layer, numLayers, blockSize) + tail[cut..] == run + tail
  {
    var run := FrozenKv(before, ids, frozen, layer, numLayers, blockSize);
    BuiltAgrees(before, ids, frozen, layer, numLayers, blockSize);
    TableGrows(before, after, ids, more, numLayers, blockSize);
    forall b | 0 <= b < |ids| ensures ids[b] < |before| && ids[b] < |after| && after[ids[b]] == before[ids[b]] {
      assert ids[b] in multiset(ids);
    }
    ExtendedAgrees(before, after, ids, more, run, tail[..cut], layer, blockSize);
    assert tail == tail[..cut] + tail[cut..];
    Assoc(run, tail[..cut], tail[cut..]);
  }

  /** All layers after a freeze. */
  lemma LayersFrozen(before: Blocks, after: Blocks, ids: seq<nat>, more: seq<nat>, frozen: seq<Option<seq<KV>>>,
      tail: seq<Option<seq<KV>>>, cut: nat, frozen': seq<Option<seq<KV>>>, tail': seq<Option<seq<KV>>>,
      numLayers: nat, blockSize: nat)
    requires Consistent(before, ids, frozen, tail, numLayers, blockSize)
    requires KeptFor(before, after, multiset(ids))
    requires Unfilled(after, more)
    requires cut == Times(|more|, blockSize) && |frozen'| == |tail'| == numLayers
    requires forall l :: 0 <= l < numLayers ==>
      && cut <= |OrEmpty(tail[l])|
      && frozen'[l] == Some(FrozenKv(before, ids, frozen[l], l, numLayers, blockSize) + OrEmpty(tail[l])[..cut])
      && tail'[l] == KeepNonEmpty(OrEmpty(tail[l])[cut..])
    ensures Consistent(after, ids + more, frozen', tail', numLayers, blockSize)
    ensures ViewOf(after, ids + more, frozen', tail', numLayers, blockSize)
        == ViewOf(before, ids, frozen, tail, numLayers, blockSize)
  {
    hide Times, FrozenAgrees, FrozenKv, KeptFor, TableShaped, LiveBlock, Materialized;
    TableGrows(before, after, ids, more, numLayers, blockSize);
    forall l | 0 <= l < numLayers
      ensures FrozenAgrees(after, ids + more, frozen'[l], l, blockSize)
      ensures FrozenKv(after, ids + more, frozen'[l], l, numLayers, blockSize) + OrEmpty(tail'[l])
           == FrozenKv(before, ids, frozen[l], l, numLayers, blockSize) + OrEmpty(tail[l])
    {
      LayerFrozen(before, after, ids, more, frozen[l], OrEmpty(tail[l]), cut, l, numLayers, blockSize);
    }
  }

  /** One layer after its table was cut to `n` blocks and the first `rem` positions behind them went back into
      the tail: it caches the first `len` positions. */
  lemma LayerCut(before: Blocks, after: Blocks, ids: seq<nat>, frozen: Option<seq<KV>>, n: nat, len: nat,
      frozen': Option<seq<KV>>, tail': Option<seq<KV>>, layer: nat, numLayers: nat, blockSize: nat)
    requires TableShaped(before, ids, numLayers, blockSize) && layer < numLayers && n <= |ids|
    requires FrozenAgrees(before, ids, frozen, layer, blockSize)
    requires KeptFor(before, after, multiset(ids[..n])) && TableShaped(after, ids[..n], numLayers, blockSize)
    requires Times(n, blockSize) <= len <= Times(|ids|, blockSize)
    requires var run := FrozenKv(before, ids, frozen, layer, numLayers, blockSize);
      && frozen' == (if n > 0 then Some(run[..Times(n, blockSize)]) else None)
      && OrEmpty(tail') == run[Times(n, blockSize)..len]
    ensures FrozenAgrees(after, ids[..n], frozen', layer, blockSize)
    ensures FrozenKv(after, ids[..n], frozen', layer, numLayers, blockSize) + OrEmpty(tail')
         == FrozenKv(before, ids, frozen, layer, numLayers, blockSize)[..len]
  {
    var run := FrozenKv(before, ids, frozen, layer, numLayers, blockSize);
    BuiltAgrees(before, ids, frozen, layer, numLayers, blockSize);
    forall b | 0 <= b < n ensures ids[b] < |before| && ids[b] < |after| && after[ids[b]] == before[ids[b]] {
      assert ids[..n][b] in multiset(ids[..n]);
    }
    ShrunkAgrees(before, after, ids, n, run, layer, blockSize);
    assert run[..len] == run[..Times(n, blockSize)] + run[Times(n, blockSize)..len];
  }

  lemma TableShrinks(before: Blocks, after: Blocks, ids: seq<nat>, n: nat, numLayers: nat, blockSize: nat)
    requires TableShaped(before, ids, numLayers, blockSize) && n <= |ids|
    requires KeptFor(before, after, multiset(ids[..n]))
    ensures TableShaped(after, ids[..n], numLayers, blockSize)
  {
    forall b | 0 <= b < n
      ensures LiveBlock(after, ids[..n][b])
      ensures Materialized(after, ids[..n][b]) ==> FullBlock(after[ids[..n][b]].value, numLayers, blockSize)
    {
      assert ids[..n][b] in multiset(ids[..n]) && LiveBlock(before, ids[b]);
    }
  }

  /** Every layer cut to its first `len` positions. */
  function Cut(view: seq<seq<KV>>, len: nat): (out: seq<seq<KV>>)
    ensures |out| == |view| && forall l :: 0 <= l < |view| ==> out[l] == view[l][..Min(len, |view[l]|)]
  {
    seq(|view|, l requires 0 <= l < |view| => view[l][..Min(len, |view[l]|)])
  }

  lemma CutAll(view: seq<seq<KV>>, len: nat)
    requires forall l :: 0 <= l < |view| ==> |view[l]| <= len
    ensures Cut(view, len) == view
  {
    forall l | 0 <= l < |view| ensures Cut(view, len)[l] == view[l] {
      assert view[l][..|view[l]|] == view[l];
    }
  }

  /** Tails cut to `n` positions behind the blocks: every layer cut to its first `len`. */
  lemma TailsCut(blocks: Blocks, ids: seq<nat>, frozen: seq<Option<seq<KV>>>, tail: seq<Option<seq<KV>>>,
      tail': seq<Option<seq<KV>>>, n: nat, len: nat, numLayers: nat, blockSize: nat)
    requires Consistent(blocks, ids, frozen, tail, numLayers, blockSize) && |tail'| == numLayers
    requires len == Times(|ids|, blockSize) + n
    requires forall l :: 0 <= l < numLayers ==> n <= |OrEmpty(tail[l])| && OrEmpty(tail'[l]) == OrEmpty(tail[l])[..n]
    ensures Consistent(blocks, ids, frozen, tail', numLayers, blockSize)
    ensures ViewOf(blocks, ids, frozen, tail', numLayers, blockSize)
        == Cut(ViewOf(blocks, ids, frozen, tail, numLayers, blockSize), len)
  {
    hide FrozenAgrees, FrozenKv, TableShaped, Times;
    forall l | 0 <= l < numLayers
      ensures FrozenKv(blocks, ids, frozen[l], l, numLayers, blockSize) + OrEmpty(tail'[l])
           == (FrozenKv(blocks, ids, frozen[l], l, numLayers, blockSize) + OrEmpty(tail[l]))[..len]
    {
      var run := FrozenKv(blocks, ids, frozen[l], l, numLayers, blockSize);
      assert (run + OrEmpty(tail[l]))[..len] == run + OrEmpty(tail[l])[..n];
    }
  }

  lemma LayersCut(before: Blocks, after: Blocks, ids: seq<nat>, frozen: seq<Option<seq<KV>>>,
      tail: seq<Option<seq<KV>>>, n: nat, len: nat, frozen': seq<Option<seq<KV>>>, tail': seq<Option<seq<KV>>>,
      numLayers: nat, blockSize: nat)
    requires Consistent(before, ids, frozen, tail, numLayers, blockSize) && n <= |ids|
    requires KeptFor(before, after, multiset(ids[..n]))
    requires Times(n, blockSize) <= len <= Times(|ids|, blockSize) && |frozen'| == |tail'| == numLayers
    requires forall l :: 0 <= l < numLayers ==>
      var run := FrozenKv(before, ids, frozen[l], l, numLayers, blockSize);
      && frozen'[l] == (if n > 0 then Some(run[..Times(n, blockSize)]) else None)
      && OrEmpty(tail'[l]) == run[Times(n, blockSize)..len]
    ensures Consistent(after, ids[..n], frozen', tail', numLayers, blockSize)
    ensures ViewOf(after, ids[..n], frozen', tail', numLayers, blockSize)
         == Cut(ViewOf(before, ids, frozen, tail, numLayers, blockSize), len)
  {
    hide Times, FrozenAgrees, FrozenKv, KeptFor, TableShaped;
    TableShrinks(before, after, ids, n, numLayers, blockSize);
    forall l | 0 <= l < numLayers
      ensures FrozenAgrees(after, ids[..n], frozen'[l], l, blockSize)
      ensures FrozenKv(after, ids[..n], frozen'[l], l, numLayers, blockSize) + OrEmpty(tail'[l])
           == (FrozenKv(before, ids, frozen[l], l, numLayers, blockSize) + OrEmpty(tail[l]))[..len]
    {
      LayerCut(before, after, ids, frozen[l], n, len, frozen'[l], tail'[l], l, numLayers, blockSize);
      var run := FrozenKv(before, ids, frozen[l], l, numLayers, blockSize);
      assert (run + OrEmpty(tail[l]))[..len] == run[..len];
    }
  }

  /** Building one layer's frozen half changes no layer's content. */
  lemma BuiltView(blocks: Blocks, ids: seq<nat>, frozen: seq<Option<seq<KV>>>, frozen': seq<Option<seq<KV>>>,
      tail: seq<Option<seq<KV>>>, layer: nat, numLayers: nat, blockSize: nat)
    requires Consistent(blocks, ids, frozen, tail, numLayers, blockSize) && layer < numLayers == |frozen'|
    requires forall l :: 0 <= l < numLayers && l != layer ==> frozen'[l] == frozen[l]
    requires FrozenAgrees(blocks, ids, frozen'[layer], layer, blockSize)
    requires FrozenKv(blocks, ids, frozen'[layer], layer, numLayers, blockSize)
        == FrozenKv(blocks, ids, frozen[layer], layer, numLayers, blockSize)
    ensures Consistent(blocks, ids, frozen', tail, numLayers, blockSize)
    ensures ViewOf(blocks, ids, frozen', tail, numLayers, blockSize)
        == ViewOf(blocks, ids, frozen, tail, numLayers, blockSize)
  {
    hide FrozenKv, FrozenAgrees, TableShaped;
  }

  /** The two halves in one piece; nothing to attend over is an error. */
  function Combined(frozen: Option<seq<KV>>, tail: Option<seq<KV>>): (res: Result<seq<KV>, Error>)
    ensures res.Err? <==> frozen.None? && tail.None?
    ensures res.Ok? ==> res.value == OrEmpty(frozen) + OrEmpty(tail)
  {
    match (frozen, tail)
    case (Some(run), Some(rest)) => Ok(run + rest)
    case (Some(run), None) => Ok(run)
    case (None, Some(rest)) => Ok(rest)
    case (None, None) => Err(Msg("gather on an empty paged cache"))
  }

  /** Sharing is invisible: whatever an operation on one sequence does to the pool, a sequence whose blocks it
      kept stays consistent and caches what it did. */
  lemma OthersKeepTheirView(before: Blocks, after: Blocks, others: multiset<nat>, ids: seq<nat>,
      frozen: seq<Option<seq<KV>>>, tail: seq<Option<seq<KV>>>, numLayers: nat, blockSize: nat)
    requires KeptFor(before, after, others) && multiset(ids) <= others
    requires Consistent(before, ids, frozen, tail, numLayers, blockSize)
    ensures Consistent(after, ids, frozen, tail, numLayers, blockSize)
    ensures ViewOf(after, ids, frozen, tail, numLayers, blockSize)
        == ViewOf(before, ids, frozen, tail, numLayers, blockSize)
  {
    KeptSubset(before, after, others, multiset(ids));
    assert ids == ids[..|ids|];
    TableShrinks(before, after, ids, |ids|, numLayers, blockSize);
    forall b | 0 <= b < |ids| ensures ids[b] < |before| && ids[b] < |after| && after[ids[b]] == before[ids[b]] {
      assert ids[b] in multiset(ids);
    }
    forall l | 0 <= l < numLayers
      ensures FrozenAgrees(after, ids, frozen[l], l, blockSize)
      ensures FrozenKv(after, ids, frozen[l], l, numLayers, blockSize)
          == FrozenKv(before, ids, frozen[l], l, numLayers, blockSize)
    {
      OtherKeepsLayer(before, after, ids, frozen[l], l, numLayers, blockSize);
    }
  }

  lemma OtherKeepsLayer(before: Blocks, after: Blocks, ids: seq<nat>, frozen: Option<seq<KV>>, layer: nat,
      numLayers: nat, blockSize: nat)
    requires TableShaped(before, ids, numLayers, blockSize) && TableShaped(after, ids, numLayers, blockSize)
        && layer < numLayers
    requires KeptFor(before, after, multiset(ids))
    requires FrozenAgrees(before, ids, frozen, layer, blockSize)
    ensures FrozenAgrees(after, ids, frozen, layer, blockSize)
    ensures FrozenKv(after, ids, frozen, layer, numLayers, blockSize)
        == FrozenKv(before, ids, frozen, layer, numLayers, blockSize)
  {
    if frozen.None? {
      JoinedDependsOnOwnBlocks(before, after, ids, layer, numLayers, blockSize);
    } else {
      forall b | 0 <= b < |ids| ensures ChunkAgrees(after, ids[b], frozen.value, layer, b, blockSize) {
        KeptBlock(before, after, multiset(ids), ids[b]);
        assert ChunkAgrees(before, ids[b], frozen.value, layer, b, blockSize);
      }
    }
  }

  /** What a block would carry: its slice of every layer's run. */
  function Slices(frozen: seq<Option<seq<KV>>>, b: nat, blockSize: nat): (layers: seq<seq<KV>>)
    requires forall l :: 0 <= l < |frozen| ==> frozen[l].Some? && Times(b + 1, blockSize) <= |frozen[l].value|
    ensures |layers| == |frozen| && forall l :: 0 <= l < |frozen| ==> layers[l] == Chunk(frozen[l].value, b, blockSize)
  {
    seq(|frozen|, l requires 0 <= l < |frozen| => Chunk(frozen[l].value, b, blockSize))
  }

  /** Filling a block held once with its slices leaves every layer's content as it was. */
  lemma BlockFilled(before: Blocks, after: Blocks, ids: seq<nat>, b: nat, frozen: seq<Option<seq<KV>>>,
      tail: seq<Option<seq<KV>>>, numLayers: nat, blockSize: nat)
    requires Consistent(before, ids, frozen, tail, numLayers, blockSize) && b < |ids| && multiset(ids)[ids[b]] == 1
    requires forall l :: 0 <= l < numLayers ==> frozen[l].Some? && Times(b + 1, blockSize) <= |frozen[l].value|
    requires |after| == |before| && after[ids[b]] == Some(PhysBlock(Slices(frozen, b, blockSize)))
    requires forall id :: 0 <= id < |before| && id != ids[b] ==> after[id] == before[id]
    ensures Consistent(after, ids, frozen, tail, numLayers, blockSize)
    ensures ViewOf(after, ids, frozen, tail, numLayers, blockSize)
        == ViewOf(before, ids, frozen, tail, numLayers, blockSize)
  {
    forall a | 0 <= a < |ids| && a != b ensures ids[a] < |before| && ids[a] != ids[b] {
      assert LiveBlock(before, ids[a]);
      if ids[a] == ids[b] {
        CountedTwice(ids, if a < b then a else b, if a < b then b else a);
      }
    }
    hide Times, Chunk;
    forall a | 0 <= a < |ids|
      ensures LiveBlock(after, ids[a])
      ensures Materialized(after, ids[a]) ==> FullBlock(after[ids[a]].value, numLayers, blockSize)
    {
      assert LiveBlock(before, ids[a]);
    }
    forall l | 0 <= l < numLayers ensures FrozenAgrees(after, ids, frozen[l], l, blockSize) {
      assert FrozenAgrees(before, ids, frozen[l], l, blockSize);
      forall a | 0 <= a < |ids| ensures ChunkAgrees(after, ids[a], frozen[l].value, l, a, blockSize) {
        assert ChunkAgrees(before, ids[a], frozen[l].value, l, a, blockSize);
      }
    }
  }

  /** One layer with `step` behind it, the others as they are. */
  function Appended(view: seq<seq<KV>>, layer: nat, step: seq<KV>): (out: seq<seq<KV>>)
    requires layer < |view|
    ensures |out| == |view|
  {
    view[layer := view[layer] + step]
  }

  /** One layer's tail grew, nothing else did. */
  lemma TailAppended(blocks: Blocks, ids: seq<nat>, frozen: seq<Option<seq<KV>>>, tail: seq<Option<seq<KV>>>,
      layer: nat, step: seq<KV>, numLayers: nat, blockSize: nat)
    requires Consistent(blocks, ids, frozen, tail, numLayers, blockSize) && layer < numLayers
    ensures var tail' := tail[layer := Some(OrEmpty(tail[layer]) + step)];
      var view := ViewOf(blocks, ids, frozen, tail, numLayers, blockSize);
      && Consistent(blocks, ids, frozen, tail', numLayers, blockSize)
      && ViewOf(blocks, ids, frozen, tail', numLayers, blockSize) == Appended(view, layer, step)
  {
    hide FrozenKv, FrozenAgrees, TableShaped;
    Assoc(FrozenKv(blocks, ids, frozen[layer], layer, numLayers, blockSize), OrEmpty(tail[layer]), step);
  }

  function KeepNonEmpty(tail: seq<KV>): (kept: Option<seq<KV>>)
    ensures OrEmpty(kept) == tail
  {
    if tail == [] then None else Some(tail)
  }

  /** The blocks other sequences hold are exactly as they were. */
  predicate KeptFor(before: Blocks, after: Blocks, others: multiset<nat>)
  {
    forall id :: id in others ==> id < |before| && id < |after| && after[id] == before[id]
  }

  // ----- against the contiguous cache -----

  /** A contiguous cache holding the same per-layer content does the same on update and truncation: the two
      caches stay interchangeable step by step. */
  lemma SameAsContiguous(slots: KvCache.Slots, layer: nat, step: seq<KV>, rows: seq<seq<KV>>, len: nat)
    requires layer < |slots| && rows == [KvCache.SlotRow(slots[layer], 0) + step]
    ensures KvCache.Row(slots[layer := Some(rows)], 0) == Appended(KvCache.Row(slots, 0), layer, step)
    ensures KvCache.Row(KvCache.Truncated(slots, len), 0) == Cut(KvCache.Row(slots, 0), len)
  {
    forall l | 0 <= l < |slots|
      ensures KvCache.Row(KvCache.Truncated(slots, len), 0)[l] == Cut(KvCache.Row(slots, 0), len)[l]
    {
    }
  }

  // ----- the pool -----

  class BlockPool {
    const blockSize: nat
    var blocks: Blocks
    /** The allocator's reference counts. */
    var held: multiset<nat>

    ghost predicate Valid()
      reads this
    {
      blockSize > 0 && Counted(blocks, held)
    }

    constructor (blockSize: nat)
      requires blockSize > 0
      ensures Valid() && held == multiset{} && blocks == [] && this.blockSize == blockSize
    {
      this.blockSize := blockSize;
      blocks := [];
      held := multiset{};
    }

    /** A fresh block without data; a freed id is used again when there is one. */
    method AllocEmpty() returns (id: nat)
      requires Valid()
      modifies this
      ensures Valid()
      ensures old(held)[id] == 0 && held == old(held) + multiset{id}
      ensures id < |blocks| && blocks[id] == Some(PhysBlock([]))
      ensures id < old(|blocks|) <==> exists j :: 0 <= j < old(|blocks|) && old(blocks)[j].None?
      ensures forall j :: 0 <= j < id ==> j < old(|blocks|) && old(blocks)[j].Some?
      ensures KeptFor(old(blocks), blocks, old(held))
    {
      id := 0;
      while id < |blocks| && blocks[id].Some?
        invariant id <= |blocks| && forall j :: 0 <= j < id ==> blocks[j].Some?
      {
        id := id + 1;
      }
      assert !LiveBlock(blocks, id);
      if id == |blocks| {
        blocks := blocks + [Some(PhysBlock([]))];
      } else {
        blocks := blocks[id := Some(PhysBlock([]))];
      }
      held := held + multiset{id};
      forall j | j in held ensures LiveBlock(blocks, j) && (!Materialized(blocks, j) ==> held[j] == 1) {
        if j != id {
          assert j in old(held) && LiveBlock(old(blocks), j);
        }
      }
      forall j | LiveBlock(blocks, j) ensures j in held {
        if j != id {
          assert LiveBlock(old(blocks), j);
        }
      }
      forall j | j in old(held) ensures j < |old(blocks)| && blocks[j] == old(blocks)[j] {
        assert LiveBlock(old(blocks), j);
      }
    }

    /** Give an offered block its data; a block that has some keeps it. */
    method Materialize(id: nat, layers: seq<seq<KV>>)
      requires Valid() && LiveBlock(blocks, id)
      modifies this`blocks
      ensures Valid() && |blocks| == old(|blocks|)
      ensures blocks[id] == if old(Materialized(blocks, id)) then old(blocks[id]) else Some(PhysBlock(layers))
      ensures forall j :: 0 <= j < |blocks| && j != id ==> blocks[j] == old(blocks[j])
    {
      if blocks[id].value.layers == [] {
        blocks := blocks[id := Some(PhysBlock(layers))];
        forall j ensures j in held <==> LiveBlock(blocks, j) {
          assert j in held <==> LiveBlock(old(blocks), j);
        }
        forall j | j in held && !Materialized(blocks, j) ensures held[j] == 1 {
          assert LiveBlock(old(blocks), j) && !Materialized(old(blocks), j);
        }
      }
    }

    /** A sequence adopts a shared block. */
    method Retain(id: nat)
      requires Valid() && Materialized(blocks, id)
      modifies this`held
      ensures Valid() && held == old(held) + multiset{id}
    {
      held := held + multiset{id};
    }

    /** Drop one reference; the last one frees the block. */
    method Release(id: nat)
      requires Valid() && id in held
      modifies this
      ensures Valid() && held == old(held) - multiset{id} && |blocks| == old(|blocks|)
      ensures forall j :: 0 <= j < |blocks| ==> blocks[j] == if j == id && j !in held then None else old(blocks[j])
    {
      held := held - multiset{id};
      if id !in held {
        blocks := blocks[id := None];
      }
      forall j ensures j in held <==> LiveBlock(blocks, j) {
        assert j in old(held) <==> LiveBlock(old(blocks), j);
      }
      forall j | j in held && !Materialized(blocks, j) ensures held[j] == 1 {
        assert j in old(held) && !Materialized(old(blocks), j);
      }
    }

    /** Drop one reference to each of `ids`: whatever somebody still holds is as it was. */
    method ReleaseAll(ids: seq<nat>, ghost rest: multiset<nat>)
      requires Valid() && held == multiset(ids) + rest
      modifies this
      ensures Valid() && held == rest && |blocks| == old(|blocks|)
      ensures KeptFor(old(blocks), blocks, rest)
    {
      var i := 0;
      while i < |ids|
        invariant 0 <= i <= |ids|
        invariant Valid() && held == multiset(ids[i..]) + rest && |blocks| == old(|blocks|)
        invariant forall j :: j in held ==> j < |blocks| && blocks[j] == old(blocks[j])
      {
        assert ids[i..] == [ids[i]] + ids[i + 1..];
        Release(ids[i]);
        i := i + 1;
      }
      assert ids[i..] == [];
    }
  }

  /** The pool's references: this table's, and the other sequences'. */
  predicate Accounted(held: multiset<nat>, ids: seq<nat>, others: multiset<nat>)
  {
    held == multiset(ids) + others
  }

  lemma KeptSubset(before: Blocks, after: Blocks, all: multiset<nat>, some: multiset<nat>)
    requires KeptFor(before, after, all) && some <= all
    ensures KeptFor(before, after, some)
  {
    forall id | id in some ensures id < |before| && id < |after| && after[id] == before[id] {
      assert id in all;
    }
  }

  lemma KeptBlock(before: Blocks, after: Blocks, all: multiset<nat>, id: nat)
    requires KeptFor(before, after, all) && id in all
    ensures id < |before| && id < |after| && after[id] == before[id]
  {
  }

  lemma KeptStep(before: Blocks, mid: Blocks, after: Blocks, some: multiset<nat>, all: multiset<nat>)
    requires KeptFor(before, mid, some) && KeptFor(mid, after, all) && some <= all
    ensures KeptFor(before, after, some)
  {
    KeptSubset(mid, after, all, some);
  }

  lemma UnfilledMore(before: Blocks, after: Blocks, all: multiset<nat>, ids: seq<nat>, id: nat)
    requires KeptFor(before, after, all) && multiset(ids) <= all && Unfilled(before, ids)
    requires id < |after| && after[id] == Some(PhysBlock([]))
    ensures Unfilled(after, ids + [id])
  {
    forall b | 0 <= b < |ids| ensures LiveBlock(after, ids[b]) && !Materialized(after, ids[b]) {
      KeptBlock(before, after, all, ids[b]);
    }
  }

  lemma KeptHeld(pool: BlockPool, some: multiset<nat>)
    requires pool.Valid() && some <= pool.held
    ensures KeptFor(pool.blocks, pool.blocks, some)
  {
    forall id | id in some ensures id < |pool.blocks| {
      assert LiveBlock(pool.blocks, id);
    }
  }

  // ----- one sequence -----

  class PagedKvCache {
    const numLayers: nat
    const pool: BlockPool
    /** The full blocks, in position order. */
    var blockIds: seq<nat>
    /** Per layer, the positions after the last full block. */
    var tail: seq<Option<seq<KV>>>
    var tailLen: nat
    /** Per layer, all full blocks contiguously; `None`: to be built on the next use. */
    var frozen: seq<Option<seq<KV>>>

    ghost predicate Valid()
      reads this, pool
    {
      && pool.Valid()
      && multiset(blockIds) <= pool.held
      && Consistent(pool.blocks, blockIds, frozen, tail, numLayers, pool.blockSize)
    }

    /** Everything each layer caches, in position order: what a contiguous cache would hold. */
    ghost function View(): (view: seq<seq<KV>>)
      requires Valid()
      reads this, pool
      ensures |view| == numLayers
      ensures forall l :: 0 <= l < numLayers ==> |view[l]| == Times(|blockIds|, pool.blockSize) + |OrEmpty(tail[l])|
    {
      ViewOf(pool.blocks, blockIds, frozen, tail, numLayers, pool.blockSize)
    }

    /** Layers below `done` have appended this step's `step` positions, the others have not yet. */
    ghost predicate MidStep(done: nat, step: nat)
      reads `tail, `tailLen
    {
      && tailLen < pool.blockSize
      && |tail| == numLayers
      && forall l :: 0 <= l < numLayers ==> |OrEmpty(tail[l])| == tailLen + (if l < done then step else 0)
    }

    ghost predicate AtRest()
      reads `tail, `tailLen
    {
      MidStep(0, 0)
    }

    /** Logical length; also the RoPE offset of the next step. */
    function Len(): nat
      reads `blockIds, `tailLen
    {
      Times(|blockIds|, pool.blockSize) + tailLen
    }

    /** Slots reserved: less than one block over the true length. */
    function ReservedTokens(): (r: nat)
      requires tailLen < pool.blockSize
      reads `blockIds, `tailLen
      ensures Len() <= r < Len() + pool.blockSize
      ensures exists n: nat :: r == Times(n, pool.blockSize)
    {
      TimesSnoc(|blockIds|, pool.blockSize);
      Times(|blockIds| + (if tailLen > 0 then 1 else 0), pool.blockSize)
    }

    constructor WithPool(pool: BlockPool, numLayers: nat)
      requires pool.Valid()
      ensures Valid() && AtRest() && this.pool == pool && this.numLayers == numLayers
      ensures blockIds == [] && Len() == 0 && forall l :: 0 <= l < numLayers ==> View()[l] == []
    {
      this.pool, this.numLayers := pool, numLayers;
      blockIds := [];
      tail, frozen := seq(numLayers, _ => None), seq(numLayers, _ => None);
      tailLen := 0;
    }

    /** Adopt another sequence's offered blocks: the new sequence starts after them, with their content, and
        no block is copied or written. */
    constructor Seeded(pool: BlockPool, numLayers: nat, sharedIds: seq<nat>)
      requires pool.Valid() && TableShaped(pool.blocks, sharedIds, numLayers, pool.blockSize)
      requires AllMaterialized(pool.blocks, sharedIds)
      modifies pool`held
      ensures Valid() && AtRest() && this.pool == pool && this.numLayers == numLayers
      ensures blockIds == sharedIds && pool.held == old(pool.held) + multiset(sharedIds)
      ensures forall l :: 0 <= l < numLayers ==>
        View()[l] == Joined(pool.blocks, sharedIds, l, numLayers, pool.blockSize)
    {
      this.pool, this.numLayers := pool, numLayers;
      blockIds := sharedIds;
      tail, frozen := seq(numLayers, _ => None), seq(numLayers, _ => None);
      tailLen := 0;
      new;
      var i := 0;
      while i < |sharedIds|
        invariant 0 <= i <= |sharedIds|
        invariant pool.Valid() && pool.held == old(pool.held) + multiset(sharedIds[..i])
        modifies pool`held
      {
        assert Materialized(pool.blocks, sharedIds[i]);
        pool.Retain(sharedIds[i]);
        assert sharedIds[..i + 1] == sharedIds[..i] + [sharedIds[i]];
        i := i + 1;
      }
      assert sharedIds[..i] == sharedIds;
    }

    /** Build `layer`'s contiguous half from the table when it is missing. */
    method EnsureFrozen(layer: nat)
      requires layer < numLayers == |frozen|
      requires TableShaped(pool.blocks, blockIds, numLayers, pool.blockSize)
      requires FrozenAgrees(pool.blocks, blockIds, frozen[layer], layer, pool.blockSize)
      modifies this`frozen
      ensures |frozen| == numLayers && forall l :: 0 <= l < numLayers && l != layer ==> frozen[l] == old(frozen[l])
      ensures FrozenAgrees(pool.blocks, blockIds, frozen[layer], layer, pool.blockSize)
      ensures FrozenKv(pool.blocks, blockIds, frozen[layer], layer, numLayers, pool.blockSize)
           == old(FrozenKv(pool.blocks, blockIds, frozen[layer], layer, numLayers, pool.blockSize))
      ensures frozen[layer].Some? || blockIds == []
      ensures old(frozen[layer].Some?) ==> frozen == old(frozen)
      ensures OrEmpty(frozen[layer])
           == old(FrozenKv(pool.blocks, blockIds, frozen[layer], layer, numLayers, pool.blockSize))
    {
      if frozen[layer].Some? || blockIds == [] {
        return;
      }
      var run := Joined(pool.blocks, blockIds, layer, numLayers, pool.blockSize);
      JoinedAgrees(pool.blocks, blockIds, layer, numLayers, pool.blockSize);
      frozen := frozen[layer := Some(run)];
    }

    /** Every layer moves its first `cut` tail positions behind its frozen run. */
    method FreezeLayers(cut: nat)
      requires Valid() && forall l :: 0 <= l < numLayers ==> cut <= |OrEmpty(tail[l])|
      modifies this`frozen, this`tail
      ensures |frozen| == |tail| == numLayers
      ensures forall l :: 0 <= l < numLayers ==>
        && frozen[l] == Some(old(FrozenKv(pool.blocks, blockIds, frozen[l], l, numLayers, pool.blockSize))
            + old(OrEmpty(tail[l]))[..cut])
        && tail[l] == KeepNonEmpty(old(OrEmpty(tail[l]))[cut..])
    {
      ghost var frozen0, tail0 := frozen, tail;
      var l := 0;
      while l < numLayers
        invariant 0 <= l <= numLayers == |tail| == |frozen|
        invariant forall i :: l <= i < numLayers ==> frozen[i] == frozen0[i] && tail[i] == tail0[i]
        invariant forall i :: 0 <= i < l ==>
          && frozen[i] == Some(FrozenKv(pool.blocks, blockIds, frozen0[i], i, numLayers, pool.blockSize)
              + OrEmpty(tail0[i])[..cut])
          && tail[i] == KeepNonEmpty(OrEmpty(tail0[i])[cut..])
      {
        hide Times, FrozenAgrees, FrozenKv, OrEmpty, KeepNonEmpty, TableShaped, Counted;
        EnsureFrozen(l);
        var all := OrEmpty(tail[l]);
        frozen := frozen[l := Some(OrEmpty(frozen[l]) + all[..cut])];
        tail := tail[l := KeepNonEmpty(all[cut..])];
        l := l + 1;
      }
    }

    /** One block without data per newly full block. */
    method AllocBlocks(n: nat, ghost others: multiset<nat>) returns (ghost more: seq<nat>)
      requires pool.Valid() && Accounted(pool.held, blockIds, others)
      modifies this`blockIds, pool
      ensures pool.Valid() && Accounted(pool.held, blockIds, others)
      ensures |more| == n && blockIds == old(blockIds) + more
      ensures KeptFor(old(pool.blocks), pool.blocks, multiset(old(blockIds)))
      ensures KeptFor(old(pool.blocks), pool.blocks, others)
      ensures Unfilled(pool.blocks, more)
    {
      more := [];
      KeptHeld(pool, pool.held);
      hide KeptFor, Unfilled;
      for i := 0 to n
        invariant |more| == i && blockIds == old(blockIds) + more
        invariant pool.Valid() && pool.held == old(pool.held) + multiset(more)
        invariant Accounted(pool.held, blockIds, others)
        invariant KeptFor(old(pool.blocks), pool.blocks, old(pool.held))
        invariant Unfilled(pool.blocks, more)
      {
        ghost var prev, prevHeld := pool.blocks, pool.held;
        var id := pool.AllocEmpty();
        assert old(blockIds) + (more + [id]) == blockIds + [id];
        UnfilledMore(prev, pool.blocks, prevHeld, more, id);
        KeptStep(old(pool.blocks), prev, pool.blocks, old(pool.held), prevHeld);
        blockIds := blockIds + [id];
        more := more + [id];
      }
      KeptSubset(old(pool.blocks), pool.blocks, old(pool.held), multiset(old(blockIds)));
      KeptSubset(old(pool.blocks), pool.blocks, old(pool.held), others);
    }

    /** `n` whole blocks go from every layer's tail into its frozen run and the table. */
    method FreezeBlocks(n: nat, ghost others: multiset<nat>)
      requires Valid() && forall l :: 0 <= l < numLayers ==> Times(n, pool.blockSize) <= |OrEmpty(tail[l])|
      requires Accounted(pool.held, blockIds, others)
      modifies this`frozen, this`tail, this`blockIds, pool
      ensures Valid() && View() == old(View()) && |blockIds| == old(|blockIds|) + n
      ensures |tail| == |frozen| == numLayers
      ensures forall l :: 0 <= l < numLayers ==>
        frozen[l].Some? && OrEmpty(tail[l]) == old(OrEmpty(tail[l]))[Times(n, pool.blockSize)..]
      ensures Accounted(pool.held, blockIds, others) && KeptFor(old(pool.blocks), pool.blocks, others)
    {
      hide Times, Consistent, KeepNonEmpty, KeptFor, Counted;
      ghost var frozen0, tail0, blocks0, ids0 := frozen, tail, pool.blocks, blockIds;
      FreezeLayers(Times(n, pool.blockSize));
      ghost var more := AllocBlocks(n, others);
      LayersFrozen(blocks0, pool.blocks, ids0, more, frozen0, tail0, Times(n, pool.blockSize), frozen, tail,
        numLayers, pool.blockSize);
    }

    /** All tails as long as `tailLen` says. */
    ghost predicate EvenTails()
      reads `tail, `tailLen
    {
      |tail| == numLayers && forall l :: 0 <= l < numLayers ==> |OrEmpty(tail[l])| == tailLen
    }

    /** The whole blocks of every tail. */
    method FreezeExcess(ghost others: multiset<nat>)
      requires Valid() && EvenTails() && Accounted(pool.held, blockIds, others)
      modifies this, pool
      ensures Valid() && AtRest() && View() == old(View()) && Len() == old(Len())
      ensures Accounted(pool.held, blockIds, others) && KeptFor(old(pool.blocks), pool.blocks, others)
      ensures forall l :: 0 <= l < numLayers ==> frozen[l].Some?
    {
      hide Times, Consistent, KeptFor, Counted, Accounted;
      var nFull := Quot(tailLen, pool.blockSize);
      CutSplits(tailLen, pool.blockSize);
      TimesSum(|blockIds|, nFull, pool.blockSize);
      FreezeBlocks(nFull, others);
      tailLen := tailLen - Times(nFull, pool.blockSize);
    }

    /** Take whole blocks off the front of every layer's tail, all layers together, until less than a block
        is left. No position moves. */
    method FreezeFullBlocks(newTokens: nat, ghost others: multiset<nat>)
      requires Valid() && MidStep(numLayers, newTokens)
      requires Accounted(pool.held, blockIds, others)
      modifies this, pool
      ensures Valid() && AtRest() && View() == old(View()) && Len() == old(Len()) + newTokens
      ensures Accounted(pool.held, blockIds, others) && KeptFor(old(pool.blocks), pool.blocks, others)
      ensures forall l :: 0 <= l < numLayers && old(tail[l].Some?) ==> tail[l].Some? || frozen[l].Some?
    {
      KeptHeld(pool, others);
      hide Times, Consistent, KeptFor, Counted, Accounted;
      tailLen := tailLen + newTokens;
      if tailLen >= pool.blockSize {
        FreezeExcess(others);
      }
    }

    /** Everything `layer` caches, contiguously: the stock attention's input. */
    method Gather(layer: nat) returns (res: Result<seq<KV>, Error>)
      requires Valid() && layer < numLayers
      modifies this`frozen
      ensures Valid() && View() == old(View())
      ensures res.Ok? ==> res.value == View()[layer]
      ensures old(frozen[layer].Some? || tail[layer].Some?) ==> res.Ok?
    {
      ghost var frozen0 := frozen;
      assert FrozenAgrees(pool.blocks, blockIds, frozen[layer], layer, pool.blockSize);
      EnsureFrozen(layer);
      BuiltView(pool.blocks, blockIds, frozen0, frozen, tail, layer, numLayers, pool.blockSize);
      res := Combined(frozen[layer], tail[layer]);
    }

    /** The next layer's turn in a step: only its tail grows. */
    method AppendTail(layer: nat, step: seq<KV>)
      requires Valid() && layer < numLayers && MidStep(layer, |step|)
      modifies this`tail
      ensures Valid() && MidStep(layer + 1, |step|) && tail[layer].Some?
      ensures View() == Appended(old(View()), layer, step)
    {
      TailAppended(pool.blocks, blockIds, frozen, tail, layer, step, numLayers, pool.blockSize);
      hide Consistent, Counted;
      tail := tail[layer := Some(OrEmpty(tail[layer]) + step)];
    }

    /** One sequence's turn of `layer` in a step; with the last layer the full blocks freeze. */
    method UpdateRow(layer: nat, step: seq<KV>, ghost others: multiset<nat>) returns (res: Result<seq<KV>, Error>)
      requires Valid() && layer < numLayers && MidStep(layer, |step|)
      requires Accounted(pool.held, blockIds, others)
      modifies this, pool
      ensures Valid() && View() == Appended(old(View()), layer, step) && res == Ok(View()[layer])
      ensures layer + 1 == numLayers ==> AtRest()
      ensures Len() == old(Len()) + (if layer + 1 == numLayers then |step| else 0)
      ensures layer + 1 < numLayers ==> MidStep(layer + 1, |step|)
      ensures Accounted(pool.held, blockIds, others) && KeptFor(old(pool.blocks), pool.blocks, others)
    {
      KeptHeld(pool, others);
      AppendTail(layer, step);
      if layer + 1 == numLayers {
        FreezeFullBlocks(|step|, others);
      }
      res := Gather(layer);
    }

    /** Append this step's rows to `layer` and return everything to attend over: one row, or an error. */
    method Update(layer: nat, step: seq<seq<KV>>, ghost others: multiset<nat>) returns (res: Result<seq<KV>, Error>)
      requires Valid() && layer < numLayers
      requires |step| == 1 ==> MidStep(layer, |step[0]|)
      requires Accounted(pool.held, blockIds, others)
      modifies this, pool
      ensures |step| != 1 ==> res.Err? && unchanged(this) && unchanged(pool)
      ensures |step| == 1 ==>
        && Valid() && View() == Appended(old(View()), layer, step[0]) && res == Ok(View()[layer])
        && (layer + 1 == numLayers ==> AtRest())
        && (layer + 1 < numLayers ==> MidStep(layer + 1, |step[0]|))
        && Len() == old(Len()) + (if layer + 1 == numLayers then |step[0]| else 0)
        && Accounted(pool.held, blockIds, others) && KeptFor(old(pool.blocks), pool.blocks, others)
    {
      if |step| == 1 {
        res := UpdateRow(layer, step[0], others);
      } else {
        res := Err(Msg("PagedKvCache is single-sequence (batch 1)"));
      }
    }

    /** Per layer: keep `n` blocks of the run and put the positions from there to `len` back into the tail. */
    method CutLayers(n: nat, len: nat)
      requires Valid() && n <= |blockIds| && Times(n, pool.blockSize) <= len <= Times(|blockIds|, pool.blockSize)
      modifies this`frozen, this`tail
      ensures |frozen| == |tail| == numLayers
      ensures forall l :: 0 <= l < numLayers ==>
        var run := old(FrozenKv(pool.blocks, blockIds, frozen[l], l, numLayers, pool.blockSize));
        && frozen[l] == (if n > 0 then Some(run[..Times(n, pool.blockSize)]) else None)
        && OrEmpty(tail[l]) == run[Times(n, pool.blockSize)..len]
    {
      ghost var frozen0, tail0 := frozen, tail;
      var boundary := Times(n, pool.blockSize);
      var l := 0;
      while l < numLayers
        invariant 0 <= l <= numLayers == |tail| == |frozen|
        invariant forall i :: l <= i < numLayers ==> frozen[i] == frozen0[i]
        invariant forall i :: 0 <= i < l ==>
          var run := FrozenKv(pool.blocks, blockIds, frozen0[i], i, numLayers, pool.blockSize);
          && frozen[i] == (if n > 0 then Some(run[..boundary]) else None)
          && OrEmpty(tail[i]) == run[boundary..len]
      {
        hide Times, FrozenAgrees, FrozenKv, TableShaped, Counted, OrEmpty, KeepNonEmpty;
        EnsureFrozen(l);
        var run := OrEmpty(frozen[l]);
        tail := tail[l := KeepNonEmpty(run[boundary..len])];
        frozen := frozen[l := if n > 0 then Some(run[..boundary]) else None];
        l := l + 1;
      }
    }

    /** Every layer's tail cut to `n` positions. */
    method CutTails(n: nat)
      requires Valid() && forall l :: 0 <= l < numLayers ==> n <= |OrEmpty(tail[l])|
      modifies this`tail
      ensures |tail| == numLayers && forall l :: 0 <= l < numLayers ==> OrEmpty(tail[l]) == old(OrEmpty(tail[l]))[..n]
    {
      ghost var tail0 := tail;
      var l := 0;
      while l < numLayers
        invariant 0 <= l <= numLayers == |tail|
        invariant forall i :: l <= i < numLayers ==> tail[i] == tail0[i]
        invariant forall i :: 0 <= i < l ==> OrEmpty(tail[i]) == OrEmpty(tail0[i])[..n]
      {
        assert tail[l] == tail0[l];
        tail := tail[l := if n == 0 then None else Some(OrEmpty(tail[l])[..n])];
        l := l + 1;
      }
    }

    /** Truncation inside the tail. */
    method TruncateTail(len: nat)
      requires Valid() && AtRest() && Times(|blockIds|, pool.blockSize) <= len < Len()
      modifies this`tail, this`tailLen
      ensures Valid() && AtRest() && Len() == len && View() == Cut(old(View()), len)
    {
      ghost var tail0 := tail;
      var n := len - Times(|blockIds|, pool.blockSize);
      CutTails(n);
      tailLen := n;
      TailsCut(pool.blocks, blockIds, frozen, tail0, tail, n, len, numLayers, pool.blockSize);
    }

    /** Truncation that drops whole blocks; the kept part of the last one goes back into a private tail. */
    method TruncateBlocks(len: nat, ghost others: multiset<nat>)
      requires Valid() && len < Times(|blockIds|, pool.blockSize) && Accounted(pool.held, blockIds, others)
      modifies this, pool
      ensures Valid() && AtRest() && Len() == len && View() == Cut(old(View()), len)
      ensures Accounted(pool.held, blockIds, others) && KeptFor(old(pool.blocks), pool.blocks, others)
    {
      var keep, rem := Quot(len, pool.blockSize), Rem(len, pool.blockSize);
      CutSplits(len, pool.blockSize);
      if keep >= |blockIds| {
        TimesBelow(|blockIds|, keep, pool.blockSize);
      }
      hide Times, Quot, Rem, Counted, Consistent, KeptFor;
      ghost var frozen0, tail0, blocks0, ids0 := frozen, tail, pool.blocks, blockIds;
      CutLayers(keep, len);
      tailLen := rem;
      assert blockIds == blockIds[..keep] + blockIds[keep..];
      pool.ReleaseAll(blockIds[keep..], multiset(blockIds[..keep]) + others);
      blockIds := blockIds[..keep];
      KeptSubset(blocks0, pool.blocks, pool.held, multiset(blockIds));
      KeptSubset(blocks0, pool.blocks, pool.held, others);
      LayersCut(blocks0, pool.blocks, ids0, frozen0, tail0, keep, len, frozen, tail, numLayers, pool.blockSize);
    }

    /** Drop everything past `len`. Blocks another sequence shares are released, never written. */
    method Truncate(len: int, ghost others: multiset<nat>) returns (res: Result<(), Error>)
      requires Valid() && AtRest() && Accounted(pool.held, blockIds, others)
      modifies this, pool
      ensures len < 0 ==> res.Err? && unchanged(this) && unchanged(pool)
      ensures len >= 0 ==>
        res.Ok? && Valid() && AtRest() && Len() == Min(len, old(Len())) && View() == Cut(old(View()), len)
      ensures Accounted(pool.held, blockIds, others) && KeptFor(old(pool.blocks), pool.blocks, others)
    {
      KeptHeld(pool, others);
      if len < 0 {
        return Err(Msg("truncate: negative len"));
      }
      res := Ok(());
      if len >= Len() {
        CutAll(View(), len);
      } else if len >= Times(|blockIds|, pool.blockSize) {
        TruncateTail(len);
      } else {
        TruncateBlocks(len, others);
      }
    }

    /** Everything back to the pool. */
    method Reset(ghost others: multiset<nat>)
      requires Valid() && Accounted(pool.held, blockIds, others)
      modifies this, pool
      ensures Valid() && AtRest() && Len() == 0 && View() == seq(numLayers, _ => [])
      ensures blockIds == [] && pool.held == others && KeptFor(old(pool.blocks), pool.blocks, others)
    {
      pool.ReleaseAll(blockIds, others);
      blockIds := [];
      tail, frozen := seq(numLayers, _ => None), seq(numLayers, _ => None);
      tailLen := 0;
      EmptyView(pool.blocks, frozen, tail, numLayers, pool.blockSize);
      hide Consistent, ViewOf, KeptFor, Accounted, Counted;
    }

    /** The sequence goes out of scope: its references go back to the pool. */
    method Drop(ghost others: multiset<nat>)
      requires Valid() && Accounted(pool.held, blockIds, others)
      modifies pool
      ensures pool.Valid() && pool.held == others && KeptFor(old(pool.blocks), pool.blocks, others)
    {
      pool.ReleaseAll(blockIds, others);
    }

    /** One sequence: kept, or dropped. */
    method RetainSequences(keep: seq<int>, ghost others: multiset<nat>) returns (res: Result<(), Error>)
      requires Valid() && Accounted(pool.held, blockIds, others)
      modifies this, pool
      ensures keep != [] ==> unchanged(this) && unchanged(pool) && (res.Ok? <==> keep == [0])
      ensures keep == [] ==> res.Ok? && Valid() && AtRest() && Len() == 0 && pool.held == others
      ensures KeptFor(old(pool.blocks), pool.blocks, others)
    {
      KeptHeld(pool, others);
      if keep == [] {
        Reset(others);
      } else if keep != [0] {
        return Err(Msg("PagedKvCache is single-sequence; retain_sequences expects [] or [0]"));
      }
      res := Ok(());
    }

    /** Every layer's contiguous half built. */
    method BuildAll()
      requires Valid()
      modifies this`frozen
      ensures Valid() && View() == old(View())
      ensures forall l :: 0 <= l < numLayers ==> frozen[l].Some? || blockIds == []
    {
      var l := 0;
      while l < numLayers
        invariant 0 <= l <= numLayers && Valid() && View() == old(View())
        invariant forall i :: 0 <= i < l ==> frozen[i].Some? || blockIds == []
      {
        ghost var frozen0 := frozen;
        assert FrozenAgrees(pool.blocks, blockIds, frozen[l], l, pool.blockSize);
        EnsureFrozen(l);
        BuiltView(pool.blocks, blockIds, frozen0, frozen, tail, l, numLayers, pool.blockSize);
        l := l + 1;
      }
    }

    /** Put a copy of block `b` into the pool unless it has one. */
    method OfferBlock(b: nat, ghost others: multiset<nat>)
      requires Valid() && b < |blockIds| && Accounted(pool.held, blockIds, others)
      requires forall l :: 0 <= l < numLayers ==> frozen[l].Some?
      modifies pool`blocks
      ensures Valid() && View() == old(View())
      ensures numLayers > 0 ==> Materialized(pool.blocks, blockIds[b])
      ensures forall id :: Materialized(old(pool.blocks), id) ==> Materialized(pool.blocks, id)
      ensures KeptFor(old(pool.blocks), pool.blocks, others)
    {
      KeptHeld(pool, others);
      var id := blockIds[b];
      assert LiveBlock(pool.blocks, id);
      if !Materialized(pool.blocks, id) {
        TimesBelow(b + 1, |blockIds|, pool.blockSize);
        forall l | 0 <= l < numLayers ensures Times(b + 1, pool.blockSize) <= |frozen[l].value| {
          assert FrozenAgrees(pool.blocks, blockIds, frozen[l], l, pool.blockSize);
        }
        assert id in multiset(blockIds) && pool.held[id] == 1;
        ghost var blocks0 := pool.blocks;
        pool.Materialize(id, Slices(frozen, b, pool.blockSize));
        BlockFilled(blocks0, pool.blocks, blockIds, b, frozen, tail, numLayers, pool.blockSize);
      }
    }

    /** The pool holds a copy of the first blocks of the table: their join is this sequence's own beginning. */
    ghost predicate Offers(ids: seq<nat>)
      requires Valid()
      reads this, pool
    {
      && ids <= blockIds
      && TableShaped(pool.blocks, ids, numLayers, pool.blockSize) && AllMaterialized(pool.blocks, ids)
      && forall l :: 0 <= l < numLayers ==> OfferedLayer(pool.blocks, ids, View()[l], l, numLayers, pool.blockSize)
    }

    /** Blocks that carry data carry this sequence's. */
    lemma MaterializedIsOffered(n: nat)
      requires Valid() && n <= |blockIds| && AllMaterialized(pool.blocks, blockIds[..n])
      ensures Offers(blockIds[..n])
    {
      forall l | 0 <= l < numLayers ensures OfferedLayer(pool.blocks, blockIds[..n], View()[l], l, numLayers,
          pool.blockSize) {
        var run := FrozenKv(pool.blocks, blockIds, frozen[l], l, numLayers, pool.blockSize);
        BuiltAgrees(pool.blocks, blockIds, frozen[l], l, numLayers, pool.blockSize);
        JoinedIsPrefix(pool.blocks, blockIds, n, run, l, numLayers, pool.blockSize);
        assert (run + OrEmpty(tail[l]))[..Times(n, pool.blockSize)] == run[..Times(n, pool.blockSize)];
      }
    }

    /** The first `n` blocks put into the pool. */
    method OfferBlocks(n: nat, ghost others: multiset<nat>)
      requires Valid() && n <= |blockIds| && Accounted(pool.held, blockIds, others)
      requires numLayers > 0 && forall l :: 0 <= l < numLayers ==> frozen[l].Some?
      modifies pool`blocks
      ensures Valid() && View() == old(View())
      ensures AllMaterialized(pool.blocks, blockIds[..n])
      ensures KeptFor(old(pool.blocks), pool.blocks, others)
    {
      KeptHeld(pool, others);
      var b := 0;
      while b < n
        invariant 0 <= b <= n
        invariant Valid() && View() == old(View())
        invariant AllMaterialized(pool.blocks, blockIds[..b])
        invariant KeptFor(old(pool.blocks), pool.blocks, others)
      {
        ghost var prev := pool.blocks;
        OfferBlock(b, others);
        KeptStep(old(pool.blocks), prev, pool.blocks, others, others);
        assert forall i :: 0 <= i < b ==> blockIds[..b + 1][i] == blockIds[..b][i];
        b := b + 1;
      }
    }

    /** The blocks covering the first `tokens` positions, rounded down to whole blocks, each with its data in
        the pool: what a sibling can be seeded with, to start from this sequence's own content. */
    method ShareablePrefixBlocks(tokens: nat, ghost others: multiset<nat>) returns (ids: seq<nat>)
      requires Valid() && Accounted(pool.held, blockIds, others)
      modifies this`frozen, pool`blocks
      ensures Valid() && View() == old(View())
      ensures KeptFor(old(pool.blocks), pool.blocks, others)
      ensures |ids| == Min(Quot(tokens, pool.blockSize), |blockIds|)
      ensures numLayers > 0 ==> Offers(ids)
    {
      KeptHeld(pool, others);
      var n := Min(Quot(tokens, pool.blockSize), |blockIds|);
      if n > 0 && numLayers > 0 {
        BuildAll();
        OfferBlocks(n, others);
      }
      if numLayers > 0 {
        MaterializedIsOffered(n);
      }
      ids := blockIds[..n];
    }
  }
}
