/** src/decode/prefix.rs: shared-prefix KV reuse, and exactly when it is exact. */
module Prefix {
  import opened Prelude
  import opened Attention
  import opened KvCache
  import opened Llama
  import opened CausalLm
  import opened Sampler
  import opened Stream

  // ----- core_llm::prefix::PrefixIndex: longest common prefix, LRU eviction -----

  datatype Entry = Entry(id: nat, tokens: seq<int>)

  datatype Match = Match(id: nat, matchedLen: nat)

  function CommonPrefix(a: seq<int>, b: seq<int>): (n: nat)
    ensures n <= |a| && n <= |b| && (forall k :: 0 <= k < n ==> a[k] == b[k])
    ensures n < |a| && n < |b| ==> a[n] != b[n]
  {
    if a == [] || b == [] || a[0] != b[0] then 0 else 1 + CommonPrefix(a[1..], b[1..])
  }

  /** The most recently used entry among those sharing the longest prefix with `prompt`. */
  function BestMatch(entries: seq<Entry>, prompt: seq<int>): (best: Option<Match>)
    ensures best.None? ==> forall e :: e in entries ==> CommonPrefix(e.tokens, prompt) == 0
    ensures best.Some? ==> best.value.matchedLen > 0
    ensures best.Some? ==>
      exists e :: e in entries && e.id == best.value.id && best.value.matchedLen == CommonPrefix(e.tokens, prompt)
    ensures best.Some? ==> forall e :: e in entries ==> CommonPrefix(e.tokens, prompt) <= best.value.matchedLen
  {
    if entries == [] then None
    else
      var last := entries[|entries| - 1];
      var n := CommonPrefix(last.tokens, prompt);
      var rest := BestMatch(entries[..|entries| - 1], prompt);
      if n > 0 && (rest.None? || rest.value.matchedLen <= n) then Some(Match(last.id, n)) else rest
  }

  function Ids(entries: seq<Entry>): set<nat>
  {
    set e | e in entries :: e.id
  }

  /** The tokens indexed under `id`. */
  function Key(entries: seq<Entry>, id: nat): seq<int>
    requires id in Ids(entries)
  {
    if entries[0].id == id then entries[0].tokens else Key(entries[1..], id)
  }

  lemma {:induction false} KeyOf(entries: seq<Entry>, e: Entry)
    requires e in entries && Distinct(entries)
    ensures e.id in Ids(entries) && Key(entries, e.id) == e.tokens
  {
    if entries[0] != e {
      KeyOf(entries[1..], e);
    }
  }

  predicate Distinct(entries: seq<Entry>)
  {
    forall i, j :: 0 <= i < j < |entries| ==> entries[i].id != entries[j].id
  }

  lemma MovedToEnd(entries: seq<Entry>, i: nat)
    requires i < |entries| && Distinct(entries)
    ensures var moved := entries[..i] + entries[i + 1..] + [entries[i]];
      Distinct(moved) && |moved| == |entries| && forall e :: e in moved <==> e in entries
  {
    var moved := entries[..i] + entries[i + 1..] + [entries[i]];
    forall e | e in entries ensures e in moved {
      var k :| 0 <= k < |entries| && entries[k] == e;
      assert k < i ==> moved[k] == e;
      assert k > i ==> moved[k - 1] == e;
      assert k == i ==> moved[|moved| - 1] == e;
    }
  }

  /** The entries after `id` was used: it goes behind all others, which keep their order. */
  function Used(entries: seq<Entry>, id: nat): seq<Entry>
  {
    if entries == [] then []
    else if entries[0].id == id then entries[1..] + [entries[0]]
    else [entries[0]] + Used(entries[1..], id)
  }

  lemma {:induction false} UsedAt(entries: seq<Entry>, i: nat)
    requires i < |entries| && forall j :: 0 <= j < i ==> entries[j].id != entries[i].id
    ensures Used(entries, entries[i].id) == entries[..i] + entries[i + 1..] + [entries[i]]
  {
    if i > 0 {
      UsedAt(entries[1..], i - 1);
      assert entries[..i] == [entries[0]] + entries[1..][..i - 1];
      assert entries[1..][i..] == entries[i + 1..];
    }
  }

  /** Past the capacity the least recently used entry goes. */
  function Bounded(entries: seq<Entry>, capacity: nat): (seq<Entry>, seq<nat>)
  {
    if |entries| > capacity then (entries[1..], [entries[0].id]) else (entries, [])
  }

  /** Entries in order of use, least recently used first. */
  class PrefixIndex {
    var entries: seq<Entry>
    var nextId: nat
    const capacity: nat

    ghost predicate Valid()
      reads this
    {
      Distinct(entries) && |entries| <= capacity && forall e :: e in entries ==> e.id < nextId
    }

    constructor (capacity: nat)
      ensures Valid() && entries == [] && this.capacity == capacity
    {
      this.capacity := capacity;
      entries, nextId := [], 0;
    }

    /** The best match, which becomes the most recently used entry; the set of entries is unchanged. */
    method LongestMatch(prompt: seq<int>) returns (best: Option<Match>)
      requires Valid()
      modifies this
      ensures Valid() && nextId == old(nextId)
      ensures best == BestMatch(old(entries), prompt)
      ensures entries == if best.Some? then Used(old(entries), best.value.id) else old(entries)
      ensures forall e :: e in entries <==> e in old(entries)
    {
      best := BestMatch(entries, prompt);
      if best.Some? {
        var i := 0;
        while entries[i].id != best.value.id
          decreases |entries| - i
          invariant 0 <= i < |entries|
          invariant exists j :: i <= j < |entries| && entries[j].id == best.value.id
          invariant forall j :: 0 <= j < i ==> entries[j].id != best.value.id
        {
          i := i + 1;
        }
        MovedToEnd(entries, i);
        UsedAt(entries, i);
        entries := entries[..i] + entries[i + 1..] + [entries[i]];
      }
    }

    /** Index `tokens` under a fresh id, then evict the least recently used entry past the capacity. */
    method Insert(tokens: seq<int>) returns (id: nat, evicted: seq<nat>)
      requires Valid()
      modifies this
      ensures Valid() && id == old(nextId) && id !in Ids(old(entries))
      ensures (entries, evicted) == Bounded(old(entries) + [Entry(id, tokens)], capacity)
      ensures capacity > 0 ==> Entry(id, tokens) in entries
      ensures forall e :: e in entries ==> e in old(entries) || e == Entry(id, tokens)
      ensures forall e :: e in old(entries) && e !in entries ==> e.id in evicted
      ensures forall x :: x in evicted ==> x !in Ids(entries) && (x == id || x in Ids(old(entries)))
    {
      id := nextId;
      ghost var before := entries;
      var all := entries + [Entry(id, tokens)];
      nextId := nextId + 1;
      entries, evicted := all, [];
      if |all| > capacity {
        entries, evicted := all[1..], [all[0].id];
      }
      assert entries != [] ==> entries[|entries| - 1] == Entry(id, tokens);
      forall k | 0 <= k < |before| ensures before[k] in entries || before[k].id in evicted {
        assert all[k] == before[k];
        if k > 0 {
          assert all[1..][k - 1] == before[k];
        }
      }
    }
  }

  // ----- the cache -----

  datatype PrefixStats = PrefixStats(lookups: nat, hits: nat, reusedPrefixTokens: nat, computedPrefillTokens: nat)

  /** Layer-wise keys and values of one stored sequence. */
  type Stored = seq<seq<KV>>

  /** The stored tensors are rectangular, and non-empty as a model has layers. */
  predicate StoredShaped(m: Model, kv: Stored)
  {
    |kv| == |m.layers| && kv != [] && forall l :: 0 <= l < |kv| ==> |kv[l]| == |kv[0]|
  }

  /** Gathering rows `0..len`; a row past the stored length is whatever the unchecked gather reads there. */
  function TakeRows(rows: seq<KV>, len: nat, layer: nat, unread: (nat, nat) -> KV): (out: seq<KV>)
    ensures |out| == len
    ensures forall i :: 0 <= i < len ==> out[i] == (if i < |rows| then rows[i] else unread(layer, i))
  {
    seq(len, i requires 0 <= i < len => if i < |rows| then rows[i] else unread(layer, i))
  }

  /** `slice_layers`. */
  function SliceLayers(stored: Stored, len: nat, unread: (nat, nat) -> KV): (out: Stored)
    ensures |out| == |stored|
    ensures forall l :: 0 <= l < |stored| ==> out[l] == TakeRows(stored[l], len, l, unread)
  {
    seq(|stored|, l requires 0 <= l < |stored| => TakeRows(stored[l], len, l, unread))
  }

  /** The stored keys and values are those of the key, possibly without its last token. */
  ghost predicate EntryExact(m: Model, key: seq<int>, kv: Stored)
  {
    StoredShaped(m, kv) && |kv[0]| <= |key| <= |kv[0]| + 1 && kv == CacheOf(m, key[..|kv[0]|])
  }

  /** The lookup's outcome as a function of the cache state: the reused entry and how many tokens it covers,
      always leaving one token to prefill. */
  function Hit(entries: seq<Entry>, kv: map<nat, Stored>, prompt: seq<int>): (hit: Option<(nat, nat)>)
    ensures hit.Some? ==> hit.value.0 in kv && 0 < hit.value.1 && hit.value.1 < |prompt|
  {
    match BestMatch(entries, prompt)
    case None => None
    case Some(best) =>
      var len := Min(best.matchedLen, Max(|prompt| - 1, 0));
      if len > 0 && best.id in kv then Some((best.id, len)) else None
  }

  /** The guard a caller can check before the call: the reused span does not reach past the stored rows. */
  predicate InRange(entries: seq<Entry>, kv: map<nat, Stored>, prompt: seq<int>)
  {
    var hit := Hit(entries, kv, prompt);
    hit.Some? && kv[hit.value.0] != [] ==> hit.value.1 <= |kv[hit.value.0][0]|
  }

  /** The single batch row of every exported layer. */
  function FirstRows(layers: seq<seq<seq<KV>>>): (out: Stored)
    ensures |out| == |layers|
  {
    seq(|layers|, l requires 0 <= l < |layers| => if layers[l] != [] then layers[l][0] else [])
  }

  /** A cache that has stepped at least once exports exactly its row. */
  lemma ExportedRow(m: Model, cache: ContiguousKvCache, n: nat)
    requires Ready(m, cache.layers, n) && n > 0
    ensures cache.Export().Some? && FirstRows(cache.Export().value) == Row(cache.layers, 0)
    ensures StoredShaped(m, Row(cache.layers, 0))
  {
    forall l | 0 <= l < |cache.layers| ensures cache.layers[l].Some? {
      assert Row(cache.layers, 0)[l] == SlotRow(cache.layers[l], 0);
    }
    assert FirstRows(cache.Export().value) == Row(cache.layers, 0);
  }

  lemma SameIds(a: seq<Entry>, b: seq<Entry>)
    requires forall e :: e in a <==> e in b
    ensures Ids(a) == Ids(b)
  {
  }

  lemma KeysStable(a: seq<Entry>, b: seq<Entry>)
    requires Distinct(a) && Distinct(b) && forall e :: e in a <==> e in b
    ensures Ids(a) == Ids(b) && forall id :: id in Ids(a) ==> Key(a, id) == Key(b, id)
  {
    forall id | id in Ids(a) ensures id in Ids(b) && Key(a, id) == Key(b, id) {
      var e :| e in a && e.id == id;
      KeyOf(a, e);
      KeyOf(b, e);
    }
  }

  lemma SeededReady(m: Model, slots: Slots, layers: Stored, len: nat)
    requires ValidModel(m) && |slots| == |layers| == |m.layers|
    requires forall l :: 0 <= l < |layers| ==> slots[l] == Some([layers[l]]) && |layers[l]| == len
    ensures Ready(m, slots, len) && Row(slots, 0) == layers
  {
    assert Row(slots, 0) == layers;
  }

  /** One more lookup: on a hit of `len` tokens that many are reused, and only the rest of the prompt is computed. */
  function StatsAfter(stats: PrefixStats, hit: Option<(nat, nat)>, n: nat): PrefixStats
  {
    match hit
    case None =>
      PrefixStats(stats.lookups + 1, stats.hits, stats.reusedPrefixTokens, stats.computedPrefillTokens + n)
    case Some((_, len)) =>
      PrefixStats(stats.lookups + 1, stats.hits + 1, stats.reusedPrefixTokens + len,
                  stats.computedPrefillTokens + Max(n - len, 0))
  }

  class PrefixCache {
    const index: PrefixIndex
    var kv: map<nat, Stored>
    var stats: PrefixStats

    /** Live tensors are exactly the index's live entries, and rectangular. */
    ghost predicate Valid(m: Model)
      reads this, index
    {
      && ValidModel(m) && index.Valid()
      && kv.Keys == Ids(index.entries)
      && forall id :: id in kv ==> StoredShaped(m, kv[id])
    }

    /** Every stored entry really is its key's. */
    ghost predicate Exact(m: Model)
      reads this, index
      requires Valid(m)
    {
      forall id :: id in kv ==> EntryExact(m, Key(index.entries, id), kv[id])
    }

    constructor (capacity: nat)
      ensures fresh(index) && index.capacity == capacity
      ensures forall m :: ValidModel(m) ==> Valid(m) && Exact(m)
      ensures stats == PrefixStats(0, 0, 0, 0)
    {
      index := new PrefixIndex(capacity);
      kv, stats := map[], PrefixStats(0, 0, 0, 0);
    }

    /** `seed_for`: on a hit, a cache seeded with the reused span. */
    method SeedFor(m: Model, prompt: seq<int>, unread: (nat, nat) -> KV) returns (hit: Option<(ContiguousKvCache, nat)>)
      requires Valid(m) && prompt != []
      modifies this, index
      ensures Valid(m) && kv == old(kv) && index.nextId == old(index.nextId)
      ensures var best := BestMatch(old(index.entries), prompt);
        index.entries == if best.Some? then Used(old(index.entries), best.value.id) else old(index.entries)
      ensures old(Exact(m)) ==> Exact(m)
      ensures var h := Hit(old(index.entries), old(kv), prompt);
        && (hit.Some? <==> h.Some?)
        && (hit.Some? ==>
              && fresh(hit.value.0) && hit.value.1 == h.value.1
              && Ready(m, hit.value.0.layers, h.value.1)
              && Row(hit.value.0.layers, 0) == SliceLayers(kv[h.value.0], h.value.1, unread))
        && stats == StatsAfter(old(stats), h, |prompt|)
    {
      hide Ready, Row, Distinct, BestMatch, Key, CommonPrefix, Ids, Used;
      stats := stats.(lookups := stats.lookups + 1);
      ghost var entries0 := index.entries;
      var best := index.LongestMatch(prompt);
      SameIds(index.entries, entries0);
      KeysStable(index.entries, entries0);
      var len := if best.Some? then Min(best.value.matchedLen, Max(|prompt| - 1, 0)) else 0;
      if best.Some? && len > 0 && best.value.id in kv {
        var layers := SliceLayers(kv[best.value.id], len, unread);
        stats := stats.(hits := stats.hits + 1, reusedPrefixTokens := stats.reusedPrefixTokens + len,
                        computedPrefillTokens := stats.computedPrefillTokens + (|prompt| - len));
        var cache := new ContiguousKvCache.Seeded(layers);
        SeededReady(m, cache.layers, layers, len);
        hit := Some((cache, len));
      } else {
        stats := stats.(computedPrefillTokens := stats.computedPrefillTokens + |prompt|);
        hit := None;
      }
    }

    /** `store`: index the full sequence, free what that evicts, keep the tensors if the entry survived. */
    method Store(m: Model, tokens: seq<int>, cache: ContiguousKvCache, ghost n: nat)
      requires Valid(m) && Ready(m, cache.layers, n) && n > 0
      modifies this, index
      ensures Valid(m) && stats == old(stats)
      ensures index.entries
           == Bounded(old(index.entries) + [Entry(old(index.nextId), tokens)], index.capacity).0
      ensures old(Exact(m)) && EntryExact(m, tokens, Row(cache.layers, 0)) ==> Exact(m)
      ensures forall id :: id in kv && id != old(index.nextId) ==>
        id in old(kv) && kv[id] == old(kv)[id] && Key(index.entries, id) == old(Key(index.entries, id))
      ensures index.capacity > 0 ==>
        old(index.nextId) in kv && kv[old(index.nextId)] == Row(cache.layers, 0)
        && Key(index.entries, old(index.nextId)) == tokens
    {
      hide Ready, Key, CacheOf, Distinct, EntryExact, Bounded;
      ghost var entries0, kv0 := index.entries, kv;
      ghost var view := Row(cache.layers, 0);
      ExportedRow(m, cache, n);
      var exported := cache.Export();
      if exported.None? {
        return;
      }
      var layers := FirstRows(exported.value);
      var id, evicted := index.Insert(tokens);
      kv := kv - (set x | x in evicted);
      if id in Ids(index.entries) {
        kv := kv[id := layers];
      }
      StoreKeeps(m, entries0, kv0, index.entries, kv, id, tokens, view, evicted);
    }
  }

  lemma StoreKeeps(m: Model, before: seq<Entry>, kv0: map<nat, Stored>, after: seq<Entry>, kv: map<nat, Stored>,
                   id: nat, tokens: seq<int>, view: Stored, evicted: seq<nat>)
    requires Distinct(before) && Distinct(after) && id !in Ids(before) && kv0.Keys == Ids(before)
    requires forall e :: e in after ==> e in before || e == Entry(id, tokens)
    requires forall e :: e in before && e !in after ==> e.id in evicted
    requires forall x :: x in evicted ==> x !in Ids(after)
    requires var rest := kv0 - (set x | x in evicted);
      kv == if id in Ids(after) then rest[id := view] else rest
    ensures kv.Keys == Ids(after)
    ensures forall x :: x in kv ==> kv[x] == (if x == id then view else if x in kv0 then kv0[x] else view)
    ensures forall x :: x in kv && x != id ==> x in Ids(before) && x in Ids(after) && Key(after, x) == Key(before, x)
    ensures id in kv ==> id in Ids(after) && Key(after, id) == tokens
  {
    forall x | x in Ids(after) ensures x in kv && (x != id ==> x in Ids(before) && Key(after, x) == Key(before, x)) {
      var e :| e in after && e.id == x;
      KeyOf(after, e);
      if x != id {
        KeyOf(before, e);
      } 
    }
    forall x | x in kv ensures x in Ids(after) {
      if x != id {
        var e :| e in before && e.id == x;
        assert e in after;
      }
    }
    if id in kv {
      var e :| e in after && e.id == id;
      assert e == Entry(id, tokens);
      KeyOf(after, e);
    }
  }

  /** Slicing a stored entry is exact for every possible out-of-range read if and only if there is none. */
  lemma SliceIsExactIffInRange(m: Model, key: seq<int>, n: nat, len: nat)
    requires ValidModel(m) && n <= |key| && len <= |key|
    ensures len <= n <==>
      forall unread: (nat, nat) -> KV :: SliceLayers(CacheOf(m, key[..n]), len, unread) == CacheOf(m, key[..len])
  {
    var stored := CacheOf(m, key[..n]);
    if len <= n {
      forall unread: (nat, nat) -> KV
        ensures SliceLayers(stored, len, unread) == CacheOf(m, key[..len])
      {
        forall l | 0 <= l < |stored| ensures SliceLayers(stored, len, unread)[l] == CacheOf(m, key[..len])[l] {
          CachePrefix(m, key[..n], len, l);
          assert key[..n][..len] == key[..len];
        }
      }
    } else {
      var a: (nat, nat) -> KV := (_, _) => KV([], []);
      var b: (nat, nat) -> KV := (_, _) => KV([1.0], []);
      assert SliceLayers(stored, len, a)[0][n] == KV([], []);
      assert SliceLayers(stored, len, b)[0][n] == KV([1.0], []);
    }
  }

  predicate ExtendsShortEntry(key: seq<int>, stored: Stored, prompt: seq<int>)
  {
    stored != [] && |stored[0]| < |key| < |prompt| && key <= prompt
  }

  /** When the reuse goes out of range: exactly when the best entry lost its last token (its run ended by the
      budget) and its whole key is a proper prefix of the new prompt. */
  lemma OutOfRangeIffShortEntryExtended(m: Model, entries: seq<Entry>, kv: map<nat, Stored>, prompt: seq<int>)
    requires Distinct(entries) && kv.Keys == Ids(entries)
    requires forall id :: id in kv ==> EntryExact(m, Key(entries, id), kv[id])
    ensures !InRange(entries, kv, prompt) <==>
      var best := BestMatch(entries, prompt);
      best.Some? && ExtendsShortEntry(Key(entries, best.value.id), kv[best.value.id], prompt)
  {
    hide CacheOf, CommonPrefix, BestMatch, Key, Distinct;
    var best := BestMatch(entries, prompt);
    if best.Some? {
      var e :| e in entries && e.id == best.value.id && best.value.matchedLen == CommonPrefix(e.tokens, prompt);
      KeyOf(entries, e);
      var key, n := e.tokens, best.value.matchedLen;
      assert EntryExact(m, key, kv[e.id]);
      assert n == |key| <==> key <= prompt;
    }
  }

  /** A lookup in range of an exact cache seeds exactly the prompt's own prefix. */
  lemma HitIsExact(m: Model, entries: seq<Entry>, kv: map<nat, Stored>, prompt: seq<int>, unread: (nat, nat) -> KV)
    requires ValidModel(m) && Distinct(entries) && kv.Keys == Ids(entries) && InRange(entries, kv, prompt)
    requires forall id :: id in kv ==> EntryExact(m, Key(entries, id), kv[id])
    ensures var hit := Hit(entries, kv, prompt);
      hit.Some? ==> SliceLayers(kv[hit.value.0], hit.value.1, unread) == CacheOf(m, prompt[..hit.value.1])
  {
    hide CacheOf, CommonPrefix, BestMatch, Key, Distinct;
    var hit := Hit(entries, kv, prompt);
    if hit.Some? {
      var (id, len) := hit.value;
      var n := BestMatch(entries, prompt).value.matchedLen;
      var e :| e in entries && e.id == id && n == CommonPrefix(e.tokens, prompt);
      KeyOf(entries, e);
      assert EntryExact(m, e.tokens, kv[id]);
      SliceIsExactIffInRange(m, e.tokens, |kv[id][0]|, len);
      assert e.tokens[..len] == e.tokens[..n][..len] == prompt[..n][..len] == prompt[..len];
    }
  }

  /** The longest cached prefix, or a cold cache. */
  method ReuseOrCold(m: Model, prompt: seq<int>, pc: PrefixCache, unread: (nat, nat) -> KV)
    returns (cache: ContiguousKvCache, matched: nat)
    requires pc.Valid(m) && prompt != []
    modifies pc, pc.index
    ensures pc.Valid(m) && fresh(cache) && pc.index.nextId == old(pc.index.nextId)
    ensures matched < |prompt| && Ready(m, cache.layers, matched)
    ensures old(pc.Exact(m)) ==> pc.Exact(m)
    ensures old(pc.Exact(m) && InRange(pc.index.entries, pc.kv, prompt)) ==>
      Row(cache.layers, 0) == CacheOf(m, prompt[..matched])
    ensures var hit := old(Hit(pc.index.entries, pc.kv, prompt));
      matched == (if hit.Some? then hit.value.1 else 0) && pc.stats == StatsAfter(old(pc.stats), hit, |prompt|)
  {
    hide CacheOf, Row, Ready, Distinct, BestMatch, Key, EntryExact, Ids, InRange;
    ghost var exact := pc.Exact(m) && InRange(pc.index.entries, pc.kv, prompt);
    if exact {
      HitIsExact(m, pc.index.entries, pc.kv, prompt, unread);
    }
    var hit := pc.SeedFor(m, prompt, unread);
    if hit.Some? {
      cache, matched := hit.value.0, hit.value.1;
    } else {
      cache := new ContiguousKvCache(|m.layers|);
      matched := 0;
      FreshHoldsNothing(m, cache.layers);
      FreshReady(m, cache.layers);
      assert prompt[..0] == [];
    }
  }

  /** Prefill the suffix, decode, and store the full sequence for next time. */
  method RunAndStore(m: Model, prompt: seq<int>, matched: nat, cache: ContiguousKvCache, cfg: GenerationConfig,
                     cancel: CancelFlag, pc: PrefixCache)
    returns (out: GenerationOutput, events: seq<StreamEvent>)
    requires pc.Valid(m) && matched < |prompt| && Ready(m, cache.layers, matched)
    modifies cache, pc, pc.index
    ensures pc.Valid(m) && pc.stats == old(pc.stats) && events == EventsOf(out)
    ensures old(pc.Exact(m)) && old(Row(cache.layers, 0)) == CacheOf(m, prompt[..matched]) ==>
      && out == Solo(m, cfg, NoHooks, cancel, 1, prompt, [], cfg.seed)
      && pc.Exact(m)
      && (pc.index.capacity > 0 ==>
            && old(pc.index.nextId) in pc.kv
            && Key(pc.index.entries, old(pc.index.nextId)) == prompt + out.tokens
            && pc.kv[old(pc.index.nextId)] == CacheOf(m, prompt + KeptTokens(out)))
  {
    hide CacheOf, Row, Ready, Distinct, BestMatch, Key, Solo, PrefilledRun, KeptTokens, EntryExact, Ids;
    PrefilledRunIsSolo(m, cfg, NoHooks, cancel, 1, prompt, matched);
    out, events := PrefillAndLoop(m, prompt, matched, cache, cfg, cancel, 1, NoHooks);
    ghost var k: nat :| k >= |prompt| && Ready(m, cache.layers, k);
    KeptIsExact(m, prompt, out);
    pc.Store(m, prompt + out.tokens, cache, k);
  }

  /** `generate_cached`. From an exact cache, a call in range is the cold run, event for event, and leaves the
      cache exact; the new entry lacks its last token exactly when `KeptTokens` says so. */
  method GenerateCached(m: Model, prompt: seq<int>, cfg: GenerationConfig, cancel: CancelFlag, pc: PrefixCache,
                        unread: (nat, nat) -> KV)
    returns (res: Result<GenerationOutput, Error>, events: seq<StreamEvent>)
    requires pc.Valid(m)
    modifies pc, pc.index
    ensures pc.Valid(m)
    ensures Tripped(cancel, 0) ==> res == Err(Canceled) && events == []
    ensures !Tripped(cancel, 0) ==> (res.Err? <==> prompt == [])
    ensures res.Err? ==> pc.kv == old(pc.kv) && pc.index.entries == old(pc.index.entries) && pc.stats == old(pc.stats)
    ensures res.Ok? ==> events == EventsOf(res.value)
    ensures res.Ok? ==> pc.stats == StatsAfter(old(pc.stats), old(Hit(pc.index.entries, pc.kv, prompt)), |prompt|)
    ensures pc.stats.reusedPrefixTokens + pc.stats.computedPrefillTokens
         == old(pc.stats.reusedPrefixTokens + pc.stats.computedPrefillTokens) + (if res.Ok? then |prompt| else 0)
    ensures res.Ok? && old(pc.Exact(m) && InRange(pc.index.entries, pc.kv, prompt)) ==>
      && res.value == Solo(m, cfg, NoHooks, cancel, 1, prompt, [], cfg.seed)
      && pc.Exact(m)
      && (pc.index.capacity > 0 ==>
            && old(pc.index.nextId) in pc.kv
            && Key(pc.index.entries, old(pc.index.nextId)) == prompt + res.value.tokens
            && pc.kv[old(pc.index.nextId)] == CacheOf(m, prompt + KeptTokens(res.value)))
  {
    if Tripped(cancel, 0) {
      return Err(Canceled), [];
    }
    if prompt == [] {
      return Err(Msg("generate_cached: empty prompt")), [];
    }
    hide CacheOf, Row, Ready, Distinct, BestMatch, Key, Solo, InRange, EntryExact, Ids, KeptTokens;
    var cache, matched := ReuseOrCold(m, prompt, pc, unread);
    var out, ev := RunAndStore(m, prompt, matched, cache, cfg, cancel, pc);
    return Ok(out), ev;
  }

  lemma FreshReady(m: Model, slots: Slots)
    requires ValidModel(m) && Holds(m, slots, [])
    ensures Ready(m, slots, 0) && Row(slots, 0) == CacheOf(m, [])
  {
  }

  /** What a finished run leaves cached is exact for the sequence it is stored under. */
  lemma KeptIsExact(m: Model, prompt: seq<int>, out: GenerationOutput)
    requires ValidModel(m)
    ensures EntryExact(m, prompt + out.tokens, CacheOf(m, prompt + KeptTokens(out)))
  {
    var key, kept := prompt + out.tokens, prompt + KeptTokens(out);
    assert key[..|kept|] == kept;
  }

  // ----- the promise "token for token identical to a cold run" fails out of range -----

  /** A one-layer decoder whose next token is the token before the last one. */
  const EchoLayer: Layer := Layer(
    x => x, (x, pos) => Projected(x, KV(x, x)),
    (q: Vec, seen: seq<KV>) => if |seen| >= 2 then seen[|seen| - 2].v else [0.0],
    1, 1, x => x, (x, attended) => attended)

  const EchoModel: Model := Model(t => [t as real], [EchoLayer], h => h, 10)

  const EchoConfig: GenerationConfig := GenerationConfig(1,
    SamplingParams(0.0, (logits: Vec, h: seq<int>, a: Option<seq<bool>>) => if logits != [] then logits[0].Floor else 0,
                   (logits, h, a, rng) => (0, rng), (logits, h) => [], rng => (0.0, rng)),
    0, [])

  lemma OneLayer(m: Model, ids: seq<int>, off: int, view: seq<seq<KV>>)
    requires |m.layers| == 1 == |view|
    ensures StepStates(m, ids, off, view)
         == LayerOut(m.layers[0], Embeds(m, ids), Positions(off, |ids|), view[0], Causal)
  {
    var out := LayerOut(m.layers[0], Embeds(m, ids), Positions(off, |ids|), view[0], Causal);
    assert StackOut(m.layers[1..], out, Positions(off, |ids|), view[1..], Causal) == out;
  }

  lemma EchoValues(ids: seq<int>, off: nat, past: seq<KV>)
    requires ids != []
    ensures var kvs := LayerKv(EchoLayer, Embeds(EchoModel, ids), Positions(off, |ids|), past);
      && |kvs| == |past| + |ids|
      && (|ids| >= 2 ==> kvs[|kvs| - 2].v == [ids[|ids| - 2] as real])
      && (|ids| == 1 && past != [] ==> kvs[|kvs| - 2].v == past[|past| - 1].v)
  {
  }

  lemma EchoStep(ids: seq<int>, off: nat, view: seq<seq<KV>>)
    requires |view| == 1 && ids != []
    ensures StepLogits(EchoModel, ids, off, view, |ids| - 1)
         == if |ids| >= 2 then [ids[|ids| - 2] as real]
            else if view[0] != [] then view[0][|view[0]| - 1].v
            else [0.0]
  {
    hide StackOut, StackKv;
    var xs, pos := Embeds(EchoModel, ids), Positions(off, |ids|);
    var kvs := LayerKv(EchoLayer, xs, pos, view[0]);
    var i := |ids| - 1;
    assert VisibleTo(Causal, kvs, i, |ids|) == kvs;
    OneLayer(EchoModel, ids, off, view);
    EchoValues(ids, off, view[0]);
    hide LayerKv;
    assert LayerOut(EchoLayer, xs, pos, view[0], Causal)[i] == EchoLayer.kernel(xs[i], kvs);
  }

  /** With a budget of one, a run commits the greedy choice of its first logits. */
  lemma EchoRun(prompt: seq<int>, n: nat, view: seq<seq<KV>>)
    requires |view| == 1 && n < |prompt| && |view[0]| == n
    ensures var t := if n + 2 <= |prompt| then [prompt[|prompt| - 2] as real] else if n > 0 then view[0][n - 1].v
        else [0.0];
      t != [] ==> PrefilledRun(EchoModel, EchoConfig, NoHooks, Never, 1, prompt, n, view).0.tokens == [t[0].Floor]
  {
    hide LayerOut, StackOut, StackKv;
    var logits := StepLogits(EchoModel, prompt[n..], n, view, |prompt| - n - 1);
    EchoStep(prompt[n..], n, view);
    assert Sample(logits, prompt, EchoConfig.sampling, 0, None).0 == if logits != [] then logits[0].Floor else 0;
  }

  lemma EchoCold(prompt: seq<int>)
    requires prompt != []
    ensures Solo(EchoModel, EchoConfig, NoHooks, Never, 1, prompt, [], 0).tokens
         == [if |prompt| >= 2 then prompt[|prompt| - 2] else 0]
  {
    hide LayerOut, StackOut, StackKv, Solo, PrefilledRun;
    assert prompt[..0] == [];
    EchoRun(prompt, 0, CacheOf(EchoModel, []));
    PrefilledRunIsSolo(EchoModel, EchoConfig, NoHooks, Never, 1, prompt, 0);
  }

  /** The promise fails: a run on `[1]` that ends by its budget is stored under `[1, 0]` with one row of keys and
      values. The prompt `[1, 0, 7]` then reuses two, and the row that was never stored decides its output. */
  lemma ShortEntryBreaksReuse()
    ensures Solo(EchoModel, EchoConfig, NoHooks, Never, 1, [1], [], 0).tokens == [0]
    ensures var cold := Solo(EchoModel, EchoConfig, NoHooks, Never, 1, [1, 0, 7], [], 0);
      var entries, kv := [Entry(0, [1, 0])], map[0 := CacheOf(EchoModel, [1])];
      && EntryExact(EchoModel, [1, 0], kv[0])
      && Hit(entries, kv, [1, 0, 7]) == Some((0, 2))
      && exists unread: (nat, nat) -> KV ::
           PrefilledRun(EchoModel, EchoConfig, NoHooks, Never, 1, [1, 0, 7], 2, SliceLayers(kv[0], 2, unread)).0 != cold
  {
    hide PrefilledRun, Solo, CacheOf;
    var prompt := [1, 0, 7];
    var kv := CacheOf(EchoModel, [1]);
    assert [1, 0][..1] == [1];
    assert CommonPrefix([1, 0], prompt) == 2 by {
      assert [1, 0] <= prompt;
    }
    EchoCold([1]);
    EchoCold(prompt);
    var unread: (nat, nat) -> KV := (_, _) => KV([9.0], [9.0]);
    var view := SliceLayers(kv, 2, unread);
    assert view[0][1] == KV([9.0], [9.0]);
    EchoRun(prompt, 2, view);
  }
}
