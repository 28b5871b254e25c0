/** The host-side bookkeeping both batch loops share (src/decode/batch.rs, src/decode/continuous.rs): lanes, the
    scheduler's record and the interleaved events. `C` is what a lane carries besides: its own cache, or its pad. */
module Lanes {
  import opened Prelude
  import opened Attention
  import opened Llama
  import opened Sampler
  import opened Stream
  import opened Scheduler

  /** One decoding request. Its index is also its scheduler id. */
  datatype Lane<+C> = Lane(
    reqIndex: nat, slot: C, rng: Rng, params: SamplingParams, history: seq<int>, nextToken: int)

  predicate ValidRequests(reqs: seq<BatchRequest>)
  {
    forall i :: 0 <= i < |reqs| ==> reqs[i].promptIds != []
  }

  // ----- the books: what the scheduler, the events and the lanes say about every request -----

  /** The request is decoding: it has committed a non-empty part of its solo run and emitted exactly its events. */
  ghost predicate Live<C>(m: Model, r: BatchRequest, s: SeqState, ev: seq<StreamEvent>, lane: Lane<C>)
    requires r.promptIds != []
  {
    && s.generated != [] && RecordOf(s, r, s.generated) && OnTrack(m, r, s.generated, lane.rng)
    && lane.params == r.sampling && lane.history == r.promptIds + s.generated
    && lane.nextToken == s.generated[|s.generated| - 1]
    && ev == TokenEvents(s.generated)
  }

  /** The request has finished, with its solo output and its solo events. */
  ghost predicate Retired(m: Model, r: BatchRequest, s: SeqState, ev: seq<StreamEvent>)
    requires r.promptIds != []
  {
    s.finish.Some? && OutputOf(s) == SoloOf(m, r) && ev == EventsOf(SoloOf(m, r))
  }

  /** The request is waiting: admitted to the scheduler, nothing emitted. */
  ghost predicate Queued(r: BatchRequest, s: SeqState, ev: seq<StreamEvent>)
  {
    s == Admitted(r.promptIds, r.maxNewTokens, r.stopTokens) && ev == []
  }

  /** The lane decoding request `ri`, if there is one. */
  function LaneOf<C>(lanes: seq<Lane<C>>, ri: nat): Option<Lane<C>>
  {
    if lanes == [] then None
    else if lanes[0].reqIndex == ri then Some(lanes[0])
    else LaneOf(lanes[1..], ri)
  }

  /** A request is live if it has a lane; without one it is retired once taken off the queue, queued before. */
  ghost predicate StateOk<C>(m: Model, r: BatchRequest, s: SeqState, ev: seq<StreamEvent>, taken: bool,
      lane: Option<Lane<C>>)
    requires r.promptIds != []
  {
    match lane
    case Some(l) => taken && Live(m, r, s, ev, l)
    case None => if taken then Retired(m, r, s, ev) else Queued(r, s, ev)
  }

  predicate DistinctLanes<C>(lanes: seq<Lane<C>>, bound: nat)
  {
    && (forall i :: 0 <= i < |lanes| ==> lanes[i].reqIndex < bound)
    && forall i, j :: 0 <= i < j < |lanes| ==> lanes[i].reqIndex != lanes[j].reqIndex
  }

  /** Requests partition into retired, live (one lane each) and queued (`nextReq` on). */
  ghost predicate Books<C>(m: Model, reqs: seq<BatchRequest>, seqs: seq<SeqState>, events: seq<TaggedEvent>,
                        nextReq: nat, lanes: seq<Lane<C>>)
    requires ValidRequests(reqs)
  {
    && |seqs| == |reqs| && nextReq <= |reqs| && DistinctLanes(lanes, nextReq)
    && (forall ri :: 0 <= ri < |reqs| ==>
          StateOk(m, reqs[ri], seqs[ri], EventsFor(events, ri), ri < nextReq, LaneOf(lanes, ri)))
    && (forall e :: e in events ==> e.0 < |reqs|)
  }

  /** Changing one request's record, events and lane, and leaving all others alone, keeps the books if that request
      is in order again. */
  lemma BooksUpdate<C>(m: Model, reqs: seq<BatchRequest>, seqs: seq<SeqState>, seqs': seq<SeqState>,
                    events: seq<TaggedEvent>, ri: nat, more: seq<StreamEvent>, nextReq: nat, nextReq': nat,
                    lanes: seq<Lane<C>>, lanes': seq<Lane<C>>)
    requires ValidRequests(reqs) && Books(m, reqs, seqs, events, nextReq, lanes)
    requires ri < |reqs| && |seqs'| == |seqs| && forall rj :: 0 <= rj < |seqs| && rj != ri ==> seqs'[rj] == seqs[rj]
    requires nextReq' == nextReq || (nextReq' == nextReq + 1 && ri == nextReq)
    requires DistinctLanes(lanes', nextReq')
    requires forall rj: nat :: rj != ri ==> LaneOf(lanes', rj) == LaneOf(lanes, rj)
    requires StateOk(m, reqs[ri], seqs'[ri], EventsFor(events, ri) + more, ri < nextReq', LaneOf(lanes', ri))
    ensures Books(m, reqs, seqs', events + Tag(ri, more), nextReq', lanes')
  {
    hide StateOk, LaneOf;
    forall rj: nat | rj < |reqs|
      ensures StateOk(m, reqs[rj], seqs'[rj], EventsFor(events + Tag(ri, more), rj), rj < nextReq', LaneOf(lanes', rj))
    {
      EventsForTagged(events, ri, more, rj);
      assert EventsFor(events, rj) + [] == EventsFor(events, rj);
    }
  }

  lemma {:induction false} LaneOfAppend<C>(a: seq<Lane<C>>, b: seq<Lane<C>>, ri: nat)
    ensures LaneOf(a + b, ri) == (if LaneOf(a, ri).Some? then LaneOf(a, ri) else LaneOf(b, ri))
  {
    if a == [] {
      assert a + b == b;
    } else {
      assert (a + b)[1..] == a[1..] + b;
      LaneOfAppend(a[1..], b, ri);
    }
  }

  lemma {:induction false} NoLaneOf<C>(lanes: seq<Lane<C>>, ri: nat)
    requires forall i :: 0 <= i < |lanes| ==> lanes[i].reqIndex != ri
    ensures LaneOf(lanes, ri) == None
  {
    if lanes != [] {
      NoLaneOf(lanes[1..], ri);
    }
  }

  lemma DistinctSplit<C>(done: seq<Lane<C>>, lane: Lane<C>, mid: seq<Lane<C>>, todo: seq<Lane<C>>, bound: nat)
    requires DistinctLanes(done + [lane] + todo, bound)
    requires mid == [] || (|mid| == 1 && mid[0].reqIndex == lane.reqIndex)
    ensures lane.reqIndex < bound
    ensures forall i :: 0 <= i < |done| ==> done[i].reqIndex != lane.reqIndex
    ensures forall i :: 0 <= i < |todo| ==> todo[i].reqIndex != lane.reqIndex
    ensures DistinctLanes(done + mid + todo, bound)
  {
    var all, next := done + [lane] + todo, done + mid + todo;
    assert all[|done|] == lane;
    forall i | 0 <= i < |done| ensures done[i].reqIndex != lane.reqIndex {
      assert all[i] == done[i];
    }
    forall i | 0 <= i < |todo| ensures todo[i].reqIndex != lane.reqIndex {
      assert all[|done| + 1 + i] == todo[i];
    }
    var shift := 1 - |mid|;
    forall i | 0 <= i < |next| ensures next[i].reqIndex == all[if i < |done| then i else i + shift].reqIndex {
    }
  }

  /** Replacing or removing one lane changes no other request's lane. */
  lemma LaneOfSplit<C>(done: seq<Lane<C>>, lane: Lane<C>, mid: seq<Lane<C>>, todo: seq<Lane<C>>, bound: nat)
    requires DistinctLanes(done + [lane] + todo, bound)
    requires mid == [] || (|mid| == 1 && mid[0].reqIndex == lane.reqIndex)
    ensures lane.reqIndex < bound && LaneOf(done + [lane] + todo, lane.reqIndex) == Some(lane)
    ensures LaneOf(done + mid + todo, lane.reqIndex) == if mid == [] then None else Some(mid[0])
    ensures forall rj: nat :: rj != lane.reqIndex ==> LaneOf(done + mid + todo, rj) == LaneOf(done + [lane] + todo, rj)
    ensures DistinctLanes(done + mid + todo, bound)
  {
    DistinctSplit(done, lane, mid, todo, bound);
    hide DistinctLanes;
    var all := done + [lane] + todo;
    NoLaneOf(done, lane.reqIndex);
    NoLaneOf(todo, lane.reqIndex);
    forall rj: nat
      ensures LaneOf(all, rj) == if LaneOf(done, rj).Some? then LaneOf(done, rj)
                                 else if rj == lane.reqIndex then Some(lane) else LaneOf(todo, rj)
      ensures LaneOf(done + mid + todo, rj) == if LaneOf(done, rj).Some? then LaneOf(done, rj)
                                               else if mid != [] && rj == lane.reqIndex then Some(mid[0])
                                               else LaneOf(todo, rj)
    {
      LaneOfAppend(done + [lane], todo, rj);
      LaneOfAppend(done, [lane], rj);
      LaneOfAppend(done + mid, todo, rj);
      LaneOfAppend(done, mid, rj);
    }
  }

  /** Recording the next solo token of the lane between `done` and `todo` keeps the books, with the lane advanced
      or gone. */
  lemma BooksRecord<C>(m: Model, reqs: seq<BatchRequest>, seqs: seq<SeqState>, events: seq<TaggedEvent>, nextReq: nat,
                    done: seq<Lane<C>>, lane: Lane<C>, todo: seq<Lane<C>>, tok: int, rng': Rng)
    requires ValidRequests(reqs) && Books(m, reqs, seqs, events, nextReq, done + [lane] + todo)
    requires lane.history != []
    requires Sample(Logits(m, lane.history), lane.history, lane.params, lane.rng, None) == (tok, rng')
    ensures lane.reqIndex < |seqs| && seqs[lane.reqIndex].finish.None?
    ensures seqs[lane.reqIndex].budget > |seqs[lane.reqIndex].generated|
    ensures var ri := lane.reqIndex;
      var s' := Recorded(seqs[ri], tok);
      var seqs', events' := seqs[ri := s'], events + Tag(ri, RecordEvents(seqs[ri], tok));
      var lane' := lane.(rng := rng', history := lane.history + [tok], nextToken := tok);
      Books(m, reqs, seqs', events', nextReq, done + (if s'.finish.None? then [lane'] else []) + todo)
  {
    hide Logits, SoloOf, EventsFor, LaneOf, DistinctLanes, Sample, RecordEvents;
    var all, ri := done + [lane] + todo, lane.reqIndex;
    LaneOfSplit(done, lane, [], todo, nextReq);
    var s, ev := seqs[ri], EventsFor(events, ri);
    assert StateOk(m, reqs[ri], s, ev, true, Some(lane));
    RecordIsSolo(m, reqs[ri], s, s.generated, lane.rng);
    var s' := Recorded(s, tok);
    var lane' := lane.(rng := rng', history := lane.history + [tok], nextToken := tok);
    var mid := if s'.finish.None? then [lane'] else [];
    LaneOfSplit(done, lane, mid, todo, nextReq);
    assert s'.finish.None? ==> lane'.history == reqs[ri].promptIds + s'.generated;
    BooksUpdate(m, reqs, seqs, seqs[ri := s'], events, ri, RecordEvents(s, tok), nextReq, nextReq, all, done + mid
      + todo);
  }

  /** Taking request `nextReq` off the queue keeps the books, whether it got a lane or retired at once. */
  lemma BooksAdmit<C>(m: Model, reqs: seq<BatchRequest>, seqs: seq<SeqState>, seqs': seq<SeqState>,
                   events: seq<TaggedEvent>, more: seq<StreamEvent>, nextReq: nat, lanes: seq<Lane<C>>,
                   lane: Option<Lane<C>>)
    requires ValidRequests(reqs) && Books(m, reqs, seqs, events, nextReq, lanes) && nextReq < |reqs|
    requires |seqs'| == |seqs| && forall rj :: 0 <= rj < |seqs| && rj != nextReq ==> seqs'[rj] == seqs[rj]
    requires lane.Some? ==> lane.value.reqIndex == nextReq && Live(m, reqs[nextReq], seqs'[nextReq], more, lane.value)
    requires lane.None? ==> Retired(m, reqs[nextReq], seqs'[nextReq], more)
    ensures Books(m, reqs, seqs', events + Tag(nextReq, more), nextReq + 1,
                  if lane.Some? then lanes + [lane.value] else lanes)
  {
    hide Live, Retired, EventsFor;
    NoLaneOf(lanes, nextReq);
    assert StateOk(m, reqs[nextReq], seqs[nextReq], EventsFor(events, nextReq), false, LaneOf(lanes, nextReq));
    assert EventsFor(events, nextReq) + more == more;
    var lanes' := if lane.Some? then lanes + [lane.value] else lanes;
    forall rj: nat
      ensures LaneOf(lanes', rj) == if rj == nextReq then lane else LaneOf(lanes, rj)
    {
      if lane.Some? {
        LaneOfAppend(lanes, [lane.value], rj);
        assert lane.value.reqIndex != rj ==> LaneOf([lane.value], rj) == None by {
          assert [lane.value][1..] == [];
        }
      }
    }
    BooksUpdate(m, reqs, seqs, seqs', events, nextReq, more, nextReq, nextReq + 1, lanes, lanes');
  }

  // ----- one lane -----

  /** `record_token`: record through the scheduler, report what to emit, and say whether the lane goes on. */
  method RecordToken<C>(sched: Scheduler, lane: Lane<C>, tok: int)
      returns (next: Option<Lane<C>>, emitted: seq<StreamEvent>)
    requires lane.reqIndex < |sched.seqs| && sched.IsActive(lane.reqIndex)
    modifies sched
    ensures sched.seqs == old(sched.seqs)[lane.reqIndex := Recorded(old(sched.seqs)[lane.reqIndex], tok)]
    ensures emitted == RecordEvents(old(sched.seqs)[lane.reqIndex], tok)
    ensures old(sched.seqs[lane.reqIndex].budget > |sched.seqs[lane.reqIndex].generated|) ==>
      Remaining(sched.seqs) < old(Remaining(sched.seqs))
    ensures next == if sched.seqs[lane.reqIndex].finish.None?
                    then Some(lane.(history := lane.history + [tok], nextToken := tok)) else None
  {
    ghost var before := sched.seqs;
    RemainingUpdate(before, lane.reqIndex, Recorded(before[lane.reqIndex], tok));
    var finish := sched.Record(lane.reqIndex, tok);
    var generated := sched.seqs[lane.reqIndex].generated;
    if finish == Some(Stop) {
      return None, [Done(StopToken, |generated|)];
    }
    emitted := [Token(tok, |generated| - 1)];
    if finish == Some(Length) {
      return None, emitted + [Done(MaxTokens, |generated|)];
    }
    return Some(lane.(history := lane.history + [tok], nextToken := tok)), emitted;
  }

  lemma FirstDrawn(r: BatchRequest, s: SeqState, tok: int)
    requires s == Admitted(r.promptIds, r.maxNewTokens, r.stopTokens)
    ensures DrawnBy(Recorded(s, tok)) == 1
  {
  }

  /** Record the first token of a request that the scheduler holds active: its prefill logits are its prompt's. */
  method RecordFirst<C>(m: Model, r: BatchRequest, ri: nat, sched: Scheduler, logits: Vec, slot: C)
    returns (lane: Option<Lane<C>>, emitted: seq<StreamEvent>)
    requires r.promptIds != [] && ri < |sched.seqs| && sched.IsActive(ri) && Queued(r, sched.seqs[ri], [])
    requires logits == Logits(m, r.promptIds)
    modifies sched
    ensures |sched.seqs| == |old(sched.seqs)|
    ensures forall rj :: 0 <= rj < |sched.seqs| && rj != ri ==> sched.seqs[rj] == old(sched.seqs)[rj]
    ensures lane.Some? ==>
      && Live(m, r, sched.seqs[ri], emitted, lane.value)
      && lane.value.reqIndex == ri && lane.value.slot == slot
      && lane.value.history[..|lane.value.history| - 1] == r.promptIds
    ensures lane.None? ==> Retired(m, r, sched.seqs[ri], emitted)
    ensures DrawnBy(sched.seqs[ri]) == 1
    ensures Remaining(sched.seqs) <= old(Remaining(sched.seqs))
  {
    hide Solo, Logits, Remaining, DrawnBy;
    assert [] + r.promptIds == r.promptIds == r.promptIds + [];
    StartsOnTrack(m, r);
    var (tok, rng) := Sample(logits, r.promptIds, r.sampling, r.seed, None);
    RecordIsSolo(m, r, sched.seqs[ri], [], r.seed);
    assert TokenEvents([]) == [] && [] + [tok] == [tok];
    FirstDrawn(r, sched.seqs[ri], tok);
    var start := Lane(ri, slot, rng, r.sampling, r.promptIds, 0);
    lane, emitted := RecordToken(sched, start, tok);
    assert TokenEvents([]) + emitted == emitted;
    assert (r.promptIds + [tok])[..|r.promptIds|] == r.promptIds;
  }

  /** A request with no budget was retired at admission: its only event is its `Done`. */
  lemma ZeroBudgetRetired(m: Model, r: BatchRequest, s: SeqState)
    requires r.promptIds != [] && Queued(r, s, []) && s.finish.Some?
    ensures Retired(m, r, s, [Done(MaxTokens, 0)]) && DrawnBy(s) == 0
  {
    StartsOnTrack(m, r);
    assert TokenEvents([]) == [];
  }

  /** One more token was drawn for every request with a lane, and nothing happened to the others. */
  ghost predicate Redrawn<C>(before: seq<SeqState>, after: seq<SeqState>, lanes: seq<Lane<C>>)
  {
    && |after| == |before|
    && forall ri :: 0 <= ri < |before| ==>
      if LaneOf(lanes, ri).Some? then DrawnBy(after[ri]) == DrawnBy(before[ri]) + 1 else after[ri] == before[ri]
  }

  lemma RedrawnNext<C>(before: seq<SeqState>, after: seq<SeqState>, lanes: seq<Lane<C>>, k: nat, tok: int, bound: nat)
    requires k < |lanes| && DistinctLanes(lanes, bound) && Redrawn(before, after, lanes[..k])
    requires lanes[k].reqIndex < |after| && after[lanes[k].reqIndex].finish.None?
    ensures Redrawn(before, after[lanes[k].reqIndex := Recorded(after[lanes[k].reqIndex], tok)], lanes[..k + 1])
  {
    var lane := lanes[k];
    NoLaneOf(lanes[..k], lane.reqIndex);
    assert lanes[..k + 1] == lanes[..k] + [lane];
    forall ri: nat
      ensures LaneOf(lanes[..k + 1], ri) == if ri == lane.reqIndex then Some(lane) else LaneOf(lanes[..k], ri)
    {
      LaneOfAppend(lanes[..k], [lane], ri);
      assert [lane][1..] == [];
    }
  }

  lemma NothingRedrawn<C>(seqs: seq<SeqState>, lanes: seq<Lane<C>>)
    ensures Redrawn(seqs, seqs, lanes[..0])
  {
  }

  /** `b` is lane `a` one token later. */
  predicate Advanced<C>(a: Lane<C>, b: Lane<C>)
  {
    && b.reqIndex == a.reqIndex && b.history != [] && b.history[..|b.history| - 1] == a.history
    && b.nextToken == b.history[|b.history| - 1]
  }

  predicate Increasing(keep: seq<nat>, bound: nat)
  {
    && (forall i :: 0 <= i < |keep| ==> keep[i] < bound)
    && forall i, j :: 0 <= i < j < |keep| ==> keep[i] < keep[j]
  }

  lemma {:induction false} IncreasingFits(keep: seq<nat>, bound: nat)
    requires Increasing(keep, bound)
    ensures |keep| <= bound
    ensures |keep| == bound ==> forall i :: 0 <= i < |keep| ==> keep[i] == i
  {
    if keep != [] {
      var last := keep[|keep| - 1];
      IncreasingFits(keep[..|keep| - 1], last);
    }
  }

  /** Of the lanes before `k`, those that go on: survivor `i` is lane `keep[i]` one token later. */
  ghost predicate Kept<C>(lanes: seq<Lane<C>>, survivors: seq<Lane<C>>, keep: seq<nat>, k: nat)
  {
    && k <= |lanes| && |keep| == |survivors| && Increasing(keep, k)
    && forall i :: 0 <= i < |survivors| ==>
      Advanced(lanes[keep[i]], survivors[i]) && survivors[i].slot == lanes[keep[i]].slot
  }

  lemma KeptNext<C>(lanes: seq<Lane<C>>, survivors: seq<Lane<C>>, keep: seq<nat>, k: nat, next: Option<Lane<C>>)
    requires k < |lanes| && Kept(lanes, survivors, keep, k)
    requires next.Some? ==> Advanced(lanes[k], next.value) && next.value.slot == lanes[k].slot
    ensures if next.Some? then Kept(lanes, survivors + [next.value], keep + [k], k + 1)
            else Kept(lanes, survivors, keep, k + 1)
  {
  }

  lemma HeadOfRest<T>(front: seq<T>, all: seq<T>, k: nat)
    requires k < |all|
    ensures front + all[k..] == front + [all[k]] + all[k + 1..]
  {
  }

  lemma AllRest<T>(all: seq<T>)
    ensures [] + all[0..] == all
  {
  }

  lemma NoRest<T>(front: seq<T>, all: seq<T>)
    ensures front + all[|all|..] == front && all[..|all|] == all
  {
  }

  lemma KeptNone<C>(lanes: seq<Lane<C>>)
    ensures Kept(lanes, [], [], 0)
  {
  }

  lemma KeptAll<C>(lanes: seq<Lane<C>>, survivors: seq<Lane<C>>, keep: seq<nat>)
    requires Kept(lanes, survivors, keep, |lanes|)
    ensures |keep| == |survivors| && Increasing(keep, |lanes|)
    ensures forall i :: 0 <= i < |survivors| ==>
      Advanced(lanes[keep[i]], survivors[i]) && survivors[i].slot == lanes[keep[i]].slot
  {
  }

  /** Sample and record one lane of a step, the one between those done and those still to do. */
  method RecordLane<C(==)>(m: Model, reqs: seq<BatchRequest>, sched: Scheduler, ghost done: seq<Lane<C>>, lane: Lane<C>,
                       ghost todo: seq<Lane<C>>, row: Vec, ghost nextReq: nat, events0: seq<TaggedEvent>)
    returns (next: Option<Lane<C>>, events: seq<TaggedEvent>, ghost tok: int)
    requires ValidRequests(reqs) && Books(m, reqs, sched.seqs, events0, nextReq, done + [lane] + todo)
    requires lane.history != [] && row == Logits(m, lane.history)
    modifies sched
    ensures Books(m, reqs, sched.seqs, events, nextReq, done + (if next.Some? then [next.value] else []) + todo)
    ensures next.Some? ==> Advanced(lane, next.value) && next.value.slot == lane.slot
    ensures lane.reqIndex < |old(sched.seqs)| && old(sched.seqs)[lane.reqIndex].finish.None?
    ensures sched.seqs == old(sched.seqs)[lane.reqIndex := Recorded(old(sched.seqs)[lane.reqIndex], tok)]
    ensures Remaining(sched.seqs) < old(Remaining(sched.seqs))
  {
    hide Logits, Books, Remaining, RecordEvents, Recorded, Tag, Sample;
    var (t, rng) := Sample(row, lane.history, lane.params, lane.rng, None);
    tok := t;
    BooksRecord(m, reqs, sched.seqs, events0, nextReq, done, lane, todo, t, rng);
    var emitted;
    next, emitted := RecordToken(sched, lane.(rng := rng), t);
    events := events0 + Tag(lane.reqIndex, emitted);
    if next.Some? {
      assert next.value.history[..|next.value.history| - 1] == lane.history;
    }
  }

  /** The pass over a step's logits: sample and record each lane in order, keep the ones that go on. */
  method RecordRows<C(==)>(m: Model, reqs: seq<BatchRequest>, sched: Scheduler, lanes: seq<Lane<C>>, perLane: seq<Vec>,
                       ghost nextReq: nat, events0: seq<TaggedEvent>)
    returns (survivors: seq<Lane<C>>, keep: seq<nat>, events: seq<TaggedEvent>)
    requires ValidRequests(reqs) && Books(m, reqs, sched.seqs, events0, nextReq, lanes)
    requires |perLane| == |lanes|
    requires forall i :: 0 <= i < |lanes| ==> lanes[i].history != [] && perLane[i] == Logits(m, lanes[i].history)
    modifies sched
    ensures Books(m, reqs, sched.seqs, events, nextReq, survivors)
    ensures |keep| == |survivors| && Increasing(keep, |lanes|)
    ensures forall i :: 0 <= i < |survivors| ==>
      Advanced(lanes[keep[i]], survivors[i]) && survivors[i].slot == lanes[keep[i]].slot
    ensures lanes != [] ==> Remaining(sched.seqs) < old(Remaining(sched.seqs))
    ensures Redrawn(old(sched.seqs), sched.seqs, lanes)
  {
    assert DistinctLanes(lanes, nextReq);
    hide Logits, Books, Remaining, Recorded, Redrawn, DistinctLanes, Kept;
    survivors, keep, events := [], [], events0;
    NothingRedrawn(sched.seqs, lanes);
    KeptNone(lanes);
    AllRest(lanes);
    var k := 0;
    while k < |lanes|
      invariant 0 <= k <= |lanes| && Kept(lanes, survivors, keep, k)
      invariant Books(m, reqs, sched.seqs, events, nextReq, survivors + lanes[k..])
      invariant Remaining(sched.seqs) + k <= old(Remaining(sched.seqs))
      invariant Redrawn(old(sched.seqs), sched.seqs, lanes[..k])
    {
      HeadOfRest(survivors, lanes, k);
      ghost var before, prior := sched.seqs, survivors;
      ghost var tok;
      var next;
      next, events, tok := RecordLane(m, reqs, sched, survivors, lanes[k], lanes[k + 1..], perLane[k], nextReq, events);
      RedrawnNext(old(sched.seqs), before, lanes, k, tok, nextReq);
      KeptNext(lanes, survivors, keep, k, next);
      if next.Some? {
        survivors, keep := survivors + [next.value], keep + [k];
      }
      assert survivors == prior + (if next.Some? then [next.value] else []);
      k := k + 1;
    }
    NoRest(survivors, lanes);
    KeptAll(lanes, survivors, keep);
  }

  lemma NextIsQueued<C>(m: Model, reqs: seq<BatchRequest>, seqs: seq<SeqState>, events: seq<TaggedEvent>,
                     nextReq: nat, lanes: seq<Lane<C>>)
    requires ValidRequests(reqs) && Books(m, reqs, seqs, events, nextReq, lanes) && nextReq < |reqs|
    ensures |seqs| == |reqs| && Queued(reqs[nextReq], seqs[nextReq], [])
  {
  }

  /** What the books say about lane `k`. */
  lemma LaneIsLive<C>(m: Model, reqs: seq<BatchRequest>, seqs: seq<SeqState>, events: seq<TaggedEvent>,
                      nextReq: nat, lanes: seq<Lane<C>>, k: nat)
    requires ValidRequests(reqs) && Books(m, reqs, seqs, events, nextReq, lanes) && k < |lanes|
    ensures lanes[k].reqIndex < |seqs| == |reqs|
    ensures var ri := lanes[k].reqIndex; Live(m, reqs[ri], seqs[ri], EventsFor(events, ri), lanes[k])
  {
    hide Live;
    var ri := lanes[k].reqIndex;
    assert lanes == lanes[..k] + [lanes[k]] + lanes[k + 1..];
    LaneOfSplit(lanes[..k], lanes[k], [], lanes[k + 1..], nextReq);
    assert StateOk(m, reqs[ri], seqs[ri], EventsFor(events, ri), ri < nextReq, LaneOf(lanes, ri));
  }

  lemma LiveFacts<C>(m: Model, r: BatchRequest, s: SeqState, ev: seq<StreamEvent>, lane: Lane<C>)
    requires r.promptIds != [] && Live(m, r, s, ev, lane)
    ensures lane.history != [] && lane.nextToken == lane.history[|lane.history| - 1]
  {
  }

  // ----- the end of a run -----

  /** What the run finally says about one request: its event stream is its output's, its tokens are a prefix of its
      solo tokens, and unless it was cancelled its output is the solo output. */
  ghost predicate Delivered(m: Model, r: BatchRequest, out: GenerationOutput, ev: seq<StreamEvent>)
    requires r.promptIds != []
  {
    && ev == EventsOf(out)
    && out.tokens <= SoloOf(m, r).tokens
    && (out.finishReason != Cancelled ==> out == SoloOf(m, r))
  }

  lemma RetiredDelivers(m: Model, r: BatchRequest, s: SeqState, ev: seq<StreamEvent>)
    requires r.promptIds != [] && Retired(m, r, s, ev)
    ensures Delivered(m, r, OutputOf(s), ev) && OutputOf(s).finishReason != Cancelled
  {
    SoloNeverCancelled(m, r, [], r.seed);
  }

  lemma CancelledLiveDelivers<C>(m: Model, r: BatchRequest, s: SeqState, ev: seq<StreamEvent>, lane: Lane<C>)
    requires r.promptIds != [] && Live(m, r, s, ev, lane)
    ensures Delivered(m, r, OutputOf(s), ev + [Done(Cancelled, |s.generated|)])
  {
    OnTrackIsPrefix(m, r, s.generated, lane.rng);
  }

  /** The terminal event of a request still waiting at a cancel. */
  function QueueEnd(s: SeqState): StreamEvent
  {
    Done(if s.finish == Some(Length) then MaxTokens else Cancelled, 0)
  }

  lemma CancelledQueuedDelivers(m: Model, r: BatchRequest, s: SeqState, ev: seq<StreamEvent>)
    requires r.promptIds != [] && Queued(r, s, ev)
    ensures Delivered(m, r, OutputOf(s), ev + [QueueEnd(s)])
  {
    StartsOnTrack(m, r);
    assert TokenEvents([]) == [];
  }

  /** Where the terminal events of a cancelled run stand: the first `lanesDone` lanes and the queue up to `queueDone`
      have been signalled. */
  ghost predicate Signalled<C>(m: Model, reqs: seq<BatchRequest>, seqs: seq<SeqState>, events: seq<TaggedEvent>,
                            nextReq: nat, pending: seq<Lane<C>>, queueDone: nat)
    requires ValidRequests(reqs) && |seqs| == |reqs|
  {
    && nextReq <= queueDone <= |reqs| && DistinctLanes(pending, nextReq)
    && (forall ri :: 0 <= ri < |reqs| ==>
          var ev, lane := EventsFor(events, ri), LaneOf(pending, ri);
          if lane.Some? then Live(m, reqs[ri], seqs[ri], ev, lane.value)
          else if ri < queueDone then Delivered(m, reqs[ri], OutputOf(seqs[ri]), ev)
          else Queued(reqs[ri], seqs[ri], ev))
    && (forall e :: e in events ==> e.0 < |reqs|)
  }

  lemma SignalStart<C>(m: Model, reqs: seq<BatchRequest>, seqs: seq<SeqState>, events: seq<TaggedEvent>,
                    nextReq: nat, lanes: seq<Lane<C>>)
    requires ValidRequests(reqs) && Books(m, reqs, seqs, events, nextReq, lanes)
    ensures |seqs| == |reqs| && Signalled(m, reqs, seqs, events, nextReq, lanes, nextReq)
  {
    hide Live, Retired, Queued, Delivered;
    forall ri: nat | ri < nextReq && LaneOf(lanes, ri).None?
      ensures Delivered(m, reqs[ri], OutputOf(seqs[ri]), EventsFor(events, ri))
    {
      assert StateOk(m, reqs[ri], seqs[ri], EventsFor(events, ri), true, LaneOf(lanes, ri));
      RetiredDelivers(m, reqs[ri], seqs[ri], EventsFor(events, ri));
    }
    forall ri: nat | ri < |reqs| && LaneOf(lanes, ri).Some?
      ensures Live(m, reqs[ri], seqs[ri], EventsFor(events, ri), LaneOf(lanes, ri).value)
    {
      assert StateOk(m, reqs[ri], seqs[ri], EventsFor(events, ri), ri < nextReq, LaneOf(lanes, ri));
    }
    forall ri: nat | nextReq <= ri < |reqs| && LaneOf(lanes, ri).None?
      ensures Queued(reqs[ri], seqs[ri], EventsFor(events, ri))
    {
      assert StateOk(m, reqs[ri], seqs[ri], EventsFor(events, ri), false, LaneOf(lanes, ri));
    }
  }

  lemma SignalLane<C>(m: Model, reqs: seq<BatchRequest>, seqs: seq<SeqState>, events: seq<TaggedEvent>,
                   nextReq: nat, lane: Lane<C>, rest: seq<Lane<C>>)
    requires ValidRequests(reqs) && |seqs| == |reqs|
    requires Signalled(m, reqs, seqs, events, nextReq, [lane] + rest, nextReq)
    ensures lane.reqIndex < |reqs|
    ensures Signalled(m, reqs, seqs, events + Tag(lane.reqIndex, [Done(Cancelled, |seqs[lane.reqIndex].generated|)]),
                      nextReq, rest, nextReq)
  {
    hide Live, Queued, Delivered, EventsFor, LaneOf, DistinctLanes, OutputOf;
    var ri := lane.reqIndex;
    assert [] + [lane] + rest == [lane] + rest && [] + [] + rest == rest;
    LaneOfSplit([], lane, [], rest, nextReq);
    var last := [Done(Cancelled, |seqs[ri].generated|)];
    CancelledLiveDelivers(m, reqs[ri], seqs[ri], EventsFor(events, ri), lane);
    forall rj: nat | rj < |reqs| && rj != ri
      ensures EventsFor(events + Tag(ri, last), rj) == EventsFor(events, rj)
    {
      EventsForTagged(events, ri, last, rj);
      assert EventsFor(events, rj) + [] == EventsFor(events, rj);
    }
    EventsForTagged(events, ri, last, ri);
  }

  lemma SignalQueued<C>(m: Model, reqs: seq<BatchRequest>, seqs: seq<SeqState>, events: seq<TaggedEvent>,
                     nextReq: nat, q: nat)
    requires ValidRequests(reqs) && |seqs| == |reqs| && q < |reqs|
    requires Signalled<C>(m, reqs, seqs, events, nextReq, [], q)
    ensures Signalled<C>(m, reqs, seqs, events + Tag(q, [QueueEnd(seqs[q])]), nextReq, [], q + 1)
  {
    hide Live, Queued, Delivered, EventsFor, OutputOf, QueueEnd;
    var last := [QueueEnd(seqs[q])];
    assert LaneOf<C>([], q) == None;
    CancelledQueuedDelivers(m, reqs[q], seqs[q], EventsFor(events, q));
    forall rj: nat | rj < |reqs| && rj != q
      ensures EventsFor(events + Tag(q, last), rj) == EventsFor(events, rj)
    {
      EventsForTagged(events, q, last, rj);
      assert EventsFor(events, rj) + [] == EventsFor(events, rj);
    }
    EventsForTagged(events, q, last, q);
  }

  lemma SignalBounds<C>(m: Model, reqs: seq<BatchRequest>, seqs: seq<SeqState>, events: seq<TaggedEvent>,
                     nextReq: nat, pending: seq<Lane<C>>, q: nat)
    requires ValidRequests(reqs) && |seqs| == |reqs| && Signalled(m, reqs, seqs, events, nextReq, pending, q)
    ensures nextReq <= q <= |reqs| && forall e :: e in events ==> e.0 < |reqs|
    ensures pending == [] && q == |reqs| ==>
      forall ri :: 0 <= ri < |reqs| ==> Delivered(m, reqs[ri], OutputOf(seqs[ri]), EventsFor(events, ri))
  {
    hide Live, Queued, Delivered, EventsFor, OutputOf;
  }

  method AdmitAll(reqs: seq<BatchRequest>) returns (sched: Scheduler)
    ensures fresh(sched) && |sched.seqs| == |reqs|
    ensures forall i :: 0 <= i < |reqs| ==>
      sched.seqs[i] == Admitted(reqs[i].promptIds, reqs[i].maxNewTokens, reqs[i].stopTokens)
  {
    sched := new Scheduler();
    var i := 0;
    while i < |reqs|
      invariant 0 <= i <= |reqs| && |sched.seqs| == i
      invariant fresh(sched)
      invariant forall k :: 0 <= k < i ==>
        sched.seqs[k] == Admitted(reqs[k].promptIds, reqs[k].maxNewTokens, reqs[k].stopTokens)
    {
      var _ := sched.Admit(reqs[i].promptIds, reqs[i].maxNewTokens, reqs[i].stopTokens);
      i := i + 1;
    }
  }

  lemma StartBooks<C>(m: Model, reqs: seq<BatchRequest>, seqs: seq<SeqState>)
    requires ValidRequests(reqs) && |seqs| == |reqs|
    requires forall i :: 0 <= i < |reqs| ==>
      seqs[i] == Admitted(reqs[i].promptIds, reqs[i].maxNewTokens, reqs[i].stopTokens)
    ensures Books<C>(m, reqs, seqs, [], 0, [])
  {
  }

  lemma BooksSizes<C>(m: Model, reqs: seq<BatchRequest>, seqs: seq<SeqState>, events: seq<TaggedEvent>,
                   nextReq: nat, lanes: seq<Lane<C>>)
    requires ValidRequests(reqs) && Books(m, reqs, seqs, events, nextReq, lanes)
    ensures |seqs| == |reqs| && nextReq <= |reqs| && forall e :: e in events ==> e.0 < |reqs|
  {
  }

  /** With no lane left and nothing queued, every request was delivered its solo run. */
  lemma AllRetired<C>(m: Model, reqs: seq<BatchRequest>, seqs: seq<SeqState>, events: seq<TaggedEvent>)
    requires ValidRequests(reqs) && Books<C>(m, reqs, seqs, events, |reqs|, [])
    ensures forall ri :: 0 <= ri < |reqs| ==>
      OutputOf(seqs[ri]) == SoloOf(m, reqs[ri]) && Delivered(m, reqs[ri], OutputOf(seqs[ri]), EventsFor(events, ri))
  {
    forall ri | 0 <= ri < |reqs|
      ensures OutputOf(seqs[ri]) == SoloOf(m, reqs[ri])
      ensures Delivered(m, reqs[ri], OutputOf(seqs[ri]), EventsFor(events, ri))
    {
      assert StateOk(m, reqs[ri], seqs[ri], EventsFor(events, ri), true, LaneOf<C>([], ri));
      RetiredDelivers(m, reqs[ri], seqs[ri], EventsFor(events, ri));
    }
  }
}
