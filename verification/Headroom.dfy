/**
 What the admission headroom does and does not give.

 Admission keeps back one free block per running request, which the glossary (docs/05-glossary.md:282)
 takes to rule out an eviction in the same step.  The code counts the requests already running or
 admitted, not the one being admitted, so one eviction remains possible.
 */
module Headroom {
  import opened Prelude
  import opened Transformer
  import opened Storage
  import opened Scheduling
  import opened Lists
  import opened Invariant
  import opened PreserveQueues
  import opened PreserveEviction
  import opened EvictionLoop
  import opened Steps
  import Runs
  import opened Progress

  // ------------------------------------------------------------------ when the eviction loop evicts

  /** If the loop throws nobody out from position i on, the units wanted there were free. */
  lemma {:induction false} NobodyGoneMeansEnough(cfg: Cfg, s: St, active: seq<Id>, i: nat)
    requires LoopInv(cfg, s, active, i)
    ensures cfg.Valid() && i <= |active| && EnsureLoop(cfg, s, active, i).Ok?
    ensures |EnsureLoop(cfg, s, active, i).value.1| <= |active|
    ensures |EnsureLoop(cfg, s, active, i).value.1| == |active| ==> Deficit(cfg, s, active, i) <= 0
    decreases 2 * |active| - i
  {
    hide LoopInv, AppendSlot, Preempt, VictimIndex, Deficit, Wants, Evolved, WeakestGone;
    LoopBasics(cfg, s, active, i);
    if i == |active| {
      NothingWanted(cfg, s, active);
    } else {
      var (t, ok) := AppendSlot(cfg, s, active[i]);
      if ok {
        SuccessTurn(cfg, s, active, i);
        NobodyGoneMeansEnough(cfg, t, active, i + 1);
      } else {
        NeverRaises(cfg, s, active, i);
        EvictTurn(cfg, s, active, i);
        var v := VictimIndex(s.reqs, active);
        NobodyGoneMeansEnough(cfg, Preempt(s, active[v]), RemoveAt(active, v), if v < i then i - 1 else i);
      }
    }
  }

  lemma NothingWanted(cfg: Cfg, s: St, active: seq<Id>)
    requires cfg.Valid()
    ensures Deficit(cfg, s, active, |active|) <= 0
  {
    assert active[|active|..] == [];
  }

  lemma EvolvedCounts(s: St, t: St, ids: seq<Id>, active: seq<Id>)
    requires Evolved(s, t, ids, active)
    ensures |active| <= |ids| && t.preemptions == s.preemptions + |ids| - |active|
  {
  }

  /** Nobody is evicted exactly when there is a free unit for every row that needs one. */
  lemma NobodyEvictedIff(cfg: Cfg, s: St)
    requires Inv(cfg, s)
    ensures cfg.Valid() && EnsureCapacity(cfg, s, Unfinished(s)).Ok?
    ensures |EnsureCapacity(cfg, s, Unfinished(s)).value.1| == |Unfinished(s)|
            <==> Wanting(cfg, s.reqs, Unfinished(s)) <= |s.free|
    ensures var (t, active) := EnsureCapacity(cfg, s, Unfinished(s)).value;
      && t.preemptions == s.preemptions + |Unfinished(s)| - |active|
      && |Unfinished(s)| - |active| <= Max(0, Wanting(cfg, s.reqs, Unfinished(s)) - |s.free|)
  {
    hide Core, LoopInv, EnsureLoop, Evolved, WeakestGone, Wanting, Unfinished, Sort;
    var ids := Unfinished(s);
    UnfinishedFacts(cfg, s);
    LoopBasics(cfg, s, ids, 0);
    EnsureLoopFacts(cfg, s, ids, 0);
    var (t, active) := EnsureLoop(cfg, s, ids, 0).value;
    LoopResultAtStart(cfg, s, ids, t, active);
    NobodyGoneMeansEnough(cfg, s, ids, 0);
    EvolvedCounts(s, t, ids, active);
    assert ids[0..] == ids;
  }

  lemma NothingDecoded(cfg: Cfg, t: St)
    requires cfg.Valid() && Unfinished(t) == []
    ensures Decode(cfg, t) == Ok(t) && Wanting(cfg, t.reqs, Unfinished(t)) == 0
  {
  }

  /** Decoding evicts nobody beyond what the eviction loop did. */
  lemma DecodeCounts(cfg: Cfg, t: St)
    requires cfg.Valid() && Unfinished(t) != [] && Decode(cfg, t).Ok?
    ensures EnsureCapacity(cfg, t, Unfinished(t)).Ok?
    ensures Decode(cfg, t).value.preemptions == EnsureCapacity(cfg, t, Unfinished(t)).value.0.preemptions
  {
    hide EnsureCapacity, StepTokens, EmitAll, DecodeRows;
  }

  lemma TraceParts(cfg: Cfg, s: St, x: Trace)
    requires Traces(cfg, s, x)
    ensures cfg.Valid() && Inv(cfg, x.t) && Admit(cfg, Retire(s)) == Ok(x.t) && Decode(cfg, x.t) == Ok(x.u)
    ensures Step(cfg, s) == Ok(x.u) && x.t.preemptions == s.preemptions
  {
    hide Core, Starved, DecodeRel, Sort, Retire, Admit, Decode, Step;
    InvValid(cfg, s);
  }

  /** A step evicts nobody exactly when, after admission, every row that needs a unit finds a free one. */
  lemma StepEvictsNobodyIff(cfg: Cfg, s: St)
    requires Inv(cfg, s)
    ensures cfg.Valid() && Admit(cfg, Retire(s)).Ok? && Step(cfg, s).Ok?
    ensures var t := Admit(cfg, Retire(s)).value;
      Step(cfg, s).value.preemptions == s.preemptions <==> Wanting(cfg, t.reqs, Unfinished(t)) <= |t.free|
  {
    hide Inv, Traces, Admit, Retire, Decode, Step, Wanting, Unfinished, EnsureCapacity;
    var x := StepTrace(cfg, s);
    TraceParts(cfg, s, x);
    if Unfinished(x.t) == [] {
      NothingDecoded(cfg, x.t);
    } else {
      DecodeCounts(cfg, x.t);
      NobodyEvictedIff(cfg, x.t);
    }
  }

  // ------------------------------------------------------------------ an admission that is undone at once

  /** A one-token prompt that asks for two tokens and does not stop early. */
  const PAIR := Req([0], 2, true, 0, [], Waiting, None, [], -1, 0, false, [])

  function ThreeBlocks(net: Net): Cfg {
    Cfg(net, Preempting, false, 2, 3, 1)
  }

  /** Two such requests wait for an engine with three one-token blocks. */
  ghost predicate PairInLine(cfg: Cfg, s: St) {
    && Inv(cfg, s) && cfg == ThreeBlocks(cfg.net)
    && s.waiting == [0, 1] && s.running == [] && |s.free| == 3 && s.preemptions == 0
    && 0 in s.reqs && 1 in s.reqs
    && forall id :: id == 0 || id == 1 ==>
         At(s.reqs, id).prompt == [0] && At(s.reqs, id).maxNew == 2 && At(s.reqs, id).output == []
         && At(s.reqs, id).ignoreEos && !At(s.reqs, id).cancelled && At(s.reqs, id).preempts == 0 && At(s.reqs, id).arrival == 0
  }

  /** One of its two tokens is there. */
  predicate HalfDone(r: Req) {
    |r.output| == 1 && |r.prompt| == 1 && r.maxNew == 2 && r.ignoreEos && !r.cancelled
  }

  lemma PopOneOfPair(cfg: Cfg, s: St, batch: seq<Id>, id: Id) returns (t: St)
    requires cfg == ThreeBlocks(cfg.net) && s.waiting != [] && s.waiting[0] == id && s.running == [] && |batch| < 2
    requires |At(s.reqs, id).prompt| == 1 && At(s.reqs, id).output == [] && |s.free| >= 1 + |batch|
    ensures cfg.Valid() && PopLoop(cfg, s, batch, 2) == PopLoop(cfg, t, batch + [id], 2)
    ensures |t.free| == |s.free| - 1 && t.waiting == s.waiting[1..] && t.running == [] && t.preemptions == s.preemptions
    ensures forall j :: j != id ==> At(t.reqs, j) == At(s.reqs, j)
  {
    hide PopLoop;
    assert UnitsFor(1, 1) == 1;
    t := Stamp(Allocate(cfg, s.(waiting := s.waiting[1..]), id).value, id);
    assert CanAllocate(cfg, s, id, |batch|);
    PopTurn(cfg, s, batch, 2);
  }

  /** Both are let in; one block is left. */
  lemma BothPopped(cfg: Cfg, s: St) returns (q: St)
    requires PairInLine(cfg, s)
    ensures cfg.Valid() && PopLoop(cfg, s, [], 2) == Ok((q, [0, 1]))
    ensures |q.free| == 1 && q.waiting == [] && q.running == [] && q.preemptions == 0
  {
    hide Inv, PopLoop, Allocate, CanAllocate;
    var p := PopOneOfPair(cfg, s, [], 0);
    assert s.waiting[1..] == [1] && [] + [0] == [0];
    q := PopOneOfPair(cfg, p, [0], 1);
    assert p.waiting[1..] == [] && [0] + [1] == [0, 1];
    PopTurn(cfg, q, [0, 1], 2);
  }

  /** Both are admitted and prefilled. */
  lemma BothAdmitted(cfg: Cfg, s: St) returns (t: St)
    requires PairInLine(cfg, s)
    ensures cfg.Valid() && Admit(cfg, Retire(s)) == Ok(t) && Inv(cfg, t)
    ensures t.running == [0, 1] && |t.free| == 1 && t.preemptions == 0 && t.waiting == []
    ensures 0 in t.reqs && 1 in t.reqs && HalfDone(At(t.reqs, 0)) && HalfDone(At(t.reqs, 1))
  {
    hide Core, PopLoop, PrefillEach, Sort, Retire, PoppedFrom, PrefilledFrom, PopStopped;
    NothingToRetire(s);
    EqualKeysStay(s.reqs, s.waiting);
    PopLoopFacts(cfg, s, [], 2);
    var q := BothPopped(cfg, s);
    PoppedMembers(cfg, s, q, [0, 1]);
    PrefillEachFacts(cfg, q, [0, 1]);
    t := PrefillEach(cfg, q, [0, 1]).value;
    PrefilledParts(q, t, [0, 1]);
    assert 0 in [0, 1] && 1 in [0, 1] && [] + [0, 1] == [0, 1];
  }

  lemma PoppedMembers(cfg: Cfg, s: St, t: St, batch: seq<Id>)
    requires PoppedFrom(cfg, s, t, [], batch)
    ensures forall id :: id in t.reqs <==> id in s.reqs
    ensures forall id :: id in batch ==> Allocated(At(s.reqs, id), At(t.reqs, id))
  {
    assert batch[0..] == batch;
  }

  lemma PrefilledParts(s: St, t: St, batch: seq<Id>)
    requires PrefilledFrom(s, t, batch)
    ensures t.running == s.running + batch && t.free == s.free && t.preemptions == s.preemptions && t.waiting == s.waiting
    ensures forall id :: id in batch ==> Took(At(s.reqs, id), At(t.reqs, id))
    ensures forall id :: id in t.reqs <==> id in s.reqs
  {
  }

  /** Both have a token to come and a block to find, and only one block is free. */
  lemma BothWant(cfg: Cfg, t: St)
    requires Inv(cfg, t) && cfg == ThreeBlocks(cfg.net) && t.running == [0, 1]
    requires 0 in t.reqs && 1 in t.reqs && HalfDone(At(t.reqs, 0)) && HalfDone(At(t.reqs, 1))
    ensures cfg.Valid() && Unfinished(t) == [0, 1] && Wanting(cfg, t.reqs, [0, 1]) == 2
  {
    hide Core, Wants, HalfDone;
    InvValid(cfg, t);
    HalfDoneWants(cfg, t, 0);
    HalfDoneWants(cfg, t, 1);
    WithoutNone(t.running, DoneOf(t.reqs, t.running));
    assert [0, 1][1..] == [1] && [1][1..] == [];
    assert Wanting(cfg, t.reqs, []) == 0 && Wanting(cfg, t.reqs, [1]) == 1;
  }

  lemma HalfDoneWants(cfg: Cfg, t: St, id: Id)
    requires Inv(cfg, t) && cfg == ThreeBlocks(cfg.net) && id in t.running && id in t.reqs && HalfDone(At(t.reqs, id))
    ensures cfg.Valid() && !At(t.reqs, id).Done() && Wants(cfg, At(t.reqs, id))
  {
    hide ListsOk, WaitersOk, OthersOk, MemOk, CommitOk, AdmitOrder;
    var r := At(t.reqs, id);
    assert ReqOk(cfg, r) && RunningOk(cfg, t.pool, r, false);
    assert UnitsFor(1, 1) == 1 && UnitsFor(1, 2) == 2;
  }

  /** In one step both requests are admitted and prefilled, and one of them is evicted again. */
  lemma AdmissionCanEvict(cfg: Cfg, s: St)
    requires PairInLine(cfg, s)
    ensures cfg.Valid() && Step(cfg, s).Ok? && Step(cfg, s).value.preemptions == 1
  {
    hide Core, Admit, Retire, Decode, Wanting, Unfinished, EnsureCapacity;
    var t := BothAdmitted(cfg, s);
    BothWant(cfg, t);
    NobodyEvictedIff(cfg, t);
    StepKeepsInv(cfg, s);
    DecodeCounts(cfg, t);
  }

  /** The situation arises right after start-up. */
  lemma PairCanArrive(net: Net, pool: Pool)
    requires Runs.Boot(ThreeBlocks(net), pool)
    ensures PairInLine(ThreeBlocks(net), Submit(Submit(Initial(ThreeBlocks(net), pool), 0, PAIR), 1, PAIR))
  {
    var cfg := ThreeBlocks(net);
    var s := Initial(cfg, pool);
    Runs.InitialInv(cfg, pool);
    SubmitKeepsInv(cfg, s, 0, PAIR);
    SubmitKeepsInv(cfg, Submit(s, 0, PAIR), 1, PAIR);
  }
}
