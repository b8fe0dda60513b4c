/** One whole step: it never raises, keeps the invariant, and does so much to each request. */
module Steps {
  import opened Prelude
  import opened Storage
  import opened Forward
  import opened Scheduling
  import opened Lists
  import opened Invariant
  import opened PreserveQueues
  import opened PreserveForward
  import opened EvictionLoop

  // ------------------------------------------------------------------ admission

  /** Memory was handed out; nothing else about the request changed. */
  ghost predicate Allocated(r: Req, r': Req) {
    r'.(table := r.table, admitSeq := r.admitSeq) == r
  }

  /** t and batch' are what popping from s, with `batch` already popped, produced: first come first served. */
  ghost predicate PoppedFrom(cfg: Cfg, s: St, t: St, batch: seq<Id>, batch': seq<Id>) {
    && batch <= batch' && s.waiting == batch'[|batch|..] + t.waiting
    && t.running == s.running && t.pool == s.pool && t.preemptions == s.preemptions
    && (forall id :: id in t.reqs <==> id in s.reqs)
    && (forall id :: id !in batch'[|batch|..] ==> At(t.reqs, id) == At(s.reqs, id))
    && (forall id :: id in batch'[|batch|..] ==> Allocated(At(s.reqs, id), At(t.reqs, id)))
    && (cfg.backend.Preempting? && |batch'| > |batch| ==> |t.free| >= |s.running| + |batch'| - 1)
  }

  /** Popping stops for one of three reasons. */
  ghost predicate PopStopped(cfg: Cfg, t: St, batch: seq<Id>, limit: nat)
    requires cfg.Valid()
  {
    t.waiting == [] || |batch| >= limit || !CanAllocate(cfg, t, t.waiting[0], |t.running| + |batch|)
  }

  lemma PopOnce(cfg: Cfg, s: St, s1: St, t: St, batch: seq<Id>, batch': seq<Id>, need: nat)
    requires cfg.Valid() && ListsOk(s, batch) && AdmittedFrom(cfg, s, s1, need) && s.waiting[0] in s.reqs
    requires cfg.backend.Preempting? ==> |s.free| >= need + |s.running| + |batch|
    requires PoppedFrom(cfg, s1, t, batch + [s.waiting[0]], batch')
    requires cfg.backend.Preempting? && batch' == batch + [s.waiting[0]] ==> |t.free| == |s1.free|
    ensures PoppedFrom(cfg, s, t, batch, batch')
  {
    hide ListsOk, CanAllocate, Popped, NoDup;
    var id := s.waiting[0];
    ListFacts(s, batch);
    PopSlices(s.waiting, batch, batch', t.waiting);
  }

  /** The first of the queue, then the others popped, then the rest. */
  lemma PopSlices(waiting: seq<Id>, batch: seq<Id>, batch': seq<Id>, rest: seq<Id>)
    requires waiting != [] && NoDup(waiting) && batch + [waiting[0]] <= batch'
    requires waiting[1..] == batch'[|batch| + 1..] + rest
    ensures batch <= batch' && waiting == batch'[|batch|..] + rest
    ensures waiting[0] in batch'[|batch|..] && waiting[0] !in batch'[|batch| + 1..]
    ensures forall id :: id in batch'[|batch|..] <==> id == waiting[0] || id in batch'[|batch| + 1..]
  {
    var id, more := waiting[0], batch'[|batch| + 1..];
    assert batch'[..|batch| + 1] == batch + [id];
    assert batch'[|batch|..] == [id] + more;
    assert waiting == [id] + waiting[1..];
    forall k | 0 <= k < |more| ensures more[k] != id {
      assert more[k] == waiting[1..][k] == waiting[k + 1];
    }
  }

  /** One turn of the popping loop. */
  lemma PopTurn(cfg: Cfg, s: St, batch: seq<Id>, limit: nat)
    requires cfg.Valid()
    ensures if s.waiting != [] && |batch| < limit && CanAllocate(cfg, s, s.waiting[0], |s.running| + |batch|) then
        var id := s.waiting[0];
        var r := Allocate(cfg, s.(waiting := s.waiting[1..]), id);
        && (r.Ok? ==> PopLoop(cfg, s, batch, limit) == PopLoop(cfg, Stamp(r.value, id), batch + [id], limit))
        && (r.Raised? ==> PopLoop(cfg, s, batch, limit) == Raised(r.error))
      else PopLoop(cfg, s, batch, limit) == Ok((s, batch))
  {
  }

  /** The head is let in, and the loop goes on from a state like the first. */
  lemma HeadLetIn(cfg: Cfg, s: St, batch: seq<Id>, limit: nat)
    requires Core(cfg, s, batch, {}) && cfg.Valid() && s.waiting != [] && |batch| < limit
    requires CanAllocate(cfg, s, s.waiting[0], |s.running| + |batch|)
    ensures var s1 := AdmitHead(cfg, s); var need := Need(cfg, At(s.reqs, s.waiting[0]).SeqLen());
      && need >= 0 && PopLoop(cfg, s, batch, limit) == PopLoop(cfg, s1, batch + [s.waiting[0]], limit)
      && Core(cfg, s1, batch + [s.waiting[0]], {}) && AdmittedFrom(cfg, s, s1, need)
      && |s1.waiting| < |s.waiting| && |s1.free| == |s.free| - need
      && (cfg.backend.Preempting? ==> |s.free| >= need + |s.running| + |batch|)
      && ListsOk(s, batch) && s.waiting[0] in s.reqs
  {
    hide Core, ListsOk, CanAllocate, Allocate, Need, AdmittedFrom, PopLoop;
    var headroom := |s.running| + |batch|;
    CoreLists(cfg, s, batch);
    ListFacts(s, batch);
    CanAllocateSuffices(cfg, s, batch, s.waiting[0], headroom);
    AdmitHeadKeepsCore(cfg, s, batch, headroom);
    AdmittedShape(cfg, s, AdmitHead(cfg, s), Need(cfg, At(s.reqs, s.waiting[0]).SeqLen()));
    PopTurn(cfg, s, batch, limit);
  }

  lemma {:induction false} PopLoopFacts(cfg: Cfg, s: St, batch: seq<Id>, limit: nat)
    requires Core(cfg, s, batch, {})
    ensures PopLoop(cfg, s, batch, limit).Ok?
    ensures var (t, batch') := PopLoop(cfg, s, batch, limit).value;
      && Core(cfg, t, batch', {}) && PoppedFrom(cfg, s, t, batch, batch')
      && PopStopped(cfg, t, batch', limit) && |batch'| <= Max(limit, |batch|)
      && (|batch'| == |batch| ==> t == s)
    decreases |s.waiting|
  {
    hide Core, ListsOk, CanAllocate, Allocate, Stamp, AdmitHead, Need, AdmittedFrom, PoppedFrom, PopLoop;
    CoreLists(cfg, s, batch);
    if s.waiting != [] && |batch| < limit && CanAllocate(cfg, s, s.waiting[0], |s.running| + |batch|) {
      var id, s1 := s.waiting[0], AdmitHead(cfg, s);
      HeadLetIn(cfg, s, batch, limit);
      PopLoopFacts(cfg, s1, batch + [id], limit);
      var (t, batch') := PopLoop(cfg, s1, batch + [id], limit).value;
      PoppedLonger(cfg, s1, t, batch + [id], batch');
      PopOnce(cfg, s, s1, t, batch, batch', Need(cfg, At(s.reqs, id).SeqLen()));
    } else {
      PopTurn(cfg, s, batch, limit);
      PoppedNone(cfg, s, batch);
    }
  }

  lemma CoreLists(cfg: Cfg, s: St, popped: seq<Id>)
    requires Core(cfg, s, popped, {})
    ensures cfg.Valid() && ListsOk(s, popped)
  {
  }

  lemma PoppedLonger(cfg: Cfg, s: St, t: St, batch: seq<Id>, batch': seq<Id>)
    requires PoppedFrom(cfg, s, t, batch, batch')
    ensures |batch'| >= |batch| && (|batch'| == |batch| <==> batch' == batch)
  {
  }

  lemma PoppedNone(cfg: Cfg, s: St, batch: seq<Id>)
    ensures PoppedFrom(cfg, s, s, batch, batch)
  {
    assert batch[|batch|..] == [];
  }

  lemma AdmittedShape(cfg: Cfg, s: St, t: St, need: nat)
    requires cfg.Valid() && AdmittedFrom(cfg, s, t, need)
    ensures |t.waiting| < |s.waiting| && |t.free| == |s.free| - need
  {
  }

  /** One more token, and none of the request's own parameters touched. */
  ghost predicate Took(r: Req, r': Req) {
    && r'.prompt == r.prompt && r'.maxNew == r.maxNew && r'.ignoreEos == r.ignoreEos && r'.arrival == r.arrival
    && r'.preempts == r.preempts && r'.cancelled == r.cancelled
    && |r'.output| == |r.output| + 1 && r.output <= r'.output
  }

  /** t is s after the admitted requests `batch` (already popped in s) were prefilled. */
  ghost predicate PrefilledFrom(s: St, t: St, batch: seq<Id>) {
    && t == s.(pool := t.pool, reqs := t.reqs, running := s.running + batch)
    && (forall id :: id in t.reqs <==> id in s.reqs)
    && (forall id :: id !in batch ==> At(t.reqs, id) == At(s.reqs, id))
    && (forall id :: id in batch ==> Took(At(s.reqs, id), At(t.reqs, id)))
  }

  lemma StepIsPrefilled(cfg: Cfg, s: St, t: St, batch: seq<Id>)
    requires cfg.Valid()
    requires StepFacts(cfg, s, t, Activate(s.reqs, batch), batch, PrefillRows(s.reqs, batch), s.running + batch)
    ensures PrefilledFrom(s, t, batch)
  {
    hide StepTokens, BatchFor, PoolOk, RunningOk, ReqOk, Emit;
  }

  lemma PrefillConcat(s: St, t: St, u: St, a: seq<Id>, b: seq<Id>)
    requires PrefilledFrom(s, t, a) && PrefilledFrom(t, u, b) && Separate(a, b)
    ensures PrefilledFrom(s, u, a + b)
  {
    assert (s.running + a) + b == s.running + (a + b);
  }

  lemma {:induction false} PrefillEachFacts(cfg: Cfg, s: St, batch: seq<Id>)
    requires Core(cfg, s, batch, {})
    ensures PrefillEach(cfg, s, batch).Ok?
    ensures var t := PrefillEach(cfg, s, batch).value; Inv(cfg, t) && PrefilledFrom(s, t, batch)
    decreases |batch|
  {
    hide ReqsOk, WaitersOk, RunnersOk, PoppedsOk, OthersOk, MemOk, CommitOk, AdmitOrder, ListsOk, PoolOk, StepFacts, Prefill, PrefilledFrom, Holders;
    if batch == [] {
      PrefilledNone(s);
    } else {
      var first, rest := batch[..1], batch[1..];
      assert batch == first + rest;
      PrefillKeepsCore(cfg, s, first, rest);
      var t := Prefill(cfg, s, first).value;
      StepIsPrefilled(cfg, s, t, first);
      PrefillEachFacts(cfg, t, rest);
      ListFacts(s, batch);
      PrefixNoDup(first, rest);
      PrefillConcat(s, t, PrefillEach(cfg, t, rest).value, first, rest);
    }
  }

  lemma PrefilledNone(s: St)
    ensures PrefilledFrom(s, s, [])
  {
    assert s.running + [] == s.running;
  }

  /** What the admission phase did: `batch` left the head of the sorted queue and produced a token each. */
  ghost predicate AdmitRel(cfg: Cfg, s: St, t: St, batch: seq<Id>) {
    && ((t == s && batch == []) || Sort(s.reqs, ByWait, s.waiting) == batch + t.waiting)
    && t.running == s.running + batch && t.preemptions == s.preemptions
    && (forall id :: id in t.reqs <==> id in s.reqs)
    && (forall id :: id !in batch ==> At(t.reqs, id) == At(s.reqs, id))
    && (forall id :: id in batch ==> Took(At(s.reqs, id), At(t.reqs, id)))
    && (cfg.backend.Preempting? && batch != [] ==> |t.free| >= |s.running| + |batch| - 1)
  }

  /** Room the admission phase has. */
  function Limit(cfg: Cfg, s: St): nat {
    if cfg.isStatic then (if s.running == [] then cfg.maxBatch else 0) else Max(cfg.maxBatch - |s.running|, 0)
  }

  lemma AdmitCompose(cfg: Cfg, s: St, p: St, t: St, batch: seq<Id>)
    requires PoppedFrom(cfg, s.(waiting := Sort(s.reqs, ByWait, s.waiting)), p, [], batch)
    requires PrefilledFrom(p, t, batch)
    ensures AdmitRel(cfg, s, t, batch)
  {
    hide Sort;
    assert batch[0..] == batch;
  }

  /** The first in line finds no room beside those now running: no slot, no commitment left, or too few blocks. */
  ghost predicate HeadShort(cfg: Cfg, t: St)
    requires cfg.Valid() && t.waiting != []
  {
    var r := At(t.reqs, t.waiting[0]);
    match cfg.backend
    case Slots => t.free == []
    case Reserve => SumOf(t.committed) + UnitsFor(cfg.cap, |r.prompt| + r.maxNew) > cfg.units
    case Preempting => |t.free| < UnitsFor(cfg.cap, |r.prompt| + |r.output|) + |t.running|
  }

  /** Admission goes on until the queue is empty, the rows are used up or the first in line finds no room. */
  ghost predicate FilledUp(cfg: Cfg, s: St, t: St, batch: seq<Id>) {
    cfg.Valid() && (t.waiting == [] || |batch| >= Limit(cfg, s) || HeadShort(cfg, t))
  }

  lemma PopFilled(cfg: Cfg, s: St, p: St, t: St, batch: seq<Id>)
    requires cfg.Valid() && PopStopped(cfg, p, batch, Limit(cfg, s)) && PrefilledFrom(p, t, batch) && Core(cfg, p, batch, {})
    ensures FilledUp(cfg, s, t, batch)
  {
    hide Core, ListsOk, SumOf, UnitsFor, Took;
    CoreLists(cfg, p, batch);
    ListFacts(p, batch);
    if p.waiting != [] {
      assert p.waiting[0] in p.waiting;
      assert At(t.reqs, t.waiting[0]) == At(p.reqs, p.waiting[0]);
    }
  }

  /** The admission phase keeps the invariant and never raises. */
  lemma AdmitFacts(cfg: Cfg, s: St) returns (batch: seq<Id>)
    requires Inv(cfg, s)
    ensures Admit(cfg, s).Ok? && Inv(cfg, Admit(cfg, s).value)
    ensures AdmitRel(cfg, s, Admit(cfg, s).value, batch) && |batch| <= Limit(cfg, s)
    ensures FilledUp(cfg, s, Admit(cfg, s).value, batch)
    ensures batch == [] && s.waiting != [] && Limit(cfg, s) > 0 ==>
      Sort(s.reqs, ByWait, s.waiting) != []
      && !CanAllocate(cfg, s.(waiting := Sort(s.reqs, ByWait, s.waiting)), Sort(s.reqs, ByWait, s.waiting)[0], |s.running|)
  {
    hide ReqsOk, WaitersOk, RunnersOk, PoppedsOk, OthersOk, MemOk, CommitOk, AdmitOrder, ListsOk, PoolOk, StepFacts, Prefill, PrefilledFrom, Holders, PoppedFrom, CanAllocate, PopLoop, Sort, AdmitRel;
    if cfg.isStatic && s.running != [] {
      batch := [];
      AdmitNothing(cfg, s);
    } else {
      var q := s.(waiting := Sort(s.reqs, ByWait, s.waiting));
      SortKeepsCore(cfg, s);
      PopLoopFacts(cfg, q, [], Limit(cfg, s));
      var (p, b) := PopLoop(cfg, q, [], Limit(cfg, s)).value;
      batch := b;
      SortSize(s.reqs, s.waiting);
      PrefillEachFacts(cfg, p, batch);
      if cfg.isStatic && batch != [] {
        assert batch + [] == batch;
        PrefillKeepsCore(cfg, p, batch, []);
        StepIsPrefilled(cfg, p, Prefill(cfg, p, batch).value, batch);
        AdmitCompose(cfg, s, p, Prefill(cfg, p, batch).value, batch);
        PopFilled(cfg, s, p, Prefill(cfg, p, batch).value, batch);
      } else if cfg.isStatic {
        PrefilledNone(p);
        AdmitCompose(cfg, s, p, p, batch);
        PopFilled(cfg, s, p, p, batch);
      } else {
        AdmitCompose(cfg, s, p, PrefillEach(cfg, p, batch).value, batch);
        PopFilled(cfg, s, p, PrefillEach(cfg, p, batch).value, batch);
      }
    }
  }

  lemma SortSize(reqs: map<Id, Req>, ids: seq<Id>)
    ensures |Sort(reqs, ByWait, ids)| == |ids|
  {
    SortCount(reqs, ByWait, ids);
    assert |multiset(Sort(reqs, ByWait, ids))| == |multiset(ids)|;
  }

  lemma AdmitNothing(cfg: Cfg, s: St)
    ensures AdmitRel(cfg, s, s, [])
  {
    assert s.running + [] == s.running;
  }

  // ------------------------------------------------------------------ decode

  /** The running requests that still have tokens to produce, in admission order. */
  ghost function Unfinished(s: St): seq<Id> {
    Without(s.running, DoneOf(s.reqs, s.running))
  }

  lemma UnfinishedFacts(cfg: Cfg, s: St)
    requires Inv(cfg, s)
    ensures LoopInv(cfg, s, Unfinished(s), 0)
    ensures Sort(s.reqs, ByAdmit, Unfinished(s)) == Unfinished(s)
  {
    hide ReqsOk, WaitersOk, RunnersOk, OthersOk, MemOk, CommitOk, ListsOk, PoolOk;
    ListFacts(s, []);
    var drop := DoneOf(s.reqs, s.running);
    var ids := Unfinished(s);
    assert Holders(s, []) == s.running;
    forall id ensures id in ids <==> id in s.running && !At(s.reqs, id).Done() {
      WithoutCount(s.running, drop, id);
    }
    OrderWithout(s.reqs, s.running, drop, s.nextAdmit);
    SortIdentity(s.reqs, ByAdmit, ids);
    assert Front(ids, 0) == {};
    OrderNoDup(s.reqs, ids, s.nextAdmit);
  }

  lemma OrderNoDup(reqs: map<Id, Req>, ids: seq<Id>, n: nat)
    requires AdmitOrder(reqs, ids, n)
    ensures NoDup(ids)
  {
    forall i, j | 0 <= i < j < |ids| ensures ids[i] != ids[j] {
      assert At(reqs, ids[i]).admitSeq < At(reqs, ids[j]).admitSeq;
    }
  }

  /** u is t after one batched decode of `active`. */
  ghost predicate DecodedFrom(t: St, u: St, active: seq<Id>) {
    && u == t.(pool := u.pool, reqs := u.reqs)
    && (forall id :: id in u.reqs <==> id in t.reqs)
    && (forall id :: id !in active ==> At(u.reqs, id) == At(t.reqs, id))
    && (forall id :: id in active ==> Took(At(t.reqs, id), At(u.reqs, id)))
  }

  lemma StepIsDecoded(cfg: Cfg, t: St, u: St, active: seq<Id>)
    requires cfg.Valid() && forall id :: id in active ==> At(t.reqs, id).output != []
    requires StepFacts(cfg, t, u, t.reqs, active, DecodeRows(t.reqs, active), t.running)
    ensures DecodedFrom(t, u, active)
  {
    hide StepTokens, BatchFor, PoolOk, RunningOk, ReqOk, Emit;
  }

  /** What the decode phase did: evicted some of the batch, and produced one token for each survivor. */
  ghost predicate DecodeRel(cfg: Cfg, s: St, t: St, u: St, active: seq<Id>) {
    && cfg.Valid()
    && Evolved(s, t, Unfinished(s), active) && WeakestGone(s, Unfinished(s), active)
    && |Unfinished(s)| - |active| <= Max(0, Wanting(cfg, s.reqs, Unfinished(s)) - |s.free|)
    && (!cfg.backend.Preempting? ==> active == Unfinished(s))
    && (RunnersFit(cfg, s) && Unfinished(s) != [] && (forall id :: id in s.running ==> id in Unfinished(s)) ==> active != [])
    && DecodedFrom(t, u, active)
  }

  lemma ActiveReady(cfg: Cfg, t: St, active: seq<Id>)
    requires LoopInv(cfg, t, active, |active|) && active != []
    ensures DecodeReady(cfg, t, active)
    ensures forall id :: id in t.running && id !in active ==> At(t.reqs, id).Done()
  {
    hide Core;
    assert active[..|active|] == active;
    assert Front(active, |active|) == set id | id in active;
  }

  lemma EmptyActive(cfg: Cfg, t: St)
    requires LoopInv(cfg, t, [], 0)
    ensures Inv(cfg, t)
  {
    hide Core;
    assert Front([], 0) == {};
  }

  /** The decode phase keeps the invariant and never raises. */
  lemma DecodeFacts(cfg: Cfg, s: St) returns (t: St, active: seq<Id>)
    requires Inv(cfg, s)
    ensures Decode(cfg, s).Ok? && Inv(cfg, Decode(cfg, s).value)
    ensures DecodeRel(cfg, s, t, Decode(cfg, s).value, active)
  {
    hide Core, LoopInv, EnsureLoop, Evolved, WeakestGone, Wanting, Without, DecodeBatch, StepFacts, DecodedFrom, DecodeReady;
    var ids := Unfinished(s);
    UnfinishedFacts(cfg, s);
    LoopBasics(cfg, s, ids, 0);
    EnsureLoopFacts(cfg, s, ids, 0);
    t, active := EnsureLoop(cfg, s, ids, 0).value.0, EnsureLoop(cfg, s, ids, 0).value.1;
    LoopResultAtStart(cfg, s, ids, t, active);
    if ids == [] {
      t, active := s, [];
      EvolvedRefl(s, []);
      DecodedNone(s);
    } else if active == [] {
      EmptyActive(cfg, t);
      DecodeEmpty(cfg, t);
      DecodedNone(t);
    } else {
      ActiveReady(cfg, t, active);
      DecodeBatchKeepsInv(cfg, t, active);
      StepIsDecoded(cfg, t, DecodeBatch(cfg, t, active).value, active);
    }
  }

  lemma DecodeEmpty(cfg: Cfg, t: St)
    requires cfg.Valid()
    ensures DecodeBatch(cfg, t, []) == Ok(t)
  {
  }

  lemma DecodedNone(s: St)
    ensures DecodedFrom(s, s, [])
  {
  }

  lemma LoopResultAtStart(cfg: Cfg, s: St, ids: seq<Id>, t: St, active: seq<Id>)
    requires LoopResult(cfg, s, ids, 0, t, active)
    ensures LoopInv(cfg, t, active, |active|) && Evolved(s, t, ids, active) && WeakestGone(s, ids, active)
    ensures |ids| - |active| <= Max(0, Wanting(cfg, s.reqs, ids) - |s.free|)
    ensures !cfg.backend.Preempting? ==> active == ids
    ensures RunnersFit(cfg, s) && ids != [] && (forall id :: id in s.running ==> id in ids) ==> active != []
    ensures |active| <= |ids|
  {
    hide LoopInv, WeakestGone, Wanting, Gone, MayGrow, RunnersFit;
    assert ids[0..] == ids;
  }

  // ------------------------------------------------------------------ the step

  /** A step from a reachable state never raises and keeps the invariant. */
  lemma StepKeepsInv(cfg: Cfg, s: St)
    requires Inv(cfg, s)
    ensures Step(cfg, s).Ok? && Inv(cfg, Step(cfg, s).value)
  {
    hide Inv, Admit, Decode, Retire, AdmitRel, DecodeRel, CanAllocate, RetiredFrom, Sort;
    InvValid(cfg, s);
    RetireKeepsInv(cfg, s);
    var _ := AdmitFacts(cfg, Retire(s));
    var _, _ := DecodeFacts(cfg, Admit(cfg, Retire(s)).value);
  }

  lemma InvValid(cfg: Cfg, s: St)
    requires Inv(cfg, s)
    ensures cfg.Valid()
  {
  }
}
