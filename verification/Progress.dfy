/** Every step with work to do emits a token, so the engine drains; and evictions in one step are bounded. */
module Progress {
  import opened Prelude
  import opened Transformer
  import opened Storage
  import opened Forward
  import opened Scheduling
  import opened Lists
  import opened Invariant
  import opened PreserveQueues
  import opened PreserveEviction
  import opened EvictionLoop
  import opened Steps

  // ------------------------------------------------------------------ sums

  lemma {:induction false} SumOfNonNegative(m: map<Id, int>)
    requires forall k :: k in m ==> m[k] >= 0
    ensures SumOf(m) >= 0
    decreases |m|
  {
    if m != map[] {
      var k :| k in m;
      SumOfRemove(m, k);
      SumOfNonNegative(m - {k});
    }
  }

  lemma {:induction false} SumOfMonotone(m: map<Id, int>, m': map<Id, int>)
    requires m.Keys == m'.Keys && forall k :: k in m ==> m'[k] <= m[k]
    ensures SumOf(m') <= SumOf(m)
    decreases |m|
  {
    if m == map[] {
      assert m' == map[];
    } else {
      var k :| k in m;
      SumOfRemove(m, k);
      SumOfRemove(m', k);
      assert (m - {k}).Keys == (m' - {k}).Keys;
      SumOfMonotone(m - {k}, m' - {k});
    }
  }

  lemma SumOfStrict(m: map<Id, int>, m': map<Id, int>, k: Id)
    requires m.Keys == m'.Keys && (forall j :: j in m ==> m'[j] <= m[j]) && k in m && m'[k] < m[k]
    ensures SumOf(m') < SumOf(m)
  {
    SumOfRemove(m, k);
    SumOfRemove(m', k);
    assert (m - {k}).Keys == (m' - {k}).Keys;
    SumOfMonotone(m - {k}, m' - {k});
  }

  // ------------------------------------------------------------------ the parts of one step

  /** A step in slow motion: after retire, after admission, after evictions, after decode. */
  datatype Trace = Trace(r: St, t: St, e: St, u: St, batch: seq<Id>, active: seq<Id>)

  /** The first in line cannot be admitted although there is room for a row. */
  ghost predicate Starved(cfg: Cfg, r: St)
    requires cfg.Valid()
  {
    var q := r.(waiting := Sort(r.reqs, ByWait, r.waiting));
    q.waiting != [] && !CanAllocate(cfg, q, q.waiting[0], |q.running|)
  }

  ghost predicate Traces(cfg: Cfg, s: St, x: Trace) {
    && Inv(cfg, s) && Inv(cfg, x.r) && Inv(cfg, x.t) && Inv(cfg, x.u)
    && x.r == Retire(s) && Admit(cfg, x.r) == Ok(x.t) && Decode(cfg, x.t) == Ok(x.u)
    && RetiredFrom(s, x.r)
    && AdmitRel(cfg, x.r, x.t, x.batch) && |x.batch| <= Limit(cfg, x.r) && FilledUp(cfg, x.r, x.t, x.batch)
    && (x.batch == [] && x.r.waiting != [] && Limit(cfg, x.r) > 0 ==> Starved(cfg, x.r))
    && DecodeRel(cfg, x.t, x.e, x.u, x.active)
    && Step(cfg, s) == Ok(x.u)
  }

  lemma StepTrace(cfg: Cfg, s: St) returns (x: Trace)
    requires Inv(cfg, s)
    ensures Traces(cfg, s, x)
  {
    hide Inv, Admit, Decode, Retire, AdmitRel, DecodeRel, CanAllocate, RetiredFrom, Sort, FilledUp;
    InvValid(cfg, s);
    RetireKeepsInv(cfg, s);
    var r := Retire(s);
    var batch := AdmitFacts(cfg, r);
    var t := Admit(cfg, r).value;
    var e, active := DecodeFacts(cfg, t);
    x := Trace(r, t, e, Decode(cfg, t).value, batch, active);
  }

  // ------------------------------------------------------------------ remaining work

  /** Queued, or running with tokens still to produce. */
  ghost predicate Live(s: St, id: Id) {
    id in s.waiting || (id in s.running && !At(s.reqs, id).Done())
  }

  /** Tokens a request may still produce, if it is live. */
  ghost function Rem(s: St, id: Id): int {
    if Live(s, id) then Budget(At(s.reqs, id)) - |At(s.reqs, id).output| else 0
  }

  ghost function RemMap(s: St): map<Id, int> {
    map id | id in s.reqs :: Rem(s, id)
  }

  /** Sum of (max_new - output length) over live requests. */
  ghost function Work(s: St): int {
    SumOf(RemMap(s))
  }

  lemma RemNonNegative(cfg: Cfg, s: St, id: Id)
    requires Inv(cfg, s)
    ensures Rem(s, id) >= 0
    ensures Live(s, id) ==> Rem(s, id) > 0
    ensures id in s.waiting || id in s.running ==> id in s.reqs
  {
    hide MemOk, CommitOk, AdmitOrder, OthersOk, PoolOk, RunnersOk;
    ListFacts(s, []);
    if id in s.waiting || id in s.running {
      assert ReqOk(cfg, At(s.reqs, id));
      assert id in s.waiting ==> WaitingOk(At(s.reqs, id));
    }
  }

  lemma WorkNonNegative(cfg: Cfg, s: St)
    requires Inv(cfg, s)
    ensures Work(s) >= 0
  {
    hide Inv, Rem;
    forall id | id in RemMap(s) ensures RemMap(s)[id] >= 0 {
      RemNonNegative(cfg, s, id);
    }
    SumOfNonNegative(RemMap(s));
  }

  lemma RetireRem(s: St, r: St, id: Id)
    requires RetiredFrom(s, r) && Rem(s, id) >= 0
    ensures Rem(r, id) <= Rem(s, id)
    ensures id in r.running ==> id in s.running && !At(r.reqs, id).Done() && !At(r.reqs, id).cancelled && At(r.reqs, id) == At(s.reqs, id)
    ensures id in r.waiting ==> id in s.waiting && !At(r.reqs, id).cancelled && (id !in s.running ==> At(r.reqs, id) == At(s.reqs, id))
  {
    RetiredMembers(s, r);
  }

  lemma AdmitRem(cfg: Cfg, r: St, t: St, batch: seq<Id>, id: Id)
    requires AdmitRel(cfg, r, t, batch) && ListsOk(r, []) && Rem(r, id) >= 0 && (Live(r, id) ==> Rem(r, id) > 0)
    ensures Rem(t, id) <= Rem(r, id)
    ensures id in batch ==> id in r.waiting && id in t.running && Rem(t, id) < Rem(r, id) && Took(At(r.reqs, id), At(t.reqs, id))
    ensures id in t.running ==> id in r.running || id in batch
    ensures id in t.waiting ==> id in r.waiting && id !in batch
    ensures id in r.waiting ==> id in t.waiting || id in batch
    ensures id !in batch ==> At(t.reqs, id) == At(r.reqs, id)
  {
    hide ListsOk, Sort;
    AdmitMembers(cfg, r, t, batch, id);
    ListFacts(r, []);
  }

  lemma AdmitMembers(cfg: Cfg, r: St, t: St, batch: seq<Id>, id: Id)
    requires AdmitRel(cfg, r, t, batch) && ListsOk(r, [])
    ensures id in batch ==> id in r.waiting && id !in t.waiting
    ensures id in t.waiting <==> id in r.waiting && id !in batch
    ensures id in t.running <==> id in r.running || id in batch
  {
    if t == r && batch == [] {
    } else {
      ListFacts(r, []);
      SortCount(r.reqs, ByWait, r.waiting);
      var sorted := Sort(r.reqs, ByWait, r.waiting);
      assert multiset(sorted) == multiset(batch) + multiset(t.waiting);
      CountPositive(batch, id);
      CountPositive(t.waiting, id);
      CountPositive(r.waiting, id);
      MultisetOfNoDup(r.waiting, id);
    }
  }

  lemma DecodeRem(cfg: Cfg, t: St, e: St, u: St, active: seq<Id>, id: Id)
    requires DecodeRel(cfg, t, e, u, active) && ListsOk(t, []) && Rem(t, id) >= 0 && (Live(t, id) ==> Rem(t, id) > 0)
    ensures Rem(u, id) <= Rem(t, id)
    ensures id in active ==> id in t.running && id in u.running && Rem(u, id) < Rem(t, id)
    ensures id in u.running ==> id in t.running
    ensures id in u.waiting ==> id in t.waiting || (id in t.running && !At(t.reqs, id).Done())
    ensures id in t.waiting ==> id in u.waiting && At(u.reqs, id) == At(t.reqs, id)
    ensures At(t.reqs, id).output <= At(u.reqs, id).output
  {
    hide Wanting, WeakestGone, ListsOk, Unfinished;
    UnfinishedMembers(t, id);
    ListFacts(t, []);
    if id in Gone(Unfinished(t), active) {
      assert At(e.reqs, id) == Evicted(At(t.reqs, id));
    } else if id in active {
      assert MayGrow(At(t.reqs, id), At(e.reqs, id));
    } else {
      assert At(e.reqs, id) == At(t.reqs, id);
    }
  }

  lemma UnfinishedMembers(t: St, id: Id)
    ensures id in Unfinished(t) <==> id in t.running && !At(t.reqs, id).Done()
  {
    WithoutCount(t.running, DoneOf(t.reqs, t.running), id);
  }

  // ------------------------------------------------------------------ progress

  /** Could be admitted into an empty engine. */
  predicate AdmissibleAlone(cfg: Cfg, r: Req)
    requires cfg.Valid()
  {
    match cfg.backend
    case Slots => true
    case Reserve => Worst(cfg, r) <= cfg.units
    case Preempting => Need(cfg, r.SeqLen()) <= cfg.units
  }

  /** With nothing running, the head of the queue is admitted exactly when it fits an empty engine. */
  lemma IdleAdmitsIff(cfg: Cfg, q: St)
    requires Inv(cfg, q) && q.running == [] && q.waiting != []
    ensures cfg.Valid() && (CanAllocate(cfg, q, q.waiting[0], 0) <==> AdmissibleAlone(cfg, At(q.reqs, q.waiting[0])))
  {
    hide AdmitOrder, OthersOk, PoolOk, RunnersOk, ReqsOk, WaitersOk, Need, Worst;
    assert Holders(q, []) == [];
    FreeCount(cfg, q.free, q.reqs, []);
    if !cfg.backend.Slots? {
      assert q.committed == map[];
    }
  }

  /** A waiting request that could complete on its own can be admitted on its own. */
  lemma FitsMeansAdmissible(cfg: Cfg, r: Req)
    requires cfg.Valid() && ReqOk(cfg, r) && !r.Done() && FitsAlone(cfg, r)
    ensures AdmissibleAlone(cfg, r)
  {
    UnfinishedRoom(cfg, r);
    if !cfg.backend.Slots? {
      NeedWithinPool(cfg, r, r.SeqLen());
      NeedWithinPool(cfg, r, Max(|r.prompt| + r.maxNew, 0));
    }
  }

  /** Whoever runs fits the pool, and if nobody runs the first in line does. */
  ghost predicate Unjammed(cfg: Cfg, r: St)
    requires cfg.Valid()
  {
    && RunnersFit(cfg, r)
    && (r.running == [] && Sort(r.reqs, ByWait, r.waiting) != [] ==>
          FitsAlone(cfg, At(r.reqs, Sort(r.reqs, ByWait, r.waiting)[0])))
  }

  lemma NotStarvedWhenIdle(cfg: Cfg, r: St)
    requires Inv(cfg, r) && r.running == [] && r.waiting != []
    requires cfg.Valid() && Unjammed(cfg, r)
    ensures !Starved(cfg, r)
  {
    hide Core, CanAllocate, FitsAlone, AdmissibleAlone, Sort;
    SortKeepsCore(cfg, r);
    SortSize(r.reqs, r.waiting);
    var q := r.(waiting := Sort(r.reqs, ByWait, r.waiting));
    IdleAdmitsIff(cfg, q);
    HeadOk(cfg, q);
    FitsMeansAdmissible(cfg, At(q.reqs, q.waiting[0]));
  }

  lemma HeadOk(cfg: Cfg, q: St)
    requires Inv(cfg, q) && q.waiting != []
    ensures cfg.Valid() && ReqOk(cfg, At(q.reqs, q.waiting[0])) && !At(q.reqs, q.waiting[0]).Done()
  {
    hide AdmitOrder, OthersOk, PoolOk, RunnersOk, MemOk, CommitOk, ReqOk;
    ListFacts(q, []);
    assert q.waiting[0] in q.waiting && WaitingOk(At(q.reqs, q.waiting[0]));
  }

  /** A step that still has work after retirement, and is not jammed, admits somebody or decodes somebody. */
  lemma SomebodyAdvances(cfg: Cfg, s: St, x: Trace)
    requires Traces(cfg, s, x) && HasWork(x.r)
    requires cfg.Valid() && Unjammed(cfg, x.r)
    ensures x.batch != [] || x.active != []
  {
    hide Inv, Starved, Evolved, WeakestGone, DecodedFrom, Wanting, AdmitRel, Unfinished, RetiredFrom, FitsAlone, Retire, Admit, Decode, Step;
    InvLists(cfg, x.r);
    if x.batch == [] {
      if x.r.running == [] {
        NotStarvedWhenIdle(cfg, x.r);
      } else {
        var id := x.r.running[0];
        IdleAdmit(cfg, x.r, x.t);
        forall id | id in x.t.running ensures id in Unfinished(x.t) && FitsAlone(cfg, At(x.t.reqs, id)) {
          RetireRunning(s, x.r, id);
          UnfinishedMembers(x.t, id);
        }
        assert id in x.t.running && id in Unfinished(x.t);
      }
    }
  }

  // ------------------------------------------------------------------ requests that fit the pool

  /** Every request that is waiting or running could complete with the whole pool to itself. */
  ghost predicate AllFit(cfg: Cfg, s: St) {
    cfg.Valid() && forall id :: id in s.waiting || id in s.running ==> FitsAlone(cfg, At(s.reqs, id))
  }

  /** Contiguous slots hold a whole context, so everything fits. */
  lemma SlotsFitAll(cfg: Cfg, s: St)
    requires Inv(cfg, s) && cfg.backend.Slots?
    ensures cfg.Valid() && AllFit(cfg, s)
  {
    hide AdmitOrder, OthersOk, PoolOk, RunnersOk, WaitersOk, MemOk, CommitOk;
    ListFacts(s, []);
    forall id | id in s.waiting || id in s.running ensures FitsAlone(cfg, At(s.reqs, id)) {
      assert ReqOk(cfg, At(s.reqs, id));
    }
  }

  lemma RetireUnjammed(cfg: Cfg, s: St, x: Trace)
    requires Traces(cfg, s, x) && cfg.Valid() && AllFit(cfg, s)
    ensures Unjammed(cfg, x.r)
  {
    hide Core, AdmitRel, DecodeRel, Starved, FilledUp, FitsAlone, Sort, ListsOk, Retire, Admit, Decode, Step;
    RetiredMembers(s, x.r);
    RetiredFits(cfg, s, x.r);
    var q := Sort(x.r.reqs, ByWait, x.r.waiting);
    if q != [] {
      SortCount(x.r.reqs, ByWait, x.r.waiting);
      CountPositive(q, q[0]);
      CountPositive(x.r.waiting, q[0]);
      assert q[0] in x.r.waiting;
    }
  }

  lemma RetiredFits(cfg: Cfg, s: St, r: St)
    requires RetiredFrom(s, r) && cfg.Valid() && AllFit(cfg, s)
    ensures AllFit(cfg, r)
  {
    RetiredMembers(s, r);
    forall id | id in r.waiting || id in r.running ensures FitsAlone(cfg, At(r.reqs, id)) {
      assert FitsAlone(cfg, At(s.reqs, id));
    }
  }

  lemma FitsSame(cfg: Cfg, r: Req, r': Req)
    requires cfg.Valid() && r'.prompt == r.prompt && r'.maxNew == r.maxNew
    ensures FitsAlone(cfg, r') == FitsAlone(cfg, r)
  {
  }

  lemma AdmittedFits(cfg: Cfg, r: St, t: St, batch: seq<Id>)
    requires AdmitRel(cfg, r, t, batch) && ListsOk(r, []) && cfg.Valid() && AllFit(cfg, r)
    ensures AllFit(cfg, t)
  {
    hide ListsOk, Sort, FitsAlone;
    forall id | id in t.waiting || id in t.running ensures FitsAlone(cfg, At(t.reqs, id)) {
      AdmitMembers(cfg, r, t, batch, id);
      assert FitsAlone(cfg, At(r.reqs, id));
      FitsSame(cfg, At(r.reqs, id), At(t.reqs, id));
    }
  }

  lemma DecodedFits(cfg: Cfg, t: St, e: St, u: St, active: seq<Id>)
    requires DecodeRel(cfg, t, e, u, active) && cfg.Valid() && AllFit(cfg, t)
    ensures AllFit(cfg, u)
  {
    hide Wanting, WeakestGone, Unfinished, FitsAlone;
    forall id | id in u.waiting || id in u.running ensures FitsAlone(cfg, At(u.reqs, id)) {
      UnfinishedMembers(t, id);
      assert FitsAlone(cfg, At(t.reqs, id));
      if id in Gone(Unfinished(t), active) {
        assert At(e.reqs, id) == Evicted(At(t.reqs, id));
      } else if id in active {
        assert MayGrow(At(t.reqs, id), At(e.reqs, id));
      }
      FitsSame(cfg, At(t.reqs, id), At(u.reqs, id));
    }
  }

  /** A step changes nothing about who fits. */
  lemma StepFits(cfg: Cfg, s: St, x: Trace)
    requires Traces(cfg, s, x) && cfg.Valid() && AllFit(cfg, s)
    ensures AllFit(cfg, x.u)
  {
    hide Core, RetiredFrom, AdmitRel, DecodeRel, Starved, FilledUp, AllFit, ListsOk, Retire, Admit, Decode, Step;
    InvLists(cfg, x.r);
    RetiredFits(cfg, s, x.r);
    AdmittedFits(cfg, x.r, x.t, x.batch);
    DecodedFits(cfg, x.t, x.e, x.u, x.active);
  }

  /** A request as it stands in the queue: its budget is capped at the end of the context. */
  function TakenIn(r: Req): Req {
    r.(maxNew := Min(r.maxNew, MAX_CONTEXT - |r.prompt|), phase := Waiting)
  }

  /** A new request that could complete with the whole pool to itself. */
  ghost predicate CanComplete(cfg: Cfg, r: Req) {
    Acceptable(cfg, r) && FitsAlone(cfg, TakenIn(r))
  }

  lemma SubmitOk(cfg: Cfg, s: St, id: Id, r: Req)
    requires Inv(cfg, s) && AllFit(cfg, s) && id !in s.reqs && CanComplete(cfg, r)
    ensures Inv(cfg, Submit(s, id, r)) && AllFit(cfg, Submit(s, id, r))
  {
    hide Core, FitsAlone, Acceptable, ListsOk;
    SubmitKeepsInv(cfg, s, id, r);
    InvLists(cfg, s);
    ListFacts(s, []);
    var t := Submit(s, id, r);
    forall j | j in t.waiting || j in t.running ensures FitsAlone(cfg, At(t.reqs, j)) {
      assert j != id ==> FitsAlone(cfg, At(s.reqs, j));
    }
  }

  lemma InvLists(cfg: Cfg, s: St)
    requires Inv(cfg, s)
    ensures ListsOk(s, [])
  {
  }

  lemma IdleAdmit(cfg: Cfg, r: St, t: St)
    requires AdmitRel(cfg, r, t, [])
    ensures t.running == r.running && forall id :: At(t.reqs, id) == At(r.reqs, id)
  {
    assert r.running + [] == r.running;
  }

  lemma RetireRunning(s: St, r: St, id: Id)
    requires RetiredFrom(s, r) && id in r.running
    ensures !At(r.reqs, id).Done() && !At(r.reqs, id).cancelled
  {
    RetiredMembers(s, r);
  }

  /** Nobody's remaining work grows in a step. */
  lemma StepRem(cfg: Cfg, s: St, x: Trace, id: Id)
    requires Traces(cfg, s, x)
    ensures Rem(x.u, id) <= Rem(s, id)
    ensures id in x.batch || id in x.active ==> Rem(x.u, id) < Rem(s, id) && id in s.reqs
    ensures id in x.u.reqs <==> id in s.reqs
  {
    hide Core, Rem, RetiredFrom, AdmitRel, DecodeRel, Starved, ListsOk, Retire, Admit, Decode, Step;
    RemNonNegative(cfg, s, id);
    RemNonNegative(cfg, x.r, id);
    RemNonNegative(cfg, x.t, id);
    InvLists(cfg, x.r);
    InvLists(cfg, x.t);
    RetireRem(s, x.r, id);
    AdmitRem(cfg, x.r, x.t, x.batch, id);
    DecodeRem(cfg, x.t, x.e, x.u, x.active, id);
    StepKeys(cfg, s, x, id);
  }

  lemma StepKeys(cfg: Cfg, s: St, x: Trace, id: Id)
    requires RetiredFrom(s, x.r) && AdmitRel(cfg, x.r, x.t, x.batch) && DecodeRel(cfg, x.t, x.e, x.u, x.active)
    ensures id in x.u.reqs <==> id in s.reqs
    ensures id in x.t.reqs <==> id in s.reqs
    ensures id in x.r.reqs <==> id in s.reqs
  {
    hide Wanting, WeakestGone, Unfinished, Sort, Gone, MayGrow;
  }

  lemma StepCancelled(cfg: Cfg, s: St, x: Trace, id: Id)
    requires Traces(cfg, s, x)
    ensures At(x.u.reqs, id).cancelled == At(s.reqs, id).cancelled
  {
    hide Core, Starved, FilledUp, WeakestGone, Wanting, Unfinished, Sort, Retire, Admit, Decode, Step;
    assert At(x.r.reqs, id).cancelled == At(s.reqs, id).cancelled;
    assert At(x.t.reqs, id).cancelled == At(x.r.reqs, id).cancelled;
    if id in x.active {
      assert MayGrow(At(x.t.reqs, id), At(x.e.reqs, id));
    } else if id in Gone(Unfinished(x.t), x.active) {
      assert At(x.e.reqs, id) == Evicted(At(x.t.reqs, id));
    }
  }

  /** Work never grows in a step, and shrinks if there is any left after retirement. */
  lemma StepShrinksWork(cfg: Cfg, s: St, x: Trace)
    requires Traces(cfg, s, x)
    ensures cfg.Valid() && Work(x.u) <= Work(s)
    ensures HasWork(x.r) && Unjammed(cfg, x.r) ==> Work(x.u) < Work(s)
  {
    hide Traces, Rem, Unjammed;
    TraceEnd(cfg, s, x);
    forall id ensures id in RemMap(x.u) <==> id in RemMap(s) {
      StepRem(cfg, s, x, id);
    }
    assert RemMap(x.u).Keys == RemMap(s).Keys;
    forall id | id in RemMap(s) ensures RemMap(x.u)[id] <= RemMap(s)[id] {
      StepRem(cfg, s, x, id);
    }
    SumOfMonotone(RemMap(s), RemMap(x.u));
    if HasWork(x.r) && Unjammed(cfg, x.r) {
      TraceAdvances(cfg, s, x);
      var k := if x.batch != [] then x.batch[0] else x.active[0];
      assert k in x.batch || k in x.active;
      StepRem(cfg, s, x, k);
      SumOfStrict(RemMap(s), RemMap(x.u), k);
    }
  }

  lemma TraceAdvances(cfg: Cfg, s: St, x: Trace)
    requires Traces(cfg, s, x) && HasWork(x.r)
    requires cfg.Valid() && Unjammed(cfg, x.r)
    ensures x.batch != [] || x.active != []
  {
    SomebodyAdvances(cfg, s, x);
  }

  /** With nothing left after retirement, the step ends with nothing left. */
  lemma NothingLeft(cfg: Cfg, s: St, x: Trace)
    requires Traces(cfg, s, x) && !HasWork(x.r)
    ensures !HasWork(x.u)
  {
    hide Core, Rem, RetiredFrom, AdmitRel, DecodeRel, Starved, ListsOk, Retire, Admit, Decode, Step;
    InvLists(cfg, x.r);
    InvLists(cfg, x.t);
    forall id ensures id !in x.u.waiting && id !in x.u.running {
      RemNonNegative(cfg, x.r, id);
      RemNonNegative(cfg, x.t, id);
      AdmitRem(cfg, x.r, x.t, x.batch, id);
      DecodeRem(cfg, x.t, x.e, x.u, x.active, id);
    }
    FirstIn(x.u.waiting);
    FirstIn(x.u.running);
  }

  ghost function StepMany(cfg: Cfg, s: St, n: nat): Outcome<St>
    requires cfg.Valid()
    decreases n
  {
    if n == 0 then Ok(s)
    else
      var s' :- Step(cfg, s);
      StepMany(cfg, s', n - 1)
  }

  /**
   Termination: with no further arrivals the loop `while has_work: step` ends within
   (sum of max_new - output length) + 1 steps, however many evictions happen on the way.
   */
  lemma {:induction false} Drains(cfg: Cfg, s: St) returns (n: nat)
    requires Inv(cfg, s) && cfg.Valid() && AllFit(cfg, s)
    ensures n <= Work(s) + 1
    ensures StepMany(cfg, s, n).Ok? && !HasWork(StepMany(cfg, s, n).value)
    ensures Inv(cfg, StepMany(cfg, s, n).value)
    decreases Work(s)
  {
    hide Inv, Step, Work, Traces, AllFit, Unjammed;
    WorkNonNegative(cfg, s);
    if !HasWork(s) {
      n := 0;
    } else {
      var x := StepTrace(cfg, s);
      TraceEnd(cfg, s, x);
      if HasWork(x.r) {
        RetireUnjammed(cfg, s, x);
        StepShrinksWork(cfg, s, x);
        WorkNonNegative(cfg, x.u);
        StepFits(cfg, s, x);
        var m := Drains(cfg, x.u);
        n := m + 1;
      } else {
        NothingLeft(cfg, s, x);
        n := 1;
        assert StepMany(cfg, s, 1) == StepMany(cfg, x.u, 0);
      }
    }
  }

  lemma TraceEnd(cfg: Cfg, s: St, x: Trace)
    requires Traces(cfg, s, x)
    ensures cfg.Valid() && Step(cfg, s) == Ok(x.u) && Inv(cfg, x.u)
  {
    InvValid(cfg, s);
  }

  lemma DoneCases(r: Req)
    requires r.Done()
    ensures Complete?(r) || r.reason == Some(Cancelled)
  {
    var why := r.reason.value;
    assert why == Length || why == Stop || why == Cancelled;
  }

  /** When the engine has drained, every request that was not cancelled has its whole reference output. */
  lemma DrainedIsComplete(cfg: Cfg, s: St, id: Id)
    requires Inv(cfg, s) && !HasWork(s) && id in s.reqs && !s.reqs[id].cancelled
    ensures s.reqs[id].prompt != [] && s.reqs[id].output == Reference(cfg.net, s.reqs[id])
    ensures |s.free| == cfg.units
  {
    hide ListsOk, WaitersOk, RunnersOk, CommitOk, AdmitOrder, PoolOk;
    var r := At(s.reqs, id);
    assert ReqOk(cfg, r) && GoneOk(r);
    assert r == s.reqs[id] && r.Done();
    DoneCases(r);
    assert Holders(s, []) == [];
    FreeCount(cfg, s.free, s.reqs, []);
  }

  // ------------------------------------------------------------------ evictions in one step

  lemma {:induction false} WantingSize(cfg: Cfg, reqs: map<Id, Req>, ids: seq<Id>)
    requires cfg.Valid()
    ensures Wanting(cfg, reqs, ids) <= |ids|
    ensures (exists id :: id in ids && !Wants(cfg, At(reqs, id))) ==> Wanting(cfg, reqs, ids) < |ids|
  {
    if ids != [] {
      WantingSize(cfg, reqs, ids[1..]);
      forall id | id in ids && !Wants(cfg, At(reqs, id)) ensures Wanting(cfg, reqs, ids) < |ids| {
        if id != ids[0] {
          assert id in ids[1..];
        }
      }
    }
  }

  /** An admitted request that leaves room to spare: finished at once, or not ending on a unit boundary. */
  ghost predicate LeavesRoom(cfg: Cfg, t: St, id: Id)
    requires cfg.Valid()
  {
    At(t.reqs, id).Done() || !Wants(cfg, At(t.reqs, id))
  }

  lemma RoomCounts(cfg: Cfg, t: St, batch: seq<Id>, before: seq<Id>)
    requires cfg.Valid() && t.running == before + batch
    ensures Wanting(cfg, t.reqs, Unfinished(t)) <= |before| + |batch|
    ensures (exists id :: id in batch && LeavesRoom(cfg, t, id)) ==> Wanting(cfg, t.reqs, Unfinished(t)) < |before| + |batch|
  {
    hide Wants, Wanting;
    var drop := DoneOf(t.reqs, t.running);
    WithoutSize(t.running, drop);
    WantingSize(cfg, t.reqs, Unfinished(t));
    forall id | id in batch && LeavesRoom(cfg, t, id)
      ensures Wanting(cfg, t.reqs, Unfinished(t)) < |before| + |batch|
    {
      assert id in t.running;
      UnfinishedMembers(t, id);
      if At(t.reqs, id).Done() {
        assert id in drop;
      } else {
        assert id in Unfinished(t) && !Wants(cfg, At(t.reqs, id));
      }
    }
  }

  /**
   With optimistic admission, a step that admits anybody evicts at most one request, and nobody if some
   admitted request finished at prefill or does not end on a unit boundary.
   */
  lemma EvictionsAfterAdmission(cfg: Cfg, s: St, x: Trace)
    requires Traces(cfg, s, x) && x.batch != []
    ensures cfg.Valid() && x.u.preemptions <= s.preemptions + 1
    ensures (exists id :: id in x.batch && LeavesRoom(cfg, x.t, id)) ==> x.u.preemptions == s.preemptions
  {
    hide Core, Starved, WeakestGone, Wanting, LeavesRoom, Unfinished, Gone, MayGrow, Sort, Retire, Admit, Decode, Step;
    InvValid(cfg, s);
    RoomCounts(cfg, x.t, x.batch, x.r.running);
  }

  /** The preemption counter counts the rows the eviction loop took out of the batch. */
  lemma EvictionsCounted(cfg: Cfg, s: St, x: Trace)
    requires Traces(cfg, s, x)
    ensures |x.active| <= |Unfinished(x.t)| && x.u.preemptions == s.preemptions + |Unfinished(x.t)| - |x.active|
  {
    hide Core, Starved, WeakestGone, Wanting, Unfinished, Gone, MayGrow, Sort, Retire, Admit, Decode, Step;
  }

  /** A finished request still in the running list after admission was admitted in this very step. */
  lemma FinishedIsNew(cfg: Cfg, s: St, x: Trace, id: Id)
    requires Traces(cfg, s, x) && id in x.t.running && id !in Unfinished(x.t)
    ensures id in x.batch && At(x.t.reqs, id).Done()
  {
    hide Core, Starved, DecodeRel, RetiredFrom, Unfinished, Sort, ListsOk, Retire, Admit, Decode, Step;
    UnfinishedMembers(x.t, id);
    InvLists(cfg, x.r);
    AdmitMembers(cfg, x.r, x.t, x.batch, id);
    if id in x.r.running {
      RetireRunning(s, x.r, id);
      assert At(x.t.reqs, id) != At(x.r.reqs, id);
    }
  }

  lemma SurvivorUnlessFinished(cfg: Cfg, s: St, x: Trace)
    requires Traces(cfg, s, x) && cfg.Valid() && RunnersFit(cfg, x.t) && Unfinished(x.t) != []
    requires forall id :: id in x.t.running ==> id in Unfinished(x.t)
    ensures x.active != []
  {
    hide Core, AdmitRel, Starved, Evolved, WeakestGone, Wanting, DecodedFrom, RunnersFit, Unfinished, Retire, Admit, Decode, Step;
  }

  /**
   A step that has rows to decode decodes at least one of them: the eviction loop never empties the
   batch, also when requests that finished at prefill still hold their blocks.
   */
  lemma NeverEmptied(cfg: Cfg, s: St, x: Trace)
    requires Traces(cfg, s, x) && cfg.Valid() && AllFit(cfg, s) && Unfinished(x.t) != []
    ensures x.active != []
  {
    hide Traces, RunnersFit, AllFit, Unfinished, LeavesRoom;
    RunnersFitAtDecode(cfg, s, x);
    if id :| id in x.t.running && id !in Unfinished(x.t) {
      FinishedIsNew(cfg, s, x, id);
      DoneLeavesRoom(cfg, x.t, id);
      EvictionsAfterAdmission(cfg, s, x);
      EvictionsCounted(cfg, s, x);
    } else {
      SurvivorUnlessFinished(cfg, s, x);
    }
  }

  lemma DoneLeavesRoom(cfg: Cfg, t: St, id: Id)
    requires cfg.Valid() && At(t.reqs, id).Done()
    ensures LeavesRoom(cfg, t, id)
  {
  }

  lemma RunnersFitAtDecode(cfg: Cfg, s: St, x: Trace)
    requires Traces(cfg, s, x) && cfg.Valid() && AllFit(cfg, s)
    ensures RunnersFit(cfg, x.t)
  {
    hide Core, RetiredFrom, AdmitRel, DecodeRel, Starved, FilledUp, ListsOk, FitsAlone, Retire, Admit, Decode, Step;
    InvLists(cfg, x.r);
    RetiredFits(cfg, s, x.r);
    AdmittedFits(cfg, x.r, x.t, x.batch);
  }

  /** Ending on a unit boundary is what makes an admitted request want a unit in the same step. */
  lemma WantsIffBoundary(cfg: Cfg, pool: Pool, r: Req)
    requires cfg.Valid() && !cfg.backend.Slots? && RunningOk(cfg, pool, r, false)
    ensures Wants(cfg, r) <==> OffsetOf(cfg.cap, r.SeqLen() - 1) == 0
  {
    UnitsForStep(cfg.cap, r.SeqLen() - 1);
  }
}
