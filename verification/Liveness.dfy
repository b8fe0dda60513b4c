/**
 Everybody finishes: a request that its client waits for is complete within a number of iterations fixed
 by the state it is in, whatever arrives later and however often it is evicted.

 The bound rests on an invariant of its own: the requests that run and those that were evicted and wait
 to come back are together never more than the rows of a batch.  So a wait after an eviction is bounded
 independently of the load.
 */
module Liveness {
  import opened Prelude
  import opened Transformer
  import opened Storage
  import Forward
  import opened Scheduling
  import opened Lists
  import opened Invariant
  import opened PreserveQueues
  import opened PreserveEviction
  import opened EvictionLoop
  import opened Steps
  import opened Runs
  import opened Progress
  import opened Fairness
  import Accounting

  // ------------------------------------------------------------------ who is under way

  /** Runs, or was evicted and waits to run again. */
  ghost predicate Begun(s: St, id: Id) {
    id in s.running || (id in s.waiting && At(s.reqs, id).preempts > 0)
  }

  ghost function UnderWay(s: St): set<Id> {
    set id | id in s.running + s.waiting && Begun(s, id)
  }

  lemma UnderWayMembers(s: St, id: Id)
    ensures id in UnderWay(s) <==> Begun(s, id)
  {
  }

  /** No more requests are under way than a batch has rows. */
  ghost predicate RowsSuffice(cfg: Cfg, s: St) {
    |UnderWay(s)| <= cfg.maxBatch
  }

  lemma {:induction false} SubsetSize(a: set<Id>, b: set<Id>)
    requires a <= b
    ensures |a| <= |b|
  {
    if a != {} {
      var x :| x in a;
      SubsetSize(a - {x}, b - {x});
    }
  }

  function Members(ids: seq<Id>): set<Id> {
    set id | id in ids
  }

  lemma MembersSnoc(ids: seq<Id>)
    requires ids != []
    ensures Members(ids) == Members(Init(ids)) + {Last(ids)} && (NoDup(ids) ==> Last(ids) !in Members(Init(ids)) && NoDup(Init(ids)))
  {
    InitMembers(ids);
    forall id | id in ids ensures id in Init(ids) || id == Last(ids) {
    }
  }

  lemma {:induction false} MembersSize(ids: seq<Id>)
    ensures |Members(ids)| <= |ids|
    ensures NoDup(ids) ==> |Members(ids)| == |ids|
  {
    hide NoDup, Members;
    if ids == [] {
      assert Members(ids) == {} by {
        MembersNone();
      }
    } else {
      MembersSnoc(ids);
      MembersSize(Init(ids));
    }
  }

  lemma MembersNone()
    ensures Members([]) == {}
  {
  }

  lemma FewerUnderWay(cfg: Cfg, s: St, t: St)
    requires RowsSuffice(cfg, s) && forall id :: Begun(t, id) ==> Begun(s, id)
    ensures RowsSuffice(cfg, t)
  {
    hide Begun;
    assert UnderWay(t) <= UnderWay(s) by {
      forall id | id in UnderWay(t) ensures id in UnderWay(s) {
        UnderWayMembers(t, id);
        UnderWayMembers(s, id);
      }
    }
    SubsetSize(UnderWay(t), UnderWay(s));
  }

  lemma RetireKeepsRows(cfg: Cfg, s: St, r: St)
    requires RetiredFrom(s, r) && ListsOk(s, []) && RowsSuffice(cfg, s)
    ensures RowsSuffice(cfg, r)
  {
    hide RetiredFrom, ListsOk, RowsSuffice;
    forall id | Begun(r, id) ensures Begun(s, id) {
      StayedSame(s, r, id);
      RetiredMembers(s, r);
    }
    FewerUnderWay(cfg, s, r);
  }

  lemma RunningFits(cfg: Cfg, s: St)
    requires ListsOk(s, []) && RowsSuffice(cfg, s)
    ensures |s.running| <= cfg.maxBatch
  {
    hide ListsOk;
    ListFacts(s, []);
    MembersSize(s.running);
    SubsetSize(Members(s.running), UnderWay(s));
  }

  /** An evicted request still waiting after admission means that only evicted ones were admitted. */
  lemma EvictedFirst(cfg: Cfg, r: St, t: St, batch: seq<Id>, p: Id, v: Id)
    requires AdmitRel(cfg, r, t, batch) && ListsOk(r, []) && p in t.waiting && At(t.reqs, p).preempts > 0 && v in batch
    ensures v in r.waiting && At(r.reqs, v).preempts > 0
  {
    hide ListsOk, Sort;
    AdmitMembers(cfg, r, t, batch, p);
    AdmittedAhead(cfg, r, t, batch, v, p);
  }

  lemma AdmitKeepsRows(cfg: Cfg, r: St, t: St, batch: seq<Id>)
    requires AdmitRel(cfg, r, t, batch) && ListsOk(r, []) && ListsOk(t, []) && |batch| <= Limit(cfg, r) && RowsSuffice(cfg, r)
    ensures RowsSuffice(cfg, t)
  {
    hide ListsOk, Sort;
    if p :| p in t.waiting && At(t.reqs, p).preempts > 0 {
      forall id | Begun(t, id) ensures Begun(r, id) {
        AdmitMembers(cfg, r, t, batch, id);
        if id in batch {
          EvictedFirst(cfg, r, t, batch, p, id);
        }
      }
      FewerUnderWay(cfg, r, t);
    } else {
      RunningFits(cfg, r);
      MembersSize(t.running);
      assert UnderWay(t) == Members(t.running);
    }
  }

  lemma DecodeKeepsRows(cfg: Cfg, t: St, e: St, u: St, active: seq<Id>)
    requires DecodeRel(cfg, t, e, u, active) && Inv(cfg, t) && RowsSuffice(cfg, t)
    ensures RowsSuffice(cfg, u)
  {
    hide Core, DecodeRel, RowsSuffice, ListsOk, Rem, Live;
    InvLists(cfg, t);
    forall id | Begun(u, id) ensures Begun(t, id) {
      RemNonNegative(cfg, t, id);
      DecodeRem(cfg, t, e, u, active, id);
    }
    FewerUnderWay(cfg, t, u);
  }

  lemma StepKeepsRows(cfg: Cfg, s: St, x: Trace)
    requires Traces(cfg, s, x) && RowsSuffice(cfg, s)
    ensures RowsSuffice(cfg, x.u)
  {
    hide Core, RetiredFrom, AdmitRel, DecodeRel, Starved, FilledUp, RowsSuffice, ListsOk, Limit, Retire, Admit, Decode, Step;
    InvLists(cfg, s);
    InvLists(cfg, x.r);
    InvLists(cfg, x.t);
    RetireKeepsRows(cfg, s, x.r);
    AdmitKeepsRows(cfg, x.r, x.t, x.batch);
    DecodeKeepsRows(cfg, x.t, x.e, x.u, x.active);
  }

  lemma ApplyKeepsRows(cfg: Cfg, s: St, e: Event)
    requires Inv(cfg, s) && cfg.Valid() && RowsSuffice(cfg, s) && Apply(cfg, s, e).Ok?
    ensures RowsSuffice(cfg, Apply(cfg, s, e).value)
  {
    hide Inv, Traces, RowsSuffice, Step, Acceptable;
    var t := Apply(cfg, s, e).value;
    match e
    case Iterate =>
      var x := StepTrace(cfg, s);
      TraceEnd(cfg, s, x);
      StepKeepsRows(cfg, s, x);
    case Arrive(id, r) =>
      if id !in s.reqs && Acceptable(cfg, r) {
        FreshArrival(cfg, r);
        assert forall j :: Begun(t, j) ==> Begun(s, j);
      }
      FewerUnderWay(cfg, s, t);
    case Disconnect(id) =>
      assert forall j :: Begun(t, j) ==> Begun(s, j);
      FewerUnderWay(cfg, s, t);
  }

  lemma {:induction false} RunKeepsRows(cfg: Cfg, s: St, events: seq<Event>)
    requires Inv(cfg, s) && RowsSuffice(cfg, s)
    ensures cfg.Valid() && Run(cfg, s, events).Ok? && RowsSuffice(cfg, Run(cfg, s, events).value)
    decreases |events|
  {
    hide Inv, Apply, RowsSuffice;
    InvValid(cfg, s);
    RunKeepsInv(cfg, s, events);
    if events != [] {
      ApplyKeepsInv(cfg, s, events[0]);
      ApplyKeepsRows(cfg, s, events[0]);
      RunKeepsRows(cfg, Apply(cfg, s, events[0]).value, events[1..]);
    }
  }

  /**
   In every reachable state the running requests and the evicted ones waiting to come back are together at
   most max_batch: a newcomer is admitted only when no evicted request waits.
   */
  lemma UnderWayIsBounded(cfg: Cfg, s: St)
    requires Reachable(cfg, s)
    ensures RowsSuffice(cfg, s)
  {
    hide Inv, Run;
    var pool: Pool, events: seq<Event> :| Boot(cfg, pool) && Run(cfg, Initial(cfg, pool), events) == Ok(s);
    InitialInv(cfg, pool);
    assert UnderWay(Initial(cfg, pool)) == {};
    RunKeepsRows(cfg, Initial(cfg, pool), events);
  }

  lemma AdmittedRows(cfg: Cfg, s: St, x: Trace)
    requires Traces(cfg, s, x) && RowsSuffice(cfg, s)
    ensures |x.t.running| <= cfg.maxBatch && |x.t.running| == |x.r.running| + |x.batch|
  {
    hide Core, RetiredFrom, DecodeRel, Starved, FilledUp, RowsSuffice, ListsOk, Limit, Retire, Admit, Decode, Step;
    InvLists(cfg, s);
    InvLists(cfg, x.r);
    InvLists(cfg, x.t);
    RetireKeepsRows(cfg, s, x.r);
    AdmitKeepsRows(cfg, x.r, x.t, x.batch);
    RunningFits(cfg, x.t);
  }

  lemma StaticWaits(cfg: Cfg, r: St)
    requires cfg.Valid() && cfg.isStatic && r.running != []
    ensures Admit(cfg, r) == Ok(r)
  {
  }

  lemma RowsUsedUp(cfg: Cfg, r: St, t: St, batch: seq<Id>)
    requires FilledUp(cfg, r, t, batch) && |t.running| == |r.running| + |batch| && (cfg.isStatic ==> r.running == [])
    requires t.waiting != [] && |t.running| < cfg.maxBatch
    ensures HeadShort(cfg, t)
  {
    hide HeadShort;
  }

  /**
   Admission never overfills the batch and never leaves a row empty that somebody waiting could use: after
   it the queue is empty, every row is taken, or the first in line finds no room.  Static batching waits
   until the batch has drained and then fills it in the same way.
   */
  lemma AdmissionIsMaximal(cfg: Cfg, s: St)
    requires Reachable(cfg, s)
    ensures cfg.Valid() && Admit(cfg, Retire(s)).Ok? && Step(cfg, s) == Decode(cfg, Admit(cfg, Retire(s)).value)
    ensures |Admit(cfg, Retire(s)).value.running| <= cfg.maxBatch
    ensures var r, t := Retire(s), Admit(cfg, Retire(s)).value;
      if cfg.isStatic && r.running != [] then t == r
      else t.waiting == [] || |t.running| == cfg.maxBatch || HeadShort(cfg, t)
  {
    hide Reachable, Inv, Traces, Admit, Retire, Decode, RowsSuffice, FilledUp, HeadShort;
    ReachableInv(cfg, s);
    InvValid(cfg, s);
    UnderWayIsBounded(cfg, s);
    var x := StepTrace(cfg, s);
    AdmittedRows(cfg, s, x);
    TraceAdmits(cfg, s, x);
    if cfg.isStatic && x.r.running != [] {
      StaticWaits(cfg, x.r);
    } else if x.t.waiting != [] && |x.t.running| < cfg.maxBatch {
      RowsUsedUp(cfg, x.r, x.t, x.batch);
    }
  }

  lemma TraceAdmits(cfg: Cfg, s: St, x: Trace)
    requires Traces(cfg, s, x)
    ensures cfg.Valid() && x.r == Retire(s) && Admit(cfg, x.r) == Ok(x.t) && FilledUp(cfg, x.r, x.t, x.batch)
  {
    hide Core, Retire, Admit, Decode, Step, FilledUp, AdmitRel, DecodeRel, RetiredFrom, Starved;
    InvValid(cfg, s);
  }

  // ------------------------------------------------------------------ the wait after an eviction

  lemma {:induction false} SumOfAtMost(m: map<Id, int>, some: set<Id>)
    requires forall id :: id in m ==> m[id] <= if id in some then MAX_CONTEXT else 0
    ensures SumOf(m) <= |some| * MAX_CONTEXT
    decreases |m|
  {
    if m == map[] {
    } else {
      var k :| k in m;
      SumOfRemove(m, k);
      SumOfAtMost(m - {k}, some - {k});
      if k !in some {
        assert some - {k} == some;
      }
    }
  }

  lemma RemAtMost(cfg: Cfg, s: St, id: Id)
    requires Inv(cfg, s)
    ensures Rem(s, id) <= MAX_CONTEXT
  {
    hide MemOk, CommitOk, AdmitOrder, OthersOk, Forward.PoolOk, RunnersOk, WaitersOk;
    ListFacts(s, []);
    if Live(s, id) {
      assert ReqOk(cfg, At(s.reqs, id));
    }
  }

  lemma AheadHasPreempts(s: St, v: Id, w: Id)
    requires Ahead(s.reqs, s.waiting, v, w)
    ensures v in s.waiting && At(s.reqs, v).preempts >= At(s.reqs, w).preempts
  {
  }

  /** Whoever comes before an evicted request is under way itself. */
  lemma WaitAfterEviction(cfg: Cfg, s: St, w: Id)
    requires Inv(cfg, s) && RowsSuffice(cfg, s) && At(s.reqs, w).preempts > 0
    ensures Wait(s, w) <= cfg.maxBatch * MAX_CONTEXT
  {
    hide Inv, Rem, Ahead, UnderWay;
    var m := BeforeMap(s, w);
    forall id | id in m ensures m[id] <= if id in UnderWay(s) then MAX_CONTEXT else 0 {
      UnderWayMembers(s, id);
      RemAtMost(cfg, s, id);
      if Ahead(s.reqs, s.waiting, id, w) {
        AheadHasPreempts(s, id, w);
      }
    }
    SumOfAtMost(m, UnderWay(s));
  }

  // ------------------------------------------------------------------ iterations still to go

  /** Iterations that one token can cost: the wait after an eviction, and the iteration that produces it. */
  function PerToken(cfg: Cfg): nat {
    cfg.maxBatch * MAX_CONTEXT + 2
  }

  function Times(n: int, k: int): int {
    n * k
  }

  lemma TimesLess(m: int, n: int, k: nat)
    requires 0 <= m < n
    ensures 0 <= Times(m, k) && Times(m, k) + k <= Times(n, k)
  {
    assert n * k == m * k + (n - m) * k;
    assert (n - m) * k == (n - m - 1) * k + k;
  }

  /** After that many iterations w is complete, unless its client leaves. */
  ghost function ToGo(cfg: Cfg, s: St, w: Id): int {
    if w in s.waiting then Times(Rem(s, w), PerToken(cfg)) + Wait(s, w) + 1
    else if w in s.running && !At(s.reqs, w).Done() then Times(Rem(s, w), PerToken(cfg)) + PerToken(cfg)
    else 0
  }

  lemma ToGoPositive(cfg: Cfg, s: St, w: Id)
    requires Inv(cfg, s)
    ensures ToGo(cfg, s, w) >= 0 && (Live(s, w) ==> ToGo(cfg, s, w) > 0)
  {
    hide Inv, Rem, Wait, Times;
    RemNonNegative(cfg, s, w);
    WaitNonNegative(cfg, s, w);
    if Rem(s, w) > 0 {
      TimesLess(0, Rem(s, w), PerToken(cfg));
    } else {
      assert Times(0, PerToken(cfg)) == 0 by { TimesLess(0, 1, PerToken(cfg)); TimesZero(PerToken(cfg)); }
    }
  }

  lemma TimesZero(k: int)
    ensures Times(0, k) == 0
  {
  }

  /** A request that waits after the step without having waited through it has been evicted. */
  lemma BackInLine(cfg: Cfg, s: St, x: Trace, w: Id)
    requires Traces(cfg, s, x) && (w in x.batch || w in s.running) && w in x.u.waiting
    ensures At(x.u.reqs, w).preempts > 0
  {
    hide Core, Starved, RetiredFrom, Wanting, WeakestGone, Sort, ListsOk, Unfinished, Retire, Admit, Decode, Step;
    InvLists(cfg, s);
    InvLists(cfg, x.r);
    ListFacts(s, []);
    RetiredMembers(s, x.r);
    AdmitMembers(cfg, x.r, x.t, x.batch, w);
    assert w in Gone(Unfinished(x.t), x.active);
    assert At(x.e.reqs, w) == Evicted(At(x.t.reqs, w));
  }

  /** An unfinished running request of a client that stays is decoded or evicted. */
  lemma RunnerMoves(cfg: Cfg, s: St, x: Trace, w: Id)
    requires Traces(cfg, s, x) && w in s.running && !At(s.reqs, w).Done() && !At(s.reqs, w).cancelled
    ensures w in x.active || w in x.u.waiting
  {
    hide Core, Starved, Wanting, WeakestGone, Sort, ListsOk, Unfinished, Retire, Admit, Decode, Step;
    RetiredMembers(s, x.r);
    InvLists(cfg, s);
    InvLists(cfg, x.r);
    ListFacts(s, []);
    AdmitMembers(cfg, x.r, x.t, x.batch, w);
    RunnerNotInBatch(s, x.r, x.batch, w);
    UnfinishedMembers(x.t, w);
    if w !in x.active {
      assert w in Gone(Unfinished(x.t), x.active);
    }
  }

  lemma RunnerNotInBatch(s: St, r: St, batch: seq<Id>, w: Id)
    requires ListsOk(s, []) && RetiredFrom(s, r) && w in s.running && (w in batch ==> w in r.waiting)
    ensures w !in batch
  {
    ListFacts(s, []);
    RetiredMembers(s, r);
  }

  lemma ToGoAfterMove(cfg: Cfg, s: St, u: St, w: Id)
    requires Inv(cfg, s) && Inv(cfg, u) && RowsSuffice(cfg, u)
    requires w in s.waiting || (w in s.running && !At(s.reqs, w).Done())
    requires w in u.waiting ==> At(u.reqs, w).preempts > 0
    requires Rem(u, w) < Rem(s, w) || (Rem(u, w) == Rem(s, w) && w !in s.waiting && w in u.waiting)
    ensures ToGo(cfg, u, w) < ToGo(cfg, s, w)
  {
    hide Core, Rem, Wait, Times, RowsSuffice, ListsOk;
    InvLists(cfg, s);
    ListFacts(s, []);
    RemNonNegative(cfg, s, w);
    RemNonNegative(cfg, u, w);
    WaitNonNegative(cfg, s, w);
    if w in u.waiting {
      WaitAfterEviction(cfg, u, w);
    }
    if Rem(u, w) < Rem(s, w) {
      TimesLess(Rem(u, w), Rem(s, w), PerToken(cfg));
    }
  }

  lemma StillWaiting(cfg: Cfg, s: St, x: Trace, w: Id)
    requires Traces(cfg, s, x) && cfg.Valid() && AllFit(cfg, s)
    requires w in s.waiting && !At(s.reqs, w).cancelled && w !in x.batch
    ensures ToGo(cfg, x.u, w) < ToGo(cfg, s, w)
  {
    hide Traces, Rem, Wait, Times, WayClear, AllFit;
    AllFitClears(cfg, s, w);
    StepShrinksWait(cfg, s, x, w);
    SameRem(s, x.u, w);
  }

  lemma Moved(cfg: Cfg, s: St, x: Trace, w: Id)
    requires Traces(cfg, s, x) && RowsSuffice(cfg, s) && Live(s, w) && !At(s.reqs, w).cancelled
    requires w in s.waiting ==> w in x.batch
    ensures ToGo(cfg, x.u, w) < ToGo(cfg, s, w)
  {
    hide Traces, Rem, ToGo, RowsSuffice, Inv;
    TraceEnd(cfg, s, x);
    TraceStart(cfg, s, x);
    StepKeepsRows(cfg, s, x);
    StepRem(cfg, s, x, w);
    if w in x.u.waiting {
      BackInLine(cfg, s, x, w);
    }
    if w in s.running {
      NotBoth(cfg, s, w);
      RunnerMoves(cfg, s, x, w);
    }
    ToGoAfterMove(cfg, s, x.u, w);
  }

  lemma TraceStart(cfg: Cfg, s: St, x: Trace)
    requires Traces(cfg, s, x)
    ensures Inv(cfg, s)
  {
  }

  /** Every iteration brings w closer to its last token. */
  lemma StepShrinksToGo(cfg: Cfg, s: St, x: Trace, w: Id)
    requires Traces(cfg, s, x) && RowsSuffice(cfg, s) && cfg.Valid() && AllFit(cfg, s)
    requires Live(s, w) && !At(s.reqs, w).cancelled
    ensures ToGo(cfg, x.u, w) < ToGo(cfg, s, w)
  {
    hide Traces, ToGo, RowsSuffice, AllFit, Live;
    if w in s.waiting && w !in x.batch {
      StillWaiting(cfg, s, x, w);
    } else {
      Moved(cfg, s, x, w);
    }
  }

  lemma SameRem(s: St, u: St, w: Id)
    requires w in s.waiting && w in u.waiting && At(u.reqs, w) == At(s.reqs, w)
    ensures Rem(u, w) == Rem(s, w)
  {
  }

  lemma NotBoth(cfg: Cfg, s: St, w: Id)
    requires Inv(cfg, s) && w in s.running
    ensures w !in s.waiting
  {
    InvLists(cfg, s);
    ListFacts(s, []);
  }

  // ------------------------------------------------------------------ completion

  /** Newcomers could complete with the pool to themselves: what fits_ever is for. */
  ghost predicate ArrivalsFit(cfg: Cfg, events: seq<Event>)
    requires cfg.Valid()
  {
    forall e :: e in events && e.Arrive? ==> FitsAlone(cfg, TakenIn(e.r))
  }

  lemma NotLiveIsComplete(cfg: Cfg, s: St, w: Id)
    requires Inv(cfg, s) && w in s.reqs && !s.reqs[w].cancelled && !Live(s, w)
    ensures Complete?(s.reqs[w])
  {
    hide MemOk, CommitOk, AdmitOrder, Forward.PoolOk, RunnersOk, WaitersOk, ListsOk;
    var r := At(s.reqs, w);
    assert ReqOk(cfg, r);
    if w !in s.running {
      assert GoneOk(r);
    }
    DoneCases(r);
  }

  /** An event other than an iteration does not set w back. */
  lemma ToGoKept(cfg: Cfg, s: St, w: Id, e: Event)
    requires Inv(cfg, s) && cfg.Valid() && w in s.reqs && !e.Iterate? && e != Disconnect(w)
    requires e.Arrive? ==> e.r.arrival >= At(s.reqs, w).arrival
    ensures var t := Apply(cfg, s, e).value;
      && ToGo(cfg, t, w) == ToGo(cfg, s, w) && w in t.reqs
      && At(t.reqs, w).cancelled == At(s.reqs, w).cancelled && At(t.reqs, w).arrival == At(s.reqs, w).arrival
  {
    hide Core, Wait, Times, Acceptable, ListsOk;
    match e
    case Arrive(id, r) =>
      if id !in s.reqs && Acceptable(cfg, r) && w in s.waiting {
        SubmitWait(cfg, s, w, id, r);
      }
    case Disconnect(id) =>
      if w in s.waiting {
        CancelWait(s, w, id);
      }
  }

  lemma EventFits(cfg: Cfg, s: St, e: Event)
    requires Inv(cfg, s) && cfg.Valid() && AllFit(cfg, s) && !e.Iterate?
    requires e.Arrive? ==> FitsAlone(cfg, TakenIn(e.r))
    ensures AllFit(cfg, Apply(cfg, s, e).value)
  {
    hide Core, FitsAlone, Acceptable, AllFit;
    match e
    case Arrive(id, r) =>
      if id !in s.reqs && Acceptable(cfg, r) {
        SubmitOk(cfg, s, id, r);
      }
    case Disconnect(id) => CancelFits(cfg, s, id);
  }

  lemma CancelFits(cfg: Cfg, s: St, v: Id)
    requires cfg.Valid() && AllFit(cfg, s)
    ensures AllFit(cfg, Cancel(s, v))
  {
    hide FitsAlone;
    var t := Cancel(s, v);
    forall id | id in t.waiting || id in t.running ensures FitsAlone(cfg, At(t.reqs, id)) {
      assert FitsAlone(cfg, At(s.reqs, id));
      FitsSame(cfg, At(s.reqs, id), At(t.reqs, id));
    }
  }

  lemma StepStaysPatient(cfg: Cfg, s: St, x: Trace, w: Id)
    requires Traces(cfg, s, x) && w in s.reqs && !At(s.reqs, w).cancelled
    ensures w in x.u.reqs && !At(x.u.reqs, w).cancelled && At(x.u.reqs, w).arrival == At(s.reqs, w).arrival
  {
    hide Traces;
    StepLater(cfg, s, x, w);
    StepCancelled(cfg, s, x, w);
  }

  lemma {:induction false} CompletesFrom(cfg: Cfg, s: St, w: Id, events: seq<Event>)
    requires Inv(cfg, s) && RowsSuffice(cfg, s) && cfg.Valid() && AllFit(cfg, s) && w in s.reqs && !At(s.reqs, w).cancelled
    requires Patient(events, w, At(s.reqs, w).arrival) && ArrivalsFit(cfg, events)
    requires Iterations(events) >= ToGo(cfg, s, w)
    ensures Run(cfg, s, events).Ok? && w in Run(cfg, s, events).value.reqs
    ensures Complete?(Run(cfg, s, events).value.reqs[w])
    decreases |events|
  {
    hide Inv, Traces, ToGo, Step, Acceptable, RowsSuffice, AllFit, Live, Submit, Cancel, FitsAlone, TakenIn, Complete?;
    ToGoPositive(cfg, s, w);
    RunKeepsInv(cfg, s, events);
    AtIs(s, w);
    if !Live(s, w) {
      NotLiveIsComplete(cfg, s, w);
      Accounting.SilentOnceFinished(cfg, s, events, w);
    } else {
      var e, rest := events[0], events[1..];
      assert e in events && forall e' :: e' in rest ==> e' in events;
      ApplyKeepsInv(cfg, s, e);
      ApplyKeepsRows(cfg, s, e);
      var s' := Apply(cfg, s, e).value;
      if e.Iterate? {
        var x := StepTrace(cfg, s);
        TraceEnd(cfg, s, x);
        StepShrinksToGo(cfg, s, x, w);
        StepFits(cfg, s, x);
        StepStaysPatient(cfg, s, x, w);
      } else {
        ToGoKept(cfg, s, w, e);
        EventFits(cfg, s, e);
      }
      CompletesFrom(cfg, s', w, rest);
    }
  }

  lemma AtIs(s: St, w: Id)
    requires w in s.reqs
    ensures At(s.reqs, w) == s.reqs[w]
  {
  }

  /**
   Everybody finishes.  In any reachable state, take a request whose client stays.  Once the loop has
   iterated ToGo times, whatever arrives behind it, whoever leaves and however often it is evicted, it is
   complete and its output is the whole reference.
   */
  lemma EverybodyFinishes(cfg: Cfg, s: St, w: Id, events: seq<Event>)
    requires Reachable(cfg, s) && cfg.Valid() && AllFit(cfg, s) && w in s.reqs && !s.reqs[w].cancelled
    requires Patient(events, w, s.reqs[w].arrival) && ArrivalsFit(cfg, events)
    requires Iterations(events) >= ToGo(cfg, s, w)
    ensures Run(cfg, s, events).Ok? && w in Run(cfg, s, events).value.reqs && s.reqs[w].prompt != []
    ensures var r := Run(cfg, s, events).value.reqs[w];
      Complete?(r) && r.prompt == s.reqs[w].prompt && r.output == Reference(cfg.net, s.reqs[w])
  {
    hide Reachable, Inv, Run, ToGo, RowsSuffice, AllFit, Patient, ArrivalsFit, Complete?, FitsAlone;
    ReachableInv(cfg, s);
    UnderWayIsBounded(cfg, s);
    AtIs(s, w);
    CompletesFrom(cfg, s, w, events);
    RunKeepsInv(cfg, s, events);
    RunLater(cfg, s, events, w);
    RequestOutput(cfg, Run(cfg, s, events).value, w);
  }

  /**
   In numbers: a waiting request needs at most Wait + 1 iterations to start and max_batch * 1024 + 2 for
   each token it still has to produce; a running one needs only the latter, counting one token more.
   */
  lemma ToGoInNumbers(cfg: Cfg, s: St, w: Id)
    requires Inv(cfg, s) && Live(s, w)
    ensures w in s.waiting ==>
      ToGo(cfg, s, w) == Wait(s, w) + 1 + (Budget(At(s.reqs, w)) - |At(s.reqs, w).output|) * (cfg.maxBatch * MAX_CONTEXT + 2)
    ensures w in s.running ==>
      ToGo(cfg, s, w) == (Budget(At(s.reqs, w)) - |At(s.reqs, w).output| + 1) * (cfg.maxBatch * MAX_CONTEXT + 2)
  {
    hide Core, Wait;
    if w in s.running {
      NotBoth(cfg, s, w);
    }
  }
}
