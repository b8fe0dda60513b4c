/**
 When the head of the queue is never served.

 Admission is first come first served and stops at the first request that does not fit, so a request
 that does not even fit an empty engine blocks everybody behind it.  fits_ever is there to refuse such
 requests; with a negative budget it lets one through.
 */
module Jam {
  import opened Prelude
  import opened Transformer
  import opened Storage
  import Forward
  import opened Scheduling
  import opened Lists
  import opened Invariant
  import opened PreserveQueues
  import opened PreserveEviction
  import opened EvictionLoop
  import opened Steps
  import opened Runs
  import opened Progress
  import opened Fairness
  import opened Overcommit
  import Headroom

  /** Nothing runs, and h is the first in line. */
  ghost predicate HeadsIdle(cfg: Cfg, s: St, h: Id) {
    && Inv(cfg, s) && s.running == [] && h in s.waiting && !At(s.reqs, h).cancelled
    && forall v :: !Ahead(s.reqs, s.waiting, v, h)
  }

  /** The first in line does not fit an empty engine. */
  ghost predicate Jammed(cfg: Cfg, s: St, h: Id) {
    HeadsIdle(cfg, s, h) && cfg.Valid() && !AdmissibleAlone(cfg, At(s.reqs, h))
  }

  lemma HeadIsFirst(cfg: Cfg, s: St, h: Id)
    requires HeadsIdle(cfg, s, h)
    ensures Sort(s.reqs, ByWait, s.waiting) != [] && Sort(s.reqs, ByWait, s.waiting)[0] == h
  {
    hide Core, Sort, Ahead;
    InvLists(cfg, s);
    ListFacts(s, []);
    HeadAhead(s.reqs, s.waiting, h);
  }

  /** Retiring leaves it first in line. */
  lemma RetireKeepsHead(cfg: Cfg, s: St, h: Id)
    requires HeadsIdle(cfg, s, h)
    ensures HeadsIdle(cfg, Retire(s), h) && Retire(s) == s.(waiting := Retire(s).waiting)
  {
    hide Core, Ahead, RetiredFrom, ListsOk, Retire;
    var r := Retire(s);
    RetireIdle(s);
    RetireKeepsInv(cfg, s);
    InvLists(cfg, s);
    InvLists(cfg, r);
    WithoutMember(s.waiting, CancelledOf(s.reqs, s.waiting), h);
    forall v ensures !Ahead(r.reqs, r.waiting, v, h) {
      if Ahead(r.reqs, r.waiting, v, h) {
        RetireAhead(s, r, v, h);
      }
    }
  }

  /** Sorting does too. */
  lemma SortKeepsHead(cfg: Cfg, s: St, h: Id)
    requires HeadsIdle(cfg, s, h)
    ensures HeadsIdle(cfg, s.(waiting := Sort(s.reqs, ByWait, s.waiting)), h)
  {
    hide Core, Ahead, Sort;
    var sorted := Sort(s.reqs, ByWait, s.waiting);
    SortKeepsCore(cfg, s);
    InvLists(cfg, s);
    ListFacts(s, []);
    SortMembers(s.reqs, s.waiting);
    assert [] + sorted == sorted;
    forall v ensures !Ahead(s.reqs, sorted, v, h) {
      if Ahead(s.reqs, sorted, v, h) {
        RestAhead(s.reqs, s.waiting, [], sorted, v, h);
      }
    }
  }

  /** The head can be given memory exactly when it fits the empty engine. */
  lemma HeadFitsIff(cfg: Cfg, s: St, h: Id)
    requires HeadsIdle(cfg, s, h)
    ensures var q := s.(waiting := Sort(s.reqs, ByWait, s.waiting));
      cfg.Valid() && q.waiting != [] && q.waiting[0] == h
      && (CanAllocate(cfg, q, h, 0) <==> AdmissibleAlone(cfg, At(s.reqs, h)))
  {
    hide Core, Sort, CanAllocate, AdmissibleAlone, Ahead;
    HeadIsFirst(cfg, s, h);
    SortKeepsCore(cfg, s);
    IdleAdmitsIff(cfg, s.(waiting := Sort(s.reqs, ByWait, s.waiting)));
  }

  lemma JammedAdmitsNobody(cfg: Cfg, s: St, h: Id)
    requires Jammed(cfg, s, h)
    ensures Admit(cfg, s) == Ok(s.(waiting := Sort(s.reqs, ByWait, s.waiting)))
  {
    hide HeadsIdle, Sort, CanAllocate, AdmissibleAlone, PopLoop, Prefill;
    HeadFitsIff(cfg, s, h);
    assert s.running == [] by {
      IdleNow(cfg, s, h);
    }
    PopTurn(cfg, s.(waiting := Sort(s.reqs, ByWait, s.waiting)), [], cfg.maxBatch);
  }

  lemma IdleNow(cfg: Cfg, s: St, h: Id)
    requires HeadsIdle(cfg, s, h)
    ensures Inv(cfg, s) && cfg.Valid() && s.running == [] && h in s.waiting && !At(s.reqs, h).cancelled
  {
    InvValid(cfg, s);
  }

  /** A step of a jammed engine serves nobody and leaves it jammed. */
  lemma JammedStep(cfg: Cfg, s: St, h: Id)
    requires Jammed(cfg, s, h)
    ensures Step(cfg, s).Ok? && Step(cfg, s).value == s.(waiting := Step(cfg, s).value.waiting)
    ensures Jammed(cfg, Step(cfg, s).value, h)
  {
    hide HeadsIdle, Admit, Decode, Retire, Sort, AdmissibleAlone;
    RetireKeepsHead(cfg, s, h);
    var r := Retire(s);
    JammedAdmitsNobody(cfg, r, h);
    SortKeepsHead(cfg, r, h);
    var t := r.(waiting := Sort(r.reqs, ByWait, r.waiting));
    IdleNow(cfg, t, h);
    Headroom.NothingDecoded(cfg, t);
  }

  lemma FitHeadIsAdmitted(cfg: Cfg, s: St, h: Id, x: Trace)
    requires Traces(cfg, s, x) && HeadsIdle(cfg, s, h) && cfg.Valid() && AdmissibleAlone(cfg, At(s.reqs, h))
    ensures h in x.batch
  {
    hide Core, Sort, CanAllocate, AdmissibleAlone, Ahead, RetiredFrom, DecodeRel, FilledUp, Retire, Admit, Decode, Step;
    RetireKeepsHead(cfg, s, h);
    HeadFitsIff(cfg, x.r, h);
    assert Limit(cfg, x.r) > 0;
    assert x.batch != [];
    assert x.batch[0] == h;
  }

  /** With nothing running, the first in line gets a token from the step exactly when it fits an empty engine. */
  lemma HeadServedIff(cfg: Cfg, s: St, h: Id)
    requires HeadsIdle(cfg, s, h)
    ensures cfg.Valid() && Step(cfg, s).Ok?
    ensures |At(Step(cfg, s).value.reqs, h).output| > |At(s.reqs, h).output| <==> AdmissibleAlone(cfg, At(s.reqs, h))
  {
    hide HeadsIdle, Step, AdmissibleAlone, Traces, Later;
    IdleNow(cfg, s, h);
    var x := StepTrace(cfg, s);
    TraceEnd(cfg, s, x);
    if AdmissibleAlone(cfg, At(s.reqs, h)) {
      FitHeadIsAdmitted(cfg, s, h, x);
      StepLater(cfg, s, x, h);
    } else {
      JammedStep(cfg, s, h);
    }
  }

  // ------------------------------------------------------------------ whole runs

  lemma SubmitKeepsHead(cfg: Cfg, s: St, h: Id, x: Id, r: Req)
    requires HeadsIdle(cfg, s, h) && x !in s.reqs && Acceptable(cfg, r) && r.arrival >= At(s.reqs, h).arrival
    ensures HeadsIdle(cfg, Submit(s, x, r), h) && At(Submit(s, x, r).reqs, h) == At(s.reqs, h)
  {
    hide Core, ReservesPrompt, ListsOk;
    var t := Submit(s, x, r);
    SubmitKeepsInv(cfg, s, x, r);
    InvLists(cfg, s);
    ListFacts(s, []);
    NewLast(s.waiting, x, h);
    forall v ensures !Ahead(t.reqs, t.waiting, v, h) {
      assert !Ahead(s.reqs, s.waiting, v, h);
      if v in s.waiting {
        NewLast(s.waiting, x, v);
      }
    }
  }

  lemma CancelKeepsHead(cfg: Cfg, s: St, h: Id, v: Id)
    requires HeadsIdle(cfg, s, h) && v != h
    ensures HeadsIdle(cfg, Cancel(s, v), h) && At(Cancel(s, v).reqs, h) == At(s.reqs, h)
  {
    hide Core;
    CancelKeepsInv(cfg, s, v);
    var t := Cancel(s, v);
    forall u ensures !Ahead(t.reqs, t.waiting, u, h) {
      assert !Ahead(s.reqs, s.waiting, u, h);
    }
  }

  lemma SameOutputs(s: St, e: Event)
    requires !e.Iterate? && (e.Arrive? ==> e.id !in s.reqs && e.r.output == [])
    ensures e.Arrive? ==> forall id :: At(Submit(s, e.id, e.r).reqs, id).output == At(s.reqs, id).output
    ensures e.Disconnect? ==> forall id :: At(Cancel(s, e.id).reqs, id).output == At(s.reqs, id).output
  {
  }

  /**
   A jam lasts: while the first in line stays, no request whatsoever is run or gets a token, for any
   number of steps and whatever arrives behind it.
   */
  lemma {:induction false} JamIsForever(cfg: Cfg, s: St, h: Id, events: seq<Event>)
    requires Jammed(cfg, s, h) && Patient(events, h, At(s.reqs, h).arrival)
    ensures cfg.Valid() && Run(cfg, s, events).Ok? && Jammed(cfg, Run(cfg, s, events).value, h)
    ensures forall id :: At(Run(cfg, s, events).value.reqs, id).output == At(s.reqs, id).output
    decreases |events|
  {
    hide HeadsIdle, Step, AdmissibleAlone, Acceptable, Submit, Cancel;
    if events != [] {
      var e, rest := events[0], events[1..];
      assert e in events && forall e' :: e' in rest ==> e' in events;
      var s' := JamOutlastsEvent(cfg, s, h, e);
      JamIsForever(cfg, s', h, rest);
    }
  }

  lemma JamOutlastsEvent(cfg: Cfg, s: St, h: Id, e: Event) returns (s': St)
    requires Jammed(cfg, s, h) && e != Disconnect(h) && (e.Arrive? ==> e.r.arrival >= At(s.reqs, h).arrival)
    ensures cfg.Valid() && Apply(cfg, s, e) == Ok(s') && Jammed(cfg, s', h) && At(s'.reqs, h).arrival == At(s.reqs, h).arrival
    ensures forall id :: At(s'.reqs, id).output == At(s.reqs, id).output
  {
    hide HeadsIdle, Step, AdmissibleAlone, Acceptable, Submit, Cancel;
    s' := s;
    match e
    case Iterate =>
      JammedStep(cfg, s, h);
      s' := Step(cfg, s).value;
    case Arrive(id, r) =>
      if id !in s.reqs && Acceptable(cfg, r) {
        SubmitKeepsHead(cfg, s, h, id, r);
        FreshOutput(cfg, r);
        SameOutputs(s, e);
        s' := Submit(s, id, r);
      }
    case Disconnect(id) =>
      CancelKeepsHead(cfg, s, h, id);
      SameOutputs(s, e);
      s' := Cancel(s, id);
  }

  lemma FreshOutput(cfg: Cfg, r: Req)
    requires Acceptable(cfg, r)
    ensures r.output == []
  {
  }

  // ------------------------------------------------------------------ a request that outgrows the pool

  /** w runs alone, unfinished, and nobody waits. */
  ghost predicate RunsAlone(cfg: Cfg, s: St, w: Id) {
    && Inv(cfg, s) && s.waiting == [] && s.running == [w]
    && !At(s.reqs, w).Done() && !At(s.reqs, w).cancelled
  }

  /** What a lone runner holds: all that is not free. */
  lemma LoneHolds(cfg: Cfg, s: St, w: Id)
    requires Inv(cfg, s) && s.running == [w]
    ensures cfg.Valid() && At(s.reqs, w).output != []
    ensures |At(s.reqs, w).table| == Need(cfg, At(s.reqs, w).SeqLen() - 1) && |s.free| + |At(s.reqs, w).table| == cfg.units
  {
    hide ListsOk, ReqsOk, WaitersOk, OthersOk, AdmitOrder, CommitOk, Need, Forward.PoolOk, Forward.Holds;
    assert w in s.running && Holders(s, []) == [w];
    assert RunningOk(cfg, s.pool, At(s.reqs, w), false);
    FreeCount(cfg, s.free, s.reqs, [w]);
    HeldSnoc(s.reqs, [], w);
    assert [] + [w] == [w];
  }

  lemma AloneUntilDecode(cfg: Cfg, s: St, w: Id, x: Trace)
    requires Traces(cfg, s, x) && RunsAlone(cfg, s, w)
    ensures x.t.waiting == [] && x.t.running == [w] && At(x.t.reqs, w) == At(s.reqs, w) && Unfinished(x.t) == [w]
  {
    hide Core, Sort, RetiredFrom, DecodeRel, FilledUp, Starved, ListsOk, Without, Retire, Admit, Decode, Step;
    StaysAlone(s, x.r, w);
    InvLists(cfg, x.r);
    FirstIn(x.batch);
    FirstIn(x.t.waiting);
    forall id ensures id !in x.batch && id !in x.t.waiting {
      AdmitMembers(cfg, x.r, x.t, x.batch, id);
    }
    assert x.r.running + [] == x.r.running;
    WithoutNone(x.t.running, DoneOf(x.t.reqs, x.t.running));
  }

  lemma StaysAlone(s: St, r: St, w: Id)
    requires RetiredFrom(s, r) && s.waiting == [] && s.running == [w] && !At(s.reqs, w).Done() && !At(s.reqs, w).cancelled
    ensures r.waiting == [] && r.running == [w] && At(r.reqs, w) == At(s.reqs, w)
  {
    WithoutNone(s.running, Leaving(s));
    WithoutNone(s.waiting, CancelledOf(s.reqs, s.waiting));
  }

  /** If the lone runner is evicted, its next token does not fit the pool. */
  lemma LoneEvictedWants(cfg: Cfg, s: St, w: Id, x: Trace)
    requires Traces(cfg, s, x) && RunsAlone(cfg, s, w) && w !in x.active && cfg.Valid() && !cfg.backend.Slots?
    ensures cfg.units < UnitsFor(cfg.cap, At(s.reqs, w).SeqLen())
  {
    hide Core, Sort, RetiredFrom, AdmitRel, FilledUp, Starved, ListsOk, Unfinished, WeakestGone, UnitsFor, Retire, Admit, Decode, Step;
    AloneUntilDecode(cfg, s, w, x);
    LoneHolds(cfg, x.t, w);
    assert Wanting(cfg, x.t.reqs, [w]) <= 1 by {
      assert [w][1..] == [];
    }
    FirstIn(x.active);
    assert x.active == [];
    assert Wanting(cfg, x.t.reqs, [w]) == 1 && x.t.free == [];
    assert [w][1..] == [];
    assert Wants(cfg, At(x.t.reqs, w));
  }

  /** If it is decoded, the blocks of its tokens are in the pool. */
  lemma LoneDecodedFits(cfg: Cfg, s: St, w: Id, x: Trace)
    requires Traces(cfg, s, x) && RunsAlone(cfg, s, w) && w in x.active && cfg.Valid() && !cfg.backend.Slots?
    ensures w in x.u.running && UnitsFor(cfg.cap, At(s.reqs, w).SeqLen()) <= cfg.units
  {
    hide Core, Sort, RetiredFrom, AdmitRel, FilledUp, Starved, ListsOk, Unfinished, WeakestGone, UnitsFor, Wanting, Retire, Admit, Decode, Step;
    AloneUntilDecode(cfg, s, w, x);
    assert MayGrow(At(x.t.reqs, w), At(x.e.reqs, w));
    InvLists(cfg, x.u);
    ListFacts(x.u, []);
    assert x.u.running == [w] by {
      assert forall id :: id in x.u.running ==> id == w;
      LoneList(x.u.running, w);
    }
    LoneHolds(cfg, x.u, w);
  }

  lemma LoneEvictedJams(cfg: Cfg, s: St, w: Id, x: Trace)
    requires Traces(cfg, s, x) && RunsAlone(cfg, s, w) && w !in x.active && cfg.Valid() && cfg.backend.Preempting?
    ensures Jammed(cfg, x.u, w)
  {
    hide Core, Sort, RetiredFrom, AdmitRel, FilledUp, Starved, ListsOk, Unfinished, WeakestGone, UnitsFor, Wanting, Retire, Admit, Decode, Step;
    AloneUntilDecode(cfg, s, w, x);
    LoneEvictedWants(cfg, s, w, x);
    assert w in Gone(Unfinished(x.t), x.active);
    assert At(x.e.reqs, w) == Evicted(At(x.t.reqs, w));
    FirstIn(x.u.running);
    assert forall id :: id in x.u.waiting ==> id == w;
  }

  /**
   A request that runs alone is decoded by the next step, unless its tokens take more blocks than the pool
   has.  Then it is evicted and jams the queue: it is not readmitted, for it will never fit.
   */
  lemma LoneRunnerJamsIff(cfg: Cfg, s: St, w: Id)
    requires RunsAlone(cfg, s, w) && cfg.backend.Preempting?
    ensures cfg.Valid() && Step(cfg, s).Ok?
    ensures Jammed(cfg, Step(cfg, s).value, w) <==> cfg.units < UnitsFor(cfg.cap, At(s.reqs, w).SeqLen())
    ensures |At(Step(cfg, s).value.reqs, w).output| > |At(s.reqs, w).output| <==> UnitsFor(cfg.cap, At(s.reqs, w).SeqLen()) <= cfg.units
  {
    hide Core, Traces, Step, UnitsFor, AdmissibleAlone;
    InvValid(cfg, s);
    var x := StepTrace(cfg, s);
    TraceEnd(cfg, s, x);
    if w in x.active {
      LoneDecodedFits(cfg, s, w, x);
      DecodedGrows(cfg, s, x, w);
    } else {
      LoneEvictedWants(cfg, s, w, x);
      LoneEvictedJams(cfg, s, w, x);
      EvictedKeeps(cfg, s, w, x);
    }
  }

  lemma DecodedGrows(cfg: Cfg, s: St, x: Trace, w: Id)
    requires Traces(cfg, s, x) && RunsAlone(cfg, s, w) && w in x.active
    ensures |At(x.u.reqs, w).output| > |At(s.reqs, w).output|
  {
    hide Core, Sort, RetiredFrom, AdmitRel, FilledUp, Starved, ListsOk, Unfinished, WeakestGone, Wanting, Retire, Admit, Decode, Step;
    AloneUntilDecode(cfg, s, w, x);
    assert MayGrow(At(x.t.reqs, w), At(x.e.reqs, w));
  }

  lemma EvictedKeeps(cfg: Cfg, s: St, w: Id, x: Trace)
    requires Traces(cfg, s, x) && RunsAlone(cfg, s, w) && w !in x.active
    ensures |At(x.u.reqs, w).output| == |At(s.reqs, w).output|
  {
    hide Core, Sort, RetiredFrom, AdmitRel, FilledUp, Starved, ListsOk, Unfinished, WeakestGone, Wanting, Retire, Admit, Decode, Step;
    AloneUntilDecode(cfg, s, w, x);
    assert w in Gone(Unfinished(x.t), x.active);
    assert At(x.e.reqs, w) == Evicted(At(x.t.reqs, w));
  }

  // ------------------------------------------------------------------ what the front door lets through

  /**
   Of the new requests that pass the front door, those that would jam an idle engine are the ones of an
   optimistically admitting engine whose prompt alone outgrows the pool; they all ask for less than nothing.
   */
  lemma FrontDoorJamsIff(cfg: Cfg, r: Req)
    requires cfg.Valid() && PassesFrontDoor(cfg, r) && r.output == [] && r.maxNew <= MAX_CONTEXT - |r.prompt|
    ensures !AdmissibleAlone(cfg, r) <==> cfg.backend.Preempting? && cfg.units < UnitsFor(cfg.cap, |r.prompt|)
    ensures !AdmissibleAlone(cfg, r) ==> r.maxNew < 0
  {
    if r.maxNew >= 0 {
      UnitsForMonotone(cfg.cap, |r.prompt|, |r.prompt| + r.maxNew);
    }
  }

  /** A two-token prompt that asks for minus one token. */
  const TOO_LONG := Req([0, 0], -1, false, 0, [], Waiting, None, [], -1, 0, false, [])

  function OneBlockPreempting(net: Net): Cfg {
    Cfg(net, Preempting, false, 1, 1, 1)
  }

  /** Such a request: it passes the front door of an engine with one block and jams it. */
  lemma NegativeBudgetJams(net: Net, pool: Pool)
    requires Boot(OneBlockPreempting(net), pool)
    ensures PassesFrontDoor(OneBlockPreempting(net), TOO_LONG)
    ensures Jammed(OneBlockPreempting(net), Submit(Initial(OneBlockPreempting(net), pool), 0, TOO_LONG), 0)
  {
    hide Core;
    var cfg := OneBlockPreempting(net);
    var s := Initial(cfg, pool);
    InitialInv(cfg, pool);
    SubmitKeepsInv(cfg, s, 0, TOO_LONG);
    assert UnitsFor(1, 1) == 1 && UnitsFor(1, 2) == 2;
    assert Submit(s, 0, TOO_LONG).waiting == [0];
  }
}
