/** What the eviction loop achieves, and why the preemption counter never lies. */
module Accounting {
  import opened Prelude
  import opened Transformer
  import opened Storage
  import Forward
  import opened Scheduling
  import opened Lists
  import opened Invariant
  import opened PreserveQueues
  import opened PreserveEviction
  import opened EvictionLoop
  import opened Steps
  import opened Runs
  import opened Progress
  import opened Fairness

  // ------------------------------------------------------------------ the eviction loop as a whole

  /** A survivor of the eviction loop: it is a member of the batch and its table covers the token to be fed. */
  ghost predicate Survivor(cfg: Cfg, s: St, t: St, id: Id)
    requires cfg.Valid()
  {
    && id in s.running && !At(s.reqs, id).Done() && id in t.running
    && |At(t.reqs, id).table| == Need(cfg, At(t.reqs, id).SeqLen())
    && At(t.reqs, id).output == At(s.reqs, id).output
  }

  /** A victim: back in the queue with no memory, all its tokens kept, one more eviction on its count. */
  ghost predicate Victim(s: St, t: St, id: Id) {
    && id in s.running && !At(s.reqs, id).Done() && id in t.waiting && id !in t.running
    && At(t.reqs, id).table == [] && At(t.reqs, id).output == At(s.reqs, id).output
    && At(t.reqs, id).preempts == At(s.reqs, id).preempts + 1
  }

  /** v was evicted less often than u, or equally often and was admitted after u. */
  predicate RanksBelow(v: Req, u: Req) {
    v.preempts <= u.preempts && (v.preempts == u.preempts ==> v.admitSeq > u.admitSeq)
  }

  /**
   The eviction loop never raises.  Survivors and victims partition the batch, every survivor outranks
   every victim, and with only unfinished requests running, each of which fits the pool, somebody survives
   (Progress.NeverEmptied says it for every step).
   */
  lemma EvictionLoopIsRight(cfg: Cfg, s: St)
    requires Inv(cfg, s)
    ensures cfg.Valid() && EnsureCapacity(cfg, s, Unfinished(s)).Ok?
    ensures var (t, active) := EnsureCapacity(cfg, s, Unfinished(s)).value;
      && (forall id :: id in active ==> Survivor(cfg, s, t, id))
      && (forall id :: id in Unfinished(s) && id !in active ==> Victim(s, t, id))
      && (forall id :: id in active ==> id in Unfinished(s))
      && (forall v, u :: v in Unfinished(s) && v !in active && u in active ==> RanksBelow(At(s.reqs, v), At(s.reqs, u)))
      && (RunnersFit(cfg, s) && s.running != [] && (forall id :: id in s.running ==> !At(s.reqs, id).Done()) ==> active != [])
      && |Unfinished(s)| - |active| <= Max(0, Wanting(cfg, s.reqs, Unfinished(s)) - |s.free|)
      && (!cfg.backend.Preempting? ==> active == Unfinished(s))
  {
    hide Core, LoopInv, EnsureLoop, Wanting, Without, Unfinished, Evolved, WeakestGone, Sort, Survivor, Victim, RanksBelow;
    var ids := Unfinished(s);
    UnfinishedFacts(cfg, s);
    LoopBasics(cfg, s, ids, 0);
    EnsureLoopFacts(cfg, s, ids, 0);
    var (t, active) := EnsureLoop(cfg, s, ids, 0).value;
    LoopResultAtStart(cfg, s, ids, t, active);
    forall id ensures id in ids <==> id in s.running && !At(s.reqs, id).Done() {
      UnfinishedMembers(s, id);
    }
    assert s.running != [] ==> s.running[0] in s.running;
    EvolvedMembers(s, t, ids, active);
    forall id | id in active ensures Survivor(cfg, s, t, id) {
      SurvivorCovered(cfg, t, active, id);
      SurvivorKept(cfg, s, t, ids, active, id);
    }
    forall id | id in ids && id !in active ensures Victim(s, t, id) {
      VictimThrown(s, t, ids, active, id);
    }
    VictimsRankBelow(s, ids, active);
  }

  lemma EvolvedMembers(s: St, t: St, ids: seq<Id>, active: seq<Id>)
    requires Evolved(s, t, ids, active)
    ensures forall id :: id in active ==> id in ids
  {
  }

  lemma SurvivorKept(cfg: Cfg, s: St, t: St, ids: seq<Id>, active: seq<Id>, id: Id)
    requires Evolved(s, t, ids, active) && id in active && id in ids && id in s.running && !At(s.reqs, id).Done()
    requires cfg.Valid() && id in t.running && |At(t.reqs, id).table| == Need(cfg, At(t.reqs, id).SeqLen())
    ensures Survivor(cfg, s, t, id)
  {
    assert MayGrow(At(s.reqs, id), At(t.reqs, id));
  }

  lemma VictimThrown(s: St, t: St, ids: seq<Id>, active: seq<Id>, id: Id)
    requires Evolved(s, t, ids, active) && id in ids && id !in active && id in s.running && !At(s.reqs, id).Done()
    ensures Victim(s, t, id)
  {
    assert id in Gone(ids, active);
  }

  lemma VictimsRankBelow(s: St, ids: seq<Id>, active: seq<Id>)
    requires WeakestGone(s, ids, active)
    ensures forall v, u :: v in ids && v !in active && u in active ==> RanksBelow(At(s.reqs, v), At(s.reqs, u))
  {
    forall v, u | v in ids && v !in active && u in active ensures RanksBelow(At(s.reqs, v), At(s.reqs, u)) {
      assert v in Gone(ids, active);
      assert Weaker(At(s.reqs, v), At(s.reqs, u));
    }
  }

  lemma SurvivorCovered(cfg: Cfg, t: St, active: seq<Id>, id: Id)
    requires LoopInv(cfg, t, active, |active|) && id in active
    ensures cfg.Valid() && id in t.running && |At(t.reqs, id).table| == Need(cfg, At(t.reqs, id).SeqLen())
  {
    hide ListsOk, ReqsOk, WaitersOk, OthersOk, MemOk, CommitOk, AdmitOrder, Forward.PoolOk, Forward.Holds;
    assert active[..|active|] == active;
    assert id in Front(active, |active|);
    assert RunningOk(cfg, t.pool, At(t.reqs, id), id in Front(active, |active|));
  }

  // ------------------------------------------------------------------ the preemption counter

  ghost function PreemptMap(s: St): map<Id, int> {
    map id | id in s.reqs :: At(s.reqs, id).preempts
  }

  lemma {:induction false} SumOfBump(m: map<Id, int>, m': map<Id, int>, bumped: set<Id>)
    requires m.Keys == m'.Keys && bumped <= m.Keys
    requires forall k :: k in m ==> m'[k] == m[k] + if k in bumped then 1 else 0
    ensures SumOf(m') == SumOf(m) + |bumped|
    decreases |bumped|
  {
    if bumped == {} {
      assert m' == m;
    } else {
      var k :| k in bumped;
      var mid := m'[k := m[k]];
      SumOfBump(m, mid, bumped - {k});
      SumOfUpdate(m', k, m[k]);
      SumOfRemove(m', k);
    }
  }

  ghost function Elems(ids: seq<Id>): set<Id> {
    set x | x in ids
  }

  lemma {:induction false} ElemsSize(ids: seq<Id>)
    requires NoDup(ids)
    ensures |Elems(ids)| == |ids|
  {
    if ids == [] {
      assert Elems(ids) == {};
    } else {
      Snoc(ids);
      NoDupSnoc(ids);
      ElemsSize(Init(ids));
      assert Elems(ids) == Elems(Init(ids)) + {Last(ids)};
    }
  }

  lemma GoneSize(ids: seq<Id>, active: seq<Id>)
    requires NoDup(ids) && NoDup(active) && forall id :: id in active ==> id in ids
    ensures |Gone(ids, active)| == |ids| - |active|
  {
    ElemsSize(ids);
    ElemsSize(active);
    assert Gone(ids, active) == Elems(ids) - Elems(active) && Elems(active) <= Elems(ids);
  }

  /** In one step, a request's eviction count rises exactly when it was thrown out. */
  lemma StepPreempts(cfg: Cfg, s: St, x: Trace, id: Id)
    requires Traces(cfg, s, x)
    ensures id in x.u.reqs <==> id in s.reqs
    ensures At(x.u.reqs, id).preempts == At(s.reqs, id).preempts + if id in Gone(Unfinished(x.t), x.active) then 1 else 0
  {
    hide Core, Starved, FilledUp, WeakestGone, Wanting, Unfinished, Sort, Retire, Admit, Decode, Step;
    StepKeys(cfg, s, x, id);
    assert At(x.r.reqs, id).preempts == At(s.reqs, id).preempts;
    assert At(x.t.reqs, id).preempts == At(x.r.reqs, id).preempts;
    if id in x.active {
      assert MayGrow(At(x.t.reqs, id), At(x.e.reqs, id));
    } else if id in Gone(Unfinished(x.t), x.active) {
      assert At(x.e.reqs, id) == Evicted(At(x.t.reqs, id));
    }
  }

  /** The counter says how often requests were evicted, in total. */
  ghost predicate Counted(s: St) {
    s.preemptions == SumOf(PreemptMap(s))
  }

  lemma StepCounted(cfg: Cfg, s: St, x: Trace)
    requires Traces(cfg, s, x) && Counted(s)
    ensures Counted(x.u)
  {
    hide Traces, Gone, PreemptMap;
    var gone := Gone(Unfinished(x.t), x.active);
    GoneInside(cfg, s, x);
    PreemptMapMoves(cfg, s, x);
    SumOfBump(PreemptMap(s), PreemptMap(x.u), gone);
    EvictionsCounted(cfg, s, x);
  }

  lemma PreemptMapMoves(cfg: Cfg, s: St, x: Trace)
    requires Traces(cfg, s, x)
    ensures PreemptMap(x.u).Keys == PreemptMap(s).Keys
    ensures forall id :: id in PreemptMap(s) ==>
      PreemptMap(x.u)[id] == PreemptMap(s)[id] + if id in Gone(Unfinished(x.t), x.active) then 1 else 0
  {
    hide Traces, Gone;
    forall id ensures id in PreemptMap(x.u) <==> id in PreemptMap(s) {
      StepPreempts(cfg, s, x, id);
    }
    forall id | id in PreemptMap(s)
      ensures PreemptMap(x.u)[id] == PreemptMap(s)[id] + if id in Gone(Unfinished(x.t), x.active) then 1 else 0
    {
      StepPreempts(cfg, s, x, id);
    }
  }

  lemma GoneInside(cfg: Cfg, s: St, x: Trace)
    requires Traces(cfg, s, x)
    ensures Gone(Unfinished(x.t), x.active) <= PreemptMap(s).Keys
    ensures |Gone(Unfinished(x.t), x.active)| == |Unfinished(x.t)| - |x.active|
  {
    hide Core, Starved, FilledUp, WeakestGone, Wanting, Unfinished, Sort, RetiredFrom, DecodedFrom, Retire, Admit, Decode, Step;
    InvLists(cfg, x.t);
    ListFacts(x.t, []);
    UnfinishedFacts(cfg, x.t);
    LoopBasics(cfg, x.t, Unfinished(x.t), 0);
    GoneSize(Unfinished(x.t), x.active);
    forall id | id in Gone(Unfinished(x.t), x.active) ensures id in s.reqs {
      UnfinishedMembers(x.t, id);
      StepKeys(cfg, s, x, id);
    }
  }

  lemma ApplyCounted(cfg: Cfg, s: St, e: Event)
    requires Inv(cfg, s) && Counted(s) && cfg.Valid() && Apply(cfg, s, e).Ok?
    ensures Counted(Apply(cfg, s, e).value)
  {
    hide Inv, Traces, Counted, Submit, Cancel, Step, Acceptable;
    match e
    case Iterate =>
      var x := StepTrace(cfg, s);
      TraceEnd(cfg, s, x);
      StepCounted(cfg, s, x);
    case Arrive(id, r) =>
      if id !in s.reqs && Acceptable(cfg, r) {
        FreshArrival(cfg, r);
        SubmitCounted(s, id, r);
      }
    case Disconnect(id) =>
      CancelCounted(s, id);
  }

  lemma SubmitCounted(s: St, id: Id, r: Req)
    requires Counted(s) && id !in s.reqs && r.preempts == 0
    ensures Counted(Submit(s, id, r))
  {
    hide SumOf;
    assert PreemptMap(Submit(s, id, r)) == PreemptMap(s)[id := 0];
    assert PreemptMap(s) - {id} == PreemptMap(s);
    SumOfUpdate(PreemptMap(s), id, 0);
  }

  lemma CancelCounted(s: St, id: Id)
    requires Counted(s)
    ensures Counted(Cancel(s, id))
  {
    hide SumOf;
    assert PreemptMap(Cancel(s, id)) == PreemptMap(s);
  }

  lemma {:induction false} RunCounted(cfg: Cfg, s: St, events: seq<Event>)
    requires Inv(cfg, s) && Counted(s)
    ensures cfg.Valid() && Run(cfg, s, events).Ok? && Counted(Run(cfg, s, events).value)
    decreases |events|
  {
    hide Inv, Apply, Counted;
    InvValid(cfg, s);
    RunKeepsInv(cfg, s, events);
    if events != [] {
      ApplyKeepsInv(cfg, s, events[0]);
      ApplyCounted(cfg, s, events[0]);
      RunCounted(cfg, Apply(cfg, s, events[0]).value, events[1..]);
    }
  }

  /** In every reachable state the preemption counter is the sum of all requests' eviction counts. */
  lemma PreemptionsAddUp(cfg: Cfg, s: St)
    requires Reachable(cfg, s)
    ensures s.preemptions == SumOf(PreemptMap(s))
  {
    hide Inv, Run;
    var pool: Pool, events: seq<Event> :| Boot(cfg, pool) && Run(cfg, Initial(cfg, pool), events) == Ok(s);
    InitialInv(cfg, pool);
    assert PreemptMap(Initial(cfg, pool)) == map[];
    RunCounted(cfg, Initial(cfg, pool), events);
  }

  // ------------------------------------------------------------------ silence

  /** A step does not touch a request that is in neither queue. */
  lemma StepGone(cfg: Cfg, s: St, x: Trace, id: Id)
    requires Traces(cfg, s, x) && id !in s.waiting && id !in s.running
    ensures id !in x.u.waiting && id !in x.u.running && At(x.u.reqs, id) == At(s.reqs, id)
  {
    hide Core, Starved, FilledUp, WeakestGone, Wanting, Unfinished, Sort, ListsOk, RetiredFrom, Retire, Admit, Decode, Step;
    RetiredMembers(s, x.r);
    RetiredOther(s, x.r, id);
    InvLists(cfg, x.r);
    AdmitMembers(cfg, x.r, x.t, x.batch, id);
    UnfinishedMembers(x.t, id);
  }

  lemma RetiredOther(s: St, r: St, id: Id)
    requires RetiredFrom(s, r) && id !in s.running
    ensures At(r.reqs, id) == At(s.reqs, id)
  {
  }

  lemma ApplyGone(cfg: Cfg, s: St, e: Event, id: Id)
    requires Inv(cfg, s) && id in s.reqs && id !in s.waiting && id !in s.running
    requires cfg.Valid() && Apply(cfg, s, e).Ok?
    ensures var t := Apply(cfg, s, e).value;
      && id in t.reqs && id !in t.waiting && id !in t.running
      && t.reqs[id] == s.reqs[id].(cancelled := t.reqs[id].cancelled)
  {
    hide Inv, Traces, Step;
    if e.Iterate? {
      var x := StepTrace(cfg, s);
      TraceEnd(cfg, s, x);
      StepGone(cfg, s, x, id);
      StepPreempts(cfg, s, x, id);
    }
  }

  /** After it left the queues, finished or cancelled, a request receives nothing more, whatever happens. */
  lemma {:induction false} SilentOnceGone(cfg: Cfg, s: St, events: seq<Event>, id: Id)
    requires Inv(cfg, s) && id in s.reqs && id !in s.waiting && id !in s.running
    ensures cfg.Valid() && Run(cfg, s, events).Ok?
    ensures var t := Run(cfg, s, events).value;
      id in t.reqs && id !in t.waiting && id !in t.running && t.reqs[id] == s.reqs[id].(cancelled := t.reqs[id].cancelled)
    decreases |events|
  {
    hide Inv, Apply;
    InvValid(cfg, s);
    RunKeepsInv(cfg, s, events);
    if events != [] {
      ApplyKeepsInv(cfg, s, events[0]);
      ApplyGone(cfg, s, events[0], id);
      SilentOnceGone(cfg, Apply(cfg, s, events[0]).value, events[1..], id);
    }
  }

  /** Nothing is emitted after the finished flag: a complete request keeps its output and what was sent. */
  lemma SilentOnceFinished(cfg: Cfg, s: St, events: seq<Event>, id: Id)
    requires Inv(cfg, s) && id in s.reqs && Complete?(s.reqs[id])
    ensures cfg.Valid() && Run(cfg, s, events).Ok?
    ensures var t := Run(cfg, s, events).value;
      id in t.reqs && t.reqs[id].output == s.reqs[id].output && t.reqs[id].sent == s.reqs[id].sent && Complete?(t.reqs[id])
  {
    hide Inv, Run, Complete?;
    RunLater(cfg, s, events, id);
    RunKeepsInv(cfg, s, events);
    var t := Run(cfg, s, events).value;
    RequestOutput(cfg, s, id);
    RequestOutput(cfg, t, id);
    KnownRequest(cfg, s, id);
    KnownRequest(cfg, t, id);
    StaysComplete(cfg, s.reqs[id], t.reqs[id]);
  }

  lemma KnownRequest(cfg: Cfg, s: St, id: Id)
    requires Inv(cfg, s) && id in s.reqs
    ensures cfg.Valid() && ReqOk(cfg, s.reqs[id])
  {
    assert At(s.reqs, id) == s.reqs[id];
  }

  lemma StaysComplete(cfg: Cfg, r: Req, r': Req)
    requires cfg.Valid() && ReqOk(cfg, r) && ReqOk(cfg, r') && Later(r, r') && Complete?(r)
    requires r.prompt != [] && r.output == Reference(cfg.net, r) && r'.output <= Reference(cfg.net, r')
    ensures Complete?(r') && r'.output == r.output && r'.sent == r.sent
  {
    hide ReservesPrompt;
    assert Reference(cfg.net, r') == Reference(cfg.net, r);
    assert r'.output == r.output;
    if !Complete?(r') {
      GreedyStrict(cfg.net, r'.prompt, r'.output, Budget(r'), r'.ignoreEos);
    }
    forall k | 0 <= k < |r.sent| ensures r'.sent[k] == r.sent[k] {
    }
  }
}
