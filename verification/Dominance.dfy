/**
 Continuous batching dominates static batching.

 On the same burst of requests, with contiguous slots, the same number of rows and no cancellations,
 every token of every request is produced at a step no later under continuous batching.
 */
module Dominance {
  import opened Prelude
  import opened Transformer
  import opened Storage
  import opened Forward
  import opened Scheduling
  import opened Lists
  import opened Invariant
  import opened PreserveQueues
  import opened EvictionLoop
  import opened Steps
  import opened Runs
  import opened Progress
  import opened Fairness

  function Out(s: St, id: Id): nat {
    |At(s.reqs, id).output|
  }

  // ------------------------------------------------------------------ lengths determine completion

  /** A request is complete exactly when it has as many tokens as its reference. */
  lemma CompleteIffLong(cfg: Cfg, r: Req)
    requires cfg.Valid() && ReqOk(cfg, r)
    ensures r.prompt != [] && |r.output| <= |Reference(cfg.net, r)|
    ensures Complete?(r) <==> |r.output| == |Reference(cfg.net, r)|
  {
    GreedyExtends(cfg.net, r.prompt, r.output, Budget(r), r.ignoreEos);
    if !Complete?(r) {
      GreedyStrict(cfg.net, r.prompt, r.output, Budget(r), r.ignoreEos);
    }
  }

  /** Completion depends on the length alone, and the target length never changes. */
  lemma CompleteLater(cfg: Cfg, r: Req, r': Req)
    requires cfg.Valid() && ReqOk(cfg, r) && ReqOk(cfg, r') && Later(r, r')
    ensures |r'.output| >= |r.output| && (Complete?(r) ==> Complete?(r') && |r'.output| == |r.output|)
    ensures Complete?(r') && |r'.output| == |r.output| ==> Complete?(r)
  {
    CompleteIffLong(cfg, r);
    CompleteIffLong(cfg, r');
  }

  // ------------------------------------------------------------------ one step of one engine

  /** What one step does to one request when nobody is cancelled or evicted. */
  ghost predicate Moves(s: St, x: Trace, id: Id) {
    && (id in x.u.reqs <==> id in s.reqs)
    && (id in x.u.running <==> id in x.batch || (id in s.running && !At(s.reqs, id).Done()))
    && (id in x.r.running <==> id in s.running && !At(s.reqs, id).Done())
    && (id in x.batch ==> id in s.waiting)
    && At(x.u.reqs, id).cancelled == At(s.reqs, id).cancelled
    && Later(At(s.reqs, id), At(x.u.reqs, id))
    && (id in x.batch ==> Complete?(At(x.u.reqs, id)) || Out(x.u, id) == Out(s, id) + 2)
    && (id in x.batch ==> Out(x.u, id) <= Out(s, id) + 2)
    && (id !in x.batch && id in s.running && !At(s.reqs, id).Done() ==> Out(x.u, id) == Out(s, id) + 1)
    && (id !in x.batch && !(id in s.running && !At(s.reqs, id).Done()) ==> Out(x.u, id) == Out(s, id))
    && (id !in x.batch && id !in s.running ==> At(x.u.reqs, id) == At(s.reqs, id))
  }

  ghost predicate NobodyLeaves(s: St) {
    forall id :: id in s.reqs ==> !At(s.reqs, id).cancelled
  }

  lemma {:induction false} HeldBySlots(cfg: Cfg, pool: Pool, reqs: map<Id, Req>, ids: seq<Id>)
    requires cfg.Valid() && cfg.backend.Slots? && forall id :: id in ids ==> |At(reqs, id).table| == 1
    ensures |Held(reqs, ids)| == |ids|
  {
    if ids != [] {
      assert Last(ids) in ids && forall id :: id in Init(ids) ==> id in ids;
      HeldBySlots(cfg, pool, reqs, Init(ids));
      assert |Held(reqs, ids)| == |Held(reqs, Init(ids))| + |multiset(At(reqs, Last(ids)).table)|;
    }
  }

  /** Every running request occupies one slot. */
  lemma SlotsInUse(cfg: Cfg, s: St)
    requires Inv(cfg, s) && cfg.backend.Slots?
    ensures |s.free| + |s.running| == cfg.units
  {
    hide ListsOk, ReqsOk, WaitersOk, OthersOk, CommitOk, AdmitOrder;
    assert Holders(s, []) == s.running;
    FreeCount(cfg, s.free, s.reqs, s.running);
    forall id | id in s.running ensures |At(s.reqs, id).table| == 1 {
      assert RunningOk(cfg, s.pool, At(s.reqs, id), false);
    }
    HeldBySlots(cfg, s.pool, s.reqs, s.running);
  }

  lemma StepMoves(cfg: Cfg, s: St, x: Trace, id: Id)
    requires Traces(cfg, s, x) && cfg.backend.Slots? && NobodyLeaves(s)
    ensures Moves(s, x, id)
  {
    hide Core, Starved, FilledUp, ListsOk, Sort, WeakestGone, Wanting, Unfinished, RetiredFrom, Evolved, AdmitRel, Complete?, DecodedFrom, Later, Retire, Admit, Decode, Step;
    InvLists(cfg, s);
    ListFacts(s, []);
    InvLists(cfg, x.r);
    ListFacts(x.r, []);
    InvLists(cfg, x.t);
    RetireGains(s, x.r, id);
    AdmitMembers(cfg, x.r, x.t, x.batch, id);
    AdmitGains(cfg, x.r, x.t, x.batch, id);
    UnfinishedMembers(x.t, id);
    NoEvictionGains(x.t, x.e, x.u, x.active, id);
    StepLater(cfg, s, x, id);
    if id in x.batch {
      NotCancelled(cfg, x.t, id);
    }
  }

  /** Nobody is cancelled, so done means complete. */
  lemma NotCancelled(cfg: Cfg, t: St, id: Id)
    requires Inv(cfg, t) && id in t.reqs && !At(t.reqs, id).cancelled
    ensures At(t.reqs, id).Done() <==> Complete?(At(t.reqs, id))
  {
    hide ListsOk, WaitersOk, RunnersOk, OthersOk, MemOk, CommitOk, AdmitOrder;
    assert ReqOk(cfg, At(t.reqs, id));
    if At(t.reqs, id).Done() {
      var why := At(t.reqs, id).reason.value;
      assert why == Length || why == Stop || why == Cancelled;
    }
  }

  lemma RetireGains(s: St, r: St, id: Id)
    requires RetiredFrom(s, r) && (forall j :: j in s.reqs ==> !At(s.reqs, j).cancelled)
    requires forall j :: j in s.running || j in s.waiting ==> j in s.reqs
    ensures Out(r, id) == Out(s, id)
    ensures id in r.running <==> id in s.running && !At(s.reqs, id).Done()
    ensures id in r.waiting <==> id in s.waiting
    ensures r.waiting == s.waiting
    ensures id !in s.running ==> At(r.reqs, id) == At(s.reqs, id)
    ensures id in r.running ==> At(r.reqs, id) == At(s.reqs, id)
    ensures id in r.reqs <==> id in s.reqs
    ensures At(r.reqs, id).cancelled == At(s.reqs, id).cancelled
    ensures Complete?(At(s.reqs, id)) ==> Complete?(At(r.reqs, id))
  {
    RetiredMembers(s, r);
    WithoutNone(s.waiting, CancelledOf(s.reqs, s.waiting));
  }

  lemma AdmitGains(cfg: Cfg, r: St, t: St, batch: seq<Id>, id: Id)
    requires AdmitRel(cfg, r, t, batch)
    ensures id in batch ==> Out(t, id) == Out(r, id) + 1 && At(t.reqs, id).cancelled == At(r.reqs, id).cancelled
    ensures id !in batch ==> At(t.reqs, id) == At(r.reqs, id)
    ensures id in t.reqs <==> id in r.reqs
  {
    hide Sort;
  }

  lemma NoEvictionGains(t: St, e: St, u: St, active: seq<Id>, id: Id)
    requires Evolved(t, e, Unfinished(t), active) && DecodedFrom(e, u, active) && active == Unfinished(t)
    ensures Out(u, id) == Out(t, id) + if id in Unfinished(t) then 1 else 0
    ensures id !in Unfinished(t) ==> At(u.reqs, id) == At(t.reqs, id)
    ensures At(u.reqs, id).cancelled == At(t.reqs, id).cancelled
    ensures id in u.reqs <==> id in t.reqs
    ensures u.waiting == t.waiting
    ensures id in u.running <==> id in t.running
  {
    hide Unfinished;
    if id in active {
      assert MayGrow(At(t.reqs, id), At(e.reqs, id));
    } else {
      assert id !in Gone(active, active);
    }
    assert t.waiting <= e.waiting && |e.waiting| == |t.waiting|;
  }

  // ------------------------------------------------------------------ one engine working through a burst

  /** Position k of the queue order q, m of which were taken in. */
  ghost predicate PlaceOk(s0: St, q: seq<Id>, s: St, m: nat, k: nat)
    requires k < |q|
  {
    && q[k] in s.reqs
    && (if k < m then
          && (q[k] in s.running || Complete?(At(s.reqs, q[k])))
          && (Complete?(At(s.reqs, q[k])) || Out(s, q[k]) >= Out(s0, q[k]) + 2)
        else q[k] !in s.running && At(s.reqs, q[k]) == At(s0.reqs, q[k]))
  }

  /**
   The engine has taken in the first m requests of the queue order q: each of them runs or is complete,
   and either is complete or has at least two tokens more than at the start; the rest is untouched.
   */
  ghost predicate Serving(cfg: Cfg, s0: St, q: seq<Id>, s: St, m: nat) {
    && Inv(cfg, s) && cfg.backend.Slots? && NobodyLeaves(s) && NoDup(q) && m <= |q|
    && Sort(s.reqs, ByWait, s.waiting) == q[m..]
    && PlacesOk(s0, q, s, m) && OnlyQueued(s0, q, s, m)
  }

  ghost predicate PlacesOk(s0: St, q: seq<Id>, s: St, m: nat) {
    forall k :: 0 <= k < |q| ==> PlaceOk(s0, q, s, m, k)
  }

  ghost predicate OnlyQueued(s0: St, q: seq<Id>, s: St, m: nat) {
    && m <= |q|
    && (forall id :: id in s.running ==> id in q[..m])
    && (forall id :: Later(At(s0.reqs, id), At(s.reqs, id)))
    && (forall id :: id !in q ==> At(s.reqs, id) == At(s0.reqs, id))
  }

  lemma {:induction false} SortSame(reqs: map<Id, Req>, reqs': map<Id, Req>, ids: seq<Id>)
    requires forall id :: id in ids ==> At(reqs', id) == At(reqs, id)
    ensures Sort(reqs', ByWait, ids) == Sort(reqs, ByWait, ids)
  {
    if ids != [] {
      Snoc(ids);
      SortSame(reqs, reqs', Init(ids));
      SortMemberOf(reqs, Init(ids));
      InsertSame(reqs, reqs', Sort(reqs, ByWait, Init(ids)), Last(ids));
    }
  }

  lemma SortMemberOf(reqs: map<Id, Req>, ids: seq<Id>)
    ensures forall id :: id in Sort(reqs, ByWait, ids) <==> id in ids
  {
    SortCount(reqs, ByWait, ids);
    forall id ensures id in Sort(reqs, ByWait, ids) <==> id in ids {
      CountPositive(ids, id);
      CountPositive(Sort(reqs, ByWait, ids), id);
    }
  }

  lemma {:induction false} InsertSame(reqs: map<Id, Req>, reqs': map<Id, Req>, ids: seq<Id>, x: Id)
    requires forall id :: id in ids || id == x ==> At(reqs', id) == At(reqs, id)
    ensures Insert(reqs', ByWait, ids, x) == Insert(reqs, ByWait, ids, x)
  {
    if ids != [] {
      Snoc(ids);
      InsertSame(reqs, reqs', Init(ids), x);
    }
  }

  /** The admitted batch is the next stretch of the queue order. */
  lemma BatchIsNext(cfg: Cfg, s0: St, q: seq<Id>, s: St, m: nat, x: Trace)
    requires Serving(cfg, s0, q, s, m) && Traces(cfg, s, x)
    ensures m + |x.batch| <= |q| && x.batch == q[m..m + |x.batch|]
    ensures Sort(x.u.reqs, ByWait, x.u.waiting) == q[m + |x.batch|..]
    ensures x.t.waiting == [] ==> m + |x.batch| == |q|
  {
    hide Core, Starved, FilledUp, DecodeRel, RetiredFrom, PlaceOk, Sort, Later, ListsOk, Retire, Admit, Decode, Step;
    WaitersKept(cfg, s, x);
    SortSame(s.reqs, x.r.reqs, s.waiting);
    SortSame(s.reqs, x.u.reqs, x.t.waiting);
    if x.t == x.r && x.batch == [] {
      SortNone(s.reqs, s.waiting);
    } else {
      SortSorted(s.reqs, ByWait, s.waiting);
      SplitSorted(s.reqs, q, m, x.batch, x.t.waiting);
    }
  }

  lemma SplitSorted(reqs: map<Id, Req>, q: seq<Id>, m: nat, a: seq<Id>, b: seq<Id>)
    requires m <= |q| && q[m..] == a + b && Sorted(reqs, ByWait, a + b)
    ensures m + |a| <= |q| && a == q[m..m + |a|] && b == q[m + |a|..] && Sort(reqs, ByWait, b) == b
  {
    var n := |a|;
    assert q[m..][..n] == q[m..m + n] && q[m..][n..] == q[m + n..];
    assert forall k :: 0 <= k < |b| ==> (a + b)[n + k] == b[k];
    SortIdentity(reqs, ByWait, b);
  }

  lemma SortNone(reqs: map<Id, Req>, ids: seq<Id>)
    ensures ids == [] ==> Sort(reqs, ByWait, ids) == []
  {
  }

  /** Requests still waiting after admission are as they were, and nobody joins the queue. */
  lemma WaitersKept(cfg: Cfg, s: St, x: Trace)
    requires Traces(cfg, s, x) && cfg.backend.Slots? && NobodyLeaves(s)
    ensures x.r.waiting == s.waiting && x.u.waiting == x.t.waiting
    ensures forall id :: id in s.waiting ==> At(x.r.reqs, id) == At(s.reqs, id)
    ensures forall id :: id in x.t.waiting ==> id in s.waiting && At(x.u.reqs, id) == At(s.reqs, id)
  {
    hide Core, Starved, FilledUp, WeakestGone, Wanting, Unfinished, RetiredFrom, Evolved, DecodedFrom, Sort, Later, AdmitRel, ListsOk, Retire, Admit, Decode, Step;
    InvLists(cfg, s);
    ListFacts(s, []);
    InvLists(cfg, x.r);
    InvLists(cfg, x.t);
    RetireGains(s, x.r, 0);
    NoEvictionGains(x.t, x.e, x.u, x.active, 0);
    forall id
      ensures id in s.waiting ==> At(x.r.reqs, id) == At(s.reqs, id)
      ensures id in x.t.waiting ==> id in s.waiting && At(x.u.reqs, id) == At(s.reqs, id)
    {
      RetireGains(s, x.r, id);
      AdmitMembers(cfg, x.r, x.t, x.batch, id);
      StepMoves(cfg, s, x, id);
    }
  }

  lemma PlaceMoves(cfg: Cfg, s0: St, q: seq<Id>, s: St, m: nat, x: Trace, k: nat)
    requires k < |q| && PlaceOk(s0, q, s, m, k) && Moves(s, x, q[k]) && NobodyLeaves(s)
    requires cfg.Valid() && ReqOk(cfg, At(s.reqs, q[k])) && ReqOk(cfg, At(x.u.reqs, q[k]))
    requires Later(At(s0.reqs, q[k]), At(s.reqs, q[k]))
    requires At(s.reqs, q[k]).Done() <==> Complete?(At(s.reqs, q[k]))
    requires q[k] in x.batch <==> m <= k < m + |x.batch|
    ensures PlaceOk(s0, q, x.u, m + |x.batch|, k)
  {
    hide ReqOk;
    CompleteLater(cfg, At(s.reqs, q[k]), At(x.u.reqs, q[k]));
  }

  lemma KnownOk(cfg: Cfg, s: St, id: Id)
    requires Inv(cfg, s) && id in s.reqs
    ensures cfg.Valid() && ReqOk(cfg, At(s.reqs, id))
  {
  }

  lemma StillServing(cfg: Cfg, s0: St, q: seq<Id>, s: St, m: nat, x: Trace)
    requires Serving(cfg, s0, q, s, m) && Traces(cfg, s, x)
    ensures Serving(cfg, s0, q, x.u, m + |x.batch|)
  {
    hide Inv, Traces, PlacesOk, OnlyQueued, Sort, Moves;
    BatchIsNext(cfg, s0, q, s, m, x);
    TraceEnd(cfg, s, x);
    forall id ensures Moves(s, x, id) {
      StepMoves(cfg, s, x, id);
    }
    StillPlaces(cfg, s0, q, s, m, x);
    StillQueued(s0, q, s, m, x);
    forall id | id in x.u.reqs ensures !At(x.u.reqs, id).cancelled {
      MovesKeeps(s, x, id);
    }
  }

  lemma StillPlaces(cfg: Cfg, s0: St, q: seq<Id>, s: St, m: nat, x: Trace)
    requires Inv(cfg, s) && Inv(cfg, x.u) && NobodyLeaves(s) && NoDup(q)
    requires PlacesOk(s0, q, s, m) && OnlyQueued(s0, q, s, m) && forall id :: Moves(s, x, id)
    requires m + |x.batch| <= |q| && x.batch == q[m..m + |x.batch|]
    ensures PlacesOk(s0, q, x.u, m + |x.batch|)
  {
    hide Inv, PlaceOk, Later, Complete?, Moves, NoDup, ReqOk, NobodyLeaves;
    var m' := m + |x.batch|;
    forall k | 0 <= k < |q| ensures PlaceOk(s0, q, x.u, m', k) {
      BatchMember(q, m, x.batch, k);
      assert Moves(s, x, q[k]);
      MovesKeeps(s, x, q[k]);
      PlaceKnown(s0, q, s, m, k);
      KnownOk(cfg, s, q[k]);
      KnownOk(cfg, x.u, q[k]);
      Staying(s, q[k]);
      NotCancelled(cfg, s, q[k]);
      PlaceMoves(cfg, s0, q, s, m, x, k);
    }
  }

  lemma Staying(s: St, id: Id)
    requires NobodyLeaves(s) && id in s.reqs
    ensures !At(s.reqs, id).cancelled
  {
  }

  lemma StillQueued(s0: St, q: seq<Id>, s: St, m: nat, x: Trace)
    requires OnlyQueued(s0, q, s, m) && forall id :: Moves(s, x, id)
    requires m + |x.batch| <= |q| && x.batch == q[m..m + |x.batch|]
    ensures OnlyQueued(s0, q, x.u, m + |x.batch|)
  {
    hide Moves, Later;
    var m' := m + |x.batch|;
    assert q[..m'] == q[..m] + x.batch;
    forall id ensures Later(At(s0.reqs, id), At(x.u.reqs, id)) {
      MovesKeeps(s, x, id);
      LaterTrans(At(s0.reqs, id), At(s.reqs, id), At(x.u.reqs, id));
    }
    forall id | id in x.u.running ensures id in q[..m'] {
      MovesKeeps(s, x, id);
    }
    forall id | id !in q ensures At(x.u.reqs, id) == At(s0.reqs, id) {
      MovesKeeps(s, x, id);
    }
  }

  lemma MovesKeeps(s: St, x: Trace, id: Id)
    requires Moves(s, x, id)
    ensures id in x.u.reqs <==> id in s.reqs
    ensures At(x.u.reqs, id).cancelled == At(s.reqs, id).cancelled
    ensures Later(At(s.reqs, id), At(x.u.reqs, id))
    ensures id in x.u.running ==> id in s.running || id in x.batch
    ensures id !in s.running && id !in x.batch ==> At(x.u.reqs, id) == At(s.reqs, id)
  {
  }

  lemma PlaceKnown(s0: St, q: seq<Id>, s: St, m: nat, k: nat)
    requires k < |q| && PlaceOk(s0, q, s, m, k)
    ensures q[k] in s.reqs
  {
  }

  lemma BatchMember(q: seq<Id>, m: nat, batch: seq<Id>, k: nat)
    requires NoDup(q) && m + |batch| <= |q| && batch == q[m..m + |batch|] && k < |q|
    ensures q[k] in batch <==> m <= k < m + |batch|
  {
    if m <= k < m + |batch| {
      assert batch[k - m] == q[k];
    }
    if q[k] in batch {
      var j :| 0 <= j < |batch| && batch[j] == q[k];
      assert q[m + j] == q[k];
    }
  }

  // ------------------------------------------------------------------ two engines side by side

  /** No request has more tokens in the first state than in the second. */
  ghost predicate Behind(s: St, t: St) {
    forall id :: Out(s, id) <= Out(t, id)
  }

  /** A prefix of the queue order is complete wherever it is further along. */
  lemma CompleteFollows(cfg: Cfg, r: Req, r': Req)
    requires cfg.Valid() && ReqOk(cfg, r) && ReqOk(cfg, r') && Complete?(r) && |r.output| <= |r'.output|
    requires r'.prompt == r.prompt && r'.maxNew == r.maxNew && r'.ignoreEos == r.ignoreEos
    ensures Complete?(r') && |r'.output| == |r.output|
  {
    CompleteIffLong(cfg, r);
    CompleteIffLong(cfg, r');
  }

  lemma NeverLonger(cfg: Cfg, r: Req, r': Req)
    requires cfg.Valid() && ReqOk(cfg, r) && ReqOk(cfg, r') && Complete?(r')
    requires r'.prompt == r.prompt && r'.maxNew == r.maxNew && r'.ignoreEos == r.ignoreEos
    ensures |r.output| <= |r'.output|
  {
    CompleteIffLong(cfg, r);
    CompleteIffLong(cfg, r');
  }

  lemma SubsetSize(ids: seq<Id>, all: seq<Id>)
    requires NoDup(ids) && forall id :: id in ids ==> id in all
    ensures |ids| <= |all|
  {
    forall id ensures multiset(ids)[id] <= multiset(all)[id] {
      MultisetOfNoDup(ids, id);
      CountPositive(all, id);
    }
    assert multiset(ids) <= multiset(all);
    assert |multiset(all)| == |multiset(all) - multiset(ids)| + |multiset(ids)|;
  }

  /** Sizes around one admission with slots. */
  lemma AdmissionSizes(cfg: Cfg, s: St, x: Trace)
    requires Traces(cfg, s, x) && cfg.backend.Slots?
    ensures cfg.isStatic && x.batch != [] ==> x.r.running == []
    ensures |x.batch| <= Min(cfg.maxBatch, cfg.units)
    ensures !cfg.isStatic ==>
      x.t.waiting == [] || |x.r.running| + |x.batch| >= Min(cfg.maxBatch, cfg.units)
  {
    hide Inv, Starved, RetiredFrom, DecodeRel, Sort, Retire, Admit, Decode, Step;
    SlotsInUse(cfg, x.t);
    assert |x.t.running| == |x.r.running| + |x.batch|;
  }

  /** Everything the static engine took in before its rows drained is complete in both engines. */
  lemma DrainedBoth(a: Cfg, b: Cfg, s0: St, q: seq<Id>, s: St, m: nat, x: Trace, t: St, n: nat, k: nat)
    requires Serving(a, s0, q, s, m) && Traces(a, s, x) && x.r.running == []
    requires Serving(b, s0, q, t, n) && b == a.(isStatic := false)
    requires m <= n && Behind(s, t) && k < m
    ensures Complete?(At(t.reqs, q[k]))
  {
    hide Inv, Traces, Sort, Complete?;
    StepMoves(a, s, x, q[k]);
    assert PlaceOk(s0, q, s, m, k) && PlaceOk(s0, q, t, n, k);
    NotCancelled(a, s, q[k]);
    KnownOk(a, s, q[k]);
    SameOk(a, b, t, q[k]);
    assert Out(s, q[k]) <= Out(t, q[k]);
    assert Later(At(s0.reqs, q[k]), At(s.reqs, q[k])) && Later(At(s0.reqs, q[k]), At(t.reqs, q[k]));
    CompleteFollows(a, At(s.reqs, q[k]), At(t.reqs, q[k]));
  }

  lemma SameOk(a: Cfg, b: Cfg, t: St, id: Id)
    requires Inv(b, t) && id in t.reqs && b == a.(isStatic := false)
    ensures a.Valid() && ReqOk(a, At(t.reqs, id))
  {
    KnownOk(b, t, id);
  }

  /** So what the continuous engine still runs lies beyond that prefix. */
  lemma RunsBeyond(a: Cfg, b: Cfg, s0: St, q: seq<Id>, s: St, m: nat, x: Trace, t: St, n: nat, y: Trace)
    requires Serving(a, s0, q, s, m) && Traces(a, s, x) && x.r.running == []
    requires Serving(b, s0, q, t, n) && Traces(b, t, y) && b == a.(isStatic := false)
    requires m <= n && Behind(s, t)
    ensures |y.r.running| <= n - m
  {
    hide Inv, Traces, Sort, PlacesOk, Complete?, Moves, Behind;
    forall id | id in y.r.running ensures id in q[m..n] {
      StepMoves(b, t, y, id);
      RunningBefore(t, y, id);
      assert id in q[..n];
      var k := IndexOf(q, id);
      if k < m {
        DrainedBoth(a, b, s0, q, s, m, x, t, n, k);
        CompleteIsDone(At(t.reqs, id));
        assert false;
      }
      assert q[m..n][k - m] == id;
    }
    TraceLists(b, t, y);
    SubsetSize(y.r.running, q[m..n]);
  }

  lemma RunningBefore(t: St, y: Trace, id: Id)
    requires Moves(t, y, id) && id in y.r.running
    ensures id in t.running && !At(t.reqs, id).Done()
  {
  }

  lemma CompleteIsDone(r: Req)
    requires Complete?(r)
    ensures r.Done()
  {
  }

  lemma TraceLists(cfg: Cfg, s: St, x: Trace)
    requires Traces(cfg, s, x)
    ensures NoDup(x.r.running)
  {
    InvLists(cfg, x.r);
    ListFacts(x.r, []);
  }

  /** Static batching admits only when its rows have drained; by then the other engine has caught up. */
  lemma CatchesUp(a: Cfg, b: Cfg, s0: St, q: seq<Id>, s: St, m: nat, x: Trace, t: St, n: nat, y: Trace)
    requires Serving(a, s0, q, s, m) && Traces(a, s, x) && a.isStatic
    requires Serving(b, s0, q, t, n) && Traces(b, t, y) && b == a.(isStatic := false)
    requires m <= n && Behind(s, t)
    ensures m + |x.batch| <= n + |y.batch|
  {
    hide Inv, Traces, Sort, PlacesOk, OnlyQueued, Behind;
    BatchIsNext(a, s0, q, s, m, x);
    BatchIsNext(b, s0, q, t, n, y);
    AdmissionSizes(a, s, x);
    AdmissionSizes(b, t, y);
    if x.batch != [] {
      RunsBeyond(a, b, s0, q, s, m, x, t, n, y);
    }
  }

  /** What is known about q[k] in one engine around one step. */
  ghost predicate Around(cfg: Cfg, s0: St, q: seq<Id>, s: St, m: nat, x: Trace, k: nat)
    requires k < |q|
  {
    var r, r' := At(s.reqs, q[k]), At(x.u.reqs, q[k]);
    && cfg.Valid() && ReqOk(cfg, r) && ReqOk(cfg, r')
    && PlaceOk(s0, q, s, m, k) && PlaceOk(s0, q, x.u, m + |x.batch|, k) && Moves(s, x, q[k])
    && Later(At(s0.reqs, q[k]), r) && Later(At(s0.reqs, q[k]), r')
    && (r.Done() <==> Complete?(r))
    && (q[k] in x.batch <==> m <= k < m + |x.batch|)
  }

  lemma AroundStep(cfg: Cfg, s0: St, q: seq<Id>, s: St, m: nat, x: Trace, k: nat)
    requires Serving(cfg, s0, q, s, m) && Traces(cfg, s, x) && k < |q|
    ensures Around(cfg, s0, q, s, m, x, k)
  {
    hide Inv, Traces, Sort, PlaceOk, Moves, Complete?, ReqOk, Later, NoDup;
    StillServing(cfg, s0, q, s, m, x);
    BatchIsNext(cfg, s0, q, s, m, x);
    BatchMember(q, m, x.batch, k);
    StepMoves(cfg, s, x, q[k]);
    assert PlaceOk(s0, q, s, m, k) && PlaceOk(s0, q, x.u, m + |x.batch|, k);
    PlaceKnown(s0, q, s, m, k);
    PlaceKnown(s0, q, x.u, m + |x.batch|, k);
    KnownOk(cfg, s, q[k]);
    KnownOk(cfg, x.u, q[k]);
    Staying(s, q[k]);
    NotCancelled(cfg, s, q[k]);
  }

  /** One request, one step of each engine, seen locally. */
  lemma PlaceBehind(a: Cfg, b: Cfg, s0: St, q: seq<Id>, s: St, m: nat, x: Trace, t: St, n: nat, y: Trace, k: nat)
    requires k < |q| && Around(a, s0, q, s, m, x, k) && Around(b, s0, q, t, n, y, k) && b == a.(isStatic := false)
    requires m <= n && m + |x.batch| <= n + |y.batch| && Out(s, q[k]) <= Out(t, q[k])
    ensures Out(x.u, q[k]) <= Out(y.u, q[k])
  {
    hide ReqOk, Complete?;
    CompleteLater(a, At(s.reqs, q[k]), At(x.u.reqs, q[k]));
    CompleteLater(b, At(t.reqs, q[k]), At(y.u.reqs, q[k]));
    SameReq(a, b, At(y.u.reqs, q[k]));
    if Complete?(At(y.u.reqs, q[k])) {
      NeverLonger(a, At(x.u.reqs, q[k]), At(y.u.reqs, q[k]));
    }
  }

  /** One request, one step of each engine. */
  lemma StaysBehind(a: Cfg, b: Cfg, s0: St, q: seq<Id>, s: St, m: nat, x: Trace, t: St, n: nat, y: Trace, id: Id)
    requires Serving(a, s0, q, s, m) && Traces(a, s, x) && a.isStatic
    requires Serving(b, s0, q, t, n) && Traces(b, t, y) && b == a.(isStatic := false)
    requires m <= n && Behind(s, t)
    ensures Out(x.u, id) <= Out(y.u, id)
  {
    hide Inv, Traces, PlacesOk, Around, Sort;
    StillServing(a, s0, q, s, m, x);
    StillServing(b, s0, q, t, n, y);
    if id in q {
      CatchesUp(a, b, s0, q, s, m, x, t, n, y);
      var k := IndexOf(q, id);
      AroundStep(a, s0, q, s, m, x, k);
      AroundStep(b, s0, q, t, n, y, k);
      assert Out(s, q[k]) <= Out(t, q[k]);
      PlaceBehind(a, b, s0, q, s, m, x, t, n, y, k);
    }
  }

  // ------------------------------------------------------------------ the whole burst

  lemma BurstServing(cfg: Cfg, s0: St)
    requires Inv(cfg, s0) && cfg.backend.Slots? && s0.running == [] && NobodyLeaves(s0)
    ensures Serving(cfg, s0, Sort(s0.reqs, ByWait, s0.waiting), s0, 0)
  {
    hide Core, Complete?, Sort;
    InvLists(cfg, s0);
    ListFacts(s0, []);
    SortMembers(s0.reqs, s0.waiting);
  }

  lemma {:induction false} SideBySide(a: Cfg, b: Cfg, s0: St, q: seq<Id>, s: St, m: nat, t: St, n: nat, steps: nat)
      returns (m': nat, n': nat)
    requires Serving(a, s0, q, s, m) && Serving(b, s0, q, t, n) && a.isStatic && b == a.(isStatic := false)
    requires m <= n && Behind(s, t)
    ensures a.Valid() && StepMany(a, s, steps).Ok? && StepMany(b, t, steps).Ok? && m' <= n'
    ensures Serving(a, s0, q, StepMany(a, s, steps).value, m')
    ensures Serving(b, s0, q, StepMany(b, t, steps).value, n')
    ensures Behind(StepMany(a, s, steps).value, StepMany(b, t, steps).value)
    decreases steps
  {
    hide Inv, Traces, PlacesOk, OnlyQueued, Sort, Step;
    InvValid(a, s);
    if steps == 0 {
      m', n' := m, n;
    } else {
      var x := StepTrace(a, s);
      var y := StepTrace(b, t);
      TraceEnd(a, s, x);
      TraceEnd(b, t, y);
      StillServing(a, s0, q, s, m, x);
      StillServing(b, s0, q, t, n, y);
      CatchesUp(a, b, s0, q, s, m, x, t, n, y);
      forall id ensures Out(x.u, id) <= Out(y.u, id) {
        StaysBehind(a, b, s0, q, s, m, x, t, n, y, id);
      }
      m', n' := SideBySide(a, b, s0, q, x.u, m + |x.batch|, y.u, n + |y.batch|, steps - 1);
    }
  }

  /**
   Continuous batching dominates static batching: for the same burst, with the same slots and nobody
   leaving, after any number of steps every request has at least as many tokens under continuous
   batching, whoever is complete under static is complete, and whoever was admitted was admitted.
   */
  lemma ContinuousDominatesStatic(a: Cfg, s0: St, steps: nat, id: Id)
    requires Inv(a, s0) && a.backend.Slots? && a.isStatic && s0.running == [] && NobodyLeaves(s0)
    ensures a.Valid() && a.(isStatic := false).Valid()
    ensures StepMany(a, s0, steps).Ok? && StepMany(a.(isStatic := false), s0, steps).Ok?
    ensures var s, t := StepMany(a, s0, steps).value, StepMany(a.(isStatic := false), s0, steps).value;
      && At(s.reqs, id).output <= At(t.reqs, id).output
      && (Complete?(At(s.reqs, id)) ==> Complete?(At(t.reqs, id)))
      && (id in t.waiting ==> id in s.waiting)
  {
    hide Core, PlacesOk, OnlyQueued, Sort, StepMany, Complete?;
    var b := a.(isStatic := false);
    var q := Sort(s0.reqs, ByWait, s0.waiting);
    InvValid(a, s0);
    SameInv(a, b, s0);
    BurstServing(a, s0);
    BurstServing(b, s0);
    var m, n := SideBySide(a, b, s0, q, s0, 0, s0, 0, steps);
    var s, t := StepMany(a, s0, steps).value, StepMany(b, s0, steps).value;
    StillWaiting(a, b, s0, q, s, m, t, n, id);
    ServedAlike(a, b, s0, q, s, m, t, n, id);
  }

  lemma SameInv(a: Cfg, b: Cfg, s: St)
    requires Inv(a, s) && b == a.(isStatic := false)
    ensures Inv(b, s)
  {
    hide ListsOk, ReqsOk, WaitersOk, RunnersOk, OthersOk, AdmitOrder, PoolOk, Holders;
    SameRequests(a, b, s.reqs);
    SameRunners(a, b, s);
    assert PoppedsOk(b, s, []);
  }

  lemma SameRequests(a: Cfg, b: Cfg, reqs: map<Id, Req>)
    requires a.Valid() && b == a.(isStatic := false) && b.Valid() && ReqsOk(a, reqs)
    ensures ReqsOk(b, reqs)
  {
    hide ReqOk;
    forall id | id in reqs ensures ReqOk(b, At(reqs, id)) {
      SameReq(a, b, At(reqs, id));
    }
  }

  lemma SameReq(a: Cfg, b: Cfg, r: Req)
    requires a.Valid() && b == a.(isStatic := false) && b.Valid()
    ensures ReqOk(a, r) <==> ReqOk(b, r)
  {
  }

  lemma SameRunners(a: Cfg, b: Cfg, s: St)
    requires a.Valid() && b == a.(isStatic := false) && b.Valid() && RunnersOk(a, s, {})
    ensures RunnersOk(b, s, {})
  {
    hide Holds;
    forall id | id in s.running ensures RunningOk(b, s.pool, At(s.reqs, id), id in {}) {
      assert RunningOk(a, s.pool, At(s.reqs, id), id in {});
    }
  }

  lemma StillWaiting(a: Cfg, b: Cfg, s0: St, q: seq<Id>, s: St, m: nat, t: St, n: nat, id: Id)
    requires Serving(a, s0, q, s, m) && Serving(b, s0, q, t, n) && m <= n
    ensures id in t.waiting ==> id in s.waiting
  {
    hide Core, PlacesOk, OnlyQueued, Sort;
    SortMemberOf(s.reqs, s.waiting);
    SortMemberOf(t.reqs, t.waiting);
    if id in t.waiting {
      var k := IndexOf(q[n..], id);
      assert q[m..][n - m + k] == id;
    }
  }

  /** Both outputs lie on the way to the same reference, so the shorter is a prefix of the longer. */
  lemma ServedAlike(a: Cfg, b: Cfg, s0: St, q: seq<Id>, s: St, m: nat, t: St, n: nat, id: Id)
    requires Serving(a, s0, q, s, m) && Serving(b, s0, q, t, n) && b == a.(isStatic := false)
    requires Behind(s, t)
    ensures At(s.reqs, id).output <= At(t.reqs, id).output
    ensures Complete?(At(s.reqs, id)) ==> Complete?(At(t.reqs, id))
  {
    hide Inv, Sort, Complete?;
    if id in q {
      var k := IndexOf(q, id);
      assert PlaceOk(s0, q, s, m, k) && PlaceOk(s0, q, t, n, k);
      RequestOutput(a, s, id);
      RequestOutput(b, t, id);
      KnownOk(a, s, id);
      SameOk(a, b, t, id);
      assert Out(s, id) <= Out(t, id);
      if Complete?(At(s.reqs, id)) {
        CompleteFollows(a, At(s.reqs, id), At(t.reqs, id));
      }
    }
  }
}
