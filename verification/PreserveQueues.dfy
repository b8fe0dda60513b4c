/** Retiring, queueing and admitting keep the invariant. */
module PreserveQueues {
  import opened Prelude
  import opened Transformer
  import opened Storage
  import opened Forward
  import opened Scheduling
  import opened Lists
  import opened Invariant

  // ------------------------------------------------------------------ admission order

  lemma {:induction false} OrderWithout(reqs: map<Id, Req>, ids: seq<Id>, drop: set<Id>, n: nat)
    requires AdmitOrder(reqs, ids, n)
    ensures AdmitOrder(reqs, Without(ids, drop), n)
    ensures ids != [] ==> forall id :: id in Without(Init(ids), drop) ==> At(reqs, id).admitSeq < At(reqs, Last(ids)).admitSeq
  {
    if ids != [] {
      OrderWithout(reqs, Init(ids), drop, n);
      var w := Without(Init(ids), drop);
      forall id | id in w ensures At(reqs, id).admitSeq < At(reqs, Last(ids)).admitSeq {
        WithoutMember(Init(ids), drop, id);
        var k := IndexOf(Init(ids), id);
        assert ids[k] == id;
      }
    }
  }

  lemma OrderFrame(reqs: map<Id, Req>, reqs': map<Id, Req>, ids: seq<Id>, n: nat)
    requires AdmitOrder(reqs, ids, n)
    requires forall id :: id in ids ==> At(reqs', id).admitSeq == At(reqs, id).admitSeq
    ensures AdmitOrder(reqs', ids, n)
  {
    assert forall i :: 0 <= i < |ids| ==> ids[i] in ids;
  }

  // ------------------------------------------------------------------ frames

  lemma MemFrame(cfg: Cfg, free: seq<nat>, reqs: map<Id, Req>, reqs': map<Id, Req>, hs: seq<Id>)
    requires MemOk(cfg, free, reqs, hs)
    requires forall id :: id in hs ==> At(reqs', id).table == At(reqs, id).table
    ensures MemOk(cfg, free, reqs', hs)
  {
    HeldFrame(reqs, reqs', hs);
  }

  lemma CommitFrame(cfg: Cfg, committed: map<Id, int>, reqs: map<Id, Req>, reqs': map<Id, Req>, hs: seq<Id>)
    requires cfg.Valid() && CommitOk(cfg, committed, reqs, hs)
    requires forall id :: id in hs ==> At(reqs', id).prompt == At(reqs, id).prompt && At(reqs', id).maxNew == At(reqs, id).maxNew
    ensures CommitOk(cfg, committed, reqs', hs)
  {
  }

  // ------------------------------------------------------------------ retire

  /** A request that leaves the running queue. */
  function Released(r: Req): Req {
    r.(phase := Finished, table := [])
  }

  /** t is s after the finished requests among ids were freed; hs lists every holder of memory. */
  ghost predicate ReleasedFrom(s: St, t: St, ids: seq<Id>, hs: seq<Id>) {
    && t == s.(reqs := t.reqs, free := t.free, committed := s.committed - DoneOf(s.reqs, ids))
    && (forall id :: id in t.reqs <==> id in s.reqs)
    && (forall id :: id in ids ==> At(t.reqs, id) == if At(s.reqs, id).Done() then Released(At(s.reqs, id)) else At(s.reqs, id))
    && (forall id :: id !in ids ==> At(t.reqs, id) == At(s.reqs, id))
    && multiset(t.free) + Held(t.reqs, hs) == multiset(s.free) + Held(s.reqs, hs)
  }

  lemma {:induction false} ReleaseFacts(s: St, ids: seq<Id>, hs: seq<Id>)
    requires NoDup(ids) && NoDup(hs) && (forall id :: id in ids ==> id in s.reqs && id in hs)
    ensures ReleasedFrom(s, Release(s, ids), ids, hs)
  {
    if ids == [] {
      assert s.committed - {} == s.committed;
    } else {
      Snoc(ids);
      assert forall id :: id in Init(ids) ==> id in ids;
      ReleaseFacts(s, Init(ids), hs);
      var id, t := Last(ids), Release(s, Init(ids));
      assert id in ids;
      NoDupSnoc(ids);
      if At(s.reqs, id).Done() {
        ReleaseOne(s, t, ids, hs);
        assert Release(s, ids) == Free(t.(reqs := t.reqs[id := At(t.reqs, id).(phase := Finished)]), id);
      } else {
        assert DoneOf(s.reqs, ids) == DoneOf(s.reqs, Init(ids));
        assert Release(s, ids) == t;
      }
    }
  }

  lemma NoDupSnoc(ids: seq<Id>)
    requires NoDup(ids) && ids != []
    ensures Last(ids) !in Init(ids) && NoDup(Init(ids))
  {
  }

  /** Freeing one holder's table takes exactly that table out of what the holders have. */
  lemma HeldGivesBack(reqs: map<Id, Req>, hs: seq<Id>, id: Id, r: Req)
    requires NoDup(hs) && id in hs && At(reqs, id) == r
    ensures Held(reqs[id := r.(phase := Finished)][id := Released(r)], hs) + multiset(r.table) == Held(reqs, hs)
  {
    HeldFrame(reqs, reqs[id := r.(phase := Finished)], hs);
    HeldUpdate(reqs[id := r.(phase := Finished)], hs, id, Released(r));
    assert multiset(Released(r).table) == multiset{};
  }

  lemma ReleaseOne(s: St, t: St, ids: seq<Id>, hs: seq<Id>)
    requires ids != [] && NoDup(hs) && Last(ids) in s.reqs && Last(ids) in hs && Last(ids) !in Init(ids)
    requires forall id :: id in ids <==> id in Init(ids) || id == Last(ids)
    requires At(s.reqs, Last(ids)).Done() && ReleasedFrom(s, t, Init(ids), hs)
    ensures ReleasedFrom(s, Free(t.(reqs := t.reqs[Last(ids) := At(t.reqs, Last(ids)).(phase := Finished)]), Last(ids)), ids, hs)
  {
    hide Held, NoDup;
    var id := Last(ids);
    var r := At(s.reqs, id);
    DoneGrows(s, ids);
    FreeMovesUnits(t, id, hs);
    assert At(t.reqs, id) == r;
  }

  lemma DoneGrows(s: St, ids: seq<Id>)
    requires ids != [] && At(s.reqs, Last(ids)).Done() && forall id :: id in ids <==> id in Init(ids) || id == Last(ids)
    ensures s.committed - DoneOf(s.reqs, Init(ids)) - {Last(ids)} == s.committed - DoneOf(s.reqs, ids)
  {
    assert DoneOf(s.reqs, ids) == DoneOf(s.reqs, Init(ids)) + {Last(ids)};
  }

  /** Freeing moves a table from the holders to the free list. */
  lemma FreeMovesUnits(t: St, id: Id, hs: seq<Id>)
    requires NoDup(hs) && id in hs
    ensures var t' := Free(t.(reqs := t.reqs[id := At(t.reqs, id).(phase := Finished)]), id);
      multiset(t'.free) + Held(t'.reqs, hs) == multiset(t.free) + Held(t.reqs, hs)
  {
    var r := At(t.reqs, id);
    HeldGivesBack(t.reqs, hs, id, r);
    ReverseMultiset(r.table);
    assert multiset(t.free + Reverse(r.table)) == multiset(t.free) + multiset(r.table);
    var t' := Free(t.(reqs := t.reqs[id := r.(phase := Finished)]), id);
    assert t'.reqs == t.reqs[id := r.(phase := Finished)][id := Released(r)];
  }

  lemma {:induction false} SumShrinks(m: map<Id, int>, drop: set<Id>)
    requires forall id :: id in m ==> m[id] >= 0
    ensures SumOf(m - drop) <= SumOf(m)
    decreases |m|
  {
    hide SumOf;
    if drop * m.Keys == {} {
      assert m - drop == m;
    } else {
      var k :| k in drop * m.Keys;
      SumOfRemove(m, k);
      MinusTwice(m, k, drop);
      SumShrinks(m - {k}, drop);
    }
  }

  lemma MinusTwice(m: map<Id, int>, k: Id, drop: set<Id>)
    requires k in drop && k in m
    ensures m - {k} - drop == m - drop && |m - {k}| < |m|
    ensures forall id :: id in m - {k} ==> id in m && (m - {k})[id] == m[id]
  {
    assert (m - {k})[k := m[k]] == m;
  }

  /** Requests that the retire phase takes out of the running queue. */
  ghost function Leaving(s: St): set<Id> {
    set id | id in s.running && (At(s.reqs, id).Done() || At(s.reqs, id).cancelled)
  }

  /** What a request looks like once it left. */
  function Left(r: Req): Req {
    Released(if r.Done() then r else r.(reason := Some(Cancelled)))
  }

  /** t is s after a retire phase, described field by field. */
  ghost predicate RetiredFrom(s: St, t: St) {
    && t.waiting == Without(s.waiting, CancelledOf(s.reqs, s.waiting))
    && t.running == Without(s.running, Leaving(s))
    && t == s.(waiting := t.waiting, running := t.running, reqs := t.reqs, free := t.free, committed := s.committed - Leaving(s))
    && (forall id :: id in t.reqs <==> id in s.reqs)
    && (forall id :: id in Leaving(s) ==> At(t.reqs, id) == Left(At(s.reqs, id)))
    && (forall id :: id !in Leaving(s) ==> At(t.reqs, id) == At(s.reqs, id))
    && multiset(t.free) + Held(t.reqs, s.running) == multiset(s.free) + Held(s.reqs, s.running)
  }

  ghost function Marked(s: St): St {
    s.(waiting := Without(s.waiting, CancelledOf(s.reqs, s.waiting)), reqs := MarkCancelled(s.reqs, s.running))
  }

  lemma RetireFacts(s: St)
    requires ListsOk(s, [])
    ensures RetiredFrom(s, Retire(s))
  {
    ListFacts(s, []);
    var s1 := Marked(s);
    ReleaseFacts(s1, s.running, s.running);
    HeldFrame(s.reqs, s1.reqs, s.running);
    RetireShape(s);
    RetiredIds(s, s1, Release(s1, s.running));
  }

  lemma RetireShape(s: St)
    requires forall id :: id in s.running ==> id in s.reqs
    requires ReleasedFrom(Marked(s), Release(Marked(s), s.running), s.running, s.running)
    ensures var t := Retire(s);
      && t == Release(Marked(s), s.running).(running := Without(s.running, Leaving(s)))
      && t.waiting == Without(s.waiting, CancelledOf(s.reqs, s.waiting))
      && t == s.(waiting := t.waiting, running := t.running, reqs := t.reqs, free := t.free, committed := s.committed - Leaving(s))
  {
    assert DoneOf(Marked(s).reqs, s.running) == Leaving(s);
  }

  lemma RetiredIds(s: St, s1: St, t: St)
    requires ListsOk(s, []) && s1.reqs == MarkCancelled(s.reqs, s.running) && s1.running == s.running
    requires ReleasedFrom(s1, t, s.running, s.running)
    ensures forall id :: id in t.reqs <==> id in s.reqs
    ensures forall id :: id in Leaving(s) ==> At(t.reqs, id) == Left(At(s.reqs, id))
    ensures forall id :: id !in Leaving(s) ==> At(t.reqs, id) == At(s.reqs, id)
  {
    ListFacts(s, []);
    forall id
      ensures id in t.reqs <==> id in s.reqs
      ensures id in Leaving(s) ==> At(t.reqs, id) == Left(At(s.reqs, id))
      ensures id !in Leaving(s) ==> At(t.reqs, id) == At(s.reqs, id)
    {
      if id in s.reqs {
        assert At(s1.reqs, id) == s1.reqs[id];
      }
    }
  }

  lemma LeftReqOk(cfg: Cfg, r: Req)
    requires cfg.Valid() && ReqOk(cfg, r) && (r.Done() || r.cancelled)
    ensures ReqOk(cfg, Left(r))
  {
    var r' := Left(r);
    assert Complete?(r') == Complete?(r);
    assert OutputOk(cfg.net, r');
    forall k | 0 <= k < |r'.sent| ensures r'.sent[k] == (r'.output[k], k == |r'.output| - 1 && Complete?(r')) {
      assert r.sent[k] == (r.output[k], k == |r.output| - 1 && Complete?(r));
    }
  }

  lemma RetiredRequests(cfg: Cfg, s: St, t: St)
    requires cfg.Valid() && ReqsOk(cfg, s.reqs) && RetiredFrom(s, t)
    ensures ReqsOk(cfg, t.reqs)
  {
    hide ReqOk;
    forall id | id in t.reqs ensures ReqOk(cfg, At(t.reqs, id)) {
      assert ReqOk(cfg, At(s.reqs, id));
      if id in Leaving(s) {
        LeftReqOk(cfg, At(s.reqs, id));
      }
    }
  }

  lemma RetiredMembers(s: St, t: St)
    requires RetiredFrom(s, t)
    ensures forall id :: id in t.waiting <==> id in s.waiting && !At(s.reqs, id).cancelled
    ensures forall id :: id in t.running <==> id in s.running && id !in Leaving(s)
  {
    forall id
      ensures id in t.waiting <==> id in s.waiting && !At(s.reqs, id).cancelled
      ensures id in t.running <==> id in s.running && id !in Leaving(s)
    {
      WithoutMember(s.waiting, CancelledOf(s.reqs, s.waiting), id);
      WithoutMember(s.running, Leaving(s), id);
    }
  }

  lemma RetiredLists(s: St, t: St)
    requires ListsOk(s, []) && RetiredFrom(s, t)
    ensures ListsOk(t, [])
  {
    assert Holders(s, []) == s.running && Holders(t, []) == t.running;
    forall id ensures Queued(t, [])[id] <= 1 && (Queued(t, [])[id] > 0 ==> id in t.reqs) {
      WithoutCount(s.waiting, CancelledOf(s.reqs, s.waiting), id);
      WithoutCount(s.running, Leaving(s), id);
      assert Queued(s, [])[id] <= 1;
    }
  }

  lemma RetiredRoles(cfg: Cfg, s: St, t: St)
    requires cfg.Valid() && ListsOk(s, []) && RetiredFrom(s, t)
    requires WaitersOk(s) && RunnersOk(cfg, s, {}) && OthersOk(s, [])
    ensures WaitersOk(t) && RunnersOk(cfg, t, {}) && OthersOk(t, [])
  {
    hide RunningOk, WaitingOk, GoneOk, Left, ListsOk;
    ListFacts(s, []);
    RetiredMembers(s, t);
    forall id | id in t.waiting ensures WaitingOk(At(t.reqs, id)) && At(t.reqs, id).table == [] {
      assert WaitingOk(At(s.reqs, id));
    }
    forall id | id in t.running ensures RunningOk(cfg, t.pool, At(t.reqs, id), false) {
      assert RunningOk(cfg, s.pool, At(s.reqs, id), false);
    }
    RetiredGone(s, t);
  }

  lemma RetiredGone(s: St, t: St)
    requires ListsOk(s, []) && RetiredFrom(s, t) && WaitersOk(s) && OthersOk(s, [])
    ensures OthersOk(t, [])
  {
    hide WaitingOk, ListsOk;
    ListFacts(s, []);
    RetiredMembers(s, t);
    forall id | id in t.reqs && id !in t.waiting && id !in t.running ensures GoneOk(At(t.reqs, id)) {
      if id in Leaving(s) {
        assert GoneOk(Left(At(s.reqs, id)));
      } else if id in s.waiting {
        assert At(s.reqs, id).table == [];
      } else {
        assert GoneOk(At(s.reqs, id));
      }
    }
  }

  lemma RetiredCommit(cfg: Cfg, s: St, t: St)
    requires cfg.Valid() && ListsOk(s, []) && RetiredFrom(s, t) && ReqsOk(cfg, s.reqs)
    requires CommitOk(cfg, s.committed, s.reqs, s.running)
    ensures CommitOk(cfg, t.committed, t.reqs, t.running)
  {
    hide ListsOk, ReqOk, Worst, RetiredFrom, SumOf, Leaving;
    ListFacts(s, []);
    RetiredMembers(s, t);
    RetiredCommitted(s, t);
    if !cfg.backend.Slots? {
      WorstKept(cfg, s, t);
    }
    if cfg.backend.Reserve? {
      forall id | id in s.committed ensures s.committed[id] >= 0 {
        WorstNonNegative(cfg, At(s.reqs, id));
      }
      SumShrinks(s.committed, Leaving(s));
    }
  }

  lemma RetiredCommitted(s: St, t: St)
    requires RetiredFrom(s, t)
    ensures t.committed == s.committed - Leaving(s)
  {
  }

  lemma WorstNonNegative(cfg: Cfg, r: Req)
    requires cfg.Valid() && cfg.backend.Reserve? && ReqOk(cfg, r)
    ensures Worst(cfg, r) >= 0
  {
    UnitsForMonotone(cfg.cap, 0, |r.prompt|);
  }

  lemma WorstKept(cfg: Cfg, s: St, t: St)
    requires cfg.Valid() && RetiredFrom(s, t) && forall id :: id in s.committed ==> s.committed[id] == Worst(cfg, At(s.reqs, id))
    ensures forall id :: id in t.committed ==> t.committed[id] == Worst(cfg, At(t.reqs, id))
  {
    hide Worst;
    forall id | id in t.committed ensures t.committed[id] == Worst(cfg, At(t.reqs, id)) {
      assert At(t.reqs, id) == At(s.reqs, id);
    }
  }

  lemma RetiredMem(cfg: Cfg, s: St, t: St)
    requires ListsOk(s, []) && RetiredFrom(s, t) && MemOk(cfg, s.free, s.reqs, s.running)
    ensures MemOk(cfg, t.free, t.reqs, t.running)
  {
    HeldWithout(t.reqs, s.running, Leaving(s));
  }

  lemma RetiredOrder(s: St, t: St)
    requires RetiredFrom(s, t) && AdmitOrder(s.reqs, s.running, s.nextAdmit)
    ensures AdmitOrder(t.reqs, t.running, t.nextAdmit)
  {
    OrderFrame(s.reqs, t.reqs, s.running, s.nextAdmit);
    OrderWithout(t.reqs, s.running, Leaving(s), s.nextAdmit);
  }

  /** The retire phase keeps the invariant. */
  lemma RetireKeepsInv(cfg: Cfg, s: St)
    requires Inv(cfg, s)
    ensures Inv(cfg, Retire(s)) && RetiredFrom(s, Retire(s))
  {
    hide RetiredFrom, ReqsOk, WaitersOk, RunnersOk, OthersOk, MemOk, CommitOk, AdmitOrder, ListsOk, Retire;
    var t := Retire(s);
    assert Holders(s, []) == s.running && Holders(t, []) == t.running;
    RetireFacts(s);
    RetiredLists(s, t);
    RetiredRequests(cfg, s, t);
    RetiredRoles(cfg, s, t);
    RetiredOrder(s, t);
    RetiredMem(cfg, s, t);
    RetiredCommit(cfg, s, t);
    RetiredPool(s, t);
  }

  lemma RetiredPool(s: St, t: St)
    requires RetiredFrom(s, t)
    ensures t.pool == s.pool
  {
  }

  // ------------------------------------------------------------------ queue order, submit, cancel

  lemma SortKeepsCore(cfg: Cfg, s: St)
    requires Inv(cfg, s)
    ensures Inv(cfg, s.(waiting := Sort(s.reqs, ByWait, s.waiting)))
  {
    var t := s.(waiting := Sort(s.reqs, ByWait, s.waiting));
    SortCount(s.reqs, ByWait, s.waiting);
    assert Holders(t, []) == Holders(s, []);
    assert Queued(t, []) == Queued(s, []);
    forall id ensures id in t.waiting <==> id in s.waiting {
      CountPositive(t.waiting, id);
      CountPositive(s.waiting, id);
    }
  }

  /** What may be submitted: a new request with a prompt, whose reservation (if any) covers the prompt. */
  ghost predicate Acceptable(cfg: Cfg, r: Req) {
    && cfg.Valid()
    && 1 <= |r.prompt| < MAX_CONTEXT
    && ReservesPrompt(cfg, r.(maxNew := Min(r.maxNew, MAX_CONTEXT - |r.prompt|)))
    && r.output == [] && r.sent == [] && r.reason == None && r.table == [] && r.preempts == 0 && !r.cancelled
  }

  lemma SubmitKeepsInv(cfg: Cfg, s: St, id: Id, r: Req)
    requires Inv(cfg, s) && id !in s.reqs && Acceptable(cfg, r)
    ensures Inv(cfg, Submit(s, id, r))
  {
    hide ReqsOk, WaitersOk, RunnersOk, OthersOk, MemOk, CommitOk, AdmitOrder, ListsOk, PoolOk, ReqOk, Held;
    var t := Submit(s, id, r);
    assert Holders(t, []) == Holders(s, []) == s.running;
    SubmitLists(s, id, r);
    SubmitRequests(cfg, s, id, r);
    SubmitRoles(cfg, s, id, r);
    SubmitRest(cfg, s, id, r);
  }

  lemma SubmitRequests(cfg: Cfg, s: St, id: Id, r: Req)
    requires cfg.Valid() && ReqsOk(cfg, s.reqs) && Acceptable(cfg, r)
    ensures ReqsOk(cfg, Submit(s, id, r).reqs)
  {
    assert ReqOk(cfg, r.(maxNew := Min(r.maxNew, MAX_CONTEXT - |r.prompt|), phase := Waiting));
    SubmitRequestsLift(cfg, s, id, r);
  }

  lemma SubmitRequestsLift(cfg: Cfg, s: St, id: Id, r: Req)
    requires cfg.Valid() && ReqsOk(cfg, s.reqs)
    requires ReqOk(cfg, r.(maxNew := Min(r.maxNew, MAX_CONTEXT - |r.prompt|), phase := Waiting))
    ensures ReqsOk(cfg, Submit(s, id, r).reqs)
  {
    hide ReqOk;
  }

  lemma SubmitRest(cfg: Cfg, s: St, id: Id, r: Req)
    requires cfg.Valid() && ListsOk(s, []) && id !in s.reqs
    requires AdmitOrder(s.reqs, s.running, s.nextAdmit) && MemOk(cfg, s.free, s.reqs, s.running)
    requires CommitOk(cfg, s.committed, s.reqs, s.running)
    ensures var t := Submit(s, id, r);
      AdmitOrder(t.reqs, t.running, t.nextAdmit) && MemOk(cfg, t.free, t.reqs, t.running)
      && CommitOk(cfg, t.committed, t.reqs, t.running) && t.pool == s.pool
  {
    hide MemOk, CommitOk, AdmitOrder, ListsOk;
    ListFacts(s, []);
    var t := Submit(s, id, r);
    OrderFrame(s.reqs, t.reqs, s.running, s.nextAdmit);
    MemFrame(cfg, s.free, s.reqs, t.reqs, s.running);
    CommitFrame(cfg, s.committed, s.reqs, t.reqs, s.running);
  }

  lemma SubmitLists(s: St, id: Id, r: Req)
    requires ListsOk(s, []) && id !in s.reqs
    ensures ListsOk(Submit(s, id, r), [])
  {
    var t := Submit(s, id, r);
    assert Holders(t, []) == Holders(s, []);
    assert multiset(t.waiting) == multiset(s.waiting) + multiset{id};
    forall x: Id ensures Queued(t, [])[x] <= 1 && (Queued(t, [])[x] > 0 ==> x in t.reqs) {
      assert Queued(s, [])[x] <= 1 && (Queued(s, [])[x] > 0 ==> x in s.reqs);
    }
  }

  lemma SubmitRoles(cfg: Cfg, s: St, id: Id, r: Req)
    requires cfg.Valid() && ListsOk(s, []) && WaitersOk(s) && RunnersOk(cfg, s, {}) && OthersOk(s, [])
    requires id !in s.reqs && Acceptable(cfg, r)
    ensures var t := Submit(s, id, r); WaitersOk(t) && RunnersOk(cfg, t, {}) && OthersOk(t, [])
  {
    hide RunningOk;
    ListFacts(s, []);
  }

  /** Setting the flag of a disconnected client keeps the invariant. */
  lemma CancelKeepsInv(cfg: Cfg, s: St, id: Id)
    requires Inv(cfg, s)
    ensures Inv(cfg, Cancel(s, id))
  {
    hide ReqsOk, WaitersOk, RunnersOk, OthersOk, MemOk, CommitOk, AdmitOrder, ListsOk, PoolOk, Held;
    if id in s.reqs {
      var t := Cancel(s, id);
      assert Holders(t, []) == Holders(s, []) == s.running;
      CancelLists(s, id);
      CancelRequests(cfg, s, id);
      CancelRoles(cfg, s, id);
      CancelRest(cfg, s, id);
    }
  }

  lemma CancelRest(cfg: Cfg, s: St, id: Id)
    requires cfg.Valid() && AdmitOrder(s.reqs, s.running, s.nextAdmit) && MemOk(cfg, s.free, s.reqs, s.running)
    requires CommitOk(cfg, s.committed, s.reqs, s.running) && id in s.reqs
    ensures var t := Cancel(s, id);
      AdmitOrder(t.reqs, t.running, t.nextAdmit) && MemOk(cfg, t.free, t.reqs, t.running)
      && CommitOk(cfg, t.committed, t.reqs, t.running) && t.pool == s.pool
  {
    hide MemOk, CommitOk, AdmitOrder;
    var t := Cancel(s, id);
    OrderFrame(s.reqs, t.reqs, s.running, s.nextAdmit);
    MemFrame(cfg, s.free, s.reqs, t.reqs, s.running);
    CommitFrame(cfg, s.committed, s.reqs, t.reqs, s.running);
  }

  lemma CancelLists(s: St, id: Id)
    requires ListsOk(s, []) && id in s.reqs
    ensures ListsOk(Cancel(s, id), [])
  {
    var t := Cancel(s, id);
    assert Queued(t, []) == Queued(s, []);
    forall x: Id ensures Queued(t, [])[x] <= 1 && (Queued(t, [])[x] > 0 ==> x in t.reqs) {
      assert Queued(s, [])[x] <= 1 && (Queued(s, [])[x] > 0 ==> x in s.reqs);
    }
  }

  lemma CancelRequests(cfg: Cfg, s: St, id: Id)
    requires cfg.Valid() && ReqsOk(cfg, s.reqs) && id in s.reqs
    ensures ReqsOk(cfg, Cancel(s, id).reqs)
  {
    var r := s.reqs[id];
    assert ReqOk(cfg, At(s.reqs, id));
    assert ReqOk(cfg, r.(cancelled := true));
    CancelRequestsLift(cfg, s, id);
  }

  lemma CancelRequestsLift(cfg: Cfg, s: St, id: Id)
    requires cfg.Valid() && ReqsOk(cfg, s.reqs) && id in s.reqs && ReqOk(cfg, s.reqs[id].(cancelled := true))
    ensures ReqsOk(cfg, Cancel(s, id).reqs)
  {
    hide ReqOk;
  }

  lemma CancelRoles(cfg: Cfg, s: St, id: Id)
    requires cfg.Valid() && WaitersOk(s) && RunnersOk(cfg, s, {}) && OthersOk(s, []) && id in s.reqs
    ensures var t := Cancel(s, id); WaitersOk(t) && RunnersOk(cfg, t, {}) && OthersOk(t, [])
  {
    var t := Cancel(s, id);
    forall x | x in t.running ensures RunningOk(cfg, t.pool, At(t.reqs, x), false) {
      assert RunningOk(cfg, s.pool, At(s.reqs, x), false);
    }
    forall x | x in t.reqs && x !in t.waiting && x !in t.running ensures GoneOk(At(t.reqs, x)) {
      assert GoneOk(At(s.reqs, x));
    }
  }

  // ------------------------------------------------------------------ admission

  /** Worst-case commitments bound what holders actually have. */
  lemma {:induction false} HeldBound(cfg: Cfg, committed: map<Id, int>, reqs: map<Id, Req>, hs: seq<Id>)
    requires NoDup(hs) && (forall id :: id in committed <==> id in hs)
    requires forall id :: id in hs ==> |At(reqs, id).table| <= committed[id]
    ensures |Held(reqs, hs)| <= SumOf(committed)
  {
    if hs == [] {
      assert committed == map[];
    } else {
      var id := Last(hs);
      Snoc(hs);
      NoDupSnoc(hs);
      assert id in hs && forall x :: x in hs <==> x in Init(hs) || x == id;
      SumOfRemove(committed, id);
      HeldBound(cfg, committed - {id}, reqs, Init(hs));
      assert |Held(reqs, hs)| == |Held(reqs, Init(hs))| + |multiset(At(reqs, id).table)|;
    }
  }

  /** An unfinished request has stored no more tokens than its worst case provides for. */
  lemma NeedWithinWorst(cfg: Cfg, r: Req, n: nat)
    requires cfg.Valid() && cfg.backend.Reserve? && ReqOk(cfg, r) && n <= |r.prompt| + Max(r.maxNew, 0)
    ensures 0 <= Need(cfg, n) <= Worst(cfg, r)
  {
    UnitsForMonotone(cfg.cap, n, |r.prompt| + Max(r.maxNew, 0));
  }

  lemma HolderWithin(cfg: Cfg, s: St, popped: seq<Id>, id: Id)
    requires cfg.Valid() && cfg.backend.Reserve? && ReqsOk(cfg, s.reqs) && id in s.reqs
    requires RunnersOk(cfg, s, {}) && PoppedsOk(cfg, s, popped) && (id in s.running || id in popped)
    ensures |At(s.reqs, id).table| <= Worst(cfg, At(s.reqs, id))
  {
    var r := At(s.reqs, id);
    assert ReqOk(cfg, r);
    if id in s.running {
      assert RunningOk(cfg, s.pool, r, false);
      NeedWithinWorst(cfg, r, r.SeqLen() - 1);
    } else {
      assert PoppedOk(cfg, r);
      NeedWithinWorst(cfg, r, r.SeqLen());
    }
  }

  /** In reserve mode nobody holds more than was committed for them. */
  lemma HoldersWithinCommitment(cfg: Cfg, s: St, popped: seq<Id>)
    requires Core(cfg, s, popped, {}) && cfg.backend.Reserve?
    ensures |s.free| >= cfg.units - SumOf(s.committed)
  {
    hide ReqsOk, WaitersOk, RunnersOk, PoppedsOk, OthersOk, MemOk, AdmitOrder, ListsOk, PoolOk, Worst, SumOf, Held;
    ListFacts(s, popped);
    var hs := Holders(s, popped);
    forall id | id in hs ensures |At(s.reqs, id).table| <= s.committed[id] {
      HolderWithin(cfg, s, popped, id);
    }
    HeldBound(cfg, s.committed, s.reqs, hs);
    FreeCount(cfg, s.free, s.reqs, hs);
  }

  /** can_allocate is enough: the assertion inside allocate never fails, in any mode. */
  lemma CanAllocateSuffices(cfg: Cfg, s: St, popped: seq<Id>, id: Id, headroom: nat)
    requires Core(cfg, s, popped, {}) && id in s.waiting && CanAllocate(cfg, s, id, headroom)
    ensures 1 <= Need(cfg, At(s.reqs, id).SeqLen()) <= |s.free|
    ensures cfg.backend.Preempting? ==> |s.free| >= Need(cfg, At(s.reqs, id).SeqLen()) + headroom
  {
    ListFacts(s, popped);
    var r := At(s.reqs, id);
    assert ReqOk(cfg, r) && WaitingOk(r);
    NeedMonotone(cfg, 1, r.SeqLen());
    UnitsForMonotone(cfg.cap, 0, 0);
    if cfg.backend.Reserve? {
      NeedWithinWorst(cfg, r, r.SeqLen());
      HoldersWithinCommitment(cfg, s, popped);
    }
  }

  /** The head of the queue is given memory and stamped with its admission number. */
  ghost function AdmitHead(cfg: Cfg, s: St): St
    requires cfg.Valid() && s.waiting != []
  {
    var id := s.waiting[0];
    match Allocate(cfg, s.(waiting := s.waiting[1..]), id)
    case Ok(s1) => Stamp(s1, id)
    case Raised(_) => s
  }

  /** t is s after the head of its queue was given `need` units. */
  ghost predicate AdmittedFrom(cfg: Cfg, s: St, t: St, need: nat)
    requires cfg.Valid()
  {
    && s.waiting != [] && need <= |s.free|
    && var id, r := s.waiting[0], At(s.reqs, s.waiting[0]);
    var r' := r.(table := Popped(s.free, need), admitSeq := s.nextAdmit);
    t == s.(waiting := s.waiting[1..], free := s.free[..|s.free| - need], reqs := s.reqs[id := r'],
            nextAdmit := s.nextAdmit + 1,
            committed := if cfg.backend.Slots? then s.committed else s.committed[id := Worst(cfg, r)])
  }

  lemma AdmitHeadFacts(cfg: Cfg, s: St)
    requires cfg.Valid() && s.waiting != [] && 0 <= Need(cfg, At(s.reqs, s.waiting[0]).SeqLen()) <= |s.free|
    ensures Allocate(cfg, s.(waiting := s.waiting[1..]), s.waiting[0]).Ok?
    ensures AdmittedFrom(cfg, s, AdmitHead(cfg, s), Need(cfg, At(s.reqs, s.waiting[0]).SeqLen()))
  {
    var id, r := s.waiting[0], At(s.reqs, s.waiting[0]);
    var need := Need(cfg, r.SeqLen());
    assert s.reqs[id := r.(table := Popped(s.free, need))][id := r.(table := Popped(s.free, need), admitSeq := s.nextAdmit)]
        == s.reqs[id := r.(table := Popped(s.free, need), admitSeq := s.nextAdmit)];
  }

  lemma AdmittedLists(cfg: Cfg, s: St, t: St, popped: seq<Id>, need: nat)
    requires cfg.Valid() && ListsOk(s, popped) && AdmittedFrom(cfg, s, t, need)
    ensures ListsOk(t, popped + [s.waiting[0]])
  {
    var id := s.waiting[0];
    var popped' := popped + [id];
    assert s.waiting == [id] + t.waiting;
    assert Holders(t, popped') == Holders(s, popped) + [id];
    assert Queued(t, popped') == Queued(s, popped);
    forall x: Id ensures Queued(t, popped')[x] <= 1 && (Queued(t, popped')[x] > 0 ==> x in t.reqs) {
      assert Queued(s, popped)[x] <= 1 && (Queued(s, popped)[x] > 0 ==> x in s.reqs);
    }
  }

  lemma AdmittedRequests(cfg: Cfg, s: St, t: St, need: nat)
    requires cfg.Valid() && ReqsOk(cfg, s.reqs) && AdmittedFrom(cfg, s, t, need) && s.waiting[0] in s.reqs
    ensures ReqsOk(cfg, t.reqs)
  {
    var id, r := s.waiting[0], At(s.reqs, s.waiting[0]);
    assert ReqOk(cfg, r);
    assert ReqOk(cfg, r.(table := Popped(s.free, need), admitSeq := s.nextAdmit));
  }

  lemma AdmittedHead(cfg: Cfg, s: St, t: St, need: nat)
    requires cfg.Valid() && AdmittedFrom(cfg, s, t, need) && WaitersOk(s)
    requires need == Need(cfg, At(s.reqs, s.waiting[0]).SeqLen())
    ensures PoppedOk(cfg, At(t.reqs, s.waiting[0]))
  {
    assert WaitingOk(At(s.reqs, s.waiting[0]));
    PoppedUnits(s.free, need);
  }

  lemma AdmittedRoles(cfg: Cfg, s: St, t: St, popped: seq<Id>, need: nat)
    requires cfg.Valid() && ListsOk(s, popped) && AdmittedFrom(cfg, s, t, need)
    requires WaitersOk(s) && RunnersOk(cfg, s, {}) && PoppedsOk(cfg, s, popped) && OthersOk(s, popped)
    requires need == Need(cfg, At(s.reqs, s.waiting[0]).SeqLen())
    ensures WaitersOk(t) && RunnersOk(cfg, t, {})
    ensures PoppedsOk(cfg, t, popped + [s.waiting[0]]) && OthersOk(t, popped + [s.waiting[0]])
  {
    hide RunningOk, PoppedOk, WaitingOk, GoneOk;
    ListFacts(s, popped);
    var id := s.waiting[0];
    var popped' := popped + [id];
    assert s.waiting == [id] + t.waiting;
    assert forall x :: x in s.waiting <==> x == id || x in t.waiting;
    assert id !in t.waiting by {
      assert forall k :: 0 <= k < |t.waiting| ==> t.waiting[k] == s.waiting[k + 1];
    }
    assert forall x :: x in popped' <==> x == id || x in popped;
    AdmittedHead(cfg, s, t, need);
    forall x | x in t.running ensures RunningOk(cfg, t.pool, At(t.reqs, x), false) {
      assert RunningOk(cfg, s.pool, At(s.reqs, x), false);
    }
    forall x | x in t.waiting ensures WaitingOk(At(t.reqs, x)) && At(t.reqs, x).table == [] {
      assert WaitingOk(At(s.reqs, x));
    }
    forall x | x in popped' ensures PoppedOk(cfg, At(t.reqs, x)) {
      assert x != id ==> PoppedOk(cfg, At(s.reqs, x));
    }
    forall x | x in t.reqs && x !in t.waiting && x !in t.running && x !in popped' ensures GoneOk(At(t.reqs, x)) {
      assert GoneOk(At(s.reqs, x));
    }
  }

  lemma AdmittedOrder(cfg: Cfg, s: St, t: St, popped: seq<Id>, need: nat)
    requires cfg.Valid() && ListsOk(s, popped) && AdmittedFrom(cfg, s, t, need)
    requires AdmitOrder(s.reqs, Holders(s, popped), s.nextAdmit)
    ensures AdmitOrder(t.reqs, Holders(t, popped + [s.waiting[0]]), t.nextAdmit)
  {
    hide AdmitOrder, ListsOk, Popped;
    ListFacts(s, popped);
    var hs := Holders(s, popped);
    assert Holders(t, popped + [s.waiting[0]]) == hs + [s.waiting[0]];
    OrderFrame(s.reqs, t.reqs, hs, s.nextAdmit);
    OrderSnoc(t.reqs, hs, s.waiting[0], s.nextAdmit);
  }

  lemma OrderSnoc(reqs: map<Id, Req>, hs: seq<Id>, id: Id, n: nat)
    requires AdmitOrder(reqs, hs, n) && At(reqs, id).admitSeq == n
    ensures AdmitOrder(reqs, hs + [id], n + 1)
  {
  }

  lemma PoppedUnits(free: seq<nat>, need: nat)
    requires need <= |free|
    ensures multiset(free) == multiset(free[..|free| - need]) + multiset(Popped(free, need))
    ensures |Popped(free, need)| == need
  {
    ReverseMultiset(free[|free| - need..]);
    assert free == free[..|free| - need] + free[|free| - need..];
  }

  lemma AdmittedMem(cfg: Cfg, s: St, t: St, popped: seq<Id>, need: nat)
    requires cfg.Valid() && ListsOk(s, popped) && AdmittedFrom(cfg, s, t, need)
    requires MemOk(cfg, s.free, s.reqs, Holders(s, popped))
    ensures MemOk(cfg, t.free, t.reqs, Holders(t, popped + [s.waiting[0]]))
    ensures |t.free| == |s.free| - need
  {
    hide Held, MemOk, ListsOk, Popped;
    ListFacts(s, popped);
    var id, hs := s.waiting[0], Holders(s, popped);
    assert Holders(t, popped + [id]) == hs + [id];
    HandOut(cfg, s.free, s.reqs, hs, id, At(t.reqs, id), need);
  }

  /** Units handed out to a new holder stay in the balance. */
  lemma HandOut(cfg: Cfg, free: seq<nat>, reqs: map<Id, Req>, hs: seq<Id>, id: Id, r: Req, need: nat)
    requires MemOk(cfg, free, reqs, hs) && id !in hs && need <= |free| && r.table == Popped(free, need)
    ensures MemOk(cfg, free[..|free| - need], reqs[id := r], hs + [id])
  {
    PoppedUnits(free, need);
    HeldOther(reqs, hs, id, r);
    HeldSnoc(reqs[id := r], hs, id);
  }

  lemma AdmittedCommit(cfg: Cfg, s: St, t: St, popped: seq<Id>, need: nat)
    requires cfg.Valid() && ListsOk(s, popped) && AdmittedFrom(cfg, s, t, need)
    requires CommitOk(cfg, s.committed, s.reqs, Holders(s, popped))
    requires cfg.backend.Reserve? ==> SumOf(s.committed) + Worst(cfg, At(s.reqs, s.waiting[0])) <= cfg.units
    ensures CommitOk(cfg, t.committed, t.reqs, Holders(t, popped + [s.waiting[0]]))
  {
    hide ListsOk, SumOf, NoDup, Popped, UnitsFor;
    ListFacts(s, popped);
    var id, hs := s.waiting[0], Holders(s, popped);
    assert id in s.waiting;
    assert Holders(t, popped + [id]) == hs + [id];
    if !cfg.backend.Slots? {
      assert id !in s.committed;
      assert s.committed - {id} == s.committed;
      SumOfUpdate(s.committed, id, Worst(cfg, At(s.reqs, id)));
    }
  }

  /** Admitting the head of the queue keeps the invariant, in every mode, and cannot raise. */
  lemma AdmitHeadKeepsCore(cfg: Cfg, s: St, popped: seq<Id>, headroom: nat)
    requires Core(cfg, s, popped, {}) && s.waiting != [] && CanAllocate(cfg, s, s.waiting[0], headroom)
    ensures Allocate(cfg, s.(waiting := s.waiting[1..]), s.waiting[0]).Ok?
    ensures AdmittedFrom(cfg, s, AdmitHead(cfg, s), Need(cfg, At(s.reqs, s.waiting[0]).SeqLen()))
    ensures Core(cfg, AdmitHead(cfg, s), popped + [s.waiting[0]], {})
  {
    hide ReqsOk, WaitersOk, RunnersOk, PoppedsOk, OthersOk, MemOk, CommitOk, AdmitOrder, ListsOk, AdmitHead, Allocate, PoolOk, AdmittedFrom, Holders, Need, SumOf, Worst;
    var id, t := s.waiting[0], AdmitHead(cfg, s);
    CanAllocateSuffices(cfg, s, popped, id, headroom);
    ListFacts(s, popped);
    var need := Need(cfg, At(s.reqs, id).SeqLen());
    AdmitHeadFacts(cfg, s);
    AdmittedLists(cfg, s, t, popped, need);
    AdmittedRequests(cfg, s, t, need);
    AdmittedRoles(cfg, s, t, popped, need);
    AdmittedOrder(cfg, s, t, popped, need);
    AdmittedMem(cfg, s, t, popped, need);
    AdmittedCommit(cfg, s, t, popped, need);
    AdmittedPool(cfg, s, t, need);
  }

  lemma AdmittedPool(cfg: Cfg, s: St, t: St, need: nat)
    requires cfg.Valid() && AdmittedFrom(cfg, s, t, need)
    ensures t.pool == s.pool
  {
  }
}
