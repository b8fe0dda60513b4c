/** Growing tables and evicting requests keep the invariant. */
module PreserveEviction {
  import opened Prelude
  import opened Transformer
  import opened Storage
  import opened Forward
  import opened Scheduling
  import opened Lists
  import opened Invariant
  import opened PreserveQueues

  // ------------------------------------------------------------------ one more unit

  /** Does the request need another unit before its newest token can be fed? */
  ghost predicate Wants(cfg: Cfg, r: Req)
    requires cfg.Valid()
  {
    Need(cfg, r.SeqLen()) > |r.table|
  }

  /** A running request whose table was not grown yet is at most one unit short. */
  lemma ShortByOne(cfg: Cfg, pool: Pool, r: Req)
    requires cfg.Valid() && RunningOk(cfg, pool, r, false)
    ensures |r.table| <= Need(cfg, r.SeqLen()) <= |r.table| + 1
    ensures cfg.backend.Slots? ==> !Wants(cfg, r)
  {
    NeedStep(cfg, r.SeqLen() - 1);
  }

  /** The request with one more unit. */
  function Grow(r: Req, u: nat): Req {
    r.(table := r.table + [u])
  }

  /** append_slot on a request at most one unit short: nothing to do, one unit taken, or failure. */
  lemma AppendSlotCases(cfg: Cfg, s: St, id: Id)
    requires cfg.Valid() && id in s.reqs
    requires |At(s.reqs, id).table| <= Need(cfg, At(s.reqs, id).SeqLen()) <= |At(s.reqs, id).table| + 1
    requires cfg.backend.Slots? ==> !Wants(cfg, At(s.reqs, id))
    ensures !Wants(cfg, At(s.reqs, id)) ==> AppendSlot(cfg, s, id) == (s, true)
    ensures Wants(cfg, At(s.reqs, id)) && s.free != [] ==>
      AppendSlot(cfg, s, id) == (s.(free := Init(s.free), reqs := s.reqs[id := Grow(At(s.reqs, id), Last(s.free))]), true)
    ensures Wants(cfg, At(s.reqs, id)) && s.free == [] ==> AppendSlot(cfg, s, id) == (s, false)
  {
    var r := At(s.reqs, id);
    if Wants(cfg, r) {
      if s.free == [] {
        assert Popped(s.free, 0) == [];
        assert r.table + [] == r.table;
        assert s.reqs[id := r] == s.reqs;
      } else {
        assert Popped(s.free, 1) == [Last(s.free)];
      }
    }
  }

  lemma HoldsLonger(net: Net, cap: nat, pool: Pool, table: seq<nat>, u: nat, toks: seq<Token>, upto: nat)
    requires Holds(net, cap, pool, table, toks, upto)
    ensures Holds(net, cap, pool, table + [u], toks, upto)
  {
    forall l | 0 <= l < net.layers ensures LayerHolds(net, cap, pool[l], l, table + [u], toks, upto) {
      assert LayerHolds(net, cap, pool[l], l, table, toks, upto);
      forall p | 0 <= p < upto ensures UnitOf(cap, p) < |table + [u]| && Place(cap, table + [u], p) == Place(cap, table, p) {
      }
    }
  }

  lemma GrownReq(cfg: Cfg, pool: Pool, r: Req, u: nat)
    requires cfg.Valid() && ReqOk(cfg, r) && RunningOk(cfg, pool, r, false) && Wants(cfg, r)
    ensures ReqOk(cfg, Grow(r, u)) && RunningOk(cfg, pool, Grow(r, u), true)
  {
    ShortByOne(cfg, pool, r);
    HoldsLonger(cfg.net, cfg.cap, pool, r.table, u, r.Tokens(), r.SeqLen() - 1);
    assert Grow(r, u).Tokens() == r.Tokens();
  }

  /** t is s after `id` took the last free unit. */
  ghost predicate GrownFrom(s: St, t: St, id: Id) {
    s.free != [] && t == s.(free := Init(s.free), reqs := s.reqs[id := Grow(At(s.reqs, id), Last(s.free))])
  }

  lemma GrownRunners(cfg: Cfg, s: St, t: St, grown: set<Id>, id: Id)
    requires cfg.Valid() && RunnersOk(cfg, s, grown) && GrownFrom(s, t, id)
    requires RunningOk(cfg, s.pool, At(t.reqs, id), true)
    ensures RunnersOk(cfg, t, grown + {id})
  {
    hide RunningOk;
    forall x | x in t.running ensures RunningOk(cfg, t.pool, At(t.reqs, x), x in grown + {id}) {
      assert RunningOk(cfg, s.pool, At(s.reqs, x), x in grown);
    }
  }

  lemma GrownMem(cfg: Cfg, s: St, t: St, id: Id, hs: seq<Id>)
    requires MemOk(cfg, s.free, s.reqs, hs) && NoDup(hs) && id in hs && GrownFrom(s, t, id)
    ensures MemOk(cfg, t.free, t.reqs, hs)
  {
    var r, u := At(s.reqs, id), Last(s.free);
    HeldUpdate(s.reqs, hs, id, Grow(r, u));
    assert s.free == Init(s.free) + [u];
    GrownBalance(multiset(Init(s.free)), multiset(r.table), u, Held(s.reqs, hs), Held(t.reqs, hs), multiset(Grow(r, u).table), multiset(s.free));
  }

  lemma GrownBalance(free': multiset<nat>, table: multiset<nat>, u: nat, held: multiset<nat>, held': multiset<nat>, table': multiset<nat>, free: multiset<nat>)
    requires free == free' + multiset{u} && table' == table + multiset{u} && held' + table == held + table'
    ensures free' + held' == free + held
  {
    forall x: nat ensures held'[x] == (held + multiset{u})[x] {
      assert (held' + table)[x] == (held + table')[x];
    }
    assert held' == held + multiset{u};
  }

  lemma GrownLists(s: St, t: St, id: Id)
    requires ListsOk(s, []) && WaitersOk(s) && OthersOk(s, []) && id in s.running && GrownFrom(s, t, id)
    ensures ListsOk(t, []) && WaitersOk(t) && OthersOk(t, [])
  {
    hide WaitingOk, GoneOk;
    ListFacts(s, []);
    assert Holders(t, []) == Holders(s, []) && Queued(t, []) == Queued(s, []);
    forall x: Id ensures Queued(t, [])[x] <= 1 && (Queued(t, [])[x] > 0 ==> x in t.reqs) {
      assert Queued(s, [])[x] <= 1 && (Queued(s, [])[x] > 0 ==> x in s.reqs);
    }
    forall x | x in t.reqs && x !in t.waiting && x !in t.running ensures GoneOk(At(t.reqs, x)) {
      assert GoneOk(At(s.reqs, x));
    }
  }

  lemma GrownRest(cfg: Cfg, s: St, t: St, id: Id, hs: seq<Id>)
    requires cfg.Valid() && ReqsOk(cfg, s.reqs) && GrownFrom(s, t, id) && ReqOk(cfg, At(t.reqs, id))
    requires AdmitOrder(s.reqs, hs, s.nextAdmit) && CommitOk(cfg, s.committed, s.reqs, hs)
    ensures ReqsOk(cfg, t.reqs)
    ensures AdmitOrder(t.reqs, hs, t.nextAdmit) && CommitOk(cfg, t.committed, t.reqs, hs)
  {
    hide ReqOk, AdmitOrder, CommitOk;
    OrderFrame(s.reqs, t.reqs, hs, s.nextAdmit);
    CommitFrame(cfg, s.committed, s.reqs, t.reqs, hs);
  }

  lemma GrownCore(cfg: Cfg, s: St, t: St, grown: set<Id>, id: Id)
    requires Core(cfg, s, [], grown) && id in s.running && id !in grown && Wants(cfg, At(s.reqs, id)) && GrownFrom(s, t, id)
    ensures Core(cfg, t, [], grown + {id})
  {
    hide ReqOk, RunningOk, MemOk, PoolOk, WaitersOk, OthersOk, AdmitOrder, CommitOk, ListsOk, Wants;
    ListFacts(s, []);
    var hs := Holders(s, []);
    assert Holders(t, []) == hs;
    assert RunningOk(cfg, s.pool, At(s.reqs, id), false);
    assert ReqOk(cfg, At(s.reqs, id));
    GrownReq(cfg, s.pool, At(s.reqs, id), Last(s.free));
    GrownLists(s, t, id);
    GrownRest(cfg, s, t, id, hs);
    GrownRunners(cfg, s, t, grown, id);
    GrownMem(cfg, s, t, id, hs);
  }

  /** Nothing to do: the table already covers the newest token. */
  lemma GrownAlready(cfg: Cfg, s: St, grown: set<Id>, id: Id)
    requires Core(cfg, s, [], grown) && id in s.running && id !in grown && !Wants(cfg, At(s.reqs, id))
    ensures Core(cfg, s, [], grown + {id})
  {
    hide ReqsOk, MemOk, PoolOk, WaitersOk, OthersOk, AdmitOrder, CommitOk, ListsOk, Holds;
    forall x | x in s.running ensures RunningOk(cfg, s.pool, At(s.reqs, x), x in grown + {id}) {
      assert RunningOk(cfg, s.pool, At(s.reqs, x), x in grown);
      if x == id {
        ShortByOne(cfg, s.pool, At(s.reqs, id));
      }
    }
  }

  /** append_slot keeps the invariant when it succeeds, and changes nothing when it fails. */
  lemma AppendKeepsCore(cfg: Cfg, s: St, grown: set<Id>, id: Id)
    requires Core(cfg, s, [], grown) && id in s.running && id !in grown
    ensures var (t, ok) := AppendSlot(cfg, s, id);
      && (ok <==> !Wants(cfg, At(s.reqs, id)) || s.free != [])
      && (!ok ==> t == s)
      && (ok ==> Core(cfg, t, [], grown + {id}))
      && (ok ==> t == s || (GrownFrom(s, t, id) && Wants(cfg, At(s.reqs, id))))
      && (ok && t == s ==> !Wants(cfg, At(s.reqs, id)))
  {
    hide ReqsOk, MemOk, PoolOk, WaitersOk, OthersOk, AdmitOrder, CommitOk, ListsOk, Holds, RunningOk, Need, AppendSlot;
    ListFacts(s, []);
    assert RunningOk(cfg, s.pool, At(s.reqs, id), false);
    ShortByOne(cfg, s.pool, At(s.reqs, id));
    AppendSlotCases(cfg, s, id);
    if Wants(cfg, At(s.reqs, id)) {
      if s.free != [] {
        GrownCore(cfg, s, AppendSlot(cfg, s, id).0, grown, id);
      }
    } else {
      GrownAlready(cfg, s, grown, id);
    }
  }

  // ------------------------------------------------------------------ eviction

  /** A request that was thrown out: no memory, same tokens, one more eviction on its record. */
  function Evicted(r: Req): Req {
    r.(table := [], phase := Waiting, preempts := r.preempts + 1)
  }

  /** t is s after `id` was evicted. */
  ghost predicate EvictedFrom(s: St, t: St, id: Id) {
    && id in s.running
    && t == s.(free := s.free + Reverse(At(s.reqs, id).table),
               reqs := s.reqs[id := Evicted(At(s.reqs, id))],
               committed := s.committed - {id},
               running := RemoveAt(s.running, IndexOf(s.running, id)),
               waiting := s.waiting + [id],
               preemptions := s.preemptions + 1)
  }

  lemma PreemptFacts(s: St, id: Id)
    requires id in s.running && id in s.reqs
    ensures EvictedFrom(s, Preempt(s, id), id)
  {
    hide IndexOf, RemoveAt, Reverse;
    var r := At(s.reqs, id);
    var r1 := r.(table := []);
    assert s.reqs[id := r1][id := Evicted(r)] == s.reqs[id := Evicted(r)];
  }

  lemma EvictedMembers(s: St, t: St, id: Id)
    requires ListsOk(s, []) && EvictedFrom(s, t, id)
    ensures forall x :: x in t.running <==> x in s.running && x != id
    ensures forall x :: x in t.waiting <==> x in s.waiting || x == id
    ensures ListsOk(t, [])
  {
    ListFacts(s, []);
    EvictedLists(s, t, id);
    RemoveAtMembers(s.running, IndexOf(s.running, id));
  }

  lemma EvictedLists(s: St, t: St, id: Id)
    requires ListsOk(s, []) && EvictedFrom(s, t, id)
    ensures ListsOk(t, [])
  {
    SameQueued(s, t, id);
    forall x: Id ensures Queued(t, [])[x] <= 1 && (Queued(t, [])[x] > 0 ==> x in t.reqs) {
      assert Queued(s, [])[x] <= 1 && (Queued(s, [])[x] > 0 ==> x in s.reqs);
    }
  }

  lemma SameQueued(s: St, t: St, id: Id)
    requires EvictedFrom(s, t, id)
    ensures Queued(t, []) == Queued(s, [])
  {
    assert Holders(s, []) == s.running && Holders(t, []) == t.running;
    RemoveAtCount(s.running, IndexOf(s.running, id));
    assert multiset(t.waiting) == multiset(s.waiting) + multiset{id};
  }

  lemma RemoveAtMembers(ids: seq<Id>, k: nat)
    requires NoDup(ids) && k < |ids|
    ensures forall x :: x in RemoveAt(ids, k) <==> x in ids && x != ids[k]
    ensures NoDup(RemoveAt(ids, k))
  {
    var r := RemoveAt(ids, k);
    forall x ensures x in r <==> x in ids && x != ids[k] {
      if x in ids && x != ids[k] {
        var i := IndexOf(ids, x);
        assert r[if i < k then i else i - 1] == x;
      }
    }
    forall i, j | 0 <= i < j < |r| ensures r[i] != r[j] {
      assert r[i] == ids[if i < k then i else i + 1] && r[j] == ids[if j < k then j else j + 1];
    }
  }

  lemma OrderRemove(reqs: map<Id, Req>, ids: seq<Id>, k: nat, n: nat)
    requires AdmitOrder(reqs, ids, n) && k < |ids|
    ensures AdmitOrder(reqs, RemoveAt(ids, k), n)
  {
    var r := RemoveAt(ids, k);
    forall i | 0 <= i < |r| ensures r[i] == ids[if i < k then i else i + 1] {
    }
  }

  lemma EvictedMem(cfg: Cfg, s: St, t: St, id: Id)
    requires ListsOk(s, []) && EvictedFrom(s, t, id) && MemOk(cfg, s.free, s.reqs, s.running)
    ensures MemOk(cfg, t.free, t.reqs, t.running)
  {
    hide ListsOk;
    ListFacts(s, []);
    var k, r := IndexOf(s.running, id), At(s.reqs, id);
    HeldPick(s.reqs, s.running, k);
    RemoveAtMembers(s.running, k);
    HeldOther(s.reqs, t.running, id, Evicted(r));
    ReverseMultiset(r.table);
    assert multiset(s.free + Reverse(r.table)) == multiset(s.free) + multiset(r.table);
  }

  lemma EvictedReq(cfg: Cfg, pool: Pool, r: Req, grown: bool)
    requires cfg.Valid() && ReqOk(cfg, r) && RunningOk(cfg, pool, r, grown) && r.reason == None
    ensures ReqOk(cfg, Evicted(r)) && WaitingOk(Evicted(r))
  {
  }

  lemma EvictedRoles(cfg: Cfg, s: St, t: St, grown: set<Id>, id: Id)
    requires cfg.Valid() && ListsOk(s, []) && EvictedFrom(s, t, id)
    requires ReqsOk(cfg, s.reqs) && WaitersOk(s) && RunnersOk(cfg, s, grown) && OthersOk(s, [])
    requires At(s.reqs, id).reason == None
    ensures ReqsOk(cfg, t.reqs) && WaitersOk(t) && RunnersOk(cfg, t, grown - {id}) && OthersOk(t, [])
  {
    hide ReqOk, RunningOk, WaitingOk, ListsOk, GoneOk;
    ListFacts(s, []);
    EvictedMembers(s, t, id);
    EvictedReq(cfg, s.pool, At(s.reqs, id), id in grown);
    forall x | x in t.running ensures RunningOk(cfg, t.pool, At(t.reqs, x), x in grown - {id}) {
      assert RunningOk(cfg, s.pool, At(s.reqs, x), x in grown);
    }
    forall x | x in t.waiting ensures WaitingOk(At(t.reqs, x)) && At(t.reqs, x).table == [] {
      assert x != id ==> WaitingOk(At(s.reqs, x));
    }
    forall x | x in t.reqs && x !in t.waiting && x !in t.running ensures GoneOk(At(t.reqs, x)) {
      assert GoneOk(At(s.reqs, x));
    }
  }

  lemma EvictedCommit(cfg: Cfg, s: St, t: St, id: Id)
    requires cfg.Valid() && ListsOk(s, []) && EvictedFrom(s, t, id) && !cfg.backend.Reserve?
    requires CommitOk(cfg, s.committed, s.reqs, s.running)
    ensures CommitOk(cfg, t.committed, t.reqs, t.running)
  {
    hide ListsOk;
    EvictedMembers(s, t, id);
  }

  /** Evicting a running, unfinished request keeps the invariant. */
  lemma PreemptKeepsCore(cfg: Cfg, s: St, grown: set<Id>, id: Id)
    requires Core(cfg, s, [], grown) && !cfg.backend.Reserve? && id in s.running && At(s.reqs, id).reason == None
    ensures Core(cfg, Preempt(s, id), [], grown - {id}) && EvictedFrom(s, Preempt(s, id), id)
  {
    hide ReqsOk, RunnersOk, MemOk, PoolOk, WaitersOk, OthersOk, AdmitOrder, CommitOk, ListsOk, Preempt;
    ListFacts(s, []);
    var t := Preempt(s, id);
    PreemptFacts(s, id);
    assert Holders(s, []) == s.running && Holders(t, []) == t.running;
    EvictedMembers(s, t, id);
    EvictedRoles(cfg, s, t, grown, id);
    EvictedMem(cfg, s, t, id);
    EvictedCommit(cfg, s, t, id);
    OrderFrame(s.reqs, t.reqs, s.running, s.nextAdmit);
    OrderRemove(t.reqs, s.running, IndexOf(s.running, id), s.nextAdmit);
  }

  // ------------------------------------------------------------------ reserve mode never runs dry

  lemma {:induction false} HeldBoundStrict(cfg: Cfg, committed: map<Id, int>, reqs: map<Id, Req>, hs: seq<Id>, id: Id)
    requires NoDup(hs) && (forall x :: x in committed <==> x in hs) && id in hs
    requires forall x :: x in hs ==> |At(reqs, x).table| <= committed[x]
    requires |At(reqs, id).table| < committed[id]
    ensures |Held(reqs, hs)| < SumOf(committed)
  {
    var r' := Grow(At(reqs, id), 0);
    HeldBound(cfg, committed, reqs[id := r'], hs);
    HeldUpdate(reqs, hs, id, r');
    assert |Held(reqs[id := r'], hs) + multiset(At(reqs, id).table)| == |Held(reqs, hs) + multiset(r'.table)|;
  }

  lemma GrownWithin(cfg: Cfg, s: St, grown: set<Id>, id: Id)
    requires cfg.Valid() && cfg.backend.Reserve? && ReqsOk(cfg, s.reqs) && id in s.reqs
    requires RunnersOk(cfg, s, grown) && id in s.running && (id in grown ==> !At(s.reqs, id).Done())
    ensures |At(s.reqs, id).table| <= Worst(cfg, At(s.reqs, id))
    ensures !At(s.reqs, id).Done() ==> Need(cfg, At(s.reqs, id).SeqLen()) <= Worst(cfg, At(s.reqs, id))
  {
    hide Holds;
    var r := At(s.reqs, id);
    assert ReqOk(cfg, r);
    assert RunningOk(cfg, s.pool, r, id in grown);
    NeedWithinWorst(cfg, r, r.SeqLen() - 1);
    if !r.Done() {
      NeedWithinWorst(cfg, r, r.SeqLen());
    }
  }

  /** In reserve mode append_slot always finds a unit. */
  lemma ReserveNeverShort(cfg: Cfg, s: St, grown: set<Id>, id: Id)
    requires Core(cfg, s, [], grown) && cfg.backend.Reserve? && id in s.running && !At(s.reqs, id).Done()
    requires forall x :: x in grown ==> !At(s.reqs, x).Done()
    ensures Wants(cfg, At(s.reqs, id)) ==> s.free != []
  {
    hide ReqsOk, RunnersOk, MemOk, PoolOk, WaitersOk, OthersOk, AdmitOrder, ListsOk, Need, SumOf, Held, Worst;
    ListFacts(s, []);
    var hs := Holders(s, []);
    forall x | x in hs ensures |At(s.reqs, x).table| <= s.committed[x] {
      GrownWithin(cfg, s, grown, x);
    }
    GrownWithin(cfg, s, grown, id);
    if Wants(cfg, At(s.reqs, id)) {
      HeldBoundStrict(cfg, s.committed, s.reqs, hs, id);
      FreeCount(cfg, s.free, s.reqs, hs);
    }
  }
}
