/** The loop that gives every row its next unit, evicting when the pool is dry. */
module EvictionLoop {
  import opened Prelude
  import opened Forward
  import opened Scheduling
  import opened Lists
  import opened Invariant
  import opened PreserveEviction

  ghost function Front(active: seq<Id>, i: nat): set<Id>
    requires i <= |active|
  {
    set x | x in active[..i]
  }

  /** The list being walked holds exactly the running unfinished requests; the first i have room. */
  ghost predicate LoopInv(cfg: Cfg, s: St, active: seq<Id>, i: nat) {
    && i <= |active| && NoDup(active)
    && (forall id :: id in active <==> id in s.running && !At(s.reqs, id).Done())
    && Core(cfg, s, [], Front(active, i))
  }

  ghost function Gone(active: seq<Id>, active': seq<Id>): set<Id> {
    set x | x in active && x !in active'
  }

  /** Same request, possibly with more units at the end of its table. */
  ghost predicate MayGrow(r: Req, r': Req) {
    r'.(table := r.table) == r && r.table <= r'.table
  }

  /** Survivors and victims partition the batch; victims went to the back of the queue. */
  ghost predicate Evolved(s: St, t: St, active: seq<Id>, active': seq<Id>) {
    && |active'| <= |active| && NoDup(active')
    && (forall id :: id in active' ==> id in active)
    && (forall id :: id in t.running <==> id in s.running && id !in Gone(active, active'))
    && (forall id :: id in t.waiting <==> id in s.waiting || id in Gone(active, active'))
    && |t.waiting| == |s.waiting| + |active| - |active'| && s.waiting <= t.waiting
    && (forall id :: id in t.reqs <==> id in s.reqs)
    && (forall id :: id in Gone(active, active') ==> At(t.reqs, id) == Evicted(At(s.reqs, id)))
    && (forall id :: id in active' ==> MayGrow(At(s.reqs, id), At(t.reqs, id)))
    && (forall id :: id !in active ==> At(t.reqs, id) == At(s.reqs, id))
    && t.pool == s.pool && t.nextAdmit == s.nextAdmit
    && t.preemptions == s.preemptions + |active| - |active'|
  }

  /** Everyone thrown out ranks below everyone who stayed. */
  ghost predicate WeakestGone(s: St, active: seq<Id>, active': seq<Id>) {
    forall v, u :: v in Gone(active, active') && u in active' ==> Weaker(At(s.reqs, v), At(s.reqs, u))
  }

  lemma EvolvedRefl(s: St, active: seq<Id>)
    requires NoDup(active)
    ensures Evolved(s, s, active, active) && WeakestGone(s, active, active)
  {
  }

  lemma EvolvedTrans(s: St, t: St, u: St, a: seq<Id>, b: seq<Id>, c: seq<Id>)
    requires Evolved(s, t, a, b) && Evolved(t, u, b, c)
    ensures Evolved(s, u, a, c)
  {
    forall id ensures id in Gone(a, c) <==> id in Gone(a, b) || id in Gone(b, c) {
    }
    forall id | id in Gone(a, c) ensures At(u.reqs, id) == Evicted(At(s.reqs, id)) {
      if id in Gone(b, c) {
        assert MayGrow(At(s.reqs, id), At(t.reqs, id));
        assert At(u.reqs, id) == Evicted(At(t.reqs, id));
      } else {
        assert At(u.reqs, id) == At(t.reqs, id);
      }
    }
    forall id | id in c ensures MayGrow(At(s.reqs, id), At(u.reqs, id)) {
      assert MayGrow(At(s.reqs, id), At(t.reqs, id)) && MayGrow(At(t.reqs, id), At(u.reqs, id));
    }
  }

  lemma WeakestTrans(s: St, t: St, a: seq<Id>, b: seq<Id>, c: seq<Id>)
    requires forall id :: id in b ==> MayGrow(At(s.reqs, id), At(t.reqs, id))
    requires forall id :: id in c ==> id in b
    requires WeakestGone(s, a, b) && WeakestGone(t, b, c)
    ensures WeakestGone(s, a, c)
  {
    forall v, u | v in Gone(a, c) && u in c ensures Weaker(At(s.reqs, v), At(s.reqs, u)) {
      if v in b {
        assert v in Gone(b, c);
        assert MayGrow(At(s.reqs, v), At(t.reqs, v)) && MayGrow(At(s.reqs, u), At(t.reqs, u));
        assert Weaker(At(t.reqs, v), At(t.reqs, u));
      } else {
        assert v in Gone(a, b);
      }
    }
  }

  // ------------------------------------------------------------------ the victim

  lemma {:induction false} VictimWeakest(reqs: map<Id, Req>, active: seq<Id>)
    requires active != []
    ensures forall j :: 0 <= j < |active| ==> !Weaker(At(reqs, active[j]), At(reqs, active[VictimIndex(reqs, active)]))
  {
    if |active| > 1 {
      var k, v := |active| - 1, VictimIndex(reqs, Init(active));
      VictimWeakest(reqs, Init(active));
      forall j | 0 <= j < |active|
        ensures !Weaker(At(reqs, active[j]), At(reqs, active[VictimIndex(reqs, active)]))
      {
        if j < k {
          assert !Weaker(At(reqs, Init(active)[j]), At(reqs, Init(active)[v]));
        }
      }
    }
  }

  /** Admission numbers are all different, so the victim is strictly the weakest. */
  lemma VictimStrict(cfg: Cfg, s: St, active: seq<Id>, grown: set<Id>, j: nat)
    requires Core(cfg, s, [], grown) && NoDup(active) && (forall id :: id in active ==> id in s.running)
    requires j < |active| && j != VictimIndex(s.reqs, active)
    ensures Weaker(At(s.reqs, active[VictimIndex(s.reqs, active)]), At(s.reqs, active[j]))
  {
    hide ReqsOk, RunnersOk, MemOk, PoolOk, WaitersOk, OthersOk, CommitOk, ListsOk;
    var v := VictimIndex(s.reqs, active);
    VictimWeakest(s.reqs, active);
    assert active[v] in active && active[j] in active;
    var a, b := IndexOf(s.running, active[v]), IndexOf(s.running, active[j]);
    assert Holders(s, []) == s.running;
    assert a != b;
    assert At(s.reqs, s.running[a]).admitSeq != At(s.reqs, s.running[b]).admitSeq;
  }

  // ------------------------------------------------------------------ how many units are wanted

  ghost function Wanting(cfg: Cfg, reqs: map<Id, Req>, ids: seq<Id>): nat
    requires cfg.Valid()
  {
    if ids == [] then 0 else (if Wants(cfg, At(reqs, ids[0])) then 1 else 0) + Wanting(cfg, reqs, ids[1..])
  }

  lemma {:induction false} WantingFrame(cfg: Cfg, reqs: map<Id, Req>, reqs': map<Id, Req>, ids: seq<Id>)
    requires cfg.Valid() && forall id :: id in ids ==> At(reqs', id) == At(reqs, id)
    ensures Wanting(cfg, reqs', ids) == Wanting(cfg, reqs, ids)
  {
    if ids != [] {
      assert ids[0] in ids && forall id :: id in ids[1..] ==> id in ids;
      WantingFrame(cfg, reqs, reqs', ids[1..]);
    }
  }

  lemma {:induction false} WantingRemove(cfg: Cfg, reqs: map<Id, Req>, ids: seq<Id>, k: nat)
    requires cfg.Valid() && k < |ids|
    ensures Wanting(cfg, reqs, RemoveAt(ids, k)) <= Wanting(cfg, reqs, ids)
  {
    if k == 0 {
      assert RemoveAt(ids, 0) == ids[1..];
    } else {
      WantingRemove(cfg, reqs, ids[1..], k - 1);
      assert RemoveAt(ids, k)[0] == ids[0] && RemoveAt(ids, k)[1..] == RemoveAt(ids[1..], k - 1);
    }
  }

  /** Units still wanted from position i on, beyond those that are free. */
  ghost function Deficit(cfg: Cfg, s: St, active: seq<Id>, i: nat): int
    requires cfg.Valid() && i <= |active|
  {
    Wanting(cfg, s.reqs, active[i..]) - |s.free|
  }

  // ------------------------------------------------------------------ one turn of the loop

  lemma FrontNext(active: seq<Id>, i: nat)
    requires i < |active| && NoDup(active)
    ensures Front(active, i + 1) == Front(active, i) + {active[i]} && active[i] !in Front(active, i)
  {
    assert active[..i + 1] == active[..i] + [active[i]];
  }

  lemma SuccessTurn(cfg: Cfg, s: St, active: seq<Id>, i: nat)
    requires LoopInv(cfg, s, active, i) && i < |active| && AppendSlot(cfg, s, active[i]).1
    ensures var t := AppendSlot(cfg, s, active[i]).0;
      && LoopInv(cfg, t, active, i + 1) && Evolved(s, t, active, active)
      && Deficit(cfg, t, active, i + 1) == Deficit(cfg, s, active, i)
  {
    hide Core, AppendSlot, Wants;
    LoopBasics(cfg, s, active, i);
    var id, t := active[i], AppendSlot(cfg, s, active[i]).0;
    FrontNext(active, i);
    assert id in active;
    AppendKeepsCore(cfg, s, Front(active, i), id);
    assert active[i..][0] == id && active[i..][1..] == active[i + 1..];
    if t != s {
      assert t.reqs == s.reqs[id := Grow(At(s.reqs, id), Last(s.free))];
      assert id !in active[i + 1..];
      WantingFrame(cfg, s.reqs, t.reqs, active[i + 1..]);
      CoreKnows(cfg, s, Front(active, i), id);
    }
  }

  lemma CoreKnows(cfg: Cfg, s: St, grown: set<Id>, id: Id)
    requires Core(cfg, s, [], grown) && id in s.running
    ensures id in s.reqs && cfg.Valid() && |At(s.reqs, id).table| >= 1
    ensures NoDup(s.running) && id !in s.waiting
  {
    hide MemOk, PoolOk, WaitersOk, OthersOk, CommitOk, ListsOk, AdmitOrder, Holds;
    ListFacts(s, []);
    var r := At(s.reqs, id);
    assert ReqOk(cfg, r);
    assert RunningOk(cfg, s.pool, r, id in grown);
    NeedPositive(cfg, r.SeqLen());
    NeedPositive(cfg, r.SeqLen() - 1);
  }

  lemma NeedPositive(cfg: Cfg, n: nat)
    requires cfg.Valid() && n > 0
    ensures Need(cfg, n) >= 1
  {
  }

  lemma EvictedEvolved(s: St, t: St, active: seq<Id>, v: nat)
    requires NoDup(active) && v < |active| && EvictedFrom(s, t, active[v])
    requires active[v] in s.reqs && NoDup(s.running)
    ensures Evolved(s, t, active, RemoveAt(active, v)) && Gone(active, RemoveAt(active, v)) == {active[v]}
  {
    var id, rest := active[v], RemoveAt(active, v);
    RemoveAtMembers(active, v);
    RemoveAtMembers(s.running, IndexOf(s.running, id));
    assert active[v] in active;
    assert Gone(active, rest) == {id};
  }

  lemma EvictedLoopInv(cfg: Cfg, s: St, t: St, active: seq<Id>, i: nat, v: nat)
    requires LoopInv(cfg, s, active, i) && i < |active| && v < |active|
    requires EvictedFrom(s, t, active[v]) && Evolved(s, t, active, RemoveAt(active, v))
    requires Gone(active, RemoveAt(active, v)) == {active[v]}
    requires Core(cfg, t, [], Front(active, i) - {active[v]})
    ensures LoopInv(cfg, t, RemoveAt(active, v), if v < i then i - 1 else i)
  {
    hide Core, EvictedFrom;
    RemoveAtMembers(active, v);
    FrontRemove(active, v, i);
    var rest := RemoveAt(active, v);
    forall id ensures id in rest <==> id in t.running && !At(t.reqs, id).Done() {
      if id in rest {
        assert MayGrow(At(s.reqs, id), At(t.reqs, id));
      }
    }
  }

  lemma VictimBelowRest(cfg: Cfg, s: St, active: seq<Id>, grown: set<Id>)
    requires Core(cfg, s, [], grown) && NoDup(active) && active != [] && (forall id :: id in active ==> id in s.running)
    ensures WeakestGone(s, active, RemoveAt(active, VictimIndex(s.reqs, active)))
  {
    hide Core, VictimIndex, Weaker;
    var v := VictimIndex(s.reqs, active);
    var rest := RemoveAt(active, v);
    RemoveAtMembers(active, v);
    forall x, u | x in Gone(active, rest) && u in rest ensures Weaker(At(s.reqs, x), At(s.reqs, u)) {
      assert x == active[v];
      VictimStrict(cfg, s, active, grown, IndexOf(active, u));
    }
  }

  lemma EvictTurn(cfg: Cfg, s: St, active: seq<Id>, i: nat)
    requires LoopInv(cfg, s, active, i) && i < |active| && cfg.backend.Preempting?
    requires Wants(cfg, At(s.reqs, active[i])) && s.free == []
    ensures var v := VictimIndex(s.reqs, active);
      var t, rest, j := Preempt(s, active[v]), RemoveAt(active, v), if v < i then i - 1 else i;
      && LoopInv(cfg, t, rest, j) && Evolved(s, t, active, rest) && WeakestGone(s, active, rest)
      && Deficit(cfg, t, rest, j) < Deficit(cfg, s, active, i)
  {
    hide Core, Wants, Preempt, EvictedFrom, Evolved, WeakestGone, Deficit, VictimIndex;
    var v := VictimIndex(s.reqs, active);
    var t := Preempt(s, active[v]);
    assert active[v] in active;
    CoreKnows(cfg, s, Front(active, i), active[v]);
    PreemptKeepsCore(cfg, s, Front(active, i), active[v]);
    EvictedEvolved(s, t, active, v);
    EvictedLoopInv(cfg, s, t, active, i, v);
    VictimBelowRest(cfg, s, active, Front(active, i));
    EvictDeficit(cfg, s, t, active, i, v);
  }

  lemma FrontRemove(active: seq<Id>, v: nat, i: nat)
    requires NoDup(active) && v < |active| && i < |active|
    ensures var j := if v < i then i - 1 else i;
      Front(RemoveAt(active, v), j) == Front(active, i) - {active[v]}
  {
    var j, rest := if v < i then i - 1 else i, RemoveAt(active, v);
    forall x ensures x in rest[..j] <==> x in active[..i] && x != active[v] {
      if x in active[..i] && x != active[v] {
        var k := IndexOf(active[..i], x);
        assert rest[..j][if k < v then k else k - 1] == x;
      }
      if x in rest[..j] {
        var k := IndexOf(rest[..j], x);
        assert active[..i][if k < v then k else k + 1] == x;
      }
    }
  }

  lemma RemoveSlice(ids: seq<Id>, v: nat, i: nat)
    requires v < |ids| && i < |ids|
    ensures v < i ==> RemoveAt(ids, v)[i - 1..] == ids[i..]
    ensures v >= i ==> RemoveAt(ids, v)[i..] == RemoveAt(ids[i..], v - i)
  {
  }

  lemma EvictDeficit(cfg: Cfg, s: St, t: St, active: seq<Id>, i: nat, v: nat)
    requires cfg.Valid() && NoDup(active) && i < |active| && s.free == [] && v < |active|
    requires EvictedFrom(s, t, active[v]) && |At(s.reqs, active[v]).table| >= 1
    ensures Deficit(cfg, t, RemoveAt(active, v), if v < i then i - 1 else i) < Deficit(cfg, s, active, i)
  {
    hide Wants, Wanting, RemoveAt;
    var rest, j := RemoveAt(active, v), if v < i then i - 1 else i;
    RemoveAtMembers(active, v);
    RemoveSlice(active, v, i);
    if v >= i {
      WantingRemove(cfg, s.reqs, active[i..], v - i);
    }
    assert |rest| == |active| - 1 by {
      RemoveSize(active, v);
    }
    assert forall id :: id in rest[j..] ==> id in rest;
    WantingFrame(cfg, s.reqs, t.reqs, rest[j..]);
  }

  lemma RemoveSize(ids: seq<Id>, v: nat)
    requires v < |ids|
    ensures |RemoveAt(ids, v)| == |ids| - 1
  {
  }

  /** A request alone in the pool always finds its next unit, because it fits the pool at all. */
  lemma LoneNeverShort(cfg: Cfg, s: St, active: seq<Id>, i: nat)
    requires LoopInv(cfg, s, active, i) && i < |active| == 1 && !cfg.backend.Slots?
    requires (forall id :: id in s.running ==> id in active) && RunnersFit(cfg, s)
    ensures Wants(cfg, At(s.reqs, active[i])) ==> s.free != []
  {
    hide RunnersOk, PoolOk, WaitersOk, OthersOk, CommitOk, ListsOk, AdmitOrder, Need, ReqOk;
    ListFacts(s, []);
    var id := active[0];
    assert id in active;
    assert s.running == [id] by {
      LoneList(s.running, id);
    }
    var hs := Holders(s, []);
    FreeCount(cfg, s.free, s.reqs, hs);
    assert hs == [id];
    HeldSnoc(s.reqs, [], id);
    assert [] + [id] == hs;
    var r := At(s.reqs, id);
    assert ReqOk(cfg, r);
    UnfinishedRoom(cfg, r);
    NeedWithinPool(cfg, r, r.SeqLen());
    assert |Held(s.reqs, hs)| == |At(s.reqs, id).table|;
  }

  /** An unfinished request has room in its budget for the token about to be fed. */
  lemma UnfinishedRoom(cfg: Cfg, r: Req)
    requires cfg.Valid() && ReqOk(cfg, r) && !r.Done()
    ensures r.SeqLen() <= |r.prompt| + Max(r.maxNew, 0)
  {
  }

  lemma LoneList(ids: seq<Id>, id: Id)
    requires NoDup(ids) && id in ids && forall x :: x in ids ==> x == id
    ensures ids == [id]
  {
    FirstTwo(ids);
  }

  // ------------------------------------------------------------------ the whole loop

  /** What the loop returns. */
  ghost predicate LoopResult(cfg: Cfg, s: St, active: seq<Id>, i: nat, t: St, active': seq<Id>) {
    && cfg.Valid() && i <= |active|
    && LoopInv(cfg, t, active', |active'|)
    && Evolved(s, t, active, active') && WeakestGone(s, active, active')
    && |active| - |active'| <= Max(0, Deficit(cfg, s, active, i))
    && (!cfg.backend.Preempting? ==> active' == active)
    && (RunnersFit(cfg, s) && active != [] && (forall id :: id in s.running ==> id in active) ==> active' != [])
  }

  lemma FitEvolves(cfg: Cfg, s: St, t: St, active: seq<Id>, active': seq<Id>)
    requires cfg.Valid() && Evolved(s, t, active, active')
    ensures RunnersFit(cfg, s) ==> RunnersFit(cfg, t)
  {
    if RunnersFit(cfg, s) {
      forall id | id in t.running ensures FitsAlone(cfg, At(t.reqs, id)) {
        assert FitsAlone(cfg, At(s.reqs, id));
        if id in active' {
          assert MayGrow(At(s.reqs, id), At(t.reqs, id));
        } else {
          assert id !in Gone(active, active');
        }
      }
    }
  }

  lemma AfterSuccess(cfg: Cfg, s: St, t: St, active: seq<Id>, i: nat, u: St, active': seq<Id>)
    requires cfg.Valid() && i < |active| && Evolved(s, t, active, active)
    requires Deficit(cfg, t, active, i + 1) == Deficit(cfg, s, active, i)
    requires LoopResult(cfg, t, active, i + 1, u, active')
    ensures LoopResult(cfg, s, active, i, u, active')
  {
    hide LoopInv, Deficit, RunnersFit;
    FitEvolves(cfg, s, t, active, active);
    EvolvedTrans(s, t, u, active, active, active');
    WeakestTrans(s, t, active, active, active');
  }

  lemma AfterEvict(cfg: Cfg, s: St, t: St, active: seq<Id>, i: nat, rest: seq<Id>, j: nat, u: St, active': seq<Id>)
    requires cfg.Valid() && i < |active| && j <= |rest| == |active| - 1 && cfg.backend.Preempting?
    requires Evolved(s, t, active, rest) && WeakestGone(s, active, rest)
    requires Deficit(cfg, t, rest, j) < Deficit(cfg, s, active, i) && Deficit(cfg, s, active, i) >= 1
    requires RunnersFit(cfg, s) && (forall id :: id in s.running ==> id in active) ==> rest != []
    requires LoopResult(cfg, t, rest, j, u, active')
    ensures LoopResult(cfg, s, active, i, u, active')
  {
    hide LoopInv, Deficit, RunnersFit;
    FitEvolves(cfg, s, t, active, rest);
    EvolvedTrans(s, t, u, active, rest, active');
    WeakestTrans(s, t, active, rest, active');
  }

  lemma WantingFirst(cfg: Cfg, s: St, active: seq<Id>, i: nat)
    requires cfg.Valid() && i < |active| && Wants(cfg, At(s.reqs, active[i])) && s.free == []
    ensures Deficit(cfg, s, active, i) >= 1
  {
    assert active[i..][0] == active[i];
  }

  lemma NeverRaises(cfg: Cfg, s: St, active: seq<Id>, i: nat)
    requires LoopInv(cfg, s, active, i) && i < |active| && !AppendSlot(cfg, s, active[i]).1
    ensures cfg.backend.Preempting? && AppendSlot(cfg, s, active[i]).0 == s
    ensures Wants(cfg, At(s.reqs, active[i])) && s.free == []
  {
    hide RunnersOk, ReqsOk, MemOk, PoolOk, WaitersOk, OthersOk, CommitOk, ListsOk, AdmitOrder, Wants;
    var id := active[i];
    FrontNext(active, i);
    assert id in active;
    AppendKeepsCore(cfg, s, Front(active, i), id);
    if cfg.backend.Reserve? {
      assert forall x :: x in Front(active, i) ==> x in active;
      ReserveNeverShort(cfg, s, Front(active, i), id);
    }
  }

  /**
   The eviction loop ends, never raises, and returns survivors that all have room for their next
   token.  Survivors and victims partition the batch, every victim ranks below every survivor, no
   more requests are evicted than units were missing, and with only unfinished requests running the
   batch is never emptied.
   */
  lemma {:induction false} EnsureLoopFacts(cfg: Cfg, s: St, active: seq<Id>, i: nat)
    requires LoopInv(cfg, s, active, i)
    ensures EnsureLoop(cfg, s, active, i).Ok?
    ensures var r := EnsureLoop(cfg, s, active, i).value; LoopResult(cfg, s, active, i, r.0, r.1)
    decreases 2 * |active| - i
  {
    hide LoopInv, Evolved, WeakestGone, LoopResult, AppendSlot, Preempt, VictimIndex, Deficit, Wants;
    LoopBasics(cfg, s, active, i);
    if i == |active| {
      LoopDone(cfg, s, active);
    } else {
      var (t, ok) := AppendSlot(cfg, s, active[i]);
      if ok {
        SuccessTurn(cfg, s, active, i);
        EnsureLoopFacts(cfg, t, active, i + 1);
        var r := EnsureLoop(cfg, t, active, i + 1).value;
        AfterSuccess(cfg, s, t, active, i, r.0, r.1);
      } else {
        NeverRaises(cfg, s, active, i);
        var v := VictimIndex(s.reqs, active);
        var rest, j := RemoveAt(active, v), if v < i then i - 1 else i;
        EvictTurn(cfg, s, active, i);
        EnsureLoopFacts(cfg, Preempt(s, active[v]), rest, j);
        var r := EnsureLoop(cfg, Preempt(s, active[v]), rest, j).value;
        WantingFirst(cfg, s, active, i);
        if |active| == 1 && RunnersFit(cfg, s) && (forall id :: id in s.running ==> id in active) {
          LoneNeverShort(cfg, s, active, i);
        }
        AfterEvict(cfg, s, Preempt(s, active[v]), active, i, rest, j, r.0, r.1);
      }
    }
  }

  lemma LoopBasics(cfg: Cfg, s: St, active: seq<Id>, i: nat)
    requires LoopInv(cfg, s, active, i)
    ensures cfg.Valid() && i <= |active| && NoDup(active)
  {
  }

  lemma LoopDone(cfg: Cfg, s: St, active: seq<Id>)
    requires LoopInv(cfg, s, active, |active|)
    ensures LoopResult(cfg, s, active, |active|, s, active)
  {
    EvolvedRefl(s, active);
  }
}
