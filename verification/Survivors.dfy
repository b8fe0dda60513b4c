/**
 Which rows the eviction loop keeps: the strongest ones, as many as the memory can carry.

 The loop grows tables, gives up when the free list runs dry and evicts the weakest row, editing the list
 it walks.  What comes out can be said without any of that: take the rows from the weakest up, and drop
 them while the blocks that the others need exceed the blocks there are.
 */
module Survivors {
  import opened Prelude
  import Forward
  import opened Scheduling
  import opened Lists
  import opened Invariant
  import opened PreserveEviction
  import opened EvictionLoop
  import opened Steps
  import Accounting

  // ------------------------------------------------------------------ blocks needed, blocks there are

  /** Blocks that the tokens of these rows take, the ones about to be fed included. */
  ghost function Demand(cfg: Cfg, reqs: map<Id, Req>, ids: seq<Id>): int
    requires cfg.Valid()
  {
    if ids == [] then 0 else Demand(cfg, reqs, Init(ids)) + Need(cfg, At(reqs, Last(ids)).SeqLen())
  }

  /** Blocks that are free or held by these rows. */
  ghost function Supply(s: St, ids: seq<Id>): nat {
    |s.free| + |Held(s.reqs, ids)|
  }

  lemma {:induction false} DemandConcat(cfg: Cfg, reqs: map<Id, Req>, a: seq<Id>, b: seq<Id>)
    requires cfg.Valid()
    ensures Demand(cfg, reqs, a + b) == Demand(cfg, reqs, a) + Demand(cfg, reqs, b)
  {
    if b == [] {
      assert a + b == a;
    } else {
      DemandConcat(cfg, reqs, a, Init(b));
      assert Init(a + b) == a + Init(b);
    }
  }

  lemma DemandPick(cfg: Cfg, reqs: map<Id, Req>, ids: seq<Id>, k: nat)
    requires cfg.Valid() && k < |ids|
    ensures Demand(cfg, reqs, ids) == Demand(cfg, reqs, RemoveAt(ids, k)) + Need(cfg, At(reqs, ids[k]).SeqLen())
  {
    assert ids == (ids[..k] + [ids[k]]) + ids[k + 1..];
    DemandConcat(cfg, reqs, ids[..k] + [ids[k]], ids[k + 1..]);
    DemandConcat(cfg, reqs, ids[..k], ids[k + 1..]);
    assert Init(ids[..k] + [ids[k]]) == ids[..k];
  }

  lemma {:induction false} DemandFrame(cfg: Cfg, reqs: map<Id, Req>, reqs': map<Id, Req>, ids: seq<Id>)
    requires cfg.Valid() && forall id :: id in ids ==> At(reqs', id).SeqLen() == At(reqs, id).SeqLen()
    ensures Demand(cfg, reqs', ids) == Demand(cfg, reqs, ids)
  {
    hide Need;
    if ids != [] {
      InitMembers(ids);
      DemandFrame(cfg, reqs, reqs', Init(ids));
    }
  }

  /** Rows whose tables hold no more than they need together hold no more than that; less if one is short. */
  lemma {:induction false} HeldWithinDemand(cfg: Cfg, reqs: map<Id, Req>, ids: seq<Id>)
    requires cfg.Valid() && forall id :: id in ids ==> |At(reqs, id).table| <= Need(cfg, At(reqs, id).SeqLen())
    ensures |Held(reqs, ids)| <= Demand(cfg, reqs, ids)
    ensures (exists id :: id in ids && Wants(cfg, At(reqs, id))) ==> |Held(reqs, ids)| < Demand(cfg, reqs, ids)
  {
    hide Need;
    if ids != [] {
      InitMembers(ids);
      HeldWithinDemand(cfg, reqs, Init(ids));
      assert |Held(reqs, ids)| == |Held(reqs, Init(ids))| + |At(reqs, Last(ids)).table|;
      forall id | id in ids && Wants(cfg, At(reqs, id)) ensures |Held(reqs, ids)| < Demand(cfg, reqs, ids) {
        assert id == Last(ids) || id in Init(ids);
      }
    }
  }

  lemma {:induction false} HeldMeetsDemand(cfg: Cfg, reqs: map<Id, Req>, ids: seq<Id>)
    requires cfg.Valid() && forall id :: id in ids ==> |At(reqs, id).table| == Need(cfg, At(reqs, id).SeqLen())
    ensures |Held(reqs, ids)| == Demand(cfg, reqs, ids)
  {
    hide Need;
    if ids != [] {
      InitMembers(ids);
      HeldMeetsDemand(cfg, reqs, Init(ids));
    }
  }

  /** Inside the loop no table is longer than its row needs, and those in front are exactly that long. */
  lemma TableInLoop(cfg: Cfg, s: St, active: seq<Id>, i: nat, id: Id)
    requires LoopInv(cfg, s, active, i) && id in active
    ensures cfg.Valid() && |At(s.reqs, id).table| <= Need(cfg, At(s.reqs, id).SeqLen())
    ensures id in Front(active, i) ==> |At(s.reqs, id).table| == Need(cfg, At(s.reqs, id).SeqLen())
  {
    hide ListsOk, ReqsOk, WaitersOk, OthersOk, MemOk, CommitOk, AdmitOrder, Need, Forward.PoolOk, Forward.Holds;
    var r := At(s.reqs, id);
    assert RunningOk(cfg, s.pool, r, id in Front(active, i));
    NeedMonotone(cfg, r.SeqLen() - 1, r.SeqLen());
  }

  // ------------------------------------------------------------------ one turn of the loop

  /** Handing a row a free block changes neither the blocks needed nor the blocks there are. */
  lemma GrowKeepsBalance(cfg: Cfg, s: St, active: seq<Id>, i: nat)
    requires LoopInv(cfg, s, active, i) && i < |active| && AppendSlot(cfg, s, active[i]).1
    ensures var t := AppendSlot(cfg, s, active[i]).0;
      cfg.Valid() && Demand(cfg, t.reqs, active) == Demand(cfg, s.reqs, active) && Supply(t, active) == Supply(s, active)
  {
    hide Core, AppendSlot, Wants, Demand, Held, NoDup;
    LoopBasics(cfg, s, active, i);
    var id, t := active[i], AppendSlot(cfg, s, active[i]).0;
    FrontNext(active, i);
    assert id in active;
    AppendKeepsCore(cfg, s, Front(active, i), id);
    if t != s {
      var r := Grow(At(s.reqs, id), Last(s.free));
      assert t.reqs == s.reqs[id := r];
      DemandFrame(cfg, s.reqs, t.reqs, active);
      HeldUpdate(s.reqs, active, id, r);
      GrownSize(s, t, active, id, r);
    }
  }

  lemma GrownSize(s: St, t: St, active: seq<Id>, id: Id, r: Req)
    requires GrownFrom(s, t, id) && t.reqs == s.reqs[id := r] && |r.table| == |At(s.reqs, id).table| + 1
    requires Held(t.reqs, active) + multiset(At(s.reqs, id).table) == Held(s.reqs, active) + multiset(r.table)
    ensures Supply(t, active) == Supply(s, active)
  {
    hide Held;
    assert |Held(t.reqs, active) + multiset(At(s.reqs, id).table)| == |Held(t.reqs, active)| + |At(s.reqs, id).table|;
    assert |Held(s.reqs, active) + multiset(r.table)| == |Held(s.reqs, active)| + |r.table|;
  }

  /** Evicting a row frees its blocks and drops its need. */
  lemma EvictKeepsSupply(cfg: Cfg, s: St, t: St, active: seq<Id>, v: nat)
    requires cfg.Valid() && NoDup(active) && v < |active| && EvictedFrom(s, t, active[v])
    ensures Supply(t, RemoveAt(active, v)) == Supply(s, active)
    ensures Demand(cfg, t.reqs, RemoveAt(active, v)) + Need(cfg, At(s.reqs, active[v]).SeqLen()) == Demand(cfg, s.reqs, active)
  {
    hide Held, Demand, Need, RemoveAt;
    var rest, id := RemoveAt(active, v), active[v];
    RemoveAtMembers(active, v);
    HeldPick(s.reqs, active, v);
    HeldOther(s.reqs, rest, id, Evicted(At(s.reqs, id)));
    DemandPick(cfg, s.reqs, active, v);
    DemandFrame(cfg, s.reqs, t.reqs, rest);
    assert |Held(s.reqs, rest) + multiset(At(s.reqs, id).table)| == |Held(s.reqs, rest)| + |At(s.reqs, id).table|;
  }

  /** A row that is short while nothing is free means that not all rows fit. */
  lemma ShortMeansTooMany(cfg: Cfg, s: St, active: seq<Id>, i: nat)
    requires LoopInv(cfg, s, active, i) && i < |active| && cfg.Valid() && Wants(cfg, At(s.reqs, active[i])) && s.free == []
    ensures Supply(s, active) < Demand(cfg, s.reqs, active)
  {
    hide LoopInv, Held, Demand, Need;
    forall id | id in active ensures |At(s.reqs, id).table| <= Need(cfg, At(s.reqs, id).SeqLen()) {
      TableInLoop(cfg, s, active, i, id);
    }
    assert active[i] in active;
    HeldWithinDemand(cfg, s.reqs, active);
  }

  lemma DoneMeansEnough(cfg: Cfg, s: St, active: seq<Id>)
    requires LoopInv(cfg, s, active, |active|) && cfg.Valid()
    ensures Demand(cfg, s.reqs, active) <= Supply(s, active)
  {
    hide LoopInv, Held, Demand, Need;
    assert active[..|active|] == active;
    forall id | id in active ensures |At(s.reqs, id).table| == Need(cfg, At(s.reqs, id).SeqLen()) {
      TableInLoop(cfg, s, active, |active|, id);
    }
    HeldMeetsDemand(cfg, s.reqs, active);
  }

  // ------------------------------------------------------------------ the whole loop

  /** `kept` fits, and with the strongest of those left out, `last`, it would not. */
  ghost predicate KeepsMost(cfg: Cfg, s: St, active: seq<Id>, kept: seq<Id>, last: Option<Id>)
    requires cfg.Valid()
  {
    && Demand(cfg, s.reqs, kept) <= Supply(s, active)
    && match last
       case None => kept == active
       case Some(v) =>
         && v in active && v !in kept
         && Demand(cfg, s.reqs, kept) + Need(cfg, At(s.reqs, v).SeqLen()) > Supply(s, active)
         && forall u :: u in active && u !in kept && u != v ==> Weaker(At(s.reqs, u), At(s.reqs, v))
  }

  lemma MostAfterGrowth(cfg: Cfg, s: St, t: St, active: seq<Id>, kept: seq<Id>, last: Option<Id>)
    requires cfg.Valid() && Evolved(s, t, active, active) && KeepsMost(cfg, t, active, kept, last)
    requires forall id :: id in kept ==> id in active
    requires Supply(t, active) == Supply(s, active)
    ensures KeepsMost(cfg, s, active, kept, last)
  {
    hide Demand, Supply, Need, Gone, NoDup;
    forall id | id in active ensures At(t.reqs, id).SeqLen() == At(s.reqs, id).SeqLen()
        && At(t.reqs, id).preempts == At(s.reqs, id).preempts && At(t.reqs, id).admitSeq == At(s.reqs, id).admitSeq {
      assert MayGrow(At(s.reqs, id), At(t.reqs, id));
    }
    DemandFrame(cfg, s.reqs, t.reqs, kept);
  }

  lemma MostAfterEviction(cfg: Cfg, s: St, t: St, active: seq<Id>, v: nat, kept: seq<Id>, last: Option<Id>) returns (last': Option<Id>)
    requires cfg.Valid() && NoDup(active) && v < |active| && EvictedFrom(s, t, active[v])
    requires WeakestGone(s, active, RemoveAt(active, v)) && Supply(s, active) < Demand(cfg, s.reqs, active)
    requires KeepsMost(cfg, t, RemoveAt(active, v), kept, last)
    requires forall id :: id in kept ==> id in RemoveAt(active, v)
    ensures KeepsMost(cfg, s, active, kept, last') && last'.Some?
  {
    hide Demand, Supply, Need, RemoveAt, Weaker;
    var rest := RemoveAt(active, v);
    RemoveAtMembers(active, v);
    EvictKeepsSupply(cfg, s, t, active, v);
    DemandFrame(cfg, s.reqs, t.reqs, kept);
    last' := if last.Some? then last else Some(active[v]);
    assert active[v] in Gone(active, rest);
  }

  lemma {:induction false} LoopKeepsMost(cfg: Cfg, s: St, active: seq<Id>, i: nat) returns (last: Option<Id>)
    requires LoopInv(cfg, s, active, i)
    ensures cfg.Valid() && i <= |active| && EnsureLoop(cfg, s, active, i).Ok?
    ensures KeepsMost(cfg, s, active, EnsureLoop(cfg, s, active, i).value.1, last)
    ensures forall id :: id in EnsureLoop(cfg, s, active, i).value.1 ==> id in active
    decreases 2 * |active| - i
  {
    hide LoopInv, AppendSlot, Preempt, VictimIndex, Deficit, Wants, Evolved, WeakestGone, KeepsMost, EvictedFrom, Demand, Supply;
    LoopBasics(cfg, s, active, i);
    if i == |active| {
      last := None;
      DoneMeansEnough(cfg, s, active);
      MostOfAll(cfg, s, active);
    } else {
      var (t, ok) := AppendSlot(cfg, s, active[i]);
      if ok {
        SuccessTurn(cfg, s, active, i);
        GrowKeepsBalance(cfg, s, active, i);
        last := LoopKeepsMost(cfg, t, active, i + 1);
        MostAfterGrowth(cfg, s, t, active, EnsureLoop(cfg, t, active, i + 1).value.1, last);
      } else {
        NeverRaises(cfg, s, active, i);
        EvictTurn(cfg, s, active, i);
        ShortMeansTooMany(cfg, s, active, i);
        var v := VictimIndex(s.reqs, active);
        var u, rest, j := Preempt(s, active[v]), RemoveAt(active, v), if v < i then i - 1 else i;
        EvictionOf(cfg, s, active, i, v);
        var before := LoopKeepsMost(cfg, u, rest, j);
        last := MostAfterEviction(cfg, s, u, active, v, EnsureLoop(cfg, u, rest, j).value.1, before);
        RemoveAtMembers(active, v);
      }
    }
  }

  lemma MostOfAll(cfg: Cfg, s: St, active: seq<Id>)
    requires cfg.Valid() && Demand(cfg, s.reqs, active) <= Supply(s, active)
    ensures KeepsMost(cfg, s, active, active, None)
  {
  }

  lemma EvictionOf(cfg: Cfg, s: St, active: seq<Id>, i: nat, v: nat)
    requires LoopInv(cfg, s, active, i) && i < |active| && cfg.backend.Preempting? && v == VictimIndex(s.reqs, active)
    ensures EvictedFrom(s, Preempt(s, active[v]), active[v])
  {
    hide Core, Preempt, EvictedFrom, VictimIndex;
    assert active[v] in active;
    CoreKnows(cfg, s, Front(active, i), active[v]);
    PreemptKeepsCore(cfg, s, Front(active, i), active[v]);
  }

  /**
   The loop keeps the strongest rows and evicts no more than it must.  The blocks that the survivors need
   are there; with the strongest victim among them they would not be, and every other victim ranks below
   that one.  (Every victim ranks below every survivor: Accounting.EvictionLoopIsRight.)  So the survivors
   are the longest strong end of the batch that the memory can carry.
   */
  lemma KeepsAsManyAsFit(cfg: Cfg, s: St) returns (last: Option<Id>)
    requires Inv(cfg, s)
    ensures cfg.Valid() && EnsureCapacity(cfg, s, Unfinished(s)).Ok?
    ensures var ids, kept := Unfinished(s), EnsureCapacity(cfg, s, Unfinished(s)).value.1;
      && Demand(cfg, s.reqs, kept) <= Supply(s, ids)
      && (last.None? <==> kept == ids)
      && (last.Some? ==>
            && last.value in ids && last.value !in kept
            && Demand(cfg, s.reqs, kept) + Need(cfg, At(s.reqs, last.value).SeqLen()) > Supply(s, ids)
            && forall u :: u in ids && u !in kept && u != last.value ==> Accounting.RanksBelow(At(s.reqs, u), At(s.reqs, last.value)))
  {
    hide Core, LoopInv, EnsureLoop, Sort, Unfinished, Demand, Supply;
    UnfinishedFacts(cfg, s);
    LoopBasics(cfg, s, Unfinished(s), 0);
    last := LoopKeepsMost(cfg, s, Unfinished(s), 0);
  }
}
