/** Requests on the heap and the id-indexed map that the specification of the scheduler works on. */
module Registry {
  import opened Prelude
  import opened Transformer
  import opened Scheduling
  import opened Lists
  import opened PreserveQueues
  import opened PreserveForward
  import opened Requests

  /** Every request is filed under its own id. */
  ghost predicate Filed(all: map<Id, Request>) {
    forall id :: id in all ==> all[id].id == id
  }

  ghost predicate Known(all: map<Id, Request>, r: Request) {
    r.id in all && all[r.id] == r
  }

  ghost predicate Listed(all: map<Id, Request>, rs: seq<Request>) {
    forall i :: 0 <= i < |rs| ==> Known(all, rs[i])
  }

  ghost function ReqMap(all: map<Id, Request>): (m: map<Id, Req>)
    reads all.Values
    ensures m.Keys == all.Keys
  {
    map id | id in all :: all[id].View()
  }

  lemma AtKnown(all: map<Id, Request>, r: Request)
    requires Known(all, r)
    ensures At(ReqMap(all), r.id) == r.View()
  {
  }

  lemma IdsConcat(a: seq<Request>, b: seq<Request>)
    ensures Ids(a + b) == Ids(a) + Ids(b)
  {
  }

  lemma IdsSlice(a: seq<Request>, i: nat, j: nat)
    requires i <= j <= |a|
    ensures Ids(a[i..j]) == Ids(a)[i..j] && Ids(a[i..]) == Ids(a)[i..] && Ids(a[..j]) == Ids(a)[..j]
  {
  }

  // ------------------------------------------------------------------ stable sort

  /** list.sort with a key: equal keys keep their order. */
  function InsertRequest(order: Order, sorted: seq<Request>, r: Request): seq<Request>
    reads sorted, r
  {
    if sorted == [] || !Less(order, r.View(), Last(sorted).View()) then sorted + [r]
    else InsertRequest(order, Init(sorted), r) + [Last(sorted)]
  }

  lemma InInit(rs: seq<Request>, front: seq<Request>)
    requires rs != [] && forall r :: r in front ==> r in Init(rs)
    ensures forall r :: r in front ==> r in rs
    ensures forall i :: 0 <= i < |front| ==> front[i] in rs
  {
    forall r | r in Init(rs) ensures r in rs {
      var i :| 0 <= i < |rs| - 1 && rs[i] == r;
    }
  }

  function SortRequests(order: Order, rs: seq<Request>): (sorted: seq<Request>)
    reads rs
    ensures forall r :: r in sorted ==> r in rs
  {
    if rs == [] then []
    else
      var front := SortRequests(order, Init(rs));
      InInit(rs, front);
      InsertRequestMembers(order, front, Last(rs));
      InsertRequest(order, front, Last(rs))
  }

  lemma {:induction false} InsertRequestMembers(order: Order, sorted: seq<Request>, r: Request)
    ensures forall x :: x in InsertRequest(order, sorted, r) ==> x in sorted || x == r
  {
    if sorted != [] {
      InsertRequestMembers(order, Init(sorted), r);
    }
  }

  lemma {:induction false} InsertIds(all: map<Id, Request>, order: Order, sorted: seq<Request>, r: Request)
    requires Listed(all, sorted) && Known(all, r)
    ensures Ids(InsertRequest(order, sorted, r)) == Insert(ReqMap(all), order, Ids(sorted), r.id)
    ensures Listed(all, InsertRequest(order, sorted, r))
  {
    if sorted == [] {
    } else {
      var last := Last(sorted);
      assert Known(all, last);
      AtKnown(all, r);
      AtKnown(all, last);
      assert Ids(Init(sorted)) == Init(Ids(sorted)) && Last(Ids(sorted)) == last.id;
      if Less(order, r.View(), last.View()) {
        InsertIds(all, order, Init(sorted), r);
        IdsConcat(InsertRequest(order, Init(sorted), r), [last]);
      } else {
        IdsConcat(sorted, [r]);
      }
    }
  }

  lemma {:induction false} SortIds(all: map<Id, Request>, order: Order, rs: seq<Request>)
    requires Listed(all, rs)
    ensures Ids(SortRequests(order, rs)) == Sort(ReqMap(all), order, Ids(rs))
    ensures Listed(all, SortRequests(order, rs))
  {
    if rs != [] {
      SortIds(all, order, Init(rs));
      assert Known(all, Last(rs));
      InsertIds(all, order, SortRequests(order, Init(rs)), Last(rs));
      assert Ids(Init(rs)) == Init(Ids(rs)) && Last(Ids(rs)) == Last(rs).id;
    }
  }

  // ------------------------------------------------------------------ filtering

  /** [r for r in rs if not r.finished] */
  function NotFinished(rs: seq<Request>): seq<Request>
    reads rs
  {
    if rs == [] then [] else NotFinished(Init(rs)) + if Last(rs).Finished() then [] else [Last(rs)]
  }

  lemma {:induction false} NotCancelledIds(all: map<Id, Request>, rs: seq<Request>, drop: set<Id>)
    requires Listed(all, rs)
    requires forall id :: id in Ids(rs) ==> (id in drop <==> At(ReqMap(all), id).cancelled)
    ensures Ids(NotCancelled(rs)) == Without(Ids(rs), drop) && Listed(all, NotCancelled(rs))
    ensures forall r :: r in NotCancelled(rs) ==> r in rs
  {
    if rs != [] {
      Snoc(Ids(rs));
      assert Ids(Init(rs)) == Init(Ids(rs)) && Last(Ids(rs)) == Last(rs).id;
      NotCancelledIds(all, Init(rs), drop);
      assert Known(all, Last(rs));
      AtKnown(all, Last(rs));
      IdsConcat(NotCancelled(Init(rs)), if Last(rs).cancelled then [] else [Last(rs)]);
    }
  }

  lemma {:induction false} NotFinishedIds(all: map<Id, Request>, rs: seq<Request>, drop: set<Id>)
    requires Listed(all, rs)
    requires forall id :: id in Ids(rs) ==> (id in drop <==> At(ReqMap(all), id).Done())
    ensures Ids(NotFinished(rs)) == Without(Ids(rs), drop) && Listed(all, NotFinished(rs))
    ensures forall r :: r in NotFinished(rs) ==> r in rs
  {
    if rs != [] {
      Snoc(Ids(rs));
      assert Ids(Init(rs)) == Init(Ids(rs)) && Last(Ids(rs)) == Last(rs).id;
      NotFinishedIds(all, Init(rs), drop);
      assert Known(all, Last(rs));
      AtKnown(all, Last(rs));
      IdsConcat(NotFinished(Init(rs)), if Last(rs).Finished() then [] else [Last(rs)]);
    }
  }

  // ------------------------------------------------------------------ the eviction victim

  /** Position of the first request with the smallest (preempt_count, -admit_seq). */
  function VictimOf(active: seq<Request>): (v: nat)
    requires active != []
    reads active
    ensures v < |active|
  {
    if |active| == 1 then 0
    else
      var v := VictimOf(Init(active));
      if Weaker(Last(active).View(), active[v].View()) then |active| - 1 else v
  }

  lemma {:induction false} VictimIs(all: map<Id, Request>, active: seq<Request>)
    requires Listed(all, active) && active != []
    ensures VictimOf(active) == VictimIndex(ReqMap(all), Ids(active))
  {
    assert Ids(Init(active)) == Init(Ids(active)) && Last(Ids(active)) == Last(active).id;
    if |active| > 1 {
      VictimIs(all, Init(active));
      var v := VictimOf(Init(active));
      assert Known(all, Last(active)) && Known(all, active[v]);
      AtKnown(all, Last(active));
      AtKnown(all, active[v]);
      assert Ids(active)[v] == active[v].id;
    }
  }

  // ------------------------------------------------------------------ marking, releasing, emitting, one by one

  function MarkOne(r: Req): Req {
    if r.cancelled && !r.Done() then r.(reason := Some(Cancelled)) else r
  }

  lemma MarkNext(reqs: map<Id, Req>, ids: seq<Id>, i: nat)
    requires i < |ids| && ids[i] in reqs
    ensures ids[i] in MarkCancelled(reqs, ids[..i])
    ensures MarkCancelled(reqs, ids[..i + 1])
         == MarkCancelled(reqs, ids[..i])[ids[i] := MarkOne(MarkCancelled(reqs, ids[..i])[ids[i]])]
  {
    assert forall id :: id in ids[..i + 1] <==> id in ids[..i] || id == ids[i];
  }

  lemma MarkNone(reqs: map<Id, Req>)
    ensures MarkCancelled(reqs, []) == reqs
  {
  }

  lemma {:induction false} ReleaseKeeps(s: St, ids: seq<Id>, id: Id)
    ensures At(Release(s, ids).reqs, id).reason == At(s.reqs, id).reason
    ensures id !in ids ==> At(Release(s, ids).reqs, id) == At(s.reqs, id)
    ensures Release(s, ids).running == s.running && Release(s, ids).waiting == s.waiting
  {
    if ids != [] {
      Snoc(ids);
      ReleaseKeeps(s, Init(ids), id);
      ReleaseKeeps(s, Init(ids), Last(ids));
    }
  }

  lemma ReleaseNext(s: St, ids: seq<Id>, i: nat)
    requires i < |ids|
    ensures var t, id := Release(s, ids[..i]), ids[i];
      Release(s, ids[..i + 1])
      == if At(s.reqs, id).Done() then Free(t.(reqs := t.reqs[id := At(t.reqs, id).(phase := Finished)]), id) else t
  {
    assert Init(ids[..i + 1]) == ids[..i];
  }

  lemma WithoutNext(ids: seq<Id>, drop: set<Id>, i: nat)
    requires i < |ids|
    ensures Without(ids[..i + 1], drop) == Without(ids[..i], drop) + if ids[i] in drop then [] else [ids[i]]
  {
    assert Init(ids[..i + 1]) == ids[..i];
  }

  lemma EmitAllNext(reqs: map<Id, Req>, ids: seq<Id>, toks: seq<Token>, i: nat)
    requires i < |ids| == |toks|
    ensures var r := EmitAll(reqs, ids[..i], toks[..i]);
      EmitAll(reqs, ids[..i + 1], toks[..i + 1]) == r[ids[i] := Emit(At(r, ids[i]), toks[i])]
  {
    assert Init(ids[..i + 1]) == ids[..i] && Init(toks[..i + 1]) == toks[..i];
  }

  /** Prefilled requests are activated and get their token one after the other. */
  function EmitEach(reqs: map<Id, Req>, ids: seq<Id>, toks: seq<Token>): map<Id, Req>
    requires |ids| == |toks|
  {
    if ids == [] then reqs
    else
      var r := EmitEach(reqs, Init(ids), Init(toks));
      r[Last(ids) := Emit(At(r, Last(ids)).(phase := Running), Last(toks))]
  }

  lemma EmitEachNext(reqs: map<Id, Req>, ids: seq<Id>, toks: seq<Token>, i: nat)
    requires i < |ids| == |toks|
    ensures var r := EmitEach(reqs, ids[..i], toks[..i]);
      EmitEach(reqs, ids[..i + 1], toks[..i + 1]) == r[ids[i] := Emit(At(r, ids[i]).(phase := Running), toks[i])]
  {
    assert Init(ids[..i + 1]) == ids[..i] && Init(toks[..i + 1]) == toks[..i];
  }

  lemma {:induction false} EmitEachFacts(reqs: map<Id, Req>, ids: seq<Id>, toks: seq<Token>)
    requires |ids| == |toks| && NoDup(ids) && forall id :: id in ids ==> id in reqs
    ensures var r := EmitEach(reqs, ids, toks);
      && r.Keys == reqs.Keys
      && (forall id :: id !in ids ==> At(r, id) == At(reqs, id))
      && (forall i :: 0 <= i < |ids| ==> At(r, ids[i]) == Emit(At(reqs, ids[i]).(phase := Running), toks[i]))
  {
    hide Emit;
    if ids != [] {
      Snoc(ids);
      NoDupSnoc(ids);
      assert Last(ids) in ids && forall id :: id in Init(ids) ==> id in ids;
      EmitEachFacts(reqs, Init(ids), Init(toks));
      var k := |ids| - 1;
      forall i | 0 <= i < |ids|
        ensures At(EmitEach(reqs, ids, toks), ids[i]) == Emit(At(reqs, ids[i]).(phase := Running), toks[i])
      {
        if i < k {
          assert ids[i] == Init(ids)[i] && ids[i] != ids[k];
        }
      }
    }
  }

  /** Activating everyone first comes to the same. */
  lemma EmitEachIs(reqs: map<Id, Req>, ids: seq<Id>, toks: seq<Token>)
    requires |ids| == |toks| && NoDup(ids) && forall id :: id in ids ==> id in reqs
    ensures EmitEach(reqs, ids, toks) == EmitAll(Activate(reqs, ids), ids, toks)
  {
    hide Emit;
    EmitEachFacts(reqs, ids, toks);
    EmitAllFacts(Activate(reqs, ids), ids, toks);
    var a, b := EmitEach(reqs, ids, toks), EmitAll(Activate(reqs, ids), ids, toks);
    forall id | id in reqs ensures At(a, id) == At(b, id) {
      if id in ids {
        var i := IndexOf(ids, id);
        assert ids[i] == id;
      }
    }
    assert forall id :: id in a <==> id in b;
    forall id | id in a ensures a[id] == b[id] {
      assert At(a, id) == At(b, id);
    }
  }
}
