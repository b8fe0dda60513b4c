/** Facts about the id lists of the scheduler: filtering, removal, stable sorting, memory held. */
module Lists {
  import opened Prelude
  import opened Scheduling

  // ------------------------------------------------------------------ filtering and removal

  lemma Snoc(ids: seq<Id>)
    requires ids != []
    ensures ids == Init(ids) + [Last(ids)]
    ensures multiset(ids) == multiset(Init(ids)) + multiset{Last(ids)}
  {
    assert ids == Init(ids) + [Last(ids)];
  }

  lemma {:induction false} WithoutCount(ids: seq<Id>, drop: set<Id>, x: Id)
    ensures multiset(Without(ids, drop))[x] == if x in drop then 0 else multiset(ids)[x]
    ensures x in Without(ids, drop) <==> x in ids && x !in drop
  {
    if ids != [] {
      WithoutCount(Init(ids), drop, x);
      Snoc(ids);
      var w := Without(Init(ids), drop);
      if Last(ids) in drop {
        assert Without(ids, drop) == w;
      } else {
        assert Without(ids, drop) == w + [Last(ids)];
        assert multiset(w + [Last(ids)]) == multiset(w) + multiset([Last(ids)]);
      }
    }
  }

  lemma InitMembers(ids: seq<Id>)
    requires ids != []
    ensures Last(ids) in ids && ids == Init(ids) + [Last(ids)] && forall id :: id in Init(ids) ==> id in ids
  {
  }

  lemma {:induction false} WithoutMember(ids: seq<Id>, drop: set<Id>, x: Id)
    ensures x in Without(ids, drop) <==> x in ids && x !in drop
  {
    if ids != [] {
      WithoutMember(Init(ids), drop, x);
    }
  }

  lemma {:induction false} WithoutNone(ids: seq<Id>, drop: set<Id>)
    requires forall id :: id in ids ==> id !in drop
    ensures Without(ids, drop) == ids
  {
    if ids != [] {
      InitMembers(ids);
      WithoutNone(Init(ids), drop);
    }
  }

  lemma {:induction false} WithoutSize(ids: seq<Id>, drop: set<Id>)
    ensures |Without(ids, drop)| <= |ids|
    ensures (exists id :: id in ids && id in drop) ==> |Without(ids, drop)| < |ids|
  {
    if ids != [] {
      WithoutSize(Init(ids), drop);
      Snoc(ids);
      forall id | id in ids && id in drop ensures |Without(ids, drop)| < |ids| {
        if id != Last(ids) {
          assert id in Init(ids);
        }
      }
    }
  }

  lemma RemoveAtCount(ids: seq<Id>, i: nat)
    requires i < |ids|
    ensures multiset(RemoveAt(ids, i)) == multiset(ids) - multiset{ids[i]}
    ensures multiset(ids) == multiset(RemoveAt(ids, i)) + multiset{ids[i]}
  {
    assert ids == ids[..i] + [ids[i]] + ids[i + 1..];
  }

  // ------------------------------------------------------------------ stable sorting

  lemma {:induction false} InsertCount(reqs: map<Id, Req>, order: Order, sorted: seq<Id>, id: Id)
    ensures multiset(Insert(reqs, order, sorted, id)) == multiset(sorted) + multiset{id}
  {
    if sorted == [] || !Less(order, At(reqs, id), At(reqs, Last(sorted))) {
    } else {
      InsertCount(reqs, order, Init(sorted), id);
      assert sorted == Init(sorted) + [Last(sorted)];
    }
  }

  /** Sorting loses nothing and duplicates nothing. */
  lemma {:induction false} SortCount(reqs: map<Id, Req>, order: Order, ids: seq<Id>)
    ensures multiset(Sort(reqs, order, ids)) == multiset(ids)
  {
    hide Insert;
    if ids != [] {
      SortCount(reqs, order, Init(ids));
      InsertCount(reqs, order, Sort(reqs, order, Init(ids)), Last(ids));
      Snoc(ids);
    }
  }

  ghost predicate Sorted(reqs: map<Id, Req>, order: Order, ids: seq<Id>) {
    forall i, j :: 0 <= i < j < |ids| ==> !Less(order, At(reqs, ids[j]), At(reqs, ids[i]))
  }

  lemma AppendSorted(reqs: map<Id, Req>, order: Order, sorted: seq<Id>, id: Id)
    requires Sorted(reqs, order, sorted) && (sorted == [] || !Less(order, At(reqs, id), At(reqs, Last(sorted))))
    ensures Sorted(reqs, order, sorted + [id])
  {
    var r, k := sorted + [id], |sorted| - 1;
    forall i, j | 0 <= i < j < |r| ensures !Less(order, At(reqs, r[j]), At(reqs, r[i])) {
      if i < k && j == k + 1 {
        assert !Less(order, At(reqs, sorted[k]), At(reqs, sorted[i]));
      }
    }
  }

  lemma {:induction false} InsertSorted(reqs: map<Id, Req>, order: Order, sorted: seq<Id>, id: Id)
    requires Sorted(reqs, order, sorted)
    ensures Sorted(reqs, order, Insert(reqs, order, sorted, id))
  {
    if sorted == [] || !Less(order, At(reqs, id), At(reqs, Last(sorted))) {
      AppendSorted(reqs, order, sorted, id);
    } else {
      InsertSorted(reqs, order, Init(sorted), id);
      InsertCount(reqs, order, Init(sorted), id);
      var front, last := Insert(reqs, order, Init(sorted), id), Last(sorted);
      forall i | 0 <= i < |front| ensures !Less(order, At(reqs, last), At(reqs, front[i])) {
        assert front[i] in multiset(Init(sorted)) + multiset{id};
        if front[i] in multiset(Init(sorted)) {
          var k :| 0 <= k < |sorted| - 1 && sorted[k] == front[i];
          assert !Less(order, At(reqs, sorted[|sorted| - 1]), At(reqs, sorted[k]));
        }
      }
    }
  }

  lemma {:induction false} SortSorted(reqs: map<Id, Req>, order: Order, ids: seq<Id>)
    ensures Sorted(reqs, order, Sort(reqs, order, ids))
  {
    if ids != [] {
      SortSorted(reqs, order, Init(ids));
      InsertSorted(reqs, order, Sort(reqs, order, Init(ids)), Last(ids));
    }
  }

  /** A list already in order is returned as it is. */
  lemma {:induction false} SortIdentity(reqs: map<Id, Req>, order: Order, ids: seq<Id>)
    requires Sorted(reqs, order, ids)
    ensures Sort(reqs, order, ids) == ids
  {
    hide Less, Insert;
    if ids != [] {
      SortIdentity(reqs, order, Init(ids));
      InitMembers(ids);
      InsertLast(reqs, order, ids);
    }
  }

  lemma InsertLast(reqs: map<Id, Req>, order: Order, ids: seq<Id>)
    requires Sorted(reqs, order, ids) && ids != []
    ensures Insert(reqs, order, Init(ids), Last(ids)) == Init(ids) + [Last(ids)]
  {
    hide Less;
    if |ids| > 1 {
      assert !Less(order, At(reqs, ids[|ids| - 1]), At(reqs, ids[|ids| - 2]));
    }
  }

  /** Requests with equal keys stay in the order in which they came. */
  lemma EqualKeysStay(reqs: map<Id, Req>, ids: seq<Id>)
    requires forall a, b :: a in ids && b in ids ==>
      At(reqs, a).preempts == At(reqs, b).preempts && At(reqs, a).arrival == At(reqs, b).arrival
    ensures Sort(reqs, ByWait, ids) == ids
  {
    SortIdentity(reqs, ByWait, ids);
  }

  /** With nothing running, retiring only takes cancelled requests out of the queue. */
  lemma RetireIdle(s: St)
    requires s.running == []
    ensures Retire(s) == s.(waiting := Without(s.waiting, CancelledOf(s.reqs, s.waiting)))
  {
    assert MarkCancelled(s.reqs, []) == s.reqs;
  }

  lemma NothingToRetire(s: St)
    requires s.running == [] && forall id :: id in s.waiting ==> !At(s.reqs, id).cancelled
    ensures Retire(s) == s
  {
    RetireIdle(s);
    WithoutNone(s.waiting, CancelledOf(s.reqs, s.waiting));
  }

  // ------------------------------------------------------------------ memory held by a list of requests

  /** All the units in the tables of ids. */
  ghost function Held(reqs: map<Id, Req>, ids: seq<Id>): multiset<nat> {
    if ids == [] then multiset{} else Held(reqs, Init(ids)) + multiset(At(reqs, Last(ids)).table)
  }

  lemma {:induction false} HeldConcat(reqs: map<Id, Req>, a: seq<Id>, b: seq<Id>)
    ensures Held(reqs, a + b) == Held(reqs, a) + Held(reqs, b)
  {
    hide Held;
    if b == [] {
      assert a + b == a;
      HeldNone(reqs);
    } else {
      HeldConcat(reqs, a, Init(b));
      assert a + b == (a + Init(b)) + [Last(b)];
      HeldSnoc(reqs, a + Init(b), Last(b));
      Snoc(b);
      HeldSnoc(reqs, Init(b), Last(b));
      SumAssociates(Held(reqs, a), Held(reqs, Init(b)), multiset(At(reqs, Last(b)).table));
    }
  }

  lemma HeldNone(reqs: map<Id, Req>)
    ensures Held(reqs, []) == multiset{}
  {
  }

  lemma SumAssociates(a: multiset<nat>, b: multiset<nat>, c: multiset<nat>)
    ensures a + b + c == a + (b + c)
  {
  }

  lemma {:induction false} HeldFrame(reqs: map<Id, Req>, reqs': map<Id, Req>, ids: seq<Id>)
    requires forall id :: id in ids ==> At(reqs', id).table == At(reqs, id).table
    ensures Held(reqs', ids) == Held(reqs, ids)
  {
    if ids != [] {
      assert forall id :: id in Init(ids) ==> id in ids;
      HeldFrame(reqs, reqs', Init(ids));
    }
  }

  lemma HeldPick(reqs: map<Id, Req>, ids: seq<Id>, i: nat)
    requires i < |ids|
    ensures Held(reqs, ids) == Held(reqs, RemoveAt(ids, i)) + multiset(At(reqs, ids[i]).table)
  {
    assert ids == (ids[..i] + [ids[i]]) + ids[i + 1..];
    HeldConcat(reqs, ids[..i] + [ids[i]], ids[i + 1..]);
    HeldConcat(reqs, ids[..i], ids[i + 1..]);
    assert Init(ids[..i] + [ids[i]]) == ids[..i];
  }

  lemma {:induction false} HeldWithout(reqs: map<Id, Req>, ids: seq<Id>, drop: set<Id>)
    requires forall id :: id in ids && id in drop ==> At(reqs, id).table == []
    ensures Held(reqs, Without(ids, drop)) == Held(reqs, ids)
  {
    if ids != [] {
      assert Last(ids) in ids && forall id :: id in Init(ids) ==> id in ids;
      HeldWithout(reqs, Init(ids), drop);
      var w := Without(Init(ids), drop);
      if Last(ids) in drop {
        assert Without(ids, drop) == w;
        assert multiset(At(reqs, Last(ids)).table) == multiset{};
      } else {
        assert Without(ids, drop) == w + [Last(ids)];
        HeldSnoc(reqs, w, Last(ids));
      }
    }
  }

  lemma HeldSnoc(reqs: map<Id, Req>, ids: seq<Id>, id: Id)
    ensures Held(reqs, ids + [id]) == Held(reqs, ids) + multiset(At(reqs, id).table)
  {
    assert Init(ids + [id]) == ids;
  }

  /** Changing one request's table changes what the list holds by exactly that. */
  lemma HeldUpdate(reqs: map<Id, Req>, ids: seq<Id>, id: Id, r: Req)
    requires NoDup(ids) && id in ids
    ensures Held(reqs[id := r], ids) + multiset(At(reqs, id).table) == Held(reqs, ids) + multiset(r.table)
  {
    var i := IndexOf(ids, id);
    HeldPick(reqs, ids, i);
    HeldPick(reqs[id := r], ids, i);
    forall x | x in RemoveAt(ids, i) ensures x != id {
    }
    HeldFrame(reqs, reqs[id := r], RemoveAt(ids, i));
  }

  lemma HeldOther(reqs: map<Id, Req>, ids: seq<Id>, id: Id, r: Req)
    requires id !in ids
    ensures Held(reqs[id := r], ids) == Held(reqs, ids)
  {
    HeldFrame(reqs, reqs[id := r], ids);
  }

  // ------------------------------------------------------------------ sums over maps

  lemma {:induction false} SumOfRemove(m: map<Id, int>, k: Id)
    requires k in m
    ensures SumOf(m) == m[k] + SumOf(m - {k})
    decreases |m|
  {
    var j :| j in m && SumOf(m) == m[j] + SumOf(m - {j});
    if j != k {
      SumOfRemove(m - {j}, k);
      SumOfRemove(m - {k}, j);
      assert m - {j} - {k} == m - {k} - {j};
    }
  }

  lemma SumOfUpdate(m: map<Id, int>, k: Id, v: int)
    ensures SumOf(m[k := v]) == SumOf(m - {k}) + v
  {
    SumOfRemove(m[k := v], k);
    assert m[k := v] - {k} == m - {k};
  }
}
