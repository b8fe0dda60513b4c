/** Nobody waits forever: a waiting request is admitted within a number of steps fixed on arrival. */
module Fairness {
  import opened Prelude
  import opened Transformer
  import opened Scheduling
  import opened Lists
  import opened Invariant
  import opened PreserveQueues
  import opened EvictionLoop
  import opened Steps
  import opened Runs
  import opened Progress

  // ------------------------------------------------------------------ who comes first

  /** v comes before w when the list is sorted: smaller key, or equal keys and earlier in the list. */
  ghost predicate Ahead(reqs: map<Id, Req>, ids: seq<Id>, v: Id, w: Id) {
    v in ids && w in ids && v != w &&
    (Less(ByWait, At(reqs, v), At(reqs, w)) ||
     (!Less(ByWait, At(reqs, w), At(reqs, v)) && IndexOf(ids, v) < IndexOf(ids, w)))
  }

  /** v stands before w in the list. */
  ghost predicate Precedes(ids: seq<Id>, v: Id, w: Id) {
    exists i, j :: 0 <= i < j < |ids| && ids[i] == v && ids[j] == w
  }

  lemma PrecedesByIndex(ids: seq<Id>, v: Id, w: Id)
    requires NoDup(ids) && v in ids && w in ids && v != w
    ensures Precedes(ids, v, w) <==> IndexOf(ids, v) < IndexOf(ids, w)
  {
    var a, b := IndexOf(ids, v), IndexOf(ids, w);
    if a < b {
      assert ids[a] == v && ids[b] == w;
    }
  }

  lemma {:induction false} InsertPrecedes(reqs: map<Id, Req>, sorted: seq<Id>, x: Id, v: Id, w: Id)
    requires NoDup(sorted) && x !in sorted
    requires Precedes(Insert(reqs, ByWait, sorted, x), v, w)
    ensures v != x && w != x ==> Precedes(sorted, v, w)
    ensures v == x ==> w in sorted
    ensures w == x ==> v in sorted
  {
    var r := Insert(reqs, ByWait, sorted, x);
    var i, j :| 0 <= i < j < |r| && r[i] == v && r[j] == w;
    if sorted == [] || !Less(ByWait, At(reqs, x), At(reqs, Last(sorted))) {
      if v != x && w != x {
        assert sorted[i] == v && sorted[j] == w;
      }
    } else {
      var front := Insert(reqs, ByWait, Init(sorted), x);
      InsertMembers(reqs, Init(sorted), x);
      Snoc(sorted);
      if j < |front| {
        assert front[i] == v && front[j] == w;
        NoDupSnoc(sorted);
        InsertPrecedes(reqs, Init(sorted), x, v, w);
        if v != x && w != x {
          var a, b :| 0 <= a < b < |Init(sorted)| && Init(sorted)[a] == v && Init(sorted)[b] == w;
          assert sorted[a] == v && sorted[b] == w;
        }
      } else {
        assert w == Last(sorted) && v in front;
        if v != x {
          var a := IndexOf(Init(sorted), v);
          assert sorted[a] == v && sorted[|sorted| - 1] == w;
        }
      }
    }
  }

  lemma InsertMembers(reqs: map<Id, Req>, sorted: seq<Id>, x: Id)
    ensures forall y :: y in Insert(reqs, ByWait, sorted, x) <==> y in sorted || y == x
  {
    InsertCount(reqs, ByWait, sorted, x);
    forall y ensures y in Insert(reqs, ByWait, sorted, x) <==> y in sorted || y == x {
      CountPositive(Insert(reqs, ByWait, sorted, x), y);
      CountPositive(sorted, y);
    }
  }

  /** Inserting x: whoever ends up before x is not above it, and whoever ends up after x is below it. */
  lemma {:induction false} InsertPlaces(reqs: map<Id, Req>, sorted: seq<Id>, x: Id, y: Id)
    requires Sorted(reqs, ByWait, sorted) && NoDup(sorted) && x !in sorted && y in sorted
    ensures Precedes(Insert(reqs, ByWait, sorted, x), x, y) ==> Less(ByWait, At(reqs, x), At(reqs, y))
  {
    var r := Insert(reqs, ByWait, sorted, x);
    if sorted == [] || !Less(ByWait, At(reqs, x), At(reqs, Last(sorted))) {
      assert forall i :: 0 <= i < |sorted| ==> r[i] == sorted[i] && r[i] != x;
    } else {
      var last := Last(sorted);
      if y != last {
        Snoc(sorted);
        NoDupSnoc(sorted);
        assert y in Init(sorted);
        InsertPlaces(reqs, Init(sorted), x, y);
        var k := IndexOf(Init(sorted), y);
        assert !Less(ByWait, At(reqs, sorted[|sorted| - 1]), At(reqs, sorted[k]));
        if Precedes(r, x, y) {
          var front := Insert(reqs, ByWait, Init(sorted), x);
          var i, j :| 0 <= i < j < |r| && r[i] == x && r[j] == y;
          assert j < |front|;
          assert front[i] == x && front[j] == y;
        }
      }
    }
  }

  lemma SortMembers(reqs: map<Id, Req>, ids: seq<Id>)
    requires NoDup(ids)
    ensures NoDup(Sort(reqs, ByWait, ids)) && forall y :: y in Sort(reqs, ByWait, ids) <==> y in ids
  {
    var r := Sort(reqs, ByWait, ids);
    SortCount(reqs, ByWait, ids);
    forall y ensures (y in r <==> y in ids) && multiset(r)[y] <= 1 {
      CountPositive(r, y);
      CountPositive(ids, y);
      MultisetOfNoDup(ids, y);
    }
    NoDupFromCounts(r);
  }

  /** The sort is stable: whoever precedes w in the sorted list was ahead of w in the list. */
  lemma {:induction false} SortedMeansAhead(reqs: map<Id, Req>, ids: seq<Id>, v: Id, w: Id)
    requires NoDup(ids) && Precedes(Sort(reqs, ByWait, ids), v, w)
    ensures Ahead(reqs, ids, v, w)
  {
    hide Less;
    var r := Sort(reqs, ByWait, ids);
    SortMembers(reqs, ids);
    if ids == [] {
    } else {
      var init, x := Init(ids), Last(ids);
      Snoc(ids);
      NoDupSnoc(ids);
      SortMembers(reqs, init);
      SortSorted(reqs, ByWait, init);
      var sorted := Sort(reqs, ByWait, init);
      InsertPrecedes(reqs, sorted, x, v, w);
      IndexInInit(ids, v);
      IndexInInit(ids, w);
      if v != x && w != x {
        SortedMeansAhead(reqs, init, v, w);
      } else if v == x {
        InsertPlaces(reqs, sorted, x, w);
      } else {
        SortSorted(reqs, ByWait, ids);
        var i, j :| 0 <= i < j < |r| && r[i] == v && r[j] == w;
        assert !Less(ByWait, At(reqs, r[j]), At(reqs, r[i]));
        assert v != w;
      }
    }
  }

  /**
   The queue order in full: nobody is lost or added; most evicted first, then earliest arrival, then
   the place in the list.
   */
  lemma QueueOrder(reqs: map<Id, Req>, ids: seq<Id>, i: nat, j: nat)
    requires NoDup(ids)
    ensures multiset(Sort(reqs, ByWait, ids)) == multiset(ids) && |Sort(reqs, ByWait, ids)| == |ids|
    ensures i < j < |ids| ==>
      var v, w := Sort(reqs, ByWait, ids)[i], Sort(reqs, ByWait, ids)[j];
      var a, b := At(reqs, v), At(reqs, w);
      && v in ids && w in ids && a.preempts >= b.preempts
      && (a.preempts == b.preempts ==> a.arrival <= b.arrival)
      && (a.preempts == b.preempts && a.arrival == b.arrival ==> IndexOf(ids, v) < IndexOf(ids, w))
  {
    SortCount(reqs, ByWait, ids);
    SortSize(reqs, ids);
    if i < j < |ids| {
      var sorted := Sort(reqs, ByWait, ids);
      assert Precedes(sorted, sorted[i], sorted[j]);
      SortedMeansAhead(reqs, ids, sorted[i], sorted[j]);
    }
  }

  lemma IndexInInit(ids: seq<Id>, v: Id)
    requires ids != [] && NoDup(ids) && v in ids
    ensures v != Last(ids) ==> v in Init(ids) && IndexOf(ids, v) == IndexOf(Init(ids), v)
    ensures v == Last(ids) ==> IndexOf(ids, v) == |ids| - 1
  {
    Snoc(ids);
    if v != Last(ids) {
      var i, j := IndexOf(ids, v), IndexOf(Init(ids), v);
      assert ids[j] == v;
    }
  }

  // ------------------------------------------------------------------ what may still happen before w

  /** Tokens that id may still produce before w is admitted. */
  ghost function Before(s: St, w: Id, id: Id): int {
    if id in s.running || Ahead(s.reqs, s.waiting, id, w) then Rem(s, id) else 0
  }

  ghost function BeforeMap(s: St, w: Id): map<Id, int> {
    map id | id in s.reqs :: Before(s, w, id)
  }

  /** Tokens still to come from running requests and from those sorted ahead of w. */
  ghost function Wait(s: St, w: Id): int {
    SumOf(BeforeMap(s, w))
  }

  lemma WaitNonNegative(cfg: Cfg, s: St, w: Id)
    requires Inv(cfg, s)
    ensures Wait(s, w) >= 0
  {
    hide Inv, Rem, Ahead;
    forall id | id in BeforeMap(s, w) ensures BeforeMap(s, w)[id] >= 0 {
      RemNonNegative(cfg, s, id);
    }
    SumOfNonNegative(BeforeMap(s, w));
  }

  /** Filtering keeps relative order. */
  lemma {:induction false} WithoutPrecedes(ids: seq<Id>, drop: set<Id>, v: Id, w: Id)
    requires Precedes(Without(ids, drop), v, w)
    ensures Precedes(ids, v, w)
  {
    var r := Without(ids, drop);
    var i, j :| 0 <= i < j < |r| && r[i] == v && r[j] == w;
    if ids != [] {
      var init := Without(Init(ids), drop);
      if j < |init| {
        assert init[i] == v && init[j] == w;
        WithoutPrecedes(Init(ids), drop, v, w);
        var a, b :| 0 <= a < b < |Init(ids)| && Init(ids)[a] == v && Init(ids)[b] == w;
        assert ids[a] == v && ids[b] == w;
      } else {
        assert w == Last(ids) && init[i] == v;
        WithoutCount(Init(ids), drop, v);
        var a := IndexOf(Init(ids), v);
        assert ids[a] == v && ids[|ids| - 1] == w;
      }
    }
  }

  /** Ahead, said with Precedes. */
  lemma AheadCases(reqs: map<Id, Req>, ids: seq<Id>, v: Id, w: Id)
    requires NoDup(ids)
    ensures Ahead(reqs, ids, v, w) <==>
      v in ids && w in ids && v != w
      && (Less(ByWait, At(reqs, v), At(reqs, w)) || (!Less(ByWait, At(reqs, w), At(reqs, v)) && Precedes(ids, v, w)))
  {
    if v in ids && w in ids && v != w {
      PrecedesByIndex(ids, v, w);
    }
  }

  /** Retiring only takes requests out of the line. */
  lemma RetireAhead(s: St, r: St, v: Id, w: Id)
    requires ListsOk(s, []) && ListsOk(r, []) && RetiredFrom(s, r) && Ahead(r.reqs, r.waiting, v, w)
    ensures Ahead(s.reqs, s.waiting, v, w)
  {
    ListFacts(s, []);
    ListFacts(r, []);
    RetiredMembers(s, r);
    AheadCases(r.reqs, r.waiting, v, w);
    AheadCases(s.reqs, s.waiting, v, w);
    if Precedes(r.waiting, v, w) {
      WithoutPrecedes(s.waiting, CancelledOf(s.reqs, s.waiting), v, w);
    }
  }

  /** Whoever was admitted while w stayed was ahead of w. */
  lemma AdmittedAhead(cfg: Cfg, r: St, t: St, batch: seq<Id>, v: Id, w: Id)
    requires AdmitRel(cfg, r, t, batch) && ListsOk(r, []) && v in batch && w in t.waiting
    ensures Ahead(r.reqs, r.waiting, v, w)
  {
    ListFacts(r, []);
    var sorted := Sort(r.reqs, ByWait, r.waiting);
    var i, j := IndexOf(batch, v), IndexOf(t.waiting, w);
    assert sorted[i] == v && sorted[|batch| + j] == w;
    SortedMeansAhead(r.reqs, r.waiting, v, w);
  }

  lemma LaterNotLess(reqs: map<Id, Req>, sorted: seq<Id>, a: nat, b: nat)
    requires Sorted(reqs, ByWait, sorted) && a < |sorted|
    ensures b < a ==> !Less(ByWait, At(reqs, sorted[a]), At(reqs, sorted[b]))
  {
  }

  /** Admission lets nobody pass: whoever is ahead of w among those left was ahead before. */
  lemma LeftAhead(cfg: Cfg, r: St, t: St, batch: seq<Id>, v: Id, w: Id)
    requires AdmitRel(cfg, r, t, batch) && ListsOk(r, []) && ListsOk(t, []) && Ahead(t.reqs, t.waiting, v, w)
    ensures Ahead(r.reqs, r.waiting, v, w)
  {
    ListFacts(r, []);
    ListFacts(t, []);
    AdmitMembers(cfg, r, t, batch, v);
    AdmitMembers(cfg, r, t, batch, w);
    if !(t == r && batch == []) {
      assert At(t.reqs, v) == At(r.reqs, v) && At(t.reqs, w) == At(r.reqs, w);
      RestAhead(r.reqs, r.waiting, batch, t.waiting, v, w);
    }
  }

  /** In the rest of a sorted list, whoever is ahead by key or by position was ahead in the list sorted. */
  lemma RestAhead(reqs: map<Id, Req>, ids: seq<Id>, batch: seq<Id>, rest: seq<Id>, v: Id, w: Id)
    requires NoDup(ids) && Sort(reqs, ByWait, ids) == batch + rest && Ahead(reqs, rest, v, w)
    ensures Ahead(reqs, ids, v, w)
  {
    hide Less, Sort;
    var sorted := Sort(reqs, ByWait, ids);
    var i, j := IndexOf(rest, v), IndexOf(rest, w);
    assert sorted[|batch| + i] == v && sorted[|batch| + j] == w;
    SortSorted(reqs, ByWait, ids);
    LaterNotLess(reqs, sorted, |batch| + i, |batch| + j);
    SortedMeansAhead(reqs, ids, v, w);
  }

  /** Evicted requests join at the back: those already queued keep their places. */
  lemma DecodeAhead(cfg: Cfg, t: St, e: St, u: St, active: seq<Id>, v: Id, w: Id)
    requires DecodeRel(cfg, t, e, u, active) && ListsOk(t, []) && ListsOk(u, [])
    requires Ahead(u.reqs, u.waiting, v, w) && v in t.waiting && w in t.waiting
    ensures Ahead(t.reqs, t.waiting, v, w)
  {
    hide Wanting, WeakestGone, ListsOk;
    ListFacts(t, []);
    ListFacts(u, []);
    UnfinishedMembers(t, v);
    UnfinishedMembers(t, w);
    assert t.waiting <= u.waiting;
    PrefixIndex(t.waiting, u.waiting, v);
    PrefixIndex(t.waiting, u.waiting, w);
    assert At(u.reqs, v) == At(t.reqs, v) && At(u.reqs, w) == At(t.reqs, w);
  }

  lemma PrefixIndex(a: seq<Id>, b: seq<Id>, v: Id)
    requires a <= b && v in a && NoDup(b)
    ensures v in b && IndexOf(b, v) == IndexOf(a, v)
  {
    var i := IndexOf(a, v);
    assert b[i] == v;
  }

  // ------------------------------------------------------------------ one step

  /** While w stays in the queue, nobody new gets in front of it and nothing in front grows. */
  lemma StepBefore(cfg: Cfg, s: St, x: Trace, w: Id, id: Id)
    requires Traces(cfg, s, x) && w in s.waiting && w in x.t.waiting
    ensures Before(x.u, w, id) <= Before(s, w, id)
    ensures id in x.batch || id in x.active ==> Before(x.u, w, id) < Before(s, w, id) && id in s.reqs
  {
    hide Core, Rem, RetiredFrom, AdmitRel, DecodeRel, Starved, ListsOk, Ahead, Live, Retire, Admit, Decode, Step;
    RemNonNegative(cfg, s, id);
    RemNonNegative(cfg, x.r, id);
    RemNonNegative(cfg, x.t, id);
    RemNonNegative(cfg, x.u, id);
    InvLists(cfg, s);
    InvLists(cfg, x.r);
    InvLists(cfg, x.t);
    InvLists(cfg, x.u);
    StepRem(cfg, s, x, id);
    RetireRem(s, x.r, id);
    AdmitRem(cfg, x.r, x.t, x.batch, id);
    DecodeRem(cfg, x.t, x.e, x.u, x.active, id);
    RemCases(cfg, x.u, id);
    CountedBefore(cfg, s, x, w, id);
  }

  lemma RemCases(cfg: Cfg, s: St, id: Id)
    requires Inv(cfg, s)
    ensures Rem(s, id) == 0 || id in s.waiting || id in s.running
  {
  }

  /** Whoever counts as before w after the step counted before it. */
  lemma CountedBefore(cfg: Cfg, s: St, x: Trace, w: Id, id: Id)
    requires Traces(cfg, s, x) && w in s.waiting && w in x.t.waiting
    ensures id in x.u.running || Ahead(x.u.reqs, x.u.waiting, id, w) ==> id in s.running || Ahead(s.reqs, s.waiting, id, w)
    ensures id in x.batch || id in x.active ==> id in s.running || Ahead(s.reqs, s.waiting, id, w)
    ensures id in x.active ==> id in x.u.running
    ensures id in x.batch ==> id in x.u.running || Rem(x.u, id) >= 0
  {
    hide Core, Rem, RetiredFrom, AdmitRel, DecodeRel, Starved, ListsOk, Live, Retire, Admit, Decode, Step;
    InvLists(cfg, s);
    InvLists(cfg, x.r);
    InvLists(cfg, x.t);
    InvLists(cfg, x.u);
    RemNonNegative(cfg, s, id);
    RemNonNegative(cfg, x.r, id);
    RemNonNegative(cfg, x.t, id);
    RemNonNegative(cfg, x.u, id);
    RetireRem(s, x.r, id);
    AdmitRem(cfg, x.r, x.t, x.batch, id);
    DecodeRem(cfg, x.t, x.e, x.u, x.active, id);
    if id in x.batch {
      AdmittedAhead(cfg, x.r, x.t, x.batch, id, w);
      RetireAhead(s, x.r, id, w);
    } else if id in x.t.waiting && Ahead(x.u.reqs, x.u.waiting, id, w) {
      DecodeAhead(cfg, x.t, x.e, x.u, x.active, id, w);
      LeftAhead(cfg, x.r, x.t, x.batch, id, w);
      RetireAhead(s, x.r, id, w);
    }
  }

  /** w, the running requests and those sorted ahead of w fit the pool; nothing is said about the others. */
  ghost predicate WayClear(cfg: Cfg, s: St, w: Id)
    requires cfg.Valid()
  {
    forall id :: id == w || id in s.running || Ahead(s.reqs, s.waiting, id, w) ==> FitsAlone(cfg, At(s.reqs, id))
  }

  lemma AllFitClears(cfg: Cfg, s: St, w: Id)
    requires cfg.Valid() && AllFit(cfg, s) && w in s.waiting
    ensures WayClear(cfg, s, w)
  {
  }

  /** Whoever heads the sorted queue is w or ahead of w. */
  lemma HeadAhead(reqs: map<Id, Req>, ids: seq<Id>, w: Id)
    requires NoDup(ids) && w in ids
    ensures var q := Sort(reqs, ByWait, ids); q != [] && (q[0] == w || Ahead(reqs, ids, q[0], w))
  {
    hide Sort, Ahead;
    var q := Sort(reqs, ByWait, ids);
    SortMembers(reqs, ids);
    var i := IndexOf(q, w);
    if i > 0 {
      assert q[0] in q && q[i] == w;
      assert Precedes(q, q[0], w);
      SortedMeansAhead(reqs, ids, q[0], w);
    }
  }

  lemma ClearUnjams(cfg: Cfg, s: St, x: Trace, w: Id)
    requires Traces(cfg, s, x) && cfg.Valid() && w in s.waiting && w in x.r.waiting && WayClear(cfg, s, w)
    ensures Unjammed(cfg, x.r)
  {
    hide Core, AdmitRel, DecodeRel, Starved, FilledUp, FitsAlone, Sort, ListsOk, Retire, Admit, Decode, RetiredFrom, Ahead, Step;
    InvLists(cfg, s);
    InvLists(cfg, x.r);
    ListFacts(s, []);
    ListFacts(x.r, []);
    forall id | id in x.r.running ensures FitsAlone(cfg, At(x.r.reqs, id)) {
      StayedSame(s, x.r, id);
    }
    var h := HeadOf(x.r, w);
    StayedSame(s, x.r, h);
    if h != w {
      RetireAhead(s, x.r, h, w);
    }
  }

  lemma HeadOf(r: St, w: Id) returns (h: Id)
    requires NoDup(r.waiting) && w in r.waiting
    ensures Sort(r.reqs, ByWait, r.waiting) != [] && h == Sort(r.reqs, ByWait, r.waiting)[0]
    ensures h in r.waiting && (h == w || Ahead(r.reqs, r.waiting, h, w))
  {
    hide Sort, Ahead;
    HeadAhead(r.reqs, r.waiting, w);
    SortMembers(r.reqs, r.waiting);
    h := Sort(r.reqs, ByWait, r.waiting)[0];
    assert h in Sort(r.reqs, ByWait, r.waiting);
  }

  lemma StayedSame(s: St, r: St, id: Id)
    requires RetiredFrom(s, r) && (id in r.running || id in r.waiting) && ListsOk(s, [])
    ensures At(r.reqs, id) == At(s.reqs, id) && (id in s.running || id in s.waiting)
    ensures id in r.running ==> id in s.running
  {
    RetiredMembers(s, r);
    ListFacts(s, []);
  }

  /** The way stays clear while w waits, whoever is evicted meanwhile. */
  lemma StepKeepsClear(cfg: Cfg, s: St, x: Trace, w: Id)
    requires Traces(cfg, s, x) && cfg.Valid() && w in s.waiting && w in x.t.waiting && WayClear(cfg, s, w)
    ensures WayClear(cfg, x.u, w)
  {
    hide Traces, FitsAlone, Ahead;
    forall id | id == w || id in x.u.running || Ahead(x.u.reqs, x.u.waiting, id, w) ensures FitsAlone(cfg, At(x.u.reqs, id)) {
      CountedBefore(cfg, s, x, w, id);
      StepLater(cfg, s, x, id);
      FitsSame(cfg, At(s.reqs, id), At(x.u.reqs, id));
    }
  }

  /** Every step either admits w or brings its turn closer. */
  lemma StepShrinksWait(cfg: Cfg, s: St, x: Trace, w: Id)
    requires Traces(cfg, s, x) && w in s.waiting && !At(s.reqs, w).cancelled && w !in x.batch
    requires cfg.Valid() && WayClear(cfg, s, w)
    ensures w in x.u.waiting && At(x.u.reqs, w) == At(s.reqs, w)
    ensures Wait(x.u, w) < Wait(s, w) && WayClear(cfg, x.u, w)
  {
    hide Traces, Before, WayClear, Unjammed;
    WaiterStays(cfg, s, x, w);
    ClearUnjams(cfg, s, x, w);
    StepKeepsClear(cfg, s, x, w);
    forall id ensures id in BeforeMap(x.u, w) <==> id in BeforeMap(s, w) {
      StepRem(cfg, s, x, id);
    }
    assert BeforeMap(x.u, w).Keys == BeforeMap(s, w).Keys;
    forall id | id in BeforeMap(s, w) ensures BeforeMap(x.u, w)[id] <= BeforeMap(s, w)[id] {
      StepBefore(cfg, s, x, w, id);
    }
    TraceAdvances(cfg, s, x);
    var k := if x.batch != [] then x.batch[0] else x.active[0];
    assert k in x.batch || k in x.active;
    StepBefore(cfg, s, x, w, k);
    SumOfStrict(BeforeMap(s, w), BeforeMap(x.u, w), k);
  }

  lemma WaiterStays(cfg: Cfg, s: St, x: Trace, w: Id)
    requires Traces(cfg, s, x) && w in s.waiting && !At(s.reqs, w).cancelled && w !in x.batch
    ensures w in x.r.waiting && w in x.t.waiting && w in x.u.waiting && At(x.u.reqs, w) == At(s.reqs, w)
    ensures HasWork(x.r)
  {
    hide Core, Rem, AdmitRel, DecodeRel, Starved, ListsOk, Live, Retire, Admit, Decode, Step;
    InvLists(cfg, s);
    InvLists(cfg, x.r);
    InvLists(cfg, x.t);
    RemNonNegative(cfg, x.r, w);
    RemNonNegative(cfg, x.t, w);
    RetiredMembers(s, x.r);
    ListFacts(s, []);
    AdmitRem(cfg, x.r, x.t, x.batch, w);
    DecodeRem(cfg, x.t, x.e, x.u, x.active, w);
  }

  // ------------------------------------------------------------------ whole runs

  /** The same request later on: its parameters are untouched and it only gained tokens. */
  ghost predicate Later(r: Req, r': Req) {
    && r'.prompt == r.prompt && r'.maxNew == r.maxNew && r'.ignoreEos == r.ignoreEos && r'.arrival == r.arrival
    && r.output <= r'.output
  }

  lemma StepLater(cfg: Cfg, s: St, x: Trace, id: Id)
    requires Traces(cfg, s, x)
    ensures Later(At(s.reqs, id), At(x.u.reqs, id))
    ensures id in x.batch ==> |At(x.u.reqs, id).output| > |At(s.reqs, id).output|
    ensures id in s.reqs <==> id in x.u.reqs
  {
    hide Core, Starved, AdmitRel, DecodeRel, ListsOk, RetiredFrom, Retire, Admit, Decode, Step;
    StepKeys(cfg, s, x, id);
    RetireLater(s, x.r, id);
    AdmitLater(cfg, x.r, x.t, x.batch, id);
    DecodeLater(cfg, x.t, x.e, x.u, x.active, id);
  }

  lemma RetireLater(s: St, r: St, id: Id)
    requires RetiredFrom(s, r)
    ensures Later(At(s.reqs, id), At(r.reqs, id)) && At(r.reqs, id).output == At(s.reqs, id).output
  {
  }

  lemma AdmitLater(cfg: Cfg, r: St, t: St, batch: seq<Id>, id: Id)
    requires AdmitRel(cfg, r, t, batch)
    ensures Later(At(r.reqs, id), At(t.reqs, id))
    ensures id in batch ==> |At(t.reqs, id).output| > |At(r.reqs, id).output|
  {
    hide Sort;
  }

  lemma DecodeLater(cfg: Cfg, t: St, e: St, u: St, active: seq<Id>, id: Id)
    requires DecodeRel(cfg, t, e, u, active)
    ensures Later(At(t.reqs, id), At(u.reqs, id))
  {
    hide Wanting, WeakestGone, Unfinished;
    if id in Gone(Unfinished(t), active) {
    } else if id in active {
      assert MayGrow(At(t.reqs, id), At(e.reqs, id));
    }
  }

  /** Along any run, every request keeps its parameters and its tokens. */
  lemma {:induction false} RunLater(cfg: Cfg, s: St, events: seq<Event>, id: Id)
    requires Inv(cfg, s) && id in s.reqs
    ensures cfg.Valid() && Run(cfg, s, events).Ok?
    ensures var s' := Run(cfg, s, events).value; id in s'.reqs && Later(s.reqs[id], s'.reqs[id])
    decreases |events|
  {
    hide Inv, Apply, Traces, Later;
    InvValid(cfg, s);
    RunKeepsInv(cfg, s, events);
    if events == [] {
      LaterRefl(s.reqs[id]);
    } else {
      ApplyKeepsInv(cfg, s, events[0]);
      var s1 := Apply(cfg, s, events[0]).value;
      ApplyLater(cfg, s, events[0], id);
      RunLater(cfg, s1, events[1..], id);
      LaterTrans(s.reqs[id], s1.reqs[id], Run(cfg, s, events).value.reqs[id]);
    }
  }

  lemma LaterRefl(r: Req)
    ensures Later(r, r)
  {
  }

  lemma LaterTrans(a: Req, b: Req, c: Req)
    requires Later(a, b) && Later(b, c)
    ensures Later(a, c)
  {
  }

  lemma ApplyLater(cfg: Cfg, s: St, e: Event, id: Id)
    requires Inv(cfg, s) && id in s.reqs && cfg.Valid() && Apply(cfg, s, e).Ok?
    ensures var s' := Apply(cfg, s, e).value; id in s'.reqs && Later(s.reqs[id], s'.reqs[id])
  {
    hide Inv, Traces, Acceptable;
    if e.Iterate? {
      var x := StepTrace(cfg, s);
      TraceEnd(cfg, s, x);
      StepLater(cfg, s, x, id);
    }
  }

  /**
   What a client gets, in terms of what it sent: its tokens are at all times a prefix of what recomputing
   its prompt alone generates within the budget it asked for, and all of that once it is complete.
   */
  lemma AnswerToClient(cfg: Cfg, s: St, id: Id, r: Req, events: seq<Event>)
    requires Reachable(cfg, s) && id !in s.reqs && Acceptable(cfg, r)
    ensures r.prompt != [] && cfg.Valid() && Run(cfg, s, [Arrive(id, r)] + events).Ok?
    ensures var t := Run(cfg, s, [Arrive(id, r)] + events).value;
      var answer := Greedy(cfg.net, r.prompt, [], Max(r.maxNew, 1), r.ignoreEos);
      && id in t.reqs && t.reqs[id].prompt == r.prompt && t.reqs[id].output <= answer
      && (Complete?(t.reqs[id]) ==> t.reqs[id].output == answer)
  {
    hide Reachable, Inv, Run, Step, ReservesPrompt, Complete?;
    ReachableInv(cfg, s);
    InvValid(cfg, s);
    SubmitKeepsInv(cfg, s, id, r);
    var s1 := Submit(s, id, r);
    RunFirst(cfg, s, Arrive(id, r), s1, events);
    RunLater(cfg, s1, events, id);
    RunKeepsInv(cfg, s1, events);
    RequestOutput(cfg, Run(cfg, s1, events).value, id);
    GreedyCapped(cfg.net, r.prompt, [], Max(r.maxNew, 1), r.ignoreEos);
  }

  lemma RunFirst(cfg: Cfg, s: St, e: Event, t: St, events: seq<Event>)
    requires cfg.Valid() && Apply(cfg, s, e) == Ok(t)
    ensures Run(cfg, s, [e] + events) == Run(cfg, t, events)
  {
    hide Apply;
    assert ([e] + events)[1..] == events;
  }

  /** The client of w does not leave, and nobody arrives with an earlier time stamp. */
  ghost predicate Patient(events: seq<Event>, w: Id, arrival: int) {
    forall e :: e in events ==> e != Disconnect(w) && (e.Arrive? ==> e.r.arrival >= arrival)
  }

  function Iterations(events: seq<Event>): nat {
    if events == [] then 0 else (if events[0].Iterate? then 1 else 0) + Iterations(events[1..])
  }

  /** A newcomer joins the line behind w, and changes nobody else's place. */
  lemma SubmitBefore(s: St, w: Id, x: Id, r: Req, id: Id)
    requires NoDup(s.waiting) && w in s.waiting && w in s.reqs && x !in s.reqs && x !in s.waiting && x !in s.running
    requires r.preempts == 0 && r.arrival >= At(s.reqs, w).arrival
    requires id in s.waiting ==> id in s.reqs
    ensures var t := Submit(s, x, r); Before(t, w, id) == if id == x then 0 else Before(s, w, id)
  {
    var t := Submit(s, x, r);
    NewLast(s.waiting, x, w);
    if id == x {
      assert !Less(ByWait, At(t.reqs, x), At(t.reqs, w));
    } else if id in s.waiting {
      NewLast(s.waiting, x, id);
    }
  }

  /** Whoever arrives later changes nothing about who is ahead of w. */
  lemma SubmitClear(cfg: Cfg, s: St, w: Id, x: Id, r: Req)
    requires cfg.Valid() && ListsOk(s, []) && w in s.waiting && x !in s.reqs && WayClear(cfg, s, w)
    requires r.preempts == 0 && r.arrival >= At(s.reqs, w).arrival
    ensures WayClear(cfg, Submit(s, x, r), w)
  {
    hide FitsAlone, ListsOk;
    ListFacts(s, []);
    var t := Submit(s, x, r);
    NewLast(s.waiting, x, w);
    assert !Ahead(t.reqs, t.waiting, x, w);
    forall id | id == w || id in t.running || Ahead(t.reqs, t.waiting, id, w) ensures FitsAlone(cfg, At(t.reqs, id)) {
      if id in s.waiting {
        NewLast(s.waiting, x, id);
      }
      assert FitsAlone(cfg, At(s.reqs, id));
    }
  }

  lemma CancelClear(cfg: Cfg, s: St, w: Id, v: Id)
    requires cfg.Valid() && WayClear(cfg, s, w)
    ensures WayClear(cfg, Cancel(s, v), w)
  {
    hide FitsAlone;
    var t := Cancel(s, v);
    forall id | id == w || id in t.running || Ahead(t.reqs, t.waiting, id, w) ensures FitsAlone(cfg, At(t.reqs, id)) {
      assert FitsAlone(cfg, At(s.reqs, id));
      FitsSame(cfg, At(s.reqs, id), At(t.reqs, id));
    }
  }

  lemma NewLast(ids: seq<Id>, x: Id, w: Id)
    requires NoDup(ids) && w in ids && x !in ids
    ensures w in ids + [x] && x in ids + [x] && NoDup(ids + [x])
    ensures IndexOf(ids + [x], w) == IndexOf(ids, w) && IndexOf(ids + [x], x) == |ids|
  {
    assert (ids + [x])[|ids|] == x;
    PrefixIndex(ids, ids + [x], w);
    IndexLast(ids, x);
  }

  lemma {:induction false} IndexLast(ids: seq<Id>, x: Id)
    requires x !in ids
    ensures x in ids + [x] && IndexOf(ids + [x], x) == |ids|
  {
    assert (ids + [x])[|ids|] == x;
    if ids != [] {
      IndexLast(ids[1..], x);
      assert (ids + [x])[1..] == ids[1..] + [x];
    }
  }

  lemma SubmitWait(cfg: Cfg, s: St, w: Id, x: Id, r: Req)
    requires Inv(cfg, s) && w in s.waiting && x !in s.reqs && Acceptable(cfg, r) && r.arrival >= At(s.reqs, w).arrival
    ensures var t := Submit(s, x, r);
      w in t.waiting && At(t.reqs, w) == At(s.reqs, w) && Wait(t, w) == Wait(s, w)
  {
    hide Core, Before, ReservesPrompt, ListsOk;
    var t := Submit(s, x, r);
    InvLists(cfg, s);
    ListFacts(s, []);
    forall id ensures Before(t, w, id) == if id == x then 0 else Before(s, w, id) {
      SubmitBefore(s, w, x, r, id);
    }
    assert BeforeMap(t, w) == BeforeMap(s, w)[x := 0];
    assert BeforeMap(s, w) - {x} == BeforeMap(s, w);
    SumOfUpdate(BeforeMap(s, w), x, 0);
  }

  lemma CancelWait(s: St, w: Id, v: Id)
    requires w in s.waiting && v != w
    ensures var t := Cancel(s, v);
      w in t.waiting && At(t.reqs, w) == At(s.reqs, w) && Wait(t, w) == Wait(s, w)
  {
    var t := Cancel(s, v);
    forall id ensures Before(t, w, id) == Before(s, w, id) {
    }
    assert BeforeMap(t, w) == BeforeMap(s, w);
  }

  /**
   Bounded wait.  Whatever arrives later and whatever is evicted meanwhile, an uncancelled waiting
   request is admitted within Wait + 1 steps, where Wait is the sum of (max_new - output length) over
   the running requests and those sorted ahead of it: after that many steps it has a new token.  Only
   w itself, the running requests and those ahead of w have to fit the pool; later arrivals need not.
   */
  lemma {:induction false} BoundedWait(cfg: Cfg, s: St, w: Id, events: seq<Event>)
    requires Inv(cfg, s) && w in s.waiting && !At(s.reqs, w).cancelled && cfg.Valid() && WayClear(cfg, s, w)
    requires Patient(events, w, At(s.reqs, w).arrival) && Iterations(events) >= Wait(s, w) + 1
    ensures Run(cfg, s, events).Ok?
    ensures |At(Run(cfg, s, events).value.reqs, w).output| > |At(s.reqs, w).output|
    decreases |events|
  {
    hide Inv, Traces, Before, Wait, Step, Acceptable, Later, WayClear;
    WaitNonNegative(cfg, s, w);
    RunKeepsInv(cfg, s, events);
    InvKnows(cfg, s, w);
    var e, rest := events[0], events[1..];
    assert e in events && forall e' :: e' in rest ==> e' in events;
    ApplyKeepsInv(cfg, s, e);
    var s' := Apply(cfg, s, e).value;
    match e
    case Iterate =>
      var x := StepTrace(cfg, s);
      TraceEnd(cfg, s, x);
      if w in x.batch {
        StepGrows(cfg, s, x, w);
        RunLater(cfg, s', rest, w);
        LaterLength(s'.reqs[w], Run(cfg, s', rest).value.reqs[w]);
      } else {
        StepShrinksWait(cfg, s, x, w);
        BoundedWait(cfg, s', w, rest);
      }
    case Arrive(id, r) =>
      if id !in s.reqs && Acceptable(cfg, r) {
        SubmitWait(cfg, s, w, id, r);
        InvLists(cfg, s);
        FreshArrival(cfg, r);
        SubmitClear(cfg, s, w, id, r);
      }
      BoundedWait(cfg, s', w, rest);
    case Disconnect(id) =>
      CancelWait(s, w, id);
      CancelClear(cfg, s, w, id);
      BoundedWait(cfg, s', w, rest);
  }

  lemma FreshArrival(cfg: Cfg, r: Req)
    requires Acceptable(cfg, r)
    ensures r.preempts == 0
  {
  }

  lemma InvKnows(cfg: Cfg, s: St, w: Id)
    requires Inv(cfg, s) && w in s.waiting
    ensures w in s.reqs
  {
    InvLists(cfg, s);
    ListFacts(s, []);
  }

  lemma StepGrows(cfg: Cfg, s: St, x: Trace, w: Id)
    requires Traces(cfg, s, x) && w in x.batch && w in s.reqs
    ensures w in x.u.reqs && |At(x.u.reqs, w).output| > |At(s.reqs, w).output|
  {
    hide Traces;
    StepLater(cfg, s, x, w);
  }

  lemma LaterLength(r: Req, r': Req)
    requires Later(r, r')
    ensures |r'.output| >= |r.output|
  {
  }
}
