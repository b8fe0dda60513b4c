/**
 What every reachable state of the scheduler satisfies.

 `popped` lists requests that were given memory but not yet prefilled (they are in neither queue for a
 moment), and `grown` names running requests whose tables already cover the token about to be fed.
 At step boundaries both are empty.
 */
module Invariant {
  import opened Prelude
  import opened Transformer
  import opened Storage
  import opened Forward
  import opened Scheduling
  import opened Lists

  // ------------------------------------------------------------------ one request

  /** Tokens a request may generate.  With max_new_tokens = 0 prefill still emits one. */
  function Budget(r: Req): int {
    Max(r.maxNew, 1)
  }

  /** The answer: what full recomputation of this prompt alone generates. */
  function Reference(net: Net, r: Req): seq<Token>
    requires r.prompt != []
  {
    Greedy(net, r.prompt, [], Budget(r), r.ignoreEos)
  }

  predicate Complete?(r: Req) {
    r.reason == Some(Length) || r.reason == Some(Stop)
  }

  /** Output so far is on the way to the reference, and is the reference once complete. */
  ghost predicate OutputOk(net: Net, r: Req)
    requires r.prompt != []
  {
    if Complete?(r) then r.output == Reference(net, r)
    else |r.output| < Budget(r) && Greedy(net, r.prompt, r.output, Budget(r), r.ignoreEos) == Reference(net, r)
  }

  /** The sink received each output token once, in order, and the finished flag only on the last. */
  ghost predicate SentOk(r: Req) {
    |r.sent| == |r.output|
    && forall k :: 0 <= k < |r.sent| ==>
         r.sent[k] == (r.output[k], k == |r.output| - 1 && Complete?(r))
  }

  ghost predicate ReqOk(cfg: Cfg, r: Req)
    requires cfg.Valid()
  {
    && 1 <= |r.prompt| < MAX_CONTEXT
    && r.maxNew <= MAX_CONTEXT - |r.prompt| && ReservesPrompt(cfg, r)
    && OutputOk(cfg.net, r) && SentOk(r)
    && |r.output| <= Budget(r)
    && (Complete?(r) ==> r.output != [])
    && ReasonOk(r) 
    && r.preempts <= |r.output| && r.preempts < Budget(r)
  }

  /** Worst-case admission sets aside at least what the prompt takes; a non-negative budget always does. */
  predicate ReservesPrompt(cfg: Cfg, r: Req)
    requires cfg.Valid()
  {
    cfg.backend.Reserve? ==> UnitsFor(cfg.cap, |r.prompt|) <= Worst(cfg, r)
  }

  /** The request could complete with the whole pool to itself. */
  predicate FitsAlone(cfg: Cfg, r: Req)
    requires cfg.Valid()
  {
    FitsEver(cfg, |r.prompt|, Max(r.maxNew, 0))
  }

  /** Every running request fits the pool. */
  ghost predicate RunnersFit(cfg: Cfg, s: St)
    requires cfg.Valid()
  {
    forall id :: id in s.running ==> FitsAlone(cfg, At(s.reqs, id))
  }

  /** The finish reason says what happened. */
  predicate ReasonOk(r: Req) {
    match r.reason
    case None => true
    case Some(Length) => |r.output| >= r.maxNew
    case Some(Stop) => 0 < |r.output| < r.maxNew && Last(r.output) == EOS_TOKEN_ID && !r.ignoreEos
    case Some(Cancelled) => r.cancelled
  }

  ghost predicate WaitingOk(r: Req) {
    r.phase == Waiting && r.reason == None && r.preempts <= |r.output|
  }

  ghost predicate PoppedOk(cfg: Cfg, r: Req)
    requires cfg.Valid()
  {
    WaitingOk(r) && |r.table| == Need(cfg, r.SeqLen())
  }

  /** A running request holds exactly the units of its stored tokens, and the right cells in them. */
  ghost predicate RunningOk(cfg: Cfg, pool: Pool, r: Req, grown: bool)
    requires cfg.Valid()
  {
    && r.phase == Running && r.preempts + 1 <= |r.output|
    && |r.table| == Need(cfg, if grown then r.SeqLen() else r.SeqLen() - 1)
    && Holds(cfg.net, cfg.cap, pool, r.table, r.Tokens(), r.SeqLen() - 1)
  }

  /** In neither queue: finished, or cancelled before it was admitted (again). */
  ghost predicate GoneOk(r: Req) {
    r.table == [] && (r.Done() || r.cancelled)
  }

  // ------------------------------------------------------------------ the whole state

  ghost function Holders(s: St, popped: seq<Id>): seq<Id> {
    s.running + popped
  }

  /** How often an id occurs in the queues. */
  ghost function Queued(s: St, popped: seq<Id>): multiset<Id> {
    multiset(s.waiting) + multiset(Holders(s, popped))
  }

  /** Every request is in at most one queue, once. */
  ghost predicate ListsOk(s: St, popped: seq<Id>) {
    forall id {:trigger Queued(s, popped)[id]} {:trigger id in s.reqs} ::
      Queued(s, popped)[id] <= 1 && (Queued(s, popped)[id] > 0 ==> id in s.reqs)
  }

  ghost predicate WaitersOk(s: St) {
    forall id :: id in s.waiting ==> WaitingOk(At(s.reqs, id)) && At(s.reqs, id).table == []
  }

  ghost predicate RunnersOk(cfg: Cfg, s: St, grown: set<Id>)
    requires cfg.Valid()
  {
    forall id :: id in s.running ==> RunningOk(cfg, s.pool, At(s.reqs, id), id in grown)
  }

  ghost predicate PoppedsOk(cfg: Cfg, s: St, popped: seq<Id>)
    requires cfg.Valid()
  {
    forall id :: id in popped ==> PoppedOk(cfg, At(s.reqs, id))
  }

  ghost predicate OthersOk(s: St, popped: seq<Id>) {
    forall id :: id in s.reqs && id !in s.waiting && id !in s.running && id !in popped ==> GoneOk(At(s.reqs, id))
  }

  ghost predicate ReqsOk(cfg: Cfg, reqs: map<Id, Req>)
    requires cfg.Valid()
  {
    forall id :: id in reqs ==> ReqOk(cfg, At(reqs, id))
  }

  /** Holders are listed in admission order. */
  ghost predicate AdmitOrder(reqs: map<Id, Req>, hs: seq<Id>, nextAdmit: nat) {
    && (forall i, j :: 0 <= i < j < |hs| ==> At(reqs, hs[i]).admitSeq < At(reqs, hs[j]).admitSeq)
    && (forall i :: 0 <= i < |hs| ==> At(reqs, hs[i]).admitSeq < nextAdmit)
  }

  /** Conservation: free units and held units together are exactly the pool, each once. */
  ghost predicate MemOk(cfg: Cfg, free: seq<nat>, reqs: map<Id, Req>, hs: seq<Id>) {
    multiset(free) + Held(reqs, hs) == multiset(Range(cfg.units))
  }

  ghost predicate CommitOk(cfg: Cfg, committed: map<Id, int>, reqs: map<Id, Req>, hs: seq<Id>)
    requires cfg.Valid()
  {
    && (!cfg.backend.Slots? ==>
          && (forall id :: id in committed <==> id in hs)
          && (forall id :: id in committed ==> committed[id] == Worst(cfg, At(reqs, id))))
    && (cfg.backend.Reserve? ==> SumOf(committed) <= cfg.units)
  }

  ghost predicate Core(cfg: Cfg, s: St, popped: seq<Id>, grown: set<Id>) {
    && cfg.Valid()
    && ListsOk(s, popped)
    && ReqsOk(cfg, s.reqs)
    && WaitersOk(s) && RunnersOk(cfg, s, grown) && PoppedsOk(cfg, s, popped) && OthersOk(s, popped)
    && AdmitOrder(s.reqs, Holders(s, popped), s.nextAdmit)
    && MemOk(cfg, s.free, s.reqs, Holders(s, popped))
    && CommitOk(cfg, s.committed, s.reqs, Holders(s, popped))
    && PoolOk(cfg.net, cfg.units, cfg.cap, s.pool)
  }

  /** The invariant at step boundaries. */
  ghost predicate Inv(cfg: Cfg, s: St) {
    Core(cfg, s, [], {})
  }

  // ------------------------------------------------------------------ reading the invariant

  lemma CountPositive<T>(xs: seq<T>, x: T)
    ensures x in xs <==> multiset(xs)[x] > 0
  {
    assert x in xs <==> x in multiset(xs);
  }

  lemma NoDupFromCounts(ids: seq<Id>)
    requires forall id :: multiset(ids)[id] <= 1
    ensures NoDup(ids)
  {
    forall x | x in ids ensures multiset(ids)[x] == 1 {
      CountPositive(ids, x);
    }
    NoDupFromMultiset(ids);
  }

  /** The queues are disjoint, free of repetition, and name known requests. */
  lemma ListFacts(s: St, popped: seq<Id>)
    requires ListsOk(s, popped)
    ensures NoDup(s.waiting) && NoDup(Holders(s, popped)) && NoDup(s.running) && NoDup(popped)
    ensures forall id :: id in s.waiting ==> id in s.reqs && id !in s.running && id !in popped
    ensures forall id :: id in s.running ==> id in s.reqs && id !in popped
    ensures forall id :: id in popped ==> id in s.reqs
    ensures forall id :: id in Holders(s, popped) <==> id in s.running || id in popped
  {
    var hs := Holders(s, popped);
    assert multiset(hs) == multiset(s.running) + multiset(popped);
    forall id
      ensures multiset(s.waiting)[id] <= 1 && multiset(hs)[id] <= 1
      ensures multiset(s.running)[id] <= 1 && multiset(popped)[id] <= 1
      ensures id in s.waiting ==> id in s.reqs && id !in s.running && id !in popped
      ensures id in s.running ==> id in s.reqs && id !in popped
      ensures id in popped ==> id in s.reqs
    {
      assert Queued(s, popped)[id] <= 1;
      CountPositive(s.waiting, id);
      CountPositive(s.running, id);
      CountPositive(popped, id);
    }
    NoDupFromCounts(s.waiting);
    NoDupFromCounts(hs);
    NoDupFromCounts(s.running);
    NoDupFromCounts(popped);
  }

  lemma RangeCounts(n: nat)
    ensures forall u: nat :: multiset(Range(n))[u] == if u < n then 1 else 0
    ensures |multiset(Range(n))| == n
  {
    forall u: nat ensures multiset(Range(n))[u] == if u < n then 1 else 0 {
      RangeMultiset(n, u);
    }
  }

  /** A holder's table lists real units, each once, none of them free. */
  lemma TableFacts(cfg: Cfg, free: seq<nat>, reqs: map<Id, Req>, hs: seq<Id>, i: nat)
    requires MemOk(cfg, free, reqs, hs) && i < |hs|
    ensures var t := At(reqs, hs[i]).table;
      NoDup(t) && (forall u :: u in t ==> u < cfg.units) && Separate(t, free)
  {
    RangeCounts(cfg.units);
    HeldPick(reqs, hs, i);
    var t := At(reqs, hs[i]).table;
    forall u | u in t ensures multiset(t)[u] == 1 && u < cfg.units && u !in free {
      CountPositive(t, u);
      CountPositive(free, u);
      assert multiset(t)[u] + multiset(free)[u] <= multiset(Range(cfg.units))[u];
    }
    NoDupFromMultiset(t);
  }

  /** Two holders never share a unit. */
  lemma TablesApart(cfg: Cfg, free: seq<nat>, reqs: map<Id, Req>, hs: seq<Id>, i: nat, j: nat)
    requires MemOk(cfg, free, reqs, hs) && i < |hs| && j < |hs| && i != j
    ensures Separate(At(reqs, hs[i]).table, At(reqs, hs[j]).table)
  {
    hide Held, NoDup;
    RangeCounts(cfg.units);
    HeldPick(reqs, hs, i);
    var rest := RemoveAt(hs, i);
    var k := if j < i then j else j - 1;
    assert rest[k] == hs[j];
    HeldPick(reqs, rest, k);
    var t, t' := At(reqs, hs[i]).table, At(reqs, hs[j]).table;
    forall u | u in t ensures u !in t' {
      CountPositive(t, u);
      CountPositive(t', u);
      assert multiset(t)[u] + multiset(t')[u] <= multiset(Range(cfg.units))[u];
    }
  }

  lemma FreeCount(cfg: Cfg, free: seq<nat>, reqs: map<Id, Req>, hs: seq<Id>)
    requires MemOk(cfg, free, reqs, hs)
    ensures |free| + |Held(reqs, hs)| == cfg.units
  {
    RangeCounts(cfg.units);
    assert |multiset(free) + Held(reqs, hs)| == |multiset(free)| + |Held(reqs, hs)|;
  }

  /** The units a request's stored tokens need are enough to address every one of them. */
  lemma NeedCovers(cfg: Cfg, table: seq<nat>, n: nat)
    requires cfg.Valid() && 0 < n <= MAX_CONTEXT && |table| == Need(cfg, n)
    ensures Covers(cfg.cap, table, n)
  {
    if cfg.backend.Slots? {
      UnitsForMonotone(cfg.cap, n, cfg.cap);
    }
  }

  lemma NeedMonotone(cfg: Cfg, m: nat, n: nat)
    requires cfg.Valid() && m <= n
    ensures 0 <= Need(cfg, m) <= Need(cfg, n)
  {
    UnitsForMonotone(cfg.cap, m, n);
  }

  /** A request that fits the pool never needs more units than there are. */
  lemma NeedWithinPool(cfg: Cfg, r: Req, n: nat)
    requires cfg.Valid() && !cfg.backend.Slots? && FitsAlone(cfg, r) && n <= |r.prompt| + Max(r.maxNew, 0)
    ensures 0 <= Need(cfg, n) <= cfg.units
  {
    UnitsForMonotone(cfg.cap, n, |r.prompt| + Max(r.maxNew, 0));
  }

  /** One more token takes at most one more unit. */
  lemma NeedStep(cfg: Cfg, n: nat)
    requires cfg.Valid()
    ensures Need(cfg, n) <= Need(cfg, n + 1) <= Need(cfg, n) + 1
  {
    UnitsForStep(cfg.cap, n);
  }

  // ------------------------------------------------------------------ emitting a token

  /** Emitting the full-recompute token keeps a request on its reference, and ends it exactly there. */
  lemma EmitOk(cfg: Cfg, r: Req, tok: Token)
    requires cfg.Valid() && ReqOk(cfg, r) && r.reason == None
    requires tok == NextToken(cfg.net, r.Tokens())
    ensures ReqOk(cfg, Emit(r, tok))
    ensures Emit(r, tok).reason != Some(Cancelled)
  {
    var r' := Emit(r, tok);
    assert Greedy(cfg.net, r.prompt, r.output, Budget(r), r.ignoreEos) == Reference(cfg.net, r);
    assert |r.prompt| + |r.output| < MAX_CONTEXT;
    if Complete?(r') {
      assert Greedy(cfg.net, r.prompt, r'.output, Budget(r), r.ignoreEos) == r'.output
          || (tok == EOS_TOKEN_ID && !r.ignoreEos);
    }
    forall k | 0 <= k < |r'.sent|
      ensures r'.sent[k] == (r'.output[k], k == |r'.output| - 1 && Complete?(r'))
    {
      if k < |r.sent| {
        assert r.sent[k] == (r.output[k], k == |r.output| - 1 && Complete?(r));
      }
    }
  }
}
