/**
 Whole runs: any interleaving of arrivals, disconnections and scheduler steps.

 The main theorems: no run ever raises, every reachable state satisfies the invariant, and a request's
 output is a function of its own prompt alone.
 */
module Runs {
  import opened Prelude
  import opened Transformer
  import opened Storage
  import opened Forward
  import opened Scheduling
  import opened Lists
  import opened Invariant
  import opened PreserveQueues
  import opened Steps

  datatype Event =
    | Arrive(id: Id, r: Req)   // ignored when the id is taken or the request is not a new one that can be queued
    | Disconnect(id: Id)
    | Iterate

  ghost function Apply(cfg: Cfg, s: St, e: Event): Outcome<St>
    requires cfg.Valid()
  {
    match e
    case Arrive(id, r) => Ok(if id !in s.reqs && Acceptable(cfg, r) then Submit(s, id, r) else s)
    case Disconnect(id) => Ok(Cancel(s, id))
    case Iterate => Step(cfg, s)
  }

  ghost function Run(cfg: Cfg, s: St, events: seq<Event>): Outcome<St>
    requires cfg.Valid()
    decreases |events|
  {
    if events == [] then Ok(s)
    else
      var s' :- Apply(cfg, s, events[0]);
      Run(cfg, s', events[1..])
  }

  /** A pool of the right shape; its contents are arbitrary. */
  ghost predicate Boot(cfg: Cfg, pool: Pool) {
    cfg.Valid() && PoolOk(cfg.net, cfg.units, cfg.cap, pool)
  }

  lemma InitialInv(cfg: Cfg, pool: Pool)
    requires Boot(cfg, pool)
    ensures Inv(cfg, Initial(cfg, pool))
  {
    var s := Initial(cfg, pool);
    ReverseMultiset(Range(cfg.units));
    assert Holders(s, []) == [];
  }

  lemma ApplyKeepsInv(cfg: Cfg, s: St, e: Event)
    requires Inv(cfg, s)
    ensures cfg.Valid() && Apply(cfg, s, e).Ok? && Inv(cfg, Apply(cfg, s, e).value)
  {
    hide Inv, Step, Submit, Cancel, Acceptable;
    InvValid(cfg, s);
    match e
    case Arrive(id, r) =>
      if id !in s.reqs && Acceptable(cfg, r) {
        SubmitKeepsInv(cfg, s, id, r);
      }
    case Disconnect(id) => CancelKeepsInv(cfg, s, id);
    case Iterate => StepKeepsInv(cfg, s);
  }

  lemma {:induction false} RunKeepsInv(cfg: Cfg, s: St, events: seq<Event>)
    requires Inv(cfg, s)
    ensures cfg.Valid() && Run(cfg, s, events).Ok? && Inv(cfg, Run(cfg, s, events).value)
    decreases |events|
  {
    hide Inv, Apply;
    InvValid(cfg, s);
    if events != [] {
      ApplyKeepsInv(cfg, s, events[0]);
      RunKeepsInv(cfg, Apply(cfg, s, events[0]).value, events[1..]);
    }
  }

  /**
   Safety of every run, on every backend, static or continuous: no allocation assertion fails, no
   "out of KV blocks" is raised, no index is out of range, and the invariant holds at every boundary.
   */
  lemma EveryRunIsSafe(cfg: Cfg, pool: Pool, events: seq<Event>)
    requires Boot(cfg, pool)
    ensures Run(cfg, Initial(cfg, pool), events).Ok?
    ensures Inv(cfg, Run(cfg, Initial(cfg, pool), events).value)
  {
    hide Inv, Run;
    InitialInv(cfg, pool);
    RunKeepsInv(cfg, Initial(cfg, pool), events);
  }

  ghost predicate Reachable(cfg: Cfg, s: St) {
    exists pool: Pool, events: seq<Event> :: Boot(cfg, pool) && Run(cfg, Initial(cfg, pool), events) == Ok(s)
  }

  lemma ReachableInv(cfg: Cfg, s: St)
    requires Reachable(cfg, s)
    ensures Inv(cfg, s)
  {
    hide Inv, Run;
    var pool: Pool, events: seq<Event> :| Boot(cfg, pool) && Run(cfg, Initial(cfg, pool), events) == Ok(s);
    EveryRunIsSafe(cfg, pool, events);
  }

  // ------------------------------------------------------------------ the output

  /** What the naive full-recompute loop generates for a request alone. */
  function Naive(net: Net, r: Req): seq<Token>
    requires r.prompt != []
  {
    Greedy(net, r.prompt, [], r.maxNew, r.ignoreEos)
  }

  /**
   End-to-end correctness.  Whatever else was submitted, cancelled, evicted or recycled, a request's
   output is at all times a prefix of what recomputing its own prompt generates, and is exactly that
   once the request finished without being cancelled.
   */
  lemma OutputIsReference(cfg: Cfg, s: St, id: Id)
    requires Reachable(cfg, s) && id in s.reqs
    ensures s.reqs[id].prompt != []
    ensures s.reqs[id].output <= Reference(cfg.net, s.reqs[id])
    ensures Complete?(s.reqs[id]) ==> s.reqs[id].output == Reference(cfg.net, s.reqs[id])
  {
    ReachableInv(cfg, s);
    RequestOutput(cfg, s, id);
  }

  lemma RequestOutput(cfg: Cfg, s: St, id: Id)
    requires Inv(cfg, s) && id in s.reqs
    ensures s.reqs[id].prompt != []
    ensures s.reqs[id].output <= Reference(cfg.net, s.reqs[id])
    ensures Complete?(s.reqs[id]) ==> s.reqs[id].output == Reference(cfg.net, s.reqs[id])
  {
    hide ListsOk, WaitersOk, RunnersOk, OthersOk, MemOk, CommitOk, AdmitOrder, PoolOk;
    var r := At(s.reqs, id);
    assert ReqOk(cfg, r);
    GreedyExtends(cfg.net, r.prompt, r.output, Budget(r), r.ignoreEos);
  }

  /**
   With at least one token asked for, the reference is the naive loop's output.  With none it is not:
   the scheduler still emits the token that prefill produced, the naive loop emits nothing.
   */
  lemma CompleteEqualsNaiveIff(cfg: Cfg, s: St, id: Id)
    requires Reachable(cfg, s) && id in s.reqs && Complete?(s.reqs[id])
    ensures s.reqs[id].prompt != []
    ensures s.reqs[id].output == Naive(cfg.net, s.reqs[id]) <==> s.reqs[id].maxNew >= 1
  {
    OutputIsReference(cfg, s, id);
    ReachableInv(cfg, s);
    CompleteNonEmpty(cfg, s, id);
  }

  lemma CompleteNonEmpty(cfg: Cfg, s: St, id: Id)
    requires Inv(cfg, s) && id in s.reqs && Complete?(s.reqs[id])
    ensures s.reqs[id].output != []
  {
    hide ListsOk, WaitersOk, RunnersOk, OthersOk, MemOk, CommitOk, AdmitOrder, PoolOk;
    assert ReqOk(cfg, At(s.reqs, id));
  }

  /**
   Batch independence: the same prompt with the same budget gives the same tokens in any two runs, on
   any two configurations of the engine that share the network, with any neighbours.
   */
  lemma BatchIndependence(cfg: Cfg, s: St, id: Id, cfg': Cfg, s': St, id': Id)
    requires Reachable(cfg, s) && id in s.reqs && Reachable(cfg', s') && id' in s'.reqs
    requires cfg.net == cfg'.net
    requires var r, r' := s.reqs[id], s'.reqs[id'];
      r.prompt == r'.prompt && r.maxNew == r'.maxNew && r.ignoreEos == r'.ignoreEos
    ensures var r, r' := s.reqs[id], s'.reqs[id'];
      && (Complete?(r) && Complete?(r') ==> r.output == r'.output)
      && (Complete?(r) ==> r'.output <= r.output)
      && (r.output <= r'.output || r'.output <= r.output)
  {
    hide Reachable;
    OutputIsReference(cfg, s, id);
    OutputIsReference(cfg', s', id');
  }

  /**
   The finish reason is right: "length" exactly when the budget is used up, "stop" exactly when the last
   token is an end of text that counts and came before that; "cancelled" only if the client left.
   */
  lemma FinishReasonIsRight(cfg: Cfg, s: St, id: Id)
    requires Reachable(cfg, s) && id in s.reqs && s.reqs[id].Done()
    ensures var r := s.reqs[id];
      if r.reason.value == Cancelled then r.cancelled
      else
        && (r.reason.value == Length <==> |r.output| >= r.maxNew)
        && (r.reason.value == Stop <==>
              0 < |r.output| < r.maxNew && Last(r.output) == EOS_TOKEN_ID && !r.ignoreEos)
  {
    hide ListsOk, WaitersOk, RunnersOk, OthersOk, MemOk, CommitOk, AdmitOrder, PoolOk;
    ReachableInv(cfg, s);
    assert ReqOk(cfg, At(s.reqs, id));
  }

  // ------------------------------------------------------------------ memory and cells

  /** Conservation: every unit of the pool is either free or in exactly one running request's table. */
  lemma MemoryConserved(cfg: Cfg, s: St, u: nat)
    requires Reachable(cfg, s) && u < cfg.units
    ensures multiset(s.free)[u] + Held(s.reqs, s.running)[u] == 1
    ensures |s.free| + |Held(s.reqs, s.running)| == cfg.units
    ensures forall id :: id in s.reqs && id !in s.running ==> s.reqs[id].table == []
  {
    hide Reachable, ReqsOk, RunnersOk, CommitOk, AdmitOrder, PoolOk, WaitingOk;
    ReachableInv(cfg, s);
    ListFacts(s, []);
    RangeCounts(cfg.units);
    assert Holders(s, []) == s.running;
    FreeCount(cfg, s.free, s.reqs, s.running);
    assert (multiset(s.free) + Held(s.reqs, s.running))[u] == 1;
    forall id | id in s.reqs && id !in s.running ensures s.reqs[id].table == [] {
      assert At(s.reqs, id) == s.reqs[id];
      if id !in s.waiting {
        assert GoneOk(At(s.reqs, id));
      }
    }
  }

  /** Paged memory tracks tokens: a running request's units waste less than one unit. */
  lemma WasteBelowOneUnit(cfg: Cfg, s: St, id: Id)
    requires Reachable(cfg, s) && id in s.running && !cfg.backend.Slots?
    ensures id in s.reqs && s.reqs[id].output != []
    ensures var stored := s.reqs[id].SeqLen() - 1;
      |s.reqs[id].table| == UnitsFor(cfg.cap, stored) && stored <= |s.reqs[id].table| * cfg.cap < stored + cfg.cap
  {
    hide Reachable, ReqsOk, MemOk, CommitOk, AdmitOrder, PoolOk, WaitersOk, OthersOk, Holds;
    ReachableInv(cfg, s);
    ListFacts(s, []);
    assert RunningOk(cfg, s.pool, At(s.reqs, id), false);
    UnitsForExact(cfg.cap, s.reqs[id].SeqLen() - 1);
  }

  /**
   Cells in place: gathering a running request's stored positions through its block table yields, at
   every layer, exactly the cells that a from-scratch prefill of its tokens computes.
   */
  lemma GatheredCellsAreRight(cfg: Cfg, s: St, id: Id, l: nat)
    requires Reachable(cfg, s) && id in s.running && l < cfg.net.layers
    ensures id in s.reqs && |s.pool| == cfg.net.layers && cfg.cap > 0 && s.reqs[id].output != []
    ensures var r := s.reqs[id];
      && (forall j :: 0 <= j < r.SeqLen() - 1 ==> PaddedPlace(cfg.cap, r.table, j) in s.pool[l])
      && Gather(cfg.cap, s.pool[l], r.table, r.SeqLen() - 1) == Cells(cfg.net, r.Tokens(), l, r.SeqLen() - 1)
  {
    hide Reachable, ReqsOk, MemOk, CommitOk, AdmitOrder, WaitersOk, OthersOk;
    ReachableInv(cfg, s);
    ListFacts(s, []);
    var r := At(s.reqs, id);
    assert RunningOk(cfg, s.pool, r, false);
    assert LayerHolds(cfg.net, cfg.cap, s.pool[l], l, r.table, r.Tokens(), r.SeqLen() - 1);
    forall j | 0 <= j < r.SeqLen() - 1
      ensures PaddedPlace(cfg.cap, r.table, j) in s.pool[l]
      ensures s.pool[l][PaddedPlace(cfg.cap, r.table, j)] == CellAt(cfg.net, r.Tokens(), l, j)
    {
      assert PaddedPlace(cfg.cap, r.table, j) == Place(cfg.cap, r.table, j);
    }
  }

  // ------------------------------------------------------------------ streaming and eviction counts

  function Firsts(sent: seq<(Token, bool)>): seq<Token> {
    seq(|sent|, i requires 0 <= i < |sent| => sent[i].0)
  }

  /** The client sees each output token exactly once, in order; only the last one says finished. */
  lemma StreamedExactlyOnce(cfg: Cfg, s: St, id: Id)
    requires Reachable(cfg, s) && id in s.reqs
    ensures Firsts(s.reqs[id].sent) == s.reqs[id].output
    ensures forall k :: 0 <= k < |s.reqs[id].sent| ==>
      (s.reqs[id].sent[k].1 <==> k == |s.reqs[id].output| - 1 && Complete?(s.reqs[id]))
  {
    hide Reachable, MemOk, CommitOk, AdmitOrder, WaitersOk, OthersOk, RunnersOk, ListsOk, PoolOk;
    ReachableInv(cfg, s);
    assert ReqOk(cfg, At(s.reqs, id));
  }

  /**
   A request has been evicted at most as often as it has tokens, and less often than its budget, wherever
   it is now; while it runs it has one more token than evictions.
   */
  lemma EvictionsBounded(cfg: Cfg, s: St, id: Id)
    requires Reachable(cfg, s) && id in s.reqs
    ensures s.reqs[id].preempts <= |s.reqs[id].output| && s.reqs[id].preempts < Budget(s.reqs[id])
    ensures id in s.waiting ==> |s.reqs[id].output| < Budget(s.reqs[id])
    ensures id in s.running ==> s.reqs[id].preempts < |s.reqs[id].output| <= Budget(s.reqs[id])
  {
    hide Reachable, MemOk, CommitOk, AdmitOrder, OthersOk, PoolOk, Holds;
    ReachableInv(cfg, s);
    assert ReqOk(cfg, At(s.reqs, id));
    if id in s.waiting {
      assert WaitingOk(At(s.reqs, id));
    }
    if id in s.running {
      assert RunningOk(cfg, s.pool, At(s.reqs, id), false);
    }
  }

  /** Reserve mode: what running requests hold is within what was committed, which is within the pool. */
  lemma ReserveStaysWithinCommitment(cfg: Cfg, s: St, id: Id)
    requires Reachable(cfg, s) && cfg.backend.Reserve?
    ensures SumOf(s.committed) <= cfg.units && s.committed.Keys == set x | x in s.running
    ensures id in s.running ==> id in s.reqs && |s.reqs[id].table| <= s.committed[id]
  {
    hide Reachable, MemOk, AdmitOrder, WaitersOk, OthersOk, PoolOk;
    ReachableInv(cfg, s);
    ListFacts(s, []);
    assert Holders(s, []) == s.running;
    if id in s.running {
      HolderWithin(cfg, s, [], id);
    }
  }
}
