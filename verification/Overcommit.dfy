/**
 Negative budgets: when worst-case admission trips over them.

 The front door checks the prompt length and fits_ever, but not the sign of max_new_tokens.  Worst-case
 admission reserves blocks for prompt + max_new_tokens, so a negative budget can reserve less than the
 prompt itself takes, and the assertion inside allocate() can fail.
 */
module Overcommit {
  import opened Prelude
  import opened Transformer
  import opened Storage
  import opened Forward
  import opened Scheduling
  import opened Lists
  import opened Invariant
  import opened PreserveQueues
  import opened Steps
  import Runs

  // ------------------------------------------------------------------ when the reservation is enough

  /** Taking k tokens off n frees no unit exactly when they all lie in the last unit. */
  lemma {:induction false} FewerInLastUnit(cap: nat, n: nat, k: nat)
    requires cap > 0 && n > 0
    ensures UnitsFor(cap, n) <= UnitsFor(cap, n - k) <==> k <= OffsetOf(cap, n - 1)
  {
    if n <= cap {
      if k >= n {
        assert UnitsFor(cap, n - k) <= 0;
      }
    } else if k < n - cap {
      FewerInLastUnit(cap, n - cap, k);
    } else {
      OffsetSmall(cap, n - cap - 1);
      UnitsForMonotone(cap, 0, n - cap);
      assert UnitsFor(cap, n) == UnitsFor(cap, n - cap) + 1;
    }
  }

  lemma {:induction false} OffsetSmall(cap: nat, p: nat)
    requires cap > 0
    ensures OffsetOf(cap, p) <= p
  {
    if p >= cap {
      OffsetSmall(cap, p - cap);
    }
  }

  /**
   The reservation covers the prompt exactly when the budget is not so negative that it reaches behind
   the prompt's last block; a budget of zero or more always passes.
   */
  lemma ReservationCoversPromptIff(cfg: Cfg, r: Req)
    requires cfg.Valid() && r.prompt != []
    ensures UnitsFor(cfg.cap, |r.prompt|) <= Worst(cfg, r) <==> -r.maxNew <= OffsetOf(cfg.cap, |r.prompt| - 1)
  {
    if r.maxNew >= 0 {
      UnitsForMonotone(cfg.cap, |r.prompt|, |r.prompt| + r.maxNew);
    } else {
      FewerInLastUnit(cfg.cap, |r.prompt|, -r.maxNew);
    }
  }

  /** A new request whose reservation covers its prompt, said of what the client asks for. */
  ghost predicate Proper(cfg: Cfg, r: Req)
    requires cfg.Valid()
  {
    && 0 < |r.prompt| < MAX_CONTEXT
    && (cfg.backend.Reserve? ==> -r.maxNew <= OffsetOf(cfg.cap, |r.prompt| - 1))
    && r.output == [] && r.sent == [] && r.reason == None && r.table == [] && r.preempts == 0 && !r.cancelled
  }

  lemma ProperIsAcceptable(cfg: Cfg, r: Req)
    requires cfg.Valid() && Proper(cfg, r)
    ensures Acceptable(cfg, r)
  {
    ReservationCoversPromptIff(cfg, r.(maxNew := Min(r.maxNew, MAX_CONTEXT - |r.prompt|)));
  }

  /** A run in which the scheduler takes whatever it is given, as its submit does. */
  ghost function Serve(cfg: Cfg, s: St, events: seq<Runs.Event>): Outcome<St>
    requires cfg.Valid()
    decreases |events|
  {
    if events == [] then Ok(s)
    else
      var s' :-
        match events[0]
        case Arrive(id, r) => Ok(if id !in s.reqs then Submit(s, id, r) else s)
        case Disconnect(id) => Ok(Cancel(s, id))
        case Iterate => Step(cfg, s);
      Serve(cfg, s', events[1..])
  }

  /** With proper arrivals nothing is refused, so serving them is a run, and every run is safe. */
  lemma {:induction false} ServedIsSafe(cfg: Cfg, s: St, events: seq<Runs.Event>)
    requires Inv(cfg, s) && cfg.Valid() && forall e :: e in events && e.Arrive? ==> Proper(cfg, e.r)
    ensures Serve(cfg, s, events) == Runs.Run(cfg, s, events)
    ensures Serve(cfg, s, events).Ok? && Inv(cfg, Serve(cfg, s, events).value)
    decreases |events|
  {
    hide Inv, Step, Proper, Acceptable, Submit, Cancel;
    Runs.RunKeepsInv(cfg, s, events);
    if events != [] {
      var e, rest := events[0], events[1..];
      assert e in events && forall e' :: e' in rest ==> e' in events;
      if e.Arrive? {
        ProperIsAcceptable(cfg, e.r);
      }
      Runs.ApplyKeepsInv(cfg, s, e);
      ServedIsSafe(cfg, Runs.Apply(cfg, s, e).value, rest);
    }
  }

  // ------------------------------------------------------------------ one request on a new engine

  lemma PrefillAssertsNothing(cfg: Cfg, s: St, batch: seq<Id>)
    requires cfg.Valid()
    ensures Prefill(cfg, s, batch) != Raised(AllocateAssert)
  {
    hide EmitAll, Activate, PrefillRows, Forward.Run;
  }

  lemma DecodeBatchAssertsNothing(cfg: Cfg, s: St, active: seq<Id>)
    requires cfg.Valid()
    ensures DecodeBatch(cfg, s, active) != Raised(AllocateAssert)
  {
    hide EmitAll, DecodeRows, Forward.Run;
  }

  lemma {:induction false} PrefillEachAssertsNothing(cfg: Cfg, s: St, batch: seq<Id>)
    requires cfg.Valid()
    ensures PrefillEach(cfg, s, batch) != Raised(AllocateAssert)
    decreases |batch|
  {
    hide Prefill;
    if batch != [] {
      PrefillAssertsNothing(cfg, s, batch[..1]);
      if Prefill(cfg, s, batch[..1]).Ok? {
        PrefillEachAssertsNothing(cfg, Prefill(cfg, s, batch[..1]).value, batch[1..]);
      }
    }
  }

  lemma {:induction false} EnsureLoopAssertsNothing(cfg: Cfg, s: St, active: seq<Id>, i: nat)
    requires cfg.Valid() && i <= |active|
    ensures EnsureLoop(cfg, s, active, i) != Raised(AllocateAssert)
    decreases 2 * |active| - i
  {
    hide AppendSlot, Preempt, VictimIndex;
    if i < |active| {
      var (t, ok) := AppendSlot(cfg, s, active[i]);
      if ok {
        EnsureLoopAssertsNothing(cfg, t, active, i + 1);
      } else if cfg.backend.Preempting? {
        var v := VictimIndex(t.reqs, active);
        EnsureLoopAssertsNothing(cfg, Preempt(t, active[v]), RemoveAt(active, v), if v < i then i - 1 else i);
      }
    }
  }

  lemma DecodeAssertsNothing(cfg: Cfg, s: St)
    requires cfg.Valid()
    ensures Decode(cfg, s) != Raised(AllocateAssert)
  {
    hide EnsureLoop, DecodeBatch, Sort, Without;
    var batch := Without(s.running, DoneOf(s.reqs, s.running));
    EnsureLoopAssertsNothing(cfg, s, Sort(s.reqs, ByAdmit, batch), 0);
    var r := EnsureCapacity(cfg, s, batch);
    if r.Ok? {
      DecodeBatchAssertsNothing(cfg, r.value.0, r.value.1);
    }
  }

  lemma AdmitAssertsIffPop(cfg: Cfg, s: St)
    requires cfg.Valid() && s.running == []
    ensures Admit(cfg, s) == Raised(AllocateAssert) <==> PopAdmissible(cfg, s, cfg.maxBatch) == Raised(AllocateAssert)
  {
    hide PopAdmissible, PrefillEach, Prefill;
    var r := PopAdmissible(cfg, s, cfg.maxBatch);
    if r.Ok? {
      PrefillAssertsNothing(cfg, r.value.0, r.value.1);
      PrefillEachAssertsNothing(cfg, r.value.0, r.value.1);
    }
  }

  /** Of the whole step only admission can fail that assertion. */
  lemma StepAssertsIffPop(cfg: Cfg, s: St)
    requires cfg.Valid() && s.running == []
    ensures Step(cfg, s) == Raised(AllocateAssert) <==> PopAdmissible(cfg, Retire(s), cfg.maxBatch) == Raised(AllocateAssert)
  {
    hide Admit, Decode, PopAdmissible;
    RetireIdle(s);
    AdmitAssertsIffPop(cfg, Retire(s));
    if Admit(cfg, Retire(s)).Ok? {
      DecodeAssertsNothing(cfg, Admit(cfg, Retire(s)).value);
    }
  }

  lemma EmptySum()
    ensures SumOf(map[]) == 0
  {
  }

  /** The only request of an engine with nothing running and nothing committed. */
  ghost predicate Alone(cfg: Cfg, s: St, id: Id) {
    && cfg.Valid() && cfg.backend.Reserve?
    && s.waiting == [id] && s.running == [] && |s.free| == cfg.units && s.committed == map[]
    && !At(s.reqs, id).cancelled
  }

  lemma AloneAllocates(cfg: Cfg, s: St, id: Id)
    requires Alone(cfg, s, id)
    ensures CanAllocate(cfg, s, id, 0) <==> Worst(cfg, At(s.reqs, id)) <= cfg.units
    ensures Allocate(cfg, s.(waiting := []), id).Raised? <==> cfg.units < UnitsFor(cfg.cap, At(s.reqs, id).SeqLen())
    ensures Allocate(cfg, s.(waiting := []), id).Raised? ==> Allocate(cfg, s.(waiting := []), id) == Raised(AllocateAssert)
    ensures var t := Allocate(cfg, s.(waiting := []), id); t.Ok? ==> t.value.waiting == []
  {
    hide SumOf, Worst;
    EmptySum();
  }

  lemma AlonePops(cfg: Cfg, s: St, id: Id, limit: nat)
    requires Alone(cfg, s, id) && limit >= 1
    ensures PopLoop(cfg, s, [], limit) == Raised(AllocateAssert)
       <==> Worst(cfg, At(s.reqs, id)) <= cfg.units < UnitsFor(cfg.cap, At(s.reqs, id).SeqLen())
  {
    hide PopLoop, CanAllocate, Allocate, Worst, UnitsFor;
    AloneAllocates(cfg, s, id);
    assert s.waiting[1..] == [];
    PopTurn(cfg, s, [], limit);
    if CanAllocate(cfg, s, id, 0) && Allocate(cfg, s.(waiting := []), id).Ok? {
      PopTurn(cfg, Stamp(Allocate(cfg, s.(waiting := []), id).value, id), [] + [id], limit);
    }
  }

  /**
   A single request on a new engine fails the assertion exactly when what it reserves fits the pool and
   its prompt does not.
   */
  lemma LoneRequestRaisesIff(cfg: Cfg, pool: Pool, id: Id, r: Req)
    requires cfg.Valid() && cfg.backend.Reserve? && r.output == [] && !r.cancelled
    ensures var s := Submit(Initial(cfg, pool), id, r);
      Step(cfg, s) == Raised(AllocateAssert)
      <==> Worst(cfg, At(s.reqs, id)) <= cfg.units < UnitsFor(cfg.cap, |r.prompt|)
  {
    hide Step, PopLoop, Sort, Worst, UnitsFor, Retire;
    var s := Submit(Initial(cfg, pool), id, r);
    assert s.waiting == [id];
    NothingToRetire(s);
    EqualKeysStay(s.reqs, [id]);
    StepAssertsIffPop(cfg, s);
    AlonePops(cfg, s, id, cfg.maxBatch);
  }

  // ------------------------------------------------------------------ two requests that each fit

  /** A one-token prompt that asks for minus one token. */
  const NEGATIVE_BUDGET := Req([0], -1, false, 0, [], Waiting, None, [], -1, 0, false, [])

  /** Everything the front door looks at is in order. */
  predicate PassesFrontDoor(cfg: Cfg, r: Req)
    requires cfg.Valid()
  {
    0 < |r.prompt| < MAX_CONTEXT && FitsEver(cfg, |r.prompt|, Min(r.maxNew, MAX_CONTEXT - |r.prompt|))
  }

  function OneBlock(net: Net): Cfg {
    Cfg(net, Reserve, false, 2, 1, 1)
  }

  /** Two such requests on a pool of one block: each would do alone, but the second allocation fails. */
  lemma NegativeBudgetRaises(net: Net, pool: Pool)
    requires Runs.Boot(OneBlock(net), pool)
    ensures PassesFrontDoor(OneBlock(net), NEGATIVE_BUDGET)
    ensures var s := Submit(Submit(Initial(OneBlock(net), pool), 0, NEGATIVE_BUDGET), 1, NEGATIVE_BUDGET);
      Step(OneBlock(net), s) == Raised(AllocateAssert)
  {
    hide PopLoop, CanAllocate, Allocate, Sort, Retire, Step;
    var cfg := OneBlock(net);
    assert Reverse(Range(1)) == [0];
    var s := Submit(Submit(Initial(cfg, pool), 0, NEGATIVE_BUDGET), 1, NEGATIVE_BUDGET);
    assert s.waiting == [0, 1];
    NothingToRetire(s);
    EqualKeysStay(s.reqs, [0, 1]);
    StepAssertsIffPop(cfg, s);
    var t := FirstIsPopped(cfg, s);
    SecondRaises(cfg, t);
  }

  /** It asks for minus one token behind a one-token prompt. */
  predicate Asks(r: Req) {
    |r.prompt| == 1 && r.maxNew == -1 && r.output == []
  }

  /** The two requests stand in the queue of an engine with a single free block. */
  ghost predicate TwoInLine(cfg: Cfg, s: St) {
    && cfg.Valid() && cfg == OneBlock(cfg.net)
    && s.waiting == [0, 1] && s.running == [] && s.free == [0] && s.committed == map[]
    && Asks(At(s.reqs, 0)) && Asks(At(s.reqs, 1))
  }

  lemma OneTokenUnits(cfg: Cfg, r: Req)
    requires cfg.Valid() && cfg == OneBlock(cfg.net) && Asks(r)
    ensures Worst(cfg, r) == 0 && Need(cfg, r.SeqLen()) == 1
  {
    assert UnitsFor(1, 1) == 1 && UnitsFor(1, 0) == 0;
  }

  lemma FirstTakesBlock(cfg: Cfg, s: St) returns (t: St)
    requires TwoInLine(cfg, s)
    ensures CanAllocate(cfg, s, 0, 0) && Allocate(cfg, s.(waiting := [1]), 0) == Ok(t)
    ensures t.free == [] && t.waiting == [1] && t.running == [] && t.committed == map[0 := 0] && At(t.reqs, 1) == At(s.reqs, 1)
  {
    hide SumOf, Worst, Need, Popped;
    EmptySum();
    OneTokenUnits(cfg, At(s.reqs, 0));
    t := Allocate(cfg, s.(waiting := [1]), 0).value;
  }

  lemma StampKeeps(t: St, id: Id, other: Id)
    requires id != other
    ensures Stamp(t, id) == t.(reqs := Stamp(t, id).reqs, nextAdmit := t.nextAdmit + 1)
    ensures At(Stamp(t, id).reqs, other) == At(t.reqs, other)
  {
  }

  /** The first one takes the block and commits to nothing. */
  lemma FirstIsPopped(cfg: Cfg, s: St) returns (t: St)
    requires TwoInLine(cfg, s)
    ensures PopLoop(cfg, s, [], 2) == PopLoop(cfg, t, [0], 2)
    ensures t.free == [] && t.waiting == [1] && t.running == [] && t.committed == map[0 := 0] && Asks(At(t.reqs, 1))
  {
    hide PopLoop, CanAllocate, Allocate, Asks, Stamp, OneBlock;
    var t1 := FirstTakesBlock(cfg, s);
    assert s.waiting[1..] == [1] && s.waiting[0] == 0;
    PopTurn(cfg, s, [], 2);
    assert [] + [0] == [0];
    t := Stamp(t1, 0);
    StampKeeps(t1, 0, 1);
  }

  lemma SecondCanAllocate(cfg: Cfg, t: St)
    requires cfg.Valid() && cfg == OneBlock(cfg.net) && t.committed == map[0 := 0] && t.free == [] && Asks(At(t.reqs, 1))
    ensures CanAllocate(cfg, t, 1, 1) && Allocate(cfg, t.(waiting := []), 1) == Raised(AllocateAssert)
  {
    hide SumOf, Worst, Need;
    EmptySum();
    SumOfRemove(t.committed, 0);
    assert t.committed - {0} == map[];
    OneTokenUnits(cfg, At(t.reqs, 1));
  }

  /** The second one is let in because nothing is committed, and finds no block. */
  lemma SecondRaises(cfg: Cfg, t: St)
    requires cfg.Valid() && cfg == OneBlock(cfg.net)
    requires t.free == [] && t.waiting == [1] && t.running == [] && t.committed == map[0 := 0] && Asks(At(t.reqs, 1))
    ensures PopLoop(cfg, t, [0], 2) == Raised(AllocateAssert)
  {
    hide PopLoop, CanAllocate, Allocate;
    SecondCanAllocate(cfg, t);
    assert t.waiting[1..] == [];
    PopTurn(cfg, t, [0], 2);
  }
}
