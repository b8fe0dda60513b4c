/** The synchronous engine: submit a batch of prompts, step until the work is done, return the outputs. */
module Engine {
  import opened Prelude
  import opened Transformer
  import opened Storage
  import opened Scheduling
  import opened Invariant
  import opened Progress
  import opened Fairness
  import opened Overcommit
  import opened Requests
  import opened Registry
  import S = Scheduler

  /** Parameters untouched, tokens only added, and nobody cancelled on the way. */
  ghost predicate Grows(s: St, t: St) {
    forall id :: id in s.reqs ==>
      id in t.reqs && Later(At(s.reqs, id), At(t.reqs, id)) && At(t.reqs, id).cancelled == At(s.reqs, id).cancelled
  }

  lemma GrowsRefl(s: St)
    ensures Grows(s, s)
  {
  }

  lemma GrowsTrans(s: St, t: St, u: St)
    requires Grows(s, t) && Grows(t, u)
    ensures Grows(s, u)
  {
    hide Later;
    forall id | id in s.reqs ensures Later(At(s.reqs, id), At(u.reqs, id)) {
      LaterTrans(At(s.reqs, id), At(t.reqs, id), At(u.reqs, id));
    }
  }

  /** A step keeps every request growing and uses up work; an idle step ends with nothing left. */
  lemma StepWorks(cfg: Cfg, s: St, t: St)
    requires Inv(cfg, s) && cfg.Valid() && Step(cfg, s) == Ok(t)
    requires AllFit(cfg, s)
    ensures Inv(cfg, t) && Grows(s, t) && AllFit(cfg, t)
    ensures 0 <= Work(t) <= Work(s) && (Work(t) < Work(s) || !HasWork(t))
  {
    hide Inv, Traces, Later, Work, AllFit, Unjammed;
    var x := StepTrace(cfg, s);
    TraceEnd(cfg, s, x);
    WorkNonNegative(cfg, t);
    RetireUnjammed(cfg, s, x);
    StepFits(cfg, s, x);
    StepShrinksWork(cfg, s, x);
    if !HasWork(x.r) {
      NothingLeft(cfg, s, x);
    }
    forall id | id in s.reqs
      ensures id in t.reqs && Later(At(s.reqs, id), At(t.reqs, id)) && At(t.reqs, id).cancelled == At(s.reqs, id).cancelled
    {
      StepLater(cfg, s, x, id);
      StepCancelled(cfg, s, x, id);
    }
  }

  /** Tokens that one request can have at most: a slot, or all the blocks of the pool. */
  function Room(cfg: Cfg): nat {
    if cfg.backend.Slots? then cfg.cap else cfg.units * cfg.cap
  }

  /** What the front door says: 200, 400 or 413.  (The depth limit, 429, is in module EngineLoop.) */
  datatype Answer = Accepted | BadPrompt | TooLarge

  /** The allocator's answer is exact arithmetic, and is what the specification calls fits_ever. */
  lemma FitsEverIs(cfg: Cfg, manager: S.KvManager, promptLen: nat, maxNew: int)
    requires cfg.Valid() && manager.Serves(cfg)
    ensures manager.FitsEver(promptLen, maxNew) <==> promptLen + maxNew <= Room(cfg)
    ensures manager.FitsEver(promptLen, maxNew) <==> FitsEver(cfg, promptLen, maxNew)
  {
    UnitsForAtMost(cfg.cap, promptLen + maxNew, cfg.units);
  }

  /** For a budget of zero or more that answer means that the request can complete. */
  lemma AcceptedCanComplete(cfg: Cfg, prompt: seq<Token>, maxNew: int, ignoreEos: bool, now: int)
    requires cfg.Valid() && 0 < |prompt| < MAX_CONTEXT && maxNew >= 0
    requires FitsEver(cfg, |prompt|, Min(maxNew, MAX_CONTEXT - |prompt|))
    ensures CanComplete(cfg, NewReq(prompt, maxNew, ignoreEos, now))
  {
    UnitsForMonotone(cfg.cap, |prompt|, |prompt| + Min(maxNew, MAX_CONTEXT - |prompt|));
  }

  class Engine {
    const sched: S.Scheduler

    constructor (sched: S.Scheduler)
      ensures this.sched == sched
    {
      this.sched := sched;
    }

    /** while has_work: step */
    method RunUntilIdle()
      requires sched.Valid() && Inv(sched.cfg, sched.View()) && AllFit(sched.cfg, sched.View())
      modifies sched, sched.all.Values, sched.manager.Obj(), sched.pool.Tensors()
      ensures sched.Valid() && sched.all == old(sched.all) && Inv(sched.cfg, sched.View()) && AllFit(sched.cfg, sched.View())
      ensures !HasWork(sched.View()) && Grows(old(sched.View()), sched.View())
    {
      hide Inv, Grows, Work, Step, AllFit;
      ghost var s0 := sched.View();
      GrowsRefl(s0);
      WorkNonNegative(sched.cfg, s0);
      while sched.HasWork()
        invariant sched.Valid() && sched.all == old(sched.all) && Inv(sched.cfg, sched.View()) && AllFit(sched.cfg, sched.View())
        invariant Grows(s0, sched.View()) && Work(sched.View()) >= 0
        decreases Work(sched.View()), sched.HasWork()
      {
        ghost var s := sched.View();
        sched.Step();
        StepWorks(sched.cfg, s, sched.View());
        GrowsTrans(s0, s, sched.View());
      }
    }

    /** A new request for each prompt, in order. */
    method NewRequests(ids: seq<Id>, prompts: seq<seq<Token>>, maxNew: seq<int>, clock: seq<int>) returns (reqs: seq<Request>)
      requires |ids| == |prompts| == |maxNew| == |clock|
      ensures |reqs| == |ids| && fresh(reqs)
      ensures forall i :: 0 <= i < |ids| ==> reqs[i].id == ids[i] && reqs[i].View() == NewReq(prompts[i], maxNew[i], false, clock[i])
    {
      reqs := [];
      for i := 0 to |ids|
        invariant |reqs| == i && fresh(reqs)
        invariant forall j :: 0 <= j < i ==> reqs[j].id == ids[j] && reqs[j].View() == NewReq(prompts[j], maxNew[j], false, clock[j])
      {
        var r := new Request(ids[i], prompts[i], maxNew[i], false, clock[i]);
        reqs := reqs + [r];
      }
    }

    method SubmitOne(req: Request)
      requires sched.Valid() && Inv(sched.cfg, sched.View()) && AllFit(sched.cfg, sched.View())
      requires req.id !in sched.all && CanComplete(sched.cfg, req.View())
      modifies sched, req
      ensures sched.Valid() && Inv(sched.cfg, sched.View()) && AllFit(sched.cfg, sched.View()) && sched.all == old(sched.all)[req.id := req]
      ensures req.View() == TakenIn(old(req.View()))
    {
      hide Inv, CanComplete, S.Scheduler.View, S.Scheduler.Valid, TakenIn, AllFit;
      ghost var s, r := sched.View(), req.View();
      sched.ViewParts();
      SubmitOk(sched.cfg, s, req.id, r);
      sched.Submit(req);
      sched.ViewParts();
      SubmittedIs(s, req.id, r);
      AtKnown(sched.all, req);
    }

    /**
     The front door.  A prompt of the wrong length is refused, and so is a request that the allocator says
     could never finish; anything else is queued.  With a budget of zero or more, what is let in can
     complete, so an engine whose requests all fit the pool stays one.
     */
    method Receive(id: Id, prompt: seq<Token>, maxNew: int, ignoreEos: bool, now: int) returns (answer: Answer)
      requires sched.Valid() && id !in sched.all
      modifies sched
      ensures sched.Valid()
      ensures answer ==
        if !(0 < |prompt| < MAX_CONTEXT) then BadPrompt
        else if |prompt| + Min(maxNew, MAX_CONTEXT - |prompt|) <= Room(sched.cfg) then Accepted else TooLarge
      ensures sched.View() ==
        if answer.Accepted? then Submit(old(sched.View()), id, NewReq(prompt, maxNew, ignoreEos, now)) else old(sched.View())
      ensures answer.Accepted? <==> PassesFrontDoor(sched.cfg, NewReq(prompt, maxNew, ignoreEos, now))
      ensures answer.Accepted? && maxNew >= 0 ==> CanComplete(sched.cfg, NewReq(prompt, maxNew, ignoreEos, now))
      ensures Inv(sched.cfg, old(sched.View())) && AllFit(sched.cfg, old(sched.View()))
              && (answer.Accepted? ==> CanComplete(sched.cfg, NewReq(prompt, maxNew, ignoreEos, now)))
              ==> Inv(sched.cfg, sched.View()) && AllFit(sched.cfg, sched.View())
    {
      hide Inv, CanComplete, AllFit, S.Scheduler.View;
      if !(0 < |prompt| < MAX_CONTEXT) {
        return BadPrompt;
      }
      var effMax := Min(maxNew, MAX_CONTEXT - |prompt|);
      FitsEverIs(sched.cfg, sched.manager, |prompt|, effMax);
      if !sched.manager.FitsEver(|prompt|, effMax) {
        return TooLarge;
      }
      ghost var s, r := sched.View(), NewReq(prompt, maxNew, ignoreEos, now);
      sched.ViewParts();
      if maxNew >= 0 {
        AcceptedCanComplete(sched.cfg, prompt, maxNew, ignoreEos, now);
      }
      if Inv(sched.cfg, s) && AllFit(sched.cfg, s) && CanComplete(sched.cfg, r) {
        SubmitOk(sched.cfg, s, id, r);
      }
      var req := new Request(id, prompt, maxNew, ignoreEos, now);
      sched.NothingMoved();
      sched.Submit(req);
      return Accepted;
    }

    /** The client of a request went away: unless it had finished, its flag is set, and nothing else yet. */
    method Disconnect(req: Request)
      requires sched.Valid() && Known(sched.all, req)
      modifies req`cancelled
      ensures sched.Valid()
      ensures sched.View() == if req.Finished() then old(sched.View()) else Cancel(old(sched.View()), req.id)
    {
      hide S.Scheduler.View, S.Scheduler.Valid;
      sched.ValidLists();
      sched.ViewParts();
      ghost var s := sched.View();
      AtKnown(sched.all, req);
      if req.Finished() {
        return;
      }
      req.cancelled := true;
      sched.MemoryMoved(req);
      sched.ViewParts();
      assert s.reqs[req.id] == At(s.reqs, req.id);
    }

    /** The requests enter the queue in order. */
    method SubmitAll(reqs: seq<Request>)
      requires sched.Valid() && Inv(sched.cfg, sched.View()) && AllFit(sched.cfg, sched.View())
      requires NoDup(Ids(reqs))
      requires forall i :: 0 <= i < |reqs| ==> reqs[i].id !in sched.all && CanComplete(sched.cfg, reqs[i].View())
      modifies sched, reqs
      ensures sched.Valid() && Inv(sched.cfg, sched.View()) && AllFit(sched.cfg, sched.View())
      ensures forall r :: r in sched.all.Values ==> r in old(sched.all).Values || r in reqs
      ensures forall i :: 0 <= i < |reqs| ==> Known(sched.all, reqs[i]) && reqs[i].View() == TakenIn(old(reqs[i].View()))
    {
      hide Inv, CanComplete, S.Scheduler.View, S.Scheduler.Valid, TakenIn, AllFit;
      ghost var all0 := sched.all;
      for i := 0 to |reqs|
        invariant sched.Valid() && Inv(sched.cfg, sched.View()) && AllFit(sched.cfg, sched.View())
        invariant forall r :: r in sched.all.Values ==> r in all0.Values || r in reqs
        invariant forall id :: id in sched.all ==> id in all0 || id in Ids(reqs)[..i]
        invariant forall j :: 0 <= j < i ==> Known(sched.all, reqs[j]) && reqs[j].View() == TakenIn(old(reqs[j].View()))
        invariant forall j :: i <= j < |reqs| ==> reqs[j].View() == old(reqs[j].View())
      {
        assert reqs[i].id == Ids(reqs)[i] && Ids(reqs)[i] !in Ids(reqs)[..i];
        assert forall j :: 0 <= j < |reqs| && j != i ==> reqs[j].id == Ids(reqs)[j] != Ids(reqs)[i];
        SubmitOne(reqs[i]);
      }
    }

    /**
     Every prompt of the batch gets exactly what full recomputation of that prompt alone generates,
     whatever else was queued, batched, evicted or recycled on the way.
     */
    method GenerateBatch(ids: seq<Id>, prompts: seq<seq<Token>>, maxNew: seq<int>, clock: seq<int>) returns (outs: seq<seq<Token>>)
      requires sched.Valid() && Inv(sched.cfg, sched.View()) && AllFit(sched.cfg, sched.View())
      requires |ids| == |prompts| == |maxNew| == |clock| && NoDup(ids) && forall i :: 0 <= i < |ids| ==> ids[i] !in sched.all
      requires forall i :: 0 <= i < |ids| ==> CanComplete(sched.cfg, NewReq(prompts[i], maxNew[i], false, clock[i]))
      modifies sched, sched.all.Values, sched.manager.Obj(), sched.pool.Tensors()
      ensures sched.Valid() && Inv(sched.cfg, sched.View()) && !HasWork(sched.View())
      ensures |outs| == |prompts|
      ensures forall i :: 0 <= i < |outs| ==>
        prompts[i] != [] && outs[i] == Greedy(sched.cfg.net, prompts[i], [], Max(maxNew[i], 1), false)
    {
      hide Inv, CanComplete, Grows, AllFit, S.Scheduler.View, S.Scheduler.Valid, TakenIn;
      var reqs := NewRequests(ids, prompts, maxNew, clock);
      assert Ids(reqs) == ids;
      SubmitAll(reqs);
      sched.ViewParts();
      ghost var s := sched.View();
      forall i | 0 <= i < |reqs| ensures At(s.reqs, ids[i]) == TakenIn(NewReq(prompts[i], maxNew[i], false, clock[i])) && ids[i] in s.reqs {
        AtKnown(sched.all, reqs[i]);
      }
      RunUntilIdle();
      sched.ViewParts();
      outs := seq(|reqs|, i requires 0 <= i < |reqs| reads reqs => reqs[i].output);
      forall i | 0 <= i < |outs|
        ensures prompts[i] != [] && outs[i] == Greedy(sched.cfg.net, prompts[i], [], Max(maxNew[i], 1), false)
      {
        AtKnown(sched.all, reqs[i]);
        DrainedOutput(sched.cfg, s, sched.View(), ids[i], prompts[i], maxNew[i], clock[i]);
      }
    }
  }

  function NewReq(prompt: seq<Token>, maxNew: int, ignoreEos: bool, now: int): Req {
    Req(prompt, maxNew, ignoreEos, now, [], Waiting, None, [], -1, 0, false, [])
  }

  lemma SubmittedIs(s: St, id: Id, r: Req)
    ensures At(Submit(s, id, r).reqs, id) == TakenIn(r)
  {
  }

  /** What a submitted request has when the engine has drained. */
  lemma DrainedOutput(cfg: Cfg, s: St, t: St, id: Id, prompt: seq<Token>, maxNew: int, now: int)
    requires Inv(cfg, t) && !HasWork(t) && Grows(s, t) && id in s.reqs && At(s.reqs, id) == TakenIn(NewReq(prompt, maxNew, false, now))
    requires CanComplete(cfg, NewReq(prompt, maxNew, false, now))
    ensures prompt != [] && id in t.reqs && At(t.reqs, id).output == Greedy(cfg.net, prompt, [], Max(maxNew, 1), false)
  {
    hide Inv, FitsAlone, ReservesPrompt;
    var r := t.reqs[id];
    assert At(t.reqs, id) == r;
    DrainedIsComplete(cfg, t, id);
    GreedyCapped(cfg.net, prompt, [], Max(maxNew, 1), false);
  }
}
