/**
 A client goes away.

 The API thread only sets a flag.  The next retire phase acts on it: the request leaves its queue, gives
 its memory back and is never touched again.  Nobody else is flagged, and nobody is flagged otherwise.
 */
module Disconnection {
  import opened Prelude
  import opened Scheduling
  import opened Invariant
  import opened PreserveQueues
  import opened EvictionLoop
  import opened Steps
  import opened Runs
  import opened Progress
  import opened Fairness
  import Accounting

  // ------------------------------------------------------------------ the flag

  lemma ApplyFlag(cfg: Cfg, s: St, e: Event, id: Id)
    requires Inv(cfg, s) && id in s.reqs && cfg.Valid() && Apply(cfg, s, e).Ok?
    ensures id in Apply(cfg, s, e).value.reqs
    ensures Apply(cfg, s, e).value.reqs[id].cancelled <==> s.reqs[id].cancelled || e == Disconnect(id)
  {
    hide Inv, Traces, Acceptable, Step;
    if e.Iterate? {
      var x := StepTrace(cfg, s);
      TraceEnd(cfg, s, x);
      StepCancelled(cfg, s, x, id);
      StepLater(cfg, s, x, id);
    }
  }

  /** Along any run a known request is flagged exactly when it was before or its client left. */
  lemma {:induction false} FlaggedIff(cfg: Cfg, s: St, events: seq<Event>, id: Id)
    requires Inv(cfg, s) && id in s.reqs
    ensures cfg.Valid() && Run(cfg, s, events).Ok? && id in Run(cfg, s, events).value.reqs
    ensures Run(cfg, s, events).value.reqs[id].cancelled <==> s.reqs[id].cancelled || Disconnect(id) in events
    decreases |events|
  {
    hide Inv, Apply;
    InvValid(cfg, s);
    RunKeepsInv(cfg, s, events);
    if events != [] {
      ApplyKeepsInv(cfg, s, events[0]);
      ApplyFlag(cfg, s, events[0], id);
      FlaggedIff(cfg, Apply(cfg, s, events[0]).value, events[1..], id);
      assert events == [events[0]] + events[1..];
    }
  }

  // ------------------------------------------------------------------ leaving

  lemma RetiredAway(s: St, r: St, id: Id)
    requires RetiredFrom(s, r) && At(s.reqs, id).cancelled
    ensures id !in r.waiting && id !in r.running
    ensures At(r.reqs, id) == if id in s.running then Left(At(s.reqs, id)) else At(s.reqs, id)
  {
    RetiredMembers(s, r);
  }

  lemma StaysAway(cfg: Cfg, r: St, t: St, batch: seq<Id>, e: St, u: St, active: seq<Id>, id: Id)
    requires AdmitRel(cfg, r, t, batch) && ListsOk(r, []) && DecodeRel(cfg, t, e, u, active)
    requires id !in r.waiting && id !in r.running
    ensures id !in u.waiting && id !in u.running && At(u.reqs, id) == At(r.reqs, id)
  {
    hide ListsOk, Sort, Wanting, WeakestGone, Unfinished;
    AdmitMembers(cfg, r, t, batch, id);
    UnfinishedMembers(t, id);
  }

  /** The step that follows takes a flagged request out, whatever it was doing. */
  lemma FlaggedLeaves(cfg: Cfg, s: St, x: Trace, id: Id)
    requires Traces(cfg, s, x) && At(s.reqs, id).cancelled
    ensures id !in x.u.waiting && id !in x.u.running
    ensures At(x.u.reqs, id) == if id in s.running then Left(At(s.reqs, id)) else At(s.reqs, id)
  {
    hide Core, RetiredFrom, AdmitRel, DecodeRel, Starved, FilledUp, ListsOk, Left, Retire, Admit, Decode, Step;
    InvLists(cfg, x.r);
    RetiredAway(s, x.r, id);
    StaysAway(cfg, x.r, x.t, x.batch, x.e, x.u, x.active, id);
  }

  /** What is left of a request whose client went away while it looked like r. */
  ghost predicate Abandoned(r: Req, wasRunning: bool, r': Req) {
    && r'.cancelled && r'.table == [] && r'.output == r.output && r'.sent == r.sent
    && r'.reason == if wasRunning && r.reason == None then Some(Cancelled) else r.reason
  }

  lemma AbandonedNow(cfg: Cfg, s: St, u: St, id: Id)
    requires Inv(cfg, s) && id in s.reqs
    requires var r := s.reqs[id].(cancelled := true); At(u.reqs, id) == if id in s.running then Left(r) else r
    ensures Abandoned(s.reqs[id], id in s.running, At(u.reqs, id))
  {
    hide ListsOk, ReqsOk, RunnersOk, MemOk, CommitOk, AdmitOrder;
    assert At(s.reqs, id) == s.reqs[id];
    if id !in s.running && id !in s.waiting {
      assert GoneOk(At(s.reqs, id));
    }
  }

  lemma DisconnectThenStep(cfg: Cfg, s: St, id: Id) returns (u: St)
    requires Inv(cfg, s) && id in s.reqs
    ensures cfg.Valid() && Apply(cfg, s, Disconnect(id)) == Ok(Cancel(s, id)) && Apply(cfg, Cancel(s, id), Iterate) == Ok(u)
    ensures Inv(cfg, u) && id in u.reqs && id !in u.waiting && id !in u.running
    ensures Abandoned(s.reqs[id], id in s.running, u.reqs[id])
  {
    hide Inv, Traces, Step, Left, Abandoned, Later;
    InvValid(cfg, s);
    CancelKeepsInv(cfg, s, id);
    var c := Cancel(s, id);
    assert At(c.reqs, id) == s.reqs[id].(cancelled := true) && c.running == s.running;
    var x := StepTrace(cfg, c);
    TraceEnd(cfg, c, x);
    FlaggedLeaves(cfg, c, x, id);
    StepLater(cfg, c, x, id);
    u := x.u;
    AbandonedNow(cfg, s, u, id);
    assert At(u.reqs, id) == u.reqs[id];
  }

  /**
   A disconnection takes effect in the next iteration, for good.  Wherever the request was, it is in
   neither queue afterwards and holds no memory; it keeps the tokens it had and never gets another one;
   and it is marked cancelled if it was running unfinished.
   */
  lemma DisconnectedLeaves(cfg: Cfg, s: St, id: Id, more: seq<Event>)
    requires Reachable(cfg, s) && id in s.reqs
    ensures cfg.Valid() && Run(cfg, s, [Disconnect(id), Iterate] + more).Ok?
    ensures var t := Run(cfg, s, [Disconnect(id), Iterate] + more).value;
      && id in t.reqs && id !in t.waiting && id !in t.running
      && Abandoned(s.reqs[id], id in s.running, t.reqs[id])
  {
    hide Reachable, Inv, Run, Apply, Abandoned;
    ReachableInv(cfg, s);
    var u := DisconnectThenStep(cfg, s, id);
    RunFirst(cfg, s, Disconnect(id), Cancel(s, id), [Iterate] + more);
    RunFirst(cfg, Cancel(s, id), Iterate, u, more);
    assert [Disconnect(id), Iterate] + more == [Disconnect(id)] + ([Iterate] + more);
    Accounting.SilentOnceGone(cfg, u, more, id);
    FlaggedIff(cfg, u, more, id);
    AbandonedStays(s.reqs[id], id in s.running, u.reqs[id], Run(cfg, u, more).value.reqs[id]);
  }

  lemma AbandonedStays(r: Req, wasRunning: bool, a: Req, b: Req)
    requires Abandoned(r, wasRunning, a) && b == a.(cancelled := b.cancelled) && (a.cancelled ==> b.cancelled)
    ensures Abandoned(r, wasRunning, b)
  {
  }
}
