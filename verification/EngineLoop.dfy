/**
 The engine loop and the front door as two threads.

 One producer thread checks the queue depth and puts requests into the inbox; the engine thread moves
 them into the scheduler and runs it.  Each action below is one atomic list operation, and the two
 threads interleave freely.  Which requests are cancelled, finish or get evicted is left open.
 */
module EngineLoop {
  import opened Prelude
  import Lists
  import Scheduling

  type Id = Scheduling.Id

  /** Where the producer is inside submit(). */
  datatype Producer =
    | Idle
    | SawInbox(inboxSize: nat)      // inbox.qsize() read, len(waiting) not yet
    | SawDepth(depth: nat)          // both read; nothing compared yet

  /** Where the engine thread is inside its loop body. */
  datatype Phase = Intake | Retiring | Keeping | Popping | Prefilling | Decoding

  datatype Limits = Limits(maxQueue: Option<nat>, maxBatch: nat, isStatic: bool)

  datatype Sys = Sys(
    inbox: seq<Id>,
    hand: seq<Id>,          // taken from the inbox, not yet in `waiting` (at most one)
    waiting: seq<Id>,
    popped: seq<Id>,        // admitted, not yet prefilled
    evictee: seq<Id>,       // removed from `running`, not yet back in `waiting` (at most one)
    running: seq<Id>,
    gone: seq<Id>,          // retired, or dropped because the client left
    accepted: seq<Id>,
    rejected: nat,
    producer: Producer,
    phase: Phase)
  {
    /** Accepted and not yet retired or dropped. */
    function Live(): nat {
      |inbox| + |hand| + |waiting| + |popped| + |evictee| + |running|
    }

    /** How many times a request occurs, over all the places it can be. */
    ghost function Copies(id: Id): nat {
      multiset(inbox)[id] + multiset(hand)[id] + multiset(waiting)[id] + multiset(popped)[id] + multiset(evictee)[id]
      + multiset(running)[id] + multiset(gone)[id]
    }
  }

  const START := Sys([], [], [], [], [], [], [], [], 0, Idle, Intake)

  datatype Action =
    | LookInbox | LookWaiting | Decide(id: Id)                 // producer
    | Take | HandOver | InboxEmpty                             // intake
    | DropCancelled(drop: set<Id>) | KeepUnfinished(drop: set<Id>)
    | Reorder(order: seq<Id>) | PopFirst | PopsDone | Join(k: nat) | PrefillsDone
    | EvictOut(i: nat) | EvictIn | StepDone

  /** Those in `drop`, order kept: what a filter leaves out. */
  function Shed(ids: seq<Id>, drop: set<Id>): seq<Id> {
    if ids == [] then [] else Shed(Init(ids), drop) + if Last(ids) in drop then [Last(ids)] else []
  }

  predicate HasWork(s: Sys) {
    s.waiting != [] || s.running != []
  }

  /** The producer: two separate reads, then the comparison and the put. */
  function Produce(lim: Limits, s: Sys, a: Action): Option<Sys> {
    match (a, s.producer)
    case (LookInbox, Idle) => Some(s.(producer := SawInbox(|s.inbox|)))
    case (LookWaiting, SawInbox(n)) => Some(s.(producer := SawDepth(n + |s.waiting|)))
    case (Decide(id), SawDepth(depth)) =>
      if lim.maxQueue.Some? && depth >= lim.maxQueue.value then Some(s.(rejected := s.rejected + 1, producer := Idle))
      else if id in s.accepted then None
      else Some(s.(inbox := s.inbox + [id], accepted := s.accepted + [id], producer := Idle))
    case _ => None
  }

  /** Draining the inbox; an empty inbox starts a step if there is work. */
  function Drain(s: Sys, a: Action): Option<Sys> {
    match a
    case Take =>
      if s.inbox != [] && s.hand == [] then Some(s.(inbox := s.inbox[1..], hand := s.inbox[..1])) else None
    case HandOver => Some(s.(waiting := s.waiting + s.hand, hand := []))
    case InboxEmpty =>
      if s.inbox == [] && s.hand == [] then Some(s.(phase := if HasWork(s) then Retiring else Intake)) else None
    case _ => None
  }

  /** The two halves of retire: drop cancelled waiters, then let finished rows go. */
  function Retire(s: Sys, a: Action): Option<Sys> {
    match a
    case DropCancelled(drop) =>
      if s.phase == Retiring
      then Some(s.(waiting := Scheduling.Without(s.waiting, drop), gone := s.gone + Shed(s.waiting, drop), phase := Keeping))
      else None
    case KeepUnfinished(drop) =>
      if s.phase == Keeping
      then Some(s.(running := Scheduling.Without(s.running, drop), gone := s.gone + Shed(s.running, drop), phase := Popping))
      else None
    case _ => None
  }

  /** Sorting and popping the queue. */
  function Pop(lim: Limits, s: Sys, a: Action): Option<Sys> {
    match a
    case Reorder(order) =>
      if multiset(order) == multiset(s.waiting) then Some(s.(waiting := order)) else None
    case PopFirst =>
      if s.waiting != [] && |s.running| + |s.popped| < lim.maxBatch && (lim.isStatic ==> s.running == [])
      then Some(s.(waiting := s.waiting[1..], popped := s.popped + s.waiting[..1]))
      else None
    case PopsDone => Some(s.(phase := Prefilling))
    case _ => None
  }

  /** Prefilled requests join the rows: all at once in static mode, one by one otherwise. */
  function Prefill(s: Sys, a: Action): Option<Sys> {
    match a
    case Join(k) =>
      if k <= |s.popped| then Some(s.(running := s.running + s.popped[..k], popped := s.popped[k..])) else None
    case PrefillsDone => if s.popped == [] then Some(s.(phase := Decoding)) else None
    case _ => None
  }

  /** Evictions: out of the rows, back into the queue. */
  function Evict(s: Sys, a: Action): Option<Sys> {
    match a
    case EvictOut(i) =>
      if i < |s.running| && s.evictee == []
      then Some(s.(running := RemoveAt(s.running, i), evictee := [s.running[i]]))
      else None
    case EvictIn => Some(s.(waiting := s.waiting + s.evictee, evictee := []))
    case StepDone => if s.evictee == [] then Some(s.(phase := Intake)) else None
    case _ => None
  }

  /** The engine thread: drain the inbox, then retire, admit and decode if there is work. */
  function Work(lim: Limits, s: Sys, a: Action): Option<Sys> {
    match s.phase
    case Intake => Drain(s, a)
    case Retiring => Retire(s, a)
    case Keeping => Retire(s, a)
    case Popping => Pop(lim, s, a)
    case Prefilling => Prefill(s, a)
    case Decoding => Evict(s, a)
  }

  predicate ByProducer(a: Action) {
    a.LookInbox? || a.LookWaiting? || a.Decide?
  }

  function Act(lim: Limits, s: Sys, a: Action): Option<Sys> {
    if ByProducer(a) then Produce(lim, s, a) else Work(lim, s, a)
  }

  /** One interleaving: actions that are not enabled are skipped. */
  function RunAll(lim: Limits, actions: seq<Action>): Sys {
    if actions == [] then START
    else
      var s := RunAll(lim, Init(actions));
      var t := Act(lim, s, Last(actions));
      if t.Some? then t.value else s
  }

  // ------------------------------------------------------------------ invariant

  /** What the producer has read bounds what there is. */
  ghost predicate ReadOk(lim: Limits, s: Sys) {
    match s.producer
    case Idle => true
    case SawInbox(n) => |s.inbox| <= n
    case SawDepth(depth) => s.Live() <= depth + 1 + lim.maxBatch
  }

  ghost predicate RowsOk(lim: Limits, s: Sys) {
    && |s.popped| + |s.evictee| + |s.running| <= lim.maxBatch
    && |s.hand| <= 1 && |s.evictee| <= 1
    && (s.hand != [] ==> s.phase == Intake) && (s.evictee != [] ==> s.phase == Decoding)
    && (s.popped != [] ==> s.phase == Popping || s.phase == Prefilling)
  }

  ghost predicate Partition(s: Sys) {
    forall id :: s.Copies(id) == if id in s.accepted then 1 else 0
  }

  ghost predicate Bounded(lim: Limits, s: Sys) {
    lim.maxQueue.Some? ==> s.Live() <= lim.maxQueue.value + lim.maxBatch + 1
  }

  ghost predicate Ok(lim: Limits, s: Sys) {
    ReadOk(lim, s) && RowsOk(lim, s) && Partition(s) && Bounded(lim, s)
  }

  lemma {:induction false} ShedCount(ids: seq<Id>, drop: set<Id>, id: Id)
    ensures multiset(Shed(ids, drop))[id] == if id in drop then multiset(ids)[id] else 0
  {
    if ids != [] {
      ShedCount(Init(ids), drop, id);
      Lists.Snoc(ids);
      Joined(Shed(Init(ids), drop), [Last(ids)], id);
    }
  }

  lemma KeepShed(ids: seq<Id>, drop: set<Id>, id: Id)
    ensures multiset(Scheduling.Without(ids, drop))[id] + multiset(Shed(ids, drop))[id] == multiset(ids)[id]
  {
    ShedCount(ids, drop, id);
    Lists.WithoutCount(ids, drop, id);
  }

  lemma Joined(a: seq<Id>, b: seq<Id>, id: Id)
    ensures multiset(a + b)[id] == multiset(a)[id] + multiset(b)[id]
  {
  }

  lemma Cut(ids: seq<Id>, k: nat, id: Id)
    requires k <= |ids|
    ensures multiset(ids)[id] == multiset(ids[..k])[id] + multiset(ids[k..])[id]
  {
    assert ids == ids[..k] + ids[k..];
  }

  lemma CutOut(ids: seq<Id>, i: nat, id: Id)
    requires i < |ids|
    ensures multiset(ids)[id] == multiset(RemoveAt(ids, i))[id] + multiset([ids[i]])[id]
  {
    Cut(ids, i, id);
    Cut(ids[i..], 1, id);
    assert ids[i..][..1] == [ids[i]] && ids[i..][1..] == ids[i + 1..];
    Joined(ids[..i], ids[i + 1..], id);
  }

  lemma ProduceKeepsReads(lim: Limits, s: Sys, a: Action)
    requires ReadOk(lim, s) && RowsOk(lim, s) && Bounded(lim, s) && Produce(lim, s, a).Some?
    ensures ReadOk(lim, Produce(lim, s, a).value) && RowsOk(lim, Produce(lim, s, a).value)
    ensures Bounded(lim, Produce(lim, s, a).value)
  {
  }

  lemma ProduceKeepsCopies(lim: Limits, s: Sys, a: Action, id: Id)
    requires Partition(s) && Produce(lim, s, a).Some?
    ensures var t := Produce(lim, s, a).value; t.Copies(id) == if id in t.accepted then 1 else 0
  {
    assert s.Copies(id) == if id in s.accepted then 1 else 0;
    if a.Decide? {
      Joined(s.inbox, [a.id], id);
    }
  }

  lemma DrainMoves(s: Sys, a: Action, id: Id)
    requires Drain(s, a).Some?
    ensures Drain(s, a).value.Copies(id) == s.Copies(id)
  {
    if a.Take? {
      Cut(s.inbox, 1, id);
    } else {
      Joined(s.waiting, s.hand, id);
    }
  }

  lemma RetireMoves(s: Sys, a: Action, id: Id)
    requires Retire(s, a).Some?
    ensures Retire(s, a).value.Copies(id) == s.Copies(id)
  {
    if a.DropCancelled? {
      KeepShed(s.waiting, a.drop, id);
      Joined(s.gone, Shed(s.waiting, a.drop), id);
    } else {
      KeepShed(s.running, a.drop, id);
      Joined(s.gone, Shed(s.running, a.drop), id);
    }
  }

  lemma PopMoves(lim: Limits, s: Sys, a: Action, id: Id)
    requires Pop(lim, s, a).Some?
    ensures Pop(lim, s, a).value.Copies(id) == s.Copies(id)
  {
    if a.PopFirst? {
      Cut(s.waiting, 1, id);
      Joined(s.popped, s.waiting[..1], id);
    }
  }

  lemma PrefillMoves(s: Sys, a: Action, id: Id)
    requires Prefill(s, a).Some?
    ensures Prefill(s, a).value.Copies(id) == s.Copies(id)
  {
    if a.Join? {
      Cut(s.popped, a.k, id);
      Joined(s.running, s.popped[..a.k], id);
    }
  }

  lemma EvictMoves(s: Sys, a: Action, id: Id)
    requires Evict(s, a).Some?
    ensures Evict(s, a).value.Copies(id) == s.Copies(id)
  {
    if a.EvictOut? {
      CutOut(s.running, a.i, id);
    } else {
      Joined(s.waiting, s.evictee, id);
    }
  }

  /** The engine thread moves requests about without losing, copying or adding any. */
  lemma WorkMoves(lim: Limits, s: Sys, a: Action, id: Id)
    requires Work(lim, s, a).Some?
    ensures Work(lim, s, a).value.Copies(id) == s.Copies(id)
  {
    hide Drain, Retire, Pop, Prefill, Evict;
    match s.phase
    case Intake => DrainMoves(s, a, id);
    case Retiring => RetireMoves(s, a, id);
    case Keeping => RetireMoves(s, a, id);
    case Popping => PopMoves(lim, s, a, id);
    case Prefilling => PrefillMoves(s, a, id);
    case Decoding => EvictMoves(s, a, id);
  }

  /** Nothing the engine thread does adds to the load, refills the inbox or overfills the rows. */
  ghost predicate Eases(lim: Limits, s: Sys, t: Sys) {
    && t.accepted == s.accepted && t.producer == s.producer && t.Live() <= s.Live() && |t.inbox| <= |s.inbox|
    && (RowsOk(lim, s) ==> RowsOk(lim, t))
  }

  lemma DrainEases(lim: Limits, s: Sys, a: Action)
    requires Drain(s, a).Some? && s.phase == Intake
    ensures Eases(lim, s, Drain(s, a).value)
  {
  }

  lemma RetireEases(lim: Limits, s: Sys, a: Action)
    requires Retire(s, a).Some?
    ensures Eases(lim, s, Retire(s, a).value)
  {
    if a.DropCancelled? {
      Lists.WithoutSize(s.waiting, a.drop);
    } else {
      Lists.WithoutSize(s.running, a.drop);
    }
  }

  lemma PopEases(lim: Limits, s: Sys, a: Action)
    requires Pop(lim, s, a).Some? && s.phase == Popping
    ensures Eases(lim, s, Pop(lim, s, a).value)
  {
    if a.Reorder? {
      assert |a.order| == |multiset(a.order)| && |s.waiting| == |multiset(s.waiting)|;
    }
  }

  lemma PrefillEases(lim: Limits, s: Sys, a: Action)
    requires Prefill(s, a).Some? && s.phase == Prefilling
    ensures Eases(lim, s, Prefill(s, a).value)
  {
  }

  lemma EvictEases(lim: Limits, s: Sys, a: Action)
    requires Evict(s, a).Some? && s.phase == Decoding
    ensures Eases(lim, s, Evict(s, a).value)
  {
  }

  lemma WorkEases(lim: Limits, s: Sys, a: Action)
    requires Work(lim, s, a).Some?
    ensures Eases(lim, s, Work(lim, s, a).value)
  {
    hide Drain, Retire, Pop, Prefill, Evict, Eases;
    match s.phase
    case Intake => DrainEases(lim, s, a);
    case Retiring => RetireEases(lim, s, a);
    case Keeping => RetireEases(lim, s, a);
    case Popping => PopEases(lim, s, a);
    case Prefilling => PrefillEases(lim, s, a);
    case Decoding => EvictEases(lim, s, a);
  }

  lemma ActKeepsOk(lim: Limits, s: Sys, a: Action)
    requires Ok(lim, s) && Act(lim, s, a).Some?
    ensures Ok(lim, Act(lim, s, a).value)
  {
    hide Produce, Work;
    var t := Act(lim, s, a).value;
    if a.LookInbox? || a.LookWaiting? || a.Decide? {
      ProduceKeepsReads(lim, s, a);
      forall id ensures t.Copies(id) == if id in t.accepted then 1 else 0 {
        ProduceKeepsCopies(lim, s, a, id);
      }
    } else {
      WorkEases(lim, s, a);
      forall id ensures t.Copies(id) == if id in t.accepted then 1 else 0 {
        WorkMoves(lim, s, a, id);
        assert s.Copies(id) == if id in s.accepted then 1 else 0;
      }
    }
  }

  lemma {:induction false} RunOk(lim: Limits, actions: seq<Action>)
    ensures Ok(lim, RunAll(lim, actions))
  {
    hide Act, Ok;
    if actions == [] {
      StartOk(lim);
    } else {
      RunOk(lim, Init(actions));
      if Act(lim, RunAll(lim, Init(actions)), Last(actions)).Some? {
        ActKeepsOk(lim, RunAll(lim, Init(actions)), Last(actions));
      }
    }
  }

  lemma StartOk(lim: Limits)
    ensures Ok(lim, START)
  {
  }

  // ------------------------------------------------------------------ the accounting

  /** In every interleaving, every accepted request is in exactly one place, and nothing else is anywhere. */
  lemma EveryRequestInOnePlace(lim: Limits, actions: seq<Action>, id: Id)
    ensures var s := RunAll(lim, actions);
      s.Copies(id) == if id in s.accepted then 1 else 0
  {
    RunOk(lim, actions);
  }

  /**
   In every interleaving of the two-read depth check with the transfer loop, the number of requests
   accepted and not yet retired or dropped stays within max_queue + max_batch + 1.
   */
  lemma LoadIsBounded(lim: Limits, actions: seq<Action>)
    requires lim.maxQueue.Some?
    ensures RunAll(lim, actions).Live() <= lim.maxQueue.value + lim.maxBatch + 1
    ensures var s := RunAll(lim, actions); |s.running| + |s.popped| <= lim.maxBatch
  {
    RunOk(lim, actions);
  }

  // ------------------------------------------------------------------ who is let in

  lemma RunSnoc(lim: Limits, actions: seq<Action>, a: Action)
    ensures var s := RunAll(lim, actions);
      RunAll(lim, actions + [a]) == if Act(lim, s, a).Some? then Act(lim, s, a).value else s
  {
    assert Init(actions + [a]) == actions;
  }

  /** The engine thread neither admits to the inbox nor rejects. */
  lemma WorkKeepsDoor(lim: Limits, s: Sys, a: Action)
    requires !ByProducer(a) && Act(lim, s, a).Some?
    ensures var t := Act(lim, s, a).value; t.producer == s.producer && t.accepted == s.accepted && t.rejected == s.rejected
  {
  }

  lemma {:induction false} EngineKeepsDoor(lim: Limits, before: seq<Action>, mid: seq<Action>)
    requires forall a :: a in mid ==> !ByProducer(a)
    ensures var s, t := RunAll(lim, before), RunAll(lim, before + mid);
      t.producer == s.producer && t.accepted == s.accepted && t.rejected == s.rejected
  {
    hide RunAll, Act, ByProducer;
    if mid == [] {
      assert before + mid == before;
    } else {
      assert mid == Init(mid) + [Last(mid)];
      EngineKeepsDoor(lim, before, Init(mid));
      assert before + mid == (before + Init(mid)) + [Last(mid)];
      RunSnoc(lim, before + Init(mid), Last(mid));
      if Act(lim, RunAll(lim, before + Init(mid)), Last(mid)).Some? {
        WorkKeepsDoor(lim, RunAll(lim, before + Init(mid)), Last(mid));
      }
    }
  }

  /** The request goes to the end of the inbox, or is turned away; nothing else changes. */
  function Decided(s: Sys, id: Id, letIn: bool): Sys {
    if letIn then s.(inbox := s.inbox + [id], accepted := s.accepted + [id], producer := Idle)
    else s.(rejected := s.rejected + 1, producer := Idle)
  }

  /**
   The front door, over all interleavings.  The producer reads the size of the inbox, the engine goes on, it
   reads the length of the queue, the engine goes on again, and it decides: a new request is let in exactly
   when there is no limit or the two sizes it read, at those two moments, add up to less than the limit.
   */
  lemma LetInIff(lim: Limits, before: seq<Action>, mid: seq<Action>, mid': seq<Action>, id: Id)
    requires RunAll(lim, before).producer == Idle && id !in RunAll(lim, before).accepted
    requires forall a :: a in mid || a in mid' ==> !ByProducer(a)
    ensures var first := RunAll(lim, before);
      var second := RunAll(lim, before + [LookInbox] + mid);
      var third := before + [LookInbox] + mid + [LookWaiting] + mid';
      var letIn := lim.maxQueue.None? || |first.inbox| + |second.waiting| < lim.maxQueue.value;
      RunAll(lim, third + [Decide(id)]) == Decided(RunAll(lim, third), id, letIn)
  {
    hide RunAll, Work;
    RunSnoc(lim, before, LookInbox);
    var one := before + [LookInbox];
    EngineKeepsDoor(lim, one, mid);
    RunSnoc(lim, one + mid, LookWaiting);
    var two := one + mid + [LookWaiting];
    EngineKeepsDoor(lim, two, mid');
    RunSnoc(lim, two + mid', Decide(id));
  }

  /** With no limit configured nothing is ever turned away. */
  lemma {:induction false} NoLimitNoRejection(lim: Limits, actions: seq<Action>)
    requires lim.maxQueue.None?
    ensures RunAll(lim, actions).rejected == 0
  {
    hide Act;
    if actions != [] {
      NoLimitNoRejection(lim, Init(actions));
      var s, a := RunAll(lim, Init(actions)), Last(actions);
      if Act(lim, s, a).Some? {
        RejectsAtLimit(lim, s, a);
      }
    }
  }

  lemma RejectsAtLimit(lim: Limits, s: Sys, a: Action)
    requires Act(lim, s, a).Some? && lim.maxQueue.None?
    ensures Act(lim, s, a).value.rejected == s.rejected
  {
  }

  /** What the scheduler has not seen yet is the end of what was accepted, in the same order. */
  ghost predicate IntakeInOrder(s: Sys) {
    |s.hand| + |s.inbox| <= |s.accepted| && s.hand + s.inbox == s.accepted[|s.accepted| - |s.hand| - |s.inbox|..]
  }

  lemma TailGrows(a: seq<Id>, tail: seq<Id>, id: Id)
    requires |tail| <= |a| && tail == a[|a| - |tail|..]
    ensures tail + [id] == (a + [id])[|a| - |tail|..]
  {
  }

  lemma ActKeepsIntake(lim: Limits, s: Sys, a: Action)
    requires IntakeInOrder(s) && Act(lim, s, a).Some?
    ensures IntakeInOrder(Act(lim, s, a).value)
  {
    hide Retire, Pop, Prefill, Evict;
    if a.Decide? {
      TailGrows(s.accepted, s.hand + s.inbox, a.id);
      assert s.hand + (s.inbox + [a.id]) == s.hand + s.inbox + [a.id];
    } else if ByProducer(a) {
    } else if s.phase == Intake {
      DrainKeepsIntake(s, a);
    } else {
      WorkKeepsIntake(lim, s, a);
    }
  }

  lemma FirstAndRest(ids: seq<Id>)
    requires ids != []
    ensures ids[..1] + ids[1..] == ids && [] + ids == ids && |ids[..1]| == 1
  {
  }

  lemma DrainKeepsIntake(s: Sys, a: Action)
    requires IntakeInOrder(s) && Drain(s, a).Some?
    ensures IntakeInOrder(Drain(s, a).value)
  {
    if a.Take? {
      FirstAndRest(s.inbox);
    } else if a.HandOver? {
      HandOverKeepsIntake(s);
    }
  }

  lemma HandOverKeepsIntake(s: Sys)
    requires IntakeInOrder(s)
    ensures IntakeInOrder(s.(waiting := s.waiting + s.hand, hand := []))
  {
    TailDrops(s.accepted, s.hand, s.inbox);
  }

  lemma TailDrops(all: seq<Id>, a: seq<Id>, b: seq<Id>)
    requires |a| + |b| <= |all| && a + b == all[|all| - |a| - |b|..]
    ensures [] + b == all[|all| - |b|..]
  {
    var n := |all| - |b|;
    forall k | 0 <= k < |b| ensures b[k] == all[n + k] {
      assert b[k] == (a + b)[|a| + k];
    }
  }

  lemma WorkKeepsIntake(lim: Limits, s: Sys, a: Action)
    requires !ByProducer(a) && s.phase != Intake && Act(lim, s, a).Some?
    ensures var t := Act(lim, s, a).value; t.inbox == s.inbox && t.hand == s.hand && t.accepted == s.accepted
  {
  }

  /** Requests reach the scheduler in the order in which they were accepted. */
  lemma {:induction false} FirstInFirstSeen(lim: Limits, actions: seq<Action>)
    ensures IntakeInOrder(RunAll(lim, actions))
  {
    hide Act, IntakeInOrder;
    if actions == [] {
      StartInOrder();
    } else {
      FirstInFirstSeen(lim, Init(actions));
      var s, a := RunAll(lim, Init(actions)), Last(actions);
      if Act(lim, s, a).Some? {
        ActKeepsIntake(lim, s, a);
      }
    }
  }

  lemma StartInOrder()
    ensures IntakeInOrder(START)
  {
  }

  // ------------------------------------------------------------------ nobody is shut out

  /** The engine goes on from s by these actions; those not enabled are skipped. */
  function Drive(lim: Limits, s: Sys, more: seq<Action>): Sys
    decreases |more|
  {
    if more == [] then s
    else Drive(lim, if Act(lim, s, more[0]).Some? then Act(lim, s, more[0]).value else s, more[1..])
  }

  lemma {:induction false} DriveIsRun(lim: Limits, actions: seq<Action>, more: seq<Action>)
    ensures RunAll(lim, actions + more) == Drive(lim, RunAll(lim, actions), more)
    decreases |more|
  {
    hide RunAll, Act;
    if more == [] {
      assert actions + more == actions;
    } else {
      RunSnoc(lim, actions, more[0]);
      DriveIsRun(lim, actions + [more[0]], more[1..]);
      assert actions + more == (actions + [more[0]]) + more[1..];
    }
  }

  lemma {:induction false} DriveConcat(lim: Limits, s: Sys, a: seq<Action>, b: seq<Action>)
    ensures Drive(lim, s, a + b) == Drive(lim, Drive(lim, s, a), b)
    decreases |a|
  {
    hide Act;
    if a == [] {
      assert a + b == b;
    } else {
      assert (a + b)[1..] == a[1..] + b;
      DriveConcat(lim, if Act(lim, s, a[0]).Some? then Act(lim, s, a[0]).value else s, a[1..], b);
    }
  }

  lemma DriveOne(lim: Limits, s: Sys, a: Action)
    requires Act(lim, s, a).Some?
    ensures Drive(lim, s, [a]) == Act(lim, s, a).value
  {
    hide Act;
    var t := Act(lim, s, a).value;
    assert [a][1..] == [];
    assert Drive(lim, t, []) == t;
  }

  /** The action that brings the engine thread back to an empty inbox, keeping everybody. */
  function Onward(s: Sys): Action {
    match s.phase
    case Intake => if s.hand != [] then HandOver else Take
    case Retiring => DropCancelled({})
    case Keeping => KeepUnfinished({})
    case Popping => PopsDone
    case Prefilling => if s.popped != [] then Join(|s.popped|) else PrefillsDone
    case Decoding => if s.evictee != [] then EvictIn else StepDone
  }

  /** How far that is. */
  function Distance(s: Sys): nat {
    2 * |s.inbox| + |s.hand| +
    match s.phase
    case Intake => 0
    case Retiring => 8
    case Keeping => 7
    case Popping => 6
    case Prefilling => if s.popped != [] then 5 else 4
    case Decoding => if s.evictee != [] then 2 else 1
  }

  predicate Settled(s: Sys) {
    s.phase == Intake && s.inbox == [] && s.hand == []
  }

  lemma OnwardWorks(lim: Limits, s: Sys)
    requires RowsOk(lim, s) && !Settled(s)
    ensures !ByProducer(Onward(s)) && Act(lim, s, Onward(s)).Some?
    ensures Distance(Act(lim, s, Onward(s)).value) < Distance(s)
  {
  }

  lemma {:induction false} ShedNone(ids: seq<Id>)
    ensures Shed(ids, {}) == []
  {
    if ids != [] {
      ShedNone(Init(ids));
    }
  }

  lemma OnwardLosesNobody(lim: Limits, s: Sys)
    requires Act(lim, s, Onward(s)).Some?
    ensures Act(lim, s, Onward(s)).value.gone == s.gone
  {
    ShedNone(s.waiting);
    ShedNone(s.running);
    assert s.gone + [] == s.gone;
  }

  lemma {:induction false} Settle(lim: Limits, s: Sys) returns (more: seq<Action>)
    requires Ok(lim, s)
    ensures forall a :: a in more ==> !ByProducer(a)
    ensures var t := Drive(lim, s, more); Settled(t) && Ok(lim, t) && t.accepted == s.accepted && t.gone == s.gone
    decreases Distance(s)
  {
    hide Ok, Act, Onward, ByProducer, Settled, Distance, Drive;
    if Settled(s) {
      more := [];
      DriveNone(lim, s);
    } else {
      OkParts(lim, s);
      OnwardWorks(lim, s);
      OnwardLosesNobody(lim, s);
      var a := Onward(s);
      var t := Act(lim, s, a).value;
      ActKeepsOk(lim, s, a);
      WorkKeepsDoor(lim, s, a);
      DriveOne(lim, s, a);
      var rest := Settle(lim, t);
      DriveConcat(lim, s, [a], rest);
      more := [a] + rest;
    }
  }

  lemma DriveNone(lim: Limits, s: Sys)
    ensures Drive(lim, s, []) == s
  {
  }

  lemma OkParts(lim: Limits, s: Sys)
    requires Ok(lim, s)
    ensures RowsOk(lim, s) && Partition(s)
  {
  }

  /** With the inbox empty, an accepted request waits, runs or is gone. */
  lemma SettledPlaces(lim: Limits, s: Sys, id: Id)
    requires Ok(lim, s) && Settled(s) && id in s.accepted
    ensures id in s.waiting || id in s.running || id in s.gone
  {
    assert s.Copies(id) == 1;
    assert s.popped == [] && s.evictee == [];
    assert multiset(s.popped)[id] == 0 && multiset(s.evictee)[id] == 0;
    assert multiset(s.hand)[id] == 0 && multiset(s.inbox)[id] == 0;
  }

  lemma DropNone(ids: seq<Id>)
    ensures Scheduling.Without(ids, {}) == ids
  {
    Lists.WithoutNone(ids, {});
  }

  lemma {:induction false} DropAll(ids: seq<Id>, drop: set<Id>)
    requires forall id :: id in ids ==> id in drop
    ensures Scheduling.Without(ids, drop) == []
  {
    if ids != [] {
      Lists.InitMembers(ids);
      DropAll(Init(ids), drop);
    }
  }

  lemma ToFront(ids: seq<Id>, id: Id) returns (order: seq<Id>)
    requires id in ids
    ensures multiset(order) == multiset(ids) && order != [] && order[0] == id
  {
    var k := IndexOf(ids, id);
    order := [id] + RemoveAt(ids, k);
    Lists.RemoveAtCount(ids, k);
  }

  lemma StepStarts(lim: Limits, s: Sys) returns (t: Sys)
    requires Settled(s) && s.waiting != []
    ensures Act(lim, s, InboxEmpty) == Some(t)
    ensures t == s.(phase := Retiring)
  {
    t := s.(phase := Retiring);
  }

  lemma NobodyLeavesQueue(lim: Limits, s: Sys) returns (t: Sys)
    requires s.phase == Retiring
    ensures Act(lim, s, DropCancelled({})) == Some(t)
    ensures t.phase == Keeping && t.waiting == s.waiting && t.running == s.running && t.popped == s.popped
  {
    DropNone(s.waiting);
    t := s.(gone := s.gone + Shed(s.waiting, {}), phase := Keeping);
  }

  lemma RowsLeave(lim: Limits, s: Sys, all: set<Id>) returns (t: Sys)
    requires s.phase == Keeping && all == set x | x in s.running
    ensures Act(lim, s, KeepUnfinished(all)) == Some(t)
    ensures t.phase == Popping && t.waiting == s.waiting && t.running == [] && t.popped == s.popped
  {
    DropAll(s.running, all);
    t := s.(running := [], gone := s.gone + Shed(s.running, all), phase := Popping);
  }

  /** A step that retires every row opens the batch. */
  lemma OpensBatch(lim: Limits, s: Sys, id: Id) returns (more: seq<Action>)
    requires Ok(lim, s) && Settled(s) && id in s.waiting
    ensures forall a :: a in more ==> !ByProducer(a)
    ensures var t := Drive(lim, s, more); t.phase == Popping && t.running == [] && t.popped == [] && id in t.waiting
  {
    hide Drive, Act;
    var all := set x | x in s.running;
    var a, b, c := InboxEmpty, DropCancelled({}), KeepUnfinished(all);
    var s1 := StepStarts(lim, s);
    var s2 := NobodyLeavesQueue(lim, s1);
    var s3 := RowsLeave(lim, s2, all);
    DriveOne(lim, s, a);
    DriveOne(lim, s1, b);
    DriveOne(lim, s2, c);
    DriveConcat(lim, s, [a], [b]);
    DriveConcat(lim, s, [a] + [b], [c]);
    more := [a] + [b] + [c];
  }

  lemma JoinsBatch(lim: Limits, s: Sys, id: Id) returns (more: seq<Action>)
    requires s.phase == Popping && s.running == [] && s.popped == [] && id in s.waiting && lim.maxBatch >= 1
    ensures forall a :: a in more ==> !ByProducer(a)
    ensures id in Drive(lim, s, more).running
  {
    hide Drive;
    var order := ToFront(s.waiting, id);
    var s1 := s.(waiting := order);
    var s2 := s1.(waiting := order[1..], popped := [id]);
    var s3 := s2.(phase := Prefilling);
    var s4 := s3.(running := [id], popped := []);
    assert [] + order[..1] == [id] && [id][..1] == [id] && [] + [id] == [id] && [id][1..] == [];
    assert Act(lim, s, Reorder(order)) == Some(s1);
    assert Act(lim, s1, PopFirst) == Some(s2);
    assert Act(lim, s2, PopsDone) == Some(s3);
    assert Act(lim, s3, Join(1)) == Some(s4);
    DriveOne(lim, s, Reorder(order));
    DriveOne(lim, s1, PopFirst);
    DriveOne(lim, s2, PopsDone);
    DriveOne(lim, s3, Join(1));
    DriveConcat(lim, s, [Reorder(order)], [PopFirst]);
    DriveConcat(lim, s, [Reorder(order)] + [PopFirst], [PopsDone]);
    DriveConcat(lim, s, [Reorder(order)] + [PopFirst] + [PopsDone], [Join(1)]);
    more := [Reorder(order)] + [PopFirst] + [PopsDone] + [Join(1)];
  }

  /**
   The two threads never get stuck: from whatever point an interleaving has reached, static or continuous,
   the engine thread alone can go on so that a given accepted request is in the batch, unless it had left.
   */
  lemma NobodyIsShutOut(lim: Limits, actions: seq<Action>, id: Id) returns (more: seq<Action>)
    requires lim.maxBatch >= 1 && id in RunAll(lim, actions).accepted && id !in RunAll(lim, actions).gone
    ensures forall a :: a in more ==> !ByProducer(a)
    ensures id in RunAll(lim, actions + more).running
  {
    hide RunAll, Drive, Ok, ByProducer, Settled;
    var s := RunAll(lim, actions);
    RunOk(lim, actions);
    more := Settle(lim, s);
    var t := Drive(lim, s, more);
    SettledPlaces(lim, t, id);
    if id in t.waiting {
      var a := OpensBatch(lim, t, id);
      var b := JoinsBatch(lim, Drive(lim, t, a), id);
      DriveConcat(lim, s, more, a);
      DriveConcat(lim, s, more + a, b);
      more := more + a + b;
    }
    DriveIsRun(lim, actions, more);
  }

  // ------------------------------------------------------------------ the bound is tight

  lemma Then(lim: Limits, actions: seq<Action>, a: Action, t: Sys) returns (more: seq<Action>)
    requires Act(lim, RunAll(lim, actions), a) == Some(t)
    ensures RunAll(lim, more) == t
  {
    more := actions + [a];
    assert Init(more) == actions;
  }

  lemma Single(id: Id)
    ensures [] + [id] == [id] && [id][..1] == [id] && [id][1..] == []
    ensures Scheduling.Without([id], {}) == [id] && Shed([id], {}) == [] && Scheduling.Without([], {}) == [] && Shed([], {}) == []
    ensures [] + Shed([id], {}) == []
  {
    assert Init([id]) == [];
  }

  /** A request reaches the inbox past an empty-looking queue. */
  lemma Arrives(lim: Limits, actions: seq<Action>, id: Id) returns (more: seq<Action>)
    requires var s := RunAll(lim, actions);
      s.producer == Idle && s.inbox == [] && s.waiting == [] && id !in s.accepted
    requires lim.maxQueue == Some(1)
    ensures var s := RunAll(lim, actions);
      RunAll(lim, more) == s.(inbox := [id], accepted := s.accepted + [id])
  {
    hide RunAll, Work;
    var s := RunAll(lim, actions);
    Single(id);
    more := Then(lim, actions, LookInbox, s.(producer := SawInbox(0)));
    more := Then(lim, more, LookWaiting, s.(producer := SawDepth(0)));
    more := Then(lim, more, Decide(id), s.(inbox := [id], accepted := s.accepted + [id]));
  }

  /** The only request in the inbox is admitted by an idle engine. */
  lemma Runs(lim: Limits, actions: seq<Action>, id: Id) returns (more: seq<Action>)
    requires RunAll(lim, actions) == START.(inbox := [id], accepted := [id])
    requires lim.maxBatch == 1
    ensures RunAll(lim, more) == START.(running := [id], accepted := [id])
  {
    hide Pop, Prefill, Evict, Produce, RunAll, Scheduling.Without, Shed;
    var s := START.(accepted := [id]);
    Single(id);
    more := Then(lim, actions, Take, s.(hand := [id]));
    more := Then(lim, more, HandOver, s.(waiting := [id]));
    more := Then(lim, more, InboxEmpty, s.(waiting := [id], phase := Retiring));
    more := Then(lim, more, DropCancelled({}), s.(waiting := [id], phase := Keeping));
    more := Then(lim, more, KeepUnfinished({}), s.(waiting := [id], phase := Popping));
    more := Joins(lim, more, id);
  }

  /** Popped, prefilled, decoded: the request is running. */
  lemma Joins(lim: Limits, actions: seq<Action>, id: Id) returns (more: seq<Action>)
    requires RunAll(lim, actions) == START.(waiting := [id], accepted := [id], phase := Popping) && lim.maxBatch == 1
    ensures RunAll(lim, more) == START.(running := [id], accepted := [id])
  {
    hide Drain, Retire, Produce, RunAll, Scheduling.Without, Shed;
    var s := START.(accepted := [id]);
    Single(id);
    more := Then(lim, actions, PopFirst, s.(popped := [id], phase := Popping));
    more := Then(lim, more, PopsDone, s.(popped := [id], phase := Prefilling));
    more := JoinsRows(lim, more, id);
  }

  lemma JoinsRows(lim: Limits, actions: seq<Action>, id: Id) returns (more: seq<Action>)
    requires RunAll(lim, actions) == START.(popped := [id], accepted := [id], phase := Prefilling)
    ensures RunAll(lim, more) == START.(running := [id], accepted := [id])
  {
    hide Drain, Retire, Pop, Produce, RunAll, Scheduling.Without, Shed;
    var s := START.(accepted := [id]);
    Single(id);
    more := Then(lim, actions, Join(1), s.(running := [id], phase := Prefilling));
    more := Then(lim, more, PrefillsDone, s.(running := [id], phase := Decoding));
    more := Then(lim, more, StepDone, s.(running := [id]));
  }

  /** The bound is reached: the depth check sees neither the request in hand nor the one running. */
  lemma BoundIsReached() returns (lim: Limits, actions: seq<Action>)
    ensures lim.maxQueue.Some? && RunAll(lim, actions).Live() == lim.maxQueue.value + lim.maxBatch + 1
  {
    lim := Limits(Some(1), 1, false);
    actions := Arrives(lim, [], 0);
    actions := Runs(lim, actions, 0);
    actions := Arrives(lim, actions, 1);
    var s := RunAll(lim, actions);
    Single(1);
    actions := Then(lim, actions, Take, s.(inbox := [], hand := [1]));
    actions := Arrives(lim, actions, 2);
  }
}
