/**
 The iteration-level scheduler as a function on states: retire, admit, decode.

 Requests are named by their ids; `reqs` plays the part of the heap, and the queues hold ids.  Every
 function mirrors one method of the scheduler or of an allocator, with the same branches and the same
 order of effects.  What the code raises is an outcome here, so that "never raised" can be proved.
 */
module Scheduling {
  import opened Prelude
  import opened Transformer
  import opened Storage
  import opened Forward

  type Id = nat

  datatype Phase = Waiting | Running | Finished
  datatype Reason = Length | Stop | Cancelled

  datatype Req = Req(
    prompt: seq<Token>,
    maxNew: int,
    ignoreEos: bool,
    arrival: int,
    output: seq<Token>,
    phase: Phase,
    reason: Option<Reason>,
    table: seq<nat>,
    admitSeq: int,
    preempts: nat,
    cancelled: bool,
    sent: seq<(Token, bool)>)     // every call made to the sink: token, finished flag
  {
    function SeqLen(): nat {
      |prompt| + |output|
    }

    predicate Done() {
      reason.Some?
    }

    function Tokens(): seq<Token> {
      prompt + output
    }
  }

  /** Contiguous slots, or paged blocks with worst-case admission, or paged blocks with eviction. */
  datatype Backend = Slots | Reserve | Preempting

  datatype Cfg = Cfg(net: Net, backend: Backend, isStatic: bool, maxBatch: nat, units: nat, cap: nat) {
    ghost predicate Valid() {
      && maxBatch >= 1 && cap >= 1
      && (backend.Slots? ==> units >= 1 && cap == MAX_CONTEXT)
    }
  }

  datatype St = St(
    waiting: seq<Id>,
    running: seq<Id>,
    reqs: map<Id, Req>,
    nextAdmit: nat,
    free: seq<nat>,
    committed: map<Id, int>,
    pool: Pool,
    preemptions: nat)

  const NO_REQ := Req([], 0, false, 0, [], Finished, None, [], -1, 0, false, [])

  /** The request an id names. */
  function At(reqs: map<Id, Req>, id: Id): Req {
    if id in reqs then reqs[id] else NO_REQ
  }

  function Initial(cfg: Cfg, pool: Pool): St {
    St([], [], map[], 0, Reverse(Range(cfg.units)), map[], pool, 0)
  }

  // ------------------------------------------------------------------ lists of ids

  /** ids without those in `drop`, order kept. */
  function Without(ids: seq<Id>, drop: set<Id>): seq<Id> {
    if ids == [] then []
    else Without(Init(ids), drop) + if Last(ids) in drop then [] else [Last(ids)]
  }

  function CancelledOf(reqs: map<Id, Req>, ids: seq<Id>): set<Id> {
    set id | id in ids && At(reqs, id).cancelled
  }

  function DoneOf(reqs: map<Id, Req>, ids: seq<Id>): set<Id> {
    set id | id in ids && At(reqs, id).Done()
  }

  /** Sort keys: the waiting queue puts the most preempted first, then first come first served. */
  datatype Order = ByWait | ByAdmit

  predicate Less(order: Order, a: Req, b: Req) {
    match order
    case ByWait => a.preempts > b.preempts || (a.preempts == b.preempts && a.arrival < b.arrival)
    case ByAdmit => a.admitSeq < b.admitSeq
  }

  /** Inserts id behind every element whose key is not greater: equal keys keep their order. */
  function Insert(reqs: map<Id, Req>, order: Order, sorted: seq<Id>, id: Id): seq<Id> {
    if sorted == [] || !Less(order, At(reqs, id), At(reqs, Last(sorted))) then sorted + [id]
    else Insert(reqs, order, Init(sorted), id) + [Last(sorted)]
  }

  /** Stable sort. */
  function Sort(reqs: map<Id, Req>, order: Order, ids: seq<Id>): seq<Id> {
    if ids == [] then [] else Insert(reqs, order, Sort(reqs, order, Init(ids)), Last(ids))
  }

  // ------------------------------------------------------------------ allocator

  /** Units that a request with n stored tokens occupies. */
  function Need(cfg: Cfg, n: int): int
    requires cfg.Valid()
  {
    if cfg.backend.Slots? then 1 else UnitsFor(cfg.cap, n)
  }

  /** Units a request could ever come to need: prompt plus everything it may generate. */
  function Worst(cfg: Cfg, r: Req): int
    requires cfg.Valid()
  {
    UnitsFor(cfg.cap, |r.prompt| + r.maxNew)
  }

  predicate FitsEver(cfg: Cfg, promptLen: nat, maxNew: int)
    requires cfg.Valid()
  {
    if cfg.backend.Slots? then promptLen + maxNew <= cfg.cap
    else UnitsFor(cfg.cap, promptLen + maxNew) <= cfg.units
  }

  /** Sum of a map's values. */
  ghost function SumOf(m: map<Id, int>): int
  {
    if m == map[] then 0
    else
      var k :| k in m;
      m[k] + SumOf(m - {k})
  }

  ghost predicate CanAllocate(cfg: Cfg, s: St, id: Id, headroom: nat)
    requires cfg.Valid()
  {
    match cfg.backend
    case Slots => |s.free| > 0
    case Reserve => SumOf(s.committed) + Worst(cfg, At(s.reqs, id)) <= cfg.units
    case Preempting => |s.free| >= Need(cfg, At(s.reqs, id).SeqLen()) + headroom
  }

  /** The last k entries of the free list, in the order that k pops return them. */
  function Popped(free: seq<nat>, k: nat): seq<nat>
    requires k <= |free|
  {
    Reverse(free[|free| - k..])
  }

  function Allocate(cfg: Cfg, s: St, id: Id): Outcome<St>
    requires cfg.Valid()
  {
    var r := At(s.reqs, id);
    var need := Max(Need(cfg, r.SeqLen()), 0);
    if |s.free| < need then Raised(AllocateAssert)
    else Ok(s.(free := s.free[..|s.free| - need],
               reqs := s.reqs[id := r.(table := Popped(s.free, need))],
               committed := if cfg.backend.Slots? then s.committed else s.committed[id := Worst(cfg, r)]))
  }

  /** Grows the table to cover the token about to be fed; false when the free list runs dry first. */
  function AppendSlot(cfg: Cfg, s: St, id: Id): (St, bool)
    requires cfg.Valid()
  {
    var r := At(s.reqs, id);
    var want := Max(Need(cfg, r.SeqLen()) - |r.table|, 0);
    var got := Min(want, |s.free|);
    if cfg.backend.Slots? || want == 0 then (s, true)
    else (s.(free := s.free[..|s.free| - got],
             reqs := s.reqs[id := r.(table := r.table + Popped(s.free, got))]),
          got == want)
  }

  /** Returns a request's units so that they are handed out again in the same order. */
  function Free(s: St, id: Id): St {
    var r := At(s.reqs, id);
    s.(free := s.free + Reverse(r.table),
       reqs := s.reqs[id := r.(table := [])],
       committed := s.committed - {id})
  }

  // ------------------------------------------------------------------ intake

  function Submit(s: St, id: Id, r: Req): St {
    s.(waiting := s.waiting + [id],
       reqs := s.reqs[id := r.(maxNew := Min(r.maxNew, MAX_CONTEXT - |r.prompt|), phase := Waiting)])
  }

  /** A client disconnects: the flag is all that changes until the next retire. */
  function Cancel(s: St, id: Id): St {
    if id in s.reqs then s.(reqs := s.reqs[id := s.reqs[id].(cancelled := true)]) else s
  }

  predicate HasWork(s: St) {
    s.waiting != [] || s.running != []
  }

  // ------------------------------------------------------------------ retire

  function MarkCancelled(reqs: map<Id, Req>, ids: seq<Id>): map<Id, Req> {
    map id | id in reqs ::
      if id in ids && reqs[id].cancelled && !reqs[id].Done() then reqs[id].(reason := Some(Cancelled)) else reqs[id]
  }

  /** Frees the finished requests among ids, in order. */
  function Release(s: St, ids: seq<Id>): St {
    if ids == [] then s
    else
      var s' := Release(s, Init(ids));
      var id := Last(ids);
      if At(s.reqs, id).Done() then Free(s'.(reqs := s'.reqs[id := At(s'.reqs, id).(phase := Finished)]), id) else s'
  }

  function Retire(s: St): St {
    var s1 := s.(waiting := Without(s.waiting, CancelledOf(s.reqs, s.waiting)),
                 reqs := MarkCancelled(s.reqs, s.running));
    Release(s1, s1.running).(running := Without(s1.running, DoneOf(s1.reqs, s1.running)))
  }

  // ------------------------------------------------------------------ admit

  function Stamp(s: St, id: Id): St {
    s.(reqs := s.reqs[id := At(s.reqs, id).(admitSeq := s.nextAdmit)], nextAdmit := s.nextAdmit + 1)
  }

  /** Pops from the front while the head fits: the first request that does not fit stops admission. */
  ghost function PopLoop(cfg: Cfg, s: St, batch: seq<Id>, limit: nat): Outcome<(St, seq<Id>)>
    requires cfg.Valid()
    decreases |s.waiting|
  {
    if s.waiting != [] && |batch| < limit && CanAllocate(cfg, s, s.waiting[0], |s.running| + |batch|) then
      var s1 :- Allocate(cfg, s.(waiting := s.waiting[1..]), s.waiting[0]);
      PopLoop(cfg, Stamp(s1, s.waiting[0]), batch + [s.waiting[0]], limit)
    else Ok((s, batch))
  }

  ghost function PopAdmissible(cfg: Cfg, s: St, limit: nat): Outcome<(St, seq<Id>)>
    requires cfg.Valid()
  {
    PopLoop(cfg, s.(waiting := Sort(s.reqs, ByWait, s.waiting)), [], limit)
  }

  /** One token arrives: it is kept, may finish the request, and goes to the sink with the flag. */
  function Emit(r: Req, tok: Token): Req {
    var out := r.output + [tok];
    var reason :=
      if |out| >= r.maxNew then Some(Length)
      else if tok == EOS_TOKEN_ID && !r.ignoreEos then Some(Stop)
      else r.reason;
    r.(output := out, reason := reason, sent := r.sent + [(tok, reason.Some?)])
  }

  function EmitAll(reqs: map<Id, Req>, ids: seq<Id>, toks: seq<Token>): map<Id, Req>
    requires |ids| == |toks|
  {
    if ids == [] then reqs
    else
      var reqs' := EmitAll(reqs, Init(ids), Init(toks));
      reqs'[Last(ids) := Emit(At(reqs', Last(ids)), Last(toks))]
  }

  function Activate(reqs: map<Id, Req>, ids: seq<Id>): map<Id, Req> {
    map id | id in reqs :: if id in ids then reqs[id].(phase := Running) else reqs[id]
  }

  /** One forward step of the model for a batch of rows. */
  ghost function StepTokens(cfg: Cfg, pool: Pool, rows: seq<Row>): (r: Outcome<(Pool, seq<Token>)>)
    ensures r.Ok? ==> |r.value.1| == |rows|
  {
    if Fits(cfg.units, cfg.cap, rows) && PoolOk(cfg.net, cfg.units, cfg.cap, pool)
    then Ok(Run(cfg.net, cfg.units, cfg.cap, pool, rows))
    else Raised(BadIndex)
  }

  function PrefillRow(r: Req): Row {
    Row(r.table, 0, r.Tokens())
  }

  function PrefillRows(reqs: map<Id, Req>, ids: seq<Id>): (rows: seq<Row>)
    ensures |rows| == |ids|
  {
    seq(|ids|, i requires 0 <= i < |ids| => PrefillRow(At(reqs, ids[i])))
  }

  /** Prompt plus anything generated before an eviction, in one padded pass for the whole batch. */
  ghost function Prefill(cfg: Cfg, s: St, batch: seq<Id>): Outcome<St>
    requires cfg.Valid()
  {
    var (pool, toks) :- StepTokens(cfg, s.pool, PrefillRows(s.reqs, batch));
    Ok(s.(pool := pool, reqs := EmitAll(Activate(s.reqs, batch), batch, toks), running := s.running + batch))
  }

  /** Continuous batching prefills each admitted request on its own. */
  ghost function PrefillEach(cfg: Cfg, s: St, batch: seq<Id>): Outcome<St>
    requires cfg.Valid()
    decreases |batch|
  {
    if batch == [] then Ok(s)
    else
      var s' :- Prefill(cfg, s, batch[..1]);
      PrefillEach(cfg, s', batch[1..])
  }

  ghost function Admit(cfg: Cfg, s: St): Outcome<St>
    requires cfg.Valid()
  {
    if cfg.isStatic then
      if s.running != [] then Ok(s)
      else
        var (s', batch) :- PopAdmissible(cfg, s, cfg.maxBatch);
        if batch == [] then Ok(s') else Prefill(cfg, s', batch)
    else
      var (s', batch) :- PopAdmissible(cfg, s, Max(cfg.maxBatch - |s.running|, 0));
      PrefillEach(cfg, s', batch)
  }

  // ------------------------------------------------------------------ decode

  /** (preempt_count, -admit_seq): the least evicted, and among those the last admitted. */
  predicate Weaker(a: Req, b: Req) {
    a.preempts < b.preempts || (a.preempts == b.preempts && a.admitSeq > b.admitSeq)
  }

  /** Index of the first request with the smallest eviction key. */
  function VictimIndex(reqs: map<Id, Req>, active: seq<Id>): (v: nat)
    requires active != []
    ensures v < |active|
  {
    if |active| == 1 then 0
    else
      var v := VictimIndex(reqs, Init(active));
      if Weaker(At(reqs, Last(active)), At(reqs, active[v])) then |active| - 1 else v
  }

  /** Preempt and recompute: memory is given back, generated tokens are kept, the request queues again. */
  function Preempt(s: St, id: Id): St {
    var s' := Free(s, id);
    s'.(running := if id in s'.running then RemoveAt(s'.running, IndexOf(s'.running, id)) else s'.running,
        waiting := s'.waiting + [id],
        reqs := s'.reqs[id := At(s'.reqs, id).(phase := Waiting, preempts := At(s'.reqs, id).preempts + 1)],
        preemptions := s'.preemptions + 1)
  }

  /** The eviction loop: it edits the list it walks. */
  function EnsureLoop(cfg: Cfg, s: St, active: seq<Id>, i: nat): Outcome<(St, seq<Id>)>
    requires cfg.Valid() && i <= |active|
    decreases 2 * |active| - i
  {
    if i == |active| then Ok((s, active))
    else
      var (s', ok) := AppendSlot(cfg, s, active[i]);
      if ok then EnsureLoop(cfg, s', active, i + 1)
      else if !cfg.backend.Preempting? then Raised(OutOfBlocks)
      else
        var v := VictimIndex(s'.reqs, active);
        EnsureLoop(cfg, Preempt(s', active[v]), RemoveAt(active, v), if v < i then i - 1 else i)
  }

  function EnsureCapacity(cfg: Cfg, s: St, batch: seq<Id>): Outcome<(St, seq<Id>)>
    requires cfg.Valid()
  {
    EnsureLoop(cfg, s, Sort(s.reqs, ByAdmit, batch), 0)
  }

  /** The token fed is the last one produced; it sits at position seq_len - 1. */
  function DecodeRow(r: Req): Row
    requires r.output != []
  {
    Row(r.table, r.SeqLen() - 1, [Last(r.output)])
  }

  function DecodeRows(reqs: map<Id, Req>, ids: seq<Id>): (rows: seq<Row>)
    requires forall id :: id in ids ==> At(reqs, id).output != []
    ensures |rows| == |ids|
  {
    seq(|ids|, i requires 0 <= i < |ids| => DecodeRow(At(reqs, ids[i])))
  }

  ghost function DecodeBatch(cfg: Cfg, s: St, active: seq<Id>): Outcome<St>
    requires cfg.Valid()
  {
    if active == [] then Ok(s)
    else if exists id :: id in active && At(s.reqs, id).output == [] then Raised(BadIndex)
    else
      var (pool, toks) :- StepTokens(cfg, s.pool, DecodeRows(s.reqs, active));
      Ok(s.(pool := pool, reqs := EmitAll(s.reqs, active, toks)))
  }

  ghost function Decode(cfg: Cfg, s: St): Outcome<St>
    requires cfg.Valid()
  {
    var batch := Without(s.running, DoneOf(s.reqs, s.running));
    if batch == [] then Ok(s)
    else
      var (s', active) :- EnsureCapacity(cfg, s, batch);
      DecodeBatch(cfg, s', active)
  }

  /** One iteration of the loop. */
  ghost function Step(cfg: Cfg, s: St): Outcome<St>
    requires cfg.Valid()
  {
    var s' :- Admit(cfg, Retire(s));
    Decode(cfg, s')
  }
}
