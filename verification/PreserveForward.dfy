/** Prefill and decode keep the invariant: every row's cells stay those of its own tokens. */
module PreserveForward {
  import opened Prelude
  import opened Transformer
  import opened Storage
  import opened Forward
  import opened Scheduling
  import opened Lists
  import opened Invariant
  import opened PreserveQueues

  // ------------------------------------------------------------------ emitting

  lemma {:induction false} EmitAllFacts(reqs: map<Id, Req>, ids: seq<Id>, toks: seq<Token>)
    requires |ids| == |toks| && NoDup(ids) && forall id :: id in ids ==> id in reqs
    ensures var r := EmitAll(reqs, ids, toks);
      && (forall id :: id in r <==> id in reqs)
      && (forall id :: id !in ids ==> At(r, id) == At(reqs, id))
      && (forall i :: 0 <= i < |ids| ==> At(r, ids[i]) == Emit(At(reqs, ids[i]), toks[i]))
  {
    hide Emit;
    if ids != [] {
      Snoc(ids);
      NoDupSnoc(ids);
      assert Last(ids) in ids && forall id :: id in Init(ids) ==> id in ids;
      EmitAllFacts(reqs, Init(ids), Init(toks));
      var k := |ids| - 1;
      var mid, r := EmitAll(reqs, Init(ids), Init(toks)), EmitAll(reqs, ids, toks);
      assert r == mid[Last(ids) := Emit(At(mid, Last(ids)), Last(toks))];
      forall i | 0 <= i < |ids| ensures At(r, ids[i]) == Emit(At(reqs, ids[i]), toks[i]) {
        if i < k {
          assert ids[i] == Init(ids)[i] && ids[i] != ids[k];
        }
      }
    }
  }

  // ------------------------------------------------------------------ one forward step for some holders

  /** Row i serves request batch[i]: its table, and its last tokens, the earlier ones being stored. */
  ghost predicate RowFor(cfg: Cfg, pool: Pool, r: Req, row: Row) {
    && row.table == r.table && row.start < r.SeqLen() <= MAX_CONTEXT
    && row.toks == r.Tokens()[row.start..]
    && Covers(cfg.cap, r.table, r.SeqLen())
    && Holds(cfg.net, cfg.cap, pool, r.table, r.Tokens(), row.start)
  }

  ghost predicate BatchFor(cfg: Cfg, pool: Pool, reqs: map<Id, Req>, batch: seq<Id>, rows: seq<Row>) {
    batch != [] && |rows| == |batch|
    && forall i :: 0 <= i < |batch| ==> RowFor(cfg, pool, At(reqs, batch[i]), rows[i])
  }

  /** Holders' tables, as rows, can be served together. */
  lemma BatchFits(cfg: Cfg, free: seq<nat>, reqs: map<Id, Req>, hs: seq<Id>, pool: Pool, batch: seq<Id>, rows: seq<Row>)
    requires cfg.Valid() && MemOk(cfg, free, reqs, hs) && BatchFor(cfg, pool, reqs, batch, rows)
    requires NoDup(batch) && forall id :: id in batch ==> id in hs
    ensures Fits(cfg.units, cfg.cap, rows) && Apart(rows)
  {
    hide MemOk, Holds;
    forall i | 0 <= i < |rows| ensures RowFits(cfg.units, cfg.cap, rows[i]) && NoDup(rows[i].table) {
      assert RowFor(cfg, pool, At(reqs, batch[i]), rows[i]);
      assert batch[i] in batch;
      TableFacts(cfg, free, reqs, hs, IndexOf(hs, batch[i]));
    }
    var r0 := rows[0];
    assert RowFits(cfg.units, cfg.cap, r0);
    assert r0.table != [] by {
      CoversPositions(cfg.cap, r0.table, r0.Total(), 0);
    }
    assert r0.table[0] in r0.table;
    forall i, j | 0 <= i < |rows| && 0 <= j < |rows| && i != j ensures Separate(rows[i].table, rows[j].table) {
      assert RowFor(cfg, pool, At(reqs, batch[i]), rows[i]) && RowFor(cfg, pool, At(reqs, batch[j]), rows[j]);
      assert batch[i] in batch && batch[j] in batch && batch[i] != batch[j];
      TablesApart(cfg, free, reqs, hs, IndexOf(hs, batch[i]), IndexOf(hs, batch[j]));
    }
  }

  ghost function FullTokens(reqs: map<Id, Req>, batch: seq<Id>): seq<seq<Token>> {
    seq(|batch|, i requires 0 <= i < |batch| => At(reqs, batch[i]).Tokens())
  }

  lemma BatchReady(cfg: Cfg, pool: Pool, reqs: map<Id, Req>, batch: seq<Id>, rows: seq<Row>)
    requires BatchFor(cfg, pool, reqs, batch, rows)
    ensures Ready(cfg.net, cfg.cap, pool, rows, FullTokens(reqs, batch))
  {
    hide Holds;
    forall i | 0 <= i < |rows|
      ensures Feeds(rows[i], FullTokens(reqs, batch)[i])
      ensures Holds(cfg.net, cfg.cap, pool, rows[i].table, FullTokens(reqs, batch)[i], rows[i].start)
    {
      assert RowFor(cfg, pool, At(reqs, batch[i]), rows[i]);
    }
  }

  /** A request right after its row was served with tok, before the token is emitted. */
  ghost predicate ServedReq(cfg: Cfg, pool: Pool, r: Req, tok: Token) {
    r.Tokens() != [] && tok == NextToken(cfg.net, r.Tokens())
    && Holds(cfg.net, cfg.cap, pool, r.table, r.Tokens(), r.SeqLen())
  }

  /** One forward step for a batch of holders: it runs, and it serves every one of them. */
  lemma BatchRuns(cfg: Cfg, free: seq<nat>, reqs: map<Id, Req>, hs: seq<Id>, pool: Pool, batch: seq<Id>, rows: seq<Row>)
    requires cfg.Valid() && MemOk(cfg, free, reqs, hs) && BatchFor(cfg, pool, reqs, batch, rows)
    requires PoolOk(cfg.net, cfg.units, cfg.cap, pool)
    requires NoDup(batch) && forall id :: id in batch ==> id in hs
    ensures StepTokens(cfg, pool, rows).Ok?
    ensures var (pool', toks) := StepTokens(cfg, pool, rows).value;
      && PoolOk(cfg.net, cfg.units, cfg.cap, pool')
      && forall i :: 0 <= i < |batch| ==> ServedReq(cfg, pool', At(reqs, batch[i]), toks[i])
  {
    hide MemOk, PoolOk, Holds, Fits, Apart, Run, Ready, Covers;
    BatchFits(cfg, free, reqs, hs, pool, batch, rows);
    BatchReady(cfg, pool, reqs, batch, rows);
    RunRight(cfg.net, cfg.units, cfg.cap, pool, rows, FullTokens(reqs, batch));
    var (pool', toks) := StepTokens(cfg, pool, rows).value;
    forall i | 0 <= i < |batch| ensures ServedReq(cfg, pool', At(reqs, batch[i]), toks[i]) {
      assert Served(cfg.net, cfg.cap, pool', rows[i], FullTokens(reqs, batch)[i], toks[i]);
      assert RowFor(cfg, pool, At(reqs, batch[i]), rows[i]);
    }
  }

  /** A holder outside the batch keeps its cells. */
  lemma BatchKeepsOthers(cfg: Cfg, free: seq<nat>, reqs: map<Id, Req>, hs: seq<Id>, pool: Pool, batch: seq<Id>, rows: seq<Row>, id: Id, upto: nat)
    requires cfg.Valid() && MemOk(cfg, free, reqs, hs) && BatchFor(cfg, pool, reqs, batch, rows)
    requires PoolOk(cfg.net, cfg.units, cfg.cap, pool) && StepTokens(cfg, pool, rows).Ok?
    requires (forall x :: x in batch ==> x in hs) && id in hs && id !in batch
    requires Holds(cfg.net, cfg.cap, pool, At(reqs, id).table, At(reqs, id).Tokens(), upto)
    ensures Holds(cfg.net, cfg.cap, StepTokens(cfg, pool, rows).value.0, At(reqs, id).table, At(reqs, id).Tokens(), upto)
  {
    hide MemOk, PoolOk, Holds, Fits, Run, Covers;
    forall i | 0 <= i < |rows| ensures Separate(At(reqs, id).table, rows[i].table) {
      assert RowFor(cfg, pool, At(reqs, batch[i]), rows[i]);
      assert batch[i] in batch;
      TablesApart(cfg, free, reqs, hs, IndexOf(hs, id), IndexOf(hs, batch[i]));
    }
    RunKeepsOthers(cfg.net, cfg.units, cfg.cap, pool, rows, At(reqs, id).table, At(reqs, id).Tokens(), upto);
  }

  lemma HoldsExtends(net: Net, cap: nat, pool: Pool, table: seq<nat>, toks: seq<Token>, tok: Token, upto: nat)
    requires Holds(net, cap, pool, table, toks, upto)
    ensures Holds(net, cap, pool, table, toks + [tok], upto)
  {
    forall l | 0 <= l < net.layers ensures LayerHolds(net, cap, pool[l], l, table, toks + [tok], upto) {
      assert LayerHolds(net, cap, pool[l], l, table, toks, upto);
      forall p | 0 <= p < upto ensures CellAt(net, toks + [tok], l, p) == CellAt(net, toks, l, p) {
        CellsExtend(net, toks, [tok], l, p);
      }
    }
  }

  /** Emitting after being served: the request is running, on its reference, its cells in place. */
  lemma ServedThenEmitted(cfg: Cfg, pool: Pool, r: Req, tok: Token)
    requires cfg.Valid() && ReqOk(cfg, r) && r.reason == None && r.phase == Running
    requires r.preempts <= |r.output| && |r.table| == Need(cfg, r.SeqLen()) && ServedReq(cfg, pool, r, tok)
    ensures ReqOk(cfg, Emit(r, tok)) && RunningOk(cfg, pool, Emit(r, tok), false)
  {
    hide Need, Holds;
    EmitOk(cfg, r, tok);
    var r' := Emit(r, tok);
    HoldsExtends(cfg.net, cfg.cap, pool, r.table, r.Tokens(), tok, r.SeqLen());
    assert r'.Tokens() == r.Tokens() + [tok];
    assert r'.SeqLen() - 1 == r.SeqLen();
  }

  // ------------------------------------------------------------------ prefill

  lemma PrefillRowFor(cfg: Cfg, pool: Pool, r: Req)
    requires cfg.Valid() && ReqOk(cfg, r) && PoppedOk(cfg, r) && |pool| == cfg.net.layers
    ensures RowFor(cfg, pool, r, PrefillRow(r))
  {
    assert r.SeqLen() <= MAX_CONTEXT;
    NeedCovers(cfg, r.table, r.SeqLen());
    assert r.Tokens()[0..] == r.Tokens();
  }

  /** t is s after one forward step served `batch` through `rows`, starting from `reqs`. */
  ghost predicate SteppedFrom(cfg: Cfg, s: St, t: St, reqs: map<Id, Req>, batch: seq<Id>, rows: seq<Row>, running: seq<Id>)
  {
    && |rows| == |batch| && StepTokens(cfg, s.pool, rows).Ok?
    && var (pool', toks) := StepTokens(cfg, s.pool, rows).value;
    && t == s.(pool := pool', reqs := t.reqs, running := running)
    && (forall id :: id in t.reqs <==> id in s.reqs)
    && (forall id :: id !in batch ==> At(t.reqs, id) == At(s.reqs, id))
    && (forall i :: 0 <= i < |batch| ==> At(t.reqs, batch[i]) == Emit(At(reqs, batch[i]), toks[i]))
  }

  /** The requests of the batch are taken in, the others are as they were. */
  ghost predicate SteppedRoles(cfg: Cfg, s: St, t: St, batch: seq<Id>)
    requires cfg.Valid()
  {
    && (forall id :: id in batch ==> ReqOk(cfg, At(t.reqs, id)) && RunningOk(cfg, t.pool, At(t.reqs, id), false))
    && (forall id :: id in batch ==> Kept(At(s.reqs, id), At(t.reqs, id)))
  }

  /** What a forward step never changes about a request. */
  ghost predicate Kept(r: Req, r': Req) {
    r'.table == r.table && r'.admitSeq == r.admitSeq && r'.prompt == r.prompt && r'.maxNew == r.maxNew
    && r'.ignoreEos == r.ignoreEos && r'.preempts == r.preempts && r'.arrival == r.arrival
    && r'.cancelled == r.cancelled && |r'.output| == |r.output| + 1 && r.output <= r'.output
  }

  /** What Activate and EmitAll leave behind, request by request. */
  lemma SteppedShape(cfg: Cfg, s: St, reqs: map<Id, Req>, batch: seq<Id>, rows: seq<Row>, running: seq<Id>)
    requires |rows| == |batch| && StepTokens(cfg, s.pool, rows).Ok? && NoDup(batch)
    requires (forall id :: id in reqs <==> id in s.reqs) && (forall id :: id in batch ==> id in reqs)
    requires forall id :: id !in batch ==> At(reqs, id) == At(s.reqs, id)
    ensures var (pool', toks) := StepTokens(cfg, s.pool, rows).value;
      SteppedFrom(cfg, s, s.(pool := pool', reqs := EmitAll(reqs, batch, toks), running := running), reqs, batch, rows, running)
  {
    hide StepTokens, Emit, EmitAll, NoDup;
    var (pool', toks) := StepTokens(cfg, s.pool, rows).value;
    EmitAllFacts(reqs, batch, toks);
  }

  lemma ActivateShape(reqs: map<Id, Req>, batch: seq<Id>)
    ensures forall id :: id in Activate(reqs, batch) <==> id in reqs
    ensures forall id :: id !in batch ==> At(Activate(reqs, batch), id) == At(reqs, id)
    ensures forall id :: id in batch && id in reqs ==> At(Activate(reqs, batch), id) == At(reqs, id).(phase := Running)
  {
  }

  lemma PrefillBatchFor(cfg: Cfg, s: St, batch: seq<Id>, rest: seq<Id>)
    requires Core(cfg, s, batch + rest, {}) && batch != []
    ensures BatchFor(cfg, s.pool, s.reqs, batch, PrefillRows(s.reqs, batch))
    ensures forall id :: id in batch ==> id in s.reqs && ReqOk(cfg, At(s.reqs, id)) && PoppedOk(cfg, At(s.reqs, id))
  {
    hide ReqsOk, WaitersOk, RunnersOk, OthersOk, MemOk, CommitOk, AdmitOrder, ListsOk, ReqOk, RunningOk, RowFor, Need;
    ListFacts(s, batch + rest);
    forall id | id in batch ensures id in s.reqs && ReqOk(cfg, At(s.reqs, id)) && PoppedOk(cfg, At(s.reqs, id)) {
      assert id in batch + rest;
      ReqAt(cfg, s.reqs, id);
    }
    forall i | 0 <= i < |batch| ensures RowFor(cfg, s.pool, At(s.reqs, batch[i]), PrefillRows(s.reqs, batch)[i]) {
      assert batch[i] in batch;
      PrefillRowFor(cfg, s.pool, At(s.reqs, batch[i]));
    }
  }

  lemma PrefillServes(cfg: Cfg, s: St, batch: seq<Id>, rest: seq<Id>)
    requires Core(cfg, s, batch + rest, {}) && batch != []
    ensures Prefill(cfg, s, batch).Ok?
    ensures var t := Prefill(cfg, s, batch).value;
      && SteppedFrom(cfg, s, t, Activate(s.reqs, batch), batch, PrefillRows(s.reqs, batch), s.running + batch)
      && SteppedRoles(cfg, s, t, batch)
      && BatchFor(cfg, s.pool, s.reqs, batch, PrefillRows(s.reqs, batch))
      && PoolOk(cfg.net, cfg.units, cfg.cap, t.pool)
  {
    hide ReqsOk, WaitersOk, RunnersOk, PoppedsOk, OthersOk, MemOk, CommitOk, AdmitOrder, ListsOk, StepTokens, ReqOk, RunningOk, ServedReq, BatchFor, Emit, EmitAll, Activate, PoppedOk, PoolOk, NoDup, Kept;
    ListFacts(s, batch + rest);
    var hs, rows := Holders(s, batch + rest), PrefillRows(s.reqs, batch);
    PrefixNoDup(batch, rest);
    PrefillBatchFor(cfg, s, batch, rest);
    assert forall id :: id in batch ==> id in batch + rest;
    BatchRuns(cfg, s.free, s.reqs, hs, s.pool, batch, rows);
    ActivateShape(s.reqs, batch);
    SteppedShape(cfg, s, Activate(s.reqs, batch), batch, rows, s.running + batch);
    var (pool', toks) := StepTokens(cfg, s.pool, rows).value;
    var t := Prefill(cfg, s, batch).value;
    forall i | 0 <= i < |batch|
      ensures ReqOk(cfg, At(t.reqs, batch[i])) && RunningOk(cfg, t.pool, At(t.reqs, batch[i]), false)
      ensures Kept(At(s.reqs, batch[i]), At(t.reqs, batch[i]))
    {
      assert batch[i] in batch;
      PrefilledOk(cfg, pool', At(s.reqs, batch[i]), toks[i]);
    }
  }

  lemma ReqAt(cfg: Cfg, reqs: map<Id, Req>, id: Id)
    requires cfg.Valid() && ReqsOk(cfg, reqs) && id in reqs
    ensures ReqOk(cfg, At(reqs, id))
  {
  }

  lemma PrefixNoDup(a: seq<Id>, b: seq<Id>)
    requires NoDup(a + b)
    ensures NoDup(a) && NoDup(b) && Separate(a, b)
  {
    forall i, j | 0 <= i < j < |a| ensures a[i] != a[j] {
      assert (a + b)[i] != (a + b)[j];
    }
    forall i, j | 0 <= i < j < |b| ensures b[i] != b[j] {
      assert (a + b)[|a| + i] != (a + b)[|a| + j];
    }
    forall x | x in a ensures x !in b {
      var i := IndexOf(a, x);
      forall j | 0 <= j < |b| ensures b[j] != x {
        assert (a + b)[i] != (a + b)[|a| + j];
      }
    }
  }

  lemma PrefilledOk(cfg: Cfg, pool: Pool, r: Req, tok: Token)
    requires cfg.Valid() && ReqOk(cfg, r) && PoppedOk(cfg, r) && ServedReq(cfg, pool, r, tok)
    ensures var r' := Emit(r.(phase := Running), tok);
      ReqOk(cfg, r') && RunningOk(cfg, pool, r', false) && Kept(r, r')
  {
    var r1 := r.(phase := Running);
    assert ReqOk(cfg, r1) && ServedReq(cfg, pool, r1, tok);
    ServedThenEmitted(cfg, pool, r1, tok);
  }

  // ------------------------------------------------------------------ the state after a forward step

  /** Everything about the forward step from s to t that the invariant needs. */
  ghost predicate StepFacts(cfg: Cfg, s: St, t: St, reqs: map<Id, Req>, batch: seq<Id>, rows: seq<Row>, running: seq<Id>)
    requires cfg.Valid()
  {
    && SteppedFrom(cfg, s, t, reqs, batch, rows, running)
    && SteppedRoles(cfg, s, t, batch)
    && BatchFor(cfg, s.pool, s.reqs, batch, rows)
    && PoolOk(cfg.net, cfg.units, cfg.cap, t.pool)
  }

  lemma SteppedRequests(cfg: Cfg, s: St, t: St, reqs: map<Id, Req>, batch: seq<Id>, rows: seq<Row>, running: seq<Id>)
    requires cfg.Valid() && ReqsOk(cfg, s.reqs) && StepFacts(cfg, s, t, reqs, batch, rows, running)
    ensures ReqsOk(cfg, t.reqs)
  {
    hide ReqOk, RunningOk, StepTokens, PoolOk, BatchFor, Emit;
  }

  lemma SteppedRunners(cfg: Cfg, s: St, t: St, reqs: map<Id, Req>, batch: seq<Id>, rows: seq<Row>, running: seq<Id>, hs: seq<Id>, grown: set<Id>)
    requires cfg.Valid() && StepFacts(cfg, s, t, reqs, batch, rows, running) && RunnersOk(cfg, s, grown)
    requires MemOk(cfg, s.free, s.reqs, hs) && PoolOk(cfg.net, cfg.units, cfg.cap, s.pool)
    requires forall id :: id in s.running || id in batch ==> id in hs
    requires forall id :: id in running && id !in batch ==> id in s.running && id !in grown
    ensures RunnersOk(cfg, t, {})
  {
    hide ReqOk, StepTokens, PoolOk, BatchFor, Emit, Holds, MemOk, Need;
    forall id | id in t.running ensures RunningOk(cfg, t.pool, At(t.reqs, id), false) {
      if id !in batch {
        assert RunningOk(cfg, s.pool, At(s.reqs, id), false);
        BatchKeepsOthers(cfg, s.free, s.reqs, hs, s.pool, batch, rows, id, At(s.reqs, id).SeqLen() - 1);
      }
    }
  }

  lemma SteppedOthers(cfg: Cfg, s: St, t: St, reqs: map<Id, Req>, batch: seq<Id>, rows: seq<Row>, running: seq<Id>, popped: seq<Id>, popped': seq<Id>)
    requires cfg.Valid() && StepFacts(cfg, s, t, reqs, batch, rows, running)
    requires ListsOk(s, popped) && WaitersOk(s) && PoppedsOk(cfg, s, popped) && OthersOk(s, popped)
    requires Holders(s, popped) == running + popped'
    requires forall id :: id in batch ==> id in running
    requires forall id :: id in popped' ==> id in popped && id !in batch
    ensures WaitersOk(t) && PoppedsOk(cfg, t, popped') && OthersOk(t, popped')
  {
    hide ReqOk, RunningOk, StepTokens, PoolOk, BatchFor, Emit, PoppedOk, WaitingOk, GoneOk, ListsOk;
    ListFacts(s, popped);
    forall id ensures id in Holders(s, popped) <==> id in running || id in popped' {
      assert id in running + popped' <==> id in running || id in popped';
    }
  }

  lemma SteppedLists(cfg: Cfg, s: St, t: St, reqs: map<Id, Req>, batch: seq<Id>, rows: seq<Row>, running: seq<Id>, popped: seq<Id>, popped': seq<Id>)
    requires cfg.Valid() && StepFacts(cfg, s, t, reqs, batch, rows, running)
    requires ListsOk(s, popped) && Holders(s, popped) == running + popped'
    ensures ListsOk(t, popped')
  {
    hide ReqOk, RunningOk, StepTokens, PoolOk, BatchFor, Emit;
    assert Queued(t, popped') == Queued(s, popped);
    forall x: Id ensures Queued(t, popped')[x] <= 1 && (Queued(t, popped')[x] > 0 ==> x in t.reqs) {
      assert Queued(s, popped)[x] <= 1 && (Queued(s, popped)[x] > 0 ==> x in s.reqs);
    }
  }

  lemma SteppedKept(cfg: Cfg, s: St, t: St, reqs: map<Id, Req>, batch: seq<Id>, rows: seq<Row>, running: seq<Id>, id: Id)
    requires cfg.Valid() && StepFacts(cfg, s, t, reqs, batch, rows, running)
    ensures At(t.reqs, id) == At(s.reqs, id) || Kept(At(s.reqs, id), At(t.reqs, id))
    ensures t == s.(pool := t.pool, reqs := t.reqs, running := running)
  {
    hide ReqOk, RunningOk, StepTokens, PoolOk, BatchFor, Emit;
  }

  /** A forward step for a batch of holders keeps the invariant. */
  lemma SteppedCore(cfg: Cfg, s: St, t: St, reqs: map<Id, Req>, batch: seq<Id>, rows: seq<Row>, running: seq<Id>, popped: seq<Id>, grown: set<Id>, popped': seq<Id>)
    requires Core(cfg, s, popped, grown) && StepFacts(cfg, s, t, reqs, batch, rows, running)
    requires Holders(s, popped) == running + popped'
    requires forall id :: id in batch ==> id in running
    requires forall id :: id in popped' ==> id in popped && id !in batch
    requires forall id :: id in running && id !in batch ==> id in s.running && id !in grown
    ensures Core(cfg, t, popped', {})
  {
    hide ReqsOk, WaitersOk, RunnersOk, PoppedsOk, OthersOk, MemOk, CommitOk, AdmitOrder, ListsOk, SteppedFrom, SteppedRoles, BatchFor;
    var hs := Holders(s, popped);
    ListFacts(s, popped);
    forall id | id in batch ensures id in hs {
      assert id in running + popped';
    }
    SteppedLists(cfg, s, t, reqs, batch, rows, running, popped, popped');
    SteppedRequests(cfg, s, t, reqs, batch, rows, running);
    SteppedRunners(cfg, s, t, reqs, batch, rows, running, hs, grown);
    SteppedOthers(cfg, s, t, reqs, batch, rows, running, popped, popped');
    forall id ensures At(t.reqs, id) == At(s.reqs, id) || Kept(At(s.reqs, id), At(t.reqs, id)) {
      SteppedKept(cfg, s, t, reqs, batch, rows, running, id);
    }
    SteppedKept(cfg, s, t, reqs, batch, rows, running, 0);
    assert Holders(t, popped') == hs;
    OrderFrame(s.reqs, t.reqs, hs, s.nextAdmit);
    MemFrame(cfg, s.free, s.reqs, t.reqs, hs);
    CommitFrame(cfg, s.committed, s.reqs, t.reqs, hs);
  }

  /** Prefilling the first of the admitted requests keeps the invariant and never raises. */
  lemma PrefillKeepsCore(cfg: Cfg, s: St, batch: seq<Id>, rest: seq<Id>)
    requires Core(cfg, s, batch + rest, {}) && batch != []
    ensures Prefill(cfg, s, batch).Ok?
    ensures var t := Prefill(cfg, s, batch).value;
      Core(cfg, t, rest, {})
      && StepFacts(cfg, s, t, Activate(s.reqs, batch), batch, PrefillRows(s.reqs, batch), s.running + batch)
  {
    hide ReqsOk, WaitersOk, RunnersOk, PoppedsOk, OthersOk, MemOk, CommitOk, AdmitOrder, ListsOk, SteppedFrom, SteppedRoles, BatchFor, PoolOk, Prefill;
    PrefillServes(cfg, s, batch, rest);
    ListFacts(s, batch + rest);
    PrefixNoDup(batch, rest);
    var t := Prefill(cfg, s, batch).value;
    assert Holders(s, batch + rest) == (s.running + batch) + rest;
    SteppedCore(cfg, s, t, Activate(s.reqs, batch), batch, PrefillRows(s.reqs, batch), s.running + batch, batch + rest, {}, rest);
  }

  // ------------------------------------------------------------------ decode

  /** The decode batch: running, unfinished, and with room for the token about to be fed. */
  ghost predicate DecodeReady(cfg: Cfg, s: St, active: seq<Id>) {
    && active != [] && NoDup(active)
    && (forall id :: id in active ==> id in s.running && !At(s.reqs, id).Done())
    && Core(cfg, s, [], set id | id in active)
  }

  lemma DecodeRowFor(cfg: Cfg, pool: Pool, r: Req)
    requires cfg.Valid() && ReqOk(cfg, r) && RunningOk(cfg, pool, r, true) && r.reason == None
    ensures r.output != [] && RowFor(cfg, pool, r, DecodeRow(r))
  {
    hide Holds;
    assert r.SeqLen() <= MAX_CONTEXT;
    NeedCovers(cfg, r.table, r.SeqLen());
    assert r.Tokens()[r.SeqLen() - 1..] == [Last(r.output)];
  }

  lemma DecodedOk(cfg: Cfg, pool: Pool, pool': Pool, r: Req, tok: Token)
    requires cfg.Valid() && ReqOk(cfg, r) && RunningOk(cfg, pool, r, true) && r.reason == None && ServedReq(cfg, pool', r, tok)
    ensures var r' := Emit(r, tok);
      ReqOk(cfg, r') && RunningOk(cfg, pool', r', false) && Kept(r, r')
  {
    ServedThenEmitted(cfg, pool', r, tok);
  }

  lemma ActiveFacts(cfg: Cfg, s: St, active: seq<Id>, id: Id)
    requires DecodeReady(cfg, s, active) && id in active
    ensures id in s.reqs && ReqOk(cfg, At(s.reqs, id)) && RunningOk(cfg, s.pool, At(s.reqs, id), true)
    ensures At(s.reqs, id).reason == None && At(s.reqs, id).output != []
  {
    hide MemOk, CommitOk, AdmitOrder, PoolOk, ListsOk, ReqOk, Holds, Need;
    ListFacts(s, []);
    assert RunningOk(cfg, s.pool, At(s.reqs, id), id in (set x | x in active));
  }

  lemma DecodeBatchFor(cfg: Cfg, s: St, active: seq<Id>)
    requires DecodeReady(cfg, s, active)
    ensures cfg.Valid() && forall id :: id in active ==> At(s.reqs, id).output != []
    ensures BatchFor(cfg, s.pool, s.reqs, active, DecodeRows(s.reqs, active))
  {
    hide ReqsOk, WaitersOk, RunnersOk, PoppedsOk, OthersOk, MemOk, CommitOk, AdmitOrder, ListsOk, ReqOk, RunningOk, RowFor, Need, PoolOk;
    forall id | id in active ensures At(s.reqs, id).output != [] {
      ActiveFacts(cfg, s, active, id);
    }
    forall i | 0 <= i < |active| ensures RowFor(cfg, s.pool, At(s.reqs, active[i]), DecodeRows(s.reqs, active)[i]) {
      assert active[i] in active;
      ActiveFacts(cfg, s, active, active[i]);
      DecodeRowFor(cfg, s.pool, At(s.reqs, active[i]));
    }
  }

  /** One batched decode step keeps the invariant and never raises. */
  lemma DecodeBatchKeepsInv(cfg: Cfg, s: St, active: seq<Id>)
    requires DecodeReady(cfg, s, active)
    requires forall id :: id in s.running && id !in active ==> At(s.reqs, id).Done()
    ensures forall id :: id in active ==> At(s.reqs, id).output != []
    ensures DecodeBatch(cfg, s, active).Ok?
    ensures var t := DecodeBatch(cfg, s, active).value;
      Inv(cfg, t) && StepFacts(cfg, s, t, s.reqs, active, DecodeRows(s.reqs, active), s.running)
  {
    hide SteppedFrom, SteppedRoles, BatchFor, DecodeBatch, PoolOk, StepTokens;
    DecodeBatchFor(cfg, s, active);
    DecodeServes(cfg, s, active);
    assert Holders(s, []) == s.running && s.running + [] == s.running;
    var t := DecodeBatch(cfg, s, active).value;
    SteppedCore(cfg, s, t, s.reqs, active, DecodeRows(s.reqs, active), s.running, [], set id | id in active, []);
  }

  lemma DecodeServes(cfg: Cfg, s: St, active: seq<Id>)
    requires DecodeReady(cfg, s, active) && BatchFor(cfg, s.pool, s.reqs, active, DecodeRows(s.reqs, active))
    requires forall id :: id in active ==> At(s.reqs, id).output != []
    ensures DecodeBatch(cfg, s, active).Ok?
    ensures var t := DecodeBatch(cfg, s, active).value;
      && SteppedFrom(cfg, s, t, s.reqs, active, DecodeRows(s.reqs, active), s.running)
      && SteppedRoles(cfg, s, t, active)
      && PoolOk(cfg.net, cfg.units, cfg.cap, t.pool)
  {
    hide ReqsOk, WaitersOk, RunnersOk, PoppedsOk, OthersOk, MemOk, CommitOk, AdmitOrder, ListsOk, StepTokens, ReqOk, RunningOk, ServedReq, BatchFor, Emit, EmitAll, PoolOk, NoDup, Kept;
    ListFacts(s, []);
    var rows := DecodeRows(s.reqs, active);
    BatchRuns(cfg, s.free, s.reqs, Holders(s, []), s.pool, active, rows);
    SteppedShape(cfg, s, s.reqs, active, rows, s.running);
    var (pool', toks) := StepTokens(cfg, s.pool, rows).value;
    var t := DecodeBatch(cfg, s, active).value;
    forall i | 0 <= i < |active|
      ensures ReqOk(cfg, At(t.reqs, active[i])) && RunningOk(cfg, t.pool, At(t.reqs, active[i]), false)
      ensures Kept(At(s.reqs, active[i]), At(t.reqs, active[i]))
    {
      assert active[i] in active;
      ActiveFacts(cfg, s, active, active[i]);
      DecodedOk(cfg, s.pool, pool', At(s.reqs, active[i]), toks[i]);
    }
  }
}
