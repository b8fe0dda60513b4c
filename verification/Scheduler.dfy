/**
 The scheduler object: queues of requests that are mutated in place, an allocator and a pool.

 Every method leaves the object in exactly the state that the function of the same name in module
 Scheduling gives; nothing the code can raise is ever raised.
 */
module Scheduler {
  import opened Prelude
  import opened Transformer
  import opened Storage
  import Forward
  import opened Scheduling
  import opened Lists
  import opened Invariant
  import opened PreserveQueues
  import opened PreserveForward
  import opened EvictionLoop
  import opened Steps
  import Runs
  import opened Requests
  import opened Registry
  import opened Managers
  import opened Caches
  import opened Runner

  /** The allocator behind the scheduler. */
  datatype KvManager = Blocks(blocks: BlockManager) | Slotted(slots: SlotManager) {
    function Obj(): object {
      if Blocks? then blocks else slots
    }

    function FreeList(): seq<nat>
      reads Obj()
    {
      if Blocks? then blocks.freeBlocks else slots.freeSlots
    }

    function Committed(): map<Id, int>
      reads Obj()
    {
      if Blocks? then blocks.committed else map[]
    }

    /** The allocator's answer to the front door: could such a request finish with the whole pool to itself? */
    predicate FitsEver(promptLen: nat, maxNew: int)
      requires Blocks? ==> blocks.blockSize > 0
    {
      match this
      case Blocks(b) => b.FitsEver(promptLen, maxNew)
      case Slotted(s) => s.FitsEver(promptLen, maxNew)
    }

    /** Built for this configuration. */
    ghost predicate Serves(cfg: Cfg) {
      match this
      case Blocks(b) =>
        !cfg.backend.Slots? && b.numBlocks == cfg.units && b.blockSize == cfg.cap && (b.reserveMaxNew <==> cfg.backend.Reserve?)
      case Slotted(s) => cfg.backend.Slots? && s.nSlots == cfg.units && s.maxLen == cfg.cap
    }
  }

  class Scheduler {
    const cfg: Cfg
    const runner: ModelRunner
    const pool: KvPool
    const manager: KvManager
    var waiting: seq<Request>
    var running: seq<Request>
    var admitCounter: nat
    var preemptions: nat
    ghost var all: map<Id, Request>      // every request ever submitted

    ghost predicate Valid()
      reads this
    {
      && cfg.Valid() && runner.net == cfg.net && manager.Serves(cfg)
      && pool.Valid(cfg.net.layers) && pool.Units() == cfg.units && pool.Cap() == cfg.cap
      && (pool.Contiguous? <==> cfg.backend.Slots?)
      && Filed(all) && Listed(all, waiting) && Listed(all, running)
    }

    ghost function Reqs(): map<Id, Req>
      reads this, all.Values
    {
      ReqMap(all)
    }

    ghost function View(): St
      reads this, all.Values, manager.Obj(), pool.Tensors()
    {
      St(Ids(waiting), Ids(running), Reqs(), admitCounter, manager.FreeList(), manager.Committed(), pool.View(), preemptions)
    }

    constructor (cfg: Cfg, runner: ModelRunner, pool: KvPool, manager: KvManager)
      requires cfg.Valid() && runner.net == cfg.net && manager.Serves(cfg)
      requires pool.Valid(cfg.net.layers) && pool.Units() == cfg.units && pool.Cap() == cfg.cap
      requires pool.Contiguous? <==> cfg.backend.Slots?
      requires manager.FreeList() == Reverse(Range(cfg.units)) && manager.Committed() == map[]
      ensures Valid() && all == map[] && View() == Initial(cfg, old(pool.View()))
      ensures this.cfg == cfg && this.runner == runner && this.pool == pool && this.manager == manager
      ensures Inv(cfg, View())
    {
      this.cfg, this.runner, this.pool, this.manager := cfg, runner, pool, manager;
      waiting, running, admitCounter, preemptions, all := [], [], 0, 0, map[];
      new;
      assert View().reqs == map[];
      ShapedPool(cfg.net, cfg.units, cfg.cap, pool.Tensors());
      Runs.InitialInv(cfg, pool.View());
    }

    /** What the view shows. */
    lemma ViewParts()
      ensures View().free == manager.FreeList() && View().committed == manager.Committed() && View().reqs == Reqs()
      ensures View().waiting == Ids(waiting) && View().running == Ids(running)
      ensures View().nextAdmit == admitCounter && View().preemptions == preemptions && View().pool == pool.View()
      ensures Reqs() == ReqMap(all)
    {
    }

    /** What validity says about the lists. */
    lemma ValidLists()
      requires Valid()
      ensures cfg.Valid() && Filed(all) && Listed(all, waiting) && Listed(all, running)
    {
    }

    /** New lists of known requests keep the object valid. */
    twostate lemma ListsReplaced()
      requires old(Valid()) && all == old(all) && Listed(all, waiting) && Listed(all, running)
      ensures Valid()
    {
    }

    lemma Built()
      requires Valid()
      ensures manager.Serves(cfg)
    {
    }

    /** Two views with the same parts are the same. */
    lemma ViewFrom(s: St)
      requires s.waiting == Ids(waiting) && s.running == Ids(running) && s.reqs == ReqMap(all)
      requires s.nextAdmit == admitCounter && s.preemptions == preemptions
      requires s.free == manager.FreeList() && s.committed == manager.Committed() && s.pool == pool.View()
      ensures View() == s
    {
    }

    twostate lemma NewlyValid(req: Request)
      requires old(Valid()) && all == old(all)[req.id := req] && Listed(all, waiting) && Listed(all, running)
      ensures Valid()
    {
    }

    // ---------------------------------------------------------------- the allocator's interface

    method CanAllocate(req: Request, headroom: nat) returns (ok: bool)
      requires Valid() && Known(all, req)
      ensures ok <==> Scheduling.CanAllocate(cfg, View(), req.id, headroom)
    {
      AtKnown(all, req);
      match manager
      case Blocks(b) => ok := b.CanAllocate(req, headroom);
      case Slotted(s) => ok := s.CanAllocate(req, headroom);
    }

    /** Changing one request changes one entry. */
    twostate lemma OneChanged(req: Request)
      requires all == old(all) && Filed(all) && Known(all, req)
      requires forall id :: id in all && id != req.id ==> unchanged(all[id])
      ensures ReqMap(all) == old(ReqMap(all))[req.id := req.View()]
    {
    }

    /** Filing a new request adds one entry. */
    twostate lemma NewEntry(req: Request)
      requires all == old(all) && Filed(all) && req.id !in all && forall id :: id in all ==> unchanged(all[id])
      ensures ReqMap(all[req.id := req]) == old(ReqMap(all))[req.id := req.View()]
    {
    }

    /** Only the allocator and one request changed. */
    twostate lemma MemoryMoved(req: Request)
      requires old(Valid()) && Known(all, req) && unchanged(this) && unchanged(pool.Tensors())
      requires forall id :: id in all && id != req.id ==> unchanged(all[id])
      ensures View() == old(View()).(free := manager.FreeList(), committed := manager.Committed(),
                                     reqs := old(Reqs())[req.id := req.View()])
      ensures At(old(Reqs()), req.id) == old(req.View())
    {
      OneChanged(req);
      PoolKept();
      ViewFrom(old(View()).(free := manager.FreeList(), committed := manager.Committed(),
                            reqs := old(Reqs())[req.id := req.View()]));
    }

    method Allocate(req: Request)
      requires Valid() && Known(all, req) && Scheduling.Allocate(cfg, View(), req.id).Ok?
      modifies manager.Obj(), req`table
      ensures View() == Scheduling.Allocate(cfg, old(View()), req.id).value
    {
      hide View, Reqs, Valid, ReqMap;
      ViewParts();
      ValidLists();
      Built();
      UnitsForMonotone(cfg.cap, 0, req.SeqLen());
      AtKnown(all, req);
      match manager {
        case Blocks(b) =>
          var r := b.Allocate(req);
          if r.Raised? {
            assert false;
          }
        case Slotted(s) =>
          s.Allocate(req);
          PopOne(old(s.freeSlots));
      }
      MemoryMoved(req);
    }

    method AppendSlot(req: Request) returns (ok: bool)
      requires Valid() && Known(all, req)
      modifies manager.Obj(), req`table
      ensures (View(), ok) == Scheduling.AppendSlot(cfg, old(View()), req.id)
    {
      hide View, Reqs, Valid, UnitsFor, Popped;
      ViewParts();
      ValidLists();
      Built();
      AtKnown(all, req);
      match manager {
        case Blocks(b) => ok := b.AppendSlot(req);
        case Slotted(s) => ok := s.AppendSlot(req);
      }
      MemoryMoved(req);
      SameEntry(old(Reqs()), req.id);
      PopNone(old(manager.FreeList()), old(req.table));
    }

    method Free(req: Request)
      requires Valid() && Known(all, req) && (cfg.backend.Slots? ==> |req.table| == 1)
      modifies manager.Obj(), req`table
      ensures View() == Scheduling.Free(old(View()), req.id)
    {
      hide View, Reqs, Valid;
      ViewParts();
      ValidLists();
      Built();
      AtKnown(all, req);
      match manager {
        case Blocks(b) => b.Free(req);
        case Slotted(s) => s.Free(req);
      }
      MemoryMoved(req);
    }

    twostate lemma PoolKept()
      requires unchanged(pool.Tensors())
      ensures pool.View() == old(pool.View())
    {
      forall l | 0 <= l < |pool.Tensors()| ensures pool.View()[l] == old(pool.View())[l] {
        assert unchanged(pool.Tensors()[l]);
      }
    }

    // ---------------------------------------------------------------- intake

    method Submit(req: Request)
      requires Valid() && req.id !in all
      modifies this, req
      ensures Valid() && all == old(all)[req.id := req]
      ensures View() == Scheduling.Submit(old(View()), req.id, old(req.View()))
    {
      hide View, Valid, Reqs, Listed, ReqMap;
      ValidLists();
      ViewParts();
      ghost var want := Scheduling.Submit(View(), req.id, req.View());
      TakeIn(req);
      NewEntry(req);
      all := all[req.id := req];
      waiting := waiting + [req];
      IdsConcat(old(waiting), [req]);
      NewListed(old(all), old(waiting), old(running), req);
      NewlyValid(req);
      PoolKept();
      ViewFrom(want);
    }

    method TakeIn(req: Request)
      modifies req`maxNew, req`phase
      ensures req.View() == old(req.View()).(maxNew := Min(old(req.maxNew), MAX_CONTEXT - |req.prompt|), phase := Waiting)
    {
      req.maxNew := Min(req.maxNew, MAX_CONTEXT - |req.prompt|);
      req.phase := Waiting;
    }

    predicate HasWork()
      reads this
      ensures HasWork() <==> Ids(waiting) != [] || Ids(running) != []
    {
      waiting != [] || running != []
    }

    // ---------------------------------------------------------------- retire

    method Retire()
      requires Valid() && Inv(cfg, View())
      modifies this, all.Values, manager.Obj()
      ensures Valid() && all == old(all) && View() == Scheduling.Retire(old(View()))
    {
      hide Inv, View, Reqs, Release, MarkCancelled, Without, DoneOf, CancelledOf, Scheduling.Retire;
      ghost var s0 := View();
      ViewParts();
      HolderTables(cfg, s0);
      DropCancelled();
      MarkRunning();
      ViewParts();
      TablesMarked(s0);
      ReleaseFinished();
      RetireIs(s0);
    }

    method DropCancelled()
      requires Valid()
      modifies this`waiting
      ensures Valid() && View() == old(View()).(waiting := Without(old(View()).waiting, CancelledOf(old(View()).reqs, old(View()).waiting)))
    {
      hide View, Reqs, Valid, Without;
      ViewParts();
      ValidLists();
      NotCancelledIds(all, waiting, CancelledOf(Reqs(), Ids(waiting)));
      waiting := NotCancelled(waiting);
      ListsReplaced();
      QueuesMoved();
    }

    method MarkRunning()
      requires Valid()
      modifies running
      ensures View() == old(View()).(reqs := MarkCancelled(old(View()).reqs, old(View()).running))
    {
      hide MarkCancelled, Valid, Reqs, View, ReqMap;
      ValidLists();
      ViewParts();
      ghost var reqs0, ids := ReqMap(all), Ids(running);
      MarkNone(reqs0);
      assert ids[..0] == [];
      for i := 0 to |running|
        invariant ReqMap(all) == MarkCancelled(reqs0, ids[..i])
      {
        var req := running[i];
        assert Known(all, req);
        MarkNext(reqs0, ids, i);
        AtKnown(all, req);
        label L:
        if req.cancelled && !req.Finished() {
          req.reason := Some(Cancelled);
        }
        OneChanged@L(req);
      }
      assert ids[..|running|] == ids;
      PoolKept();
      ViewFrom(old(View()).(reqs := MarkCancelled(reqs0, ids)));
    }

    /** One request leaves: its memory goes back. */
    method Leave(req: Request)
      requires Valid() && Known(all, req) && (cfg.backend.Slots? ==> |req.table| == 1)
      modifies req, manager.Obj()
      ensures var t := old(View());
        View() == Scheduling.Free(t.(reqs := t.reqs[req.id := At(t.reqs, req.id).(phase := Finished)]), req.id)
    {
      hide View, Reqs, Scheduling.Free;
      ViewParts();
      req.phase := Finished;
      MemoryMoved(req);
      Free(req);
    }

    method ReleaseFinished()
      requires Valid() && NoDup(Ids(running))
      requires cfg.backend.Slots? ==> forall id :: id in Ids(running) ==> |At(Reqs(), id).table| == 1
      modifies this`running, running, manager.Obj()
      ensures Valid()
      ensures View() == Release(old(View()), old(View()).running)
                          .(running := Without(old(View()).running, DoneOf(old(View()).reqs, old(View()).running)))
    {
      hide View, Reqs, Release, Without, Scheduling.Free, NoDup, Valid, Filed, Listed, ReqMap;
      ghost var s1, ids := View(), Ids(running);
      ViewParts();
      ValidLists();
      ghost var drop := DoneOf(s1.reqs, ids);
      var keep := [];
      NothingReleased(s1, drop);
      ListedNone(all);
      assert ids[..0] == [];
      for i := 0 to |running|
        invariant unchanged(this)
        invariant View() == Release(s1, ids[..i])
        invariant Ids(keep) == Without(ids[..i], drop) && Listed(all, keep)
      {
        var req := running[i];
        ListedAt(all, running, i);
        ViewParts();
        AtKnown(all, req);
        FreshInPrefix(ids, i);
        ReleaseKeeps(s1, ids[..i], req.id);
        ReleaseNext(s1, ids, i);
        WithoutNext(ids, drop, i);
        if req.Finished() {
          Leave(req);
        } else {
          ListedSnoc(all, keep, req);
          keep := keep + [req];
        }
      }
      assert ids[..|running|] == ids;
      label L:
      running := keep;
      QueuesMoved@L();
      ListsReplaced();
      ReleaseKeeps(s1, ids, 0);
      ViewParts();
    }

    /** Only the queues changed. */
    twostate lemma QueuesMoved()
      requires unchanged(pool.Tensors()) && unchanged(manager.Obj()) && all == old(all)
      requires forall id :: id in all ==> unchanged(all[id])
      requires admitCounter == old(admitCounter) && preemptions == old(preemptions)
      ensures View() == old(View()).(waiting := Ids(waiting), running := Ids(running))
    {
      PoolKept();
    }

    // ---------------------------------------------------------------- admit

    /** The starvation guard: most evicted first, then first come first served. */
    method SortWaiting()
      requires Valid()
      modifies this`waiting
      ensures Valid() && View() == old(View()).(waiting := Sort(old(View()).reqs, ByWait, old(View()).waiting))
    {
      hide View, Reqs, Valid, Sort, SortRequests;
      ViewParts();
      ValidLists();
      SortIds(all, ByWait, waiting);
      waiting := SortRequests(ByWait, waiting);
      ListsReplaced();
      QueuesMoved();
    }

    method PopFirst() returns (req: Request)
      requires Valid() && waiting != []
      modifies this`waiting
      ensures Valid() && req == old(waiting)[0] && waiting == old(waiting)[1..] && Known(all, req)
      ensures View() == old(View()).(waiting := old(View()).waiting[1..]) && req.id == old(View()).waiting[0]
    {
      hide View, Reqs, Valid;
      ViewParts();
      ValidLists();
      req := waiting[0];
      IdsSlice(waiting, 1, |waiting|);
      waiting := waiting[1..];
      ListsReplaced();
      QueuesMoved();
    }

    method StampWith(req: Request)
      requires Valid() && Known(all, req)
      modifies this`admitCounter, req`admitSeq
      ensures Valid() && View() == Stamp(old(View()), req.id)
    {
      hide View, Reqs, Valid, ReqMap;
      ViewParts();
      ValidLists();
      req.admitSeq := admitCounter;
      MemoryMoved(req);
      label L:
      admitCounter := admitCounter + 1;
      ListsReplaced@L();
      CounterMoved@L();
    }

    twostate lemma CounterMoved()
      requires unchanged(pool.Tensors()) && unchanged(manager.Obj()) && all == old(all)
      requires forall id :: id in all ==> unchanged(all[id])
      requires waiting == old(waiting) && running == old(running) && preemptions == old(preemptions)
      ensures View() == old(View()).(nextAdmit := admitCounter)
    {
      PoolKept();
    }

    twostate lemma NothingMoved()
      requires unchanged(this) && unchanged(pool.Tensors()) && unchanged(manager.Obj())
      requires forall id :: id in all ==> unchanged(all[id])
      ensures View() == old(View())
    {
      PoolKept();
    }

    /** The head of the queue is given memory and stamped with its admission number. */
    method AdmitFirst() returns (req: Request)
      requires Valid() && waiting != []
      requires Scheduling.Allocate(cfg, View().(waiting := View().waiting[1..]), View().waiting[0]).Ok?
      modifies this`waiting, this`admitCounter, manager.Obj(), waiting[0]
      ensures Valid() && req == old(waiting)[0] && waiting == old(waiting)[1..] && Known(all, req)
      ensures req.id == old(View()).waiting[0]
      ensures var s := old(View());
        View() == Stamp(Scheduling.Allocate(cfg, s.(waiting := s.waiting[1..]), s.waiting[0]).value, s.waiting[0])
    {
      hide View, Reqs, Valid, Scheduling.Allocate, Stamp;
      req := PopFirst();
      Allocate(req);
      StampWith(req);
    }

    /** May the head of the queue join a batch of n? */
    method HeadFits(n: nat, limit: nat) returns (ok: bool)
      requires Valid()
      ensures cfg.Valid()
      ensures ok <==> View().waiting != [] && n < limit
                      && Scheduling.CanAllocate(cfg, View(), View().waiting[0], |View().running| + n)
      ensures ok ==> waiting != []
      ensures View() == old(View())
    {
      hide View, Reqs, Valid, Scheduling.CanAllocate;
      ViewParts();
      ValidLists();
      if waiting == [] || n >= limit {
        return false;
      }
      ok := CanAllocate(waiting[0], |running| + n);
      PoolKept();
      ViewParts();
      ViewFrom(old(View()));
    }

    lemma HeadKnown()
      requires Valid() && waiting != []
      ensures Known(all, waiting[0])
    {
    }

    /** First come, first served: stops at the first request that does not fit. */
    method PopAdmissible(limit: nat) returns (batch: seq<Request>)
      requires Valid() && Scheduling.PopAdmissible(cfg, View(), limit).Ok?
      modifies this, all.Values, manager.Obj()
      ensures Valid() && all == old(all) && Listed(all, batch)
      ensures (View(), Ids(batch)) == Scheduling.PopAdmissible(cfg, old(View()), limit).value
    {
      hide View, Reqs, Valid, PopLoop, Scheduling.CanAllocate, Sort, Scheduling.Allocate, Stamp, Listed;
      ValidLists();
      SortWaiting();
      batch := [];
      ListedNone(all);
      ghost var end := PopLoop(cfg, View(), [], limit);
      while true
        invariant Valid() && all == old(all) && Listed(all, batch)
        invariant PopLoop(cfg, View(), Ids(batch), limit) == end
        decreases |waiting|
      {
        var ok := HeadFits(|batch|, limit);
        PopTurn(cfg, View(), Ids(batch), limit);
        if !ok {
          return;
        }
        HeadKnown();
        var req := AdmitFirst();
        ListedSnoc(all, batch, req);
        batch := batch + [req];
      }
    }

    /** One forward step of the model over the pool. */
    method RunModel(rows: seq<Row>) returns (toks: seq<Token>)
      requires Valid() && StepTokens(cfg, View().pool, rows).Ok?
      requires cfg.backend.Slots? ==> forall i :: 0 <= i < |rows| ==> |rows[i].table| == 1
      modifies pool.Tensors()
      ensures (View().pool, toks) == StepTokens(cfg, old(View()).pool, rows).value
      ensures View() == old(View()).(pool := View().pool)
    {
      hide Forward.Run, View;
      ViewParts();
      toks := runner.StepTokens(pool, rows);
      ViewFrom(old(View()).(pool := pool.View()));
    }

    /** Each prefilled request turns to running and receives its token. */
    method ActivateAll(batch: seq<Request>, toks: seq<Token>)
      requires Valid() && Listed(all, batch) && |toks| == |batch|
      modifies batch
      ensures View() == old(View()).(reqs := EmitEach(old(View()).reqs, Ids(batch), toks))
    {
      hide View, Reqs, Valid, EmitEach, Scheduling.Emit, ReqMap;
      ViewParts();
      ValidLists();
      ghost var reqs0, ids := ReqMap(all), Ids(batch);
      EmitEachNone(reqs0);
      assert ids[..0] == [] && toks[..0] == [];
      for i := 0 to |batch|
        invariant ReqMap(all) == EmitEach(reqs0, ids[..i], toks[..i])
      {
        var req := batch[i];
        assert Known(all, req);
        EmitEachNext(reqs0, ids, toks, i);
        AtKnown(all, req);
        label L:
        req.phase := Running;
        req.Emit(toks[i]);
        OneChanged@L(req);
      }
      assert ids[..|batch|] == ids && toks[..|batch|] == toks;
      PoolKept();
      ViewFrom(old(View()).(reqs := EmitEach(reqs0, ids, toks)));
    }

    /** Prompt plus anything generated before an eviction, in one padded pass. */
    method Prefill(batch: seq<Request>)
      requires Valid() && Listed(all, batch) && NoDup(Ids(batch)) && Scheduling.Prefill(cfg, View(), Ids(batch)).Ok?
      requires cfg.backend.Slots? ==> forall i :: 0 <= i < |batch| ==> |batch[i].table| == 1
      modifies this`running, batch, pool.Tensors()
      ensures Valid() && View() == Scheduling.Prefill(cfg, old(View()), Ids(batch)).value
      ensures running == old(running) + batch
    {
      hide View, Reqs, Valid, StepTokens, EmitEach, Scheduling.EmitAll, Activate, ReqMap;
      ViewParts();
      ValidLists();
      ghost var s0, ids := View(), Ids(batch);
      var rows := seq(|batch|, i requires 0 <= i < |batch| reads batch => Row(batch[i].table, 0, batch[i].prompt + batch[i].output));
      PrefillRowsAre(all, batch, rows);
      var toks := RunModel(rows);
      ViewParts();
      ActivateAll(batch, toks);
      EmitEachIs(s0.reqs, ids, toks);
      label L:
      running := running + batch;
      IdsConcat(old(running), batch);
      ListedConcat(all, old(running), batch);
      ListsReplaced@L();
      QueuesMoved@L();
      ViewParts();
    }

    /** Continuous batching prefills the admitted requests one by one. */
    method PrefillEach(batch: seq<Request>)
      requires Valid() && Listed(all, batch) && Core(cfg, View(), Ids(batch), {})
      modifies this`running, batch, pool.Tensors()
      ensures Valid() && Scheduling.PrefillEach(cfg, old(View()), Ids(batch)) == Ok(View())
    {
      hide View, Reqs, Valid, Core, Scheduling.PrefillEach, Listed, Scheduling.Prefill;
      ghost var ids := Ids(batch);
      CoreValid(cfg, View(), ids);
      ghost var end := Scheduling.PrefillEach(cfg, View(), ids);
      assert ids[0..] == ids && ids[|batch|..] == [];
      for i := 0 to |batch|
        invariant Valid() && Listed(all, batch) && Core(cfg, View(), ids[i..], {})
        invariant cfg.Valid() && Scheduling.PrefillEach(cfg, View(), ids[i..]) == end
      {
        ViewParts();
        PrefillTurn(cfg, View(), ids[i..]);
        OneOf(all, batch, i);
        PoppedTables(cfg, View(), ids[i..]);
        AtKnown(all, batch[i]);
        Prefill([batch[i]]);
      }
      PrefillOver(cfg, View());
    }

    method Admit()
      requires Valid() && Inv(cfg, View())
      modifies this, all.Values, manager.Obj(), pool.Tensors()
      ensures Valid() && all == old(all) && Scheduling.Admit(cfg, old(View())) == Ok(View())
    {
      hide View, Reqs, Valid, Core, Scheduling.PrefillEach, Scheduling.Prefill, Scheduling.PopAdmissible, Listed;
      ghost var s0 := View();
      ViewParts();
      ValidLists();
      if cfg.isStatic {
        if running != [] {
          return;
        }
        PopFacts(cfg, s0, cfg.maxBatch);
        var batch := PopAdmissible(cfg.maxBatch);
        if batch != [] {
          StaticBatch(cfg, View(), Ids(batch));
          BatchTables(batch);
          ListedOwned(all, batch);
          Prefill(batch);
        }
      } else {
        var room := cfg.maxBatch - |running|;
        PopFacts(cfg, s0, Max(room, 0));
        var batch := PopAdmissible(Max(room, 0));
        ListedOwned(all, batch);
        PrefillEach(batch);
      }
    }

    lemma BatchTables(batch: seq<Request>)
      requires Valid() && Listed(all, batch)
      requires cfg.backend.Slots? ==> forall id :: id in Ids(batch) ==> |At(View().reqs, id).table| == 1
      ensures cfg.backend.Slots? ==> forall i :: 0 <= i < |batch| ==> |batch[i].table| == 1
    {
      forall i | 0 <= i < |batch| ensures cfg.backend.Slots? ==> |batch[i].table| == 1 {
        assert Known(all, batch[i]);
        AtKnown(all, batch[i]);
        assert Ids(batch)[i] == batch[i].id && batch[i].id in Ids(batch);
        assert At(View().reqs, batch[i].id) == batch[i].View();
      }
    }

    // ---------------------------------------------------------------- decode

    /** Preempt and recompute: memory is given back, tokens are kept, the request queues again. */
    method Preempt(req: Request)
      requires Valid() && Known(all, req) && req in running && (cfg.backend.Slots? ==> |req.table| == 1)
      modifies this`waiting, this`running, this`preemptions, req, manager.Obj()
      ensures Valid() && View() == Scheduling.Preempt(old(View()), req.id)
      ensures running == RemoveAt(old(running), IndexOf(old(running), req))
    {
      hide View, Reqs, Valid, Scheduling.Free, RemoveAt, IndexOf, ReqMap;
      ViewParts();
      ghost var s0 := View();
      Free(req);
      FreeKeepsQueues(s0, req.id);
      TakeOut(req);
      Requeue(req);
      PreemptIs(s0, req.id);
    }

    method TakeOut(req: Request)
      requires Valid() && Known(all, req) && req in running
      modifies this`running
      ensures Valid() && req.id in old(View()).running && running == RemoveAt(old(running), IndexOf(old(running), req))
      ensures var ids := old(View()).running; View() == old(View()).(running := RemoveAt(ids, IndexOf(ids, req.id)))
    {
      hide View, Reqs, Valid, RemoveAt, IndexOf;
      ViewParts();
      ValidLists();
      IndexOfId(all, running, req);
      var k := IndexOf(running, req);
      running := RemoveAt(running, k);
      RemoveListed(all, old(running), k);
      ListsReplaced();
      QueuesMoved();
    }

    method Requeue(req: Request)
      requires Valid() && Known(all, req)
      modifies this`waiting, this`preemptions, req`phase, req`preempts
      ensures Valid()
      ensures var s := old(View());
        View() == s.(waiting := s.waiting + [req.id], preemptions := s.preemptions + 1,
                     reqs := s.reqs[req.id := At(s.reqs, req.id).(phase := Waiting, preempts := At(s.reqs, req.id).preempts + 1)])
    {
      hide View, Reqs, Valid, Listed, ReqMap;
      MarkEvicted(req);
      label L:
      ViewParts();
      ValidLists();
      preemptions := preemptions + 1;
      ListedSnoc(all, waiting, req);
      waiting := waiting + [req];
      ListsReplaced@L();
      EvictionCounted@L();
    }

    method MarkEvicted(req: Request)
      requires Valid() && Known(all, req)
      modifies req`phase, req`preempts
      ensures var s := old(View());
        View() == s.(reqs := s.reqs[req.id := At(s.reqs, req.id).(phase := Waiting, preempts := At(s.reqs, req.id).preempts + 1)])
    {
      hide View, Reqs, Valid;
      ViewParts();
      ValidLists();
      AtKnown(all, req);
      req.phase := Waiting;
      req.preempts := req.preempts + 1;
      MemoryMoved(req);
    }

    twostate lemma EvictionCounted()
      requires unchanged(pool.Tensors()) && unchanged(manager.Obj()) && all == old(all)
      requires forall id :: id in all ==> unchanged(all[id])
      requires running == old(running) && admitCounter == old(admitCounter)
      ensures View() == old(View()).(waiting := Ids(waiting), preemptions := preemptions)
    {
      PoolKept();
    }

    /** Gives every row the block its next token needs, evicting the weakest when the pool is dry. */
    method EnsureCapacity(batch: seq<Request>) returns (active: seq<Request>)
      requires Valid() && Listed(all, batch) && NoDup(Ids(batch)) && (forall r :: r in batch ==> r in running)
      requires Scheduling.EnsureCapacity(cfg, View(), Ids(batch)).Ok?
      modifies this, all.Values, manager.Obj()
      ensures Valid() && all == old(all) && Listed(all, active)
      ensures (View(), Ids(active)) == Scheduling.EnsureCapacity(cfg, old(View()), Ids(batch)).value
    {
      hide View, Reqs, Valid, Scheduling.AppendSlot, Scheduling.Preempt, EnsureLoop, Sort, SortRequests, NoDup, Listed, VictimOf;
      ViewParts();
      ValidLists();
      SortIds(all, ByAdmit, batch);
      SortKeepsNoDup(View().reqs, ByAdmit, Ids(batch));
      active := SortRequests(ByAdmit, batch);
      var i: nat := 0;
      ghost var end := EnsureLoop(cfg, View(), Ids(active), 0);
      while i < |active|
        invariant i <= |active| && Valid() && all == old(all) && Listed(all, active) && NoDup(Ids(active))
        invariant forall r :: r in active ==> r in running
        invariant cfg.Valid() && EnsureLoop(cfg, View(), Ids(active), i) == end
        decreases 2 * |active| - i
      {
        active, i := CapacityTurn(active, i, end);
      }
      EnsureOver(cfg, View(), Ids(active));
    }

    /** One turn of the loop: the row gets its block, or the weakest row is thrown out. */
    method CapacityTurn(rows: seq<Request>, at: nat, ghost end: Outcome<(St, seq<Id>)>) returns (active: seq<Request>, i: nat)
      requires Valid() && Listed(all, rows) && NoDup(Ids(rows)) && at < |rows| && (forall r :: r in rows ==> r in running)
      requires EnsureLoop(cfg, View(), Ids(rows), at) == end && end.Ok?
      modifies this, all.Values, manager.Obj()
      ensures Valid() && all == old(all) && Listed(all, active) && NoDup(Ids(active)) && (forall r :: r in active ==> r in running)
      ensures i <= |active| && 2 * |active| - i < 2 * |rows| - at
      ensures EnsureLoop(cfg, View(), Ids(active), i) == end
    {
      hide View, Reqs, Valid, Scheduling.AppendSlot, Scheduling.Preempt, EnsureLoop, Listed, VictimOf, NoDup, VictimIndex;
      active, i := rows, at;
      ValidLists();
      ViewParts();
      ListedOwned(all, active);
      ListedAt(all, active, i);
      EnsureTurn(cfg, View(), Ids(active), i);
      var ok := AppendSlot(active[i]);
      if ok {
        return active, i + 1;
      }
      if !cfg.backend.Preempting? {
        assert false;      // "out of KV blocks and preemption is disabled"
      }
      var v;
      active, v := EvictWeakest(rows);
      if v < i {
        i := i - 1;
      }
    }

    /** Throws out the least evicted row, the last admitted among those. */
    method EvictWeakest(rows: seq<Request>) returns (active: seq<Request>, v: nat)
      requires Valid() && Listed(all, rows) && NoDup(Ids(rows)) && rows != [] && (forall r :: r in rows ==> r in running)
      requires cfg.backend.Preempting?
      modifies this, all.Values, manager.Obj()
      ensures Valid() && all == old(all) && Listed(all, active) && NoDup(Ids(active)) && (forall r :: r in active ==> r in running)
      ensures v == VictimIndex(old(View()).reqs, Ids(rows)) && active == RemoveAt(rows, v)
      ensures Ids(active) == RemoveAt(Ids(rows), v)
      ensures View() == Scheduling.Preempt(old(View()), Ids(rows)[v])
    {
      hide View, Reqs, Valid, Scheduling.Preempt, Listed, VictimOf, NoDup, VictimIndex;
      ViewParts();
      ValidLists();
      ListedOwned(all, rows);
      VictimIs(all, rows);
      v := VictimOf(rows);
      ListedAt(all, rows, v);
      active := RemoveAt(rows, v);
      Preempt(rows[v]);
      RemoveListed(all, rows, v);
      StillRunning(all, rows, v, old(running));
      RemoveKeepsNoDup(Ids(rows), v);
    }

    /** Hands every row its token. */
    method EmitAll(active: seq<Request>, toks: seq<Token>)
      requires Valid() && Listed(all, active) && |toks| == |active|
      modifies active
      ensures View() == old(View()).(reqs := Scheduling.EmitAll(old(View()).reqs, Ids(active), toks))
    {
      hide View, Reqs, Valid, Scheduling.EmitAll, Scheduling.Emit, ReqMap;
      ViewParts();
      ValidLists();
      ghost var reqs0, ids := ReqMap(all), Ids(active);
      EmitAllNone(reqs0);
      assert ids[..0] == [] && toks[..0] == [];
      for i := 0 to |active|
        invariant ReqMap(all) == Scheduling.EmitAll(reqs0, ids[..i], toks[..i])
      {
        var req := active[i];
        assert Known(all, req);
        EmitAllNext(reqs0, ids, toks, i);
        AtKnown(all, req);
        label L:
        req.Emit(toks[i]);
        OneChanged@L(req);
      }
      assert ids[..|active|] == ids && toks[..|active|] == toks;
      PoolKept();
      ViewFrom(old(View()).(reqs := Scheduling.EmitAll(reqs0, ids, toks)));
    }

    /** One batched forward step for rows that all have room for their next token. */
    method DecodeBatch(active: seq<Request>)
      requires Valid() && Listed(all, active) && active != [] && Scheduling.DecodeBatch(cfg, View(), Ids(active)).Ok?
      requires cfg.backend.Slots? ==> forall id :: id in Ids(active) ==> |At(View().reqs, id).table| == 1
      modifies active, pool.Tensors()
      ensures Valid() && Scheduling.DecodeBatch(cfg, old(View()), Ids(active)) == Ok(View())
    {
      hide View, Reqs, Valid, StepTokens, Scheduling.EmitAll;
      ViewParts();
      ValidLists();
      DecodeTurn(cfg, View(), Ids(active));
      OutputsThere(all, active);
      BatchTables(active);
      var rows := seq(|active|, i requires 0 <= i < |active| && active[i].output != [] reads active =>
        Row(active[i].table, active[i].SeqLen() - 1, [Last(active[i].output)]));
      DecodeRowsAre(all, active, rows);
      var toks := RunModel(rows);
      EmitAll(active, toks);
    }

    method Decode()
      requires Valid() && Inv(cfg, View())
      modifies this, all.Values, manager.Obj(), pool.Tensors()
      ensures Valid() && all == old(all) && Scheduling.Decode(cfg, old(View())) == Ok(View())
    {
      hide View, Reqs, Valid, Core, Scheduling.EnsureCapacity, Scheduling.DecodeBatch, Without, NotFinished, DoneOf;
      ghost var s0 := View();
      ViewParts();
      ValidLists();
      UnfinishedRequests();
      var batch := NotFinished(running);
      DecodeOutline(cfg, s0);
      if batch == [] {
        return;
      }
      var active := EnsureCapacity(batch);
      if active == [] {
        EmptyDecode(cfg, View());
        return;
      }
      ListedOwned(all, active);
      DecodeBatch(active);
    }

    lemma UnfinishedRequests()
      requires Valid()
      ensures Listed(all, NotFinished(running)) && Ids(NotFinished(running)) == Unfinished(View())
      ensures forall r :: r in NotFinished(running) ==> r in running
    {
      forall id | id in Ids(running)
        ensures id in DoneOf(Reqs(), Ids(running)) <==> At(Reqs(), id).Done()
      {
      }
      NotFinishedIds(all, running, DoneOf(Reqs(), Ids(running)));
    }

    // ---------------------------------------------------------------- the loop body

    /** Retire, admit, decode: exactly one step of the specification, and the invariant holds again. */
    method Step()
      requires Valid() && Inv(cfg, View())
      modifies this, all.Values, manager.Obj(), pool.Tensors()
      ensures Valid() && all == old(all) && cfg.Valid()
      ensures Scheduling.Step(cfg, old(View())) == Ok(View()) && Inv(cfg, View())
    {
      hide View, Reqs, Valid, Core, Scheduling.Retire, Scheduling.Admit, Scheduling.Decode;
      ValidLists();
      ghost var s0 := View();
      StepKeepsInv(cfg, s0);
      RetireKeepsInv(cfg, s0);
      Retire();
      AdmitKeeps(cfg, View());
      Admit();
      Decode();
    }
  }

  lemma NothingReleased(s: St, drop: set<Id>)
    ensures Release(s, []) == s && Without([], drop) == []
  {
  }

  lemma FreshInPrefix(ids: seq<Id>, i: nat)
    requires NoDup(ids) && i < |ids|
    ensures ids[i] !in ids[..i] && ids[i] in ids
  {
  }

  /** The admitted requests: each once, and a slot-backed one has its slot. */
  lemma PoppedTables(cfg: Cfg, s: St, popped: seq<Id>)
    requires Core(cfg, s, popped, {})
    ensures NoDup(popped)
    ensures cfg.backend.Slots? ==> forall id :: id in popped ==> |At(s.reqs, id).table| == 1
  {
    hide ReqsOk, WaitersOk, RunnersOk, OthersOk, MemOk, CommitOk, AdmitOrder, Forward.PoolOk;
    ListFacts(s, popped);
  }

  lemma PopFacts(cfg: Cfg, s: St, limit: nat)
    requires Inv(cfg, s)
    ensures cfg.Valid() && PopAdmissible(cfg, s, limit).Ok?
    ensures var (p, batch) := PopAdmissible(cfg, s, limit).value; Core(cfg, p, batch, {})
  {
    hide Core, PopLoop, Sort, PoppedFrom, PopStopped;
    InvValid(cfg, s);
    SortKeepsCore(cfg, s);
    PopLoopFacts(cfg, s.(waiting := Sort(s.reqs, ByWait, s.waiting)), [], limit);
  }

  lemma StaticBatch(cfg: Cfg, p: St, batch: seq<Id>)
    requires Core(cfg, p, batch, {}) && batch != []
    ensures cfg.Valid() && Prefill(cfg, p, batch).Ok? && NoDup(batch)
    ensures cfg.backend.Slots? ==> forall id :: id in batch ==> |At(p.reqs, id).table| == 1
  {
    hide Core, Prefill, StepFacts;
    PoppedTables(cfg, p, batch);
    assert batch + [] == batch;
    PrefillKeepsCore(cfg, p, batch, []);
    CoreValid(cfg, p, batch);
  }

  lemma CoreValid(cfg: Cfg, s: St, popped: seq<Id>)
    requires Core(cfg, s, popped, {})
    ensures cfg.Valid()
  {
  }

  /** One turn of the prefill loop. */
  lemma PrefillTurn(cfg: Cfg, s: St, batch: seq<Id>)
    requires Core(cfg, s, batch, {}) && batch != []
    ensures cfg.Valid() && Prefill(cfg, s, [batch[0]]).Ok? && Core(cfg, Prefill(cfg, s, [batch[0]]).value, batch[1..], {})
    ensures PrefillEach(cfg, s, batch) == PrefillEach(cfg, Prefill(cfg, s, [batch[0]]).value, batch[1..])
  {
    hide Core, Prefill, StepFacts;
    CoreValid(cfg, s, batch);
    assert batch[..1] == [batch[0]] && [batch[0]] + batch[1..] == batch;
    PrefillKeepsCore(cfg, s, [batch[0]], batch[1..]);
  }

  lemma PrefillOver(cfg: Cfg, s: St)
    requires cfg.Valid()
    ensures PrefillEach(cfg, s, []) == Ok(s)
  {
  }

  lemma OneOf(all: map<Id, Request>, batch: seq<Request>, i: nat)
    requires Listed(all, batch) && i < |batch|
    ensures Known(all, batch[i]) && Listed(all, [batch[i]]) && Ids([batch[i]]) == [Ids(batch)[i]] && NoDup(Ids([batch[i]]))
    ensures Ids(batch)[i..] != [] && Ids(batch)[i..][0] == batch[i].id && Ids(batch)[i..][1..] == Ids(batch)[i + 1..]
  {
  }

  lemma PrefillRowsAre(all: map<Id, Request>, batch: seq<Request>, rows: seq<Row>)
    requires Listed(all, batch) && |rows| == |batch|
    requires forall i :: 0 <= i < |batch| ==> rows[i] == Row(batch[i].table, 0, batch[i].prompt + batch[i].output)
    ensures rows == PrefillRows(ReqMap(all), Ids(batch))
  {
    forall i | 0 <= i < |batch| ensures rows[i] == PrefillRows(ReqMap(all), Ids(batch))[i] {
      assert Known(all, batch[i]);
      AtKnown(all, batch[i]);
    }
  }

  lemma EmitEachNone(reqs: map<Id, Req>)
    ensures EmitEach(reqs, [], []) == reqs
  {
  }

  lemma ListedConcat(all: map<Id, Request>, a: seq<Request>, b: seq<Request>)
    requires Listed(all, a) && Listed(all, b)
    ensures Listed(all, a + b)
  {
  }

  lemma AdmitKeeps(cfg: Cfg, s: St)
    requires Inv(cfg, s)
    ensures cfg.Valid() && Admit(cfg, s).Ok? && Inv(cfg, Admit(cfg, s).value)
  {
    hide Core, Admit, AdmitRel, CanAllocate;
    InvValid(cfg, s);
    var _ := AdmitFacts(cfg, s);
  }

  lemma EmitAllNone(reqs: map<Id, Req>)
    ensures EmitAll(reqs, [], []) == reqs
  {
  }

  lemma EmptyDecode(cfg: Cfg, s: St)
    requires cfg.Valid()
    ensures DecodeBatch(cfg, s, []) == Ok(s)
  {
  }

  lemma DecodeTurn(cfg: Cfg, s: St, active: seq<Id>)
    requires cfg.Valid() && active != [] && DecodeBatch(cfg, s, active).Ok?
    ensures forall id :: id in active ==> At(s.reqs, id).output != []
    ensures StepTokens(cfg, s.pool, DecodeRows(s.reqs, active)).Ok?
    ensures var (pool, toks) := StepTokens(cfg, s.pool, DecodeRows(s.reqs, active)).value;
      DecodeBatch(cfg, s, active) == Ok(s.(pool := pool, reqs := EmitAll(s.reqs, active, toks)))
  {
  }

  lemma OutputsThere(all: map<Id, Request>, active: seq<Request>)
    requires Listed(all, active) && forall id :: id in Ids(active) ==> At(ReqMap(all), id).output != []
    ensures forall i :: 0 <= i < |active| ==> active[i].output != []
  {
    forall i | 0 <= i < |active| ensures active[i].output != [] {
      assert Known(all, active[i]);
      AtKnown(all, active[i]);
      assert Ids(active)[i] == active[i].id;
    }
  }

  lemma DecodeRowsAre(all: map<Id, Request>, active: seq<Request>, rows: seq<Row>)
    requires Listed(all, active) && |rows| == |active|
    requires forall i :: 0 <= i < |active| ==> active[i].output != []
    requires forall i :: 0 <= i < |active| ==>
      rows[i] == Row(active[i].table, active[i].SeqLen() - 1, [Last(active[i].output)])
    requires forall id :: id in Ids(active) ==> At(ReqMap(all), id).output != []
    ensures rows == DecodeRows(ReqMap(all), Ids(active))
  {
    forall i | 0 <= i < |active| ensures rows[i] == DecodeRows(ReqMap(all), Ids(active))[i] {
      assert Known(all, active[i]);
      AtKnown(all, active[i]);
    }
  }

  /** The decode phase never raises, and what survives the evictions has its memory. */
  lemma DecodeOutline(cfg: Cfg, s: St)
    requires Inv(cfg, s)
    ensures cfg.Valid() && NoDup(Unfinished(s)) && EnsureCapacity(cfg, s, Unfinished(s)).Ok?
    ensures var (t, active) := EnsureCapacity(cfg, s, Unfinished(s)).value;
      && DecodeBatch(cfg, t, active).Ok?
      && (cfg.backend.Slots? ==> forall id :: id in active ==> |At(t.reqs, id).table| == 1)
  {
    hide Core, LoopInv, EnsureLoop, Evolved, WeakestGone, Wanting, Without, DecodeBatch, StepFacts, DecodedFrom, DecodeReady, Unfinished, Sort;
    var ids := Unfinished(s);
    UnfinishedFacts(cfg, s);
    LoopBasics(cfg, s, ids, 0);
    EnsureLoopFacts(cfg, s, ids, 0);
    var (t, active) := EnsureLoop(cfg, s, ids, 0).value;
    LoopResultAtStart(cfg, s, ids, t, active);
    if active == [] {
      EmptyDecode(cfg, t);
    } else {
      ActiveReady(cfg, t, active);
      DecodeBatchKeepsInv(cfg, t, active);
      ActiveTables(cfg, t, active);
    }
  }

  lemma ActiveTables(cfg: Cfg, t: St, active: seq<Id>)
    requires LoopInv(cfg, t, active, |active|)
    ensures cfg.backend.Slots? ==> forall id :: id in active ==> |At(t.reqs, id).table| == 1
  {
    hide ListsOk, ReqsOk, WaitersOk, OthersOk, MemOk, CommitOk, AdmitOrder, Forward.PoolOk, Forward.Holds;
    forall id | id in active ensures cfg.backend.Slots? ==> |At(t.reqs, id).table| == 1 {
      assert RunningOk(cfg, t.pool, At(t.reqs, id), id in Front(active, |active|));
    }
  }

  /** One turn of the eviction loop. */
  lemma EnsureTurn(cfg: Cfg, s: St, active: seq<Id>, i: nat)
    requires cfg.Valid() && i < |active| && EnsureLoop(cfg, s, active, i).Ok?
    ensures var (s', ok) := AppendSlot(cfg, s, active[i]);
      if ok then EnsureLoop(cfg, s, active, i) == EnsureLoop(cfg, s', active, i + 1)
      else
        && cfg.backend.Preempting?
        && var v := VictimIndex(s'.reqs, active);
        EnsureLoop(cfg, s, active, i)
        == EnsureLoop(cfg, Preempt(s', active[v]), RemoveAt(active, v), if v < i then i - 1 else i)
  {
  }

  lemma EnsureOver(cfg: Cfg, s: St, active: seq<Id>)
    requires cfg.Valid()
    ensures EnsureLoop(cfg, s, active, |active|) == Ok((s, active))
  {
  }

  lemma SortKeepsNoDup(reqs: map<Id, Req>, order: Order, ids: seq<Id>)
    requires NoDup(ids)
    ensures NoDup(Sort(reqs, order, ids))
  {
    SortCount(reqs, order, ids);
    forall id ensures multiset(Sort(reqs, order, ids))[id] <= 1 {
      MultisetOfNoDup(ids, id);
    }
    NoDupFromCounts(Sort(reqs, order, ids));
  }

  lemma PreemptIs(s: St, id: Id)
    requires id in s.running
    ensures var t := Free(s, id);
      id in t.running
      && var u := t.(running := RemoveAt(t.running, IndexOf(t.running, id)));
      Preempt(s, id)
      == u.(waiting := u.waiting + [id], preemptions := u.preemptions + 1,
            reqs := u.reqs[id := At(u.reqs, id).(phase := Waiting, preempts := At(u.reqs, id).preempts + 1)])
  {
  }

  lemma FreeKeepsQueues(s: St, id: Id)
    ensures Free(s, id).running == s.running && Free(s, id).waiting == s.waiting && Free(s, id).preemptions == s.preemptions
  {
  }

  /** Looking a request up by identity or by id gives the same position. */
  lemma {:induction false} IndexOfId(all: map<Id, Request>, rs: seq<Request>, r: Request)
    requires Listed(all, rs) && Known(all, r) && r in rs
    ensures r.id in Ids(rs) && IndexOf(Ids(rs), r.id) == IndexOf(rs, r)
  {
    var i := IndexOf(rs, r);
    assert Ids(rs)[i] == r.id;
    assert Known(all, rs[0]);
    if rs[0] != r {
      IndexOfId(all, rs[1..], r);
      assert Ids(rs[1..]) == Ids(rs)[1..];
    }
  }

  lemma RemoveListed(all: map<Id, Request>, rs: seq<Request>, k: nat)
    requires Listed(all, rs) && k < |rs|
    ensures Listed(all, RemoveAt(rs, k)) && Ids(RemoveAt(rs, k)) == RemoveAt(Ids(rs), k)
  {
  }

  lemma ListedAt(all: map<Id, Request>, rs: seq<Request>, i: nat)
    requires Listed(all, rs) && i < |rs|
    ensures Known(all, rs[i]) && rs[i] in rs && Ids(rs)[i] == rs[i].id
  {
  }

  lemma RemoveKeepsNoDup(ids: seq<Id>, v: nat)
    requires NoDup(ids) && v < |ids|
    ensures NoDup(RemoveAt(ids, v))
  {
  }

  /** Evicting one row takes nobody else out of the running queue. */
  lemma StillRunning(all: map<Id, Request>, rows: seq<Request>, v: nat, running: seq<Request>)
    requires Listed(all, rows) && NoDup(Ids(rows)) && v < |rows| && forall r :: r in rows ==> r in running
    ensures rows[v] in running
    ensures forall r :: r in RemoveAt(rows, v) ==> r in RemoveAt(running, IndexOf(running, rows[v]))
  {
    var k := IndexOf(running, rows[v]);
    forall r | r in RemoveAt(rows, v) ensures r in RemoveAt(running, k) {
      var i :| 0 <= i < |RemoveAt(rows, v)| && RemoveAt(rows, v)[i] == r;
      var j := if i < v then i else i + 1;
      assert rows[j] == r && Ids(rows)[j] != Ids(rows)[v];
      var p := IndexOf(running, r);
      assert RemoveAt(running, k)[if p < k then p else p - 1] == r;
    }
  }

  lemma ListedOwned(all: map<Id, Request>, rs: seq<Request>)
    requires Listed(all, rs)
    ensures forall r :: r in rs ==> r in all.Values
  {
    forall r | r in rs ensures r in all.Values {
      assert Known(all, r);
      assert all[r.id] in all.Values;
    }
  }

  lemma ListedSnoc(all: map<Id, Request>, rs: seq<Request>, r: Request)
    requires Listed(all, rs) && Known(all, r)
    ensures Listed(all, rs + [r]) && Ids(rs + [r]) == Ids(rs) + [r.id]
  {
  }

  lemma ListedNone(all: map<Id, Request>)
    ensures Listed(all, []) && Ids([]) == []
  {
  }

  /** Holders are listed once, and a slot-backed one holds exactly its slot. */
  lemma HolderTables(cfg: Cfg, s: St)
    requires Inv(cfg, s)
    ensures NoDup(s.running)
    ensures cfg.backend.Slots? ==> forall id :: id in s.running ==> |At(s.reqs, id).table| == 1
  {
    hide ReqsOk, WaitersOk, OthersOk, MemOk, CommitOk, AdmitOrder, Forward.PoolOk, Forward.Holds;
    ListFacts(s, []);
    if cfg.backend.Slots? {
      forall id | id in s.running ensures |At(s.reqs, id).table| == 1 {
        assert RunningOk(cfg, s.pool, At(s.reqs, id), false);
      }
    }
  }

  lemma RetireIs(s: St)
    ensures var t := Marked(s);
      Scheduling.Retire(s) == Release(t, t.running).(running := Without(t.running, DoneOf(t.reqs, t.running)))
  {
  }

  lemma TablesMarked(s: St)
    ensures Marked(s).running == s.running
    ensures forall id :: At(Marked(s).reqs, id).table == At(s.reqs, id).table
  {
  }

  lemma NewListed(all: map<Id, Request>, waiting: seq<Request>, running: seq<Request>, req: Request)
    requires Listed(all, waiting) && Listed(all, running) && req.id !in all
    ensures Listed(all[req.id := req], waiting + [req]) && Listed(all[req.id := req], running)
  {
  }

  lemma PopOne(free: seq<nat>)
    requires free != []
    ensures Popped(free, 1) == [Last(free)] && free[..|free| - 1] == Init(free)
  {
  }

  lemma PopNone(free: seq<nat>, table: seq<nat>)
    ensures table + Popped(free, 0) == table && free[..|free| - 0] == free
  {
  }

  lemma SameEntry(reqs: map<Id, Req>, id: Id)
    requires id in reqs
    ensures reqs[id := At(reqs, id)] == reqs
  {
  }
}
