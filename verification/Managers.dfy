/** The two allocators, as objects that mutate their free list and the request's block table. */
module Managers {
  import opened Prelude
  import opened Storage
  import opened Scheduling
  import opened Lists
  import opened Requests

  /** Paged: a last-in-first-out free list of blocks, and how many blocks each live request may come to need. */
  class BlockManager {
    const numBlocks: nat
    const blockSize: nat
    const reserveMaxNew: bool
    var freeBlocks: seq<nat>
    var committed: map<Id, int>

    constructor (numBlocks: nat, blockSize: nat, reserveMaxNew: bool)
      ensures this.numBlocks == numBlocks && this.blockSize == blockSize && this.reserveMaxNew == reserveMaxNew
      ensures freeBlocks == Reverse(Range(numBlocks)) && committed == map[]
    {
      this.numBlocks, this.blockSize, this.reserveMaxNew := numBlocks, blockSize, reserveMaxNew;
      freeBlocks, committed := seq(numBlocks, i requires 0 <= i < numBlocks => numBlocks - 1 - i), map[];
    }

    /** Exactly the blocks that n tokens fill; a negative n needs none and counts as negative. */
    function BlocksNeeded(n: int): (r: int)
      requires blockSize > 0
      ensures r == UnitsFor(blockSize, n)
      ensures n >= 0 ==> n <= r * blockSize < n + blockSize
    {
      UnitsForIsCeiling(blockSize, n);
      assert n >= 0 ==> n <= UnitsFor(blockSize, n) * blockSize < n + blockSize by {
        if n >= 0 { UnitsForExact(blockSize, n); }
      }
      -((-n) / blockSize)
    }

    /** Could the request finish with the whole pool to itself? */
    predicate FitsEver(promptLen: nat, maxNew: int): (ok: bool)
      requires blockSize > 0
      ensures ok <==> promptLen + maxNew <= numBlocks * blockSize
    {
      UnitsForAtMost(blockSize, promptLen + maxNew, numBlocks);
      BlocksNeeded(promptLen + maxNew) <= numBlocks
    }

    method SumCommitted() returns (total: int)
      ensures total == SumOf(committed)
    {
      total := 0;
      var rest := committed;
      while rest != map[]
        invariant total + SumOf(rest) == SumOf(committed)
        decreases |rest|
      {
        var k :| k in rest;
        SumOfRemove(rest, k);
        total := total + rest[k];
        rest := rest - {k};
      }
    }

    method CanAllocate(req: Request, headroom: nat) returns (ok: bool)
      requires blockSize > 0
      ensures reserveMaxNew ==>
        (ok <==> SumOf(committed) + UnitsFor(blockSize, |req.prompt| + req.maxNew) <= numBlocks)
      ensures !reserveMaxNew ==> (ok <==> |freeBlocks| >= UnitsFor(blockSize, req.SeqLen()) + headroom)
    {
      var need := BlocksNeeded(req.SeqLen());
      if reserveMaxNew {
        var worst := BlocksNeeded(|req.prompt| + req.maxNew);
        var total := SumCommitted();
        return total + worst <= numBlocks;
      }
      return |freeBlocks| >= need + headroom;
    }

    /** Pops the last k blocks, one at a time. */
    method PopBlocks(k: nat) returns (blocks: seq<nat>)
      requires k <= |freeBlocks|
      modifies this`freeBlocks
      ensures freeBlocks == old(freeBlocks)[..|old(freeBlocks)| - k] && blocks == Popped(old(freeBlocks), k)
    {
      blocks := [];
      while |blocks| < k
        invariant |blocks| <= k
        invariant freeBlocks == old(freeBlocks)[..|old(freeBlocks)| - |blocks|]
        invariant blocks == Popped(old(freeBlocks), |blocks|)
      {
        blocks := blocks + [freeBlocks[|freeBlocks| - 1]];
        freeBlocks := freeBlocks[..|freeBlocks| - 1];
      }
    }

    method Allocate(req: Request) returns (r: Outcome<()>)
      requires blockSize > 0
      modifies this, req`table
      ensures var need := UnitsFor(blockSize, req.SeqLen());
        if |old(freeBlocks)| < need
        then r == Raised(AllocateAssert) && freeBlocks == old(freeBlocks) && committed == old(committed) && req.table == old(req.table)
        else r.Ok? && freeBlocks == old(freeBlocks)[..|old(freeBlocks)| - need]
             && req.table == Popped(old(freeBlocks), need)
             && committed == old(committed)[req.id := UnitsFor(blockSize, |req.prompt| + req.maxNew)]
    {
      var need := BlocksNeeded(req.SeqLen());
      UnitsForMonotone(blockSize, 0, req.SeqLen());
      if |freeBlocks| < need {
        return Raised(AllocateAssert);
      }
      var blocks := PopBlocks(need);
      req.table := blocks;
      committed := committed[req.id := BlocksNeeded(|req.prompt| + req.maxNew)];
      return Ok(());
    }

    /** Grows the table, block by block, until it covers the token about to be fed. */
    method AppendSlot(req: Request) returns (ok: bool)
      requires blockSize > 0
      modifies this`freeBlocks, req`table
      ensures var want := Max(UnitsFor(blockSize, req.SeqLen()) - |old(req.table)|, 0);
        var got := Min(want, |old(freeBlocks)|);
        && ok == (got == want)
        && freeBlocks == old(freeBlocks)[..|old(freeBlocks)| - got]
        && req.table == old(req.table) + Popped(old(freeBlocks), got)
    {
      var need := BlocksNeeded(req.SeqLen());
      ghost var free0, table0 := freeBlocks, req.table;
      ghost var k: nat := 0;
      while |req.table| < need
        invariant k <= |free0| && freeBlocks == free0[..|free0| - k] && req.table == table0 + Popped(free0, k)
        invariant k <= Max(need - |table0|, 0)
        decreases need - |req.table|
      {
        if freeBlocks == [] {
          return false;
        }
        req.table := req.table + [freeBlocks[|freeBlocks| - 1]];
        freeBlocks := freeBlocks[..|freeBlocks| - 1];
        k := k + 1;
      }
      return true;
    }

    method Free(req: Request)
      modifies this, req`table
      ensures freeBlocks == old(freeBlocks) + Reverse(old(req.table)) && req.table == []
      ensures committed == old(committed) - {req.id}
    {
      freeBlocks := freeBlocks + Reverse(req.table);
      req.table := [];
      committed := committed - {req.id};
    }
  }

  /** Contiguous: every request reserves one full-length slot. */
  class SlotManager {
    const nSlots: nat
    const maxLen: nat
    var freeSlots: seq<nat>

    constructor (nSlots: nat, maxLen: nat)
      ensures this.nSlots == nSlots && this.maxLen == maxLen && freeSlots == Reverse(Range(nSlots))
    {
      this.nSlots, this.maxLen := nSlots, maxLen;
      freeSlots := seq(nSlots, i requires 0 <= i < nSlots => nSlots - 1 - i);
    }

    /** Does the request fit a slot? */
    predicate FitsEver(promptLen: nat, maxNew: int): (ok: bool)
      ensures ok <==> promptLen + maxNew <= maxLen
    {
      promptLen + maxNew <= maxLen
    }

    method CanAllocate(req: Request, headroom: nat) returns (ok: bool)
      ensures ok <==> |freeSlots| > 0
    {
      return |freeSlots| > 0;
    }

    method Allocate(req: Request)
      requires freeSlots != []
      modifies this`freeSlots, req`table
      ensures req.table == [Last(old(freeSlots))] && freeSlots == Init(old(freeSlots))
    {
      req.table := [freeSlots[|freeSlots| - 1]];
      freeSlots := freeSlots[..|freeSlots| - 1];
    }

    method AppendSlot(req: Request) returns (ok: bool)
      ensures ok
    {
      return true;
    }

    method Free(req: Request)
      requires |req.table| >= 1
      modifies this`freeSlots, req`table
      ensures freeSlots == old(freeSlots) + [old(req.table)[0]] && req.table == []
    {
      freeSlots := freeSlots + [req.table[0]];
      req.table := [];
    }
  }

  // ------------------------------------------------------------------ giving back undoes taking

  /** Freed blocks go back so that the next allocation hands out the same ones, in the same order. */
  lemma FreeUndoesPop(free: seq<nat>, k: nat)
    requires k <= |free|
    ensures free[..|free| - k] + Reverse(Popped(free, k)) == free
  {
    ReverseTwice(free[|free| - k..]);
  }

  lemma PopUndoesFree(free: seq<nat>, table: seq<nat>)
    ensures var free' := free + Reverse(table);
      Popped(free', |table|) == table && free'[..|free'| - |table|] == free
  {
    var free' := free + Reverse(table);
    assert free'[|free'| - |table|..] == Reverse(table);
    ReverseTwice(table);
  }

  /** Allocating and freeing a request leaves the allocator exactly as it was. */
  lemma FreeUndoesAllocate(cfg: Cfg, s: St, id: Id)
    requires cfg.Valid() && id in s.reqs && At(s.reqs, id).table == [] && id !in s.committed
    requires Allocate(cfg, s, id).Ok?
    ensures Free(Allocate(cfg, s, id).value, id) == s
  {
    var r := At(s.reqs, id);
    var need := Max(Need(cfg, r.SeqLen()), 0);
    FreeUndoesPop(s.free, need);
    var t := Allocate(cfg, s, id).value;
    assert t.committed - {id} == s.committed;
    assert t.reqs[id := At(t.reqs, id).(table := [])] == s.reqs;
  }
}
