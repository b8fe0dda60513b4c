/**
 The cache tensors: one two-dimensional array of cells per layer, written in place.

 The key and the value of a position are one cell.  A paged pool is indexed by (block, offset), a
 contiguous one by (slot, position).
 */
module Caches {
  import opened Prelude
  import opened Transformer
  import opened Storage
  import opened Attention
  import opened Forward

  type Tensor = array2<Cell>

  function Grid(n: nat, cap: nat): (g: set<Loc>)
    ensures forall q :: q in g <==> q.unit < n && q.off < cap
  {
    set u: nat, o: nat | u < n && o < cap :: Loc(u, o)
  }

  /** What a layer's tensor holds. */
  function LayerOf(a: Tensor): (r: Layer)
    reads a
    ensures Complete(a.Length0, a.Length1, r)
  {
    map q | q in Grid(a.Length0, a.Length1) :: a[q.unit, q.off]
  }

  function ViewOf(k: seq<Tensor>): (r: Pool)
    reads k
    ensures |r| == |k|
  {
    seq(|k|, l requires 0 <= l < |k| reads k => LayerOf(k[l]))
  }

  /** One tensor per layer, none shared between layers. */
  ghost predicate Shaped(k: seq<Tensor>, layers: nat, n: nat, cap: nat) {
    |k| == layers && NoDup(k) && forall l :: 0 <= l < |k| ==> k[l].Length0 == n && k[l].Length1 == cap
  }

  lemma ShapedPool(net: Net, n: nat, cap: nat, k: seq<Tensor>)
    requires Shaped(k, net.layers, n, cap)
    ensures PoolOk(net, n, cap, ViewOf(k))
  {
  }

  method Store(a: Tensor, unit: nat, off: nat, c: Cell)
    requires unit < a.Length0 && off < a.Length1
    modifies a
    ensures LayerOf(a) == old(LayerOf(a))[Loc(unit, off) := c]
  {
    a[unit, off] := c;
    assert forall q :: q in LayerOf(a) <==> q in old(LayerOf(a))[Loc(unit, off) := c];
  }

  // ------------------------------------------------------------------ rows, one at a time

  lemma WriteRowNext(cap: nat, layer: Layer, table: seq<nat>, start: nat, cells: seq<Cell>, j: nat)
    requires Covers(cap, table, start + |cells|) && j < |cells|
    ensures Covers(cap, table, start + j) && Covers(cap, table, start + j + 1) && UnitOf(cap, start + j) < |table|
    ensures WriteRow(cap, layer, table, start, cells[..j + 1])
         == WriteRow(cap, layer, table, start, cells[..j])[Place(cap, table, start + j) := cells[j]]
  {
    CoversFewer(cap, table, start + j, start + |cells|);
    CoversFewer(cap, table, start + j + 1, start + |cells|);
    CoversPositions(cap, table, start + j + 1, start + j);
    assert Init(cells[..j + 1]) == cells[..j];
  }

  lemma WriteRowsNext(cap: nat, layer: Layer, rows: seq<Row>, xs: seq<seq<Cell>>, i: nat)
    requires AllWritable(cap, rows, xs) && i < |rows|
    ensures AllWritable(cap, rows[..i], xs[..i]) && AllWritable(cap, rows[..i + 1], xs[..i + 1])
    ensures Writable(cap, rows[i], xs[i])
    ensures WriteRows(cap, layer, rows[..i + 1], xs[..i + 1])
         == WriteRow(cap, WriteRows(cap, layer, rows[..i], xs[..i]), rows[i].table, rows[i].start, xs[i][..|rows[i].toks|])
  {
    assert Init(rows[..i + 1]) == rows[..i] && Init(xs[..i + 1]) == xs[..i];
  }

  /** A row fed one token stores one cell. */
  lemma WriteOneCell(cap: nat, layer: Layer, table: seq<nat>, start: nat, cells: seq<Cell>)
    requires Covers(cap, table, start + 1) && |cells| == 1
    ensures UnitOf(cap, start) < |table|
    ensures WriteRow(cap, layer, table, start, cells) == layer[Place(cap, table, start) := cells[0]]
  {
    WriteRowNext(cap, layer, table, start, cells, 0);
    assert cells[..1] == cells && cells[..0] == [];
  }

  /** Every row feeds exactly one token into a unit it owns. */
  ghost predicate OneTokenEach(n: nat, cap: nat, rows: seq<Row>) {
    forall i :: 0 <= i < |rows| ==> OneToken(n, cap, rows[i])
  }

  ghost predicate OneToken(n: nat, cap: nat, row: Row) {
    |row.toks| == 1 && Covers(cap, row.table, row.start + 1) && forall u :: u in row.table ==> u < n
  }

  lemma WidthOne(n: nat, cap: nat, rows: seq<Row>)
    requires Fits(n, cap, rows) && AccessOf(rows).Valid() && AccessOf(rows).T() == 1
    ensures OneTokenEach(n, cap, rows)
  {
    FitsAccess(n, cap, rows);
    forall i | 0 <= i < |rows| ensures OneToken(n, cap, rows[i]) {
      assert RowFits(n, cap, rows[i]);
    }
  }

  // ------------------------------------------------------------------ the paged pool

  ghost predicate Within(units: seq<nat>, n: nat) {
    forall i :: 0 <= i < |units| ==> units[i] < n
  }

  /** The cells of a list of blocks, one block after the other. */
  function Flatten(a: Tensor, blocks: seq<nat>): seq<Cell>
    requires Within(blocks, a.Length0)
    reads a
  {
    if blocks == [] then []
    else
      var unit := blocks[0];
      seq(a.Length1, o requires 0 <= o < a.Length1 reads a => a[unit, o]) + Flatten(a, blocks[1..])
  }

  lemma {:induction false} FlattenAt(a: Tensor, blocks: seq<nat>, p: nat)
    requires Within(blocks, a.Length0) && a.Length1 > 0 && UnitOf(a.Length1, p) < |blocks|
    ensures p < |Flatten(a, blocks)|
    ensures Flatten(a, blocks)[p] == a[blocks[UnitOf(a.Length1, p)], OffsetOf(a.Length1, p)]
    decreases p
  {
    if p >= a.Length1 {
      FlattenAt(a, blocks[1..], p - a.Length1);
    }
  }

  class PagedPool {
    const numBlocks: nat
    const blockSize: nat
    const k: seq<Tensor>

    constructor (numBlocks: nat, blockSize: nat, k: seq<Tensor>)
      ensures this.numBlocks == numBlocks && this.blockSize == blockSize && this.k == k
    {
      this.numBlocks, this.blockSize, this.k := numBlocks, blockSize, k;
    }

    ghost predicate Valid(layers: nat) {
      Shaped(k, layers, numBlocks, blockSize)
    }

    /** Stores the fresh cells of one layer: one scatter when every row feeds one token, else row by row. */
    method Write(layer: nat, rows: seq<Row>, xs: seq<seq<Cell>>)
      requires layer < |k| && Valid(|k|) && Fits(numBlocks, blockSize, rows) && AllWritable(blockSize, rows, xs)
      requires AccessOf(rows).Valid()
      modifies k[layer]
      ensures LayerOf(k[layer]) == WriteRows(blockSize, old(LayerOf(k[layer])), rows, xs)
    {
      if AccessOf(rows).T() == 1 {
        WidthOne(numBlocks, blockSize, rows);
        Scatter(layer, rows, xs);
        return;
      }
      ghost var before := LayerOf(k[layer]);
      assert rows[..0] == [] && xs[..0] == [];
      for i := 0 to |rows|
        invariant AllWritable(blockSize, rows[..i], xs[..i])
        invariant LayerOf(k[layer]) == WriteRows(blockSize, before, rows[..i], xs[..i])
      {
        WriteRowsNext(blockSize, before, rows, xs, i);
        assert RowFits(numBlocks, blockSize, rows[i]);
        WriteOne(layer, rows[i].table, rows[i].start, xs[i][..|rows[i].toks|]);
      }
      assert rows[..|rows|] == rows && xs[..|rows|] == xs;
    }

    method WriteOne(layer: nat, table: seq<nat>, start: nat, cells: seq<Cell>)
      requires layer < |k| && Valid(|k|) && Covers(blockSize, table, start + |cells|)
      requires forall u :: u in table ==> u < numBlocks
      modifies k[layer]
      ensures LayerOf(k[layer]) == WriteRow(blockSize, old(LayerOf(k[layer])), table, start, cells)
    {
      ghost var before := LayerOf(k[layer]);
      CoversFewer(blockSize, table, start, start + |cells|);
      for j := 0 to |cells|
        invariant Covers(blockSize, table, start + j)
        invariant LayerOf(k[layer]) == WriteRow(blockSize, before, table, start, cells[..j])
      {
        WriteRowNext(blockSize, before, table, start, cells, j);
        UnitOfIsDivision(blockSize, start + j);
        assert table[(start + j) / blockSize] in table;
        Store(k[layer], table[(start + j) / blockSize], (start + j) % blockSize, cells[j]);
      }
      assert cells[..|cells|] == cells;
    }

    method Scatter(layer: nat, rows: seq<Row>, xs: seq<seq<Cell>>)
      requires layer < |k| && Valid(|k|) && OneTokenEach(numBlocks, blockSize, rows) && AllWritable(blockSize, rows, xs)
      modifies k[layer]
      ensures LayerOf(k[layer]) == WriteRows(blockSize, old(LayerOf(k[layer])), rows, xs)
    {
      ghost var before := LayerOf(k[layer]);
      assert rows[..0] == [] && xs[..0] == [];
      for i := 0 to |rows|
        invariant AllWritable(blockSize, rows[..i], xs[..i])
        invariant LayerOf(k[layer]) == WriteRows(blockSize, before, rows[..i], xs[..i])
      {
        WriteRowsNext(blockSize, before, rows, xs, i);
        assert OneToken(numBlocks, blockSize, rows[i]);
        ScatterOne(layer, rows[i].table, rows[i].start, xs[i][..1]);
      }
      assert rows[..|rows|] == rows && xs[..|rows|] == xs;
    }

    method ScatterOne(layer: nat, table: seq<nat>, start: nat, cells: seq<Cell>)
      requires layer < |k| && Valid(|k|) && Covers(blockSize, table, start + 1) && |cells| == 1
      requires forall u :: u in table ==> u < numBlocks
      modifies k[layer]
      ensures LayerOf(k[layer]) == WriteRow(blockSize, old(LayerOf(k[layer])), table, start, cells)
    {
      WriteOneCell(blockSize, LayerOf(k[layer]), table, start, cells);
      UnitOfIsDivision(blockSize, start);
      assert table[start / blockSize] in table;
      Store(k[layer], table[start / blockSize], start % blockSize, cells[0]);
    }

    /** The row's block table cut or padded with block 0 to the number of blocks that lk positions span. */
    function Padded(table: seq<nat>, lk: nat): (r: seq<nat>)
      requires blockSize > 0
      ensures |r| == UnitsFor(blockSize, lk)
      ensures forall i :: 0 <= i < |r| ==> r[i] == if i < |table| then table[i] else 0
    {
      UnitsForIsCeiling(blockSize, lk);
      UnitsForMonotone(blockSize, 0, lk);
      var n: int := lk;
      var nb := -((-n) / blockSize);
      var cut := table[..Min(nb, |table|)];
      cut + seq(nb - |cut|, _ => 0)
    }

    /** Copies whole blocks, then drops the tail of the last one: the same cells as reading position by position. */
    function GatherRow(layer: nat, table: seq<nat>, lk: nat): (r: seq<Cell>)
      requires layer < |k| && Valid(|k|) && blockSize > 0 && numBlocks > 0 && Within(table, numBlocks)
      reads k[layer]
      ensures forall j :: 0 <= j < lk ==> PaddedPlace(blockSize, table, j) in LayerOf(k[layer])
      ensures r == Gather(blockSize, LayerOf(k[layer]), table, lk)
    {
      GatherRowFacts(layer, table, lk);
      Flatten(k[layer], Padded(table, lk))[..lk]
    }

    lemma GatherAt(layer: nat, table: seq<nat>, lk: nat, j: nat)
      requires layer < |k| && Valid(|k|) && blockSize > 0 && numBlocks > 0 && Within(table, numBlocks) && j < lk
      ensures Within(Padded(table, lk), numBlocks) && j < |Flatten(k[layer], Padded(table, lk))|
      ensures PaddedPlace(blockSize, table, j) in LayerOf(k[layer])
      ensures Flatten(k[layer], Padded(table, lk))[j] == LayerOf(k[layer])[PaddedPlace(blockSize, table, j)]
    {
      UnitOfMonotone(blockSize, j, lk - 1);
      FlattenAt(k[layer], Padded(table, lk), j);
    }

    lemma GatherRowFacts(layer: nat, table: seq<nat>, lk: nat)
      requires layer < |k| && Valid(|k|) && blockSize > 0 && numBlocks > 0 && Within(table, numBlocks)
      ensures Within(Padded(table, lk), numBlocks)
      ensures forall j :: 0 <= j < lk ==> PaddedPlace(blockSize, table, j) in LayerOf(k[layer])
      ensures |Flatten(k[layer], Padded(table, lk))| >= lk
      ensures Flatten(k[layer], Padded(table, lk))[..lk] == Gather(blockSize, LayerOf(k[layer]), table, lk)
    {
      hide Padded, Flatten, PaddedPlace, LayerOf, Within;
      if lk > 0 {
        GatherAt(layer, table, lk, lk - 1);
      } else {
        NothingPadded(table);
      }
      forall j | 0 <= j < lk
        ensures PaddedPlace(blockSize, table, j) in LayerOf(k[layer])
        ensures j < |Flatten(k[layer], Padded(table, lk))|
                && Flatten(k[layer], Padded(table, lk))[j] == LayerOf(k[layer])[PaddedPlace(blockSize, table, j)]
      {
        GatherAt(layer, table, lk, j);
      }
    }

    lemma NothingPadded(table: seq<nat>)
      requires blockSize > 0
      ensures Within(Padded(table, 0), numBlocks)
    {
    }
  }

  // ------------------------------------------------------------------ the slot pool

  /** Within one slot, position p is offset p. */
  lemma OneUnit(cap: nat, p: nat)
    requires p < cap
    ensures UnitOf(cap, p) == 0 && OffsetOf(cap, p) == p
  {
  }

  lemma OneSlotTotal(cap: nat, table: seq<nat>, n: nat)
    requires Covers(cap, table, n) && |table| == 1
    ensures n <= cap
  {
    UnitOfMonotone(cap, cap, Max(n - 1, cap));
  }

  class SlotPool {
    const nSlots: nat
    const maxLen: nat
    const k: seq<Tensor>

    constructor (nSlots: nat, maxLen: nat, k: seq<Tensor>)
      ensures this.nSlots == nSlots && this.maxLen == maxLen && this.k == k
    {
      this.nSlots, this.maxLen, this.k := nSlots, maxLen, k;
    }

    ghost predicate Valid(layers: nat) {
      Shaped(k, layers, nSlots, maxLen)
    }

    /** Every row is one slot. */
    ghost predicate OneSlotEach(rows: seq<Row>) {
      forall i :: 0 <= i < |rows| ==> |rows[i].table| == 1
    }

    method Write(layer: nat, rows: seq<Row>, xs: seq<seq<Cell>>)
      requires layer < |k| && Valid(|k|) && Fits(nSlots, maxLen, rows) && AllWritable(maxLen, rows, xs)
      requires AccessOf(rows).Valid() && OneSlotEach(rows)
      modifies k[layer]
      ensures LayerOf(k[layer]) == WriteRows(maxLen, old(LayerOf(k[layer])), rows, xs)
    {
      if AccessOf(rows).T() == 1 {
        WidthOne(nSlots, maxLen, rows);
        Scatter(layer, rows, xs);
        return;
      }
      ghost var before := LayerOf(k[layer]);
      assert rows[..0] == [] && xs[..0] == [];
      for i := 0 to |rows|
        invariant AllWritable(maxLen, rows[..i], xs[..i])
        invariant LayerOf(k[layer]) == WriteRows(maxLen, before, rows[..i], xs[..i])
      {
        WriteRowsNext(maxLen, before, rows, xs, i);
        assert RowFits(nSlots, maxLen, rows[i]);
        assert rows[i].table == [rows[i].table[0]] && rows[i].table[0] in rows[i].table;
        WriteOne(layer, rows[i].table[0], rows[i].start, xs[i][..|rows[i].toks|]);
      }
      assert rows[..|rows|] == rows && xs[..|rows|] == xs;
    }

    method WriteOne(layer: nat, slot: nat, start: nat, cells: seq<Cell>)
      requires layer < |k| && Valid(|k|) && slot < nSlots && Covers(maxLen, [slot], start + |cells|)
      modifies k[layer]
      ensures LayerOf(k[layer]) == WriteRow(maxLen, old(LayerOf(k[layer])), [slot], start, cells)
    {
      ghost var before := LayerOf(k[layer]);
      CoversFewer(maxLen, [slot], start, start + |cells|);
      OneSlotTotal(maxLen, [slot], start + |cells|);
      for j := 0 to |cells|
        invariant Covers(maxLen, [slot], start + j)
        invariant LayerOf(k[layer]) == WriteRow(maxLen, before, [slot], start, cells[..j])
      {
        WriteRowNext(maxLen, before, [slot], start, cells, j);
        OneUnit(maxLen, start + j);
        Store(k[layer], slot, start + j, cells[j]);
      }
      assert cells[..|cells|] == cells;
    }

    method Scatter(layer: nat, rows: seq<Row>, xs: seq<seq<Cell>>)
      requires layer < |k| && Valid(|k|) && OneTokenEach(nSlots, maxLen, rows) && AllWritable(maxLen, rows, xs)
      requires OneSlotEach(rows)
      modifies k[layer]
      ensures LayerOf(k[layer]) == WriteRows(maxLen, old(LayerOf(k[layer])), rows, xs)
    {
      ghost var before := LayerOf(k[layer]);
      assert rows[..0] == [] && xs[..0] == [];
      for i := 0 to |rows|
        invariant AllWritable(maxLen, rows[..i], xs[..i])
        invariant LayerOf(k[layer]) == WriteRows(maxLen, before, rows[..i], xs[..i])
      {
        WriteRowsNext(maxLen, before, rows, xs, i);
        assert OneToken(nSlots, maxLen, rows[i]);
        assert rows[i].table == [rows[i].table[0]] && rows[i].table[0] in rows[i].table;
        ScatterOne(layer, rows[i].table[0], rows[i].start, xs[i][..1]);
      }
      assert rows[..|rows|] == rows && xs[..|rows|] == xs;
    }

    method ScatterOne(layer: nat, slot: nat, start: nat, cells: seq<Cell>)
      requires layer < |k| && Valid(|k|) && slot < nSlots && Covers(maxLen, [slot], start + 1) && |cells| == 1
      modifies k[layer]
      ensures LayerOf(k[layer]) == WriteRow(maxLen, old(LayerOf(k[layer])), [slot], start, cells)
    {
      WriteOneCell(maxLen, LayerOf(k[layer]), [slot], start, cells);
      OneSlotTotal(maxLen, [slot], start + 1);
      OneUnit(maxLen, start);
      Store(k[layer], slot, start, cells[0]);
    }

    function GatherRow(layer: nat, slot: nat, lk: nat): (r: seq<Cell>)
      requires layer < |k| && Valid(|k|) && slot < nSlots && lk <= maxLen && maxLen > 0
      reads k[layer]
      ensures forall j :: 0 <= j < lk ==> PaddedPlace(maxLen, [slot], j) in LayerOf(k[layer])
      ensures r == Gather(maxLen, LayerOf(k[layer]), [slot], lk)
    {
      assert forall j :: 0 <= j < lk ==> PaddedPlace(maxLen, [slot], j) == Loc(slot, j);
      seq(lk, j requires 0 <= j < lk reads k[layer] => k[layer][slot, j])
    }
  }
}
