/** The model runner: the naive loop, single-sequence cached generation, and the batched step. */
module Runner {
  import opened Transformer
  import opened Storage
  import opened Attention
  import opened Forward
  import opened Scheduling
  import opened Requests
  import opened Caches

  // ------------------------------------------------------------------ batched step

  /** The pool behind the batched step. */
  datatype KvPool = Paged(paged: PagedPool) | Contiguous(slots: SlotPool) {
    function Tensors(): seq<Tensor> {
      if Paged? then paged.k else slots.k
    }

    function Units(): nat {
      if Paged? then paged.numBlocks else slots.nSlots
    }

    function Cap(): nat {
      if Paged? then paged.blockSize else slots.maxLen
    }

    ghost predicate Valid(layers: nat) {
      Shaped(Tensors(), layers, Units(), Cap())
    }

    function View(): Pool
      reads Tensors()
    {
      ViewOf(Tensors())
    }

    /** Slot-backed rows list exactly one slot. */
    ghost predicate Accepts(rows: seq<Row>) {
      Fits(Units(), Cap(), rows) && (Contiguous? ==> forall i :: 0 <= i < |rows| ==> |rows[i].table| == 1)
    }
  }

  class ModelRunner {
    const net: Net

    constructor (net: Net)
      ensures this.net == net
    {
      this.net := net;
    }

    /** Stores the fresh cells of layer l for every row. */
    method Write(pool: KvPool, l: nat, rows: seq<Row>, xs: seq<seq<Cell>>)
      requires pool.Valid(net.layers) && l < net.layers && pool.Accepts(rows) && AccessOf(rows).Valid()
      requires AllWritable(pool.Cap(), rows, xs)
      modifies pool.Tensors()[l]
      ensures LayerOf(pool.Tensors()[l]) == WriteRows(pool.Cap(), old(LayerOf(pool.Tensors()[l])), rows, xs)
    {
      match pool
      case Paged(p) => p.Write(l, rows, xs);
      case Contiguous(s) => s.Write(l, rows, xs);
    }

    /** The keys of one row, gathered into a contiguous buffer. */
    method GatherKeys(pool: KvPool, l: nat, rows: seq<Row>, i: nat) returns (keys: seq<Cell>)
      requires pool.Valid(net.layers) && l < net.layers && pool.Accepts(rows) && i < |rows| && AccessOf(rows).Valid()
      ensures forall j :: 0 <= j < AccessOf(rows).Lk() ==> PaddedPlace(pool.Cap(), rows[i].table, j) in LayerOf(pool.Tensors()[l])
      ensures keys == Gather(pool.Cap(), LayerOf(pool.Tensors()[l]), rows[i].table, AccessOf(rows).Lk())
    {
      assert RowFits(pool.Units(), pool.Cap(), rows[i]);
      match pool
      case Paged(p) =>
        assert forall j :: 0 <= j < |rows[i].table| ==> rows[i].table[j] in rows[i].table;
        keys := p.GatherRow(l, rows[i].table, AccessOf(rows).Lk());
      case Contiguous(s) =>
        LongestFitsSlot(s, rows);
        assert rows[i].table[0] in rows[i].table;
        assert rows[i].table == [rows[i].table[0]];
        keys := s.GatherRow(l, rows[i].table[0], AccessOf(rows).Lk());
    }

    /** The queries of one row attend to the keys their mask lets through. */
    method AttendOne(pool: KvPool, l: nat, rows: seq<Row>, i: nat, x: seq<Hidden>) returns (row: seq<Hidden>)
      requires pool.Valid(net.layers) && l < net.layers && pool.Accepts(rows) && i < |rows|
      requires AccessOf(rows).Valid() && |x| == AccessOf(rows).T()
      requires CanGather(pool.Units(), pool.Cap(), LayerOf(pool.Tensors()[l]), rows[i])
      ensures row == AttendRow(net, pool.Units(), pool.Cap(), AccessOf(rows), LayerOf(pool.Tensors()[l]), rows[i], l, i, x)
    {
      hide CanGather, LayerOf, Gather;
      var acc := AccessOf(rows);
      var keys := GatherKeys(pool, l, rows, i);
      var mask := acc.BuildMask(acc.Lk());
      row := seq(|x|, t requires 0 <= t < |x| => net.mix(l, x[t], acc.Visible(mask, i, t, keys)));
    }

    /** Every row attends. */
    method AttendAll(pool: KvPool, l: nat, rows: seq<Row>, x: seq<seq<Hidden>>) returns (y: seq<seq<Hidden>>)
      requires pool.Valid(net.layers) && l < net.layers && pool.Accepts(rows)
      requires AccessOf(rows).Valid() && Rect(|rows|, AccessOf(rows).T(), x)
      requires forall i :: 0 <= i < |rows| ==> CanGather(pool.Units(), pool.Cap(), LayerOf(pool.Tensors()[l]), rows[i])
      ensures y == Attend(net, pool.Units(), pool.Cap(), AccessOf(rows), LayerOf(pool.Tensors()[l]), rows, l, x)
    {
      hide CanGather, LayerOf, AttendRow, AccessOf;
      ghost var want := Attend(net, pool.Units(), pool.Cap(), AccessOf(rows), LayerOf(pool.Tensors()[l]), rows, l, x);
      y := [];
      for i := 0 to |rows|
        invariant y == want[..i]
      {
        var row := AttendOne(pool, l, rows, i, x[i]);
        assert want[i] == row;
        y := y + [row];
      }
    }

    /** One forward step for a batch; returns the greedy next token of each row. */
    method StepTokens(pool: KvPool, rows: seq<Row>) returns (toks: seq<Token>)
      requires pool.Valid(net.layers) && pool.Accepts(rows)
      modifies pool.Tensors()
      ensures PoolOk(net, pool.Units(), pool.Cap(), old(pool.View()))
      ensures (pool.View(), toks) == Forward.Run(net, pool.Units(), pool.Cap(), old(pool.View()), rows)
    {
      hide Fits, Complete, LayerOf, Attend, After, LayerStep, Fresh, Embed, Rect, WriteRows;
      var n, cap, k := pool.Units(), pool.Cap(), pool.Tensors();
      ghost var pool0 := pool.View();
      ShapedPool(net, n, cap, k);
      FitsAccess(n, cap, rows);
      var acc := AccessOf(rows);
      var x := Embed(net, acc, rows);
      AfterStart(net, n, cap, pool0, rows);
      for l := 0 to net.layers
        invariant (pool.View(), x) == After(net, n, cap, pool0, rows, l)
      {
        x := RunLayer(pool, rows, l, x);
        AfterUnfold(net, n, cap, pool0, rows, l + 1);
      }
      RowsNonEmpty(net, n, cap, pool0, rows);
      toks := Heads(net, rows, x);
    }

    /** Store, gather, attend. */
    method RunLayer(pool: KvPool, rows: seq<Row>, l: nat, x: seq<seq<Hidden>>) returns (y: seq<seq<Hidden>>)
      requires pool.Valid(net.layers) && pool.Accepts(rows) && l < net.layers
      requires Workable(net, pool.Units(), pool.Cap(), rows, pool.View(), x)
      modifies pool.Tensors()[l]
      ensures (pool.View(), y) == LayerStep(net, pool.Units(), pool.Cap(), rows, l, old(pool.View()), x)
    {
      var n, cap, k := pool.Units(), pool.Cap(), pool.Tensors();
      var cells := Fresh(net, l, x);
      FreshWritable(net, n, cap, rows, l, x);
      ghost var before := pool.View();
      Write(pool, l, rows, cells);
      forall i | 0 <= i < |k| && i != l ensures pool.View()[i] == before[i] {
        assert k[i] != k[l];
      }
      assert pool.View() == before[l := LayerOf(k[l])];
      AllCanGather(n, cap, LayerOf(k[l]), rows);
      y := AttendAll(pool, l, rows, x);
    }
  }

  lemma LongestFitsSlot(s: SlotPool, rows: seq<Row>)
    requires Fits(s.nSlots, s.maxLen, rows) && AccessOf(rows).Valid()
    requires forall i :: 0 <= i < |rows| ==> |rows[i].table| == 1
    ensures AccessOf(rows).Lk() <= s.maxLen
  {
    FitsAccess(s.nSlots, s.maxLen, rows);
    var a := AccessOf(rows);
    var i :| 0 <= i < |a.ns| && a.Total(i) == a.Lk();
    assert RowFits(s.nSlots, s.maxLen, rows[i]);
    OneSlotTotal(s.maxLen, rows[i].table, rows[i].Total());
  }

  lemma AfterStart(net: Net, n: nat, cap: nat, pool: Pool, rows: seq<Row>)
    requires Fits(n, cap, rows) && PoolOk(net, n, cap, pool)
    ensures AccessOf(rows).Valid() && After(net, n, cap, pool, rows, 0) == (pool, Embed(net, AccessOf(rows), rows))
  {
    FitsAccess(n, cap, rows);
  }

  lemma RowsNonEmpty(net: Net, n: nat, cap: nat, pool: Pool, rows: seq<Row>)
    requires Fits(n, cap, rows) && PoolOk(net, n, cap, pool)
    ensures var (pool', x) := After(net, n, cap, pool, rows, net.layers);
      |x| == |rows| && (forall i :: 0 <= i < |rows| ==> 0 < |rows[i].toks| <= |x[i]|)
      && Forward.Run(net, n, cap, pool, rows) == (pool', Heads(net, rows, x))
  {
    FitsAccess(n, cap, rows);
    assert forall i :: 0 <= i < |rows| ==> RowFits(n, cap, rows[i]);
  }
}
