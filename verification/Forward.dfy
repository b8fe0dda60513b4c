/**
 One batched forward step over paged storage, layer by layer, and why it is right.

 The step is stated as the code runs it: token ids padded to a rectangle, one position per column,
 every layer first storing the fresh cells through the block tables and then gathering each row's
 keys (padded with unit 0) and attending through the mask.
 */
module Forward {
  import opened Prelude
  import opened Transformer
  import opened Storage
  import opened Attention

  function AccessOf(rows: seq<Row>): (a: Access)
    ensures |a.starts| == |a.ns| == |rows|
  {
    Access(seq(|rows|, i requires 0 <= i < |rows| => rows[i].start),
           seq(|rows|, i requires 0 <= i < |rows| => |rows[i].toks|))
  }

  ghost predicate PoolOk(net: Net, n: nat, cap: nat, pool: Pool) {
    |pool| == net.layers && forall l :: 0 <= l < |pool| ==> Complete(n, cap, pool[l])
  }

  lemma FitsAccess(n: nat, cap: nat, rows: seq<Row>)
    requires Fits(n, cap, rows)
    ensures AccessOf(rows).Valid()
    ensures forall i :: 0 <= i < |rows| ==> |rows[i].toks| <= AccessOf(rows).T()
    ensures forall i :: 0 <= i < |rows| ==> rows[i].Total() == AccessOf(rows).Total(i) <= AccessOf(rows).Lk()
  {
    var a := AccessOf(rows);
    forall i | 0 <= i < |rows| ensures a.ns[i] > 0 && a.ns[i] == |rows[i].toks| && a.starts[i] == rows[i].start {
      assert RowFits(n, cap, rows[i]);
    }
  }

  /** Token id in column t of a row; pad columns hold token 0. */
  function PadTok(row: Row, t: nat): Token {
    if t < |row.toks| then row.toks[t] else 0
  }

  /** A rectangle of hidden states: one row per request, one column per padded position. */
  ghost predicate Rect<X>(b: nat, t: nat, x: seq<seq<X>>) {
    |x| == b && forall i :: 0 <= i < |x| ==> |x[i]| == t
  }

  function EmbedRow(net: Net, a: Access, rows: seq<Row>, i: nat): seq<Hidden>
    requires a.Valid() && |a.ns| == |rows| && i < |rows|
  {
    seq(a.T(), t requires 0 <= t < a.T() => net.embed(PadTok(rows[i], t), a.Position(i, t)))
  }

  function Embed(net: Net, a: Access, rows: seq<Row>): (x: seq<seq<Hidden>>)
    requires a.Valid() && |a.ns| == |rows|
    ensures Rect(|rows|, a.T(), x)
  {
    seq(|rows|, i requires 0 <= i < |rows| => EmbedRow(net, a, rows, i))
  }

  function KvRow(net: Net, l: nat, x: seq<Hidden>): seq<Cell> {
    seq(|x|, t requires 0 <= t < |x| => net.kv(l, x[t]))
  }

  /** The fresh cells of layer l, pad columns included. */
  function Fresh(net: Net, l: nat, x: seq<seq<Hidden>>): (r: seq<seq<Cell>>)
    ensures |r| == |x| && forall i :: 0 <= i < |x| ==> |r[i]| == |x[i]|
  {
    seq(|x|, i requires 0 <= i < |x| => KvRow(net, l, x[i]))
  }

  ghost predicate CanGather(n: nat, cap: nat, layer: Layer, row: Row) {
    cap > 0 && n > 0 && Complete(n, cap, layer) && forall u :: u in row.table ==> u < n
  }

  lemma GatherInRange(n: nat, cap: nat, layer: Layer, row: Row, j: nat)
    requires CanGather(n, cap, layer, row)
    ensures PaddedPlace(cap, row.table, j) in layer
  {
    if UnitOf(cap, j) < |row.table| {
      assert row.table[UnitOf(cap, j)] in row.table;
    }
  }

  /** Hidden states of one row after layer l: each query mixes its own state with the keys it sees. */
  function AttendRow(net: Net, n: nat, cap: nat, a: Access, layer: Layer, row: Row, l: nat, i: nat, x: seq<Hidden>): (r: seq<Hidden>)
    requires a.Valid() && i < |a.ns| && |x| == a.T() && CanGather(n, cap, layer, row)
    ensures |r| == |x|
  {
    forall j | 0 <= j < a.Lk() { GatherInRange(n, cap, layer, row, j); }
    var keys := Gather(cap, layer, row.table, a.Lk());
    seq(|x|, t requires 0 <= t < |x| => net.mix(l, x[t], a.Visible(a.BuildMask(a.Lk()), i, t, keys)))
  }

  function Attend(net: Net, n: nat, cap: nat, a: Access, layer: Layer, rows: seq<Row>, l: nat, x: seq<seq<Hidden>>): (r: seq<seq<Hidden>>)
    requires a.Valid() && |a.ns| == |rows| && Rect(|rows|, a.T(), x)
    requires forall i :: 0 <= i < |rows| ==> CanGather(n, cap, layer, rows[i])
    ensures Rect(|rows|, a.T(), r)
  {
    seq(|rows|, i requires 0 <= i < |rows| => AttendRow(net, n, cap, a, layer, rows[i], l, i, x[i]))
  }

  /** Layer l's storage after the step has written it. */
  function Stored(net: Net, n: nat, cap: nat, layer: Layer, rows: seq<Row>, l: nat, x: seq<seq<Hidden>>): (r: Layer)
    requires Fits(n, cap, rows) && Complete(n, cap, layer) && AccessOf(rows).Valid() && Rect(|rows|, AccessOf(rows).T(), x)
    ensures Complete(n, cap, r)
  {
    FitsAccess(n, cap, rows);
    FreshWritable(net, n, cap, rows, l, x);
    WriteRowsComplete(n, cap, layer, rows, Fresh(net, l, x));
    WriteRows(cap, layer, rows, Fresh(net, l, x))
  }

  lemma FreshWritable(net: Net, n: nat, cap: nat, rows: seq<Row>, l: nat, x: seq<seq<Hidden>>)
    requires Fits(n, cap, rows) && Rect(|rows|, AccessOf(rows).T(), x)
    ensures AllWritable(cap, rows, Fresh(net, l, x))
  {
    FitsAccess(n, cap, rows);
    forall i | 0 <= i < |rows| ensures Writable(cap, rows[i], Fresh(net, l, x)[i]) {
      assert RowFits(n, cap, rows[i]);
    }
  }

  lemma AllCanGather(n: nat, cap: nat, layer: Layer, rows: seq<Row>)
    requires Fits(n, cap, rows) && Complete(n, cap, layer)
    ensures forall i :: 0 <= i < |rows| ==> CanGather(n, cap, layer, rows[i])
  {
    assert forall i :: 0 <= i < |rows| ==> RowFits(n, cap, rows[i]);
  }

  /** A pool and a rectangle of hidden states that the next layer can work on. */
  ghost predicate Workable(net: Net, n: nat, cap: nat, rows: seq<Row>, pool: Pool, x: seq<seq<Hidden>>) {
    Fits(n, cap, rows) && PoolOk(net, n, cap, pool) && AccessOf(rows).Valid() && Rect(|rows|, AccessOf(rows).T(), x)
  }

  /** Layer l: store, gather, attend. */
  function LayerStep(net: Net, n: nat, cap: nat, rows: seq<Row>, l: nat, pool: Pool, x: seq<seq<Hidden>>): (r: (Pool, seq<seq<Hidden>>))
    requires Workable(net, n, cap, rows, pool, x) && l < net.layers
    ensures Workable(net, n, cap, rows, r.0, r.1)
  {
    var layer := Stored(net, n, cap, pool[l], rows, l, x);
    AllCanGather(n, cap, layer, rows);
    (pool[l := layer], Attend(net, n, cap, AccessOf(rows), layer, rows, l, x))
  }

  /** Pool and hidden states after the first l layers of a step. */
  function After(net: Net, n: nat, cap: nat, pool: Pool, rows: seq<Row>, l: nat): (r: (Pool, seq<seq<Hidden>>))
    requires Fits(n, cap, rows) && PoolOk(net, n, cap, pool) && l <= net.layers
    ensures Workable(net, n, cap, rows, r.0, r.1)
  {
    if l == 0 then
      FitsAccess(n, cap, rows);
      (pool, Embed(net, AccessOf(rows), rows))
    else
      var (pool', x) := After(net, n, cap, pool, rows, l - 1);
      LayerStep(net, n, cap, rows, l - 1, pool', x)
  }

  /** The head reads the last real column of each row. */
  function Heads(net: Net, rows: seq<Row>, x: seq<seq<Hidden>>): (r: seq<Token>)
    requires |x| == |rows| && forall i :: 0 <= i < |rows| ==> 0 < |rows[i].toks| <= |x[i]|
    ensures |r| == |rows|
  {
    seq(|rows|, i requires 0 <= i < |rows| => net.head(x[i][|rows[i].toks| - 1]))
  }

  function Run(net: Net, n: nat, cap: nat, pool: Pool, rows: seq<Row>): (r: (Pool, seq<Token>))
    requires Fits(n, cap, rows) && PoolOk(net, n, cap, pool)
    ensures PoolOk(net, n, cap, r.0) && |r.1| == |rows|
  {
    FitsAccess(n, cap, rows);
    var (pool', x) := After(net, n, cap, pool, rows, net.layers);
    assert forall i :: 0 <= i < |rows| ==> RowFits(n, cap, rows[i]);
    (pool', Heads(net, rows, x))
  }

  // ------------------------------------------------------------------ correctness

  /** Layers of `pool` hold, at positions 0 .. upto-1 of `table`, the cells of `toks`. */
  ghost predicate LayerHolds(net: Net, cap: nat, layer: Layer, l: nat, table: seq<nat>, toks: seq<Token>, upto: nat) {
    && cap > 0 && upto <= |toks|
    && forall p :: 0 <= p < upto ==>
         UnitOf(cap, p) < |table| && Place(cap, table, p) in layer
         && layer[Place(cap, table, p)] == CellAt(net, toks, l, p)
  }

  ghost predicate Holds(net: Net, cap: nat, pool: Pool, table: seq<nat>, toks: seq<Token>, upto: nat) {
    |pool| == net.layers && forall l :: 0 <= l < net.layers ==> LayerHolds(net, cap, pool[l], l, table, toks, upto)
  }

  /** Row i of the step feeds the last tokens of `full`, whose earlier cells are already stored. */
  ghost predicate Feeds(row: Row, full: seq<Token>) {
    |full| == row.Total() && row.toks == full[row.start..] && row.Total() <= MAX_LEN
  }

  ghost predicate AllFeed(rows: seq<Row>, fulls: seq<seq<Token>>) {
    |fulls| == |rows| && forall i :: 0 <= i < |rows| ==> Feeds(rows[i], fulls[i])
  }

  /** Real columns carry the hidden states of a full recomputation. */
  ghost predicate RowRight(net: Net, row: Row, full: seq<Token>, l: nat, x: seq<Hidden>) {
    Feeds(row, full) && |row.toks| <= |x|
    && forall t :: 0 <= t < |row.toks| ==> x[t] == HiddenAt(net, full, l, row.start + t)
  }

  ghost predicate AllRight(net: Net, rows: seq<Row>, fulls: seq<seq<Token>>, l: nat, x: seq<seq<Hidden>>) {
    |fulls| == |rows| == |x| && forall i :: 0 <= i < |rows| ==> RowRight(net, rows[i], fulls[i], l, x[i])
  }

  lemma EmbedRowRight(net: Net, a: Access, rows: seq<Row>, i: nat, full: seq<Token>)
    requires a.Valid() && |a.ns| == |rows| && i < |rows| && Feeds(rows[i], full)
    requires a.starts[i] == rows[i].start && a.ns[i] == |rows[i].toks|
    ensures RowRight(net, rows[i], full, 0, EmbedRow(net, a, rows, i))
  {
    forall t | 0 <= t < |rows[i].toks|
      ensures EmbedRow(net, a, rows, i)[t] == HiddenAt(net, full, 0, rows[i].start + t)
    {
      var p := rows[i].start + t;
      assert rows[i].toks[t] == full[rows[i].start..][t] == full[p];
      assert p < rows[i].Total() <= MAX_LEN;
      assert a.Position(i, t) == p;
      assert t < a.T();
      assert EmbedRow(net, a, rows, i)[t] == net.embed(PadTok(rows[i], t), a.Position(i, t));
      assert HiddenAt(net, full, 0, p) == net.embed(full[p], p);
    }
  }

  lemma EmbedRight(net: Net, n: nat, cap: nat, rows: seq<Row>, fulls: seq<seq<Token>>)
    requires Fits(n, cap, rows) && AllFeed(rows, fulls)
    ensures AccessOf(rows).Valid()
    ensures AllRight(net, rows, fulls, 0, Embed(net, AccessOf(rows), rows))
  {
    FitsAccess(n, cap, rows);
    forall i | 0 <= i < |rows|
      ensures RowRight(net, rows[i], fulls[i], 0, Embed(net, AccessOf(rows), rows)[i])
    {
      assert Feeds(rows[i], fulls[i]);
      EmbedRowRight(net, AccessOf(rows), rows, i, fulls[i]);
    }
  }

  /** After storing layer l, the row's positions hold the cells of the whole sequence fed so far. */
  lemma StoredHolds(net: Net, n: nat, cap: nat, layer: Layer, rows: seq<Row>, fulls: seq<seq<Token>>, l: nat, x: seq<seq<Hidden>>, i: nat)
    requires Fits(n, cap, rows) && Apart(rows) && Complete(n, cap, layer) && Rect(|rows|, AccessOf(rows).T(), x)
    requires AllRight(net, rows, fulls, l, x) && i < |rows|
    requires LayerHolds(net, cap, layer, l, rows[i].table, fulls[i], rows[i].start)
    ensures LayerHolds(net, cap, Stored(net, n, cap, layer, rows, l, x), l, rows[i].table, fulls[i], rows[i].Total())
  {
    hide Fits, Apart, Rect, AllRight, Complete, WriteRows, Fresh;
    FitsAccess(n, cap, rows);
    var after := Stored(net, n, cap, layer, rows, l, x);
    RowOf(net, rows, fulls, l, x, i);
    forall p | 0 <= p < rows[i].Total()
      ensures UnitOf(cap, p) < |rows[i].table| && Place(cap, rows[i].table, p) in after
      ensures after[Place(cap, rows[i].table, p)] == CellAt(net, fulls[i], l, p)
    {
      StoredCell(net, n, cap, layer, rows, l, x, i, p);
      if rows[i].start <= p {
        assert x[i][p - rows[i].start] == HiddenAt(net, fulls[i], l, p);
      }
    }
  }

  lemma RowOf(net: Net, rows: seq<Row>, fulls: seq<seq<Token>>, l: nat, x: seq<seq<Hidden>>, i: nat)
    requires AllRight(net, rows, fulls, l, x) && i < |rows|
    ensures |fulls| == |rows| == |x| && RowRight(net, rows[i], fulls[i], l, x[i])
  {
  }

  /** Position p of row i after the write: its own fresh cell, or what was there before. */
  lemma StoredCell(net: Net, n: nat, cap: nat, layer: Layer, rows: seq<Row>, l: nat, x: seq<seq<Hidden>>, i: nat, p: nat)
    requires Fits(n, cap, rows) && Apart(rows) && Complete(n, cap, layer) && AccessOf(rows).Valid()
    requires Rect(|rows|, AccessOf(rows).T(), x) && |x| == |rows| && i < |rows| && p < rows[i].Total() && |rows[i].toks| <= |x[i]|
    ensures UnitOf(cap, p) < |rows[i].table|
    ensures var after, at := Stored(net, n, cap, layer, rows, l, x), Place(cap, rows[i].table, p);
      if rows[i].start <= p then at in after && after[at] == net.kv(l, x[i][p - rows[i].start])
      else at in layer ==> at in after && after[at] == layer[at]
  {
    FreshWritable(net, n, cap, rows, l, x);
    WriteRowsReads(cap, layer, rows, Fresh(net, l, x), i, p);
  }

  /** Reading through the table, the mask leaves exactly the row's own cells, so layer l+1 is right. */
  lemma AttendRight(net: Net, n: nat, cap: nat, a: Access, layer: Layer, row: Row, full: seq<Token>, l: nat, i: nat, x: seq<Hidden>)
    requires a.Valid() && i < |a.ns| && a.starts[i] == row.start && a.ns[i] == |row.toks|
    requires |x| == a.T() && CanGather(n, cap, layer, row)
    requires RowRight(net, row, full, l, x)
    requires LayerHolds(net, cap, layer, l, row.table, full, row.Total())
    ensures RowRight(net, row, full, l + 1, AttendRow(net, n, cap, a, layer, row, l, i, x))
  {
    forall j | 0 <= j < a.Lk() { GatherInRange(n, cap, layer, row, j); }
    var keys := Gather(cap, layer, row.table, a.Lk());
    var r := AttendRow(net, n, cap, a, layer, row, l, i, x);
    forall t | 0 <= t < |row.toks| ensures r[t] == HiddenAt(net, full, l + 1, row.start + t) {
      var p := row.start + t;
      a.VisiblePrefix(a.BuildMask(a.Lk()), i, t, keys);
      assert a.Total(i) <= a.Lk();
      forall j | 0 <= j < p + 1 ensures keys[j] == CellAt(net, full, l, j) {
        assert PaddedPlace(cap, row.table, j) == Place(cap, row.table, j);
      }
      assert keys[..p + 1] == Cells(net, full, l, p + 1);
    }
  }

  /** Layers below l hold the row's whole sequence; the others hold what was there before the step. */
  ghost predicate RowProgress(net: Net, cap: nat, pool: Pool, row: Row, full: seq<Token>, l: nat) {
    |pool| == net.layers
    && forall k :: 0 <= k < net.layers ==>
         LayerHolds(net, cap, pool[k], k, row.table, full, if k < l then row.Total() else row.start)
  }

  ghost predicate Progress(net: Net, cap: nat, pool: Pool, rows: seq<Row>, fulls: seq<seq<Token>>, l: nat) {
    |fulls| == |rows| && forall i :: 0 <= i < |rows| ==> RowProgress(net, cap, pool, rows[i], fulls[i], l)
  }

  lemma StoreProgress(net: Net, n: nat, cap: nat, pool: Pool, rows: seq<Row>, fulls: seq<seq<Token>>, l: nat, x: seq<seq<Hidden>>)
    requires Fits(n, cap, rows) && Apart(rows) && PoolOk(net, n, cap, pool) && l < net.layers
    requires Rect(|rows|, AccessOf(rows).T(), x) && AllRight(net, rows, fulls, l, x)
    requires Progress(net, cap, pool, rows, fulls, l)
    ensures Progress(net, cap, pool[l := Stored(net, n, cap, pool[l], rows, l, x)], rows, fulls, l + 1)
  {
    var pool' := pool[l := Stored(net, n, cap, pool[l], rows, l, x)];
    forall i | 0 <= i < |rows| ensures RowProgress(net, cap, pool', rows[i], fulls[i], l + 1) {
      assert RowProgress(net, cap, pool, rows[i], fulls[i], l);
      StoredHolds(net, n, cap, pool[l], rows, fulls, l, x, i);
    }
  }

  lemma AttendAllRight(net: Net, n: nat, cap: nat, layer: Layer, rows: seq<Row>, fulls: seq<seq<Token>>, l: nat, x: seq<seq<Hidden>>)
    requires Fits(n, cap, rows) && Rect(|rows|, AccessOf(rows).T(), x) && AllRight(net, rows, fulls, l, x)
    requires forall i :: 0 <= i < |rows| ==> CanGather(n, cap, layer, rows[i])
    requires forall i :: 0 <= i < |rows| ==> LayerHolds(net, cap, layer, l, rows[i].table, fulls[i], rows[i].Total())
    ensures AccessOf(rows).Valid()
    ensures AllRight(net, rows, fulls, l + 1, Attend(net, n, cap, AccessOf(rows), layer, rows, l, x))
  {
    FitsAccess(n, cap, rows);
    forall i | 0 <= i < |rows|
      ensures RowRight(net, rows[i], fulls[i], l + 1, Attend(net, n, cap, AccessOf(rows), layer, rows, l, x)[i])
    {
      assert RowRight(net, rows[i], fulls[i], l, x[i]);
      AttendRight(net, n, cap, AccessOf(rows), layer, rows[i], fulls[i], l, i, x[i]);
    }
  }

  /** Row i's earlier cells are in place and it feeds the rest of fulls[i]. */
  ghost predicate Ready(net: Net, cap: nat, pool: Pool, rows: seq<Row>, fulls: seq<seq<Token>>) {
    AllFeed(rows, fulls)
    && forall i :: 0 <= i < |rows| ==> Holds(net, cap, pool, rows[i].table, fulls[i], rows[i].start)
  }

  /** A batched step about to run layer l, everything right so far. */
  ghost predicate Midway(net: Net, n: nat, cap: nat, rows: seq<Row>, fulls: seq<seq<Token>>, l: nat, pool: Pool, x: seq<seq<Hidden>>) {
    && Workable(net, n, cap, rows, pool, x) && Apart(rows) && l <= net.layers
    && AllRight(net, rows, fulls, l, x) && Progress(net, cap, pool, rows, fulls, l)
  }

  lemma LayerAdvances(net: Net, n: nat, cap: nat, rows: seq<Row>, fulls: seq<seq<Token>>, l: nat, pool: Pool, x: seq<seq<Hidden>>)
    requires Midway(net, n, cap, rows, fulls, l, pool, x) && l < net.layers
    ensures var r := LayerStep(net, n, cap, rows, l, pool, x);
      Midway(net, n, cap, rows, fulls, l + 1, r.0, r.1)
  {
    var layer := Stored(net, n, cap, pool[l], rows, l, x);
    AllCanGather(n, cap, layer, rows);
    StoreProgress(net, n, cap, pool, rows, fulls, l, x);
    forall i | 0 <= i < |rows| ensures LayerHolds(net, cap, layer, l, rows[i].table, fulls[i], rows[i].Total()) {
      var pool' := pool[l := layer];
      assert RowProgress(net, cap, pool', rows[i], fulls[i], l + 1);
      assert pool'[l] == layer;
    }
    AttendAllRight(net, n, cap, layer, rows, fulls, l, x);
  }

  lemma AfterUnfold(net: Net, n: nat, cap: nat, pool: Pool, rows: seq<Row>, l: nat)
    requires Fits(n, cap, rows) && PoolOk(net, n, cap, pool) && 0 < l <= net.layers
    ensures var r := After(net, n, cap, pool, rows, l - 1);
      Workable(net, n, cap, rows, r.0, r.1)
      && After(net, n, cap, pool, rows, l) == LayerStep(net, n, cap, rows, l - 1, r.0, r.1)
  {
  }

  lemma StartRight(net: Net, n: nat, cap: nat, pool: Pool, rows: seq<Row>, fulls: seq<seq<Token>>)
    requires Fits(n, cap, rows) && Apart(rows) && PoolOk(net, n, cap, pool) && Ready(net, cap, pool, rows, fulls)
    ensures var r := After(net, n, cap, pool, rows, 0); Midway(net, n, cap, rows, fulls, 0, r.0, r.1)
  {
    EmbedRight(net, n, cap, rows, fulls);
    forall i | 0 <= i < |rows| ensures RowProgress(net, cap, pool, rows[i], fulls[i], 0) {
      assert Holds(net, cap, pool, rows[i].table, fulls[i], rows[i].start);
    }
  }

  lemma {:induction false} AfterRight(net: Net, n: nat, cap: nat, pool: Pool, rows: seq<Row>, fulls: seq<seq<Token>>, l: nat)
    requires Fits(n, cap, rows) && Apart(rows) && PoolOk(net, n, cap, pool) && Ready(net, cap, pool, rows, fulls)
    requires l <= net.layers
    ensures var r := After(net, n, cap, pool, rows, l); Midway(net, n, cap, rows, fulls, l, r.0, r.1)
  {
    hide *;
    if l == 0 {
      StartRight(net, n, cap, pool, rows, fulls);
    } else {
      AfterRight(net, n, cap, pool, rows, fulls, l - 1);
      AfterUnfold(net, n, cap, pool, rows, l);
      var (pool', x) := After(net, n, cap, pool, rows, l - 1);
      LayerAdvances(net, n, cap, rows, fulls, l - 1, pool', x);
    }
  }

  lemma HeadsRight(net: Net, rows: seq<Row>, fulls: seq<seq<Token>>, x: seq<seq<Hidden>>)
    requires AllRight(net, rows, fulls, net.layers, x)
    requires forall i :: 0 <= i < |rows| ==> 0 < |rows[i].toks| <= |x[i]|
    ensures forall i :: 0 <= i < |rows| ==> fulls[i] != [] && Heads(net, rows, x)[i] == NextToken(net, fulls[i])
  {
    forall i | 0 <= i < |rows| ensures fulls[i] != [] && Heads(net, rows, x)[i] == NextToken(net, fulls[i]) {
      assert RowRight(net, rows[i], fulls[i], net.layers, x[i]);
      assert x[i][|rows[i].toks| - 1] == HiddenAt(net, fulls[i], net.layers, |fulls[i]| - 1);
    }
  }

  /** Row i's token is the full-recompute token and its cells are all stored. */
  ghost predicate Served(net: Net, cap: nat, pool: Pool, row: Row, full: seq<Token>, tok: Token) {
    full != [] && tok == NextToken(net, full) && Holds(net, cap, pool, row.table, full, row.Total())
  }

  /**
   The batched step is right for every row at once: with each row's earlier cells in place, row i's
   token is the one a full recomputation of row i alone would pick, and afterwards the pool holds
   every cell of row i.  Nothing here depends on which other rows are in the batch.
   */
  lemma RunRight(net: Net, n: nat, cap: nat, pool: Pool, rows: seq<Row>, fulls: seq<seq<Token>>)
    requires Fits(n, cap, rows) && Apart(rows) && PoolOk(net, n, cap, pool) && Ready(net, cap, pool, rows, fulls)
    ensures var r := Run(net, n, cap, pool, rows);
      forall i :: 0 <= i < |rows| ==> Served(net, cap, r.0, rows[i], fulls[i], r.1[i])
  {
    AfterRight(net, n, cap, pool, rows, fulls, net.layers);
    var (pool', y) := After(net, n, cap, pool, rows, net.layers);
    FitsAccess(n, cap, rows);
    assert forall i :: 0 <= i < |rows| ==> RowFits(n, cap, rows[i]);
    HeadsRight(net, rows, fulls, y);
    forall i | 0 <= i < |rows| ensures Holds(net, cap, pool', rows[i].table, fulls[i], rows[i].Total()) {
      assert RowProgress(net, cap, pool', rows[i], fulls[i], net.layers);
    }
  }

  /** A cell in a unit that belongs to none of the rows is untouched. */
  lemma {:induction false} AfterElsewhere(net: Net, n: nat, cap: nat, pool: Pool, rows: seq<Row>, l: nat, k: nat, q: Loc)
    requires Fits(n, cap, rows) && PoolOk(net, n, cap, pool) && l <= net.layers
    requires k < net.layers && !InSomeTable(rows, q.unit) && q in pool[k]
    ensures var r := After(net, n, cap, pool, rows, l).0; q in r[k] && r[k][q] == pool[k][q]
  {
    hide *;
    if l == 0 {
      AfterNone(net, n, cap, pool, rows);
    } else {
      AfterElsewhere(net, n, cap, pool, rows, l - 1, k, q);
      AfterUnfold(net, n, cap, pool, rows, l);
      var (pool', x) := After(net, n, cap, pool, rows, l - 1);
      LayerStepElsewhere(net, n, cap, rows, l - 1, pool', x, k, q);
    }
  }

  lemma AfterNone(net: Net, n: nat, cap: nat, pool: Pool, rows: seq<Row>)
    requires Fits(n, cap, rows) && PoolOk(net, n, cap, pool)
    ensures After(net, n, cap, pool, rows, 0).0 == pool
  {
  }

  lemma LayerStepElsewhere(net: Net, n: nat, cap: nat, rows: seq<Row>, l: nat, pool: Pool, x: seq<seq<Hidden>>, k: nat, q: Loc)
    requires Workable(net, n, cap, rows, pool, x) && l < net.layers
    requires k < net.layers && !InSomeTable(rows, q.unit) && q in pool[k]
    ensures var r := LayerStep(net, n, cap, rows, l, pool, x).0; q in r[k] && r[k][q] == pool[k][q]
  {
    StoredElsewhere(net, n, cap, pool[l], rows, l, x, q);
  }

  lemma StoredElsewhere(net: Net, n: nat, cap: nat, layer: Layer, rows: seq<Row>, l: nat, x: seq<seq<Hidden>>, q: Loc)
    requires Fits(n, cap, rows) && Complete(n, cap, layer)
    requires AccessOf(rows).Valid() && Rect(|rows|, AccessOf(rows).T(), x) && !InSomeTable(rows, q.unit)
    ensures var r := Stored(net, n, cap, layer, rows, l, x); q in layer ==> q in r && r[q] == layer[q]
  {
    FreshWritable(net, n, cap, rows, l, x);
    WriteRowsElsewhere(cap, layer, rows, Fresh(net, l, x), q);
  }

  lemma LayerKeepsOthers(net: Net, n: nat, cap: nat, pool: Pool, rows: seq<Row>, l: nat, table: seq<nat>, toks: seq<Token>, upto: nat)
    requires Fits(n, cap, rows) && PoolOk(net, n, cap, pool)
    requires l < net.layers && LayerHolds(net, cap, pool[l], l, table, toks, upto)
    requires forall u :: u in table ==> !InSomeTable(rows, u)
    ensures LayerHolds(net, cap, After(net, n, cap, pool, rows, net.layers).0[l], l, table, toks, upto)
  {
    var layer' := After(net, n, cap, pool, rows, net.layers).0[l];
    forall p | 0 <= p < upto
      ensures UnitOf(cap, p) < |table| && Place(cap, table, p) in layer'
      ensures layer'[Place(cap, table, p)] == CellAt(net, toks, l, p)
    {
      AfterElsewhere(net, n, cap, pool, rows, net.layers, l, Place(cap, table, p));
    }
  }

  /** A request outside the batch keeps every cell, however the batch recycles other units. */
  lemma RunKeepsOthers(net: Net, n: nat, cap: nat, pool: Pool, rows: seq<Row>, table: seq<nat>, toks: seq<Token>, upto: nat)
    requires Fits(n, cap, rows) && PoolOk(net, n, cap, pool)
    requires forall i :: 0 <= i < |rows| ==> Separate(table, rows[i].table)
    requires Holds(net, cap, pool, table, toks, upto)
    ensures Holds(net, cap, Run(net, n, cap, pool, rows).0, table, toks, upto)
  {
    forall u | u in table ensures !InSomeTable(rows, u) {
    }
    var pool' := Run(net, n, cap, pool, rows).0;
    forall l | 0 <= l < net.layers ensures LayerHolds(net, cap, pool'[l], l, table, toks, upto) {
      LayerKeepsOthers(net, n, cap, pool, rows, l, table, toks, upto);
    }
  }
}
