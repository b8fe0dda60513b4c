/**
 Paged key/value storage: cells addressed through per-request block tables.

 A layer of the pool is a finite map from (unit, offset) to a cell.  A unit is a block of the paged
 pool or a slot of the contiguous one; `cap` is the number of tokens a unit holds.  Position p of a
 request lives in unit `table[UnitOf(cap, p)]` at offset `p % cap`.
 */
module Storage {
  import opened Prelude
  import opened Transformer

  datatype Loc = Loc(unit: nat, off: nat)
  type Layer = map<Loc, Cell>
  type Pool = seq<Layer>

  /** One row of a forward step: tokens `toks` fed at positions start, start+1, ... */
  datatype Row = Row(table: seq<nat>, start: nat, toks: seq<Token>) {
    function Total(): nat {
      start + |toks|
    }
  }

  // ------------------------------------------------------------------ which unit, which offset

  /** p / cap, by repeated subtraction (UnitOfIsDivision): keeps non-linear arithmetic out of the proofs. */
  function UnitOf(cap: nat, p: nat): nat
    requires cap > 0
  {
    if p < cap then 0 else 1 + UnitOf(cap, p - cap)
  }

  /** p % cap */
  function OffsetOf(cap: nat, p: nat): (o: nat)
    requires cap > 0
    ensures o < cap
  {
    if p < cap then p else OffsetOf(cap, p - cap)
  }

  /** ceil(n / cap), the number of units that n tokens need; n may be zero or negative. */
  function UnitsFor(cap: nat, n: int): int
    requires cap > 0
  {
    if n > 0 then UnitOf(cap, n - 1) + 1 else -(UnitOf(cap, -n) as int)
  }

  lemma {:induction false} UnitOfIsDivision(cap: nat, p: nat)
    requires cap > 0
    ensures UnitOf(cap, p) == p / cap && OffsetOf(cap, p) == p % cap
  {
    if p < cap {
      QuotientUnique(cap, p, 0, p);
    } else {
      UnitOfIsDivision(cap, p - cap);
      var q, r := (p - cap) / cap, (p - cap) % cap;
      assert p == (q + 1) * cap + r;
      QuotientUnique(cap, p, q + 1, r);
    }
  }

  /** The ceiling division the code writes as two negations around a flooring division. */
  lemma UnitsForIsCeiling(cap: nat, n: int)
    requires cap > 0
    ensures UnitsFor(cap, n) == -((-n) / cap)
  {
    if n > 0 {
      UnitOfIsDivision(cap, n - 1);
      var q, r := (n - 1) / cap, (n - 1) % cap;
      assert -n == (-(q + 1)) * cap + (cap - r - 1);
      QuotientUnique(cap, -n, -(q + 1), cap - r - 1);
    } else {
      UnitOfIsDivision(cap, -n);
    }
  }

  lemma QuotientUnique(d: nat, n: int, q: int, r: int)
    requires d > 0 && n == q * d + r && 0 <= r < d
    ensures n / d == q && n % d == r
  {
    var q', r' := n / d, n % d;
    assert (q - q') * d == r' - r;
    MulGrows(q - q', d);
  }

  lemma MulGrows(k: int, d: nat)
    ensures k >= 1 ==> k * d >= d
    ensures k <= -1 ==> k * d <= 0 - d
  {
    assert k * d == (k - 1) * d + d && k * d == (k + 1) * d - d;
  }

  lemma {:induction false} UnitOfMonotone(cap: nat, a: nat, b: nat)
    requires cap > 0 && a <= b
    ensures UnitOf(cap, a) <= UnitOf(cap, b)
    decreases b
  {
    if b >= cap && a >= cap {
      UnitOfMonotone(cap, a - cap, b - cap);
    }
  }

  lemma {:induction false} UnitOfInjective(cap: nat, a: nat, b: nat)
    requires cap > 0 && UnitOf(cap, a) == UnitOf(cap, b) && OffsetOf(cap, a) == OffsetOf(cap, b)
    ensures a == b
    decreases a + b
  {
    if a >= cap && b >= cap {
      UnitOfInjective(cap, a - cap, b - cap);
    }
  }

  lemma UnitsForMonotone(cap: nat, m: nat, n: nat)
    requires cap > 0 && m <= n
    ensures 0 <= UnitsFor(cap, m) <= UnitsFor(cap, n)
  {
    if m > 0 {
      UnitOfMonotone(cap, m - 1, n - 1);
    }
  }

  /** One more token opens a new unit exactly when the tokens so far end on a unit boundary. */
  lemma {:induction false} UnitsForStep(cap: nat, n: nat)
    requires cap > 0
    ensures UnitsFor(cap, n + 1) == UnitsFor(cap, n) + if OffsetOf(cap, n) == 0 then 1 else 0
  {
    if n >= cap {
      UnitsForStep(cap, n - cap);
      if n == cap {
        assert UnitOf(cap, n) == 1 + UnitOf(cap, 0);
      }
    }
  }

  /** Exactly the units that are needed: they cover n tokens, and one unit fewer would not. */
  lemma {:induction false} UnitsForExact(cap: nat, n: nat)
    requires cap > 0
    ensures n <= UnitsFor(cap, n) * cap < n + cap
  {
    if n > cap {
      UnitsForExact(cap, n - cap);
      assert UnitsFor(cap, n) == UnitsFor(cap, n - cap) + 1;
      assert UnitsFor(cap, n) * cap == UnitsFor(cap, n - cap) * cap + cap;
    }
  }

  /** m units hold n tokens exactly when n is at most m times their size; nothing is needed for n <= 0. */
  lemma UnitsForAtMost(cap: nat, n: int, m: nat)
    requires cap > 0
    ensures UnitsFor(cap, n) <= m <==> n <= m * cap
  {
    MulGrows(m, cap);
    if n > 0 {
      UnitsForExact(cap, n);
      MulGrows(UnitsFor(cap, n) - m, cap);
      MulGrows(m + 1 - UnitsFor(cap, n), cap);
      assert (UnitsFor(cap, n) - m) * cap == UnitsFor(cap, n) * cap - m * cap;
      assert (m + 1 - UnitsFor(cap, n)) * cap == m * cap + cap - UnitsFor(cap, n) * cap;
    }
  }

  // ------------------------------------------------------------------ addressing

  /** Where position p of a request with this table lives. */
  function Place(cap: nat, table: seq<nat>, p: nat): Loc
    requires cap > 0 && UnitOf(cap, p) < |table|
  {
    Loc(table[UnitOf(cap, p)], OffsetOf(cap, p))
  }

  /** Where a gather reads position p: rows with too few units are padded with unit 0. */
  function PaddedPlace(cap: nat, table: seq<nat>, p: nat): Loc
    requires cap > 0
  {
    Loc(if UnitOf(cap, p) < |table| then table[UnitOf(cap, p)] else 0, OffsetOf(cap, p))
  }

  /** The table has a unit for each of the first n positions. */
  ghost predicate Covers(cap: nat, table: seq<nat>, n: nat) {
    cap > 0 && UnitsFor(cap, n) <= |table|
  }

  lemma CoversPositions(cap: nat, table: seq<nat>, n: nat, p: nat)
    requires Covers(cap, table, n) && p < n
    ensures UnitOf(cap, p) < |table|
  {
    UnitOfMonotone(cap, p, n - 1);
  }

  lemma CoversFewer(cap: nat, table: seq<nat>, m: nat, n: nat)
    requires Covers(cap, table, n) && m <= n
    ensures Covers(cap, table, m)
  {
    UnitsForMonotone(cap, m, n);
  }

  lemma PlaceInjective(cap: nat, table: seq<nat>, n: nat, p: nat, q: nat)
    requires Covers(cap, table, n) && NoDup(table) && p < n && q < n && p != q
    ensures UnitOf(cap, p) < |table| && UnitOf(cap, q) < |table|
    ensures Place(cap, table, p) != Place(cap, table, q)
  {
    CoversPositions(cap, table, n, p);
    CoversPositions(cap, table, n, q);
    if UnitOf(cap, p) == UnitOf(cap, q) {
      if OffsetOf(cap, p) == OffsetOf(cap, q) {
        UnitOfInjective(cap, p, q);
      }
    } else {
      assert table[UnitOf(cap, p)] != table[UnitOf(cap, q)];
    }
  }

  /** A layer that holds a cell at every offset below `cap` of every unit below `n`, and no other. */
  ghost predicate Complete(n: nat, cap: nat, layer: Layer) {
    forall q {:trigger q in layer} :: q in layer <==> q.unit < n && q.off < cap
  }

  // ------------------------------------------------------------------ writes

  /** Stores cells[0], cells[1], ... at positions start, start+1, ... of one row. */
  function WriteRow(cap: nat, layer: Layer, table: seq<nat>, start: nat, cells: seq<Cell>): Layer
    requires Covers(cap, table, start + |cells|)
  {
    if cells == [] then layer
    else
      CoversPositions(cap, table, start + |cells|, start + |cells| - 1);
      CoversFewer(cap, table, start + |cells| - 1, start + |cells|);
      WriteRow(cap, layer, table, start, Init(cells))
        [Place(cap, table, start + |cells| - 1) := Last(cells)]
  }

  /** One batched write: row i stores the first |toks| cells of xs[i]; pad columns are not stored. */
  function WriteRows(cap: nat, layer: Layer, rows: seq<Row>, xs: seq<seq<Cell>>): Layer
    requires AllWritable(cap, rows, xs)
  {
    if rows == [] then layer
    else
      assert Writable(cap, Last(rows), Last(xs));
      WriteRow(cap, WriteRows(cap, layer, Init(rows), Init(xs)),
               Last(rows).table, Last(rows).start, Last(xs)[..|Last(rows).toks|])
  }

  ghost predicate Writable(cap: nat, row: Row, xs: seq<Cell>) {
    Covers(cap, row.table, row.Total()) && |row.toks| <= |xs|
  }

  /** Copies positions 0 .. lk-1 of one row into a fresh contiguous buffer. */
  function Gather(cap: nat, layer: Layer, table: seq<nat>, lk: nat): (r: seq<Cell>)
    requires cap > 0
    requires forall j :: 0 <= j < lk ==> PaddedPlace(cap, table, j) in layer
    ensures |r| == lk
  {
    seq(lk, j requires 0 <= j < lk => layer[PaddedPlace(cap, table, j)])
  }

  lemma {:induction false} WriteRowElsewhere(cap: nat, layer: Layer, table: seq<nat>, start: nat, cells: seq<Cell>, q: Loc)
    requires Covers(cap, table, start + |cells|) && q.unit !in table
    ensures var r := WriteRow(cap, layer, table, start, cells);
      (q in r <==> q in layer) && (q in layer ==> r[q] == layer[q])
  {
    if cells != [] {
      CoversFewer(cap, table, start + |cells| - 1, start + |cells|);
      WriteRowElsewhere(cap, layer, table, start, Init(cells), q);
      CoversPositions(cap, table, start + |cells|, start + |cells| - 1);
    }
  }

  /** After writing a row, position p reads the new cell if it was fed, and the old one if it came before. */
  lemma {:induction false} WriteRowReads(cap: nat, layer: Layer, table: seq<nat>, start: nat, cells: seq<Cell>, p: nat)
    requires Covers(cap, table, start + |cells|) && NoDup(table) && p < start + |cells|
    ensures UnitOf(cap, p) < |table|
    ensures var r, at := WriteRow(cap, layer, table, start, cells), Place(cap, table, p);
      if start <= p then at in r && r[at] == cells[p - start]
      else at in layer ==> at in r && r[at] == layer[at]
  {
    var n := start + |cells|;
    CoversPositions(cap, table, n, p);
    if cells != [] {
      CoversPositions(cap, table, n, n - 1);
      if p < n - 1 {
        CoversFewer(cap, table, n - 1, n);
        WriteRowReads(cap, layer, table, start, Init(cells), p);
        PlaceInjective(cap, table, n, p, n - 1);
      }
    }
  }

  /** A write keeps a complete layer complete: the row's units are units of the pool. */
  lemma {:induction false} WriteRowComplete(n: nat, cap: nat, layer: Layer, table: seq<nat>, start: nat, cells: seq<Cell>)
    requires Covers(cap, table, start + |cells|) && Complete(n, cap, layer)
    requires forall u :: u in table ==> u < n
    ensures Complete(n, cap, WriteRow(cap, layer, table, start, cells))
  {
    if cells != [] {
      var p := start + |cells| - 1;
      CoversPositions(cap, table, start + |cells|, p);
      CoversFewer(cap, table, p, start + |cells|);
      var at := Place(cap, table, p);
      assert at.unit < n && at.off < cap by {
        assert table[UnitOf(cap, p)] in table;
      }
      WriteRowComplete(n, cap, layer, table, start, Init(cells));
      CompleteUpdate(n, cap, WriteRow(cap, layer, table, start, Init(cells)), at, Last(cells));
    }
  }

  lemma CompleteUpdate(n: nat, cap: nat, layer: Layer, at: Loc, c: Cell)
    requires Complete(n, cap, layer) && at.unit < n && at.off < cap
    ensures Complete(n, cap, layer[at := c])
  {
  }

  /** The rows of a step can be served by a pool of n units: every position fed has a real unit. */
  ghost predicate Fits(n: nat, cap: nat, rows: seq<Row>) {
    && cap > 0 && n > 0 && rows != []
    && forall i :: 0 <= i < |rows| ==> RowFits(n, cap, rows[i])
  }

  ghost predicate RowFits(n: nat, cap: nat, row: Row) {
    row.toks != [] && Covers(cap, row.table, row.Total()) && forall u :: u in row.table ==> u < n
  }

  /** No two rows of a step share a unit, and no row lists a unit twice. */
  ghost predicate Apart(rows: seq<Row>) {
    && (forall i :: 0 <= i < |rows| ==> NoDup(rows[i].table))
    && (forall i, j :: 0 <= i < |rows| && 0 <= j < |rows| && i != j ==> Separate(rows[i].table, rows[j].table))
  }

  lemma {:induction false} WriteRowsComplete(n: nat, cap: nat, layer: Layer, rows: seq<Row>, xs: seq<seq<Cell>>)
    requires AllWritable(cap, rows, xs) && Complete(n, cap, layer)
    requires forall i :: 0 <= i < |rows| ==> RowFits(n, cap, rows[i])
    ensures Complete(n, cap, WriteRows(cap, layer, rows, xs))
  {
    if rows != [] {
      WriteRowsComplete(n, cap, layer, Init(rows), Init(xs));
      assert RowFits(n, cap, Last(rows)) && Writable(cap, Last(rows), Last(xs));
      WriteRowComplete(n, cap, WriteRows(cap, layer, Init(rows), Init(xs)),
                       Last(rows).table, Last(rows).start, Last(xs)[..|Last(rows).toks|]);
    }
  }

  ghost predicate InSomeTable(rows: seq<Row>, u: nat) {
    exists i :: 0 <= i < |rows| && u in rows[i].table
  }

  ghost predicate AllWritable(cap: nat, rows: seq<Row>, xs: seq<seq<Cell>>) {
    |xs| == |rows| && forall i :: 0 <= i < |rows| ==> Writable(cap, rows[i], xs[i])
  }

  /** A batched write touches no unit outside the tables of its rows. */
  lemma {:induction false} WriteRowsElsewhere(cap: nat, layer: Layer, rows: seq<Row>, xs: seq<seq<Cell>>, q: Loc)
    requires AllWritable(cap, rows, xs) && !InSomeTable(rows, q.unit)
    ensures var r := WriteRows(cap, layer, rows, xs);
      (q in r <==> q in layer) && (q in layer ==> r[q] == layer[q])
  {
    if rows != [] {
      var k := |rows| - 1;
      assert q.unit !in rows[k].table;
      assert forall i :: 0 <= i < k ==> Init(rows)[i] == rows[i];
      WriteRowsElsewhere(cap, layer, Init(rows), Init(xs), q);
      assert Writable(cap, rows[k], xs[k]);
      WriteRowElsewhere(cap, WriteRows(cap, layer, Init(rows), Init(xs)),
                        rows[k].table, rows[k].start, xs[k][..|rows[k].toks|], q);
    }
  }

  /**
   A batched write through disjoint tables: position p of row i reads row i's own new cell if it was
   fed in this step, and what was there before if it came earlier, whatever the other rows wrote.
   */
  lemma {:induction false} WriteRowsReads(cap: nat, layer: Layer, rows: seq<Row>, xs: seq<seq<Cell>>, i: nat, p: nat)
    requires AllWritable(cap, rows, xs) && Apart(rows)
    requires i < |rows| && p < rows[i].Total()
    ensures UnitOf(cap, p) < |rows[i].table|
    ensures var r, at := WriteRows(cap, layer, rows, xs), Place(cap, rows[i].table, p);
      if rows[i].start <= p then at in r && r[at] == xs[i][p - rows[i].start]
      else at in layer ==> at in r && r[at] == layer[at]
  {
    var k := |rows| - 1;
    var last, mid := rows[k], WriteRows(cap, layer, Init(rows), Init(xs));
    assert Writable(cap, rows[i], xs[i]) && Writable(cap, last, xs[k]);
    CoversPositions(cap, rows[i].table, rows[i].Total(), p);
    var at := Place(cap, rows[i].table, p);
    assert at.unit in rows[i].table;
    if i == k {
      WriteRowReads(cap, mid, last.table, last.start, xs[k][..|last.toks|], p);
      assert !InSomeTable(Init(rows), at.unit) by {
        forall j | 0 <= j < k ensures at.unit !in Init(rows)[j].table {
          assert Separate(rows[k].table, rows[j].table);
        }
      }
      WriteRowsElsewhere(cap, layer, Init(rows), Init(xs), at);
    } else {
      assert Separate(rows[i].table, rows[k].table);
      ApartInit(rows);
      WriteRowsReads(cap, layer, Init(rows), Init(xs), i, p);
      WriteRowElsewhere(cap, mid, last.table, last.start, xs[k][..|last.toks|], at);
    }
  }

  lemma ApartInit(rows: seq<Row>)
    requires rows != [] && Apart(rows)
    ensures Apart(Init(rows))
  {
    forall i, j | 0 <= i < |rows| - 1 && 0 <= j < |rows| - 1 && i != j
      ensures Separate(Init(rows)[i].table, Init(rows)[j].table)
    {
      assert Separate(rows[i].table, rows[j].table);
    }
  }
}
