/**
 Block tables and contiguous slots show the same cells.

 A session is any sequence of events over some requests: memory is lent to a request, taken back or
 extended, and batched writes feed some of the requests.  Both layouts see the same fresh cells, each
 through its own tables; what the recycled memory held before is arbitrary.
 */
module Layouts {
  import opened Prelude
  import opened Transformer
  import opened Storage

  // ------------------------------------------------------------------ one write, one gather

  /** Two layouts show the same cells at positions 0 .. upto-1 of a request. */
  ghost predicate SameCells(cap: nat, layer: Layer, table: seq<nat>, cap': nat, layer': Layer, table': seq<nat>, upto: nat) {
    && cap > 0 && cap' > 0
    && forall p :: 0 <= p < upto ==>
         UnitOf(cap, p) < |table| && UnitOf(cap', p) < |table'|
         && Place(cap, table, p) in layer && Place(cap', table', p) in layer'
         && layer[Place(cap, table, p)] == layer'[Place(cap', table', p)]
  }

  /**
   The same batched write through block tables and through contiguous slots keeps the two layouts
   showing the same cells, now up to and including the tokens just fed.
   */
  lemma PagedWriteRefinesSlots(cap: nat, layer: Layer, rows: seq<Row>, cap': nat, layer': Layer, rows': seq<Row>, xs: seq<seq<Cell>>, i: nat)
    requires AllWritable(cap, rows, xs) && Apart(rows) && AllWritable(cap', rows', xs) && Apart(rows')
    requires |rows'| == |rows| && i < |rows|
    requires rows'[i].start == rows[i].start && |rows'[i].toks| == |rows[i].toks|
    requires SameCells(cap, layer, rows[i].table, cap', layer', rows'[i].table, rows[i].start)
    ensures SameCells(cap, WriteRows(cap, layer, rows, xs), rows[i].table,
                      cap', WriteRows(cap', layer', rows', xs), rows'[i].table, rows[i].Total())
  {
    assert Writable(cap, rows[i], xs[i]) && Writable(cap', rows'[i], xs[i]);
    forall p | 0 <= p < rows[i].Total()
      ensures UnitOf(cap, p) < |rows[i].table| && UnitOf(cap', p) < |rows'[i].table|
      ensures var r, r' := WriteRows(cap, layer, rows, xs), WriteRows(cap', layer', rows', xs);
        Place(cap, rows[i].table, p) in r && Place(cap', rows'[i].table, p) in r'
        && r[Place(cap, rows[i].table, p)] == r'[Place(cap', rows'[i].table, p)]
    {
      WriteRowsReads(cap, layer, rows, xs, i, p);
      WriteRowsReads(cap', layer', rows', xs, i, p);
    }
  }

  /** So a gather through either layout returns the same values below the row's length. */
  lemma PagedGatherRefinesSlots(cap: nat, layer: Layer, table: seq<nat>, cap': nat, layer': Layer, table': seq<nat>, upto: nat, lk: nat)
    requires SameCells(cap, layer, table, cap', layer', table', upto) && upto <= lk
    requires forall j :: 0 <= j < lk ==> PaddedPlace(cap, table, j) in layer && PaddedPlace(cap', table', j) in layer'
    ensures Gather(cap, layer, table, lk)[..upto] == Gather(cap', layer', table', lk)[..upto]
  {
    forall p | 0 <= p < upto ensures Gather(cap, layer, table, lk)[p] == Gather(cap', layer', table', lk)[p] {
      assert PaddedPlace(cap, table, p) == Place(cap, table, p);
      assert PaddedPlace(cap', table', p) == Place(cap', table', p);
    }
  }

  // ------------------------------------------------------------------ sessions

  /** One request in both layouts; its positions below `stop` have been fed. */
  datatype View = View(table: seq<nat>, table': seq<nat>, stop: nat)

  datatype Event =
    /** Request i gets these tables: more memory behind what it has, or other memory, which it starts over. */
    | Lend(i: nat, table: seq<nat>, table': seq<nat>)
    /** One batched write that feeds the requests `who`: row k, in either layout, is for who[k]. */
    | Feed(who: seq<nat>, rows: seq<Row>, rows': seq<Row>, xs: seq<seq<Cell>>)

  /** Tables that list no unit twice and share none. */
  ghost predicate TablesApart(tables: seq<seq<nat>>) {
    && (forall i :: 0 <= i < |tables| ==> NoDup(tables[i]))
    && (forall i, j :: 0 <= i < |tables| && 0 <= j < |tables| && i != j ==> Separate(tables[i], tables[j]))
  }

  function Tables(vs: seq<View>): (ts: seq<seq<nat>>)
    ensures |ts| == |vs|
  {
    seq(|vs|, i requires 0 <= i < |vs| => vs[i].table)
  }

  function Tables'(vs: seq<View>): (ts: seq<seq<nat>>)
    ensures |ts| == |vs|
  {
    seq(|vs|, i requires 0 <= i < |vs| => vs[i].table')
  }

  /** Lending keeps tables apart; a write feeds each served request once, from anywhere up to its stop. */
  ghost predicate Allowed(cap: nat, cap': nat, vs: seq<View>, e: Event) {
    match e
    case Lend(i, table, table') =>
      i < |vs| && TablesApart(Tables(vs)[i := table]) && TablesApart(Tables'(vs)[i := table'])
    case Feed(who, rows, rows', xs) =>
      && NoDup(who) && |who| == |rows| == |rows'|
      && AllWritable(cap, rows, xs) && AllWritable(cap', rows', xs)
      && forall k :: 0 <= k < |who| ==>
           && who[k] < |vs| && rows[k].table == vs[who[k]].table && rows'[k].table == vs[who[k]].table'
           && rows[k].start == rows'[k].start <= vs[who[k]].stop && |rows[k].toks| == |rows'[k].toks|
  }

  function Viewed(v: View, table: seq<nat>, table': seq<nat>): View {
    View(table, table', if v.table <= table && v.table' <= table' then v.stop else 0)
  }

  /** The requests after an event: a served request stops behind the tokens just fed. */
  function Next(vs: seq<View>, e: Event): (r: seq<View>)
    requires e.Lend? ==> e.i < |vs|
    requires e.Feed? ==> |e.rows| == |e.who|
    ensures |r| == |vs|
  {
    match e
    case Lend(i, table, table') => vs[i := Viewed(vs[i], table, table')]
    case Feed(who, rows, _, _) =>
      seq(|vs|, i requires 0 <= i < |vs| =>
        if i in who then vs[i].(stop := rows[IndexOf(who, i)].Total()) else vs[i])
  }

  /** The layer after an event: only a write changes cells. */
  function Written(cap: nat, layer: Layer, e: Event, paged: bool): Layer
    requires e.Feed? ==> AllWritable(cap, if paged then e.rows else e.rows', e.xs)
  {
    match e
    case Lend(_, _, _) => layer
    case Feed(_, rows, rows', xs) => WriteRows(cap, layer, if paged then rows else rows', xs)
  }

  datatype Both = Both(vs: seq<View>, layer: Layer, layer': Layer)

  ghost function After(cap: nat, cap': nat, b: Both, e: Event): (r: Both)
    requires Allowed(cap, cap', b.vs, e)
    ensures |r.vs| == |b.vs|
  {
    Both(Next(b.vs, e), Written(cap, b.layer, e, true), Written(cap', b.layer', e, false))
  }

  /** An event that is not allowed is ignored. */
  ghost function Play(cap: nat, cap': nat, b: Both, es: seq<Event>): (r: Both)
    ensures |r.vs| == |b.vs|
    decreases |es|
  {
    if es == [] then b
    else if !Allowed(cap, cap', b.vs, es[0]) then Play(cap, cap', b, es[1..])
    else Play(cap, cap', After(cap, cap', b, es[0]), es[1..])
  }

  /** Every request shows the same cells in both layouts, and no two share memory in either. */
  ghost predicate Agree(cap: nat, cap': nat, b: Both) {
    && TablesApart(Tables(b.vs)) && TablesApart(Tables'(b.vs))
    && forall i :: 0 <= i < |b.vs| ==>
         SameCells(cap, b.layer, b.vs[i].table, cap', b.layer', b.vs[i].table', b.vs[i].stop)
  }

  /** The rows of a batch have disjoint tables because they serve different requests. */
  lemma ServedApart(tables: seq<seq<nat>>, who: seq<nat>, rows: seq<Row>)
    requires TablesApart(tables) && NoDup(who) && |who| == |rows|
    requires forall k :: 0 <= k < |who| ==> who[k] < |tables| && rows[k].table == tables[who[k]]
    ensures Apart(rows)
  {
    forall i, j | 0 <= i < |rows| && 0 <= j < |rows| && i != j ensures Separate(rows[i].table, rows[j].table) {
      assert who[i] != who[j];
      assert Separate(tables[who[i]], tables[who[j]]);
    }
  }

  /** A request the batch does not serve has none of its units written. */
  lemma UnservedElsewhere(cap: nat, layer: Layer, tables: seq<seq<nat>>, who: seq<nat>, rows: seq<Row>, xs: seq<seq<Cell>>, i: nat, q: Loc)
    requires TablesApart(tables) && |who| == |rows| && AllWritable(cap, rows, xs)
    requires forall k :: 0 <= k < |who| ==> who[k] < |tables| && rows[k].table == tables[who[k]]
    requires i < |tables| && i !in who && q.unit in tables[i] && q in layer
    ensures var r := WriteRows(cap, layer, rows, xs); q in r && r[q] == layer[q]
  {
    forall k | 0 <= k < |rows| ensures q.unit !in rows[k].table {
      assert who[k] in who;
      assert Separate(tables[i], tables[who[k]]);
    }
    WriteRowsElsewhere(cap, layer, rows, xs, q);
  }

  lemma UnservedSame(cap: nat, cap': nat, b: Both, e: Event, i: nat)
    requires Agree(cap, cap', b) && Allowed(cap, cap', b.vs, e) && e.Feed? && i < |b.vs| && i !in e.who
    ensures SameCells(cap, WriteRows(cap, b.layer, e.rows, e.xs), b.vs[i].table,
                      cap', WriteRows(cap', b.layer', e.rows', e.xs), b.vs[i].table', b.vs[i].stop)
  {
    hide WriteRows, AllWritable, NoDup;
    var v := b.vs[i];
    assert SameCells(cap, b.layer, v.table, cap', b.layer', v.table', v.stop);
    forall p | 0 <= p < v.stop
      ensures var r, r' := WriteRows(cap, b.layer, e.rows, e.xs), WriteRows(cap', b.layer', e.rows', e.xs);
        && Place(cap, v.table, p) in r && Place(cap', v.table', p) in r'
        && r[Place(cap, v.table, p)] == r'[Place(cap', v.table', p)]
    {
      UnservedElsewhere(cap, b.layer, Tables(b.vs), e.who, e.rows, e.xs, i, Place(cap, v.table, p));
      UnservedElsewhere(cap', b.layer', Tables'(b.vs), e.who, e.rows', e.xs, i, Place(cap', v.table', p));
    }
  }

  lemma SameFewer(cap: nat, layer: Layer, table: seq<nat>, cap': nat, layer': Layer, table': seq<nat>, m: nat, n: nat)
    requires SameCells(cap, layer, table, cap', layer', table', n) && m <= n
    ensures SameCells(cap, layer, table, cap', layer', table', m)
  {
  }

  lemma ServedSame(cap: nat, cap': nat, b: Both, e: Event, i: nat)
    requires Agree(cap, cap', b) && Allowed(cap, cap', b.vs, e) && e.Feed? && i < |b.vs| && i in e.who
    ensures SameCells(cap, WriteRows(cap, b.layer, e.rows, e.xs), b.vs[i].table,
                      cap', WriteRows(cap', b.layer', e.rows', e.xs), b.vs[i].table', e.rows[IndexOf(e.who, i)].Total())
  {
    hide WriteRows, SameCells, AllWritable, NoDup, TablesApart;
    var k := IndexOf(e.who, i);
    ServedApart(Tables(b.vs), e.who, e.rows);
    ServedApart(Tables'(b.vs), e.who, e.rows');
    SameFewer(cap, b.layer, b.vs[i].table, cap', b.layer', b.vs[i].table', e.rows[k].start, b.vs[i].stop);
    PagedWriteRefinesSlots(cap, b.layer, e.rows, cap', b.layer', e.rows', e.xs, k);
  }

  /** Memory behind what a request has changes nothing it shows. */
  lemma LentSame(cap: nat, cap': nat, b: Both, i: nat, table: seq<nat>, table': seq<nat>)
    requires cap > 0 && cap' > 0 && Agree(cap, cap', b) && i < |b.vs|
    ensures SameCells(cap, b.layer, table, cap', b.layer', table', Viewed(b.vs[i], table, table').stop)
  {
    hide TablesApart;
    assert SameCells(cap, b.layer, b.vs[i].table, cap', b.layer', b.vs[i].table', b.vs[i].stop);
  }

  lemma LendKeepsAgreement(cap: nat, cap': nat, b: Both, e: Event)
    requires cap > 0 && cap' > 0 && Agree(cap, cap', b) && Allowed(cap, cap', b.vs, e) && e.Lend?
    ensures Agree(cap, cap', After(cap, cap', b, e))
  {
    hide SameCells, TablesApart;
    var vs := Next(b.vs, e);
    assert Tables(vs) == Tables(b.vs)[e.i := e.table] && Tables'(vs) == Tables'(b.vs)[e.i := e.table'];
    LentSame(cap, cap', b, e.i, e.table, e.table');
  }

  lemma FeedKeepsAgreement(cap: nat, cap': nat, b: Both, e: Event)
    requires cap > 0 && cap' > 0 && Agree(cap, cap', b) && Allowed(cap, cap', b.vs, e) && e.Feed?
    ensures Agree(cap, cap', After(cap, cap', b, e))
  {
    hide SameCells, TablesApart, WriteRows, AllWritable, NoDup;
    var b' := After(cap, cap', b, e);
    assert Tables(b'.vs) == Tables(b.vs) && Tables'(b'.vs) == Tables'(b.vs);
    forall i | 0 <= i < |b'.vs|
      ensures SameCells(cap, b'.layer, b'.vs[i].table, cap', b'.layer', b'.vs[i].table', b'.vs[i].stop)
    {
      if i in e.who {
        ServedSame(cap, cap', b, e, i);
      } else {
        UnservedSame(cap, cap', b, e, i);
      }
    }
  }

  lemma {:induction false} SessionAgrees(cap: nat, cap': nat, b: Both, es: seq<Event>)
    requires cap > 0 && cap' > 0 && Agree(cap, cap', b)
    ensures Agree(cap, cap', Play(cap, cap', b, es))
    decreases |es|
  {
    hide Agree, Allowed, After;
    if es == [] {
    } else if !Allowed(cap, cap', b.vs, es[0]) {
      SessionAgrees(cap, cap', b, es[1..]);
    } else {
      if es[0].Lend? {
        LendKeepsAgreement(cap, cap', b, es[0]);
      } else {
        FeedKeepsAgreement(cap, cap', b, es[0]);
      }
      SessionAgrees(cap, cap', After(cap, cap', b, es[0]), es[1..]);
    }
  }

  /** n requests that have no memory yet. */
  function Unserved(n: nat): seq<View> {
    seq(n, i => View([], [], 0))
  }

  lemma UnservedAgree(cap: nat, cap': nat, n: nat, layer: Layer, layer': Layer)
    requires cap > 0 && cap' > 0
    ensures Agree(cap, cap', Both(Unserved(n), layer, layer'))
  {
  }

  /**
   The two layouts agree along every session, from any contents.  Batches may serve any of the requests,
   prefill them again from the start or from anywhere before where they stopped, and memory may grow,
   move and be recycled in between: whatever a request was fed, gathering it through its block table and
   through its slot gives the same cells, also when the gather is padded to a longer row.
   */
  lemma PagedSessionRefinesSlots(cap: nat, cap': nat, n: nat, layer: Layer, layer': Layer, es: seq<Event>, i: nat, lk: nat)
    requires cap > 0 && cap' > 0 && i < n
    ensures var b := Play(cap, cap', Both(Unserved(n), layer, layer'), es); var v := b.vs[i];
      && SameCells(cap, b.layer, v.table, cap', b.layer', v.table', v.stop)
      && (v.stop <= lk
          && (forall j :: 0 <= j < lk ==> PaddedPlace(cap, v.table, j) in b.layer && PaddedPlace(cap', v.table', j) in b.layer')
          ==> Gather(cap, b.layer, v.table, lk)[..v.stop] == Gather(cap', b.layer', v.table', lk)[..v.stop])
  {
    hide SameCells, Play;
    UnservedAgree(cap, cap', n, layer, layer');
    SessionAgrees(cap, cap', Both(Unserved(n), layer, layer'), es);
    var b := Play(cap, cap', Both(Unserved(n), layer, layer'), es);
    var v := b.vs[i];
    if v.stop <= lk
       && forall j :: 0 <= j < lk ==> PaddedPlace(cap, v.table, j) in b.layer && PaddedPlace(cap', v.table', j) in b.layer'
    {
      PagedGatherRefinesSlots(cap, b.layer, v.table, cap', b.layer', v.table', v.stop, lk);
    }
  }
}
