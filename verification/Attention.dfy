/**
 Per-row positions and attention masks of one batched step.

 Row i already holds starts[i] tokens and is fed ns[i] more, right-padded to the width of the batch.
 */
module Attention {
  import opened Prelude
  import opened Transformer

  const MAX_LEN := 1024

  datatype Mask =
    | NoMask                                  // every key is visible
    | IsCausal                                // query t sees keys 0 .. t
    | Bits(bits: seq<seq<seq<bool>>>)         // bits[row][query][key]

  function MaxOf(s: seq<nat>): (m: nat)
    requires s != []
    ensures m in s && forall x :: x in s ==> x <= m
  {
    if |s| == 1 then s[0]
    else
      var m := MaxOf(Init(s));
      assert s == Init(s) + [Last(s)];
      if Last(s) <= m then m else Last(s)
  }

  /** One forward step's view of the batch: how many tokens each row holds and how many it is fed. */
  datatype Access = Access(starts: seq<nat>, ns: seq<nat>) {
    ghost predicate Valid() {
      starts != [] && |starts| == |ns| && forall i :: 0 <= i < |ns| ==> ns[i] > 0
    }

    /** Padded width: the longest row. */
    function T(): (t: nat)
      requires Valid()
      ensures forall i :: 0 <= i < |ns| ==> ns[i] <= t
      ensures t > 0
    {
      assert forall i :: 0 <= i < |ns| ==> ns[i] in ns;
      MaxOf(ns)
    }

    function Total(i: nat): nat
      requires Valid() && i < |ns|
    {
      starts[i] + ns[i]
    }

    function Totals(): (r: seq<nat>)
      requires Valid()
      ensures |r| == |ns|
    {
      seq(|ns|, i requires 0 <= i < |ns| => Total(i))
    }

    /** Number of keys gathered for every row. */
    function Lk(): (lk: nat)
      requires Valid()
      ensures forall i :: 0 <= i < |ns| ==> Total(i) <= lk
      ensures exists i :: 0 <= i < |ns| && Total(i) == lk
    {
      var ts := Totals();
      assert forall i :: 0 <= i < |ns| ==> ts[i] == Total(i) && ts[i] in ts;
      MaxOf(ts)
    }

    /** Position ids, clamped to the last position; real tokens never reach the clamp. */
    function Position(i: nat, t: nat): nat
      requires Valid() && i < |ns|
    {
      Min(starts[i] + t, MAX_LEN - 1)
    }

    function BuildMask(lk: nat): Mask
      requires Valid()
    {
      if |starts| == 1 && starts[0] == 0 && T() > 1 then IsCausal
      else if |starts| == 1 && T() == 1 then NoMask
      else GeneralMask(lk)
    }

    function GeneralMask(lk: nat): (m: Mask)
      requires Valid()
      ensures m.Bits? && |m.bits| == |ns|
      ensures forall i :: 0 <= i < |ns| ==> |m.bits[i]| == T()
      ensures forall i, t :: 0 <= i < |ns| && 0 <= t < T() ==> |m.bits[i][t]| == lk
    {
      Bits(seq(|ns|, i requires 0 <= i < |ns| => seq(T(), t => seq(lk, j => j <= starts[i] + t && j < Total(i)))))
    }

    /** Does query t of row i attend to key j under mask m? */
    predicate Sees(m: Mask, i: nat, t: nat, j: nat)
      requires Valid() && i < |ns| && t < T() && j < Lk()
      requires m == BuildMask(Lk()) || m == GeneralMask(Lk())
    {
      match m
      case NoMask => true
      case IsCausal => j <= t
      case Bits(bits) => bits[i][t][j]
    }

    /** The single-row shortcuts select exactly the keys that the general mask selects. */
    lemma ShortcutsAgree(i: nat, t: nat, j: nat)
      requires Valid() && i < |ns| && t < T() && j < Lk()
      ensures Sees(BuildMask(Lk()), i, t, j) <==> Sees(GeneralMask(Lk()), i, t, j)
    {
      if |starts| == 1 {
        assert T() == ns[0];
        assert Lk() == Total(0);
      }
    }

    /** A real query sees its own position and everything before it, nothing else. */
    lemma RealQuerySees(i: nat, t: nat, j: nat)
      requires Valid() && i < |ns| && t < ns[i] && j < Lk()
      ensures Sees(BuildMask(Lk()), i, t, j) <==> j <= starts[i] + t
    {
      ShortcutsAgree(i, t, j);
    }

    /** Even a pad query has a key to attend to, and never one past the end of its own row. */
    lemma PadQuerySees(i: nat, t: nat, j: nat)
      requires Valid() && i < |ns| && t < T() && j < Lk()
      ensures Sees(BuildMask(Lk()), i, t, 0)
      ensures Sees(BuildMask(Lk()), i, t, j) ==> j < Total(i)
    {
      ShortcutsAgree(i, t, 0);
      ShortcutsAgree(i, t, j);
    }

    /** The cells that query t of row i attends to, in key order: a masked key contributes nothing. */
    function Visible(m: Mask, i: nat, t: nat, cells: seq<Cell>): seq<Cell>
      requires Valid() && i < |ns| && t < T() && |cells| <= Lk()
      requires m == BuildMask(Lk())
    {
      if cells == [] then []
      else
        Visible(m, i, t, Init(cells)) + if Sees(m, i, t, |cells| - 1) then [Last(cells)] else []
    }

    /** What a real query attends to is the row's own prefix, up to and including its own position. */
    lemma {:induction false} VisiblePrefix(m: Mask, i: nat, t: nat, cells: seq<Cell>)
      requires Valid() && i < |ns| && t < ns[i] && |cells| <= Lk()
      requires m == BuildMask(Lk())
      ensures Visible(m, i, t, cells) == cells[..Min(|cells|, starts[i] + t + 1)]
    {
      if cells != [] {
        VisiblePrefix(m, i, t, Init(cells));
        RealQuerySees(i, t, |cells| - 1);
        if |cells| - 1 <= starts[i] + t {
          assert cells == Init(cells) + [Last(cells)];
        }
      }
    }
  }
}
