/**
 The network and the loop that defines the right answer.

 Tensor arithmetic is left uninterpreted: a network is a number of layers, an embedding, and per
 layer a function that produces the key/value cell of a position and a function that produces the
 next hidden state of a position from its own hidden state and the cells it attends to.  What is
 kept is the structure that a serving engine has to respect: which positions feed which.
 */
module Transformer {
  import opened Prelude

  type Token = nat
  const EOS_TOKEN_ID: Token := 50256
  const MAX_CONTEXT := 1024

  type Hidden(==, 0, !new)
  type Cell(==, 0, !new)

  datatype Net = Net(
    layers: nat,
    embed: (Token, nat) -> Hidden,
    kv: (nat, Hidden) -> Cell,
    mix: (nat, Hidden, seq<Cell>) -> Hidden,
    head: Hidden -> Token)

  /** Hidden state entering layer `l` at position `p`, by full recomputation from the tokens. */
  function HiddenAt(net: Net, toks: seq<Token>, l: nat, p: nat): Hidden
    requires p < |toks|
    decreases l, 0
  {
    if l == 0 then net.embed(toks[p], p)
    else net.mix(l - 1, HiddenAt(net, toks, l - 1, p), Cells(net, toks, l - 1, p + 1))
  }

  /** The key/value cells that layer `l` computes for positions 0 .. n-1. */
  function Cells(net: Net, toks: seq<Token>, l: nat, n: nat): (r: seq<Cell>)
    requires n <= |toks|
    ensures |r| == n
    decreases l, 1
  {
    seq(n, j requires 0 <= j < n => net.kv(l, HiddenAt(net, toks, l, j)))
  }

  function CellAt(net: Net, toks: seq<Token>, l: nat, p: nat): Cell
    requires p < |toks|
  {
    net.kv(l, HiddenAt(net, toks, l, p))
  }

  /** Greedy next token: the head applied to the last position of the last layer. */
  function NextToken(net: Net, toks: seq<Token>): Token
    requires toks != []
  {
    net.head(HiddenAt(net, toks, net.layers, |toks| - 1))
  }

  /** The full-recompute loop, resumed with `out` already generated. */
  function Greedy(net: Net, prompt: seq<Token>, out: seq<Token>, maxNew: int, ignoreEos: bool): seq<Token>
    requires prompt != []
    decreases maxNew - |out|
  {
    if |out| >= maxNew || |prompt| + |out| >= MAX_CONTEXT then out
    else
      var t := NextToken(net, prompt + out);
      if t == EOS_TOKEN_ID && !ignoreEos then out + [t]
      else Greedy(net, prompt, out + [t], maxNew, ignoreEos)
  }

  /** A position's state depends on no later token: the attention is causal at every layer. */
  lemma {:induction false} Causality(net: Net, a: seq<Token>, b: seq<Token>, l: nat, p: nat)
    requires p < |a| && p < |b| && a[..p + 1] == b[..p + 1]
    ensures HiddenAt(net, a, l, p) == HiddenAt(net, b, l, p)
    ensures CellAt(net, a, l, p) == CellAt(net, b, l, p)
    decreases l
  {
    if l == 0 {
      assert a[p] == a[..p + 1][p] == b[..p + 1][p] == b[p];
    } else {
      var k := l - 1;
      forall j | 0 <= j <= p ensures HiddenAt(net, a, k, j) == HiddenAt(net, b, k, j) {
        assert a[..j + 1] == a[..p + 1][..j + 1] == b[..p + 1][..j + 1] == b[..j + 1];
        Causality(net, a, b, k, j);
      }
      assert Cells(net, a, k, p + 1) == Cells(net, b, k, p + 1);
    }
  }

  /** Appending tokens leaves every earlier cell as it was. */
  lemma CellsExtend(net: Net, toks: seq<Token>, more: seq<Token>, l: nat, p: nat)
    requires p < |toks|
    ensures CellAt(net, toks + more, l, p) == CellAt(net, toks, l, p)
  {
    assert (toks + more)[..p + 1] == toks[..p + 1];
    Causality(net, toks + more, toks, l, p);
  }

  lemma {:induction false} GreedyExtends(net: Net, prompt: seq<Token>, out: seq<Token>, maxNew: int, ignoreEos: bool)
    requires prompt != []
    ensures out <= Greedy(net, prompt, out, maxNew, ignoreEos)
    ensures |Greedy(net, prompt, out, maxNew, ignoreEos)| <= Max(|out|, maxNew)
    decreases maxNew - |out|
  {
    if |out| >= maxNew || |prompt| + |out| >= MAX_CONTEXT {
    } else {
      var t := NextToken(net, prompt + out);
      if t == EOS_TOKEN_ID && !ignoreEos {
      } else {
        GreedyExtends(net, prompt, out + [t], maxNew, ignoreEos);
      }
    }
  }

  /** With room left, full recomputation always adds a token. */
  lemma GreedyStrict(net: Net, prompt: seq<Token>, out: seq<Token>, maxNew: int, ignoreEos: bool)
    requires prompt != [] && |out| < maxNew && |prompt| + |out| < MAX_CONTEXT
    ensures |Greedy(net, prompt, out, maxNew, ignoreEos)| > |out|
  {
    var t := NextToken(net, prompt + out);
    if t != EOS_TOKEN_ID || ignoreEos {
      GreedyExtends(net, prompt, out + [t], maxNew, ignoreEos);
    }
  }

  /** Capping the budget at the end of the context changes nothing: the loop stops there anyway. */
  lemma {:induction false} GreedyCapped(net: Net, prompt: seq<Token>, out: seq<Token>, maxNew: int, ignoreEos: bool)
    requires prompt != []
    ensures Greedy(net, prompt, out, Min(maxNew, MAX_CONTEXT - |prompt|), ignoreEos)
         == Greedy(net, prompt, out, maxNew, ignoreEos)
    decreases maxNew - |out|
  {
    if |out| >= maxNew || |prompt| + |out| >= MAX_CONTEXT {
    } else {
      var t := NextToken(net, prompt + out);
      if t == EOS_TOKEN_ID && !ignoreEos {
      } else {
        GreedyCapped(net, prompt, out + [t], maxNew, ignoreEos);
      }
    }
  }
}
