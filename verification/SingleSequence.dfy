/** One sequence at a time: the naive full-recompute loop, and the loop with a contiguous cache. */
module SingleSequence {
  import opened Prelude
  import opened Transformer
  import opened Attention
  import opened Scheduling
  import opened Requests

  // ------------------------------------------------------------------ the contiguous cache

  class ContiguousKVCache {
    const maxLen: nat
    const data: seq<array<Cell>>      // per layer, one cell per position

    constructor (maxLen: nat, data: seq<array<Cell>>)
      ensures this.maxLen == maxLen && this.data == data
    {
      this.maxLen, this.data := maxLen, data;
    }

    ghost predicate Valid(layers: nat) {
      |data| == layers && NoDup(data) && forall l :: 0 <= l < |data| ==> data[l].Length == maxLen
    }

    /** Cells for positions start, start + 1, ... of one layer. */
    method Write(layer: nat, start: nat, cells: seq<Cell>)
      requires layer < |data| && Valid(|data|) && start + |cells| <= maxLen
      modifies data[layer]
      ensures data[layer][..] == old(data[layer][..start]) + cells + old(data[layer][start + |cells|..])
    {
      var a := data[layer];
      ghost var was := a[..];
      for j := 0 to |cells|
        invariant a[..] == was[..start] + cells[..j] + was[start + j..]
      {
        a[start + j] := cells[j];
      }
    }

    /** The first n positions of one layer. */
    function Read(layer: nat, n: nat): (r: seq<Cell>)
      requires layer < |data| && Valid(|data|) && n <= maxLen
      reads data[layer]
    {
      data[layer][..n]
    }

    /** Layer l holds the first n cells of a sequence. */
    ghost predicate LayerHolds(net: Net, l: nat, toks: seq<Token>, n: nat)
      requires l < |data|
      reads data[l]
    {
      n <= |toks| && n <= data[l].Length && data[l][..n] == Cells(net, toks, l, n)
    }

    ghost predicate Holds(net: Net, toks: seq<Token>, n: nat)
      reads data
    {
      Valid(net.layers) && forall l :: 0 <= l < |data| ==> LayerHolds(net, l, toks, n)
    }
  }

  /** Hidden states of the columns fed are those of a full recomputation. */
  ghost predicate ColumnsRight(net: Net, toks: seq<Token>, start: nat, l: nat, x: seq<Hidden>) {
    |toks| == start + |x| && forall t :: 0 <= t < |x| ==> x[t] == HiddenAt(net, toks, l, start + t)
  }

  /** How much of the sequence layer k holds once the first l layers are done. */
  function Upto(k: nat, l: nat, start: nat, total: nat): nat {
    if k < l then total else start
  }

  /** Layers below l hold all of the sequence, the others its first `start` cells. */
  ghost predicate Filled(cache: ContiguousKVCache, net: Net, toks: seq<Token>, start: nat, l: nat)
    reads cache.data
  {
    && cache.Valid(net.layers)
    && forall k :: 0 <= k < |cache.data| ==> cache.LayerHolds(net, k, toks, Upto(k, l, start, |toks|))
  }

  lemma FilledHolds(cache: ContiguousKVCache, net: Net, toks: seq<Token>, start: nat)
    requires Filled(cache, net, toks, start, net.layers)
    ensures cache.Holds(net, toks, |toks|)
  {
    forall k | 0 <= k < |cache.data| ensures cache.LayerHolds(net, k, toks, |toks|) {
      assert cache.LayerHolds(net, k, toks, Upto(k, net.layers, start, |toks|));
    }
  }

  lemma CellsPrefix(net: Net, toks: seq<Token>, l: nat, m: nat, n: nat)
    requires m <= n <= |toks|
    ensures Cells(net, toks, l, n)[..m] == Cells(net, toks, l, m)
  {
  }

  /** Appending a token keeps the cells of what is already there. */
  lemma CellsGrow(net: Net, toks: seq<Token>, more: seq<Token>, l: nat)
    ensures Cells(net, toks + more, l, |toks|) == Cells(net, toks, l, |toks|)
  {
    forall j | 0 <= j < |toks| ensures Cells(net, toks + more, l, |toks|)[j] == Cells(net, toks, l, |toks|)[j] {
      CellsExtend(net, toks, more, l, j);
    }
  }

  lemma HoldsGrow(cache: ContiguousKVCache, net: Net, toks: seq<Token>, tok: Token)
    requires cache.Holds(net, toks, |toks|)
    ensures cache.Holds(net, toks + [tok], |toks|)
  {
    forall l | 0 <= l < |cache.data| ensures cache.LayerHolds(net, l, toks + [tok], |toks|) {
      CellsGrow(net, toks, [tok], l);
      assert cache.LayerHolds(net, l, toks, |toks|);
    }
  }

  class SingleRunner {
    const net: Net

    constructor (net: Net)
      ensures this.net == net
    {
      this.net := net;
    }

    /**
     Forward for one sequence: the whole prompt at once, or a single token at its position.  With the
     earlier cells in the cache the last state is that of a full recomputation, and the cache is filled up.
     */
    method ForwardSingle(ids: seq<Token>, start: nat, cache: ContiguousKVCache, ghost toks: seq<Token>) returns (last: Hidden)
      requires ids != [] && (start == 0 || |ids| == 1)
      requires |toks| == start + |ids| <= cache.maxLen && ids == toks[start..]
      requires cache.Holds(net, toks, start)
      modifies cache.data
      ensures last == HiddenAt(net, toks, net.layers, |toks| - 1)
      ensures cache.Holds(net, toks, |toks|)
    {
      var n := |ids|;
      var x := seq(n, t requires 0 <= t < n => net.embed(ids[t], start + t));
      for l := 0 to net.layers
        invariant |x| == n && ColumnsRight(net, toks, start, l, x) && Filled(cache, net, toks, start, l)
      {
        x := RunLayer(l, start, x, cache, toks);
      }
      FilledHolds(cache, net, toks, start);
      last := x[n - 1];
    }

    /** Write the fresh cells, read back everything, attend: causally over a prompt, to all for one token. */
    method RunLayer(l: nat, start: nat, x: seq<Hidden>, cache: ContiguousKVCache, ghost toks: seq<Token>) returns (y: seq<Hidden>)
      requires l < net.layers && x != [] && (start == 0 || |x| == 1) && |toks| <= cache.maxLen
      requires ColumnsRight(net, toks, start, l, x) && Filled(cache, net, toks, start, l)
      modifies cache.data[l]
      ensures |y| == |x| && ColumnsRight(net, toks, start, l + 1, y) && Filled(cache, net, toks, start, l + 1)
    {
      var n := |x|;
      var cells := seq(n, t requires 0 <= t < n => net.kv(l, x[t]));
      ghost var was := cache.data[l][..];
      assert cache.LayerHolds(net, l, toks, Upto(l, l, start, |toks|));
      cache.Write(l, start, cells);
      var keys := cache.Read(l, start + n);
      assert keys == Cells(net, toks, l, |toks|) by {
        assert keys == was[..start] + cells;
        assert was[..start] == Cells(net, toks, l, start);
        CellsPrefix(net, toks, l, start, |toks|);
      }
      assert Filled(cache, net, toks, start, l + 1) by {
        var next := l + 1;
        forall k | 0 <= k < |cache.data| && k != l
          ensures cache.LayerHolds(net, k, toks, Upto(k, next, start, |toks|))
        {
          assert old(cache.LayerHolds(net, k, toks, Upto(k, l, start, |toks|)));
          assert cache.data[k] != cache.data[l];
        }
      }
      y := seq(n, t requires 0 <= t < n => net.mix(l, x[t], if n > 1 then keys[..t + 1] else keys));
      forall t | 0 <= t < n ensures y[t] == HiddenAt(net, toks, l + 1, start + t) {
        CellsPrefix(net, toks, l, start + t + 1, |toks|);
        assert (if n > 1 then keys[..t + 1] else keys) == Cells(net, toks, l, start + t + 1);
      }
    }

    /**
     Cached generation equals full recomputation: prefill, then one token at a time.  At least one token
     is always generated.
     */
    method GenerateCached(cache: ContiguousKVCache, prompt: seq<Token>, maxNew: int, ignoreEos: bool) returns (out: seq<Token>)
      requires 1 <= |prompt| < MAX_CONTEXT && cache.maxLen == MAX_LEN && cache.Valid(net.layers)
      modifies cache.data
      ensures out == Greedy(net, prompt, [], Max(maxNew, 1), ignoreEos)
    {
      ghost var budget := Max(maxNew, 1);
      out := [];
      assert prompt[0..] == prompt && prompt + [] == prompt;
      var last := ForwardSingle(prompt, 0, cache, prompt);
      while true
        invariant |out| < budget && |prompt| + |out| < MAX_CONTEXT
        invariant Greedy(net, prompt, out, budget, ignoreEos) == Greedy(net, prompt, [], budget, ignoreEos)
        invariant last == HiddenAt(net, prompt + out, net.layers, |prompt + out| - 1)
        invariant cache.Holds(net, prompt + out, |prompt + out|)
        decreases budget - |out|
      {
        var nxt := net.head(last);
        assert nxt == NextToken(net, prompt + out);
        ghost var before := prompt + out;
        out := out + [nxt];
        var seqLen := |prompt| + |out|;
        assert prompt + out == before + [nxt];
        if |out| >= maxNew || seqLen >= MAX_CONTEXT {
          return;
        }
        if nxt == EOS_TOKEN_ID && !ignoreEos {
          return;
        }
        HoldsGrow(cache, net, before, nxt);
        assert (prompt + out)[seqLen - 1..] == [nxt];
        last := ForwardSingle([nxt], seqLen - 1, cache, prompt + out);
      }
    }

    /**
     Greedy decode by recomputing everything each step.  `leaves(k)` says whether the client is gone once
     k tokens are out.  Tokens reach the sink one by one, the finished flag with the last of them only.
     */
    method Run(req: Request, leaves: nat -> bool)
      requires req.prompt != [] && req.output == [] && req.sent == []
      modifies req
      ensures req.View() == old(req.View()).(output := req.output, sent := req.sent, cancelled := req.cancelled,
                                             phase := Finished, reason := req.reason)
      ensures req.reason == if req.cancelled then Some(Cancelled) else old(req.reason)
      ensures var full := Greedy(net, req.prompt, [], req.maxNew, req.ignoreEos);
        SentSoFar(req.View(), full) && UntilGone(full, leaves, old(req.cancelled), req.output, req.cancelled)
    {
      hide Greedy, NextToken, SentSoFar, UntilGone, StillThere;
      ghost var full := Greedy(net, req.prompt, [], req.maxNew, req.ignoreEos);
      req.phase := Running;
      Generate(req, leaves);
      ghost var r := req.View();
      if leaves(|req.output|) {
        req.cancelled := true;
      }
      req.phase := Finished;
      if req.cancelled {
        req.reason := Some(Cancelled);
      }
      SentFrame(r, req.View(), full);
      LeftInTheEnd(full, leaves, old(req.cancelled), req.output, r.cancelled);
    }

    method Generate(req: Request, leaves: nat -> bool)
      requires req.prompt != [] && req.output == [] && req.sent == []
      modifies req
      ensures req.View() == old(req.View()).(output := req.output, sent := req.sent, cancelled := req.cancelled)
      ensures var full := Greedy(net, req.prompt, [], req.maxNew, req.ignoreEos);
        SentSoFar(req.View(), full) && (!req.cancelled ==> req.output == full)
      ensures StillThere(leaves, old(req.cancelled), req.output)
      ensures req.cancelled ==> old(req.cancelled) || leaves(|req.output|)
      ensures old(req.cancelled) ==> req.cancelled
    {
      hide Greedy, NextToken, SentSoFar;
      ghost var r0 := req.View();
      ghost var full := Greedy(net, req.prompt, [], req.maxNew, req.ignoreEos);
      NothingSent(req.View(), full);
      while |req.output| < req.maxNew
        invariant req.View() == r0.(output := req.output, sent := req.sent)
        invariant StillThere(leaves, r0.cancelled, req.output)
        invariant Greedy(net, req.prompt, req.output, req.maxNew, req.ignoreEos) == full && SentSoFar(req.View(), full)
        decreases req.maxNew - |req.output|
      {
        ghost var r := req.View();
        if leaves(|req.output|) {
          req.cancelled := true;
        }
        SentFrame(r, req.View(), full);
        if req.SeqLen() >= MAX_CONTEXT || req.cancelled {
          break;
        }
        NaiveIteration(net, req.View(), full);
        var next := NextToken(net, req.prompt + req.output);
        req.output := req.output + [next];
        OnToken(req, next);
        if next == EOS_TOKEN_ID && !req.ignoreEos {
          return;
        }
      }
      GreedyDone(net, req.prompt, req.output, req.maxNew, req.ignoreEos);
    }

    /** Passes a token to the sink; the flag says whether the loop will stop after it. */
    method OnToken(req: Request, tok: Token)
      modifies req`sent
      ensures req.sent == old(req.sent) + [(tok, StopsAfter(req.View(), tok))]
    {
      var done := |req.output| >= req.maxNew || (tok == EOS_TOKEN_ID && !req.ignoreEos) || req.SeqLen() >= MAX_CONTEXT;
      req.sent := req.sent + [(tok, done)];
    }
  }

  /** The naive loop stops after this token. */
  predicate StopsAfter(r: Req, tok: Token) {
    |r.output| >= r.maxNew || (tok == EOS_TOKEN_ID && !r.ignoreEos) || r.SeqLen() >= MAX_CONTEXT
  }

  /** The sink saw the tokens so far; the finished flag only comes with the last token of all. */
  ghost predicate SentSoFar(r: Req, full: seq<Token>) {
    && |r.sent| == |r.output| && r.output <= full
    && forall k :: 0 <= k < |r.sent| ==> r.sent[k] == (r.output[k], k == |full| - 1)
  }

  /** The client was there before each of these tokens. */
  ghost predicate StillThere(leaves: nat -> bool, wasGone: bool, output: seq<Token>) {
    forall k: nat :: k < |output| ==> !wasGone && !leaves(k)
  }

  /**
   Of the whole sequence `full` the client gets the tokens up to the moment it leaves: nothing is generated
   for a client that has gone, and everything for one that stays.
   */
  ghost predicate UntilGone(full: seq<Token>, leaves: nat -> bool, wasGone: bool, output: seq<Token>, gone: bool) {
    && output <= full && StillThere(leaves, wasGone, output)
    && (gone <==> wasGone || leaves(|output|))
    && (!gone ==> output == full)
  }

  lemma LeftInTheEnd(full: seq<Token>, leaves: nat -> bool, wasGone: bool, output: seq<Token>, gone: bool)
    requires output <= full && StillThere(leaves, wasGone, output) && (!gone ==> output == full)
    requires (gone ==> wasGone || leaves(|output|)) && (wasGone ==> gone)
    ensures UntilGone(full, leaves, wasGone, output, gone || leaves(|output|))
  {
  }

  /** That says exactly which tokens: those before the first moment at which the client is gone. */
  lemma UntilGoneIsExact(full: seq<Token>, leaves: nat -> bool, wasGone: bool, output: seq<Token>, gone: bool, n: nat)
    requires UntilGone(full, leaves, wasGone, output, gone) && n <= |full|
    ensures |output| == n <==> StillThere(leaves, wasGone, full[..n]) && (n < |full| ==> wasGone || leaves(n))
    ensures output == full[..|output|] && (wasGone ==> output == [])
  {
    if |output| > 0 {
      ThereBefore(leaves, wasGone, output, 0);
    }
    if n < |output| {
      ThereBefore(leaves, wasGone, output, n);
    } else if |output| < n && StillThere(leaves, wasGone, full[..n]) {
      ThereBefore(leaves, wasGone, full[..n], |output|);
    }
  }

  lemma ThereBefore(leaves: nat -> bool, wasGone: bool, output: seq<Token>, k: nat)
    requires StillThere(leaves, wasGone, output) && k < |output|
    ensures !wasGone && !leaves(k)
  {
  }

  lemma NothingSent(r: Req, full: seq<Token>)
    requires r.sent == [] && r.output == []
    ensures SentSoFar(r, full)
  {
  }

  lemma SentFrame(r: Req, r': Req, full: seq<Token>)
    requires SentSoFar(r, full) && r'.sent == r.sent && r'.output == r.output
    ensures SentSoFar(r', full)
  {
  }

  lemma GreedyDone(net: Net, prompt: seq<Token>, out: seq<Token>, maxNew: int, ignoreEos: bool)
    requires prompt != []
    ensures |out| >= maxNew || |prompt| + |out| >= MAX_CONTEXT ==> Greedy(net, prompt, out, maxNew, ignoreEos) == out
  {
  }

  lemma NaiveIteration(net: Net, r: Req, full: seq<Token>)
    requires r.prompt != [] && |r.output| < r.maxNew && |r.prompt| + |r.output| < MAX_CONTEXT
    requires Greedy(net, r.prompt, r.output, r.maxNew, r.ignoreEos) == full && SentSoFar(r, full)
    ensures var t := NextToken(net, r.prompt + r.output);
      var r1 := r.(output := r.output + [t]);
      var r' := r1.(sent := r.sent + [(t, StopsAfter(r1, t))]);
      && SentSoFar(r', full)
      && (StopsAfter(r1, t) <==> r'.output == full)
      && (t != EOS_TOKEN_ID || r.ignoreEos ==> Greedy(net, r.prompt, r'.output, r.maxNew, r.ignoreEos) == full)
  {
    var t := NextToken(net, r.prompt + r.output);
    StopsHere(net, r.prompt, r.output, t, r.maxNew, r.ignoreEos);
  }

  /** Cached generation differs from the naive loop exactly when no token was asked for: it emits one anyway. */
  lemma CachedEqualsNaiveIff(net: Net, prompt: seq<Token>, maxNew: int, ignoreEos: bool)
    requires 1 <= |prompt| < MAX_CONTEXT
    ensures Greedy(net, prompt, [], Max(maxNew, 1), ignoreEos) == Greedy(net, prompt, [], maxNew, ignoreEos) <==> maxNew >= 1
  {
    if maxNew < 1 {
      var t := NextToken(net, prompt + []);
      GreedyExtends(net, prompt, [] + [t], 1, ignoreEos);
    }
  }

  /** The token is the last one generated exactly when one of the three stopping conditions holds. */
  lemma StopsHere(net: Net, prompt: seq<Token>, out: seq<Token>, next: Token, maxNew: int, ignoreEos: bool)
    requires prompt != [] && |out| < maxNew && |prompt| + |out| < MAX_CONTEXT && next == NextToken(net, prompt + out)
    ensures var full := Greedy(net, prompt, out, maxNew, ignoreEos);
      && out + [next] <= full
      && (|out| == |full| - 1 <==>
            |out| + 1 >= maxNew || (next == EOS_TOKEN_ID && !ignoreEos) || |prompt| + |out| + 1 >= MAX_CONTEXT)
  {
    var out' := out + [next];
    if next == EOS_TOKEN_ID && !ignoreEos {
    } else {
      GreedyExtends(net, prompt, out', maxNew, ignoreEos);
      if |out'| < maxNew && |prompt| + |out'| < MAX_CONTEXT {
        var t := NextToken(net, prompt + out');
        if t != EOS_TOKEN_ID || ignoreEos {
          GreedyExtends(net, prompt, out' + [t], maxNew, ignoreEos);
        }
      }
    }
  }

  // ------------------------------------------------------------------ the naive scheduler

  /** One request at a time, full recompute every token. */
  class NaiveScheduler {
    const runner: SingleRunner
    var waiting: seq<Request>

    constructor (runner: SingleRunner)
      ensures this.runner == runner && waiting == []
    {
      this.runner, waiting := runner, [];
    }

    method Submit(req: Request)
      modifies this, req`maxNew
      ensures req.maxNew == Min(old(req.maxNew), MAX_CONTEXT - |req.prompt|) && waiting == old(waiting) + [req]
    {
      req.maxNew := Min(req.maxNew, MAX_CONTEXT - |req.prompt|);
      waiting := waiting + [req];
    }

    /** Serves the first request whose client is still there, alone, to the end or until its client leaves. */
    method Step(leaves: nat -> bool) returns (served: Option<Request>)
      requires forall r :: r in waiting ==> r.prompt != [] && r.output == [] && r.sent == []
      modifies this, waiting
      ensures old(NotCancelled(waiting)) == [] ==> served == None && waiting == []
      ensures old(NotCancelled(waiting)) != [] ==>
        served == Some(old(NotCancelled(waiting)[0])) && waiting == old(NotCancelled(waiting))[1..] && served.value in old(waiting)
      ensures forall r :: r in old(waiting) && served == Some(r) ==>
        && r.prompt != []
        && (var full := Greedy(runner.net, r.prompt, [], r.maxNew, r.ignoreEos);
            UntilGone(full, leaves, false, r.output, r.cancelled) && SentSoFar(r.View(), full))
        && r.reason == Some(if r.cancelled then Cancelled else old(r.reason).GetOr(Length))
        && r.View() == old(r.View()).(output := r.output, sent := r.sent, cancelled := r.cancelled, phase := Finished, reason := r.reason)
      ensures forall r :: r in old(waiting) && served != Some(r) ==> unchanged(r)
    {
      hide Greedy, SentSoFar, UntilGone;
      waiting := NotCancelled(waiting);
      if waiting == [] {
        return None;
      }
      var req := waiting[0];
      NotCancelledMember(old(waiting), req);
      waiting := waiting[1..];
      runner.Run(req, leaves);
      ghost var r := req.View();
      if req.reason == None {
        req.reason := Some(Length);
      }
      SentFrame(r, req.View(), Greedy(runner.net, req.prompt, [], req.maxNew, req.ignoreEos));
      return Some(req);
    }
  }
}
