/** The request record that the scheduler and the allocators mutate. */
module Requests {
  import opened Prelude
  import opened Transformer
  import opened Scheduling

  class Request {
    const id: Id
    const prompt: seq<Token>
    const ignoreEos: bool
    const arrival: int
    var maxNew: int
    var output: seq<Token>
    var phase: Phase
    var reason: Option<Reason>
    var table: seq<nat>
    var admitSeq: int
    var preempts: nat
    var cancelled: bool
    var sent: seq<(Token, bool)>      // every call made to the sink

    function View(): Req
      reads this
    {
      Req(prompt, maxNew, ignoreEos, arrival, output, phase, reason, table, admitSeq, preempts, cancelled, sent)
    }

    constructor (id: Id, prompt: seq<Token>, maxNew: int, ignoreEos: bool, arrival: int)
      ensures this.id == id
      ensures View() == Req(prompt, maxNew, ignoreEos, arrival, [], Waiting, None, [], -1, 0, false, [])
    {
      this.id, this.prompt, this.ignoreEos, this.arrival, this.maxNew := id, prompt, ignoreEos, arrival, maxNew;
      output, phase, reason, table, admitSeq, preempts, cancelled, sent := [], Waiting, None, [], -1, 0, false, [];
    }

    function SeqLen(): nat
      reads this
    {
      |prompt| + |output|
    }

    predicate Finished()
      reads this
    {
      reason.Some?
    }

    /** A generated token arrives. */
    method Emit(tok: Token)
      modifies this
      ensures View() == Scheduling.Emit(old(View()), tok)
    {
      output := output + [tok];
      if |output| >= maxNew {
        reason := Some(Length);
      } else if tok == EOS_TOKEN_ID && !ignoreEos {
        reason := Some(Stop);
      }
      sent := sent + [(tok, Finished())];
    }
  }

  function Ids(rs: seq<Request>): (ids: seq<Id>)
    ensures |ids| == |rs|
  {
    seq(|rs|, i requires 0 <= i < |rs| => rs[i].id)
  }

  /** The requests whose clients are still there, in order. */
  function NotCancelled(rs: seq<Request>): seq<Request>
    reads rs
  {
    if rs == [] then [] else NotCancelled(Init(rs)) + if Last(rs).cancelled then [] else [Last(rs)]
  }

  lemma {:induction false} NotCancelledMember(rs: seq<Request>, r: Request)
    ensures r in NotCancelled(rs) <==> r in rs && !r.cancelled
  {
    if rs != [] {
      NotCancelledMember(Init(rs), r);
      assert rs == Init(rs) + [Last(rs)];
    }
  }
}
