/** Runs in which the calls on one id do not overlap, put together from shorter ones. */
module Serials {
  import opened Records
  import opened Protocol
  import opened Budgets

  lemma SerialMore(w: Server, es: seq<Event>, e: Event, id: SendId)
    requires Serial(w, es, id) && Apart(Exec(w, es), e, id)
    ensures Serial(w, es + [e], id)
  {
    assert (es + [e])[..|es|] == es;
  }

  lemma ApartMore(w: Server, xs: seq<Event>, ys: seq<Event>, e: Event, id: SendId)
    requires Apart(Exec(Exec(w, xs), ys), e, id)
    ensures Apart(Exec(w, xs + ys), e, id)
  {
    ExecSplit(w, xs, ys);
  }

  lemma LastOut<T>(xs: seq<T>, ys: seq<T>)
    requires ys != []
    ensures xs + ys == xs + ys[..|ys| - 1] + [ys[|ys| - 1]]
  {}

  lemma AppendMore(w: Server, xs: seq<Event>, ys: seq<Event>, id: SendId)
    requires ys != [] && Serial(w, xs + ys[..|ys| - 1], id)
    requires Apart(Exec(Exec(w, xs), ys[..|ys| - 1]), ys[|ys| - 1], id)
    ensures Serial(w, xs + ys, id)
  {
    ApartMore(w, xs, ys[..|ys| - 1], ys[|ys| - 1], id);
    SerialMore(w, xs + ys[..|ys| - 1], ys[|ys| - 1], id);
    LastOut(xs, ys);
  }

  /** Two such runs, one after the other, make one. */
  lemma {:induction false} SerialAppend(w: Server, xs: seq<Event>, ys: seq<Event>, id: SendId)
    requires Serial(w, xs, id) && Serial(Exec(w, xs), ys, id)
    ensures Serial(w, xs + ys, id)
    decreases |ys|
  {
    if ys == [] {
      assert xs + ys == xs;
    } else {
      SerialAppend(w, xs, ys[..|ys| - 1], id);
      AppendMore(w, xs, ys, id);
    }
  }

  predicate Unresolving(es: seq<Event>) { forall i | 0 <= i < |es| :: !es[i].Resolve? }

  /** A run that begins no call. */
  lemma {:induction false} SerialRest(w: Server, es: seq<Event>, id: SendId)
    requires Unresolving(es)
    ensures Serial(w, es, id)
    decreases |es|
  {
    if es != [] { SerialRest(w, es[..|es| - 1], id); }
  }

  /** A run that begins a call only with its first event, and only when all others have ended. */
  lemma {:induction false} SerialHead(w: Server, es: seq<Event>, id: SendId)
    requires forall c | c in w.calls :: Ended(w.calls[c].pc)
    requires forall i | 0 < i < |es| :: !es[i].Resolve?
    ensures Serial(w, es, id)
    decreases |es|
  {
    if |es| == 1 {
      assert es[..0] == [];
    } else if es != [] {
      SerialHead(w, es[..|es| - 1], id);
    }
  }
}
