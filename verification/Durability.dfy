/** What the synced mark promises: a record behind it survives every run. */
module Durability {
  import opened Records
  import opened Journals
  import opened Protocol
  import opened Budgets
  import opened Windows

  /** `j'` still holds, in place, everything `j` had synced. */
  ghost predicate Keeps(j: Journal, j': Journal) {
    && j'.base == j.base && j.synced <= j'.synced <= |j'.log| && j.synced <= |j.log|
    && forall i | 0 <= i < j.synced :: j'.log[i] == j.log[i]
  }

  /** What a power loss may leave of `j`: a prefix of everything written, in write order
  across all keyspaces, reaching at least the synced mark. */
  ghost predicate Survivor(j: Journal, j': Journal) {
    && j'.base == j.base && j'.log <= j.log && j.synced <= |j'.log| && j'.synced == |j'.log|
  }

  lemma KeepsStep(w: Server, e: Event)
    requires BaseInv(w)
    ensures Keeps(w.journal, Step(w, e).journal)
    ensures !e.PowerLoss? ==> w.journal.log <= Step(w, e).journal.log
    ensures e.PowerLoss? ==> Survivor(w.journal, Step(w, e).journal) || Step(w, e) == w
  {
    if !e.PowerLoss? { StepNoLower(w, e, DayBucket(Day(0, 0, 0))); }
  }

  lemma {:induction false} KeepsRun(w: Server, es: seq<Event>)
    requires BaseInv(w)
    ensures BaseInv(Exec(w, es)) && Keeps(w.journal, Exec(w, es).journal)
    decreases |es|
  {
    if es != [] {
      var n := |es| - 1;
      KeepsRun(w, es[..n]);
      BaseStep(Exec(w, es[..n]), es[n]);
      KeepsStep(Exec(w, es[..n]), es[n]);
    }
  }

  /** The step on which an acknowledged put answers `Ok`: a send record's or a ledger row's
  sync, a consent write, a webhook's ledger update. */
  predicate Acknowledges(w: Server, e: Event) {
    || (e.OfCall? && e.call in w.calls && e.act == SyncSend(true) && w.calls[e.call].pc.Created?)
    || (e.OfCall? && e.call in w.calls && e.act == SyncRow(true)
        && w.calls[e.call].pc.Recorded? && w.calls[e.call].queue != [])
    || (IsConsent(e) && e.put.Synced? && Decided(w, e).Some?)
    || (e.Webhook? && e.put.Synced? && DeliveryKey(e.id, e.email) in w.journal.Now().deliveries)
  }

  lemma AcknowledgedIsSynced(w: Server, e: Event)
    requires Acknowledges(w, e)
    ensures Step(w, e).journal.synced == |Step(w, e).journal.log|
  {}

  /** Once a put has been acknowledged, its record and every record written before it, in
  whatever keyspace and however buffered, stand in place through every later run, with
  any number of power losses. */
  lemma AcknowledgedSurvives(w: Server, es: seq<Event>, e: Event, later: seq<Event>)
    requires Init(w) && Acknowledges(Exec(w, es), e)
    ensures var j, k := Exec(w, es + [e]).journal, Exec(w, es + [e] + later).journal;
            k.base == j.base && j.log <= k.log
  {
    var n := |es + [e]| - 1;
    assert (es + [e])[..n] == es;
    BaseRun(w, es + [e]);
    AcknowledgedIsSynced(Exec(w, es), e);
    ExecSplit(w, es + [e], later);
    KeepsRun(Exec(w, es + [e]), later);
  }

  /** A power loss leaves a prefix of what had been written, and each prefix reaching the mark can be left. */
  lemma LossLeavesSurvivors(w: Server, es: seq<Event>, j: Journal)
    requires Init(w)
    ensures Survivor(Exec(w, es).journal, j) <==>
              exists keep: nat | Exec(w, es).journal.synced <= keep <= |Exec(w, es).journal.log| ::
                Exec(w, es + [PowerLoss(keep)]).journal == j
  {
    var v := Exec(w, es);
    forall keep: nat | v.journal.synced <= keep <= |v.journal.log|
      ensures Exec(w, es + [PowerLoss(keep)]).journal == v.journal.Recover(keep)
    {
      LossRecovers(w, es, keep);
    }
    if Survivor(v.journal, j) {
      assert v.journal.Recover(|j.log|) == j;
      assert Exec(w, es + [PowerLoss(|j.log|)]).journal == j;
    }
  }

  lemma LossRecovers(w: Server, es: seq<Event>, keep: nat)
    requires Exec(w, es).journal.synced <= keep <= |Exec(w, es).journal.log|
    ensures Exec(w, es + [PowerLoss(keep)]).journal == Exec(w, es).journal.Recover(keep)
  {
    assert (es + [PowerLoss(keep)])[..|es|] == es;
  }
}
