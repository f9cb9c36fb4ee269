/** Where an address stands, as one number that no surviving write ever lowers. */
module Standings {
  import opened Records
  import opened Journals
  import opened Protocol
  import opened Frames
  import opened Budgets

  function Gen(t: Tables, k: string): nat {
    if k in t.subscribers then t.subscribers[k].generation else 0
  }

  predicate IsActive(t: Tables, k: string) {
    k in t.subscribers && t.subscribers[k].state.Active?
  }

  /** The row has been confirmed at some point: it is Active or Unsubscribed. */
  predicate Confirmed(t: Tables, k: string) {
    k in t.subscribers && !t.subscribers[k].state.Pending?
  }

  function Bit(b: bool): nat { if b then 1 else 0 }

  function RowRank(s: Subscriber): nat { 2 * s.generation + Bit(s.state.Active?) }

  /** Generation first, Active above not Active: a missing row ranks like a new one. */
  function Rank(t: Tables, k: string): nat { 2 * Gen(t, k) + Bit(IsActive(t, k)) }

  /** Pending rows are legacy rows, at generation 0. */
  ghost predicate LegacyPending(t: Tables) {
    forall k | k in t.subscribers && t.subscribers[k].state.Pending? :: t.subscribers[k].generation == 0
  }

  /** A record that may follow the tables `t`: a stored row is confirmed and outranks the row
  it replaces, a removed row was never confirmed. */
  predicate RecordOk(t: Tables, r: Record) {
    match r
    case PutSubscriber(row) => !row.state.Pending? && Rank(t, Key(row)) < RowRank(row)
    case RemoveSubscriber(key) => !Confirmed(t, key)
    case _ => true
  }

  ghost predicate LogOk(j: Journal) {
    LegacyPending(j.base) && forall i | 0 <= i < |j.log| :: RecordOk(j.View(i), j.log[i])
  }

  predicate Rowless(r: Record) { !r.PutSubscriber? && !r.RemoveSubscriber? }

  // ----- along the journal

  lemma NextView(j: Journal, p: nat)
    requires p < |j.log|
    ensures j.View(p + 1) == Apply(j.View(p), j.log[p])
  {
    assert j.log[..p + 1][..p] == j.log[..p];
  }

  lemma LegacyNext(t: Tables, r: Record)
    requires LegacyPending(t) && RecordOk(t, r)
    ensures LegacyPending(Apply(t, r))
  {}

  lemma {:induction false} LegacyView(j: Journal, p: nat)
    requires LogOk(j) && p <= |j.log|
    ensures LegacyPending(j.View(p))
    decreases p
  {
    if p > 0 {
      LegacyView(j, p - 1);
      NextView(j, p - 1);
      LegacyNext(j.View(p - 1), j.log[p - 1]);
    }
  }

  lemma LegacyNow(j: Journal)
    requires LogOk(j)
    ensures LegacyPending(j.Now())
  {
    LegacyView(j, |j.log|);
    FullView(j);
  }

  lemma RankNext(t: Tables, r: Record, k: string)
    requires LegacyPending(t) && RecordOk(t, r)
    ensures Rank(t, k) <= Rank(Apply(t, r), k)
    ensures r.PutSubscriber? && Key(r.row) == k ==> Rank(t, k) < Rank(Apply(t, r), k) == RowRank(r.row)
  {}

  lemma RankStep(j: Journal, p: nat, k: string)
    requires LogOk(j) && p < |j.log|
    ensures Rank(j.View(p), k) <= Rank(j.View(p + 1), k)
  {
    LegacyView(j, p);
    NextView(j, p);
    RankNext(j.View(p), j.log[p], k);
  }

  /** No record lowers a rank. */
  lemma {:induction false} RankRises(j: Journal, p: nat, q: nat, k: string)
    requires LogOk(j) && p <= q <= |j.log|
    ensures Rank(j.View(p), k) <= Rank(j.View(q), k)
    decreases q
  {
    if p < q {
      RankRises(j, p, q - 1, k);
      RankStep(j, q - 1, k);
    }
  }

  // ----- over a run

  lemma GrowsOk(j: Journal, j': Journal)
    requires j.Valid() && LogOk(j) && Grows(j, j')
    requires |j'.log| == |j.log| || RecordOk(j.Now(), j'.log[|j.log|])
    ensures LogOk(j')
  {
    GrownViews(j, j');
    forall i | 0 <= i < |j'.log|
      ensures RecordOk(j'.View(i), j'.log[i])
    {
      if i < |j.log| { assert j.log[i] == j'.log[i]; }
    }
  }

  lemma RecoverOk(j: Journal, keep: nat)
    requires LogOk(j) && keep <= |j.log|
    ensures LogOk(j.Recover(keep))
  {
    RecoverViews(j, keep);
  }

  /** A step of a call adds no record of a row. */
  lemma CallJournal(w: Server, c: nat, act: Act)
    requires w.journal.Valid() && c in w.calls
    ensures var j, j' := w.journal, CallStep(w, c, w.calls[c], act).journal;
            Grows(j, j') && (|j'.log| == |j.log| || Rowless(j'.log[|j.log|]))
  {
    var k := w.calls[c];
    if Quiet(act) {
      QuietCall(w, c, act);
    } else if Inserts(k, act) {
      InsertCall(w, c, act);
      WriteGrows(w.journal, InsertedRecord(k, act), act.io);
    } else if !act.HandOver? {
      IdleCall(w, c, act);
    }
  }

  lemma CallOk(w: Server, c: nat, act: Act)
    requires w.journal.Valid() && LogOk(w.journal) && c in w.calls
    ensures LogOk(CallStep(w, c, w.calls[c], act).journal)
  {
    CallJournal(w, c, act);
    GrowsOk(w.journal, CallStep(w, c, w.calls[c], act).journal);
  }

  /** Whatever a consent event stores outranks what it replaces, whoever authorised it. */
  lemma DecidedRaises(w: Server, e: Event)
    requires Keyed(w.journal.Now()) && LegacyPending(w.journal.Now()) && IsConsent(e) && Decided(w, e).Some?
    ensures RecordOk(w.journal.Now(), PutSubscriber(Decided(w, e).value))
    ensures e.ConfirmPost? || e.UnsubscribePost? ==> Key(Decided(w, e).value) == Lower(e.minted.token.email)
    ensures e.Suppress? ==> Key(Decided(w, e).value) == Lower(e.email)
  {}

  lemma PutOk(j: Journal, r: Record, io: PutIo)
    requires j.Valid() && LogOk(j) && RecordOk(j.Now(), r)
    ensures LogOk(j.Put(r, io))
  {
    PutGrows(j, r, io);
    GrowsOk(j, j.Put(r, io));
  }

  lemma WriteOk(j: Journal, r: Record, io: WriteIo)
    requires j.Valid() && LogOk(j) && RecordOk(j.Now(), r)
    ensures LogOk(j.Write(r, io))
  {
    WriteGrows(j, r, io);
    GrowsOk(j, j.Write(r, io));
  }

  lemma AsideOk(w: Server, e: Event)
    requires w.journal.Valid() && LogOk(w.journal) && Keyed(w.journal.Now()) && Aside(e)
    ensures LogOk(Step(w, e).journal)
  {
    var t := w.journal.Now();
    if IsConsent(e) {
      LegacyNow(w.journal);
      if Decided(w, e).Some? {
        DecidedRaises(w, e);
        PutOk(w.journal, PutSubscriber(Decided(w, e).value), e.put);
      }
    } else if e.Webhook? {
      var key := DeliveryKey(e.id, e.email);
      if key in t.deliveries {
        PutOk(w.journal, PutDelivery(Marked(t.deliveries[key], e.kind, e.unix)), e.put);
      }
    } else if e.PurgeRow? {
      if e.key in t.subscribers && Expired(t.subscribers[e.key], e.unix) {
        WriteOk(w.journal, RemoveSubscriber(e.key), e.io);
      }
    } else if e.Flush? {
      GrowsOk(w.journal, w.journal.Sync());
    }
  }

  lemma LogOkStep(w: Server, e: Event)
    requires BaseInv(w) && LogOk(w.journal)
    ensures LogOk(Step(w, e).journal)
  {
    BaseNow(w);
    if e.OfCall? {
      if e.call in w.calls { CallOk(w, e.call, e.act); }
    } else if Aside(e) {
      AsideOk(w, e);
    } else if e.PowerLoss? && w.journal.synced <= e.keep <= |w.journal.log| {
      RecoverOk(w.journal, e.keep);
    }
  }

  /** Every run's journal holds rising ranks, with no condition on what fails or is lost. */
  lemma {:induction false} LogOkRun(w: Server, es: seq<Event>)
    requires Init(w)
    ensures BaseInv(Exec(w, es)) && LogOk(Exec(w, es).journal)
    decreases |es|
  {
    BaseRun(w, es);
    if es != [] {
      var n := |es| - 1;
      LogOkRun(w, es[..n]);
      LogOkStep(Exec(w, es[..n]), es[n]);
    }
  }
}
