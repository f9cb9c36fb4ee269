/** What the generation of a token tells, for every address that no power loss takes back,
whatever happens to the others. `Revivals` has the results that need no such condition. */
module ConsentResults {
  import opened Records
  import opened Journals
  import opened Protocol
  import opened Frames
  import opened Budgets
  import opened Standings
  import opened Consent

  // ----- only consent events move rows

  /** `k` keeps its generation and its being Active, and no write or transition of it is recorded. */
  ghost predicate RowKept(w: Server, w': Server, k: string) {
    && StandsSame(w, w', k) && IsActive(w'.journal.Now(), k) == IsActive(w.journal.Now(), k)
    && w'.writes == w.writes
  }

  lemma CallKeepsRow(w: Server, c: nat, act: Act, k: string)
    requires w.journal.Valid() && c in w.calls
    ensures RowKept(w, CallStep(w, c, w.calls[c], act), k)
  {
    CallHistory(w, c, act);
    CallTables(w, c, act);
  }

  lemma PurgeKeepsRow(w: Server, key: string, unix: int, io: WriteIo, k: string)
    requires w.journal.Valid() && LogOk(w.journal)
    ensures RowKept(w, PurgeStep(w, key, unix, io), k)
  {
    LegacyNow(w.journal);
    WriteGrows(w.journal, RemoveSubscriber(key), io);
  }

  lemma AsideKeepsRow(w: Server, e: Event, k: string)
    requires BaseInv(w) && LogOk(w.journal) && (Aside(e) || e.Resolve?) && !IsConsent(e)
    ensures RowKept(w, Step(w, e), k)
  {
    BaseNow(w);
    if e.Resolve? {
      ResolveFrame(w, e);
    } else if e.Webhook? {
      WebhookRowFrame(w, e.id, e.email, e.kind, e.unix, e.put);
    } else if e.PurgeRow? {
      PurgeKeepsRow(w, e.key, e.unix, e.io, k);
    }
  }

  lemma StepKeepsRow(w: Server, e: Event, k: string)
    requires BaseInv(w) && LogOk(w.journal) && !Loses(w, e, k) && !IsConsent(e)
    ensures RowKept(w, Step(w, e), k)
  {
    if e.OfCall? {
      if e.call in w.calls { CallKeepsRow(w, e.call, e.act, k); }
    } else if Aside(e) || e.Resolve? {
      AsideKeepsRow(w, e, k);
    } else if e.PowerLoss? && InRange(w.journal, e.keep) {
      RecoverViews(w.journal, e.keep);
    }
  }

  // ----- confirms against transitions

  predicate Balanced(w: Server, k: string) {
    Confirms(w.writes, k) + Bit(IsActive(w.journal.base, k)) == Epoch(w, k) + Bit(IsActive(w.journal.Now(), k))
  }

  lemma ConfirmsAppend(writes: seq<ConsentWrite>, x: ConsentWrite, k: string)
    ensures Confirms(writes + [x], k) == Confirms(writes, k) + Bit(x.key == k && x.author.ByConfirm?)
  {
    assert (writes + [x])[..|writes + [x]| - 1] == writes;
  }

  lemma BalanceStored(w: Server, e: Event, row: Subscriber, k: string)
    requires w.journal.Valid() && IsConsent(e) && Decided(w, e) == Some(row) && Landed(e.put)
    requires Balanced(w, k) && (Key(row) == k ==> Transition(w, e, row))
    ensures Balanced(ConsentStep(w, e), k)
  {
    StoredRow(w, e, row);
    ConfirmsAppend(w.writes, ConsentWrite(Key(row), AuthorOf(e), GenerationOf(e)), k);
  }

  lemma BalanceConsent(w: Server, e: Event, k: string)
    requires BaseInv(w) && LogOk(w.journal) && ConsentInv(w, k) && Balanced(w, k) && IsConsent(e)
    ensures Balanced(ConsentStep(w, e), k)
  {
    if Decided(w, e).None? || !Landed(e.put) {
      StoredNothing(w, e);
    } else {
      var row := Decided(w, e).value;
      if Key(row) == k { DecidedTransition(w, e); }
      BalanceStored(w, e, row, k);
    }
  }

  lemma BalanceStep(w: Server, e: Event, k: string)
    requires BaseInv(w) && LogOk(w.journal) && ConsentInv(w, k) && Balanced(w, k) && !Loses(w, e, k)
    ensures Balanced(Step(w, e), k)
  {
    if IsConsent(e) {
      BalanceConsent(w, e, k);
    } else {
      StepKeepsRow(w, e, k);
    }
  }

  lemma {:induction false} BalanceRun(w: Server, es: seq<Event>, k: string)
    requires Init(w) && Lossless(w, es, k)
    ensures Balanced(Exec(w, es), k)
    decreases |es|
  {
    if es != [] {
      var n := |es| - 1;
      ConsentRun(w, es[..n], k);
      BalanceRun(w, es[..n], k);
      BalanceStep(Exec(w, es[..n]), es[n], k);
    }
  }

  // ----- epochs only grow

  lemma EpochStep(w: Server, e: Event, k: string)
    ensures Epoch(w, k) <= Epoch(Step(w, e), k)
  {
    if e.OfCall? && e.call in w.calls { CallHistory(w, e.call, e.act); }
  }

  lemma {:induction false} EpochRun(w: Server, es: seq<Event>, k: string)
    ensures Epoch(w, k) <= Epoch(Exec(w, es), k)
    decreases |es|
  {
    if es != [] {
      var n := |es| - 1;
      EpochRun(w, es[..n], k);
      EpochStep(Exec(w, es[..n]), es[n], k);
    }
  }

  // ----- main results

  /** A token's generation is the row's exactly when its address has been through no
  transition into Unsubscribed since the row was read for it, and is never ahead. */
  lemma GenerationTellsStaleness(w: Server, es: seq<Event>, m: Minted)
    requires Init(w) && m in Exec(w, es).minted && Lossless(w, es, Lower(m.token.email))
    ensures var v, k := Exec(w, es), Lower(m.token.email);
      && m.token.generation <= Gen(v.journal.Now(), k)
      && (m.token.generation == Gen(v.journal.Now(), k) <==> m.epoch == Epoch(v, k))
      && (m.token.kind.Unsubscribe? ==> Confirmed(v.journal.Now(), k))
  {
    ConsentRun(w, es, Lower(m.token.email));
    assert TokenOk(Exec(w, es), Lower(m.token.email), m);
  }

  /** Exactly when a commit writes: a presentable confirm token writes its row iff the
  row is not Active and there was no transition into Unsubscribed since the token's
  row was read; a presentable unsubscribe token, iff the row is Active and the same. */
  lemma CommitWritesIff(w: Server, es: seq<Event>, e: Event)
    requires Init(w) && (e.ConfirmPost? || e.UnsubscribePost?) && Lossless(w, es, Lower(e.minted.token.email))
    ensures var v, m, k := Exec(w, es), e.minted, Lower(e.minted.token.email);
      Decided(v, e).Some? <==>
        && Presentable(v, m, if e.ConfirmPost? then Confirm else Unsubscribe, e.unix)
        && IsActive(v.journal.Now(), k) == e.UnsubscribePost?
        && m.epoch == Epoch(v, k)
  {
    var v, m := Exec(w, es), e.minted;
    if m in v.minted {
      GenerationTellsStaleness(w, es, m);
      ConsentRun(w, es, Lower(m.token.email));
      if Decided(v, e).Some? {
        BaseNow(v);
        LegacyNow(v.journal);
        DecidedRaises(v, e);
        DecidedTransition(v, e);
      }
    }
  }

  /** Once an address has gone into Unsubscribed after a token's row was read, that
  token never writes again: not now, not after any continuation, not ever. */
  lemma StaleTokenNeverWrites(w: Server, xs: seq<Event>, ys: seq<Event>, m: Minted, unix: int, io: PutIo)
    requires Init(w) && Lossless(w, xs + ys, Lower(m.token.email))
    requires m in Exec(w, xs).minted && m.epoch < Epoch(Exec(w, xs), Lower(m.token.email))
    ensures var v := Exec(w, xs + ys);
      Step(v, ConfirmPost(m, unix, io)) == v && Step(v, UnsubscribePost(m, unix, io)) == v
  {
    ExecSplit(w, xs, ys);
    EpochRun(Exec(w, xs), ys, Lower(m.token.email));
    CommitWritesIff(w, xs + ys, ConfirmPost(m, unix, io));
    CommitWritesIff(w, xs + ys, UnsubscribePost(m, unix, io));
  }

  /** Confirms and transitions into Unsubscribed alternate. For an address that
  started without a row, the generation is the number of those transitions, and
  the confirm writes are as many, plus one while the row is Active. */
  lemma ConfirmsBalance(w: Server, es: seq<Event>, k: string)
    requires Init(w) && Lossless(w, es, k)
    ensures var v := Exec(w, es);
      && Confirms(v.writes, k) + Bit(IsActive(w.journal.base, k)) == Epoch(v, k) + Bit(IsActive(v.journal.Now(), k))
      && Gen(v.journal.Now(), k) == Gen(w.journal.base, k) + Epoch(v, k)
      && (k !in w.journal.base.subscribers ==>
            && Gen(v.journal.Now(), k) == Epoch(v, k)
            && Confirms(v.writes, k) == Epoch(v, k) + Bit(IsActive(v.journal.Now(), k)))
  {
    ConsentRun(w, es, k);
    BalanceRun(w, es, k);
    BaseFixed(w, es);
  }

  lemma {:induction false} BaseFixed(w: Server, es: seq<Event>)
    ensures Exec(w, es).journal.base == w.journal.base
    decreases |es|
  {
    if es != [] {
      var n := |es| - 1;
      BaseFixed(w, es[..n]);
      StepHistory(Exec(w, es[..n]), es[n]);
    }
  }

  /** What reaches the write arms: `apply` only ever takes an Active row down, and the
  arm of `/confirm` that creates a row only ever creates generation 0, purges or not. */
  lemma WriteArms(w: Server, es: seq<Event>, e: Event)
    requires Init(w) && IsConsent(e) && Decided(Exec(w, es), e).Some?
    requires Lossless(w, es, Key(Decided(Exec(w, es), e).value))
    ensures var v, row := Exec(w, es), Decided(Exec(w, es), e).value;
      && (e.UnsubscribePost? ==> IsActive(v.journal.Now(), Key(row)))
      && (e.ConfirmPost? && Key(row) !in v.journal.Now().subscribers ==> row.generation == 0)
      && row.generation == Gen(v.journal.Now(), Key(row)) + Bit(row.state.Unsubscribed?)
  {
    ConsentRun(w, es, Key(Decided(Exec(w, es), e).value));
    DecidedTransition(Exec(w, es), e);
  }

  // ----- when no power loss can drop a row of the address

  /** The address a consent event is about. */
  function Addressed(e: Event): string
    requires IsConsent(e)
  {
    Lower(if e.Suppress? then e.email else e.minted.token.email)
  }

  /** A consent write of `k` does not report an error after reaching the journal. */
  predicate Acknowledging(e: Event, k: string) {
    IsConsent(e) && Addressed(e) == k ==> e.put.Synced? || e.put == InsertFailed(false)
  }

  /** The tail a power loss drops holds no row of `k`. */
  predicate TailClean(j: Journal, keep: nat, k: string) {
    forall i | keep <= i < |j.log| :: j.log[i].PutSubscriber? ==> Key(j.log[i].row) != k
  }

  lemma CleanNext(t: Tables, r: Record, k: string)
    requires LegacyPending(t) && RecordOk(t, r) && (r.PutSubscriber? ==> Key(r.row) != k)
    ensures SameStanding(t, Apply(t, r), k)
  {}

  lemma CleanStep(j: Journal, keep: nat, p: nat, k: string)
    requires LogOk(j) && keep <= p < |j.log| && TailClean(j, keep, k)
    ensures SameStanding(j.View(p), j.View(p + 1), k)
  {
    LegacyView(j, p);
    NextView(j, p);
    CleanNext(j.View(p), j.log[p], k);
  }

  /** Dropping a tail without rows of the address does not take it back. */
  lemma {:induction false} CleanTailKeeps(j: Journal, keep: nat, p: nat, k: string)
    requires LogOk(j) && keep <= p <= |j.log| && TailClean(j, keep, k)
    ensures SameStanding(j.View(keep), j.View(p), k)
    decreases p
  {
    if keep < p {
      CleanTailKeeps(j, keep, p - 1, k);
      CleanStep(j, keep, p - 1, k);
    }
  }

  lemma SyncedGrows(j: Journal, j': Journal, k: string)
    requires j.Valid() && TailClean(j, j.synced, k) && Grows(j, j')
    requires || |j'.log| == |j.log| || j'.synced == |j'.log|
             || !j'.log[|j.log|].PutSubscriber? || Key(j'.log[|j.log|].row) != k
    ensures TailClean(j', j'.synced, k)
  {
    forall i | j'.synced <= i < |j'.log| && j'.log[i].PutSubscriber?
      ensures Key(j'.log[i].row) != k
    {
      if i < |j.log| { assert j.log[i] == j'.log[i]; }
    }
  }

  lemma CallTail(w: Server, c: nat, act: Act, k: string)
    requires w.journal.Valid() && TailClean(w.journal, w.journal.synced, k) && c in w.calls
    ensures var j := CallStep(w, c, w.calls[c], act).journal; TailClean(j, j.synced, k)
  {
    CallJournal(w, c, act);
    SyncedGrows(w.journal, CallStep(w, c, w.calls[c], act).journal, k);
  }

  lemma ConsentTail(w: Server, e: Event, k: string)
    requires BaseInv(w) && LogOk(w.journal) && TailClean(w.journal, w.journal.synced, k) && IsConsent(e)
    requires Acknowledging(e, k)
    ensures var j := ConsentStep(w, e).journal; TailClean(j, j.synced, k)
  {
    BaseNow(w);
    LegacyNow(w.journal);
    if Decided(w, e).Some? {
      DecidedRaises(w, e);
      PutGrows(w.journal, PutSubscriber(Decided(w, e).value), e.put);
      SyncedGrows(w.journal, ConsentStep(w, e).journal, k);
    }
  }

  lemma AsideTail(w: Server, e: Event, k: string)
    requires BaseInv(w) && TailClean(w.journal, w.journal.synced, k) && Aside(e) && !IsConsent(e)
    ensures var j := Step(w, e).journal; TailClean(j, j.synced, k)
  {
    BaseNow(w);
    AsideFrame(w, e);
    SyncedGrows(w.journal, Step(w, e).journal, k);
  }

  lemma StepTail(w: Server, e: Event, k: string)
    requires BaseInv(w) && LogOk(w.journal) && TailClean(w.journal, w.journal.synced, k) && Acknowledging(e, k)
    ensures var j := Step(w, e).journal; TailClean(j, j.synced, k)
  {
    BaseNow(w);
    if e.OfCall? {
      if e.call in w.calls { CallTail(w, e.call, e.act, k); }
    } else if IsConsent(e) {
      ConsentTail(w, e, k);
    } else if e.Resolve? {
      ResolveFrame(w, e);
    } else if Aside(e) {
      AsideTail(w, e, k);
    }
  }

  /** A run in which every consent write of an address either acknowledges or leaves no
  trace is lossless for that address, whatever else fails and whenever the power goes. */
  lemma {:induction false} AcknowledgingIsLossless(w: Server, es: seq<Event>, k: string)
    requires Init(w) && forall i | 0 <= i < |es| :: Acknowledging(es[i], k)
    ensures Lossless(w, es, k)
    ensures var j := Exec(w, es).journal; TailClean(j, j.synced, k)
    decreases |es|
  {
    if es != [] {
      var n := |es| - 1;
      var v := Exec(w, es[..n]);
      AcknowledgingIsLossless(w, es[..n], k);
      LogOkRun(w, es[..n]);
      StepTail(v, es[n], k);
      if es[n].PowerLoss? && InRange(v.journal, es[n].keep) {
        CleanTailKeeps(v.journal, es[n].keep, |v.journal.log|, k);
        FullView(v.journal);
      }
    }
  }
}
