/** Consent over a run, one address at a time: what a token of the address can still do,
given what has happened to the row it was minted from. */
module Consent {
  import opened Records
  import opened Journals
  import opened Protocol
  import opened Frames
  import opened Budgets
  import opened Standings

  /** Confirm writes stored for `k`. */
  function Confirms(writes: seq<ConsentWrite>, k: string): nat {
    if writes == [] then 0
    else
      var last := writes[|writes| - 1];
      Confirms(writes[..|writes| - 1], k) + if last.key == k && last.author.ByConfirm? then 1 else 0
  }

  // ----- losing an address

  /** `k` stands the same in both tables: same generation, as Active, as confirmed. */
  predicate SameStanding(t: Tables, t': Tables, k: string) {
    && Gen(t', k) == Gen(t, k)
    && IsActive(t', k) == IsActive(t, k)
    && Confirmed(t', k) == Confirmed(t, k)
  }

  predicate InRange(j: Journal, keep: nat) { j.synced <= keep <= |j.log| }

  /** A power loss that takes address `k` back to another standing. */
  predicate Loses(w: Server, e: Event, k: string) {
    e.PowerLoss? && InRange(w.journal, e.keep) && !SameStanding(w.journal.Now(), w.journal.View(e.keep), k)
  }

  /** No power loss in this run takes address `k` back; what it does to others is left open. */
  ghost predicate Lossless(w: Server, es: seq<Event>, k: string) {
    es == [] ||
    (Lossless(w, es[..|es| - 1], k) && !Loses(Exec(w, es[..|es| - 1]), es[|es| - 1], k))
  }

  // ----- invariants of one address

  /** A reading of row `k` at generation `g` after `epoch` transitions is one the run could have made. */
  predicate Reading(w: Server, k: string, g: nat, epoch: nat) {
    g == Gen(w.journal.base, k) + epoch && epoch <= Epoch(w, k)
  }

  predicate TokenOk(w: Server, k: string, m: Minted) {
    Lower(m.token.email) == k ==>
      Reading(w, k, m.token.generation, m.epoch) && (m.token.kind.Unsubscribe? ==> Confirmed(w.journal.Now(), k))
  }

  predicate SeenOk(w: Server, k: string, s: Seen) {
    Key(s.row) == k ==> Reading(w, k, s.row.generation, s.epoch) && Confirmed(w.journal.Now(), k)
  }

  ghost predicate TokensOk(w: Server, k: string) {
    forall m | m in w.minted :: TokenOk(w, k, m)
  }

  ghost predicate QueuesOk(w: Server, k: string) {
    forall c, s | c in w.calls && s in w.calls[c].queue :: SeenOk(w, k, s)
  }

  /** The row's generation counts its transitions into Unsubscribed since the start. */
  predicate Counted(w: Server, k: string) { Gen(w.journal.Now(), k) == Gen(w.journal.base, k) + Epoch(w, k) }

  ghost predicate ConsentInv(w: Server, k: string) { Counted(w, k) && TokensOk(w, k) && QueuesOk(w, k) }

  // ----- steps that leave the address alone

  predicate StandsSame(w: Server, w': Server, k: string) {
    && w'.journal.base == w.journal.base && Epoch(w', k) == Epoch(w, k)
    && Gen(w'.journal.Now(), k) == Gen(w.journal.Now(), k)
    && Confirmed(w'.journal.Now(), k) == Confirmed(w.journal.Now(), k)
  }

  /** Every entry of the new queues was in an old one, or is a fair reading. */
  ghost predicate QueuesFrom(w: Server, w': Server, k: string) {
    forall c, s | c in w'.calls && s in w'.calls[c].queue :: (c in w.calls && s in w.calls[c].queue) || SeenOk(w, k, s)
  }

  lemma InvKept(w: Server, w': Server, k: string)
    requires ConsentInv(w, k) && StandsSame(w, w', k) && QueuesFrom(w, w', k)
    requires forall m | m in w'.minted :: m in w.minted || TokenOk(w, k, m)
    ensures ConsentInv(w', k)
  {
    forall m | m in w'.minted
      ensures TokenOk(w', k, m)
    {
      assert TokenOk(w, k, m);
    }
    forall c, s | c in w'.calls && s in w'.calls[c].queue
      ensures SeenOk(w', k, s)
    {
      assert SeenOk(w, k, s);
    }
  }

  // ----- calls

  lemma SnapshotSeen(w: Server, queue: seq<Seen>, k: string)
    requires Counted(w, k) && FromSnapshot(w, queue)
    ensures forall s | s in queue :: SeenOk(w, k, s)
  {
    forall s | s in queue
      ensures SeenOk(w, k, s)
    {
      var i :| 0 <= i < |queue| && queue[i] == s;
    }
  }

  lemma ConsentQuiet(w: Server, w': Server, c: nat, k: string)
    requires ConsentInv(w, k) && QuietMove(w, w', c)
    ensures ConsentInv(w', k)
  {
    var call, call' := w.calls[c], w'.calls[c];
    forall m | m in w'.minted && m !in w.minted
      ensures TokenOk(w, k, m)
    {
      assert SeenOk(w, k, call.queue[0]);
    }
    forall s | s in call'.queue && s !in call.queue
      ensures SeenOk(w, k, s)
    {
      SnapshotSeen(w, call'.queue, k);
    }
    InvKept(w, w', k);
  }

  /** A call step that is not quiet mints nothing and reads no row. */
  lemma LoudCall(w: Server, c: nat, act: Act)
    requires c in w.calls && !Quiet(act)
    ensures var w' := CallStep(w, c, w.calls[c], act);
      && w'.minted == w.minted && c in w'.calls && w'.calls == w.calls[c := w'.calls[c]]
      && w'.calls[c].queue == w.calls[c].queue
  {
    if Inserts(w.calls[c], act) {
      InsertCall(w, c, act);
    } else if !act.HandOver? {
      IdleCall(w, c, act);
    }
  }

  lemma ConsentCall(w: Server, c: nat, act: Act, k: string)
    requires w.journal.Valid() && ConsentInv(w, k) && c in w.calls
    ensures ConsentInv(CallStep(w, c, w.calls[c], act), k)
  {
    var w' := CallStep(w, c, w.calls[c], act);
    if Quiet(act) {
      QuietCall(w, c, act);
      ConsentQuiet(w, w', c, k);
    } else {
      LoudCall(w, c, act);
      CallHistory(w, c, act);
      CallTables(w, c, act);
      InvKept(w, w', k);
    }
  }

  // ----- consent writes

  /** What a consent event stores, in terms of the row it replaces: a confirm makes a
  row that is not Active Active at its own generation, everything else takes an
  Active row to Unsubscribed and up one generation. */
  predicate Transition(w: Server, e: Event, row: Subscriber)
    requires IsConsent(e)
  {
    var t, k := w.journal.Now(), Key(row);
    if e.ConfirmPost? then
      && k == Lower(e.minted.token.email) && !IsActive(t, k)
      && row.state.Active? && row.generation == Gen(t, k) == e.minted.token.generation
    else
      && IsActive(t, k) && row.state.Unsubscribed? && row.generation == Gen(t, k) + 1
      && (e.UnsubscribePost? ==> k == Lower(e.minted.token.email) && e.minted.token.generation == Gen(t, k))
  }

  lemma DecidedTransition(w: Server, e: Event)
    requires BaseInv(w) && LogOk(w.journal) && IsConsent(e) && Decided(w, e).Some?
    requires ConsentInv(w, Key(Decided(w, e).value))
    ensures Transition(w, e, Decided(w, e).value)
  {
    BaseNow(w);
    LegacyNow(w.journal);
    DecidedRaises(w, e);
    if !e.Suppress? { assert TokenOk(w, Key(Decided(w, e).value), e.minted); }
  }

  /** The tables and history after a consent write that landed. */
  lemma StoredRow(w: Server, e: Event, row: Subscriber)
    requires w.journal.Valid() && IsConsent(e) && Decided(w, e) == Some(row) && Landed(e.put)
    ensures var w' := ConsentStep(w, e);
      && w'.journal.base == w.journal.base && w'.minted == w.minted && w'.calls == w.calls
      && w'.journal.Now().subscribers == w.journal.Now().subscribers[Key(row) := row]
      && w'.writes == w.writes + [ConsentWrite(Key(row), AuthorOf(e), GenerationOf(e))]
      && (forall k :: Epoch(w', k) == Epoch(w, k) + Bit(k == Key(row) && row.state.Unsubscribed?))
  {
    PutGrows(w.journal, PutSubscriber(row), e.put);
  }

  /** A consent event that stores nothing. */
  lemma StoredNothing(w: Server, e: Event)
    requires w.journal.Valid() && IsConsent(e) && (Decided(w, e).None? || !Landed(e.put))
    ensures ConsentStep(w, e) == w
  {}

  lemma ReadingsGrow(w: Server, w': Server, k: string)
    requires TokensOk(w, k) && QueuesOk(w, k) && w'.journal.base == w.journal.base
    requires w'.minted == w.minted && w'.calls == w.calls
    requires Epoch(w, k) <= Epoch(w', k) && Confirmed(w'.journal.Now(), k)
    ensures TokensOk(w', k) && QueuesOk(w', k)
  {
    forall m | m in w'.minted
      ensures TokenOk(w', k, m)
    {
      assert TokenOk(w, k, m);
    }
    forall c, s | c in w'.calls && s in w'.calls[c].queue
      ensures SeenOk(w', k, s)
    {
      assert SeenOk(w, k, s);
    }
  }

  lemma ConsentStore(w: Server, e: Event, k: string)
    requires BaseInv(w) && LogOk(w.journal) && ConsentInv(w, k) && IsConsent(e)
    ensures ConsentInv(ConsentStep(w, e), k)
  {
    if Decided(w, e).None? || !Landed(e.put) {
      StoredNothing(w, e);
    } else {
      var row, w' := Decided(w, e).value, ConsentStep(w, e);
      StoredRow(w, e, row);
      if Key(row) == k {
        DecidedTransition(w, e);
        ReadingsGrow(w, w', k);
      } else {
        InvKept(w, w', k);
      }
    }
  }

  // ----- the other events

  lemma ConsentMint(w: Server, email: string, unix: int, k: string)
    requires ConsentInv(w, k)
    ensures ConsentInv(Step(w, Subscribe(email, unix)), k)
  {
    LowerTwice(email);
    InvKept(w, Step(w, Subscribe(email, unix)), k);
  }

  lemma ConsentPurge(w: Server, key: string, unix: int, io: WriteIo, k: string)
    requires w.journal.Valid() && LogOk(w.journal) && ConsentInv(w, k)
    ensures ConsentInv(PurgeStep(w, key, unix, io), k)
  {
    LegacyNow(w.journal);
    WriteGrows(w.journal, RemoveSubscriber(key), io);
    InvKept(w, PurgeStep(w, key, unix, io), k);
  }

  lemma ConsentLoss(w: Server, keep: nat, k: string)
    requires w.journal.Valid() && ConsentInv(w, k) && InRange(w.journal, keep) && !Loses(w, PowerLoss(keep), k)
    ensures ConsentInv(Step(w, PowerLoss(keep)), k)
  {
    RecoverViews(w.journal, keep);
    InvKept(w, Step(w, PowerLoss(keep)), k);
  }

  lemma ConsentAside(w: Server, e: Event, k: string)
    requires BaseInv(w) && LogOk(w.journal) && ConsentInv(w, k) && (Aside(e) || e.Resolve?)
    ensures ConsentInv(Step(w, e), k)
  {
    BaseNow(w);
    if e.Resolve? {
      ResolveFrame(w, e);
      InvKept(w, Step(w, e), k);
    } else if IsConsent(e) {
      ConsentStore(w, e, k);
    } else if e.Subscribe? {
      ConsentMint(w, e.email, e.unix, k);
    } else if e.Webhook? {
      WebhookRowFrame(w, e.id, e.email, e.kind, e.unix, e.put);
      InvKept(w, Step(w, e), k);
    } else if e.PurgeRow? {
      ConsentPurge(w, e.key, e.unix, e.io, k);
    } else {
      InvKept(w, Step(w, e), k);
    }
  }

  lemma ConsentInvStep(w: Server, e: Event, k: string)
    requires BaseInv(w) && LogOk(w.journal) && ConsentInv(w, k) && !Loses(w, e, k)
    ensures ConsentInv(Step(w, e), k)
  {
    if e.OfCall? {
      if e.call in w.calls { ConsentCall(w, e.call, e.act, k); }
    } else if e.Kill? {
      InvKept(w, Step(w, e), k);
    } else if e.PowerLoss? {
      if InRange(w.journal, e.keep) { ConsentLoss(w, e.keep, k); }
    } else {
      ConsentAside(w, e, k);
    }
  }

  lemma {:induction false} ConsentRun(w: Server, es: seq<Event>, k: string)
    requires Init(w) && Lossless(w, es, k)
    ensures BaseInv(Exec(w, es)) && LogOk(Exec(w, es).journal) && ConsentInv(Exec(w, es), k)
    decreases |es|
  {
    LogOkRun(w, es);
    if es != [] {
      var n := |es| - 1;
      ConsentRun(w, es[..n], k);
      ConsentInvStep(Exec(w, es[..n]), es[n], k);
    }
  }
}
