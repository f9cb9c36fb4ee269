/** Retrying one send: over every run, whatever calls overlap, fail, are cut short or lose
power and whoever joins or leaves, its ledger keeps its durable rows and gains rows of
addresses that were Active in the meantime only, and one full call at the end completes it. */
module Retries {
  import opened Records
  import opened Journals
  import opened Protocol
  import opened Frames
  import opened Budgets
  import opened Orders
  import opened Plans
  import opened Durability

  function ActiveKeys(subscribers: map<string, Subscriber>): set<string> {
    set k | k in subscribers && subscribers[k].state.Active?
  }

  /** The addresses Active at some moment of a run, its first and its last included. */
  ghost function EverActive(w: Server, es: seq<Event>): set<string> {
    ActiveKeys(Exec(w, es).journal.Now().subscribers) + if es == [] then {} else EverActive(w, es[..|es| - 1])
  }

  /** The ledger of `id` has every row of `known`, and beyond those rows of `ever` only. */
  ghost predicate Between(t: Tables, id: SendId, known: set<string>, ever: set<string>) {
    known <= LedgerKeys(t, id) <= known + ever
  }

  predicate QueueActive(k: Call, ever: set<string>) {
    forall i | 0 <= i < |k.queue| :: Key(k.queue[i].row) in ever
  }

  ghost predicate CallsActive(w: Server, id: SendId, ever: set<string>) {
    forall c | c in w.calls && w.calls[c].send.id == id && !Ended(w.calls[c].pc) :: QueueActive(w.calls[c], ever)
  }

  ghost predicate Confined(w: Server, id: SendId, known: set<string>, ever: set<string>) {
    && AllViews(w.journal, t => Between(t, id, known, ever))
    && CallsActive(w, id, ever)
  }

  lemma ConfinedNow(w: Server, id: SendId, known: set<string>, ever: set<string>)
    requires w.journal.Valid() && Confined(w, id, known, ever)
    ensures Between(w.journal.Now(), id, known, ever)
  {
    FullView(w.journal);
    assert Between(w.journal.View(|w.journal.log|), id, known, ever);
  }

  lemma SameLedger(t: Tables, t': Tables, id: SendId, known: set<string>, ever: set<string>)
    requires Between(t, id, known, ever) && t'.deliveries.Keys == t.deliveries.Keys
    ensures Between(t', id, known, ever)
  {
    assert LedgerKeys(t', id) == LedgerKeys(t, id);
  }

  lemma MoreLedger(t: Tables, d: Delivery, id: SendId, known: set<string>, ever: set<string>)
    requires Between(t, id, known, ever) && (d.sendId == id ==> Lower(d.email) in ever)
    ensures Between(Apply(t, PutDelivery(d)), id, known, ever)
  {
    var t' := Apply(t, PutDelivery(d));
    forall k | k in LedgerKeys(t', id)
      ensures k in known + ever
    {
      assert (id, k) in t'.deliveries;
      if (id, k) in t.deliveries { assert (id, k).1 in LedgerKeys(t, id); }
    }
    forall k | k in known
      ensures k in LedgerKeys(t', id)
    {
      assert k in LedgerKeys(t, id) && (id, k) in t.deliveries;
      assert (id, k) in t'.deliveries && (id, k).1 == k;
    }
  }

  lemma ConfinedGrows(w: Server, w': Server, id: SendId, known: set<string>, ever: set<string>)
    requires w.journal.Valid() && Confined(w, id, known, ever) && Grows(w.journal, w'.journal)
    requires Between(w'.journal.Now(), id, known, ever) && CallsActive(w', id, ever)
    ensures Confined(w', id, known, ever)
  {
    GrownAllViews(w.journal, w'.journal, t => Between(t, id, known, ever));
  }

  lemma QueueMoves(w: Server, k: Call, k': Call, ever: set<string>)
    requires QuietQueue(w, k, k') && ActiveKeys(w.journal.Now().subscribers) <= ever && QueueActive(k, ever)
    ensures QueueActive(k', ever)
  {}

  lemma CallsMove(w: Server, w': Server, c: nat, id: SendId, ever: set<string>)
    requires CallsActive(w, id, ever) && c in w.calls && c in w'.calls && w'.calls == w.calls[c := w'.calls[c]]
    requires w'.calls[c].send == w.calls[c].send && (Ended(w.calls[c].pc) ==> Ended(w'.calls[c].pc))
    requires QueueActive(w.calls[c], ever) ==> QueueActive(w'.calls[c], ever)
    ensures CallsActive(w', id, ever)
  {}

  lemma ConfinedQuiet(w: Server, w': Server, c: nat, id: SendId, known: set<string>, ever: set<string>)
    requires w.journal.Valid() && Confined(w, id, known, ever) && QuietMove(w, w', c)
    requires ActiveKeys(w.journal.Now().subscribers) <= ever
    ensures Confined(w', id, known, ever)
  {
    ConfinedNow(w, id, known, ever);
    if QueueActive(w.calls[c], ever) { QueueMoves(w, w.calls[c], w'.calls[c], ever); }
    CallsMove(w, w', c, id, ever);
    ConfinedGrows(w, w', id, known, ever);
  }

  lemma ConfinedInsert(w: Server, w': Server, c: nat, r: Record, io: WriteIo, pc: Pc, id: SendId, known: set<string>,
                       ever: set<string>)
    requires w.journal.Valid() && Confined(w, id, known, ever) && InsertMove(w, w', c, r, io, pc)
    requires !Ended(w.calls[c].pc)
    requires Between(Apply(w.journal.Now(), r), id, known, ever)
    ensures Confined(w', id, known, ever)
  {
    ConfinedNow(w, id, known, ever);
    WriteGrows(w.journal, r, io);
    CallsMove(w, w', c, id, ever);
    ConfinedGrows(w, w', id, known, ever);
  }

  lemma ConfinedCall(w: Server, c: nat, act: Act, id: SendId, known: set<string>, ever: set<string>)
    requires w.journal.Valid() && Confined(w, id, known, ever) && c in w.calls
    requires ActiveKeys(w.journal.Now().subscribers) <= ever
    ensures Confined(CallStep(w, c, w.calls[c], act), id, known, ever)
  {
    var k := w.calls[c];
    if Quiet(act) {
      QuietCall(w, c, act);
      ConfinedQuiet(w, CallStep(w, c, k, act), c, id, known, ever);
    } else if act.HandOver? {
      if k.pc.Mailing? && k.queue != [] { CallsMove(w, CallStep(w, c, k, act), c, id, ever); }
    } else if !Inserts(k, act) {
      IdleCall(w, c, act);
    } else if act.InsertRow? {
      ConfinedRecord(w, c, act.io, act.at, id, known, ever);
    } else {
      ConfinedOther(w, c, act, id, known, ever);
    }
  }

  /** An insert outside the ledger. */
  lemma ConfinedOther(w: Server, c: nat, act: Act, id: SendId, known: set<string>, ever: set<string>)
    requires w.journal.Valid() && Confined(w, id, known, ever) && c in w.calls
    requires Inserts(w.calls[c], act) && !act.InsertRow?
    ensures Confined(CallStep(w, c, w.calls[c], act), id, known, ever)
  {
    var k := w.calls[c];
    var r := InsertedRecord(k, act);
    ConfinedNow(w, id, known, ever);
    InsertCall(w, c, act);
    SameLedger(w.journal.Now(), Apply(w.journal.Now(), r), id, known, ever);
    ConfinedInsert(w, CallStep(w, c, k, act), c, r, act.io, InsertedPc(k, act), id, known, ever);
  }

  lemma ConfinedRecord(w: Server, c: nat, io: WriteIo, at: int, id: SendId, known: set<string>, ever: set<string>)
    requires w.journal.Valid() && Confined(w, id, known, ever) && c in w.calls
    ensures Confined(InsertRowStep(w, c, w.calls[c], io, at), id, known, ever)
  {
    var k := w.calls[c];
    if k.pc.Settled? && k.queue != [] {
      ConfinedNow(w, id, known, ever);
      InsertLedger(w, c, io, at);
      assert k.send.id == id ==> QueueActive(k, ever);
      MoreLedger(w.journal.Now(), LedgerRow(k, at), id, known, ever);
      ConfinedInsert(w, InsertRowStep(w, c, k, io, at), c, PutDelivery(LedgerRow(k, at)), io, Recorded(k.pc.handed),
                     id, known, ever);
    }
  }

  lemma ConfinedAside(w: Server, e: Event, id: SendId, known: set<string>, ever: set<string>)
    requires w.journal.Valid() && Keyed(w.journal.Now()) && Confined(w, id, known, ever) && Aside(e)
    ensures Confined(Step(w, e), id, known, ever)
  {
    ConfinedNow(w, id, known, ever);
    AsideFrame(w, e);
    SameLedger(w.journal.Now(), Step(w, e).journal.Now(), id, known, ever);
    ConfinedGrows(w, Step(w, e), id, known, ever);
  }

  lemma ConfinedLoss(w: Server, keep: nat, id: SendId, known: set<string>, ever: set<string>)
    requires w.journal.Valid() && Confined(w, id, known, ever)
    ensures Confined(Step(w, PowerLoss(keep)), id, known, ever)
  {
    if w.journal.synced <= keep <= |w.journal.log| { RecoverViews(w.journal, keep); }
  }

  lemma ConfinedStep(w: Server, e: Event, id: SendId, known: set<string>, ever: set<string>)
    requires BaseInv(w) && Confined(w, id, known, ever) && ActiveKeys(w.journal.Now().subscribers) <= ever
    ensures Confined(Step(w, e), id, known, ever)
  {
    BaseNow(w);
    if e.Resolve? {
      ResolveFrame(w, e);
    } else if e.OfCall? {
      if e.call in w.calls { ConfinedCall(w, e.call, e.act, id, known, ever); }
    } else if Aside(e) {
      ConfinedAside(w, e, id, known, ever);
    } else if e.PowerLoss? {
      ConfinedLoss(w, e.keep, id, known, ever);
    }
  }

  lemma {:induction false} ConfinedRun(w: Server, es: seq<Event>, id: SendId, known: set<string>, ever: set<string>)
    requires BaseInv(w) && Confined(w, id, known, ever) && EverActive(w, es) <= ever
    ensures BaseInv(Exec(w, es)) && Confined(Exec(w, es), id, known, ever)
    decreases |es|
  {
    if es != [] {
      var n := |es| - 1;
      ConfinedRun(w, es[..n], id, known, ever);
      BaseStep(Exec(w, es[..n]), es[n]);
      ConfinedStep(Exec(w, es[..n]), es[n], id, known, ever);
    }
  }

  /** No call on `id` is under way, and everything written so far is durable. */
  ghost predicate Settled(v: Server, id: SendId) {
    && v.journal.synced == |v.journal.log|
    && forall c | c in v.calls && v.calls[c].send.id == id :: Ended(v.calls[c].pc)
  }

  lemma SettledConfined(v: Server, id: SendId, ever: set<string>)
    requires Settled(v, id)
    ensures Confined(v, id, LedgerKeys(v.journal.Now(), id), ever)
  {
    FullView(v.journal);
  }

  /** From a settled state, whatever happens (calls on this send or others, overlapping or not,
  cut short anywhere, kills, power losses, consent changes, webhooks, purges), the ledger of
  `id` keeps every row it had and gains rows of addresses that were Active in the meantime. */
  lemma LedgerOnlyFills(w: Server, xs: seq<Event>, es: seq<Event>, id: SendId)
    requires Init(w) && Settled(Exec(w, xs), id)
    ensures Between(Exec(w, xs + es).journal.Now(), id, LedgerKeys(Exec(w, xs).journal.Now(), id),
              EverActive(Exec(w, xs), es))
  {
    var v := Exec(w, xs);
    var known, ever := LedgerKeys(v.journal.Now(), id), EverActive(v, es);
    BaseRun(w, xs);
    SettledConfined(v, id, ever);
    ConfinedRun(v, es, id, known, ever);
    ExecSplit(w, xs, es);
    ConfinedNow(Exec(v, es), id, known, ever);
  }

  // ----- what is durable stays, settled or not

  lemma {:induction false} ReplayKeepsLedger(base: Tables, log: seq<Record>, more: seq<Record>)
    ensures Replay(base, log).deliveries.Keys <= Replay(base, log + more).deliveries.Keys
    decreases |more|
  {
    if more == [] {
      assert log + more == log;
    } else {
      var n := |more| - 1;
      assert (log + more)[..|log + more| - 1] == log + more[..n];
      ReplayKeepsLedger(base, log, more[..n]);
    }
  }

  lemma FewerKeys(t: Tables, t': Tables, id: SendId)
    requires t.deliveries.Keys <= t'.deliveries.Keys
    ensures LedgerKeys(t, id) <= LedgerKeys(t', id)
  {
    forall key | key in LedgerKeys(t, id)
      ensures key in LedgerKeys(t', id)
    {
      assert (id, key) in t'.deliveries && (id, key).1 == key;
    }
  }

  lemma KeepsLedger(j: Journal, k: Journal, id: SendId)
    requires Keeps(j, k)
    ensures LedgerKeys(Mark(j), id) <= LedgerKeys(k.Now(), id)
  {
    assert k.log == j.log[..j.synced] + k.log[j.synced..];
    ReplayKeepsLedger(j.base, j.log[..j.synced], k.log[j.synced..]);
    FewerKeys(Mark(j), k.Now(), id);
  }

  lemma DurableRowsStay(w: Server, xs: seq<Event>, es: seq<Event>, id: SendId)
    requires Init(w)
    ensures Exec(w, xs).journal.Valid()
    ensures LedgerKeys(Mark(Exec(w, xs).journal), id) <= LedgerKeys(Exec(w, xs + es).journal.Now(), id)
  {
    BaseRun(w, xs);
    ExecSplit(w, xs, es);
    KeepsRun(Exec(w, xs), es);
    KeepsLedger(Exec(w, xs).journal, Exec(w, xs + es).journal, id);
  }

  /** A ledger row outlives everything (retries, consent changes, webhooks, purges and power
  losses included) exactly when the synced mark covers it. */
  lemma RowSurvivesIff(w: Server, xs: seq<Event>, id: SendId, key: string)
    requires Init(w)
    ensures Exec(w, xs).journal.Valid()
    ensures key in LedgerKeys(Mark(Exec(w, xs).journal), id) <==>
              forall es :: key in LedgerKeys(Exec(w, xs + es).journal.Now(), id)
  {
    var j := Exec(w, xs).journal;
    BaseRun(w, xs);
    if key in LedgerKeys(Mark(j), id) {
      forall es
        ensures key in LedgerKeys(Exec(w, xs + es).journal.Now(), id)
      {
        DurableRowsStay(w, xs, es, id);
      }
    } else {
      LossRecovers(w, xs, j.synced);
      RecoverViews(j, j.synced);
      assert key !in LedgerKeys(Exec(w, xs + [PowerLoss(j.synced)]).journal.Now(), id);
    }
  }

  // ----- one full call at the end

  lemma SnapshotKeys(rows: seq<Subscriber>, subscribers: map<string, Subscriber>)
    requires UnderOwnKeys(subscribers) && IsSnapshot(rows, subscribers)
    ensures Keys(rows) == ActiveKeys(subscribers)
  {
    forall k | k in ActiveKeys(subscribers)
      ensures k in Keys(rows)
    {
      assert subscribers[k] in rows && Key(subscribers[k]) == k;
    }
  }

  /** A full call that no cap refuses adds every recipient that has no row yet. */
  lemma FullCallCompletes(caps: Caps, t: Tables, t': Tables, id: SendId, hour: Hour, rows: seq<Subscriber>)
    requires FullCall(caps, t, t', id, hour, rows) && Headroom(caps, t, hour) >= |Unledgered(t, id, rows)|
    ensures LedgerKeys(t', id) == LedgerKeys(t, id) + Keys(rows)
  {
    AllUnledgeredKeys(t, id, rows);
    assert Attempted(caps, t, id, hour, rows) == Unledgered(t, id, rows);
  }

  /** From a settled state any run, then one full call that no cap refuses: the ledger of `id`
  has what it had, every address Active now, and beyond those only addresses that were
  Active in the meantime. If all of these are Active now, it is what a single call would
  have left. */
  lemma RunsConverge(w: Server, xs: seq<Event>, es: seq<Event>, id: SendId, rows: seq<Subscriber>, last: Hour,
                     end: Tables)
    requires Init(w) && Settled(Exec(w, xs), id)
    requires IsSnapshot(rows, Exec(w, xs + es).journal.Now().subscribers)
    requires var t := Exec(w, xs + es).journal.Now();
             FullCall(w.caps, t, end, id, last, rows) && Headroom(w.caps, t, last) >= |Unledgered(t, id, rows)|
    ensures var known, now := LedgerKeys(Exec(w, xs).journal.Now(), id),
                              ActiveKeys(Exec(w, xs + es).journal.Now().subscribers);
            && known + now <= LedgerKeys(end, id) <= known + EverActive(Exec(w, xs), es)
            && (EverActive(Exec(w, xs), es) <= known + now ==> LedgerKeys(end, id) == known + now)
  {
    var t := Exec(w, xs + es).journal.Now();
    LedgerOnlyFills(w, xs, es, id);
    BaseRun(w, xs + es);
    BaseNow(Exec(w, xs + es));
    SnapshotKeys(rows, t.subscribers);
    FullCallCompletes(w.caps, t, end, id, last, rows);
    ExecSplit(w, xs, es);
  }
}
