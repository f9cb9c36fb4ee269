/** What each event leaves alone: the facts every invariant proof starts from. */
module Frames {
  import opened Records
  import opened Journals
  import opened Protocol

  // ----- the journal under a step

  /** `j'` is `j` after at most one record and perhaps a sync. */
  ghost predicate Grows(j: Journal, j': Journal) {
    && j'.base == j.base
    && j.log <= j'.log && |j'.log| <= |j.log| + 1
    && j.synced <= j'.synced <= |j'.log|
  }

  lemma GrownViews(j: Journal, j': Journal)
    requires Grows(j, j')
    ensures forall p: nat | p <= |j.log| :: j'.View(p) == j.View(p)
    ensures forall p: nat | p <= |j'.log| :: p <= |j.log| || j'.View(p) == j'.Now()
    ensures j.View(|j.log|) == j.Now()
  {
    assert j'.log[..|j'.log|] == j'.log;
    assert j.log[..|j.log|] == j.log;
    forall p: nat | p <= |j.log|
      ensures j'.View(p) == j.View(p)
    {
      assert j'.log[..p] == j.log[..p];
    }
  }

  /** `good` holds of every view a power loss could recover. */
  ghost predicate AllViews(j: Journal, good: Tables -> bool) {
    forall p: nat | j.synced <= p <= |j.log| :: good(j.View(p))
  }

  lemma GrownAllViews(j: Journal, j': Journal, good: Tables -> bool)
    requires j.Valid() && Grows(j, j') && AllViews(j, good) && good(j'.Now())
    ensures AllViews(j', good)
  {
    GrownViews(j, j');
  }

  lemma WriteGrows(j: Journal, r: Record, io: WriteIo)
    requires j.Valid()
    ensures Grows(j, j.Write(r, io)) && j.Write(r, io).Valid()
    ensures j.Write(r, io).Now() == if Reached(io) then Apply(j.Now(), r) else j.Now()
  {
    AppendViews(j, r);
  }

  lemma PutGrows(j: Journal, r: Record, io: PutIo)
    requires j.Valid()
    ensures Grows(j, j.Put(r, io)) && j.Put(r, io).Valid()
    ensures j.Put(r, io).Now() == if Landed(io) then Apply(j.Now(), r) else j.Now()
  {
    AppendViews(j, r);
  }

  // ----- the lock

  /** What the lock holder read is still what the table says. */
  predicate LockOk(w: Server, c: nat, k: Call) {
    var t := w.journal.Now();
    var hour, day := HourBucket(k.now.hour), DayBucket(k.now.hour.day);
    && w.lock == Some(c)
    && (k.pc.HourRead? ==> k.pc.hourCount == Rate(t, hour))
    && (k.pc.BothRead? ==> k.pc.hourCount == Rate(t, hour) < w.caps.hour && k.pc.dayCount == Rate(t, day) < w.caps.day)
    && (k.pc.HourWritten? ==> k.pc.dayCount == Rate(t, day) < w.caps.day)
  }

  // ----- steps of a call

  /** The relay has the message and the ledger row is still to be inserted. */
  predicate Handed(pc: Pc) {
    pc.Awaiting? || (pc.Settled? && pc.handed)
  }

  predicate PastCheck(pc: Pc) {
    || pc.Waiting? || HoldsLock(pc) || pc.Admitted? || pc.Mailing? || pc.Awaiting? || pc.Settled?
  }

  predicate Unrecorded(t: Tables, k: Call) {
    k.queue != [] && DeliveryKey(k.send.id, k.queue[0].row.email) !in t.deliveries
  }

  /** How a step that neither inserts a record nor hands a message over moves the
  program counter: no slot is newly held, what was handed over stays due, and an
  exposure ends only with a sync. */
  predicate QuietPc(pc: Pc, pc': Pc, synced: bool) {
    || pc' == pc
    || (&& !Ended(pc)
        && !pc'.HourWritten? && !pc'.Admitted? && (pc'.Mailing? ==> pc.Admitted?)
        && (Handed(pc) ==> (pc'.Settled? && pc'.handed) || pc' == Cut(true))
        && (Exposed(pc) ==> Exposed(pc') || synced))
  }

  ghost predicate QuietQueue(w: Server, k: Call, k': Call) {
    || k'.queue == k.queue
    || (k'.pc.Checking? && k.queue != [] && k'.queue == k.queue[1..])
    || (k'.pc.Checking? && k.pc.Resolved? && FromSnapshot(w, k'.queue))
  }

  /** Every entry was read from an Active row, at the row's current epoch. */
  ghost predicate FromSnapshot(w: Server, queue: seq<Seen>) {
    forall i | 0 <= i < |queue| ::
      var s := queue[i];
      && Key(s.row) in w.journal.Now().subscribers && w.journal.Now().subscribers[Key(s.row)] == s.row
      && s.row.state.Active? && s.epoch == Epoch(w, Key(s.row))
  }

  ghost predicate QuietLock(w: Server, w': Server, c: nat, k: Call, k': Call) {
    || (w'.lock == w.lock && !HoldsLock(k.pc) && !HoldsLock(k'.pc))
    || ((w.lock.None? || HoldsLock(k.pc))
        && ((HoldsLock(k.pc) ==> LockOk(w, c, k)) && HoldsLock(k'.pc) ==> LockOk(w', c, k')))
  }

  ghost predicate QuietMove(w: Server, w': Server, c: nat) {
    && c in w.calls && c in w'.calls && w'.calls == w.calls[c := w'.calls[c]]
    && w'.caps == w.caps && w'.mail == w.mail && w'.unsubs == w.unsubs && w'.writes == w.writes
    && (w'.journal == w.journal || w'.journal == w.journal.Sync())
    && var k, k' := w.calls[c], w'.calls[c];
    && k'.send == k.send && k'.now == k.now
    && QuietPc(k.pc, k'.pc, w'.journal == w.journal.Sync())
    && QuietQueue(w, k, k')
    && QuietLock(w, w', c, k, k')
    && (PastCheck(k'.pc) ==> k'.queue == k.queue && (PastCheck(k.pc) || Unrecorded(w.journal.Now(), k)))
    && (w'.minted == w.minted || (k.queue != [] && w'.minted == w.minted + {UnsubscribeToken(k)}))
  }

  lemma Same(w: Server, c: nat)
    requires c in w.calls
    ensures w.calls == w.calls[c := w.calls[c]]
  {}

  lemma QuietSyncSend(w: Server, c: nat, ok: bool)
    requires c in w.calls
    ensures QuietMove(w, SyncSendStep(w, c, w.calls[c], ok), c)
  {
    Same(w, c);
  }

  lemma QuietSnapshot(w: Server, c: nat, ok: bool, rows: seq<Subscriber>)
    requires c in w.calls
    ensures QuietMove(w, SnapshotStep(w, c, w.calls[c], ok, rows), c)
  {
    Same(w, c);
  }

  lemma QuietCheck(w: Server, c: nat, ok: bool)
    requires c in w.calls
    ensures QuietMove(w, CheckStep(w, c, w.calls[c], ok), c)
  {
    Same(w, c);
  }

  lemma QuietAcquire(w: Server, c: nat)
    requires c in w.calls
    ensures QuietMove(w, AcquireStep(w, c, w.calls[c]), c)
  {
    Same(w, c);
  }

  lemma QuietReadHour(w: Server, c: nat, ok: bool)
    requires c in w.calls
    ensures QuietMove(w, ReadHourStep(w, c, w.calls[c], ok), c)
  {
    Same(w, c);
  }

  lemma QuietReadDay(w: Server, c: nat, ok: bool)
    requires c in w.calls
    ensures QuietMove(w, ReadDayStep(w, c, w.calls[c], ok), c)
  {
    Same(w, c);
  }

  lemma QuietCompose(w: Server, c: nat, signed: bool, composed: bool)
    requires c in w.calls
    ensures QuietMove(w, ComposeStep(w, c, w.calls[c], signed, composed), c)
  {
    Same(w, c);
  }

  lemma QuietVerdict(w: Server, c: nat, accepted: bool)
    requires c in w.calls
    ensures QuietMove(w, VerdictStep(w, c, w.calls[c], accepted), c)
  {
    Same(w, c);
  }

  lemma QuietSyncRow(w: Server, c: nat, ok: bool)
    requires c in w.calls
    ensures QuietMove(w, SyncRowStep(w, c, w.calls[c], ok), c)
  {
    Same(w, c);
  }

  lemma QuietDrop(w: Server, c: nat)
    requires c in w.calls
    ensures QuietMove(w, DropStep(w, c, w.calls[c]), c)
  {
    Same(w, c);
  }

  predicate Quiet(act: Act) {
    !act.InsertSend? && !act.WriteHour? && !act.WriteDay? && !act.HandOver? && !act.InsertRow?
  }

  lemma QuietCall(w: Server, c: nat, act: Act)
    requires c in w.calls && Quiet(act)
    ensures QuietMove(w, CallStep(w, c, w.calls[c], act), c)
  {
    match act
    case SyncSend(ok) => QuietSyncSend(w, c, ok);
    case Snapshot(ok, rows) => QuietSnapshot(w, c, ok, rows);
    case Check(ok) => QuietCheck(w, c, ok);
    case Acquire => QuietAcquire(w, c);
    case ReadHour(ok) => QuietReadHour(w, c, ok);
    case ReadDay(ok) => QuietReadDay(w, c, ok);
    case Compose(signed, composed) => QuietCompose(w, c, signed, composed);
    case Verdict(accepted) => QuietVerdict(w, c, accepted);
    case SyncRow(ok) => QuietSyncRow(w, c, ok);
    case Drop => QuietDrop(w, c);
    case _ => assert false;
  }

  /** The one record a call may insert, and what it does to the call. */
  ghost predicate InsertMove(w: Server, w': Server, c: nat, r: Record, io: WriteIo, pc: Pc) {
    && c in w.calls
    && w' == w.(journal := w.journal.Write(r, io), lock := w'.lock,
                calls := w.calls[c := w.calls[c].(pc := if io.Written? then pc else Cut(Exposed(w.calls[c].pc)))])
  }

  lemma InsertSendRow(w: Server, c: nat, io: WriteIo)
    requires c in w.calls && w.calls[c].pc.Creating?
    ensures InsertMove(w, InsertSendStep(w, c, w.calls[c], io), c, PutSend(w.calls[c].send), io, Created)
    ensures InsertSendStep(w, c, w.calls[c], io).lock == w.lock
  {}

  lemma InsertHour(w: Server, c: nat, io: WriteIo)
    requires c in w.calls && w.calls[c].pc.BothRead?
    ensures var k := w.calls[c];
      InsertMove(w, WriteHourStep(w, c, k, io), c, PutRate(HourBucket(k.now.hour), k.pc.hourCount + 1), io,
          HourWritten(k.pc.dayCount))
    ensures WriteHourStep(w, c, w.calls[c], io).lock == if io.Written? then w.lock else None
  {}

  lemma InsertDay(w: Server, c: nat, io: WriteIo)
    requires c in w.calls && w.calls[c].pc.HourWritten?
    ensures var k := w.calls[c];
      InsertMove(w, WriteDayStep(w, c, k, io), c, PutRate(DayBucket(k.now.hour.day), k.pc.dayCount + 1), io, Admitted)
    ensures WriteDayStep(w, c, w.calls[c], io).lock == None
  {}

  lemma InsertLedger(w: Server, c: nat, io: WriteIo, at: int)
    requires c in w.calls && w.calls[c].pc.Settled? && w.calls[c].queue != []
    ensures var k := w.calls[c];
      InsertMove(w, InsertRowStep(w, c, k, io, at), c, PutDelivery(LedgerRow(k, at)), io, Recorded(k.pc.handed))
    ensures InsertRowStep(w, c, w.calls[c], io, at).lock == w.lock
  {}

  /** The four steps that insert a record, ... */
  predicate Inserts(k: Call, act: Act) {
    match act
    case InsertSend(_) => k.pc.Creating?
    case WriteHour(_) => k.pc.BothRead?
    case WriteDay(_) => k.pc.HourWritten?
    case InsertRow(_, _) => k.pc.Settled? && k.queue != []
    case _ => false
  }

  /** ... the record, ... */
  function InsertedRecord(k: Call, act: Act): Record
    requires Inserts(k, act)
  {
    match act
    case InsertSend(_) => PutSend(k.send)
    case WriteHour(_) => PutRate(HourBucket(k.now.hour), k.pc.hourCount + 1)
    case WriteDay(_) => PutRate(DayBucket(k.now.hour.day), k.pc.dayCount + 1)
    case InsertRow(_, at) => PutDelivery(LedgerRow(k, at))
  }

  /** ... and where the call stands if the insert works. */
  function InsertedPc(k: Call, act: Act): Pc
    requires Inserts(k, act)
  {
    match act
    case InsertSend(_) => Created
    case WriteHour(_) => HourWritten(k.pc.dayCount)
    case WriteDay(_) => Admitted
    case InsertRow(_, _) => Recorded(k.pc.handed)
  }

  lemma InsertCall(w: Server, c: nat, act: Act)
    requires c in w.calls && Inserts(w.calls[c], act)
    ensures var k := w.calls[c];
            InsertMove(w, CallStep(w, c, k, act), c, InsertedRecord(k, act), act.io, InsertedPc(k, act))
  {
    match act
    case InsertSend(io) => InsertSendRow(w, c, io);
    case WriteHour(io) => InsertHour(w, c, io);
    case WriteDay(io) => InsertDay(w, c, io);
    case InsertRow(io, at) => InsertLedger(w, c, io, at);
  }

  /** A step that is neither quiet, nor an insert, nor a hand-over does nothing. */
  lemma IdleCall(w: Server, c: nat, act: Act)
    requires c in w.calls && !Quiet(act) && !act.HandOver? && !Inserts(w.calls[c], act)
    ensures CallStep(w, c, w.calls[c], act) == w
  {}

  /** No step of a call forgets: base, caps and the history stay, minted tokens only accumulate. */
  lemma CallHistory(w: Server, c: nat, act: Act)
    requires c in w.calls
    ensures var w' := CallStep(w, c, w.calls[c], act);
      && w'.journal.base == w.journal.base && w'.caps == w.caps
      && w.minted <= w'.minted && w'.unsubs == w.unsubs && w'.writes == w.writes
  {
    if Quiet(act) {
      QuietCall(w, c, act);
    } else if Inserts(w.calls[c], act) {
      InsertCall(w, c, act);
    } else if !act.HandOver? {
      IdleCall(w, c, act);
    }
  }

  lemma StepHistory(w: Server, e: Event)
    ensures var w' := Step(w, e);
      w'.journal.base == w.journal.base && w'.caps == w.caps && w.minted <= w'.minted
  {
    if e.OfCall? && e.call in w.calls { CallHistory(w, e.call, e.act); }
  }

  lemma InsertTables(w: Server, w': Server, c: nat, r: Record, io: WriteIo, pc: Pc)
    requires w.journal.Valid() && InsertMove(w, w', c, r, io, pc)
    ensures w'.journal.Now() == if Reached(io) then Apply(w.journal.Now(), r) else w.journal.Now()
    ensures w'.calls == w.calls[c := w'.calls[c]]
  {
    WriteGrows(w.journal, r, io);
  }

  /** What no step of a call touches, whatever else it does. */
  ghost predicate CallKeeps(w: Server, w': Server, c: nat) {
    && w'.journal.Now().subscribers == w.journal.Now().subscribers
    && c in w.calls && c in w'.calls && w'.calls == w.calls[c := w'.calls[c]]
  }

  /** Only creating the record touches `sends`. */
  lemma CallTables(w: Server, c: nat, act: Act)
    requires w.journal.Valid() && c in w.calls
    ensures var w' := CallStep(w, c, w.calls[c], act);
      CallKeeps(w, w', c) && (!act.InsertSend? ==> w'.journal.Now().sends == w.journal.Now().sends)
  {
    var k := w.calls[c];
    if Quiet(act) {
      QuietCall(w, c, act);
    } else if Inserts(k, act) {
      InsertCall(w, c, act);
      InsertTables(w, CallStep(w, c, k, act), c, InsertedRecord(k, act), act.io, InsertedPc(k, act));
    } else if !act.HandOver? {
      IdleCall(w, c, act);
      Same(w, c);
    } else {
      Same(w, c);
    }
  }

  // ----- other events

  /** Events outside `/send` calls and crashes. */
  predicate Aside(e: Event) {
    !e.Resolve? && !e.OfCall? && !e.Kill? && !e.PowerLoss?
  }

  lemma ConsentFrame(w: Server, e: Event)
    requires w.journal.Valid() && IsConsent(e)
    ensures var w' := ConsentStep(w, e);
      && w' == w.(journal := w'.journal, unsubs := w'.unsubs, writes := w'.writes)
      && Grows(w.journal, w'.journal)
      && w'.journal.Now() == w.journal.Now().(subscribers := w'.journal.Now().subscribers)
  {
    if Decided(w, e).Some? { PutGrows(w.journal, PutSubscriber(Decided(w, e).value), e.put); }
  }

  lemma Overwrite(t: Tables, key: (SendId, string), kind: EventKind, unix: int)
    requires Keyed(t) && key in t.deliveries
    ensures var row := Marked(t.deliveries[key], kind, unix);
      Apply(t, PutDelivery(row)) == t.(deliveries := t.deliveries[key := row])
  {}

  lemma WebhookRowFrame(w: Server, id: SendId, email: string, kind: EventKind, unix: int, io: PutIo)
    requires w.journal.Valid() && Keyed(w.journal.Now())
    ensures var w' := WebhookRow(w, id, email, kind, unix, io);
      && w' == w.(journal := w'.journal)
      && Grows(w.journal, w'.journal)
      && w'.journal.Now().deliveries.Keys == w.journal.Now().deliveries.Keys
      && w'.journal.Now() == w.journal.Now().(deliveries := w'.journal.Now().deliveries)
  {
    var t, key := w.journal.Now(), DeliveryKey(id, email);
    if key in t.deliveries {
      var row := Marked(t.deliveries[key], kind, unix);
      Overwrite(t, key, kind, unix);
      PutGrows(w.journal, PutDelivery(row), io);
      assert t.deliveries[key := row].Keys == t.deliveries.Keys;
    }
  }

  lemma AsideFrame(w: Server, e: Event)
    requires w.journal.Valid() && Keyed(w.journal.Now()) && Aside(e)
    ensures var w' := Step(w, e);
      && w' == w.(journal := w'.journal, minted := w'.minted, unsubs := w'.unsubs, writes := w'.writes)
      && Grows(w.journal, w'.journal)
      && w'.journal.Now().deliveries.Keys == w.journal.Now().deliveries.Keys
      && w'.journal.Now().rates == w.journal.Now().rates
      && w'.journal.Now().sends == w.journal.Now().sends
  {
    if IsConsent(e) {
      ConsentFrame(w, e);
    } else if e.Webhook? {
      WebhookRowFrame(w, e.id, e.email, e.kind, e.unix, e.put);
    } else if e.PurgeRow? {
      WriteGrows(w.journal, RemoveSubscriber(e.key), e.io);
    }
  }

  /** A new call touches nothing else. */
  ghost predicate ResolveMove(w: Server, w': Server, e: Event)
    requires e.Resolve?
  {
    && w' == w.(calls := w'.calls)
    && (e.call in w.calls ==> w' == w)
    && (e.call !in w.calls ==>
          && e.call in w'.calls && w'.calls == w.calls[e.call := w'.calls[e.call]]
          && w'.calls[e.call].send.id == e.id && w'.calls[e.call].queue == []
          && NewPc(w'.calls[e.call].pc))
  }

  predicate NewPc(pc: Pc) {
    pc.Creating? || pc.Resolved? || pc.Done? || pc == Cut(false)
  }

  lemma ResolveFrame(w: Server, e: Event)
    requires e.Resolve?
    requires forall id | id in w.journal.Now().sends :: w.journal.Now().sends[id].id == id
    ensures ResolveMove(w, ResolveStep(w, e), e)
  {}
}
