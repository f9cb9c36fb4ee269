/** How many messages reach the relay.

One accounting argument covers the hourly cap, the daily cap, the ledger of one
send and the ledger row of one recipient. For each of these classes a table
entry is the score, and hand-offs never outrun the score by more than the calls
that died between hand-off and ledger sync. */
module Budgets {
  import opened Records
  import opened Journals
  import opened Protocol
  import opened Frames
  import opened Sets

  /** What hand-offs are counted against. */
  datatype Class =
    | HourOf(hour: Hour)
    | DayOf(day: Day)
    | SendOf(id: SendId)
    | RecipientOf(id: SendId, key: string)
  {
    predicate IsCap() { HourOf? || DayOf? }
  }

  predicate Mine(x: Class, h: HandOff) {
    match x
    case HourOf(hour) => h.now.hour == hour
    case DayOf(day) => h.now.hour.day == day
    case SendOf(id) => h.send.id == id
    case RecipientOf(id, key) => h.send.id == id && h.key == key
  }

  /** The delivery call `k` is working on belongs to `x`. */
  predicate Concerns(x: Class, k: Call) {
    match x
    case HourOf(hour) => k.now.hour == hour
    case DayOf(day) => k.now.hour.day == day
    case SendOf(id) => k.send.id == id
    case RecipientOf(id, key) => k.send.id == id && k.queue != [] && Target(k) == key
  }

  /** Hand-offs of class `x`. */
  function HandOffs(mail: seq<HandOff>, x: Class): nat {
    if mail == [] then 0
    else HandOffs(mail[..|mail| - 1], x) + if Mine(x, mail[|mail| - 1]) then 1 else 0
  }

  function RowsOf(t: Tables, id: SendId): set<(SendId, string)> {
    set d | d in t.deliveries && d.0 == id
  }

  function Score(x: Class, t: Tables): nat {
    match x
    case HourOf(hour) => Rate(t, HourBucket(hour))
    case DayOf(day) => Rate(t, DayBucket(day))
    case SendOf(id) => |RowsOf(t, id)|
    case RecipientOf(id, key) => if (id, key) in t.deliveries then 1 else 0
  }

  /** `Held`: scored, not yet handed over. `Due`: handed over, perhaps never scored.
  `Open`: handed over, score perhaps not durable. */
  datatype Phase = Held | Due | Open

  predicate InPhase(x: Class, ph: Phase, pc: Pc) {
    match ph
    case Held => x.IsCap() && (pc.Admitted? || pc.Mailing? || (x.HourOf? && pc.HourWritten?))
    case Due => pc == Cut(true) || (!x.IsCap() && Handed(pc))
    case Open => Exposed(pc)
  }

  function Members(calls: map<nat, Call>, x: Class, ph: Phase): set<nat> {
    set c | c in calls && Concerns(x, calls[c]) && InPhase(x, ph, calls[c].pc)
  }

  /** The calls of class `x` that ended between hand-off and ledger sync. */
  function LostTrack(w: Server, x: Class): set<nat> {
    set c | c in w.calls && Concerns(x, w.calls[c]) && w.calls[c].pc == Cut(true)
  }

  /** Every call of class `x` ended by an error, a timeout, a kill or a power loss. */
  function Interrupted(w: Server, x: Class): set<nat> {
    set c | c in w.calls && Concerns(x, w.calls[c]) && w.calls[c].pc.Cut?
  }

  /** The calls of class `x` whose message the relay has and whose row is not in the ledger yet. */
  function InFlight(w: Server, x: Class): set<nat> {
    set c | c in w.calls && Concerns(x, w.calls[c]) && Handed(w.calls[c].pc)
  }

  // ----- invariants

  /** The lock excludes, and what its holder read stays true. */
  ghost predicate LockInv(w: Server) {
    forall c | c in w.calls && HoldsLock(w.calls[c].pc) :: LockOk(w, c, w.calls[c])
  }

  /** Rows sit under their own keys and no counter exceeds its cap. */
  ghost predicate Sound(caps: Caps, t: Tables) {
    Keyed(t) && forall b :: Rate(t, b) <= Cap(caps, b)
  }

  ghost predicate BaseInv(w: Server) {
    && w.journal.Valid()
    && AllViews(w.journal, t => Sound(w.caps, t))
    && LockInv(w)
  }

  /** No two calls on `id` are under way, and the one that is has found no row for its recipient. */
  ghost predicate LedgerInv(w: Server, id: SendId) {
    && (forall c | c in w.calls && w.calls[c].send.id == id && PastCheck(w.calls[c].pc) ::
          Unrecorded(w.journal.Now(), w.calls[c]))
    && (forall c, d | c in w.calls && d in w.calls && w.calls[c].send.id == id && w.calls[d].send.id == id
          && !Ended(w.calls[c].pc) && !Ended(w.calls[d].pc) :: c == d)
  }

  /** Event `e` does not start a call on `id` while another one is under way. */
  ghost predicate Apart(w: Server, e: Event, id: SendId) {
    e.Resolve? && e.id == id ==> forall c | c in w.calls && w.calls[c].send.id == id :: Ended(w.calls[c].pc)
  }

  /** The calls on `id` do not overlap in this run. */
  ghost predicate Serial(w: Server, es: seq<Event>, id: SendId) {
    es == [] ||
    (Serial(w, es[..|es| - 1], id) && Apart(Exec(w, es[..|es| - 1]), es[|es| - 1], id))
  }

  ghost predicate Budget(w: Server, x: Class) {
    && HandOffs(w.mail, x) + |Members(w.calls, x, Held)| <= Score(x, w.journal.Now()) + |Members(w.calls, x, Due)|
    && (forall p: nat | w.journal.synced <= p <= |w.journal.log| ::
          HandOffs(w.mail, x) <= Score(x, w.journal.View(p)) + |Members(w.calls, x, Open)|)
  }

  // ----- the base invariant over a run

  lemma BaseGrows(w: Server, w': Server)
    requires BaseInv(w) && Grows(w.journal, w'.journal) && w'.caps == w.caps
    requires Sound(w.caps, w'.journal.Now()) && LockInv(w')
    ensures BaseInv(w')
  {
    GrownAllViews(w.journal, w'.journal, t => Sound(w.caps, t));
  }

  lemma BaseNow(w: Server)
    requires BaseInv(w)
    ensures Sound(w.caps, w.journal.Now())
  {
    FullView(w.journal);
    assert Sound(w.caps, w.journal.View(|w.journal.log|));
  }

  /** Call `c` moves: either it stays clear of the lock and the counters, or it is
  the only call near them. */
  lemma LockMove(w: Server, w': Server, c: nat, k: Call)
    requires LockInv(w) && c in w.calls && w'.calls == w.calls[c := k] && w'.caps == w.caps
    requires || (!HoldsLock(k.pc) && w'.lock == w.lock && w'.journal.Now().rates == w.journal.Now().rates)
             || ((w.lock.None? || HoldsLock(w.calls[c].pc)) && (HoldsLock(k.pc) ==> LockOk(w', c, k)))
    ensures LockInv(w')
  {
    forall d | d in w'.calls && HoldsLock(w'.calls[d].pc)
      ensures LockOk(w', d, w'.calls[d])
    {
      if d != c {
        assert LockOk(w, d, w.calls[d]);
        assert !HoldsLock(w.calls[c].pc) || LockOk(w, c, w.calls[c]);
      }
    }
  }

  lemma SoundWrite(caps: Caps, j: Journal, r: Record, io: WriteIo)
    requires j.Valid() && Sound(caps, j.Now())
    requires r.PutRate? ==> r.count <= Cap(caps, r.bucket)
    ensures Sound(caps, j.Write(r, io).Now())
  {
    WriteGrows(j, r, io);
  }

  lemma SoundPut(caps: Caps, j: Journal, r: Record, io: PutIo)
    requires j.Valid() && Sound(caps, j.Now()) && !r.PutRate?
    ensures Sound(caps, j.Put(r, io).Now())
  {
    PutGrows(j, r, io);
  }

  lemma BaseQuiet(w: Server, w': Server, c: nat)
    requires BaseInv(w) && QuietMove(w, w', c)
    ensures BaseInv(w')
  {
    BaseNow(w);
    if HoldsLock(w.calls[c].pc) { assert LockOk(w, c, w.calls[c]); }
    LockMove(w, w', c, w'.calls[c]);
    BaseGrows(w, w');
  }

  lemma BaseInsert(w: Server, w': Server, c: nat, r: Record, io: WriteIo, pc: Pc)
    requires BaseInv(w) && InsertMove(w, w', c, r, io, pc)
    requires r.PutRate? ==> r.count <= Cap(w.caps, r.bucket)
    requires LockInv(w')
    ensures BaseInv(w')
  {
    BaseNow(w);
    WriteGrows(w.journal, r, io);
    SoundWrite(w.caps, w.journal, r, io);
    BaseGrows(w, w');
  }

  lemma BaseHandOver(w: Server, c: nat)
    requires BaseInv(w) && c in w.calls
    ensures BaseInv(HandOverStep(w, c, w.calls[c]))
  {
    var w' := HandOverStep(w, c, w.calls[c]);
    if w' != w {
      LockMove(w, w', c, w'.calls[c]);
      BaseNow(w);
      BaseGrows(w, w');
    }
  }

  lemma BaseWriteHour(w: Server, c: nat, io: WriteIo)
    requires BaseInv(w) && c in w.calls && w.calls[c].pc.BothRead?
    ensures BaseInv(WriteHourStep(w, c, w.calls[c], io))
  {
    var k := w.calls[c];
    var w' := WriteHourStep(w, c, k, io);
    var r := PutRate(HourBucket(k.now.hour), k.pc.hourCount + 1);
    assert LockOk(w, c, k);
    InsertHour(w, c, io);
    WriteGrows(w.journal, r, io);
    LockMove(w, w', c, w'.calls[c]);
    BaseInsert(w, w', c, r, io, HourWritten(k.pc.dayCount));
  }

  lemma BaseWriteDay(w: Server, c: nat, io: WriteIo)
    requires BaseInv(w) && c in w.calls && w.calls[c].pc.HourWritten?
    ensures BaseInv(WriteDayStep(w, c, w.calls[c], io))
  {
    var k := w.calls[c];
    var w' := WriteDayStep(w, c, k, io);
    var r := PutRate(DayBucket(k.now.hour.day), k.pc.dayCount + 1);
    assert LockOk(w, c, k);
    InsertDay(w, c, io);
    LockMove(w, w', c, w'.calls[c]);
    BaseInsert(w, w', c, r, io, Admitted);
  }

  lemma BaseInsertSend(w: Server, c: nat, io: WriteIo)
    requires BaseInv(w) && c in w.calls && w.calls[c].pc.Creating?
    ensures BaseInv(InsertSendStep(w, c, w.calls[c], io))
  {
    var k := w.calls[c];
    var w' := InsertSendStep(w, c, k, io);
    InsertSendRow(w, c, io);
    WriteGrows(w.journal, PutSend(k.send), io);
    LockMove(w, w', c, w'.calls[c]);
    BaseInsert(w, w', c, PutSend(k.send), io, Created);
  }

  lemma BaseInsertRow(w: Server, c: nat, io: WriteIo, at: int)
    requires BaseInv(w) && c in w.calls && w.calls[c].pc.Settled? && w.calls[c].queue != []
    ensures BaseInv(InsertRowStep(w, c, w.calls[c], io, at))
  {
    var k := w.calls[c];
    var w' := InsertRowStep(w, c, k, io, at);
    var r := PutDelivery(LedgerRow(k, at));
    InsertLedger(w, c, io, at);
    WriteGrows(w.journal, r, io);
    LockMove(w, w', c, w'.calls[c]);
    BaseInsert(w, w', c, r, io, Recorded(k.pc.handed));
  }

  lemma BaseCall(w: Server, c: nat, act: Act)
    requires BaseInv(w) && c in w.calls
    ensures BaseInv(CallStep(w, c, w.calls[c], act))
  {
    if Quiet(act) {
      QuietCall(w, c, act);
      BaseQuiet(w, CallStep(w, c, w.calls[c], act), c);
    } else if act.HandOver? {
      BaseHandOver(w, c);
    } else if act.InsertSend? {
      if w.calls[c].pc.Creating? { BaseInsertSend(w, c, act.io); }
    } else if act.WriteHour? {
      if w.calls[c].pc.BothRead? { BaseWriteHour(w, c, act.io); }
    } else if act.WriteDay? {
      if w.calls[c].pc.HourWritten? { BaseWriteDay(w, c, act.io); }
    } else if w.calls[c].pc.Settled? && w.calls[c].queue != [] {
      BaseInsertRow(w, c, act.io, act.at);
    }
  }

  lemma LockSame(w: Server, w': Server)
    requires LockInv(w) && w'.lock == w.lock && w'.caps == w.caps
    requires w'.journal.Now().rates == w.journal.Now().rates
    requires forall c | c in w'.calls && HoldsLock(w'.calls[c].pc) :: c in w.calls && w.calls[c] == w'.calls[c]
    ensures LockInv(w')
  {
    forall d | d in w'.calls && HoldsLock(w'.calls[d].pc)
      ensures LockOk(w', d, w'.calls[d])
    {
      assert LockOk(w, d, w.calls[d]);
    }
  }

  lemma BaseResolve(w: Server, e: Event)
    requires BaseInv(w) && e.Resolve?
    ensures BaseInv(ResolveStep(w, e))
  {
    BaseNow(w);
    ResolveFrame(w, e);
    LockSame(w, ResolveStep(w, e));
    BaseGrows(w, ResolveStep(w, e));
  }

  lemma SoundAside(w: Server, e: Event)
    requires w.journal.Valid() && Sound(w.caps, w.journal.Now()) && Aside(e)
    ensures Sound(w.caps, Step(w, e).journal.Now())
  {
    if IsConsent(e) {
      if Decided(w, e).Some? { SoundPut(w.caps, w.journal, PutSubscriber(Decided(w, e).value), e.put); }
    } else if e.Webhook? {
      var t, key := w.journal.Now(), DeliveryKey(e.id, e.email);
      if key in t.deliveries {
        var row := Marked(t.deliveries[key], e.kind, e.unix);
        SoundPut(w.caps, w.journal, PutDelivery(row), e.put);
      }
    } else if e.PurgeRow? {
      SoundWrite(w.caps, w.journal, RemoveSubscriber(e.key), e.io);
    }
  }

  lemma BaseStep(w: Server, e: Event)
    requires BaseInv(w)
    ensures BaseInv(Step(w, e))
  {
    if e.Resolve? {
      BaseResolve(w, e);
    } else if e.OfCall? {
      if e.call in w.calls { BaseCall(w, e.call, e.act); }
    } else if Aside(e) {
      BaseNow(w);
      AsideFrame(w, e);
      SoundAside(w, e);
      LockSame(w, Step(w, e));
      BaseGrows(w, Step(w, e));
    } else if e.PowerLoss? && w.journal.synced <= e.keep <= |w.journal.log| {
      RecoverViews(w.journal, e.keep);
    }
  }

  lemma BaseRun(w: Server, es: seq<Event>)
    requires Init(w)
    ensures BaseInv(Exec(w, es))
    decreases |es|
  {
    if es == [] {
      FullView(w.journal);
    } else {
      BaseRun(w, es[..|es| - 1]);
      BaseStep(Exec(w, es[..|es| - 1]), es[|es| - 1]);
    }
  }

  // ----- the ledger invariant over a run

  lemma LedgerMove(w: Server, w': Server, c: nat, id: SendId)
    requires LedgerInv(w, id) && c in w.calls && c in w'.calls && w'.calls == w.calls[c := w'.calls[c]]
    requires w'.calls[c].send == w.calls[c].send && (Ended(w.calls[c].pc) ==> Ended(w'.calls[c].pc))
    requires w'.journal.Now().deliveries.Keys == w.journal.Now().deliveries.Keys
    requires PastCheck(w'.calls[c].pc) ==>
               w'.calls[c].queue == w.calls[c].queue
               && (PastCheck(w.calls[c].pc) || Unrecorded(w.journal.Now(), w.calls[c]))
    ensures LedgerInv(w', id)
  {}

  lemma LedgerInsert(w: Server, c: nat, io: WriteIo, at: int, id: SendId)
    requires w.journal.Valid() && LedgerInv(w, id) && c in w.calls && w.calls[c].pc.Settled? && w.calls[c].queue != []
    ensures LedgerInv(InsertRowStep(w, c, w.calls[c], io, at), id)
  {
    var k := w.calls[c];
    var w' := InsertRowStep(w, c, k, io, at);
    InsertLedger(w, c, io, at);
    WriteGrows(w.journal, PutDelivery(LedgerRow(k, at)), io);
    forall d | d in w'.calls && w'.calls[d].send.id == id && PastCheck(w'.calls[d].pc)
      ensures Unrecorded(w'.journal.Now(), w'.calls[d])
    {
      assert d != c && Unrecorded(w.journal.Now(), w.calls[d]);
    }
  }

  lemma LedgerOther(w: Server, w': Server, c: nat, r: Record, io: WriteIo, pc: Pc, id: SendId)
    requires w.journal.Valid() && LedgerInv(w, id) && InsertMove(w, w', c, r, io, pc) && (r.PutRate? || r.PutSend?)
    requires !Ended(w.calls[c].pc) && (PastCheck(pc) ==> PastCheck(w.calls[c].pc))
    ensures LedgerInv(w', id)
  {
    WriteGrows(w.journal, r, io);
    LedgerMove(w, w', c, id);
  }

  lemma LedgerCall(w: Server, c: nat, act: Act, id: SendId)
    requires w.journal.Valid() && LedgerInv(w, id) && c in w.calls
    ensures LedgerInv(CallStep(w, c, w.calls[c], act), id)
  {
    var k := w.calls[c];
    if Quiet(act) {
      QuietCall(w, c, act);
      LedgerMove(w, CallStep(w, c, k, act), c, id);
    } else if act.HandOver? {
      if k.pc.Mailing? && k.queue != [] { LedgerMove(w, HandOverStep(w, c, k), c, id); }
    } else if !Inserts(k, act) {
      IdleCall(w, c, act);
    } else if act.InsertRow? {
      LedgerInsert(w, c, act.io, act.at, id);
    } else {
      InsertCall(w, c, act);
      LedgerOther(w, CallStep(w, c, k, act), c, InsertedRecord(k, act), act.io, InsertedPc(k, act), id);
    }
  }

  lemma LedgerNewCall(w: Server, w': Server, c: nat, id: SendId)
    requires LedgerInv(w, id) && c !in w.calls && c in w'.calls && w'.calls == w.calls[c := w'.calls[c]]
    requires w'.journal.Now().deliveries == w.journal.Now().deliveries
    requires !PastCheck(w'.calls[c].pc)
    requires w'.calls[c].send.id == id ==> forall d | d in w.calls && w.calls[d].send.id == id :: Ended(w.calls[d].pc)
    ensures LedgerInv(w', id)
  {}

  lemma LedgerSameCalls(w: Server, w': Server, id: SendId)
    requires LedgerInv(w, id) && w'.calls == w.calls
    requires w'.journal.Now().deliveries.Keys == w.journal.Now().deliveries.Keys
    ensures LedgerInv(w', id)
  {}

  lemma LedgerCut(w: Server, w': Server, id: SendId)
    requires LedgerInv(w, id) && w'.calls == CutAll(w).calls
    ensures LedgerInv(w', id)
  {}

  lemma LedgerStep(w: Server, e: Event, id: SendId)
    requires BaseInv(w) && LedgerInv(w, id) && Apart(w, e, id)
    ensures LedgerInv(Step(w, e), id)
  {
    BaseNow(w);
    if e.Resolve? {
      ResolveFrame(w, e);
      if e.call !in w.calls { LedgerNewCall(w, Step(w, e), e.call, id); }
    } else if e.OfCall? {
      if e.call in w.calls { LedgerCall(w, e.call, e.act, id); }
    } else if Aside(e) {
      AsideFrame(w, e);
      LedgerSameCalls(w, Step(w, e), id);
    } else if e.Kill? || w.journal.synced <= e.keep <= |w.journal.log| {
      LedgerCut(w, Step(w, e), id);
    }
  }

  // ----- membership arithmetic

  lemma MembersMove(calls: map<nat, Call>, c: nat, k: Call, x: Class, ph: Phase)
    ensures Members(calls[c := k], x, ph) ==
            if Concerns(x, k) && InPhase(x, ph, k.pc) then Members(calls, x, ph) + {c} else Members(calls, x, ph) - {c}
  {}

  lemma DueWithinOpen(calls: map<nat, Call>, x: Class)
    ensures |Members(calls, x, Due)| <= |Members(calls, x, Open)|
  {
    SizeWithin(Members(calls, x, Due), Members(calls, x, Open));
  }

  function In(x: Class, ph: Phase, k: Call): nat {
    if Concerns(x, k) && InPhase(x, ph, k.pc) then 1 else 0
  }

  lemma MembersSize(calls: map<nat, Call>, c: nat, k: Call, x: Class, ph: Phase)
    ensures |Members(calls[c := k], x, ph)| ==
            |Members(calls, x, ph)| + In(x, ph, k) - if c in calls then In(x, ph, calls[c]) else 0
  {
    MembersMove(calls, c, k, x, ph);
  }

  // ----- the budget over a run

  /** Handing over and holding a slot must be paid for by score or by dying exposed. */
  lemma BudgetMove(w: Server, w': Server, c: nat, x: Class)
    requires w.journal.Valid() && Budget(w, x) && Grows(w.journal, w'.journal)
    requires c in w.calls && c in w'.calls && w'.calls == w.calls[c := w'.calls[c]]
    requires var k, k' := w.calls[c], w'.calls[c];
      && HandOffs(w'.mail, x) - HandOffs(w.mail, x) + In(x, Held, k') - In(x, Held, k)
         <= Score(x, w'.journal.Now()) - Score(x, w.journal.Now()) + In(x, Due, k') - In(x, Due, k)
      && (|| w'.journal == w.journal.Sync()
          || HandOffs(w'.mail, x) - HandOffs(w.mail, x) <= In(x, Open, k') - In(x, Open, k))
    ensures Budget(w', x)
  {
    MembersSize(w.calls, c, w'.calls[c], x, Held);
    MembersSize(w.calls, c, w'.calls[c], x, Due);
    MembersSize(w.calls, c, w'.calls[c], x, Open);
    DueWithinOpen(w'.calls, x);
    BudgetViews(w, w', x);
  }

  /** Every view a power loss could recover stays within budget: the old ones because no
  more is open than was handed over, the newest because what is due is open. */
  lemma BudgetViews(w: Server, w': Server, x: Class)
    requires w.journal.Valid() && Budget(w, x) && Grows(w.journal, w'.journal)
    requires HandOffs(w'.mail, x) + |Members(w'.calls, x, Held)|
          <= Score(x, w'.journal.Now()) + |Members(w'.calls, x, Due)|
    requires |Members(w'.calls, x, Due)| <= |Members(w'.calls, x, Open)|
    requires || w'.journal == w.journal.Sync()
             || HandOffs(w'.mail, x) - HandOffs(w.mail, x) <= |Members(w'.calls, x, Open)| - |Members(w.calls, x, Open)|
    ensures Budget(w', x)
  {
    GrownViews(w.journal, w'.journal);
  }

  /** Overwriting a counter with its successor scores exactly for that counter's class. */
  lemma ScoreRate(x: Class, t: Tables, b: Bucket)
    ensures Score(x, Apply(t, PutRate(b, Rate(t, b) + 1))) ==
            Score(x, t) + if (x.HourOf? && b == HourBucket(x.hour)) || (x.DayOf? && b == DayBucket(x.day)) then 1 else 0
  {}

  lemma ScoreNewRow(x: Class, t: Tables, row: Delivery)
    requires DeliveryKey(row.sendId, row.email) !in t.deliveries
    ensures Score(x, Apply(t, PutDelivery(row))) ==
            var mine := || (x.SendOf? && x.id == row.sendId)
                        || (x.RecipientOf? && (x.id, x.key) == DeliveryKey(row.sendId, row.email));
            Score(x, t) + if mine then 1 else 0
  {
    var key := DeliveryKey(row.sendId, row.email);
    var t' := Apply(t, PutDelivery(row));
    if x.SendOf? {
      assert RowsOf(t', x.id) == if x.id == row.sendId then RowsOf(t, x.id) + {key} else RowsOf(t, x.id);
    }
  }

  lemma ScoreOtherRow(x: Class, t: Tables, row: Delivery)
    requires x.IsCap() || x.id != row.sendId
    ensures Score(x, Apply(t, PutDelivery(row))) == Score(x, t)
  {
    if x.SendOf? {
      assert RowsOf(Apply(t, PutDelivery(row)), x.id) == RowsOf(t, x.id);
    }
  }

  lemma HandOffsAppend(mail: seq<HandOff>, h: HandOff, x: Class)
    ensures HandOffs(mail + [h], x) == HandOffs(mail, x) + if Mine(x, h) then 1 else 0
  {
    assert (mail + [h])[..|mail + [h]| - 1] == mail;
  }

  lemma CutPhases(x: Class, k: Call)
    requires !Ended(k.pc)
    ensures In(x, Held, CutCall(k)) - In(x, Held, k) <= In(x, Due, CutCall(k)) - In(x, Due, k)
    ensures In(x, Open, CutCall(k)) == In(x, Open, k)
  {}

  /** An insert that pays for what the call holds next keeps the budget, however the insert ends. */
  lemma BudgetInsert(w: Server, w': Server, c: nat, r: Record, io: WriteIo, pc: Pc, x: Class)
    requires w.journal.Valid() && Budget(w, x) && InsertMove(w, w', c, r, io, pc) && !Ended(w.calls[c].pc)
    requires Score(x, Apply(w.journal.Now(), r)) >= Score(x, w.journal.Now())
    requires var k, next := w.calls[c], w.calls[c].(pc := pc);
      && In(x, Held, next) - In(x, Held, k)
         <= Score(x, Apply(w.journal.Now(), r)) - Score(x, w.journal.Now()) + In(x, Due, next) - In(x, Due, k)
      && In(x, Open, k) <= In(x, Open, next)
    ensures Budget(w', x)
  {
    WriteGrows(w.journal, r, io);
    CutPhases(x, w.calls[c]);
    BudgetMove(w, w', c, x);
  }

  lemma BudgetInsertSend(w: Server, c: nat, io: WriteIo, x: Class)
    requires w.journal.Valid() && Budget(w, x) && c in w.calls && w.calls[c].pc.Creating?
    ensures Budget(InsertSendStep(w, c, w.calls[c], io), x)
  {
    var r := PutSend(w.calls[c].send);
    InsertSendRow(w, c, io);
    SameScore(x, w.journal.Now(), Apply(w.journal.Now(), r));
    BudgetInsert(w, InsertSendStep(w, c, w.calls[c], io), c, r, io, Created, x);
  }

  lemma BudgetWriteHour(w: Server, c: nat, io: WriteIo, x: Class)
    requires w.journal.Valid() && Budget(w, x) && c in w.calls && w.calls[c].pc.BothRead? && LockOk(w, c, w.calls[c])
    ensures Budget(WriteHourStep(w, c, w.calls[c], io), x)
  {
    var k := w.calls[c];
    var b := HourBucket(k.now.hour);
    InsertHour(w, c, io);
    ScoreRate(x, w.journal.Now(), b);
    BudgetInsert(w, WriteHourStep(w, c, k, io), c, PutRate(b, k.pc.hourCount + 1), io, HourWritten(k.pc.dayCount), x);
  }

  lemma BudgetWriteDay(w: Server, c: nat, io: WriteIo, x: Class)
    requires w.journal.Valid() && Budget(w, x) && c in w.calls && w.calls[c].pc.HourWritten? && LockOk(w, c, w.calls[c])
    ensures Budget(WriteDayStep(w, c, w.calls[c], io), x)
  {
    var k := w.calls[c];
    var b := DayBucket(k.now.hour.day);
    InsertDay(w, c, io);
    ScoreRate(x, w.journal.Now(), b);
    BudgetInsert(w, WriteDayStep(w, c, k, io), c, PutRate(b, k.pc.dayCount + 1), io, Admitted, x);
  }

  lemma BudgetInsertRow(w: Server, c: nat, io: WriteIo, at: int, x: Class)
    requires w.journal.Valid() && Budget(w, x) && c in w.calls && w.calls[c].pc.Settled? && w.calls[c].queue != []
    requires !x.IsCap() && x.id == w.calls[c].send.id ==> Unrecorded(w.journal.Now(), w.calls[c])
    ensures Budget(InsertRowStep(w, c, w.calls[c], io, at), x)
  {
    var k := w.calls[c];
    var row := LedgerRow(k, at);
    InsertLedger(w, c, io, at);
    if x.IsCap() || x.id != k.send.id {
      ScoreOtherRow(x, w.journal.Now(), row);
    } else {
      ScoreNewRow(x, w.journal.Now(), row);
    }
    BudgetInsert(w, InsertRowStep(w, c, k, io, at), c, PutDelivery(row), io, Recorded(k.pc.handed), x);
  }

  lemma BudgetHandOver(w: Server, c: nat, x: Class)
    requires w.journal.Valid() && Budget(w, x) && c in w.calls && w.calls[c].pc.Mailing? && w.calls[c].queue != []
    ensures Budget(HandOverStep(w, c, w.calls[c]), x)
  {
    var k := w.calls[c];
    var w', h := HandOverStep(w, c, k), HandOff(k.send, Target(k), k.now);
    HandOffsAppend(w.mail, h, x);
    assert Mine(x, h) == Concerns(x, k) == Concerns(x, w'.calls[c]);
    BudgetMove(w, w', c, x);
  }

  lemma QuietPhases(x: Class, k: Call, k': Call, synced: bool)
    requires QuietPc(k.pc, k'.pc, synced)
    requires k'.pc.Checking? || k'.queue == k.queue
    requires k'.send == k.send && k'.now == k.now
    ensures In(x, Held, k') - In(x, Held, k) <= In(x, Due, k') - In(x, Due, k)
    ensures synced || In(x, Open, k) <= In(x, Open, k')
  {}

  lemma BudgetQuiet(w: Server, w': Server, c: nat, x: Class)
    requires w.journal.Valid() && Budget(w, x) && QuietMove(w, w', c)
    ensures Budget(w', x)
  {
    QuietPhases(x, w.calls[c], w'.calls[c], w'.journal == w.journal.Sync());
    BudgetMove(w, w', c, x);
  }

  lemma BudgetCall(w: Server, c: nat, act: Act, x: Class)
    requires BaseInv(w) && Budget(w, x) && c in w.calls
    requires x.IsCap() || LedgerInv(w, x.id)
    ensures Budget(CallStep(w, c, w.calls[c], act), x)
  {
    var k := w.calls[c];
    if Quiet(act) {
      QuietCall(w, c, act);
      BudgetQuiet(w, CallStep(w, c, k, act), c, x);
    } else if act.HandOver? {
      if k.pc.Mailing? && k.queue != [] { BudgetHandOver(w, c, x); }
    } else if act.InsertSend? {
      if k.pc.Creating? { BudgetInsertSend(w, c, act.io, x); }
    } else if act.WriteHour? {
      if k.pc.BothRead? { BudgetWriteHour(w, c, act.io, x); }
    } else if act.WriteDay? {
      if k.pc.HourWritten? { BudgetWriteDay(w, c, act.io, x); }
    } else if k.pc.Settled? && k.queue != [] {
      BudgetInsertRow(w, c, act.io, act.at, x);
    }
  }

  lemma SameScore(x: Class, t: Tables, t': Tables)
    requires t'.deliveries.Keys == t.deliveries.Keys && t'.rates == t.rates
    ensures Score(x, t') == Score(x, t)
  {
    if x.SendOf? { assert RowsOf(t', x.id) == RowsOf(t, x.id); }
  }

  lemma BudgetAside(w: Server, w': Server, x: Class)
    requires w.journal.Valid() && Budget(w, x) && Grows(w.journal, w'.journal)
    requires w'.mail == w.mail && w'.journal.Now().deliveries.Keys == w.journal.Now().deliveries.Keys
    requires w'.journal.Now().rates == w.journal.Now().rates
    requires forall ph :: Members(w'.calls, x, ph) == Members(w.calls, x, ph)
    ensures Budget(w', x)
  {
    SameScore(x, w.journal.Now(), w'.journal.Now());
    GrownViews(w.journal, w'.journal);
    DueWithinOpen(w.calls, x);
  }

  lemma NewCallMembers(w: Server, w': Server, e: Event, x: Class, ph: Phase)
    requires e.Resolve? && ResolveMove(w, w', e)
    ensures Members(w'.calls, x, ph) == Members(w.calls, x, ph)
  {
    if e.call !in w.calls {
      MembersMove(w.calls, e.call, w'.calls[e.call], x, ph);
    }
  }

  lemma BudgetResolve(w: Server, w': Server, e: Event, x: Class)
    requires w.journal.Valid() && Budget(w, x) && e.Resolve? && ResolveMove(w, w', e)
    ensures Budget(w', x)
  {
    forall ph
      ensures Members(w'.calls, x, ph) == Members(w.calls, x, ph)
    {
      NewCallMembers(w, w', e, x, ph);
    }
    BudgetAside(w, w', x);
  }

  lemma CutOne(x: Class, k: Call)
    ensures Concerns(x, CutCall(k)) == Concerns(x, k) && !InPhase(x, Held, CutCall(k).pc)
    ensures InPhase(x, Due, CutCall(k).pc) == InPhase(x, Open, k.pc) == InPhase(x, Open, CutCall(k).pc)
  {}

  lemma CutMembers(w: Server, x: Class)
    ensures Members(CutAll(w).calls, x, Held) == {}
    ensures Members(CutAll(w).calls, x, Due) == Members(w.calls, x, Open) == Members(CutAll(w).calls, x, Open)
  {
    forall c | c in w.calls
      ensures Concerns(x, CutCall(w.calls[c])) == Concerns(x, w.calls[c])
      ensures !InPhase(x, Held, CutCall(w.calls[c]).pc)
      ensures InPhase(x, Due, CutCall(w.calls[c]).pc) == InPhase(x, Open, w.calls[c].pc) ==
                InPhase(x, Open, CutCall(w.calls[c]).pc)
    {
      CutOne(x, w.calls[c]);
    }
  }

  lemma BudgetKill(w: Server, x: Class)
    requires w.journal.Valid() && Budget(w, x)
    ensures Budget(CutAll(w), x)
  {
    CutMembers(w, x);
    DueWithinOpen(w.calls, x);
  }

  lemma BudgetPowerLoss(w: Server, keep: nat, x: Class)
    requires w.journal.Valid() && Budget(w, x) && w.journal.synced <= keep <= |w.journal.log|
    ensures Budget(CutAll(w).(journal := w.journal.Recover(keep)), x)
  {
    CutMembers(w, x);
    RecoverViews(w.journal, keep);
  }

  lemma BudgetStep(w: Server, e: Event, x: Class)
    requires BaseInv(w) && Budget(w, x)
    requires x.IsCap() || LedgerInv(w, x.id)
    ensures Budget(Step(w, e), x)
  {
    BaseNow(w);
    if e.Resolve? {
      ResolveFrame(w, e);
      BudgetResolve(w, Step(w, e), e, x);
    } else if e.OfCall? {
      if e.call in w.calls { BudgetCall(w, e.call, e.act, x); }
    } else if Aside(e) {
      AsideFrame(w, e);
      BudgetAside(w, Step(w, e), x);
    } else if e.Kill? {
      BudgetKill(w, x);
    } else if w.journal.synced <= e.keep <= |w.journal.log| {
      BudgetPowerLoss(w, e.keep, x);
    }
  }

  lemma CapBudgetRun(w: Server, es: seq<Event>, x: Class)
    requires Init(w) && x.IsCap()
    ensures BaseInv(Exec(w, es)) && Budget(Exec(w, es), x)
    decreases |es|
  {
    BaseRun(w, es);
    if es != [] {
      var n := |es| - 1;
      CapBudgetRun(w, es[..n], x);
      BudgetStep(Exec(w, es[..n]), es[n], x);
    }
  }

  lemma LedgerRun(w: Server, es: seq<Event>, id: SendId)
    requires Init(w) && Serial(w, es, id)
    ensures BaseInv(Exec(w, es)) && LedgerInv(Exec(w, es), id)
    decreases |es|
  {
    BaseRun(w, es);
    if es != [] {
      var n := |es| - 1;
      LedgerRun(w, es[..n], id);
      BaseRun(w, es[..n]);
      LedgerStep(Exec(w, es[..n]), es[n], id);
    }
  }

  lemma RowBudgetRun(w: Server, es: seq<Event>, x: Class)
    requires Init(w) && !x.IsCap() && Serial(w, es, x.id)
    ensures BaseInv(Exec(w, es)) && LedgerInv(Exec(w, es), x.id) && Budget(Exec(w, es), x)
    decreases |es|
  {
    LedgerRun(w, es, x.id);
    if es != [] {
      var n := |es| - 1;
      RowBudgetRun(w, es[..n], x);
      BudgetStep(Exec(w, es[..n]), es[n], x);
    }
  }

  // ----- main results

  lemma CapsFixed(w: Server, es: seq<Event>)
    ensures Exec(w, es).caps == w.caps
    decreases |es|
  {
    if es != [] {
      var n := |es| - 1;
      CapsFixed(w, es[..n]);
      StepHistory(Exec(w, es[..n]), es[n]);
    }
  }

  /** Every counter stays within its cap, whatever tasks interleave and whatever fails. */
  lemma CountersWithinCaps(w: Server, es: seq<Event>, b: Bucket)
    requires Init(w)
    ensures Rate(Exec(w, es).journal.Now(), b) <= Cap(w.caps, b)
  {
    BaseRun(w, es);
    BaseNow(Exec(w, es));
    CapsFixed(w, es);
  }

  /** The cap of a window, for an hour or a day. */
  function WindowCap(caps: Caps, x: Class): nat
    requires x.IsCap()
  {
    if x.HourOf? then caps.hour else caps.day
  }

  function WindowOf(x: Class): Bucket
    requires x.IsCap()
  {
    if x.HourOf? then HourBucket(x.hour) else DayBucket(x.day)
  }

  /** A window's hand-offs are counted, but for the calls ended between hand-off and ledger sync. */
  lemma HandOffsWithinCount(w: Server, es: seq<Event>, x: Class)
    requires Init(w) && x.IsCap()
    ensures HandOffs(Exec(w, es).mail, x) <= Rate(Exec(w, es).journal.Now(), WindowOf(x)) + |LostTrack(Exec(w, es), x)|
  {
    CapBudgetRun(w, es, x);
    assert LostTrack(Exec(w, es), x) == Members(Exec(w, es).calls, x, Due);
  }

  /** Over every run, with any number of overlapping calls, store errors, timeouts,
  kills and power losses, the hand-offs stamped in one UTC hour (or day) are at
  most the cap plus the calls of that window that were ended between hand-off and
  ledger sync; those are among the interrupted ones, one hand-off each. */
  lemma HandOffsWithinCap(w: Server, es: seq<Event>, x: Class)
    requires Init(w) && x.IsCap()
    ensures HandOffs(Exec(w, es).mail, x) <= WindowCap(w.caps, x) + |LostTrack(Exec(w, es), x)|
    ensures HandOffs(Exec(w, es).mail, x) <= WindowCap(w.caps, x) + |Interrupted(Exec(w, es), x)|
  {
    var v := Exec(w, es);
    HandOffsWithinCount(w, es, x);
    CountersWithinCaps(w, es, WindowOf(x));
    SizeWithin(LostTrack(v, x), Interrupted(v, x));
  }

  lemma InFlightSame(v: Server, x: Class, a: nat, b: nat)
    requires !x.IsCap() && LedgerInv(v, x.id) && a in InFlight(v, x) && b in InFlight(v, x)
    ensures a == b
  {}

  lemma InFlightUnscored(v: Server, x: Class, a: nat)
    requires x.RecipientOf? && LedgerInv(v, x.id) && a in InFlight(v, x)
    ensures Score(x, v.journal.Now()) == 0
  {
    assert Unrecorded(v.journal.Now(), v.calls[a]);
  }

  lemma DueSplit(v: Server, x: Class)
    requires !x.IsCap()
    ensures |Members(v.calls, x, Due)| <= |LostTrack(v, x)| + |InFlight(v, x)|
  {
    assert Members(v.calls, x, Due) == LostTrack(v, x) + InFlight(v, x);
  }

  lemma InFlightBound(v: Server, x: Class)
    requires !x.IsCap() && LedgerInv(v, x.id)
    ensures |InFlight(v, x)| <= 1
    ensures x.RecipientOf? ==> |InFlight(v, x)| + Score(x, v.journal.Now()) <= 1
    ensures |Members(v.calls, x, Due)| <= |LostTrack(v, x)| + |InFlight(v, x)|
  {
    var f := InFlight(v, x);
    forall a, b | a in f && b in f
      ensures a == b
    {
      InFlightSame(v, x, a, b);
    }
    AtMostOneElement(f);
    DueSplit(v, x);
    if x.RecipientOf? && f != {} {
      var c :| c in f;
      InFlightUnscored(v, x, c);
    }
  }

  /** With calls on one id that do not overlap, one recipient gets at most one message
  plus one for each call that was ended between its hand-off and its ledger sync. */
  lemma AtMostOnce(w: Server, es: seq<Event>, id: SendId, key: string)
    requires Init(w) && Serial(w, es, id)
    ensures HandOffs(Exec(w, es).mail, RecipientOf(id, key)) <= 1 + |LostTrack(Exec(w, es), RecipientOf(id, key))|
    ensures HandOffs(Exec(w, es).mail, RecipientOf(id, key)) <= 1 + |Interrupted(Exec(w, es), RecipientOf(id, key))|
  {
    var v, x := Exec(w, es), RecipientOf(id, key);
    RowBudgetRun(w, es, x);
    InFlightBound(v, x);
    SizeWithin(LostTrack(v, x), Interrupted(v, x));
  }

  /** Under the same condition a send costs at most its ledger rows plus the calls
  ended between hand-off and ledger sync, and the one message now in flight. */
  lemma SendWithinLedger(w: Server, es: seq<Event>, id: SendId)
    requires Init(w) && Serial(w, es, id)
    ensures var v := Exec(w, es);
      && |InFlight(v, SendOf(id))| <= 1
      && HandOffs(v.mail, SendOf(id))
         <= |RowsOf(v.journal.Now(), id)| + |LostTrack(v, SendOf(id))| + |InFlight(v, SendOf(id))|
  {
    RowBudgetRun(w, es, SendOf(id));
    InFlightBound(Exec(w, es), SendOf(id));
  }
}
