/** The running server as a state machine.

`Step` is total: an event that is not enabled changes nothing, so "every run"
is every sequence of events. All nondeterminism (store errors, the relay's
verdict, timeouts, power loss, the clock) is carried by the event. A webhook
that suppresses is two events, its ledger write and its consent write; the
latter needs a ledger row of the address and may come at any moment. `mail`,
`minted`, `unsubs` and `writes` only record history; no transition of the code
depends on them, except that a presented token must be one that was minted. */
module Protocol {
  import opened Records
  import opened Journals

  datatype Caps = Caps(hour: nat, day: nat)

  /** A recipient row as a fan-out read it, with the number of transitions into
  Unsubscribed its address had been through at that moment. */
  datatype Seen = Seen(row: Subscriber, epoch: nat)

  /** Where one `/send` call stands. */
  datatype Pc =
    | Creating                                       // `send_get` found no record
    | Created                                        // record inserted, not yet synced
    | Resolved                                       // the `Send` record is settled
    | Checking                                       // top of the loop
    | Waiting                                        // `rate_limit_lock.lock().await`
    | Locked
    | HourRead(hourCount: nat)
    | BothRead(hourCount: nat, dayCount: nat)
    | HourWritten(dayCount: nat)
    | Admitted                                       // slot reserved, lock released
    | Mailing                                        // token signed, message composed
    | Awaiting                                       // the relay has the message
    | Settled(status: DeliveryStatus, handed: bool)
    | Recorded(handed: bool)                         // ledger row inserted, not yet synced
    | Done
    | Cut(exposed: bool)                             // ended by an error, a timeout or a power loss

  datatype Call = Call(send: Send, now: Moment, queue: seq<Seen>, pc: Pc)

  datatype HandOff = HandOff(send: Send, key: string, now: Moment)

  datatype Minted = Minted(token: Token, epoch: nat)

  datatype Author = ByConfirm | ByUnsubscribe | ByRelay

  datatype ConsentWrite = ConsentWrite(key: string, author: Author, generation: nat)

  datatype Server = Server(
    caps: Caps,
    journal: Journal,
    lock: Option<nat>,
    calls: map<nat, Call>,
    mail: seq<HandOff>,
    minted: set<Minted>,
    unsubs: map<string, nat>,
    writes: seq<ConsentWrite>)

  datatype EventKind = Bounce | Complaint

  datatype Act =
    | InsertSend(io: WriteIo)
    | SyncSend(ok: bool)
    | Snapshot(ok: bool, rows: seq<Subscriber>)
    | Check(ok: bool)
    | Acquire
    | ReadHour(ok: bool)
    | ReadDay(ok: bool)
    | WriteHour(io: WriteIo)
    | WriteDay(io: WriteIo)
    | Compose(signed: bool, composed: bool)
    | HandOver
    | Verdict(accepted: bool)
    | InsertRow(io: WriteIo, at: int)
    | SyncRow(ok: bool)
    | Drop

  datatype Event =
    | Resolve(call: nat, id: SendId, subject: string, bodyHtml: string, now: Moment, ok: bool)
    | OfCall(call: nat, act: Act)
    | Subscribe(email: string, unix: int)
    | ConfirmPost(minted: Minted, unix: int, put: PutIo)
    | UnsubscribePost(minted: Minted, unix: int, put: PutIo)
    | Webhook(id: SendId, email: string, kind: EventKind, unix: int, put: PutIo)
    | Suppress(email: string, unix: int, put: PutIo)
    | PurgeRow(key: string, unix: int, io: WriteIo)
    | Flush
    | Kill
    | PowerLoss(keep: nat)

  // ----- reads

  function Rate(t: Tables, b: Bucket): nat {
    if b in t.rates then t.rates[b] else 0
  }

  function Lookup(t: Tables, email: string): Option<Subscriber> {
    var k := Lower(email);
    if k in t.subscribers then Some(t.subscribers[k]) else None
  }

  function Epoch(w: Server, key: string): nat {
    if key in w.unsubs then w.unsubs[key] else 0
  }

  /** The Active rows in key order: what `active_subscribers` collects. */
  ghost predicate IsSnapshot(rows: seq<Subscriber>, subscribers: map<string, Subscriber>) {
    && (forall i, j | 0 <= i < j < |rows| :: Less(Key(rows[i]), Key(rows[j])))
    && (forall i | 0 <= i < |rows| ::
          rows[i].state.Active? && Key(rows[i]) in subscribers && subscribers[Key(rows[i])] == rows[i])
    && (forall k | k in subscribers && subscribers[k].state.Active? :: subscribers[k] in rows)
  }

  // ----- one `/send` call

  predicate Ended(pc: Pc) { pc.Done? || pc.Cut? }

  /** The relay has this call's message and no ledger sync has covered it. */
  predicate Exposed(pc: Pc) {
    || pc.Awaiting?
    || (pc.Settled? && pc.handed)
    || (pc.Recorded? && pc.handed)
    || (pc.Cut? && pc.exposed)
  }

  predicate HoldsLock(pc: Pc) {
    pc.Locked? || pc.HourRead? || pc.BothRead? || pc.HourWritten?
  }

  function CutCall(k: Call): Call {
    if Ended(k.pc) then k else k.(pc := Cut(Exposed(k.pc)))
  }

  function Move(w: Server, c: nat, k: Call): Server { w.(calls := w.calls[c := k]) }

  /** The guard drops when the call leaves the locked region, however it leaves. */
  function Leave(w: Server, c: nat, k: Call): Server { Move(w, c, k).(lock := None) }

  /** An early return or a dropped future. */
  function Abort(w: Server, c: nat, k: Call): Server {
    if HoldsLock(k.pc) then Leave(w, c, CutCall(k)) else Move(w, c, CutCall(k))
  }

  function Pop(k: Call): Call
    requires k.queue != []
  {
    k.(queue := k.queue[1..], pc := Checking)
  }

  function Target(k: Call): string
    requires k.queue != []
  {
    Key(k.queue[0].row)
  }

  function UnsubscribeToken(k: Call): Minted
    requires k.queue != []
  {
    var s := k.queue[0];
    Minted(Token(Unsubscribe, s.row.email, k.now.unix + UNSUBSCRIBE_TTL_SECS, s.row.generation), s.epoch)
  }

  /** The write half of `resolve_send`: `send_put` inserts, then syncs. */
  function InsertSendStep(w: Server, c: nat, k: Call, io: WriteIo): Server {
    if !k.pc.Creating? then w
    else
      var w' := w.(journal := w.journal.Write(PutSend(k.send), io));
      if io.Written? then Move(w', c, k.(pc := Created)) else Abort(w', c, k)
  }

  function SyncSendStep(w: Server, c: nat, k: Call, ok: bool): Server {
    if !k.pc.Created? then w
    else if !ok then Abort(w, c, k)
    else Move(w.(journal := w.journal.Sync()), c, k.(pc := Resolved))
  }

  /** `active_subscribers`, once the record is settled. */
  ghost function SnapshotStep(w: Server, c: nat, k: Call, ok: bool, rows: seq<Subscriber>): Server {
    if !k.pc.Resolved? then w
    else if !ok then Abort(w, c, k)
    else if !IsSnapshot(rows, w.journal.Now().subscribers) then w
    else
      var queue := seq(|rows|, i requires 0 <= i < |rows| => Seen(rows[i], Epoch(w, Key(rows[i]))));
      Move(w, c, k.(pc := Checking, queue := queue))
  }

  /** `delivery_get` for the next recipient, or the end of the loop. */
  function CheckStep(w: Server, c: nat, k: Call, ok: bool): Server {
    if !k.pc.Checking? then w
    else if k.queue == [] then Move(w, c, k.(pc := Done))
    else if !ok then Abort(w, c, k)
    else if DeliveryKey(k.send.id, k.queue[0].row.email) in w.journal.Now().deliveries then Move(w, c, Pop(k))
    else Move(w, c, k.(pc := Waiting))
  }

  function AcquireStep(w: Server, c: nat, k: Call): Server {
    if !k.pc.Waiting? || w.lock.Some? then w
    else Move(w, c, k.(pc := Locked)).(lock := Some(c))
  }

  function ReadHourStep(w: Server, c: nat, k: Call, ok: bool): Server {
    if !k.pc.Locked? then w
    else if !ok then Abort(w, c, k)
    else Move(w, c, k.(pc := HourRead(Rate(w.journal.Now(), HourBucket(k.now.hour)))))
  }

  /** The second read and the decision: refuse and go on, or admit. */
  function ReadDayStep(w: Server, c: nat, k: Call, ok: bool): Server {
    if !k.pc.HourRead? || k.queue == [] then w
    else if !ok then Abort(w, c, k)
    else
      var dayCount := Rate(w.journal.Now(), DayBucket(k.now.hour.day));
      if k.pc.hourCount >= w.caps.hour || dayCount >= w.caps.day then Leave(w, c, Pop(k))
      else Move(w, c, k.(pc := BothRead(k.pc.hourCount, dayCount)))
  }

  function WriteHourStep(w: Server, c: nat, k: Call, io: WriteIo): Server {
    if !k.pc.BothRead? then w
    else
      var w' := w.(journal := w.journal.Write(PutRate(HourBucket(k.now.hour), k.pc.hourCount + 1), io));
      if io.Written? then Move(w', c, k.(pc := HourWritten(k.pc.dayCount))) else Abort(w', c, k)
  }

  function WriteDayStep(w: Server, c: nat, k: Call, io: WriteIo): Server {
    if !k.pc.HourWritten? then w
    else
      var w' := w.(journal := w.journal.Write(PutRate(DayBucket(k.now.hour.day), k.pc.dayCount + 1), io));
      if io.Written? then Leave(w', c, k.(pc := Admitted)) else Abort(w', c, k)
  }

  /** Sign the unsubscribe token and compose the message. A message that cannot be
  composed is recorded as Failed without reaching the relay. */
  function ComposeStep(w: Server, c: nat, k: Call, signed: bool, composed: bool): Server {
    if !k.pc.Admitted? || k.queue == [] then w
    else if !signed then Abort(w, c, k)
    else
      var w' := w.(minted := w.minted + {UnsubscribeToken(k)});
      Move(w', c, k.(pc := if composed then Mailing else Settled(Failed, false)))
  }

  function HandOverStep(w: Server, c: nat, k: Call): Server {
    if !k.pc.Mailing? || k.queue == [] then w
    else Move(w, c, k.(pc := Awaiting)).(mail := w.mail + [HandOff(k.send, Target(k), k.now)])
  }

  function VerdictStep(w: Server, c: nat, k: Call, accepted: bool): Server {
    if !k.pc.Awaiting? then w else Move(w, c, k.(pc := Settled(if accepted then Sent else Failed, true)))
  }

  function LedgerRow(k: Call, at: int): Delivery
    requires k.pc.Settled? && k.queue != []
  {
    Delivery(k.send.id, k.queue[0].row.email, k.pc.status, at)
  }

  function InsertRowStep(w: Server, c: nat, k: Call, io: WriteIo, at: int): Server {
    if !k.pc.Settled? || k.queue == [] then w
    else
      var w' := w.(journal := w.journal.Write(PutDelivery(LedgerRow(k, at)), io));
      if io.Written? then Move(w', c, k.(pc := Recorded(k.pc.handed))) else Abort(w', c, k)
  }

  function SyncRowStep(w: Server, c: nat, k: Call, ok: bool): Server {
    if !k.pc.Recorded? || k.queue == [] then w
    else if !ok then Abort(w, c, k)
    else Move(w.(journal := w.journal.Sync()), c, Pop(k))
  }

  /** The request timeout drops the future; it can only be at an `.await`. */
  function DropStep(w: Server, c: nat, k: Call): Server {
    if k.pc.Waiting? || k.pc.Mailing? || k.pc.Awaiting? then Abort(w, c, k) else w
  }

  ghost function CallStep(w: Server, c: nat, k: Call, act: Act): Server {
    match act
    case InsertSend(io) => InsertSendStep(w, c, k, io)
    case SyncSend(ok) => SyncSendStep(w, c, k, ok)
    case Snapshot(ok, rows) => SnapshotStep(w, c, k, ok, rows)
    case Check(ok) => CheckStep(w, c, k, ok)
    case Acquire => AcquireStep(w, c, k)
    case ReadHour(ok) => ReadHourStep(w, c, k, ok)
    case ReadDay(ok) => ReadDayStep(w, c, k, ok)
    case WriteHour(io) => WriteHourStep(w, c, k, io)
    case WriteDay(io) => WriteDayStep(w, c, k, io)
    case Compose(signed, composed) => ComposeStep(w, c, k, signed, composed)
    case HandOver => HandOverStep(w, c, k)
    case Verdict(accepted) => VerdictStep(w, c, k, accepted)
    case InsertRow(io, at) => InsertRowStep(w, c, k, io, at)
    case SyncRow(ok) => SyncRowStep(w, c, k, ok)
    case Drop => DropStep(w, c, k)
  }

  function NewSend(e: Event): Send
    requires e.Resolve?
  {
    Send(e.id, e.subject, e.bodyHtml, e.now.unix)
  }

  /** The read half of `resolve_send`: reuse the record, refuse other content, or go on to create it. */
  function ResolveStep(w: Server, e: Event): Server
    requires e.Resolve?
  {
    var t := w.journal.Now();
    if e.call in w.calls then w
    else if !e.ok then Move(w, e.call, Call(NewSend(e), e.now, [], Cut(false)))
    else if e.id !in t.sends then Move(w, e.call, Call(NewSend(e), e.now, [], Creating))
    else if t.sends[e.id].subject != e.subject || t.sends[e.id].bodyHtml != e.bodyHtml then
      Move(w, e.call, Call(NewSend(e), e.now, [], Done))
    else Move(w, e.call, Call(t.sends[e.id], e.now, [], Resolved))
  }

  // ----- consent

  /** The row `POST /confirm` stores for a verified confirm token, if it stores one. */
  function ConfirmWrite(row: Option<Subscriber>, t: Token, unix: int): Option<Subscriber> {
    match row
    case None => Some(Subscriber(t.email, Active, unix, Some(unix), None, t.generation))
    case Some(s) =>
      if s.state.Active? then None
      else if s.generation == t.generation then Some(s.(state := Active, confirmedAt := Some(unix)))
      else None
  }

  function Suppressed(s: Subscriber, unix: int): Subscriber {
    s.(state := Unsubscribed, unsubscribedAt := Some(unix), generation := s.generation + 1)
  }

  /** The row `unsubscribe::apply` stores for a verified unsubscribe token, if it stores one. */
  function UnsubscribeWrite(row: Option<Subscriber>, t: Token, unix: int): Option<Subscriber> {
    match row
    case None => None
    case Some(s) =>
      if s.state.Unsubscribed? then None
      else if s.generation == t.generation then Some(Suppressed(s, unix))
      else None
  }

  /** The row `suppress_subscriber` stores, if it stores one. */
  function SuppressWrite(row: Option<Subscriber>, unix: int): Option<Subscriber> {
    match row
    case None => None
    case Some(s) => if s.state.Active? then Some(Suppressed(s, unix)) else None
  }

  /** Some send has a ledger row of the address: its webhook answers otherwise that it knows no such delivery. */
  predicate HasDelivery(t: Tables, email: string) { exists d :: d in t.deliveries && d.1 == Lower(email) }

  predicate Presentable(w: Server, m: Minted, kind: TokenKind, unix: int) {
    m in w.minted && m.token.kind == kind && unix <= m.token.expUnix
  }

  predicate IsConsent(e: Event) { e.ConfirmPost? || e.UnsubscribePost? || e.Suppress? }

  /** The row a consent event decides to store, read and decided in one atomic step. */
  function Decided(w: Server, e: Event): Option<Subscriber>
    requires IsConsent(e)
  {
    var t := w.journal.Now();
    match e
    case ConfirmPost(m, unix, _) =>
      if Presentable(w, m, Confirm, unix) then ConfirmWrite(Lookup(t, m.token.email), m.token, unix) else None
    case UnsubscribePost(m, unix, _) =>
      if Presentable(w, m, Unsubscribe, unix) then UnsubscribeWrite(Lookup(t, m.token.email), m.token, unix) else None
    case Suppress(email, unix, _) => if HasDelivery(t, email) then SuppressWrite(Lookup(t, email), unix) else None
  }

  function AuthorOf(e: Event): Author
    requires IsConsent(e)
  {
    if e.ConfirmPost? then ByConfirm else if e.UnsubscribePost? then ByUnsubscribe else ByRelay
  }

  /** The generation a consent event was authorised at; the relay needs none. */
  function GenerationOf(e: Event): nat
    requires IsConsent(e)
  {
    if e.Suppress? then 0 else e.minted.token.generation
  }

  /** Store `row` under `io` and, if it landed, record the write and a transition into Unsubscribed. */
  function StoreRow(w: Server, row: Subscriber, io: PutIo, author: Author, generation: nat): Server {
    var w' := w.(journal := w.journal.Put(PutSubscriber(row), io));
    if !Landed(io) then w'
    else
      var k := Key(row);
      w'.(writes := w.writes + [ConsentWrite(k, author, generation)],
          unsubs := if row.state.Unsubscribed? then w.unsubs[k := Epoch(w, k) + 1] else w.unsubs)
  }

  function ConsentStep(w: Server, e: Event): Server
    requires IsConsent(e)
  {
    var row := Decided(w, e);
    if row.None? then w else StoreRow(w, row.value, e.put, AuthorOf(e), GenerationOf(e))
  }

  function MintConfirm(w: Server, email: string, unix: int): Minted {
    var k := Lower(email);
    var row := Lookup(w.journal.Now(), k);
    Minted(Token(Confirm, k, unix + CONFIRM_TTL_SECS, if row.Some? then row.value.generation else 0), Epoch(w, k))
  }

  /** A ledger row once the relay has reported on it. */
  function Marked(d: Delivery, kind: EventKind, unix: int): Delivery {
    d.(status := if kind.Bounce? then Bounced else Complained, at := unix)
  }

  /** The ledger half of the webhook: the row keeps its key, its status is overwritten. */
  function WebhookRow(w: Server, id: SendId, email: string, kind: EventKind, unix: int, io: PutIo): Server {
    var t := w.journal.Now();
    var key := DeliveryKey(id, email);
    if key !in t.deliveries then w
    else
      var row := Marked(t.deliveries[key], kind, unix);
      w.(journal := w.journal.Put(PutDelivery(row), io))
  }

  const PENDING_MAX_AGE_SECS := 24 * 3600

  predicate Expired(s: Subscriber, unix: int) {
    s.state.Pending? && s.createdAt + PENDING_MAX_AGE_SECS <= unix
  }

  function PurgeStep(w: Server, key: string, unix: int, io: WriteIo): Server {
    var t := w.journal.Now();
    if key in t.subscribers && Expired(t.subscribers[key], unix)
    then w.(journal := w.journal.Write(RemoveSubscriber(key), io))
    else w
  }

  // ----- everything

  function CutAll(w: Server): Server {
    w.(lock := None, calls := map c | c in w.calls :: CutCall(w.calls[c]))
  }

  ghost function Step(w: Server, e: Event): Server {
    match e
    case Resolve(_, _, _, _, _, _) => ResolveStep(w, e)
    case OfCall(c, act) => if c in w.calls then CallStep(w, c, w.calls[c], act) else w
    case Subscribe(email, unix) => w.(minted := w.minted + {MintConfirm(w, email, unix)})
    case ConfirmPost(_, _, _) => ConsentStep(w, e)
    case UnsubscribePost(_, _, _) => ConsentStep(w, e)
    case Webhook(id, email, kind, unix, io) => WebhookRow(w, id, email, kind, unix, io)
    case Suppress(_, _, _) => ConsentStep(w, e)
    case PurgeRow(key, unix, io) => PurgeStep(w, key, unix, io)
    case Flush => w.(journal := w.journal.Sync())
    case Kill => CutAll(w)
    case PowerLoss(keep) =>
      if w.journal.synced <= keep <= |w.journal.log| then CutAll(w).(journal := w.journal.Recover(keep)) else w
  }

  /** The state after a run. */
  ghost function Exec(w: Server, es: seq<Event>): Server {
    if es == [] then w else Step(Exec(w, es[..|es| - 1]), es[|es| - 1])
  }

  function Cap(caps: Caps, b: Bucket): nat {
    match b
    case HourBucket(_) => caps.hour
    case DayBucket(_) => caps.day
  }

  /** Caps a configuration can have. */
  predicate Issuable(caps: Caps) { 1 <= caps.hour <= caps.day }

  /** Every row sits under the key its own fields spell. */
  ghost predicate Keyed(t: Tables) {
    && (forall k | k in t.subscribers :: Key(t.subscribers[k]) == k)
    && (forall k | k in t.deliveries :: DeliveryKey(t.deliveries[k].sendId, t.deliveries[k].email) == k)
    && (forall id | id in t.sends :: t.sends[id].id == id)
  }

  /** A server that has just opened its store: rows under the lower-cased email,
  legacy Pending rows at generation 0, counters within the configured caps. */
  ghost predicate Init(w: Server) {
    && w.journal.log == [] && w.journal.synced == 0
    && w.lock.None? && w.calls == map[] && w.mail == [] && w.minted == {} && w.unsubs == map[] && w.writes == []
    && Keyed(w.journal.base)
    && (forall k | k in w.journal.base.subscribers && w.journal.base.subscribers[k].state.Pending? ::
          w.journal.base.subscribers[k].generation == 0)
    && (forall b :: Rate(w.journal.base, b) <= Cap(w.caps, b))
  }

  lemma ExecSplit(w: Server, xs: seq<Event>, ys: seq<Event>)
    ensures Exec(w, xs + ys) == Exec(Exec(w, xs), ys)
    decreases |ys|
  {
    if ys == [] {
      assert xs + ys == xs;
    } else {
      var n := |ys| - 1;
      assert (xs + ys)[..|xs + ys| - 1] == xs + ys[..n];
      ExecSplit(w, xs, ys[..n]);
    }
  }
}
