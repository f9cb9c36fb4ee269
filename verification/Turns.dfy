/** One recipient's turn in a `/send` call that holds the floor: what the stretches of
the protocol between two store operations come to. */
module Turns {
  import opened Records
  import opened Journals
  import opened Protocol
  import opened Runs
  import opened Stores

  /** Call `c` of `w` moved to `pc`. */
  function At(w: Server, c: nat, pc: Pc): Server
    requires c in w.calls
  {
    Move(w, c, w.calls[c].(pc := pc))
  }

  function Lost(w: Server, c: nat, exposed: bool): Server
    requires c in w.calls
  {
    At(w, c, Cut(exposed))
  }

  function Popped(w: Server, c: nat): Server
    requires c in w.calls && w.calls[c].queue != []
  {
    Move(w, c, Pop(w.calls[c]))
  }

  lemma MoveMove(w: Server, c: nat, j: Call, k: Call)
    ensures Move(Move(w, c, j), c, k) == Move(w, c, k)
  {
    assert w.calls[c := j][c := k] == w.calls[c := k];
  }

  // ----- the reservation

  function SlotEvents(c: nat, io: SlotIo): seq<Event> {
    [OfCall(c, ReadHour(io.readHour)), OfCall(c, ReadDay(io.readDay)),
     OfCall(c, WriteHour(io.writeHour)), OfCall(c, WriteDay(io.writeDay))]
  }

  function HourOf(w: Server, c: nat): Bucket
    requires c in w.calls
  {
    HourBucket(w.calls[c].now.hour)
  }

  function DayOf(w: Server, c: nat): Bucket
    requires c in w.calls
  {
    DayBucket(w.calls[c].now.hour.day)
  }

  /** The server once the reservation has returned. */
  function Reserved(w: Server, c: nat, io: SlotIo): Server
    requires c in w.calls && w.calls[c].queue != []
  {
    var w' := w.(journal := SlotJournal(w.journal, HourOf(w, c), DayOf(w, c), w.caps.hour, w.caps.day, io));
    match SlotAnswer(w.journal.Now(), HourOf(w, c), DayOf(w, c), w.caps.hour, w.caps.day, io)
    case Ok(admitted) => if admitted then At(w', c, Admitted) else Popped(w, c)
    case Err(_) => Lost(w', c, false)
  }

  /** `w` with the lock in the hands of `c`. */
  function Holding(w: Server, c: nat, pc: Pc): Server
    requires c in w.calls
  {
    At(w, c, pc).(lock := Some(c))
  }

  lemma TakeLock(w: Server, c: nat)
    requires c in w.calls && w.calls[c].pc.Waiting? && w.lock.None?
    ensures Step(w, OfCall(c, Acquire)) == Holding(w, c, Locked)
  {}

  lemma SlotReads(w: Server, c: nat, io: SlotIo)
    requires c in w.calls && w.calls[c].queue != [] && w.lock.None?
    ensures var t, v := w.journal.Now(), Holding(w, c, Locked);
            var v' := Step(Step(v, OfCall(c, ReadHour(io.readHour))), OfCall(c, ReadDay(io.readDay)));
            v' == if !io.readHour || !io.readDay then Lost(w, c, false)
                  else if !SlotFree(t, HourOf(w, c), DayOf(w, c), w.caps.hour, w.caps.day) then Popped(w, c)
                  else Holding(w, c, BothRead(Rate(t, HourOf(w, c)), Rate(t, DayOf(w, c))))
  {
    var v := Holding(w, c, Locked);
    var u := Step(v, OfCall(c, ReadHour(io.readHour)));
    var hourRead := HourRead(Rate(w.journal.Now(), HourOf(w, c)));
    MoveMove(w, c, v.calls[c], w.calls[c].(pc := Cut(false)));
    MoveMove(w, c, v.calls[c], w.calls[c].(pc := hourRead));
    assert u == if io.readHour then Holding(w, c, hourRead) else Lost(w, c, false);
    if io.readHour {
      MoveMove(w, c, u.calls[c], w.calls[c].(pc := Cut(false)));
      MoveMove(w, c, u.calls[c], Pop(w.calls[c]));
      var bothRead := BothRead(Rate(w.journal.Now(), HourOf(w, c)), Rate(w.journal.Now(), DayOf(w, c)));
      MoveMove(w, c, u.calls[c], w.calls[c].(pc := bothRead));
    }
  }

  lemma SlotWrites(w: Server, c: nat, hourCount: nat, dayCount: nat, io: SlotIo)
    requires c in w.calls && w.lock.None?
    ensures var v := Holding(w, c, BothRead(hourCount, dayCount));
            var v' := Step(Step(v, OfCall(c, WriteHour(io.writeHour))), OfCall(c, WriteDay(io.writeDay)));
            var w' := w.(journal := TakenJournal(w.journal, HourOf(w, c), hourCount, DayOf(w, c), dayCount, io));
            v' == if io.writeHour.Written? && io.writeDay.Written? then At(w', c, Admitted) else Lost(w', c, false)
  {
    var v := Holding(w, c, BothRead(hourCount, dayCount));
    var u := Step(v, OfCall(c, WriteHour(io.writeHour)));
    var w' := w.(journal := w.journal.Write(PutRate(HourOf(w, c), hourCount + 1), io.writeHour));
    MoveMove(w', c, v.calls[c], w.calls[c].(pc := Cut(false)));
    MoveMove(w', c, v.calls[c], w.calls[c].(pc := HourWritten(dayCount)));
    assert u == if io.writeHour.Written? then Holding(w', c, HourWritten(dayCount)) else Lost(w', c, false);
    if io.writeHour.Written? {
      var w'' := w'.(journal := w'.journal.Write(PutRate(DayOf(w, c), dayCount + 1), io.writeDay));
      MoveMove(w'', c, u.calls[c], w.calls[c].(pc := Cut(false)));
      MoveMove(w'', c, u.calls[c], w.calls[c].(pc := Admitted));
    }
  }

  lemma SlotIdle(v: Server, c: nat, io: SlotIo)
    requires c in v.calls && (v.calls[c].pc.Checking? || v.calls[c].pc.Cut?)
    ensures Step(Step(v, OfCall(c, WriteHour(io.writeHour))), OfCall(c, WriteDay(io.writeDay))) == v
  {}

  /** Lock, two reads, decision, two inserts, unlock: the protocol's steps come to the reservation's answer. */
  lemma SlotRun(w: Server, c: nat, io: SlotIo)
    requires c in w.calls && w.calls[c].queue != [] && w.calls[c].pc.Waiting? && w.lock.None?
    ensures Exec(w, [OfCall(c, Acquire)] + SlotEvents(c, io)) == Reserved(w, c, io)
  {
    var es, t := SlotEvents(c, io), w.journal.Now();
    One(w, OfCall(c, Acquire));
    TakeLock(w, c);
    ExecSplit(w, [OfCall(c, Acquire)], es);
    var v := Holding(w, c, Locked);
    Four(v, es[0], es[1], es[2], es[3]);
    SlotReads(w, c, io);
    if io.readHour && io.readDay && SlotFree(t, HourOf(w, c), DayOf(w, c), w.caps.hour, w.caps.day) {
      SlotWrites(w, c, Rate(t, HourOf(w, c)), Rate(t, DayOf(w, c)), io);
    } else {
      SlotIdle(Step(Step(v, es[0]), es[1]), c, io);
    }
  }

  // ----- signing, composing, the relay

  /** Where the request timeout drops the call, if it does. */
  datatype Dropped = Never | AtLock | BeforeRelay | AtRelay

  /** Everything outside the server's control during one recipient's turn. */
  datatype Fate = Fate(
    ledger: bool,
    dropped: Dropped,
    slot: SlotIo,
    signed: bool,
    composed: bool,
    accepted: bool,
    at: int,
    record: PutIo)

  function MailEvents(c: nat, f: Fate): seq<Event> {
    [OfCall(c, Compose(f.signed, f.composed)),
     OfCall(c, if f.dropped.BeforeRelay? then Drop else HandOver),
     OfCall(c, if f.dropped.AtRelay? then Drop else Verdict(f.accepted))]
  }

  /** The server with this turn's message in the relay's hands. */
  function Handed(w: Server, c: nat): Server
    requires c in w.calls && w.calls[c].queue != []
  {
    w.(minted := w.minted + {UnsubscribeToken(w.calls[c])},
       mail := w.mail + [HandOff(w.calls[c].send, Target(w.calls[c]), w.calls[c].now)])
  }

  function Posted(w: Server, c: nat, f: Fate): Server
    requires c in w.calls && w.calls[c].queue != []
  {
    if !f.signed then Lost(w, c, false)
    else if !f.composed then At(Handed(w, c).(mail := w.mail), c, Settled(Failed, false))
    else if f.dropped.BeforeRelay? then Lost(Handed(w, c).(mail := w.mail), c, false)
    else if f.dropped.AtRelay? then Lost(Handed(w, c), c, true)
    else At(Handed(w, c), c, Settled(if f.accepted then Sent else Failed, true))
  }

  lemma ComposeTurn(w: Server, c: nat, f: Fate)
    requires c in w.calls && w.calls[c].queue != [] && w.calls[c].pc.Admitted?
    ensures Step(w, MailEvents(c, f)[0]) ==
              if !f.signed then Lost(w, c, false)
              else At(Handed(w, c).(mail := w.mail), c, if f.composed then Mailing else Settled(Failed, false))
  {}

  /** A call that has nothing to hand over ignores what would hand it over. */
  lemma MailIdle(v: Server, c: nat, f: Fate)
    requires c in v.calls && (v.calls[c].pc.Settled? || v.calls[c].pc.Cut?)
    ensures Step(v, MailEvents(c, f)[1]) == v && Step(v, MailEvents(c, f)[2]) == v
  {}

  lemma HandTurn(v: Server, c: nat, f: Fate)
    requires c in v.calls && v.calls[c].queue != [] && v.calls[c].pc.Mailing?
    ensures Step(v, MailEvents(c, f)[1]) ==
              if f.dropped.BeforeRelay? then Lost(v, c, false)
              else At(v, c, Awaiting).(mail := v.mail + [HandOff(v.calls[c].send, Target(v.calls[c]), v.calls[c].now)])
  {}

  lemma VerdictTurn(v: Server, c: nat, f: Fate)
    requires c in v.calls && v.calls[c].pc.Awaiting?
    ensures Step(v, MailEvents(c, f)[2]) ==
              if f.dropped.AtRelay? then Lost(v, c, true)
              else At(v, c, Settled(if f.accepted then Sent else Failed, true))
  {}

  lemma MailRun(w: Server, c: nat, f: Fate)
    requires c in w.calls && w.calls[c].queue != [] && w.calls[c].pc.Admitted?
    ensures Exec(w, MailEvents(c, f)) == Posted(w, c, f)
  {
    var es, k := MailEvents(c, f), w.calls[c];
    Two(w, es[0], es[1]);
    Extend(w, [es[0], es[1]], es[2]);
    assert [es[0], es[1]] + [es[2]] == es;
    ComposeTurn(w, c, f);
    var v := Step(w, es[0]);
    if !f.signed || !f.composed {
      MailIdle(v, c, f);
    } else {
      HandTurn(v, c, f);
      var u := Step(v, es[1]);
      var signedOnly := Handed(w, c).(mail := w.mail);
      if f.dropped.BeforeRelay? {
        MoveMove(signedOnly, c, v.calls[c], k.(pc := Cut(false)));
        MailIdle(u, c, f);
      } else {
        MoveMove(Handed(w, c), c, v.calls[c], k.(pc := Awaiting));
        VerdictTurn(u, c, f);
        MoveMove(Handed(w, c), c, u.calls[c], k.(pc := Cut(true)));
        MoveMove(Handed(w, c), c, u.calls[c], k.(pc := Settled(if f.accepted then Sent else Failed, true)));
      }
    }
  }

  // ----- the ledger row

  function InsertPart(io: PutIo): WriteIo { if io.InsertFailed? then Refused(io.landed) else Written }

  function RecordEvents(c: nat, f: Fate): seq<Event> {
    [OfCall(c, InsertRow(InsertPart(f.record), f.at)), OfCall(c, SyncRow(f.record.Synced?))]
  }

  function RecordedWorld(w: Server, c: nat, f: Fate): Server
    requires c in w.calls && w.calls[c].queue != [] && w.calls[c].pc.Settled?
  {
    var w' := w.(journal := w.journal.Put(PutDelivery(LedgerRow(w.calls[c], f.at)), f.record));
    if f.record.Synced? then Popped(w', c) else Lost(w', c, w.calls[c].pc.handed)
  }

  lemma InsertTurn(w: Server, c: nat, f: Fate)
    requires c in w.calls && w.calls[c].queue != [] && w.calls[c].pc.Settled?
    ensures var k, r := w.calls[c], PutDelivery(LedgerRow(w.calls[c], f.at));
            Step(w, RecordEvents(c, f)[0]) ==
              if f.record.InsertFailed? then Lost(w.(journal := w.journal.Put(r, f.record)), c, k.pc.handed)
              else At(w.(journal := w.journal.Append(r)), c, Recorded(k.pc.handed))
  {}

  lemma SyncTurn(v: Server, c: nat, f: Fate)
    requires c in v.calls && v.calls[c].queue != []
    ensures Step(v, RecordEvents(c, f)[1]) ==
              if !v.calls[c].pc.Recorded? then v
              else if f.record.Synced? then Popped(v.(journal := v.journal.Sync()), c)
              else Lost(v, c, v.calls[c].pc.handed)
  {}

  lemma RecordRun(w: Server, c: nat, f: Fate)
    requires c in w.calls && w.calls[c].queue != [] && w.calls[c].pc.Settled?
    ensures Exec(w, RecordEvents(c, f)) == RecordedWorld(w, c, f)
  {
    var es, k := RecordEvents(c, f), w.calls[c];
    Two(w, es[0], es[1]);
    InsertTurn(w, c, f);
    var w' := w.(journal := w.journal.Put(PutDelivery(LedgerRow(k, f.at)), f.record));
    var v := Step(w, es[0]);
    SyncTurn(v, c, f);
    if !f.record.InsertFailed? {
      MoveMove(w', c, v.calls[c], Pop(k));
      MoveMove(w', c, v.calls[c], k.(pc := Cut(k.pc.handed)));
    }
  }

  // ----- the send record

  function ResolveEvents(c: nat, id: SendId, subject: string, bodyHtml: string, now: Moment, ok: bool,
                         io: PutIo): seq<Event>
  {
    [Resolve(c, id, subject, bodyHtml, now, ok), OfCall(c, InsertSend(InsertPart(io))), OfCall(c, SyncSend(io.Synced?))]
  }

  /** What `resolve_send` answers: the record to fan out, new or already there. */
  function ResolveAnswer(t: Tables, made: Send, ok: bool, io: PutIo): Result<Send> {
    if !ok then Err(Error.Store)
    else if made.id in t.sends then
      var existing := t.sends[made.id];
      if existing.subject != made.subject || existing.bodyHtml != made.bodyHtml then Err(BadRequest) else Ok(existing)
    else if io.Synced? then Ok(made) else Err(Error.Store)
  }

  function ResolvedWorld(w: Server, c: nat, made: Send, now: Moment, ok: bool, io: PutIo): Server {
    var t := w.journal.Now();
    var answer := ResolveAnswer(t, made, ok, io);
    var w' := if ok && made.id !in t.sends then w.(journal := w.journal.Put(PutSend(made), io)) else w;
    Move(w', c, if answer.Ok? then Call(answer.value, now, [], Resolved)
                else Call(made, now, [], if answer.error.BadRequest? then Done else Cut(false)))
  }

  lemma ReadTurn(w: Server, c: nat, id: SendId, subject: string, bodyHtml: string, now: Moment, ok: bool, io: PutIo)
    requires c !in w.calls
    ensures var made, t := Send(id, subject, bodyHtml, now.unix), w.journal.Now();
            Step(w, ResolveEvents(c, id, subject, bodyHtml, now, ok, io)[0]) ==
              if ok && id !in t.sends then Move(w, c, Call(made, now, [], Creating))
              else ResolvedWorld(w, c, made, now, ok, io)
  {}

  lemma CreateTurn(v: Server, c: nat, io: PutIo)
    requires c in v.calls
    ensures var k := v.calls[c];
            Step(v, OfCall(c, InsertSend(InsertPart(io)))) ==
              if !k.pc.Creating? then v
              else if io.InsertFailed? then Lost(v.(journal := v.journal.Put(PutSend(k.send), io)), c, false)
              else At(v.(journal := v.journal.Append(PutSend(k.send))), c, Created)
  {}

  lemma CreatedTurn(v: Server, c: nat, io: PutIo)
    requires c in v.calls
    ensures Step(v, OfCall(c, SyncSend(io.Synced?))) ==
              if !v.calls[c].pc.Created? then v
              else if io.Synced? then At(v.(journal := v.journal.Sync()), c, Resolved)
              else Lost(v, c, false)
  {}

  lemma ResolveRun(w: Server, c: nat, id: SendId, subject: string, bodyHtml: string, now: Moment, ok: bool, io: PutIo)
    requires c !in w.calls
    ensures Exec(w, ResolveEvents(c, id, subject, bodyHtml, now, ok, io))
         == ResolvedWorld(w, c, Send(id, subject, bodyHtml, now.unix), now, ok, io)
  {
    var es, s := ResolveEvents(c, id, subject, bodyHtml, now, ok, io), Send(id, subject, bodyHtml, now.unix);
    Two(w, es[0], es[1]);
    Extend(w, [es[0], es[1]], es[2]);
    assert [es[0], es[1]] + [es[2]] == es;
    ReadTurn(w, c, id, subject, bodyHtml, now, ok, io);
    var v := Step(w, es[0]);
    CreateTurn(v, c, io);
    var u := Step(v, es[1]);
    CreatedTurn(u, c, io);
    if ok && id !in w.journal.Now().sends {
      var w' := w.(journal := w.journal.Put(PutSend(s), io));
      MoveMove(w', c, v.calls[c], Call(s, now, [], Cut(false)));
      if !io.InsertFailed? {
        MoveMove(w'.(journal := w.journal.Append(PutSend(s))), c, v.calls[c], Call(s, now, [], Created));
        MoveMove(w', c, Call(s, now, [], Created), Call(s, now, [], Cut(false)));
        MoveMove(w', c, Call(s, now, [], Created), Call(s, now, [], Resolved));
      }
    }
  }
}
