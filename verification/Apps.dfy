/** The handlers, as methods over one store.

`trace` is the sequence of protocol events the handlers have performed and `world` the
server state it leads to. Every handler keeps `world` in step with the store, so every
theorem about runs of the protocol holds of every history of handler calls. */
module Apps {
  import opened Records
  import opened Base64
  import opened Tokens
  import opened Journals
  import opened Protocol
  import opened Runs
  import opened Serials
  import opened Frames
  import opened Budgets
  import opened Orders
  import opened Stores
  import opened Turns
  import opened Plans
  import opened Fanouts
  import opened Pages
  import opened Replies
  import opened Effects
  import opened Unused
  import R = Retries

  const ONE_CLICK_VALUE := "One-Click"

  datatype WebhookIo = WebhookIo(readRow: bool, putRow: PutIo, readSubscriber: bool, putSubscriber: PutIo)

  class App {
    const store: Store
    const caps: Caps
    const mac: Mac
    const secret: Bytes
    ghost const start: Server
    ghost var trace: seq<Event>
    ghost var world: Server

    /** The run so far leads to `world`, and the store holds what `world` says it holds. */
    ghost predicate Valid()
      reads this, store
    {
      && store.Valid() && store.journal == world.journal
      && Init(start) && start.caps == caps && world == Exec(start, trace)
      && world.caps == caps && world.lock.None?
      && Sequential()
    }

    /** So far the calls on any one id came one after the other. */
    ghost predicate Sequential()
      reads this
    {
      forall id: SendId :: Serial(start, trace, id)
    }

    /** No `/send` call is under way. */
    ghost predicate Idle()
      reads this
    {
      forall c | c in world.calls :: Ended(world.calls[c].pc)
    }

    constructor (store: Store, caps: Caps, mac: Mac, secret: Bytes, ghost start: Server)
      requires store.Valid() && Init(start) && start.caps == caps && start.journal == store.journal
      ensures Valid() && this.store == store && this.caps == caps && this.mac == mac && this.secret == secret
      ensures this.start == start && trace == [] && world == start
    {
      this.store, this.caps, this.mac, this.secret, this.start := store, caps, mac, secret, start;
      trace, world := [], start;
    }

    /** Events that begin no call. */
    ghost method Log(events: seq<Event>)
      requires world == Exec(start, trace) && Sequential() && Unresolving(events)
      modifies this`trace, this`world
      ensures world == Exec(start, trace) == Exec(old(world), events) && trace == old(trace) + events && Sequential()
    {
      forall id: SendId
        ensures Serial(start, trace + events, id)
      {
        SerialRest(world, events, id);
        SerialAppend(start, trace, events, id);
      }
      ExecSplit(start, trace, events);
      trace, world := trace + events, Exec(world, events);
    }

    /** Events the first of which begins a call. */
    ghost method LogCall(events: seq<Event>)
      requires world == Exec(start, trace) && Sequential() && Idle()
      requires forall i | 0 < i < |events| :: !events[i].Resolve?
      modifies this`trace, this`world
      ensures world == Exec(start, trace) == Exec(old(world), events) && trace == old(trace) + events && Sequential()
    {
      forall id: SendId
        ensures Serial(start, trace + events, id)
      {
        SerialHead(world, events, id);
        SerialAppend(start, trace, events, id);
      }
      ExecSplit(start, trace, events);
      trace, world := trace + events, Exec(world, events);
    }

    /** The invariants every run keeps, at hand for the state reached. */
    lemma KeyedNow()
      requires Valid()
      ensures BaseInv(world) && Sound(caps, world.journal.Now())
    {
      BaseRun(start, trace);
      BaseNow(world);
    }

    // ----- /send

    ghost method LogDrop(c: nat)
      requires Valid() && c in world.calls && world.calls[c].pc.Waiting?
      modifies this`trace, this`world
      ensures Valid() && world == Lost(old(world), c, false)
    {
      DropTurn(world, c);
      One(world, OfCall(c, Drop));
      Log([OfCall(c, Drop)]);
    }

    ghost method LogSlot(c: nat, io: SlotIo)
      requires world == Exec(start, trace) && Sequential() && world.lock.None?
      requires c in world.calls && world.calls[c].pc.Waiting? && world.calls[c].queue != []
      modifies this`trace, this`world
      ensures world == Exec(start, trace) == Reserved(old(world), c, io) && Sequential()
      ensures world.caps == old(world).caps && world.lock.None?
    {
      SlotRun(world, c, io);
      Log([OfCall(c, Acquire)] + SlotEvents(c, io));
    }

    /** Wait for the lock, then reserve a slot. The timeout may drop the call while it waits. */
    method ReserveSlot(ghost c: nat, now: Moment, fate: Fate) returns (r: Result<bool>)
      requires Valid() && c in world.calls && world.calls[c].pc.Waiting? && world.calls[c].queue != []
      requires world.calls[c].now == now
      modifies this`trace, this`world, store
      ensures Valid()
      ensures fate.dropped.AtLock? ==> r == Err(TimedOut) && world == Lost(old(world), c, false)
      ensures !fate.dropped.AtLock? ==> r == SlotOf(old(world), c, fate) && world == Reserved(old(world), c, fate.slot)
    {
      if fate.dropped.AtLock? {
        LogDrop(c);
        return Err(TimedOut);
      }
      r := store.TryReserveSendSlot(HourBucket(now.hour), DayBucket(now.hour.day), caps.hour, caps.day, fate.slot);
      LogSlot(c, fate.slot);
    }

    /** Sign the unsubscribe token, compose the message, give it to the relay. */
    method Mail(ghost c: nat, fate: Fate) returns (r: Result<DeliveryStatus>)
      requires Valid() && c in world.calls && world.calls[c].pc.Admitted? && world.calls[c].queue != []
      modifies this`trace, this`world
      ensures Valid() && world == Posted(old(world), c, fate)
      ensures r == if !fate.signed then Err(Error.Config)
                   else if !Undisturbed(fate) then Err(TimedOut)
                   else Ok(if fate.composed && fate.accepted then DeliveryStatus.Sent else DeliveryStatus.Failed)
    {
      MailRun(world, c, fate);
      Log(MailEvents(c, fate));
      if !fate.signed { return Err(Error.Config); }
      if !fate.composed { return Ok(DeliveryStatus.Failed); }
      if fate.dropped.BeforeRelay? || fate.dropped.AtRelay? { return Err(TimedOut); }
      return Ok(if fate.accepted then DeliveryStatus.Sent else DeliveryStatus.Failed);
    }

    /** Write the ledger row, durably. */
    method Record(ghost c: nat, row: Delivery, fate: Fate) returns (r: Result<()>)
      requires Valid() && c in world.calls && world.calls[c].pc.Settled? && world.calls[c].queue != []
      requires row == LedgerRow(world.calls[c], fate.at)
      modifies this`trace, this`world, store
      ensures Valid() && world == RecordedWorld(old(world), c, fate)
      ensures r == if fate.record.Synced? then Ok(()) else Err(Error.Store)
    {
      RecordRun(world, c, fate);
      r := store.DeliveryPut(row, fate.record);
      Log(RecordEvents(c, fate));
    }

    /** One recipient: ledger check, reservation, message, ledger row. */
    method DeliverToRecipient(ghost c: nat, send: Send, subscriber: Subscriber, now: Moment, fate: Fate)
      returns (r: Result<Outcome>)
      requires Valid() && AtTop(world, c)
      requires world.calls[c].send == send && world.calls[c].now == now && world.calls[c].queue[0].row == subscriber
      modifies this`trace, this`world, store
      ensures Valid() && world == TurnWorld(old(world), c, fate)
      ensures r == TurnAnswer(old(world), c, fate)
    {
      ghost var w := world;
      var found := store.DeliveryGet(send.id, subscriber.email, fate.ledger);
      CheckTurn(w, c, fate.ledger);
      One(w, OfCall(c, Check(fate.ledger)));
      Log([OfCall(c, Check(fate.ledger))]);
      if found.Err? { return Err(Error.Store); }
      if found.value.Some? { return Ok(AlreadyDelivered); }
      WaitingSame(w, c, fate.slot);
      var admitted := ReserveSlot(c, now, fate);
      if admitted.Err? { return Err(admitted.error); }
      if !admitted.value { return Ok(DeferredByCap); }
      assert world == Reserved(w, c, fate.slot);
      var status := Mail(c, fate);
      if status.Err? { return Err(status.error); }
      var recorded := Record(c, Delivery(send.id, subscriber.email, status.value, fate.at), fate);
      if recorded.Err? { return Err(Error.Store); }
      return Ok(if status.value.Sent? then OutSent else OutFailed);
    }

    ghost method LogResolve(c: nat, id: SendId, subject: string, bodyHtml: string, now: Moment, ok: bool, io: PutIo)
      requires world == Exec(start, trace) && Sequential() && Idle() && c !in world.calls
      requires Keyed(world.journal.Now())
      modifies this`trace, this`world
      ensures world == Exec(start, trace) && Sequential()
      ensures world == ResolvedWorld(old(world), c, Send(id, subject, bodyHtml, now.unix), now, ok, io)
      ensures var made := Send(id, subject, bodyHtml, now.unix);
              SettledIn(old(world), world, c, made, now, ResolveAnswer(old(world).journal.Now(), made, ok, io))
      ensures Alone(world, c)
    {
      ResolveKeeps(world, c, Send(id, subject, bodyHtml, now.unix), now, ok, io);
      ResolveRun(world, c, id, subject, bodyHtml, now, ok, io);
      LogCall(ResolveEvents(c, id, subject, bodyHtml, now, ok, io));
    }

    /** Reuse the record under this id, refuse other content, or create it durably. */
    method ResolveSend(ghost c: nat, id: SendId, subject: string, bodyHtml: string, now: Moment, ok: bool, io: PutIo)
      returns (r: Result<Send>)
      requires Valid() && Idle() && c !in world.calls
      modifies this`trace, this`world, store
      ensures Valid()
      ensures r == ResolveAnswer(old(world).journal.Now(), Send(id, subject, bodyHtml, now.unix), ok, io)
      ensures world == ResolvedWorld(old(world), c, Send(id, subject, bodyHtml, now.unix), now, ok, io)
      ensures SettledIn(old(world), world, c, Send(id, subject, bodyHtml, now.unix), now, r) && Alone(world, c)
      ensures RecordSettled(old(world), world, Send(id, subject, bodyHtml, now.unix), ok, io, r)
    {
      KeyedNow();
      BaseNow(world);
      ResolveOkIff(world, c, Send(id, subject, bodyHtml, now.unix), now, ok, io);
      var existing := store.SendGet(id, ok);
      if existing.Err? || existing.value.Some? {
        LogResolve(c, id, subject, bodyHtml, now, ok, io);
        if existing.Err? { return Err(Error.Store); }
        var send := existing.value.value;
        if send.subject != subject || send.bodyHtml != bodyHtml { return Err(BadRequest); }
        return Ok(send);
      }
      var made := Send(id, subject, bodyHtml, now.unix);
      var put := store.SendPut(made, io);
      LogResolve(c, id, subject, bodyHtml, now, ok, io);
      if put.Err? { return Err(Error.Store); }
      return Ok(made);
    }

    ghost method LogEnd(c: nat)
      requires Valid() && c in world.calls && world.calls[c].pc.Checking? && world.calls[c].queue == []
      modifies this`trace, this`world
      ensures Valid() && world == At(old(world), c, Done)
    {
      CheckTurn(world, c, true);
      One(world, OfCall(c, Check(true)));
      Log([OfCall(c, Check(true))]);
    }

    /** The turn of `all[i]`: the loop stands one recipient further, or the call is over. */
    method TakeTurn(ghost c: nat, send: Send, all: seq<Subscriber>, i: nat, now: Moment, fates: nat -> Fate, n: Counts,
                    ghost t: Tables, ghost before: seq<HandOff>, ghost tokens: set<Token>)
      returns (r: Result<Counts>)
      requires Valid() && Distinct(all) && i < |all|
      requires LoopServed(world, c, send, now, t, before, tokens, all, fates, i, n)
      modifies this`trace, this`world, store
      ensures Valid() && world.journal.Now().sends == t.sends
      ensures r.Ok? <==> Passes(fates(i), Ledgered(t, send.id, all[i]), Attempts(caps, t, send.id, now.hour, all, i))
      ensures r.Ok? ==> LoopServed(world, c, send, now, t, before, tokens, all, fates, i + 1, r.value)
      ensures r.Err? ==> LoopOver(world, c, send, now, t, before, all) && r.error == Fault(fates(i))
    {
      ghost var w := world;
      GoesOnIff(w, c, t, before, send, now, all, fates(i), i, n);
      TurnSends(w, c, fates(i));
      var outcome := DeliverToRecipient(c, send, all[i], now, fates(i));
      if outcome.Err? {
        LoopBreaks(w, c, fates(i), send, now, t, before, all, i, n);
        return Err(outcome.error);
      }
      LoopGoesOn(w, c, fates(i), send, now, t, before, all, i, n);
      ServesOn(w, c, t, before, tokens, send, now, all, fates, i, n);
      return Ok(Tally(n, outcome.value));
    }

    /** Offer each recipient its turn, in key order, and count what became of it. */
    method FanOut(ghost c: nat, send: Send, active: seq<Subscriber>, now: Moment, fates: nat -> Fate)
      returns (r: Result<Counts>)
      requires Valid() && Lined(world, c, send, now, active) && Distinct(active) && Alone(world, c)
      modifies this`trace, this`world, store
      ensures Valid() && Idle() && c in world.calls
      ensures world.journal.Now().sends == old(world).journal.Now().sends
      ensures r.Ok? <==> AllPass(caps, old(world).journal.Now(), send.id, now.hour, active, fates, |active|)
      ensures r.Ok? ==> CallServed(world, send, now, old(world).journal.Now(), old(world).mail,
                                   TokensOf(old(world).minted), active, fates, r.value)
      ensures r.Err? ==> LoopOver(world, c, send, now, old(world).journal.Now(), old(world).mail, active)
      ensures r.Err? ==> Stops(caps, old(world).journal.Now(), send.id, now.hour, active, fates, r.error)
    {
      ghost var t, before, tokens := world.journal.Now(), world.mail, TokensOf(world.minted);
      LoopBegins(world, c, send, now, active);
      ServedNone(world, t, send, now, active, fates);
      var n, i := Counts(0, 0, 0, 0), 0;
      while i < |active|
        invariant Valid() && i <= |active| && LoopServed(world, c, send, now, t, before, tokens, active, fates, i, n)
      {
        var taken := TakeTurn(c, send, active, i, now, fates, n, t, before, tokens);
        if taken.Err? {
          NotAllPass(caps, t, send.id, now.hour, active, fates, i);
          return Err(taken.error);
        }
        n, i := taken.value, i + 1;
      }
      LoopServedEnds(world, c, send, now, t, before, tokens, active, fates, n);
      LogEnd(c);
      return Ok(n);
    }

    /** The Active rows, in key order, as the recipients of call `c`. */
    method Recipients(ghost c: nat, ok: bool) returns (r: Result<seq<Subscriber>>)
      requires Valid() && c in world.calls && world.calls[c].pc.Resolved? && Alone(world, c)
      modifies this`trace, this`world
      ensures Valid() && c in world.calls && world.journal == old(world).journal && world.mail == old(world).mail
      ensures world.minted == old(world).minted && Alone(world, c) && (r.Ok? <==> ok)
      ensures r.Err? ==> Ended(world.calls[c].pc)
      ensures r.Ok? ==> IsSnapshot(r.value, world.journal.Now().subscribers) && Distinct(r.value)
      ensures r.Ok? ==> Lined(world, c, old(world).calls[c].send, old(world).calls[c].now, r.value)
    {
      KeyedNow();
      r := store.ActiveSubscribers(ok);
      ghost var rows := if r.Ok? then r.value else [];
      SnapshotTurn(world, c, ok, rows);
      One(world, OfCall(c, Snapshot(ok, rows)));
      Log([OfCall(c, Snapshot(ok, rows))]);
      if r.Ok? { SnapshotIsDistinct(r.value, world.journal.Now().subscribers); }
    }

    /** The rest of a call whose record is settled: read the recipients, then the loop. */
    method Serve(ghost c: nat, send: Send, now: Moment, io: CallIo, ghost active: seq<Subscriber>)
      returns (r: Result<Counts>)
      requires Valid() && c in world.calls && world.calls[c].pc.Resolved? && Alone(world, c)
      requires world.calls[c].send == send && world.calls[c].now == now
      requires IsSnapshot(active, world.journal.Now().subscribers)
      modifies this`trace, this`world, store
      ensures Valid() && Idle() && c in world.calls
      ensures world.journal.Now().sends == old(world).journal.Now().sends
      ensures CallOver(world, send, now, old(world).journal.Now(), old(world).mail, TokensOf(old(world).minted), active,
                       io, r)
    {
      KeyedNow();
      ghost var t := world.journal.Now();
      NothingPartial(t, t, send.id, now.hour, active);
      var rows := Recipients(c, io.scan);
      if rows.Err? { return Err(Error.Store); }
      SnapshotUnique(rows.value, active, t.subscribers);
      r := FanOut(c, send, rows.value, now, io.fates);
    }

    /** `POST /send`, past authentication and rendering. `active` are its recipients, `send` the record it
    mailed. It refuses an id whose record has another subject or body, before anything else is done, and
    otherwise answers `Ok` exactly if nothing goes wrong that ends it. */
    method PostSend(ghost c: nat, id: SendId, subject: string, bodyHtml: string, now: Moment, io: CallIo)
      returns (r: Result<Counts>, ghost active: seq<Subscriber>, ghost send: Send)
      requires Valid() && Idle() && c !in world.calls
      modifies this`trace, this`world, store
      ensures Valid() && Idle() && c in world.calls
      ensures IsSnapshot(active, old(world).journal.Now().subscribers) && Distinct(active)
      ensures send.id == id && send.subject == subject && send.bodyHtml == bodyHtml
      ensures r == Err(BadRequest) <==> io.lookup && !Agrees(old(world).journal.Now(), id, subject, bodyHtml)
      ensures r == Err(BadRequest) ==> world.journal == old(world).journal && world.mail == old(world).mail
      ensures r.Ok? <==>
                && Agrees(old(world).journal.Now(), id, subject, bodyHtml)
                && Succeeds(caps, old(world).journal.Now(), id, now.hour, active, io)
      ensures r.Err? ==> PartialCall(old(world).journal.Now(), world.journal.Now(), id, now.hour, active)
      ensures r.Err? && r.error != BadRequest ==>
                if RecordIo(io, old(world).journal.Now(), id) && io.scan
                then Stops(caps, old(world).journal.Now(), id, now.hour, active, io.fates, r.error)
                else r.error == Error.Store
      ensures r.Err? ==> MailWithin(old(world).mail, world.mail, send, now, active)
      ensures r.Ok? ==> OneRecord(old(world).journal.Now(), world.journal.Now(), Send(id, subject, bodyHtml, now.unix))
      ensures r.Ok? ==> world.journal.Now().sends[id] == send
      ensures r.Ok? ==> CallServed(world, send, now, old(world).journal.Now(), old(world).mail,
                                   TokensOf(old(world).minted), active, io.fates, r.value)
    {
      KeyedNow();
      ghost var t, before, tokens := world.journal.Now(), world.mail, TokensOf(world.minted);
      active := SnapshotExists(t.subscribers);
      send := Send(id, subject, bodyHtml, now.unix);
      SnapshotIsDistinct(active, t.subscribers);
      var resolved := ResolveSend(c, id, subject, bodyHtml, now, io.lookup, io.create);
      ghost var t1 := world.journal.Now();
      NothingPartial(t, t1, id, now.hour, active);
      if resolved.Err? { return Err(resolved.error), active, send; }
      send := resolved.value;
      r := Serve(c, resolved.value, now, io, active);
      OverAside(world, send, now, t, t1, before, tokens, active, io, r);
    }

    // ----- one `/send` after another

    /** One more call on `id`, whose recipients are `active`. */
    method SendAgain(id: SendId, subject: string, bodyHtml: string, now: Moment, io: CallIo,
                     ghost active: seq<Subscriber>)
      returns (r: Result<Counts>)
      requires Valid() && Idle() && IsSnapshot(active, world.journal.Now().subscribers)
      modifies this`trace, this`world, store
      ensures Valid() && Idle()
      ensures r.Ok? <==>
                && Agrees(old(world).journal.Now(), id, subject, bodyHtml)
                && Succeeds(caps, old(world).journal.Now(), id, now.hour, active, io)
      ensures r.Ok? ==> Agrees(world.journal.Now(), id, subject, bodyHtml)
      ensures r.Ok? ==> FullCall(caps, old(world).journal.Now(), world.journal.Now(), id, now.hour, active)
      ensures r.Err? ==> PartialCall(old(world).journal.Now(), world.journal.Now(), id, now.hour, active)
    {
      KeyedNow();
      ghost var t := world.journal.Now();
      ghost var c := NewCall(world.calls);
      ghost var rows, send;
      r, rows, send := PostSend(c, id, subject, bodyHtml, now, io);
      SnapshotUnique(rows, active, t.subscribers);
    }

    /** The `i`th of a run of daily calls: one more is done, or the run ends with what was recorded. */
    method RetryOnce(id: SendId, subject: string, bodyHtml: string, moments: seq<Moment>, i: nat, io: CallIo,
                     ghost ts: seq<Tables>, ghost active: seq<Subscriber>) returns (r: Result<Counts>)
      requires Valid() && Idle() && i < |moments| && DaysDone(caps, ts, HoursOf(moments), i, id, active)
      requires ts[i] == world.journal.Now() && IsSnapshot(active, ts[0].subscribers)
      modifies this`trace, this`world, store
      ensures Valid() && Idle() && LedgerGained(ts[0], world.journal.Now(), id, active)
      ensures CleanCall(io) && Agrees(ts[i], id, subject, bodyHtml) ==> r.Ok?
      ensures r.Ok? ==> Agrees(world.journal.Now(), id, subject, bodyHtml)
      ensures r.Ok? ==> DaysDone(caps, ts + [world.journal.Now()], HoursOf(moments), i + 1, id, active)
    {
      if CleanCall(io) { CleanSucceeds(caps, ts[i], id, moments[i].hour, active, io); }
      r := SendAgain(id, subject, bodyHtml, moments[i], io, active);
      if r.Ok? { DaysGoOn(caps, ts, HoursOf(moments), i, id, active, world.journal.Now()); }
    }

    /** The same newsletter posted at each of `moments`, given up at the first error. On different
    days each call reaches the hourly cap's worth of the recipients still to reach, so `n`
    recipients take `n / hour` calls, rounded up. All of them succeed if nothing goes wrong and the id is
    not another newsletter's. An error leaves what was recorded so far. */
    method RetryDaily(id: SendId, subject: string, bodyHtml: string, moments: seq<Moment>, ios: nat -> CallIo)
      returns (r: Result<()>, ghost active: seq<Subscriber>)
      requires Valid() && Idle() && 1 <= caps.hour <= caps.day && NewWindows(world.journal.Now(), HoursOf(moments))
      modifies this`trace, this`world, store
      ensures Valid() && Idle() && IsSnapshot(active, old(world).journal.Now().subscribers)
      ensures LedgerGained(old(world).journal.Now(), world.journal.Now(), id, active)
      ensures (forall i :: CleanCall(ios(i))) && Agrees(old(world).journal.Now(), id, subject, bodyHtml) ==> r.Ok?
      ensures r.Ok? ==>
                var n := |Unledgered(old(world).journal.Now(), id, active)|;
                && |Unledgered(world.journal.Now(), id, active)| == Room(n, |moments| * caps.hour)
                && (Unledgered(world.journal.Now(), id, active) == [] <==> |moments| >= CallsFor(n, caps.hour))
    {
      KeyedNow();
      ghost var t := world.journal.Now();
      active := DaysBegin(caps, t, HoursOf(moments), id);
      ghost var ts := [t];
      var i := 0;
      while i < |moments|
        invariant i <= |moments| && Valid() && Idle()
        invariant DaysDone(caps, ts, HoursOf(moments), i, id, active) && ts[0] == t && ts[i] == world.journal.Now()
        invariant Agrees(t, id, subject, bodyHtml) ==> Agrees(ts[i], id, subject, bodyHtml)
      {
        var sent := RetryOnce(id, subject, bodyHtml, moments, i, ios(i), ts, active);
        if sent.Err? { return Err(sent.error), active; }
        ts, i := ts + [world.journal.Now()], i + 1;
      }
      DaysOver(caps, ts, HoursOf(moments), id, active);
      return Ok(()), active;
    }

    /** One call for which there is headroom, after any history whatever: since the `n`th event,
    when the ledger was `known` and nothing was under way, handlers may have run, failed, been
    cut short or lost their power in any way. An `Ok`, which it answers if nothing goes wrong and the id is
    not another newsletter's, leaves `known` and every Active address in the ledger, and nobody who was not
    Active in the meantime. */
    method CompleteSend(id: SendId, subject: string, bodyHtml: string, now: Moment, io: CallIo, ghost n: nat,
                        ghost active: seq<Subscriber>) returns (r: Result<Counts>)
      requires Valid() && Idle() && n <= |trace| && R.Settled(Exec(start, trace[..n]), id)
      requires IsSnapshot(active, world.journal.Now().subscribers)
      requires Headroom(caps, world.journal.Now(), now.hour) >= |Unledgered(world.journal.Now(), id, active)|
      modifies this`trace, this`world, store
      ensures Valid() && Idle()
      ensures r.Ok? <==>
                && Agrees(old(world).journal.Now(), id, subject, bodyHtml)
                && Succeeds(caps, old(world).journal.Now(), id, now.hour, active, io)
      ensures r.Ok? ==>
                var before, rest := Exec(start, old(trace)[..n]), old(trace)[n..];
                var known := LedgerKeys(before.journal.Now(), id);
                var active := R.ActiveKeys(old(world).journal.Now().subscribers);
                var ever, ledger := R.EverActive(before, rest), LedgerKeys(world.journal.Now(), id);
                known + active <= ledger <= known + ever && (ever <= known + active ==> ledger == known + active)
    {
      ghost var xs, es := trace[..n], trace[n..];
      assert xs + es == trace;
      r := SendAgain(id, subject, bodyHtml, now, io, active);
      if r.Ok? { R.RunsConverge(start, xs, es, id, active, now.hour, world.journal.Now()); }
    }

    // ----- /subscribe

    /** Mint a confirm token for a well-formed address and mail it; no row is written. */
    method Subscribe(email: string, wellFormed: bool, unix: int, read: bool, signed: bool, mailed: bool)
      returns (r: Result<Page>)
      requires Valid()
      modifies this`trace, this`world
      ensures Valid()
      ensures var key, rows := Lower(email), old(world).journal.Now().subscribers;
              var generation := if key in rows then rows[key].generation else 0;
              var link := Minted(Token(TokenKind.Confirm, key, unix + 86400, generation), Epoch(old(world), key));
              world == if !wellFormed || !read || !signed then old(world)
                       else old(world).(minted := old(world).minted + {link})
      ensures if wellFormed && read && signed && mailed then r == Ok(PendingPage(Lower(email))) else r.Err?
    {
      if !wellFormed { return Err(BadRequest); }
      var found := store.SubscriberGet(Lower(email), read);
      if found.Err? { return Err(Error.Store); }
      if !signed { return Err(Error.Config); }
      LowerTwice(email);
      One(world, Event.Subscribe(email, unix));
      Log([Event.Subscribe(email, unix)]);
      if !mailed { return Err(Error.Smtp); }
      return Ok(PendingPage(Lower(email)));
    }

    // ----- /confirm and /unsubscribe

    /** The MAC is not forged: a raw token that verifies is one the server minted. */
    ghost predicate Authentic(raw: string, unix: int)
      reads this
    {
      forall t :: Verify(mac, raw, secret, unix) == Ok(t) ==> exists m :: m in world.minted && m.token == t
    }

    method ConfirmGet(raw: string, unix: int, read: bool) returns (r: Result<Page>)
      requires Valid()
      ensures r == if Presented(mac, secret, raw, unix, TokenKind.Confirm).Some? && !read then Err(Error.Store)
                   else Ok(Preview(mac, secret, raw, unix, world.journal.Now(), ConfirmPages))
    {
      var verified := Verify(mac, raw, secret, unix);
      if verified.Err? || verified.value.kind != TokenKind.Confirm { return Ok(InvalidTokenPage); }
      var token := verified.value;
      var found := store.SubscriberGet(token.email, read);
      if found.Err? { return Err(Error.Store); }
      match found.value {
        case None => return Ok(ConfirmInterstitial(raw));
        case Some(s) =>
          if s.state.Active? { return Ok(ConfirmedPage); }
          if s.generation != token.generation { return Ok(InvalidTokenPage); }
          return Ok(ConfirmInterstitial(raw));
      }
    }

    method UnsubscribeGet(raw: string, unix: int, read: bool) returns (r: Result<Page>)
      requires Valid()
      ensures r == if Presented(mac, secret, raw, unix, TokenKind.Unsubscribe).Some? && !read then Err(Error.Store)
                   else Ok(Preview(mac, secret, raw, unix, world.journal.Now(), UnsubscribePages))
    {
      var verified := Verify(mac, raw, secret, unix);
      if verified.Err? || verified.value.kind != TokenKind.Unsubscribe { return Ok(InvalidTokenPage); }
      var token := verified.value;
      var found := store.SubscriberGet(token.email, read);
      if found.Err? { return Err(Error.Store); }
      match found.value {
        case None => return Ok(InvalidTokenPage);
        case Some(s) =>
          if s.state.Unsubscribed? { return Ok(UnsubscribedPage); }
          if s.generation == token.generation { return Ok(UnsubscribeInterstitial(raw)); }
          return Ok(InvalidTokenPage);
      }
    }

    /** Put the row a consent event decided on. */
    method StoreDecision(ghost e: Event, row: Subscriber, put: PutIo) returns (r: Result<()>)
      requires Valid() && IsConsent(e) && e.put == put && Decided(world, e) == Some(row)
      modifies this`trace, this`world, store
      ensures Valid() && world.calls == old(world).calls
      ensures world.journal == old(world).journal.Put(PutSubscriber(row), put)
      ensures r == if put.Synced? then Ok(()) else Err(Error.Store)
    {
      One(world, e);
      Log([e]);
      r := store.SubscriberPut(row, put);
    }

    /** The four-way transition of a verified confirm token. */
    method Confirm(token: Token, ghost minted: Minted, unix: int, read: bool, put: PutIo) returns (r: Result<Page>)
      requires Valid() && minted.token == token && Presentable(world, minted, TokenKind.Confirm, unix)
      modifies this`trace, this`world, store
      ensures Valid() && world.calls == old(world).calls
      ensures if read then ConfirmsAs(old(world).journal, world.journal, token, unix, put, r)
              else r == Err(Error.Store) && world.journal == old(world).journal
    {
      var found := store.SubscriberGet(token.email, read);
      if found.Err? { return Err(Error.Store); }
      var row;
      match found.value {
        case None =>
          row := Subscriber(token.email, Active, unix, Some(unix), None, token.generation);
        case Some(s) =>
          if s.state.Active? { return Ok(ConfirmedPage); }
          if s.generation != token.generation { return Ok(InvalidTokenPage); }
          row := s.(state := Active, confirmedAt := Some(unix));
      }
      var done := StoreDecision(Event.ConfirmPost(minted, unix, put), row, put);
      return if done.Ok? then Ok(ConfirmedPage) else Err(Error.Store);
    }

    /** The generation-checked transition of a verified unsubscribe token. */
    method Unsubscribe(token: Token, ghost minted: Minted, unix: int, read: bool, put: PutIo) returns (r: Result<Page>)
      requires Valid() && minted.token == token && Presentable(world, minted, TokenKind.Unsubscribe, unix)
      modifies this`trace, this`world, store
      ensures Valid() && world.calls == old(world).calls
      ensures if read then UnsubscribesAs(old(world).journal, world.journal, token, unix, put, r)
              else r == Err(Error.Store) && world.journal == old(world).journal
    {
      var found := store.SubscriberGet(token.email, read);
      if found.Err? { return Err(Error.Store); }
      if found.value.None? { return Ok(InvalidTokenPage); }
      var s := found.value.value;
      if s.state.Unsubscribed? { return Ok(UnsubscribedPage); }
      if s.generation != token.generation { return Ok(InvalidTokenPage); }
      var row := Suppressed(s, unix);
      var done := StoreDecision(Event.UnsubscribePost(minted, unix, put), row, put);
      return if done.Ok? then Ok(UnsubscribedPage) else Err(Error.Store);
    }

    method ConfirmPost(raw: string, unix: int, read: bool, put: PutIo) returns (r: Result<Page>)
      requires Valid() && Authentic(raw, unix)
      modifies this`trace, this`world, store
      ensures Valid() && world.calls == old(world).calls
      ensures r == Answer(old(world).journal.Now(), raw, unix, ConfirmPages, read, put)
      ensures world.journal == Left(old(world).journal, raw, unix, ConfirmPages, read, put)
      ensures var token := Presented(mac, secret, raw, unix, TokenKind.Confirm);
              if token.None? then r == Ok(InvalidTokenPage) && world == old(world)
              else if !read then r == Err(Error.Store) && world.journal == old(world).journal
              else ConfirmsAs(old(world).journal, world.journal, token.value, unix, put, r)
    {
      var verified := Verify(mac, raw, secret, unix);
      if verified.Err? || verified.value.kind != TokenKind.Confirm { return Ok(InvalidTokenPage); }
      ghost var m :| m in world.minted && m.token == verified.value;
      VerifiedLives(mac, raw, secret, unix);
      ghost var j := world.journal;
      r := Confirm(verified.value, m, unix, read, put);
      if read { ConfirmAnswers(j, world.journal, raw, verified.value, unix, put, r); }
    }

    /** The transition both unsubscribe commits share. */
    method ApplyUnsubscribe(raw: string, unix: int, read: bool, put: PutIo) returns (r: Result<Page>)
      requires Valid() && Authentic(raw, unix)
      modifies this`trace, this`world, store
      ensures Valid() && world.calls == old(world).calls
      ensures r == Answer(old(world).journal.Now(), raw, unix, UnsubscribePages, read, put)
      ensures world.journal == Left(old(world).journal, raw, unix, UnsubscribePages, read, put)
      ensures var token := Presented(mac, secret, raw, unix, TokenKind.Unsubscribe);
              if token.None? then r == Ok(InvalidTokenPage) && world == old(world)
              else if !read then r == Err(Error.Store) && world.journal == old(world).journal
              else UnsubscribesAs(old(world).journal, world.journal, token.value, unix, put, r)
    {
      var verified := Verify(mac, raw, secret, unix);
      if verified.Err? || verified.value.kind != TokenKind.Unsubscribe { return Ok(InvalidTokenPage); }
      ghost var m :| m in world.minted && m.token == verified.value;
      VerifiedLives(mac, raw, secret, unix);
      ghost var j := world.journal;
      r := Unsubscribe(verified.value, m, unix, read, put);
      if read { UnsubscribeAnswers(j, world.journal, raw, verified.value, unix, put, r); }
    }

    /** What a commit answers to a raw token. */
    ghost function Answer(t: Tables, raw: string, unix: int, e: Endpoint, read: bool, put: PutIo): Result<Page> {
      if Presented(mac, secret, raw, unix, KindOf(e)).None? then Ok(InvalidTokenPage)
      else PageOutcome(read, Writes(mac, secret, raw, unix, t, e), put, Commit(mac, secret, raw, unix, t, e))
    }

    /** What it leaves in the journal. */
    ghost function Left(j: Journal, raw: string, unix: int, e: Endpoint, read: bool, put: PutIo): Journal {
      StoredIf(j, read, Writes(mac, secret, raw, unix, j.Now(), e), put)
    }

    lemma ConfirmAnswers(j: Journal, j': Journal, raw: string, t: Token, unix: int, put: PutIo, r: Result<Page>)
      requires Presented(mac, secret, raw, unix, TokenKind.Confirm) == Some(t) && ConfirmsAs(j, j', t, unix, put, r)
      ensures r == Answer(j.Now(), raw, unix, ConfirmPages, true, put)
      ensures j' == Left(j, raw, unix, ConfirmPages, true, put)
    {
      ConfirmOutcome(j, j', t, unix, put, r);
    }

    lemma UnsubscribeAnswers(j: Journal, j': Journal, raw: string, t: Token, unix: int, put: PutIo, r: Result<Page>)
      requires Presented(mac, secret, raw, unix, TokenKind.Unsubscribe) == Some(t)
      requires UnsubscribesAs(j, j', t, unix, put, r)
      ensures r == Answer(j.Now(), raw, unix, UnsubscribePages, true, put)
      ensures j' == Left(j, raw, unix, UnsubscribePages, true, put)
    {
      UnsubscribeOutcome(j, j', t, unix, put, r);
    }

    /** The mail client's one-request unsubscription: a wrong body is refused before the token is looked at. */
    method OneClick(raw: string, body: string, unix: int, read: bool, put: PutIo) returns (r: Result<Page>)
      requires Valid() && Authentic(raw, unix)
      modifies this`trace, this`world, store
      ensures Valid() && world.calls == old(world).calls
      ensures body != "One-Click" ==> r == Err(BadRequest) && world == old(world)
      ensures body == "One-Click" ==>
                var token := Presented(mac, secret, raw, unix, TokenKind.Unsubscribe);
                if token.None? then r == Ok(InvalidTokenPage) && world == old(world)
                else if !read then r == Err(Error.Store) && world.journal == old(world).journal
                else UnsubscribesAs(old(world).journal, world.journal, token.value, unix, put, r)
    {
      if body != ONE_CLICK_VALUE { return Err(BadRequest); }
      r := ApplyUnsubscribe(raw, unix, read, put);
    }

    // ----- the delivery-events webhook

    ghost method LogWebhook(id: SendId, email: string, kind: EventKind, unix: int, put: PutIo)
      requires world == Exec(start, trace) && Sequential() && BaseInv(world) && Keyed(world.journal.Now())
      requires DeliveryKey(id, email) in world.journal.Now().deliveries
      modifies this`trace, this`world
      ensures world == Exec(start, trace) && Sequential()
      ensures world.caps == old(world).caps && world.lock == old(world).lock && world.calls == old(world).calls
      ensures world.journal.Now().deliveries.Keys == old(world).journal.Now().deliveries.Keys
      ensures world.journal.Now().subscribers == old(world).journal.Now().subscribers
      ensures var was, key := old(world).journal.Now().deliveries, DeliveryKey(id, email);
              && world.journal == old(world).journal.Put(PutDelivery(Marked(was[key], kind, unix)), put)
              && (put.Synced? ==> world.journal.Now().deliveries == was[key := Marked(was[key], kind, unix)])
    {
      WebhookRowFrame(world, id, email, kind, unix, put);
      Overwrite(world.journal.Now(), DeliveryKey(id, email), kind, unix);
      ghost var row := Marked(world.journal.Now().deliveries[DeliveryKey(id, email)], kind, unix);
      PutGrows(world.journal, PutDelivery(row), put);
      One(world, Webhook(id, email, kind, unix, put));
      Log([Webhook(id, email, kind, unix, put)]);
    }

    /** Overwrite the ledger row's status, then suppress the address on a complaint or a hard bounce. */
    method PostEvent(id: SendId, email: string, kind: EventKind, hard: bool, unix: int, io: WebhookIo)
      returns (r: Result<()>)
      requires Valid()
      modifies this`trace, this`world, store
      ensures Valid() && world.calls == old(world).calls
      ensures world.journal.Now().deliveries.Keys == old(world).journal.Now().deliveries.Keys
      ensures r == Err(NotFound) ==> world == old(world)
      ensures world.journal == Reported(old(world).journal, (id, Lower(email)), kind, hard, unix, io)
      ensures r == Err(NotFound) <==> io.readRow && (id, Lower(email)) !in old(world).journal.Now().deliveries
      ensures r.Ok? <==>
                && io.readRow && (id, Lower(email)) in old(world).journal.Now().deliveries && io.putRow.Synced?
                && (kind == Complaint || hard ==>
                      && io.readSubscriber
                      && (IsUp(old(world).journal.Now().subscribers, Lower(email)) ==> io.putSubscriber.Synced?))
      ensures r.Ok? ==>
                var was, key := old(world).journal.Now().deliveries, (id, Lower(email));
                var status := if kind == Bounce then DeliveryStatus.Bounced else DeliveryStatus.Complained;
                world.journal.Now().deliveries == was[key := was[key].(status := status, at := unix)]
      ensures r.Ok? ==>
                var rows := old(world).journal.Now().subscribers;
                world.journal.Now().subscribers ==
                  if kind == Complaint || hard then TakenDown(rows, Lower(email), unix) else rows
    {
      KeyedNow();
      LowerTwice(email);
      var found := store.DeliveryGet(id, Lower(email), io.readRow);
      if found.Err? { return Err(Error.Store); }
      if found.value.None? { return Err(NotFound); }
      LogWebhook(id, email, kind, unix, io.putRow);
      var row := Marked(found.value.value, kind, unix);
      var put := store.DeliveryPut(row, io.putRow);
      if put.Err? { return Err(Error.Store); }
      if kind.Complaint? || hard {
        assert DeliveryKey(id, email) in world.journal.Now().deliveries;
        r := SuppressSubscriber(Lower(email), unix, io.readSubscriber, io.putSubscriber);
      } else {
        return Ok(());
      }
    }

    /** Take an Active row down, one generation further; leave any other alone. Its one caller has
    just updated a delivery of the address. */
    method SuppressSubscriber(email: string, unix: int, read: bool, put: PutIo) returns (r: Result<()>)
      requires Valid() && HasDelivery(world.journal.Now(), email)
      modifies this`trace, this`world, store
      ensures Valid() && world.calls == old(world).calls
      ensures world.journal.Now() == old(world).journal.Now().(subscribers := world.journal.Now().subscribers)
      ensures var rows, key := old(world).journal.Now().subscribers, Lower(email);
              && r == (if read && (IsUp(rows, key) ==> put.Synced?) then Ok(()) else Err(Error.Store))
              && world.journal == (if read && IsUp(rows, key)
                                   then old(world).journal.Put(PutSubscriber(Down(rows[key], unix)), put)
                                   else old(world).journal)
              && (r.Ok? ==> world.journal.Now().subscribers == TakenDown(rows, key, unix))
    {
      KeyedNow();
      var found := store.SubscriberGet(email, read);
      if found.Err? { return Err(Error.Store); }
      if found.value.None? { return Ok(()); }
      var s := found.value.value;
      if !s.state.Active? { return Ok(()); }
      var row := Suppressed(s, unix);
      AppendViews(world.journal, PutSubscriber(row));
      r := StoreDecision(Suppress(email, unix, put), row, put);
    }

    // ----- startup, shutdown

    ghost method LogPurge(removed: seq<string>, unix: int, synced: bool)
      requires world == Exec(start, trace) && Sequential()
      requires Ascending(removed) && forall k | k in removed :: Overdue(world.journal.Now().subscribers, k, unix)
      modifies this`trace, this`world
      ensures world == Exec(start, trace) && Sequential()
      ensures var log := old(world).journal.log + Removals(removed);
              world == old(world).(journal := Journal(old(world).journal.base, log,
                                                      if synced then |log| else old(world).journal.synced))
    {
      var w, events := world, PurgeEvents(removed, unix);
      PurgeRun(w, removed, unix);
      Extend(w, events, Flush);
      Log(if synced then events + [Flush] else events);
    }

    /** The startup purge of expired Pending rows. */
    method Purge(unix: int, io: PurgeIo) returns (r: Result<nat>)
      requires Valid()
      modifies this`trace, this`world, store
      ensures Valid() && world.calls == old(world).calls
      ensures world.journal.Now() == old(world).journal.Now().(subscribers := world.journal.Now().subscribers)
      ensures OnlyOverdueGone(old(world).journal.Now().subscribers, world.journal.Now().subscribers, unix)
      ensures r.Ok? ==> world.journal.Now() == Purged(old(world).journal.Now(), unix)
      ensures r.Ok? ==>
                var was, rows := old(world).journal.Now().subscribers, world.journal.Now().subscribers;
                r.value == |was.Keys - rows.Keys| && forall k :: !Overdue(rows, k, unix)
      ensures r.Ok? <==>
                PurgeSucceeds(old(world).journal.Now().subscribers, |Expiry(old(world).journal.Now(), unix)|, io)
      ensures forall later | unix <= later :: Purged(world.journal.Now(), later) ==
                Purged(old(world).journal.Now(), later)
    {
      ghost var j := world.journal;
      ghost var removed;
      r, removed := store.PurgeExpiredPending(unix, io);
      PurgedRows(j, removed, unix);
      PurgeRemains(j, removed, unix);
      if r.Ok? { PurgeCompletes(j, removed, unix); }
      LogPurge(removed, unix, r.Ok? && removed != []);
    }

    /** The process dies with the power; what the journal kept comes back. */
    method PowerLossAndRestart(keep: nat)
      requires Valid() && store.journal.synced <= keep <= |store.journal.log|
      modifies this`trace, this`world, store
      ensures Valid() && Idle() && world.journal == old(world).journal.Recover(keep) && world.mail == old(world).mail
    {
      One(world, PowerLoss(keep));
      Log([PowerLoss(keep)]);
      store.Reopen(keep);
    }

    // ----- every history of handler calls

    /** Whatever handlers ran, in whatever order, and however their I/O ended: no counter is above
    its cap, and no window's hand-offs exceed its cap by more than its interrupted calls. */
    lemma HistoryWithinCaps(x: Class, b: Bucket)
      requires Valid() && x.IsCap()
      ensures Rate(store.Contents(), b) <= Cap(caps, b)
      ensures HandOffs(world.mail, x) <= WindowCap(caps, x) + |Interrupted(world, x)|
    {
      CountersWithinCaps(start, trace, b);
      HandOffsWithinCap(start, trace, x);
    }

    /** As handlers run one at a time here, nobody gets a second message of one send but through
    a call that ended between its hand-off and its ledger sync. */
    lemma HistoryAtMostOnce(id: SendId, key: string)
      requires Valid()
      ensures HandOffs(world.mail, RecipientOf(id, key)) <= 1 + |Interrupted(world, RecipientOf(id, key))|
    {
      AtMostOnce(start, trace, id, key);
    }
  }

  function HoursOf(moments: seq<Moment>): seq<Hour> { seq(|moments|, i requires 0 <= i < |moments| => moments[i].hour) }

  lemma DaysBegin(caps: Caps, t: Tables, hours: seq<Hour>, id: SendId) returns (active: seq<Subscriber>)
    requires UnderOwnKeys(t.subscribers)
    ensures IsSnapshot(active, t.subscribers) && Distinct(active) && DaysDone(caps, [t], hours, 0, id, active)
  {
    active := SnapshotExists(t.subscribers);
    SnapshotIsDistinct(active, t.subscribers);
  }

  function PurgeEvents(removed: seq<string>, unix: int): seq<Event> {
    seq(|removed|, i requires 0 <= i < |removed| => PurgeRow(removed[i], unix, Written))
  }

  lemma PurgedNone(w: Server, unix: int)
    ensures Exec(w, PurgeEvents([], unix)) == PurgedOf(w, [])
  {
    assert w.journal.log + Removals([]) == w.journal.log;
  }

  /** Row by row, the protocol's purge appends the same removals. */
  lemma {:induction false} PurgeRun(w: Server, removed: seq<string>, unix: int)
    requires Ascending(removed) && forall k | k in removed :: k in Expiry(w.journal.Now(), unix)
    ensures Exec(w, PurgeEvents(removed, unix)) == PurgedOf(w, removed)
    decreases |removed|
  {
    if removed == [] {
      PurgedNone(w, unix);
    } else {
      var front, last := removed[..|removed| - 1], removed[|removed| - 1];
      assert front + [last] == removed;
      StillExpired(w.journal, removed, unix);
      PurgeRun(w, front, unix);
      PurgeNext(w, front, last, unix);
    }
  }

  lemma StillExpired(j: Journal, removed: seq<string>, unix: int)
    requires Ascending(removed) && removed != [] && forall k | k in removed :: k in Expiry(j.Now(), unix)
    ensures var n := |removed| - 1;
            removed[n] in Expiry(Replay(j.base, j.log + Removals(removed[..n])), unix)
  {
    LastNotBefore(removed);
    assert removed[|removed| - 1] in removed;
    RemovalsReplay(j.base, j.log, removed[..|removed| - 1]);
  }

  lemma OneMore(log: seq<Record>, front: seq<string>, key: string, unix: int)
    ensures PurgeEvents(front + [key], unix) == PurgeEvents(front, unix) + [PurgeRow(key, unix, Written)]
    ensures log + Removals(front + [key]) == log + Removals(front) + [RemoveSubscriber(key)]
  {
    assert Removals(front + [key]) == Removals(front) + [RemoveSubscriber(key)];
  }

  function PurgedOf(w: Server, removed: seq<string>): Server {
    w.(journal := Journal(w.journal.base, w.journal.log + Removals(removed), w.journal.synced))
  }

  lemma PurgedOneMore(w: Server, front: seq<string>, key: string, unix: int)
    requires key in Expiry(PurgedOf(w, front).journal.Now(), unix)
    ensures Step(PurgedOf(w, front), PurgeRow(key, unix, Written)) == PurgedOf(w, front + [key])
  {
    OneMore(w.journal.log, front, key, unix);
    PurgeOne(PurgedOf(w, front), key, unix);
  }

  lemma PurgeNext(w: Server, front: seq<string>, key: string, unix: int)
    requires Exec(w, PurgeEvents(front, unix)) == PurgedOf(w, front)
    requires key in Expiry(PurgedOf(w, front).journal.Now(), unix)
    ensures Exec(w, PurgeEvents(front + [key], unix)) == PurgedOf(w, front + [key])
  {
    OneMore(w.journal.log, front, key, unix);
    Extend(w, PurgeEvents(front, unix), PurgeRow(key, unix, Written));
    PurgedOneMore(w, front, key, unix);
  }

  lemma LastNotBefore(keys: seq<string>)
    requires Ascending(keys) && keys != []
    ensures keys[|keys| - 1] !in keys[..|keys| - 1]
  {
    LessIrreflexive(keys[|keys| - 1]);
  }

  lemma PurgeOne(v: Server, key: string, unix: int)
    requires key in v.journal.Now().subscribers && Expired(v.journal.Now().subscribers[key], unix)
    ensures Step(v, PurgeRow(key, unix, Written)) == v.(journal := v.journal.Append(RemoveSubscriber(key)))
  {}

  /** From `was` to `rows`: nothing new, nothing rewritten, and what is gone had been Pending for a day,
  86400 seconds, or longer. */
  ghost predicate OnlyOverdueGone(was: map<string, Subscriber>, rows: map<string, Subscriber>, unix: int) {
    && rows.Keys <= was.Keys && (forall k | k in rows :: rows[k] == was[k])
    && (forall k | k in was && k !in rows :: was[k].state.Pending? && was[k].createdAt + 86400 <= unix)
  }

  lemma GoneRows(was: map<string, Subscriber>, gone: set<string>, unix: int)
    requires forall k | k in gone :: Overdue(was, k, unix)
    ensures OnlyOverdueGone(was, was - gone, unix) && was.Keys - (was - gone).Keys == gone
    ensures (forall k | Overdue(was, k, unix) :: k in gone) ==> forall k :: !Overdue(was - gone, k, unix)
  {}

  lemma PurgedRows(j: Journal, removed: seq<string>, unix: int)
    requires Ascending(removed) && forall k | k in removed :: Overdue(j.Now().subscribers, k, unix)
    ensures var was, t := j.Now().subscribers, Replay(j.base, j.log + Removals(removed));
            && t == j.Now().(subscribers := t.subscribers) && OnlyOverdueGone(was, t.subscribers, unix)
            && |removed| == |was.Keys - t.subscribers.Keys|
            && ((forall k | Overdue(was, k, unix) :: k in removed) ==> forall k :: !Overdue(t.subscribers, k, unix))
  {
    var gone := set k | k in removed;
    RemovalsReplay(j.base, j.log, removed);
    AscendingSize(removed, gone);
    GoneRows(j.Now().subscribers, gone, unix);
  }

  lemma PurgeRemains(j: Journal, removed: seq<string>, unix: int)
    requires forall k | k in removed :: k in Expiry(j.Now(), unix)
    ensures forall later | unix <= later :: Purged(Replay(j.base, j.log + Removals(removed)), later) ==
              Purged(j.Now(), later)
  {
    var cut := Journal(j.base, j.log + Removals(removed), j.synced);
    forall later | unix <= later
      ensures Purged(Replay(j.base, j.log + Removals(removed)), later) == Purged(j.Now(), later)
    {
      PurgeResumes(j, removed, unix, |cut.log|, later);
      assert cut.log[..|cut.log|] == cut.log;
    }
  }

  /** What a report leaves in the journal: the row's new status and time, and then, if that is durable and the
  report calls for it, the Active subscriber's row taken down. */
  ghost function Reported(j: Journal, key: (SendId, string), kind: EventKind, hard: bool, unix: int,
                          io: WebhookIo): Journal
  {
    var rows, was := j.Now().subscribers, j.Now().deliveries;
    if !io.readRow || key !in was then j
    else
      var status := if kind == Bounce then DeliveryStatus.Bounced else DeliveryStatus.Complained;
      var j' := j.Put(PutDelivery(was[key].(status := status, at := unix)), io.putRow);
      if !io.putRow.Synced? || (kind == Bounce && !hard) || !io.readSubscriber || !IsUp(rows, key.1) then j'
      else j'.Put(PutSubscriber(Down(rows[key.1], unix)), io.putSubscriber)
  }

  /** What `/confirm` makes of a confirm token: an Active row stays as it is, a row at another generation
  refuses the token, and any other address gets an Active row at the token's generation. */
  ghost predicate ConfirmsAs(j: Journal, j': Journal, t: Token, unix: int, put: PutIo, r: Result<Page>) {
    var rows, key := j.Now().subscribers, Lower(t.email);
    if IsUp(rows, key) then r == Ok(ConfirmedPage) && j' == j
    else if key in rows && rows[key].generation != t.generation then r == Ok(InvalidTokenPage) && j' == j
    else
      var row := if key in rows then Up(rows[key], unix) else New(t.email, t.generation, unix);
      j' == j.Put(PutSubscriber(row), put) && r == if put.Synced? then Ok(ConfirmedPage) else Err(Error.Store)
  }

  /** What the unsubscribe commits make of an unsubscribe token: a row that is Unsubscribed stays as it is, one
  that is not and has the token's generation goes Unsubscribed, and anything else refuses the token. */
  ghost predicate UnsubscribesAs(j: Journal, j': Journal, t: Token, unix: int, put: PutIo, r: Result<Page>) {
    var rows, key := j.Now().subscribers, Lower(t.email);
    if key in rows && rows[key].state.Unsubscribed? then r == Ok(UnsubscribedPage) && j' == j
    else if key in rows && rows[key].generation == t.generation then
      && j' == j.Put(PutSubscriber(Down(rows[key], unix)), put)
      && r == if put.Synced? then Ok(UnsubscribedPage) else Err(Error.Store)
    else r == Ok(InvalidTokenPage) && j' == j
  }

  /** The answer to a commit, given how its read and its put end. */
  function PageOutcome(read: bool, row: Option<Subscriber>, put: PutIo, page: Page): Result<Page> {
    if !read || (row.Some? && !put.Synced?) then Err(Error.Store) else Ok(page)
  }

  function StoredIf(j: Journal, read: bool, row: Option<Subscriber>, put: PutIo): Journal {
    if read && row.Some? then j.Put(PutSubscriber(row.value), put) else j
  }

  lemma ConfirmOutcome(j: Journal, j': Journal, t: Token, unix: int, put: PutIo, r: Result<Page>)
    requires ConfirmsAs(j, j', t, unix, put, r)
    ensures var row := Lookup(j.Now(), t.email);
            && r == PageOutcome(true, ConfirmWrite(row, t, unix), put, ConfirmCommit(row, t))
            && j' == StoredIf(j, true, ConfirmWrite(row, t, unix), put)
  {}

  lemma UnsubscribeOutcome(j: Journal, j': Journal, t: Token, unix: int, put: PutIo, r: Result<Page>)
    requires UnsubscribesAs(j, j', t, unix, put, r)
    ensures var row := Lookup(j.Now(), t.email);
            && r == PageOutcome(true, UnsubscribeWrite(row, t, unix), put, UnsubscribeCommit(row, t))
            && j' == StoredIf(j, true, UnsubscribeWrite(row, t, unix), put)
  {}

  lemma VerifiedLives(mac: Mac, raw: string, secret: Bytes, unix: int)
    ensures var r := Verify(mac, raw, secret, unix); r.Ok? ==> unix <= r.value.expUnix
  {}
}
