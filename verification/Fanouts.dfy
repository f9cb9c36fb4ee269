/** The fan-out loop of one call that nothing rivals: each recipient's turn, and what a
run of turns has come to so far. */
module Fanouts {
  import opened Records
  import opened Journals
  import opened Protocol
  import opened Orders
  import opened Stores
  import opened Turns
  import opened Plans

  datatype Outcome = OutSent | OutFailed | AlreadyDelivered | DeferredByCap

  // ----- one turn

  /** Call `c` is at the top of the loop, with a recipient to take, and the lock is free. */
  predicate AtTop(w: Server, c: nat) {
    c in w.calls && w.calls[c].pc.Checking? && w.calls[c].queue != [] && w.lock.None?
  }

  /** Whether this turn's message gets as far as a ledger row. */
  predicate Undisturbed(f: Fate) { f.signed && (f.composed ==> !f.dropped.BeforeRelay? && !f.dropped.AtRelay?) }

  function SlotOf(w: Server, c: nat, f: Fate): Result<bool>
    requires c in w.calls
  {
    SlotAnswer(w.journal.Now(), HourOf(w, c), DayOf(w, c), w.caps.hour, w.caps.day, f.slot)
  }

  function TurnAnswer(w: Server, c: nat, f: Fate): Result<Outcome>
    requires AtTop(w, c)
  {
    if !f.ledger then Err(Error.Store)
    else if Ledgered(w.journal.Now(), w.calls[c].send.id, w.calls[c].queue[0].row) then Ok(AlreadyDelivered)
    else if f.dropped.AtLock? then Err(TimedOut)
    else
      match SlotOf(w, c, f)
      case Err(e) => Err(e)
      case Ok(false) => Ok(DeferredByCap)
      case Ok(true) =>
        if !f.signed then Err(Error.Config)
        else if !Undisturbed(f) then Err(TimedOut)
        else if !f.record.Synced? then Err(Error.Store)
        else Ok(if f.composed && f.accepted then OutSent else OutFailed)
  }

  function TurnWorld(w: Server, c: nat, f: Fate): Server
    requires AtTop(w, c)
  {
    if !f.ledger then Lost(w, c, false)
    else if Ledgered(w.journal.Now(), w.calls[c].send.id, w.calls[c].queue[0].row) then Popped(w, c)
    else if f.dropped.AtLock? then Lost(w, c, false)
    else
      var v := Reserved(w, c, f.slot);
      if SlotOf(w, c, f) != Ok(true) then v
      else if !Undisturbed(f) then Posted(v, c, f)
      else RecordedWorld(Posted(v, c, f), c, f)
  }

  lemma CheckTurn(w: Server, c: nat, ok: bool)
    requires c in w.calls && w.calls[c].pc.Checking?
    ensures Step(w, OfCall(c, Check(ok))) ==
              if w.calls[c].queue == [] then At(w, c, Done)
              else if !ok then Lost(w, c, false)
              else if Ledgered(w.journal.Now(), w.calls[c].send.id, w.calls[c].queue[0].row) then Popped(w, c)
              else At(w, c, Waiting)
  {}

  lemma DropTurn(w: Server, c: nat)
    requires c in w.calls && w.calls[c].pc.Waiting?
    ensures Step(w, OfCall(c, Drop)) == Lost(w, c, false)
  {}

  lemma WaitingSame(w: Server, c: nat, io: SlotIo)
    requires AtTop(w, c)
    ensures Reserved(At(w, c, Waiting), c, io) == Reserved(w, c, io)
    ensures Lost(At(w, c, Waiting), c, false) == Lost(w, c, false)
  {
    var v, k := At(w, c, Waiting), w.calls[c];
    var w' := w.(journal := SlotJournal(w.journal, HourOf(w, c), DayOf(w, c), w.caps.hour, w.caps.day, io));
    MoveMove(w', c, v.calls[c], k.(pc := Admitted));
    MoveMove(w', c, v.calls[c], k.(pc := Cut(false)));
    MoveMove(w, c, v.calls[c], k.(pc := Cut(false)));
    MoveMove(w, c, v.calls[c], Pop(k));
  }

  // ----- what a turn changes

  function Spend(t: Tables, hour: Hour, d: Delivery): Tables {
    Apply(Counted(Counted(t, HourBucket(hour)), DayBucket(hour.day)), PutDelivery(d))
  }

  /** The ledger row a finished turn writes. */
  function TurnRow(w: Server, c: nat, f: Fate): Delivery
    requires AtTop(w, c)
  {
    Delivery(w.calls[c].send.id, w.calls[c].queue[0].row.email,
             if f.composed && f.accepted then DeliveryStatus.Sent else DeliveryStatus.Failed, f.at)
  }

  function TurnMail(w: Server, c: nat, f: Fate): seq<HandOff>
    requires AtTop(w, c)
  {
    if f.composed && !f.dropped.BeforeRelay? then [HandOff(w.calls[c].send, Target(w.calls[c]), w.calls[c].now)] else []
  }

  /** The three ways one turn can leave the queue. */
  lemma TurnGoesOn(w: Server, c: nat, f: Fate)
    requires AtTop(w, c) && TurnAnswer(w, c, f).Ok?
    ensures var v, k, t := TurnWorld(w, c, f), w.calls[c], w.journal.Now();
            && v == Popped(w, c).(journal := v.journal, mail := v.mail, minted := v.minted)
            && match TurnAnswer(w, c, f).value {
              case AlreadyDelivered => Ledgered(t, k.send.id, k.queue[0].row) && v == Popped(w, c)
              case DeferredByCap =>
                !Ledgered(t, k.send.id, k.queue[0].row) && Headroom(w.caps, t, k.now.hour) == 0 && v == Popped(w, c)
              case OutSent => SpentTurn(w, c, f) && f.composed && f.accepted
              case OutFailed => SpentTurn(w, c, f) && !(f.composed && f.accepted)
            }
  {
    if TurnAnswer(w, c, f).value.OutSent? || TurnAnswer(w, c, f).value.OutFailed? { TurnSpends(w, c, f); }
  }

  /** A turn that attempted its recipient: one slot in each window, one ledger row, everything durable. */
  ghost predicate SpentTurn(w: Server, c: nat, f: Fate)
    requires AtTop(w, c)
  {
    var v, k, t := TurnWorld(w, c, f), w.calls[c], w.journal.Now();
    && !Ledgered(t, k.send.id, k.queue[0].row) && Headroom(w.caps, t, k.now.hour) > 0
    && v.journal.Now() == Spend(t, k.now.hour, TurnRow(w, c, f))
    && v.journal.synced == |v.journal.log|
    && v.mail == w.mail + TurnMail(w, c, f) && v.minted == w.minted + {UnsubscribeToken(k)}
    && v == Popped(w, c).(journal := v.journal, mail := v.mail, minted := v.minted)
  }

  lemma TurnSpends(w: Server, c: nat, f: Fate)
    requires AtTop(w, c) && TurnAnswer(w, c, f).Ok?
    requires TurnAnswer(w, c, f).value.OutSent? || TurnAnswer(w, c, f).value.OutFailed?
    ensures SpentTurn(w, c, f)
  {
    var k := w.calls[c];
    var u := Reserved(w, c, f.slot);
    SlotGranted(w.journal, HourOf(w, c), DayOf(w, c), w.caps.hour, w.caps.day, f.slot);
    AppendViews(u.journal, PutDelivery(TurnRow(w, c, f)));
    var v := TurnWorld(w, c, f);
    var bare := w.(journal := v.journal, mail := v.mail, minted := v.minted);
    MoveMove(bare, c, u.calls[c], k.(pc := Posted(u, c, f).calls[c].pc));
    MoveMove(bare, c, Posted(u, c, f).calls[c], Pop(k));
  }

  /** What a turn that ends the call may have done to the tables: nothing, part of its slot,
  its slot, or its slot and its row. */
  ghost predicate Remains(w: Server, c: nat, f: Fate, t': Tables)
    requires AtTop(w, c)
  {
    var t, hour := w.journal.Now(), w.calls[c].now.hour;
    || t' == t
    || t' == Counted(t, HourBucket(hour))
    || t' == Counted(Counted(t, HourBucket(hour)), DayBucket(hour.day))
    || (t' == Spend(t, hour, TurnRow(w, c, f)) && !Ledgered(t, w.calls[c].send.id, w.calls[c].queue[0].row))
  }

  lemma TurnBreaksLate(w: Server, c: nat, f: Fate)
    requires AtTop(w, c) && TurnAnswer(w, c, f).Err? && SlotOf(w, c, f) == Ok(true)
    requires f.ledger && !Ledgered(w.journal.Now(), w.calls[c].send.id, w.calls[c].queue[0].row) && !f.dropped.AtLock?
    ensures var v := TurnWorld(w, c, f);
            && c in v.calls && v.calls[c].pc.Cut? && v.lock.None? && v.caps == w.caps
            && Remains(w, c, f, v.journal.Now()) && (v.mail == w.mail || v.mail == w.mail + TurnMail(w, c, f))
  {
    SlotGranted(w.journal, HourOf(w, c), DayOf(w, c), w.caps.hour, w.caps.day, f.slot);
    var u := Reserved(w, c, f.slot);
    if Undisturbed(f) { AppendViews(u.journal, PutDelivery(TurnRow(w, c, f))); }
  }

  lemma TurnBreaks(w: Server, c: nat, f: Fate)
    requires AtTop(w, c) && TurnAnswer(w, c, f).Err?
    ensures var v := TurnWorld(w, c, f);
            && c in v.calls && v.calls[c].pc.Cut? && v.lock.None? && v.caps == w.caps
            && Remains(w, c, f, v.journal.Now()) && (v.mail == w.mail || v.mail == w.mail + TurnMail(w, c, f))
  {
    if f.ledger && !Ledgered(w.journal.Now(), w.calls[c].send.id, w.calls[c].queue[0].row) && !f.dropped.AtLock? {
      if SlotOf(w, c, f) == Ok(true) {
        TurnBreaksLate(w, c, f);
      } else {
        SlotWithheld(w.journal, HourOf(w, c), DayOf(w, c), w.caps.hour, w.caps.day, f.slot);
      }
    }
  }

  // ----- the loop so far, against the plan for the recipients taken so far

  datatype Counts = Counts(sent: nat, failed: nat, alreadyDelivered: nat, deferredByCap: nat)

  function Tally(n: Counts, o: Outcome): Counts {
    match o
    case OutSent => n.(sent := n.sent + 1)
    case OutFailed => n.(failed := n.failed + 1)
    case AlreadyDelivered => n.(alreadyDelivered := n.alreadyDelivered + 1)
    case DeferredByCap => n.(deferredByCap := n.deferredByCap + 1)
  }

  /** The recipients of `rows` whose ledger row says the relay accepted. */
  function Accepted(t: Tables, id: SendId, rows: seq<Subscriber>): nat {
    if rows == [] then 0
    else
      var d := (id, Key(rows[|rows| - 1]));
      var last := if d in t.deliveries && t.deliveries[d].status.Sent? then 1 else 0;
      Accepted(t, id, rows[..|rows| - 1]) + last
  }

  /** The counters say what the plan says, and `sent` what the ledger says. */
  ghost predicate CountsFit(caps: Caps, t: Tables, t': Tables, id: SendId, hour: Hour, rows: seq<Subscriber>,
                            n: Counts)
  {
    var u, a := Unledgered(t, id, rows), Attempted(caps, t, id, hour, rows);
    && n.sent + n.failed == |a| && n.sent == Accepted(t', id, a)
    && n.alreadyDelivered == |rows| - |u|
    && n.deferredByCap == |u| - |a|
  }

  ghost predicate SoFar(caps: Caps, t: Tables, t': Tables, id: SendId, hour: Hour, rows: seq<Subscriber>, n: Counts) {
    FullCall(caps, t, t', id, hour, rows) && CountsFit(caps, t, t', id, hour, rows, n)
  }

  lemma RoomLeft(cap: nat, count: nat, n: nat)
    requires n <= Room(cap, count)
    ensures Room(cap, count + n) == Room(cap, count) - n
  {}

  lemma HeadroomLeft(caps: Caps, t: Tables, t': Tables, id: SendId, hour: Hour, rows: seq<Subscriber>)
    requires FullCall(caps, t, t', id, hour, rows)
    ensures Headroom(caps, t', hour) == Headroom(caps, t, hour) - |Attempted(caps, t, id, hour, rows)|
  {
    var n := |Attempted(caps, t, id, hour, rows)|;
    RoomLeft(caps.hour, Rate(t, HourBucket(hour)), n);
    RoomLeft(caps.day, Rate(t, DayBucket(hour.day)), n);
  }

  /** No recipient of `rows` shares the key of `row`. */
  ghost predicate Unlisted(rows: seq<Subscriber>, row: Subscriber) {
    forall x | x in rows :: Key(x) != Key(row)
  }

  /** The next recipient's ledger row is there exactly if it was there before the call. */
  lemma NextLedgered(caps: Caps, t: Tables, t': Tables, id: SendId, hour: Hour, rows: seq<Subscriber>, row: Subscriber)
    requires Unlisted(rows, row) && FullCall(caps, t, t', id, hour, rows)
    ensures Ledgered(t', id, row) <==> Ledgered(t, id, row)
  {
    var a := Attempted(caps, t, id, hour, rows);
    InLedger(t, id, row);
    InLedger(t', id, row);
    assert forall x | x in a :: x in Unledgered(t, id, rows);
  }

  lemma StepAlready(caps: Caps, t: Tables, t': Tables, id: SendId, hour: Hour, rows: seq<Subscriber>, row: Subscriber,
                    n: Counts)
    requires Unlisted(rows, row) && SoFar(caps, t, t', id, hour, rows, n) && Ledgered(t', id, row)
    ensures SoFar(caps, t, t', id, hour, rows + [row], Tally(n, AlreadyDelivered))
  {
    NextLedgered(caps, t, t', id, hour, rows, row);
    UnledgeredLast(t, id, rows, row);
    assert Unledgered(t, id, rows) + [] == Unledgered(t, id, rows);
  }

  lemma AttemptedStays(caps: Caps, t: Tables, t': Tables, id: SendId, hour: Hour, rows: seq<Subscriber>,
                       row: Subscriber)
    requires FullCall(caps, t, t', id, hour, rows) && !Ledgered(t, id, row) && Headroom(caps, t', hour) == 0
    ensures Attempted(caps, t, id, hour, rows + [row]) == Attempted(caps, t, id, hour, rows)
    ensures Unledgered(t, id, rows + [row]) == Unledgered(t, id, rows) + [row]
  {
    UnledgeredLast(t, id, rows, row);
    HeadroomLeft(caps, t, t', id, hour, rows);
    var u, m := Unledgered(t, id, rows), |Attempted(caps, t, id, hour, rows)|;
    assert (u + [row])[..m] == u[..m];
  }

  lemma SameAttempts(caps: Caps, t: Tables, t': Tables, id: SendId, hour: Hour, rows: seq<Subscriber>,
                     more: seq<Subscriber>)
    requires FullCall(caps, t, t', id, hour, rows)
    requires Attempted(caps, t, id, hour, more) == Attempted(caps, t, id, hour, rows)
    ensures FullCall(caps, t, t', id, hour, more)
  {}

  lemma StepDeferred(caps: Caps, t: Tables, t': Tables, id: SendId, hour: Hour, rows: seq<Subscriber>,
                     row: Subscriber, n: Counts)
    requires Unlisted(rows, row) && SoFar(caps, t, t', id, hour, rows, n)
    requires !Ledgered(t', id, row) && Headroom(caps, t', hour) == 0
    ensures SoFar(caps, t, t', id, hour, rows + [row], Tally(n, DeferredByCap))
  {
    assert !Ledgered(t, id, row) by { NextLedgered(caps, t, t', id, hour, rows, row); }
    AttemptedStays(caps, t, t', id, hour, rows, row);
    assert FullCall(caps, t, t', id, hour, rows + [row]) by { SameAttempts(caps, t, t', id, hour, rows, rows + [row]); }
  }

  lemma AttemptedGrows(caps: Caps, t: Tables, t': Tables, id: SendId, hour: Hour, rows: seq<Subscriber>,
                       row: Subscriber)
    requires Unlisted(rows, row) && FullCall(caps, t, t', id, hour, rows)
    requires !Ledgered(t', id, row) && Headroom(caps, t', hour) > 0
    ensures Attempted(caps, t, id, hour, rows + [row]) == Attempted(caps, t, id, hour, rows) + [row]
    ensures Unledgered(t, id, rows + [row]) == Unledgered(t, id, rows) + [row]
    ensures Attempted(caps, t, id, hour, rows) == Unledgered(t, id, rows)
  {
    NextLedgered(caps, t, t', id, hour, rows, row);
    UnledgeredLast(t, id, rows, row);
    HeadroomLeft(caps, t, t', id, hour, rows);
  }

  /** `row` took a slot in each window and got the ledger row `d`; nothing else moved. */
  ghost predicate Spent(t: Tables, t': Tables, id: SendId, hour: Hour, row: Subscriber, d: Delivery) {
    && t'.subscribers == t.subscribers
    && t'.deliveries == t.deliveries[(id, Key(row)) := d]
    && Rate(t', HourBucket(hour)) == Rate(t, HourBucket(hour)) + 1
    && Rate(t', DayBucket(hour.day)) == Rate(t, DayBucket(hour.day)) + 1
    && forall b | b != HourBucket(hour) && b != DayBucket(hour.day) :: Rate(t', b) == Rate(t, b)
  }

  lemma SpendEffect(t: Tables, id: SendId, hour: Hour, row: Subscriber, d: Delivery)
    requires d.sendId == id && d.email == row.email
    ensures Spent(t, Spend(t, hour, d), id, hour, row, d)
  {
    CountedEffect(t, HourBucket(hour));
    CountedEffect(Counted(t, HourBucket(hour)), DayBucket(hour.day));
  }

  lemma LedgerKeysAdd(t: Tables, t': Tables, id: SendId, key: string, d: Delivery)
    requires t'.deliveries == t.deliveries[(id, key) := d]
    ensures LedgerKeys(t', id) == LedgerKeys(t, id) + {key}
  {
    forall k | k in LedgerKeys(t, id) + {key}
      ensures k in LedgerKeys(t', id)
    {
      assert (id, k) in t'.deliveries && (id, k).1 == k;
    }
    forall k | k in LedgerKeys(t', id)
      ensures k in LedgerKeys(t, id) + {key}
    {
      if k != key { assert (id, k) in t.deliveries && (id, k).1 == k; }
    }
  }

  lemma SpentOnly(t: Tables, t': Tables, t'': Tables, id: SendId, hour: Hour, row: Subscriber, d: Delivery)
    requires OnlyThisSend(t, t', id, hour) && Spent(t', t'', id, hour, row, d) && !Ledgered(t', id, row)
    ensures OnlyThisSend(t, t'', id, hour)
  {}

  lemma SpentKeepsFull(caps: Caps, t: Tables, t': Tables, t'': Tables, id: SendId, hour: Hour, rows: seq<Subscriber>,
                       row: Subscriber, d: Delivery)
    requires Unlisted(rows, row) && FullCall(caps, t, t', id, hour, rows) && Spent(t', t'', id, hour, row, d)
    requires !Ledgered(t', id, row) && Headroom(caps, t', hour) > 0
    ensures FullCall(caps, t, t'', id, hour, rows + [row])
  {
    var a := Attempted(caps, t, id, hour, rows);
    AttemptedGrows(caps, t, t', id, hour, rows, row);
    SpentOnly(t, t', t'', id, hour, row, d);
    LedgerKeysAdd(t', t'', id, Key(row), d);
    KeysAdd(a, row);
    assert LedgerKeys(t'', id) == LedgerKeys(t, id) + Keys(a + [row]);
  }

  lemma KeysAdd(rows: seq<Subscriber>, row: Subscriber)
    ensures Keys(rows + [row]) == Keys(rows) + {Key(row)}
  {}

  lemma {:induction false} AcceptedSame(t: Tables, t': Tables, id: SendId, rows: seq<Subscriber>, key: string,
                                        d: Delivery)
    requires t'.deliveries == t.deliveries[(id, key) := d] && forall r | r in rows :: Key(r) != key
    ensures Accepted(t', id, rows) == Accepted(t, id, rows)
    decreases |rows|
  {
    if rows != [] { AcceptedSame(t, t', id, rows[..|rows| - 1], key, d); }
  }

  lemma AcceptedMore(t: Tables, t': Tables, id: SendId, a: seq<Subscriber>, row: Subscriber, d: Delivery)
    requires t'.deliveries == t.deliveries[(id, Key(row)) := d] && Unlisted(a, row)
    ensures Accepted(t', id, a + [row]) == Accepted(t, id, a) + if d.status.Sent? then 1 else 0
  {
    AcceptedSame(t, t', id, a, Key(row), d);
    assert (a + [row])[..|a|] == a;
  }

  lemma AttemptedUnlisted(caps: Caps, t: Tables, id: SendId, hour: Hour, rows: seq<Subscriber>, row: Subscriber)
    requires Unlisted(rows, row)
    ensures Unlisted(Attempted(caps, t, id, hour, rows), row)
  {
    assert forall x | x in Attempted(caps, t, id, hour, rows) :: x in Unledgered(t, id, rows);
  }

  lemma CountsMore(caps: Caps, t: Tables, t': Tables, t'': Tables, id: SendId, hour: Hour, rows: seq<Subscriber>,
                   row: Subscriber, n: Counts, o: Outcome)
    requires CountsFit(caps, t, t', id, hour, rows, n) && (o.OutSent? || o.OutFailed?)
    requires Attempted(caps, t, id, hour, rows + [row]) == Attempted(caps, t, id, hour, rows) + [row]
    requires Unledgered(t, id, rows + [row]) == Unledgered(t, id, rows) + [row]
    requires var a := Attempted(caps, t, id, hour, rows);
             Accepted(t'', id, a + [row]) == Accepted(t', id, a) + if o.OutSent? then 1 else 0
    ensures CountsFit(caps, t, t'', id, hour, rows + [row], Tally(n, o))
  {}

  lemma StepSpent(caps: Caps, t: Tables, t': Tables, t'': Tables, id: SendId, hour: Hour, rows: seq<Subscriber>,
                  row: Subscriber, n: Counts, d: Delivery)
    requires Unlisted(rows, row) && SoFar(caps, t, t', id, hour, rows, n) && Spent(t', t'', id, hour, row, d)
    requires !Ledgered(t', id, row) && Headroom(caps, t', hour) > 0
    ensures SoFar(caps, t, t'', id, hour, rows + [row], Tally(n, if d.status.Sent? then OutSent else OutFailed))
  {
    SpentKeepsFull(caps, t, t', t'', id, hour, rows, row, d);
    assert CountsFit(caps, t, t'', id, hour, rows + [row], Tally(n, if d.status.Sent? then OutSent else OutFailed)) by {
      AttemptedGrows(caps, t, t', id, hour, rows, row);
      AttemptedUnlisted(caps, t, id, hour, rows, row);
      AcceptedMore(t', t'', id, Attempted(caps, t, id, hour, rows), row, d);
      CountsMore(caps, t, t', t'', id, hour, rows, row, n, if d.status.Sent? then OutSent else OutFailed);
    }
  }

  // ----- turns carry the plan along

  /** A finished turn extends what the calls has come to by one recipient. */
  lemma TurnCarries(w: Server, c: nat, f: Fate, t: Tables, rows: seq<Subscriber>, n: Counts)
    requires AtTop(w, c) && TurnAnswer(w, c, f).Ok? && Unlisted(rows, w.calls[c].queue[0].row)
    requires SoFar(w.caps, t, w.journal.Now(), w.calls[c].send.id, w.calls[c].now.hour, rows, n)
    ensures SoFar(w.caps, t, TurnWorld(w, c, f).journal.Now(), w.calls[c].send.id, w.calls[c].now.hour,
                  rows + [w.calls[c].queue[0].row], Tally(n, TurnAnswer(w, c, f).value))
  {
    var k := w.calls[c];
    var id, hour, row, now := k.send.id, k.now.hour, k.queue[0].row, w.journal.Now();
    TurnGoesOn(w, c, f);
    match TurnAnswer(w, c, f).value {
      case AlreadyDelivered => StepAlready(w.caps, t, now, id, hour, rows, row, n);
      case DeferredByCap => StepDeferred(w.caps, t, now, id, hour, rows, row, n);
      case OutSent =>
        SpendEffect(now, id, hour, row, TurnRow(w, c, f));
        StepSpent(w.caps, t, now, TurnWorld(w, c, f).journal.Now(), id, hour, rows, row, n, TurnRow(w, c, f));
      case OutFailed =>
        SpendEffect(now, id, hour, row, TurnRow(w, c, f));
        StepSpent(w.caps, t, now, TurnWorld(w, c, f).journal.Now(), id, hour, rows, row, n, TurnRow(w, c, f));
    }
  }

  lemma SoFarPartial(caps: Caps, t: Tables, t': Tables, id: SendId, hour: Hour, rows: seq<Subscriber>,
                     all: seq<Subscriber>)
    requires FullCall(caps, t, t', id, hour, rows) && rows <= all
    ensures PartialCall(t, t', id, hour, all)
  {
    forall x | x in Attempted(caps, t, id, hour, rows)
      ensures x in all
    {
      assert x in Unledgered(t, id, rows);
      var i :| 0 <= i < |rows| && rows[i] == x;
      assert all[i] == x;
    }
  }

  lemma CountedPartial(t: Tables, t': Tables, id: SendId, hour: Hour, rows: seq<Subscriber>, b: Bucket)
    requires PartialCall(t, t', id, hour, rows) && (b == HourBucket(hour) || b == DayBucket(hour.day))
    ensures PartialCall(t, Counted(t', b), id, hour, rows)
  {
    CountedEffect(t', b);
    assert LedgerKeys(Counted(t', b), id) == LedgerKeys(t', id);
  }

  lemma SpentPartial(t: Tables, t': Tables, t'': Tables, id: SendId, hour: Hour, rows: seq<Subscriber>,
                     row: Subscriber, d: Delivery)
    requires PartialCall(t, t', id, hour, rows) && Spent(t', t'', id, hour, row, d) && !Ledgered(t', id, row)
    requires row in rows
    ensures PartialCall(t, t'', id, hour, rows)
  {
    SpentOnly(t, t', t'', id, hour, row, d);
    LedgerKeysAdd(t', t'', id, Key(row), d);
  }

  /** A turn that ends the call leaves a partial call behind. */
  lemma BreakLeavesPartial(w: Server, c: nat, f: Fate, t: Tables, rows: seq<Subscriber>)
    requires AtTop(w, c) && TurnAnswer(w, c, f).Err? && w.calls[c].queue[0].row in rows
    requires PartialCall(t, w.journal.Now(), w.calls[c].send.id, w.calls[c].now.hour, rows)
    ensures PartialCall(t, TurnWorld(w, c, f).journal.Now(), w.calls[c].send.id, w.calls[c].now.hour, rows)
  {
    var k := w.calls[c];
    var id, hour, row, now := k.send.id, k.now.hour, k.queue[0].row, w.journal.Now();
    var t' := TurnWorld(w, c, f).journal.Now();
    TurnBreaks(w, c, f);
    CountedPartial(t, now, id, hour, rows, HourBucket(hour));
    CountedPartial(t, Counted(now, HourBucket(hour)), id, hour, rows, DayBucket(hour.day));
    if t' == Spend(now, hour, TurnRow(w, c, f)) && !Ledgered(now, id, row) {
      SpendEffect(now, id, hour, row, TurnRow(w, c, f));
      SpentPartial(t, now, t', id, hour, rows, row, TurnRow(w, c, f));
    }
  }

  // ----- around the loop

  /** Call `c` is about to take `rows`, in this order. */
  ghost predicate Lined(w: Server, c: nat, send: Send, now: Moment, rows: seq<Subscriber>) {
    && c in w.calls && w.lock.None?
    && var k := w.calls[c];
       k.pc.Checking? && k.send == send && k.now == now && |k.queue| == |rows|
       && forall i | 0 <= i < |rows| :: k.queue[i].row == rows[i]
  }

  lemma SnapshotTurn(w: Server, c: nat, ok: bool, rows: seq<Subscriber>)
    requires c in w.calls && w.calls[c].pc.Resolved? && w.lock.None?
    requires ok ==> IsSnapshot(rows, w.journal.Now().subscribers)
    ensures var v := Step(w, OfCall(c, Snapshot(ok, rows)));
            && (!ok ==> v == Lost(w, c, false))
            && (ok ==> v == w.(calls := v.calls) && v.calls.Keys == w.calls.Keys
                       && Lined(v, c, w.calls[c].send, w.calls[c].now, rows))
  {
    if ok { assert w.calls[c := w.calls[c]].Keys == w.calls.Keys; }
  }

  lemma TurnLeavesQueue(w: Server, c: nat, f: Fate, send: Send, now: Moment, rows: seq<Subscriber>)
    requires rows != [] && Lined(w, c, send, now, rows) && AtTop(w, c) && TurnAnswer(w, c, f).Ok?
    ensures Lined(TurnWorld(w, c, f), c, send, now, rows[1..])
  {
    TurnGoesOn(w, c, f);
  }

  // ----- other calls

  /** No call but `c` is under way. */
  ghost predicate Alone(w: Server, c: nat) {
    forall d | d in w.calls && d != c :: Ended(w.calls[d].pc)
  }

  lemma TurnAlone(w: Server, c: nat, f: Fate)
    requires AtTop(w, c) && Alone(w, c)
    ensures Alone(TurnWorld(w, c, f), c)
  {}

  // ----- the loop

  /** What the relay has been given since the loop began: this send, once for every recipient
  counted as sent, and beyond those only for some counted as failed. */
  ghost predicate MailFits(before: seq<HandOff>, after: seq<HandOff>, send: Send, now: Moment, n: Counts) {
    && before <= after && n.sent <= |after| - |before| <= n.sent + n.failed
    && forall i | |before| <= i < |after| :: after[i].send == send && after[i].now == now
  }

  lemma MailGoesOn(w: Server, c: nat, f: Fate, send: Send, now: Moment, rows: seq<Subscriber>, before: seq<HandOff>,
                   n: Counts)
    requires AtTop(w, c) && Lined(w, c, send, now, rows) && MailFits(before, w.mail, send, now, n)
    requires TurnAnswer(w, c, f).Ok?
    ensures MailFits(before, TurnWorld(w, c, f).mail, send, now, Tally(n, TurnAnswer(w, c, f).value))
  {
    TurnGoesOn(w, c, f);
  }

  /** Since the loop began the relay has been given `send` and nothing else, for recipients among
  `rows` and at most once for each. */
  ghost predicate MailWithin(before: seq<HandOff>, after: seq<HandOff>, send: Send, now: Moment,
                             rows: seq<Subscriber>)
  {
    && before <= after
    && (forall i | |before| <= i < |after| ::
          after[i].send == send && after[i].now == now && after[i].key in Keys(rows))
    && (forall i, j | |before| <= i < j < |after| :: after[i].key != after[j].key)
  }

  predicate SentTo(t: Tables, id: SendId, row: Subscriber) {
    Ledgered(t, id, row) && t.deliveries[(id, Key(row))].status.Sent?
  }

  /** Every recipient of `rows` whose ledger row says accepted has been handed over. */
  ghost predicate AcceptedMailed(before: seq<HandOff>, after: seq<HandOff>, send: Send, now: Moment, t: Tables,
                                 rows: seq<Subscriber>)
  {
    before <= after && forall x | x in rows && SentTo(t, send.id, x) :: HandOff(send, Key(x), now) in after[|before|..]
  }

  /** The messages handed over, against the recipients attempted. */
  ghost predicate MailSoFar(w: Server, send: Send, now: Moment, t: Tables, before: seq<HandOff>,
                            rows: seq<Subscriber>)
  {
    var a := Attempted(w.caps, t, send.id, now.hour, rows);
    MailWithin(before, w.mail, send, now, a) && AcceptedMailed(before, w.mail, send, now, w.journal.Now(), a)
  }

  lemma MailOneMore(before: seq<HandOff>, after: seq<HandOff>, send: Send, now: Moment, rows: seq<Subscriber>,
                    row: Subscriber, more: seq<HandOff>)
    requires MailWithin(before, after, send, now, rows) && Unlisted(rows, row)
    requires more == [] || more == [HandOff(send, Key(row), now)]
    ensures MailWithin(before, after + more, send, now, rows + [row])
  {
    KeysAdd(rows, row);
    forall x | x in Keys(rows)
      ensures x != Key(row)
    {
    }
  }

  lemma AcceptedOneMore(before: seq<HandOff>, after: seq<HandOff>, send: Send, now: Moment, t: Tables, t': Tables,
                        hour: Hour, rows: seq<Subscriber>, row: Subscriber, d: Delivery, more: seq<HandOff>)
    requires AcceptedMailed(before, after, send, now, t, rows) && Unlisted(rows, row)
    requires Spent(t, t', send.id, hour, row, d)
    requires d.status.Sent? ==> more == [HandOff(send, Key(row), now)]
    ensures AcceptedMailed(before, after + more, send, now, t', rows + [row])
  {
    assert (after + more)[|before|..] == after[|before|..] + more;
    forall x | x in rows + [row] && SentTo(t', send.id, x)
      ensures HandOff(send, Key(x), now) in (after + more)[|before|..]
    {
      if x in rows { assert SentTo(t, send.id, x); }
    }
  }

  lemma SpentMailsTo(w: Server, c: nat, f: Fate, send: Send, now: Moment, a: seq<Subscriber>, before: seq<HandOff>)
    requires AtTop(w, c) && w.calls[c].send == send && w.calls[c].now == now && SpentTurn(w, c, f) && Undisturbed(f)
    requires Unlisted(a, w.calls[c].queue[0].row)
    requires MailWithin(before, w.mail, send, now, a) && AcceptedMailed(before, w.mail, send, now, w.journal.Now(), a)
    ensures var v, a' := TurnWorld(w, c, f), a + [w.calls[c].queue[0].row];
            MailWithin(before, v.mail, send, now, a') && AcceptedMailed(before, v.mail, send, now, v.journal.Now(), a')
  {
    var row, t, d := w.calls[c].queue[0].row, w.journal.Now(), TurnRow(w, c, f);
    SpendEffect(t, send.id, now.hour, row, d);
    MailOneMore(before, w.mail, send, now, a, row, TurnMail(w, c, f));
    AcceptedOneMore(before, w.mail, send, now, t, Spend(t, now.hour, d), now.hour, a, row, d, TurnMail(w, c, f));
  }

  lemma AttemptMails(w: Server, c: nat, f: Fate, send: Send, now: Moment, t: Tables, rows: seq<Subscriber>,
                     before: seq<HandOff>)
    requires AtTop(w, c) && w.calls[c].send == send && w.calls[c].now == now && SpentTurn(w, c, f) && Undisturbed(f)
    requires Unlisted(rows, w.calls[c].queue[0].row) && FullCall(w.caps, t, w.journal.Now(), send.id, now.hour, rows)
    requires MailSoFar(w, send, now, t, before, rows)
    ensures MailSoFar(TurnWorld(w, c, f), send, now, t, before, rows + [w.calls[c].queue[0].row])
  {
    var row, t' := w.calls[c].queue[0].row, w.journal.Now();
    AttemptedGrows(w.caps, t, t', send.id, now.hour, rows, row);
    AttemptedUnlisted(w.caps, t, send.id, now.hour, rows, row);
    SpentMailsTo(w, c, f, send, now, Attempted(w.caps, t, send.id, now.hour, rows), before);
  }

  /** A turn that went on hands its message to its own recipient, if to anybody. */
  lemma TurnMailsTo(w: Server, c: nat, f: Fate, send: Send, now: Moment, t: Tables, rows: seq<Subscriber>,
                    before: seq<HandOff>)
    requires AtTop(w, c) && TurnAnswer(w, c, f).Ok? && w.calls[c].send == send && w.calls[c].now == now
    requires Unlisted(rows, w.calls[c].queue[0].row) && FullCall(w.caps, t, w.journal.Now(), send.id, now.hour, rows)
    requires MailSoFar(w, send, now, t, before, rows)
    ensures MailSoFar(TurnWorld(w, c, f), send, now, t, before, rows + [w.calls[c].queue[0].row])
  {
    TurnGoesOn(w, c, f);
    if TurnAnswer(w, c, f).value.OutSent? || TurnAnswer(w, c, f).value.OutFailed? {
      AttemptMails(w, c, f, send, now, t, rows, before);
    } else {
      SameTurn(w.caps, t, w.journal.Now(), send.id, now.hour, rows, w.calls[c].queue[0].row);
    }
  }

  /** A turn without an attempt leaves the plan's attempts as they are. */
  lemma SameTurn(caps: Caps, t: Tables, t': Tables, id: SendId, hour: Hour, rows: seq<Subscriber>, row: Subscriber)
    requires Unlisted(rows, row) && FullCall(caps, t, t', id, hour, rows)
    requires Ledgered(t', id, row) || Headroom(caps, t', hour) == 0
    ensures Attempted(caps, t, id, hour, rows + [row]) == Attempted(caps, t, id, hour, rows)
  {
    NextLedgered(caps, t, t', id, hour, rows, row);
    UnledgeredLast(t, id, rows, row);
    if Ledgered(t, id, row) {
      assert Unledgered(t, id, rows) + [] == Unledgered(t, id, rows);
    } else {
      AttemptedStays(caps, t, t', id, hour, rows, row);
    }
  }

  /** The loop stands before `all[i]`, having come to `n` over the recipients before it. */
  ghost predicate LoopAt(w: Server, c: nat, send: Send, now: Moment, t: Tables, before: seq<HandOff>,
                         all: seq<Subscriber>, i: nat, n: Counts)
  {
    && i <= |all| && Lined(w, c, send, now, all[i..]) && Alone(w, c)
    && SoFar(w.caps, t, w.journal.Now(), send.id, now.hour, all[..i], n)
    && MailFits(before, w.mail, send, now, n)
    && MailSoFar(w, send, now, t, before, all[..i])
  }

  lemma NotYetListed(all: seq<Subscriber>, i: nat)
    requires Distinct(all) && i < |all|
    ensures Unlisted(all[..i], all[i])
  {
    forall x | x in all[..i]
      ensures Key(x) != Key(all[i])
    {
      var j :| 0 <= j < i && all[j] == x;
    }
  }

  /** A turn that went on: the loop stands one recipient further. */
  lemma LoopGoesOn(w: Server, c: nat, f: Fate, send: Send, now: Moment, t: Tables, before: seq<HandOff>,
                   all: seq<Subscriber>, i: nat, n: Counts)
    requires Distinct(all) && i < |all| && LoopAt(w, c, send, now, t, before, all, i, n) && TurnAnswer(w, c, f).Ok?
    ensures LoopAt(TurnWorld(w, c, f), c, send, now, t, before, all, i + 1, Tally(n, TurnAnswer(w, c, f).value))
  {
    assert all[i..][1..] == all[i + 1..] && all[..i] + [all[i]] == all[..i + 1];
    NotYetListed(all, i);
    TurnLeavesQueue(w, c, f, send, now, all[i..]);
    TurnCarries(w, c, f, t, all[..i], n);
    MailGoesOn(w, c, f, send, now, all[i..], before, n);
    TurnMailsTo(w, c, f, send, now, t, all[..i], before);
    TurnAlone(w, c, f);
    TurnGoesOn(w, c, f);
  }

  /** The call was cut short somewhere in the loop, and no other is under way. */
  ghost predicate LoopOver(w: Server, c: nat, send: Send, now: Moment, t: Tables, before: seq<HandOff>,
                           all: seq<Subscriber>)
  {
    && c in w.calls && (forall d | d in w.calls :: Ended(w.calls[d].pc))
    && PartialCall(t, w.journal.Now(), send.id, now.hour, all) && MailWithin(before, w.mail, send, now, all)
  }

  /** A turn that ended the call. */
  lemma LoopBreaks(w: Server, c: nat, f: Fate, send: Send, now: Moment, t: Tables, before: seq<HandOff>,
                   all: seq<Subscriber>, i: nat, n: Counts)
    requires Distinct(all) && i < |all| && LoopAt(w, c, send, now, t, before, all, i, n) && TurnAnswer(w, c, f).Err?
    ensures LoopOver(TurnWorld(w, c, f), c, send, now, t, before, all)
  {
    BreakMails(w, c, f, send, now, t, before, all, i);
    assert all[i] in all;
    SoFarPartial(w.caps, t, w.journal.Now(), send.id, now.hour, all[..i], all);
    BreakLeavesPartial(w, c, f, t, all);
    TurnBreaks(w, c, f);
    TurnAlone(w, c, f);
  }

  lemma WithinMore(before: seq<HandOff>, after: seq<HandOff>, send: Send, now: Moment, rows: seq<Subscriber>,
                   all: seq<Subscriber>)
    requires MailWithin(before, after, send, now, rows) && forall x | x in rows :: x in all
    ensures MailWithin(before, after, send, now, all)
  {}

  lemma BreakMails(w: Server, c: nat, f: Fate, send: Send, now: Moment, t: Tables, before: seq<HandOff>,
                   all: seq<Subscriber>, i: nat)
    requires Distinct(all) && i < |all| && Lined(w, c, send, now, all[i..])
    requires MailSoFar(w, send, now, t, before, all[..i])
    requires AtTop(w, c) && TurnAnswer(w, c, f).Err?
    ensures MailWithin(before, TurnWorld(w, c, f).mail, send, now, all)
  {
    var a := Attempted(w.caps, t, send.id, now.hour, all[..i]);
    TurnBreaks(w, c, f);
    NotYetListed(all, i);
    AttemptedUnlisted(w.caps, t, send.id, now.hour, all[..i], all[i]);
    MailOneMore(before, w.mail, send, now, a, all[i], TurnWorld(w, c, f).mail[|w.mail|..]);
    assert w.mail + TurnWorld(w, c, f).mail[|w.mail|..] == TurnWorld(w, c, f).mail;
    forall x | x in a + [all[i]]
      ensures x in all
    {
      if x in a { assert x in Unledgered(t, send.id, all[..i]) && x in all[..i]; }
    }
    WithinMore(before, TurnWorld(w, c, f).mail, send, now, a + [all[i]], all);
  }

  lemma LoopBegins(w: Server, c: nat, send: Send, now: Moment, all: seq<Subscriber>)
    requires Lined(w, c, send, now, all) && Alone(w, c)
    ensures LoopAt(w, c, send, now, w.journal.Now(), w.mail, all, 0, Counts(0, 0, 0, 0))
  {
    assert all[0..] == all;
    assert Keys(Attempted(w.caps, w.journal.Now(), send.id, now.hour, all[..0])) == {};
  }

  lemma LoopEnds(w: Server, c: nat, send: Send, now: Moment, t: Tables, before: seq<HandOff>, all: seq<Subscriber>,
                 n: Counts)
    requires LoopAt(w, c, send, now, t, before, all, |all|, n)
    ensures var v := Step(w, OfCall(c, Check(true)));
            && v == At(w, c, Done) && (forall d | d in v.calls :: Ended(v.calls[d].pc))
            && SoFar(w.caps, t, v.journal.Now(), send.id, now.hour, all, n)
            && MailFits(before, v.mail, send, now, n) && MailSoFar(v, send, now, t, before, all)
  {
    assert all[..|all|] == all && all[|all|..] == [];
    CheckTurn(w, c, true);
  }

  // ----- before the loop

  /** `send` is the record under the id of `made`, with its content. */
  predicate Settles(t: Tables, made: Send, send: Send) {
    && send.id == made.id && send.subject == made.subject && send.bodyHtml == made.bodyHtml
    && made.id in t.sends && t.sends[made.id] == send
  }

  /** From `w` to `v`: only the `sends` keyspace and call `c`, which is on its way with `made`'s record or ended. */
  ghost predicate SettledIn(w: Server, v: Server, c: nat, made: Send, now: Moment, answer: Result<Send>) {
    && v.journal.Now().(sends := w.journal.Now().sends) == w.journal.Now() && v.mail == w.mail
    && c in v.calls
    && match answer {
      case Ok(send) => v.calls[c] == Call(send, now, [], Resolved) && Settles(v.journal.Now(), made, send)
      case Err(_) => Ended(v.calls[c].pc)
    }
  }

  /** Settling the record touches the `sends` keyspace only, and leaves the record asked for under the id. */
  lemma ResolveKeeps(w: Server, c: nat, made: Send, now: Moment, ok: bool, io: PutIo)
    requires forall id | id in w.journal.Now().sends :: w.journal.Now().sends[id].id == id
    ensures SettledIn(w, ResolvedWorld(w, c, made, now, ok, io), c, made, now,
              ResolveAnswer(w.journal.Now(), made, ok, io))
  {
    AppendViews(w.journal, PutSend(made));
  }

  lemma NothingPartial(t: Tables, t': Tables, id: SendId, hour: Hour, rows: seq<Subscriber>)
    requires t'.(sends := t.sends) == t
    ensures PartialCall(t, t', id, hour, rows)
  {
    assert LedgerKeys(t', id) == LedgerKeys(t, id);
  }

  lemma SnapshotIsDistinct(rows: seq<Subscriber>, subscribers: map<string, Subscriber>)
    requires IsSnapshot(rows, subscribers)
    ensures Distinct(rows)
  {
    forall i, j | 0 <= i < |rows| && 0 <= j < |rows| && Key(rows[i]) == Key(rows[j])
      ensures i == j
    {
      SnapshotDistinct(rows, subscribers, i, j);
    }
  }

  /** The plan does not depend on the `sends` keyspace. */
  lemma SendsAside(caps: Caps, t: Tables, t1: Tables, t': Tables, id: SendId, hour: Hour, rows: seq<Subscriber>,
                   n: Counts)
    requires t1.(sends := t.sends) == t && SoFar(caps, t1, t', id, hour, rows, n)
    ensures SoFar(caps, t, t', id, hour, rows, n)
  {
    UnledgeredSame(t, t1, id, rows);
    assert LedgerKeys(t1, id) == LedgerKeys(t, id);
  }

  lemma MailAside(w: Server, send: Send, now: Moment, t: Tables, t1: Tables, before: seq<HandOff>,
                  rows: seq<Subscriber>)
    requires t1.(sends := t.sends) == t && MailSoFar(w, send, now, t1, before, rows)
    ensures MailSoFar(w, send, now, t, before, rows)
  {
    UnledgeredSame(t, t1, send.id, rows);
  }

  lemma PartialAside(t: Tables, t1: Tables, t': Tables, id: SendId, hour: Hour, rows: seq<Subscriber>)
    requires t1.(sends := t.sends) == t && PartialCall(t1, t', id, hour, rows)
    ensures PartialCall(t, t', id, hour, rows)
  {
    assert LedgerKeys(t1, id) == LedgerKeys(t, id);
  }
}
