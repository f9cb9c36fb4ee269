/** Runs of one server with one reader, event by event.

A run is described by the state it passes through: `Stage` is a server with one
more call at a given point and some more records behind. */
module Witnesses {
  import opened Records
  import opened Journals
  import opened Protocol
  import opened Runs

  const ADDRESS := "a@b.co"
  const READER := Subscriber(ADDRESS, Active, 0, Some(0), None, 0)

  /** A moment in hour `h`. */
  function NowAt(h: Hour): Moment { Moment(0, h) }

  function Issue(id: SendId, subject: string): Send { Send(id, subject, "b", 0) }

  /** A new server with one Active reader. */
  function Opened(caps: Caps): Server {
    Server(caps, Journal(Tables(map[ADDRESS := READER], map[], map[], map[]), [], 0), None, map[], [], {}, map[], [])
  }

  lemma ReaderKey()
    ensures Key(READER) == ADDRESS && forall id: SendId :: DeliveryKey(id, READER.email) == (id, ADDRESS)
  {
    assert Lower(ADDRESS) == ADDRESS;
  }

  // ----- stages of one call

  /** `w` with call `c` at `pc`, `extra` more records and the mark at `mark`. */
  function Stage(h: Hour, w: Server, c: nat, s: Send, queue: seq<Seen>, pc: Pc, extra: seq<Record>, mark: nat,
                 lock: Option<nat>): Server
  {
    w.(journal := Journal(w.journal.base, w.journal.log + extra, mark), lock := lock,
       calls := w.calls[c := Call(s, NowAt(h), queue, pc)])
  }

  function Queue(w: Server): seq<Seen> { [Seen(READER, Epoch(w, ADDRESS))] }

  function Link(w: Server): Minted {
    Minted(Token(Unsubscribe, ADDRESS, UNSUBSCRIBE_TTL_SECS, 0), Epoch(w, ADDRESS))
  }

  /** `Stage`, with the unsubscribe link minted and the message handed over. */
  function Mailed(h: Hour, w: Server, c: nat, s: Send, queue: seq<Seen>, pc: Pc, extra: seq<Record>,
                  mark: nat): Server
  {
    Stage(h, w, c, s, queue, pc, extra, mark, None).(
      minted := w.minted + {Link(w)}, mail := w.mail + [HandOff(s, ADDRESS, NowAt(h))])
  }

  /** The tables after `extra` more records. */
  function After(w: Server, extra: seq<Record>): Tables {
    Replay(w.journal.base, w.journal.log + extra)
  }

  lemma AfterNone(w: Server)
    ensures w.journal.log + [] == w.journal.log && After(w, []) == w.journal.Now()
  {
    assert w.journal.log + [] == w.journal.log;
  }

  lemma AfterMore(w: Server, extra: seq<Record>, r: Record)
    ensures After(w, extra + [r]) == Apply(After(w, extra), r)
    ensures w.journal.log + (extra + [r]) == (w.journal.log + extra) + [r]
  {
    var log := w.journal.log + (extra + [r]);
    assert log == (w.journal.log + extra) + [r];
    assert log[..|log| - 1] == w.journal.log + extra;
  }

  lemma StepInsertSend(h: Hour, w: Server, c: nat, s: Send, mark: nat)
    ensures Step(Stage(h, w, c, s, [], Creating, [], mark, None), OfCall(c, InsertSend(Written)))
         == Stage(h, w, c, s, [], Created, [PutSend(s)], mark, None)
  {
    AfterNone(w);
  }

  lemma StepSyncSend(h: Hour, w: Server, c: nat, s: Send, mark: nat, extra: seq<Record>)
    ensures Step(Stage(h, w, c, s, [], Created, extra, mark, None), OfCall(c, SyncSend(true)))
         == Stage(h, w, c, s, [], Resolved, extra, |w.journal.log| + |extra|, None)
  {}

  lemma StepSnapshot(h: Hour, w: Server, c: nat, s: Send, mark: nat, extra: seq<Record>)
    requires After(w, extra).subscribers == map[ADDRESS := READER]
    ensures Step(Stage(h, w, c, s, [], Resolved, extra, mark, None), OfCall(c, Snapshot(true, [READER])))
         == Stage(h, w, c, s, Queue(w), Checking, extra, mark, None)
  {
    ReaderKey();
    var v := Stage(h, w, c, s, [], Resolved, extra, mark, None);
    assert IsSnapshot([READER], v.journal.Now().subscribers);
    assert seq(1, i requires 0 <= i < 1 => Seen([READER][i], Epoch(v, Key([READER][i])))) == Queue(w);
  }

  lemma StepCheck(h: Hour, w: Server, c: nat, s: Send, mark: nat, extra: seq<Record>)
    requires (s.id, ADDRESS) !in After(w, extra).deliveries
    ensures Step(Stage(h, w, c, s, Queue(w), Checking, extra, mark, None), OfCall(c, Check(true)))
         == Stage(h, w, c, s, Queue(w), Waiting, extra, mark, None)
  {
    ReaderKey();
  }

  lemma StepAcquire(h: Hour, w: Server, c: nat, s: Send, mark: nat, extra: seq<Record>)
    ensures Step(Stage(h, w, c, s, Queue(w), Waiting, extra, mark, None), OfCall(c, Acquire))
         == Stage(h, w, c, s, Queue(w), Locked, extra, mark, Some(c))
  {}

  lemma StepReadHour(h: Hour, w: Server, c: nat, s: Send, mark: nat, extra: seq<Record>)
    ensures Step(Stage(h, w, c, s, Queue(w), Locked, extra, mark, Some(c)), OfCall(c, ReadHour(true)))
         == Stage(h, w, c, s, Queue(w), HourRead(Rate(After(w, extra), HourBucket(h))), extra, mark, Some(c))
  {}

  ghost predicate RoomIn(h: Hour, caps: Caps, t: Tables) {
    Rate(t, HourBucket(h)) < caps.hour && Rate(t, DayBucket(h.day)) < caps.day
  }

  function Both(h: Hour, t: Tables): Pc {
    BothRead(Rate(t, HourBucket(h)), Rate(t, DayBucket(h.day)))
  }

  lemma StepReadDay(h: Hour, w: Server, c: nat, s: Send, mark: nat, extra: seq<Record>)
    requires RoomIn(h, w.caps, After(w, extra))
    ensures Step(Stage(h, w, c, s, Queue(w), HourRead(Rate(After(w, extra), HourBucket(h))), extra, mark, Some(c)),
              OfCall(c, ReadDay(true)))
         == Stage(h, w, c, s, Queue(w), Both(h, After(w, extra)), extra, mark, Some(c))
  {}

  lemma StepWriteHour(h: Hour, w: Server, c: nat, s: Send, mark: nat, extra: seq<Record>, n: nat, d: nat)
    ensures Step(Stage(h, w, c, s, Queue(w), BothRead(n, d), extra, mark, Some(c)), OfCall(c, WriteHour(Written)))
         == Stage(h, w, c, s, Queue(w), HourWritten(d), extra + [PutRate(HourBucket(h), n + 1)], mark, Some(c))
  {
    var v, r := Stage(h, w, c, s, Queue(w), BothRead(n, d), extra, mark, Some(c)), PutRate(HourBucket(h), n + 1);
    AfterMore(w, extra, r);
    assert v.journal.Write(r, Written) == Journal(w.journal.base, w.journal.log + (extra + [r]), mark);
    var k := Call(s, NowAt(h), Queue(w), HourWritten(d));
    assert v.calls[c := k] == w.calls[c := k];
  }

  lemma StepWriteDay(h: Hour, w: Server, c: nat, s: Send, mark: nat, extra: seq<Record>, d: nat)
    ensures Step(Stage(h, w, c, s, Queue(w), HourWritten(d), extra, mark, Some(c)), OfCall(c, WriteDay(Written)))
         == Stage(h, w, c, s, Queue(w), Admitted, extra + [PutRate(DayBucket(h.day), d + 1)], mark, None)
  {
    var v, r := Stage(h, w, c, s, Queue(w), HourWritten(d), extra, mark, Some(c)), PutRate(DayBucket(h.day), d + 1);
    AfterMore(w, extra, r);
    assert v.journal.Write(r, Written) == Journal(w.journal.base, w.journal.log + (extra + [r]), mark);
    assert v.calls[c := Call(s, NowAt(h), Queue(w), Admitted)] == w.calls[c := Call(s, NowAt(h), Queue(w), Admitted)];
  }

  lemma StepMails(h: Hour, w: Server, c: nat, s: Send, mark: nat, extra: seq<Record>)
    ensures Exec(Stage(h, w, c, s, Queue(w), Admitted, extra, mark, None), Mails(c)) ==
              Mailed(h, w, c, s, Queue(w), Awaiting, extra, mark)
  {
    ReaderKey();
    var v := Stage(h, w, c, s, Queue(w), Admitted, extra, mark, None);
    Two(v, Mails(c)[0], Mails(c)[1]);
    assert Step(v, Mails(c)[0]) ==
           Stage(h, w, c, s, Queue(w), Mailing, extra, mark, None).(minted := w.minted + {Link(w)});
  }

  lemma StepVerdict(h: Hour, w: Server, c: nat, s: Send, mark: nat, extra: seq<Record>)
    ensures Step(Mailed(h, w, c, s, Queue(w), Awaiting, extra, mark), OfCall(c, Verdict(true)))
         == Mailed(h, w, c, s, Queue(w), Settled(Sent, true), extra, mark)
  {}

  function Row(s: Send): Record { PutDelivery(Delivery(s.id, ADDRESS, Sent, 0)) }

  lemma StepInsertRow(h: Hour, w: Server, c: nat, s: Send, mark: nat, extra: seq<Record>)
    ensures Step(Mailed(h, w, c, s, Queue(w), Settled(Sent, true), extra, mark), OfCall(c, InsertRow(Written, 0)))
         == Mailed(h, w, c, s, Queue(w), Recorded(true), extra + [Row(s)], mark)
  {
    AfterMore(w, extra, Row(s));
  }

  lemma StepSyncRow(h: Hour, w: Server, c: nat, s: Send, mark: nat, extra: seq<Record>)
    ensures Step(Mailed(h, w, c, s, Queue(w), Recorded(true), extra, mark), OfCall(c, SyncRow(true)))
         == Mailed(h, w, c, s, [], Checking, extra, |w.journal.log| + |extra|)
  {
    assert Queue(w)[1..] == [];
  }

  lemma StepDone(h: Hour, w: Server, c: nat, s: Send, mark: nat, extra: seq<Record>)
    ensures Step(Mailed(h, w, c, s, [], Checking, extra, mark), OfCall(c, Check(true))) ==
              Mailed(h, w, c, s, [], Done, extra, mark)
  {}

  // ----- stretches of one call

  function Ask(h: Hour, c: nat, s: Send): Event { Resolve(c, s.id, s.subject, s.bodyHtml, NowAt(h), true) }

  function Starts(h: Hour, c: nat, s: Send): seq<Event> {
    [Ask(h, c, s), OfCall(c, InsertSend(Written)), OfCall(c, SyncSend(true)), OfCall(c, Snapshot(true, [READER]))]
  }

  function Reuses(h: Hour, c: nat, s: Send): seq<Event> {
    [Ask(h, c, s), OfCall(c, Snapshot(true, [READER]))]
  }

  function Locks(c: nat): seq<Event> {
    [OfCall(c, Acquire), OfCall(c, ReadHour(true)), OfCall(c, ReadDay(true)), OfCall(c, WriteHour(Written))]
  }

  function Mails(c: nat): seq<Event> {
    [OfCall(c, Compose(true, true)), OfCall(c, HandOver)]
  }

  /** From an open place in the queue for the lock to the hand-off. */
  function Delivers(c: nat): seq<Event> { Locks(c) + [OfCall(c, WriteDay(Written))] + Mails(c) }

  function Settles(c: nat): seq<Event> {
    [OfCall(c, Verdict(true)), OfCall(c, InsertRow(Written, 0)), OfCall(c, SyncRow(true)), OfCall(c, Check(true))]
  }

  lemma RunStarts(h: Hour, w: Server, c: nat, s: Send)
    requires s == Issue(s.id, s.subject) && c !in w.calls && w.lock.None? && s.id !in w.journal.Now().sends
    requires w.journal.Now().subscribers == map[ADDRESS := READER]
    ensures Exec(w, Starts(h, c, s)) == Stage(h, w, c, s, Queue(w), Checking, [PutSend(s)], |w.journal.log| + 1, None)
  {
    var mark, es, r := w.journal.synced, Starts(h, c, s), PutSend(s);
    AfterNone(w);
    Four(w, es[0], es[1], es[2], es[3]);
    assert Step(w, es[0]) == Stage(h, w, c, s, [], Creating, [], mark, None);
    StepInsertSend(h, w, c, s, mark);
    StepSyncSend(h, w, c, s, mark, [r]);
    AfterMore(w, [], r);
    assert [] + [r] == [r];
    StepSnapshot(h, w, c, s, |w.journal.log| + 1, [r]);
  }

  lemma RunReuses(h: Hour, w: Server, c: nat, s: Send)
    requires s == Issue(s.id, s.subject) && c !in w.calls && w.lock.None?
    requires s.id in w.journal.Now().sends && w.journal.Now().sends[s.id] == s
    requires w.journal.Now().subscribers == map[ADDRESS := READER]
    ensures Exec(w, Reuses(h, c, s)) == Stage(h, w, c, s, Queue(w), Checking, [], w.journal.synced, None)
  {
    var mark, es := w.journal.synced, Reuses(h, c, s);
    AfterNone(w);
    Two(w, es[0], es[1]);
    assert Step(w, es[0]) == Stage(h, w, c, s, [], Resolved, [], mark, None);
    StepSnapshot(h, w, c, s, mark, []);
  }

  function Counted(h: Hour, t: Tables): seq<Record> {
    [PutRate(HourBucket(h), Rate(t, HourBucket(h)) + 1), PutRate(DayBucket(h.day), Rate(t, DayBucket(h.day)) + 1)]
  }

  lemma RunLocks(h: Hour, w: Server, c: nat, s: Send, mark: nat, extra: seq<Record>)
    requires RoomIn(h, w.caps, After(w, extra))
    ensures Exec(Stage(h, w, c, s, Queue(w), Waiting, extra, mark, None), Locks(c))
         == Stage(h, w, c, s, Queue(w), HourWritten(Rate(After(w, extra), DayBucket(h.day))),
                  extra + [Counted(h, After(w, extra))[0]], mark, Some(c))
  {
    var t, es := After(w, extra), Locks(c);
    StepAcquire(h, w, c, s, mark, extra);
    StepReadHour(h, w, c, s, mark, extra);
    StepReadDay(h, w, c, s, mark, extra);
    StepWriteHour(h, w, c, s, mark, extra, Rate(t, HourBucket(h)), Rate(t, DayBucket(h.day)));
    Four(Stage(h, w, c, s, Queue(w), Waiting, extra, mark, None), es[0], es[1], es[2], es[3]);
  }

  lemma RunDelivers(h: Hour, w: Server, c: nat, s: Send, mark: nat, extra: seq<Record>)
    requires RoomIn(h, w.caps, After(w, extra))
    ensures Exec(Stage(h, w, c, s, Queue(w), Waiting, extra, mark, None), Delivers(c))
         == Mailed(h, w, c, s, Queue(w), Awaiting, extra + Counted(h, After(w, extra)), mark)
  {
    var r := Counted(h, After(w, extra));
    var s0 := Stage(h, w, c, s, Queue(w), Waiting, extra, mark, None);
    assert extra + [r[0]] + [r[1]] == extra + r;
    RunLocks(h, w, c, s, mark, extra);
    Extend(s0, Locks(c), OfCall(c, WriteDay(Written)));
    StepWriteDay(h, w, c, s, mark, extra + [r[0]], Rate(After(w, extra), DayBucket(h.day)));
    StepMails(h, w, c, s, mark, extra + r);
    ExecSplit(s0, Locks(c) + [OfCall(c, WriteDay(Written))], Mails(c));
  }

  lemma RunSettles(h: Hour, w: Server, c: nat, s: Send, mark: nat, extra: seq<Record>)
    ensures Exec(Mailed(h, w, c, s, Queue(w), Awaiting, extra, mark), Settles(c))
         == Mailed(h, w, c, s, [], Done, extra + [Row(s)], |w.journal.log| + |extra| + 1)
  {
    var es := Settles(c);
    Four(Mailed(h, w, c, s, Queue(w), Awaiting, extra, mark), es[0], es[1], es[2], es[3]);
    StepVerdict(h, w, c, s, mark, extra);
    StepInsertRow(h, w, c, s, mark, extra);
    StepSyncRow(h, w, c, s, mark, extra + [Row(s)]);
    StepDone(h, w, c, s, |w.journal.log| + |extra| + 1, extra + [Row(s)]);
  }

  // ----- a whole new issue, up to its hand-off

  lemma AfterSend(w: Server, s: Send)
    ensures After(w, [PutSend(s)]) == Apply(w.journal.Now(), PutSend(s))
  {
    AfterNone(w);
    AfterMore(w, [], PutSend(s));
    assert [] + [PutSend(s)] == [PutSend(s)];
  }

  function Attempt(h: Hour, c: nat, s: Send): seq<Event> { Starts(h, c, s) + [OfCall(c, Check(true))] + Delivers(c) }

  function Trail(h: Hour, w: Server, s: Send): seq<Record> { [PutSend(s)] + Counted(h, w.journal.Now()) }

  /** A new issue can be started: nothing is under way and its id is unused. */
  ghost predicate Ready(h: Hour, w: Server, c: nat, s: Send) {
    && s == Issue(s.id, s.subject) && c !in w.calls && w.lock.None?
    && w.journal.Now().subscribers == map[ADDRESS := READER]
    && s.id !in w.journal.Now().sends && (s.id, ADDRESS) !in w.journal.Now().deliveries
    && RoomIn(h, w.caps, w.journal.Now())
  }

  lemma RunQueues(h: Hour, w: Server, c: nat, s: Send)
    requires Ready(h, w, c, s)
    ensures Exec(w, Starts(h, c, s) + [OfCall(c, Check(true))])
         == Stage(h, w, c, s, Queue(w), Waiting, [PutSend(s)], |w.journal.log| + 1, None)
  {
    RunStarts(h, w, c, s);
    AfterSend(w, s);
    Extend(w, Starts(h, c, s), OfCall(c, Check(true)));
    StepCheck(h, w, c, s, |w.journal.log| + 1, [PutSend(s)]);
  }

  lemma CountedSame(h: Hour, w: Server, s: Send)
    ensures Counted(h, After(w, [PutSend(s)])) == Counted(h, w.journal.Now())
  {
    AfterSend(w, s);
  }

  /** One call from its request to its hand-off: the record is durable, the counts are not. */
  lemma RunAttempt(h: Hour, w: Server, c: nat, s: Send)
    requires Ready(h, w, c, s)
    ensures Exec(w, Attempt(h, c, s)) == Mailed(h, w, c, s, Queue(w), Awaiting, Trail(h, w, s), |w.journal.log| + 1)
  {
    RunQueues(h, w, c, s);
    AfterSend(w, s);
    CountedSame(h, w, s);
    RunDelivers(h, w, c, s, |w.journal.log| + 1, [PutSend(s)]);
    ExecSplit(w, Starts(h, c, s) + [OfCall(c, Check(true))], Delivers(c));
  }

  lemma AfterTrail(h: Hour, w: Server, s: Send)
    ensures var r := Counted(h, w.journal.Now());
            After(w, Trail(h, w, s)) == Apply(Apply(Apply(w.journal.Now(), PutSend(s)), r[0]), r[1])
  {
    var r, t := PutSend(s), Counted(h, w.journal.Now());
    AfterSend(w, s);
    AfterMore(w, [r], t[0]);
    AfterMore(w, [r, t[0]], t[1]);
    assert [r] + [t[0]] == [r, t[0]] && [r, t[0]] + [t[1]] == Trail(h, w, s);
  }

  // ----- another call on the same issue, up to its hand-off

  function Again(h: Hour, c: nat, s: Send): seq<Event> { Reuses(h, c, s) + [OfCall(c, Check(true))] + Delivers(c) }

  /** The record is there, the reader has not been attended to, nobody holds the lock. */
  ghost predicate Resumable(h: Hour, w: Server, c: nat, s: Send) {
    && s == Issue(s.id, s.subject) && c !in w.calls && w.lock.None?
    && w.journal.Now().subscribers == map[ADDRESS := READER]
    && s.id in w.journal.Now().sends && w.journal.Now().sends[s.id] == s
    && (s.id, ADDRESS) !in w.journal.Now().deliveries
    && RoomIn(h, w.caps, w.journal.Now())
  }

  lemma RunAgain(h: Hour, w: Server, c: nat, s: Send)
    requires Resumable(h, w, c, s)
    ensures Exec(w, Again(h, c, s)) ==
              Mailed(h, w, c, s, Queue(w), Awaiting, Counted(h, w.journal.Now()), w.journal.synced)
  {
    AfterNone(w);
    RunReuses(h, w, c, s);
    Extend(w, Reuses(h, c, s), OfCall(c, Check(true)));
    StepCheck(h, w, c, s, w.journal.synced, []);
    RunDelivers(h, w, c, s, w.journal.synced, []);
    assert [] + Counted(h, After(w, [])) == Counted(h, w.journal.Now());
    ExecSplit(w, Reuses(h, c, s) + [OfCall(c, Check(true))], Delivers(c));
  }

  function New(c: nat): Send { Issue(c, "s") }

  lemma OpenedInit(caps: Caps)
    ensures Init(Opened(caps))
  {
    ReaderKey();
  }
}
