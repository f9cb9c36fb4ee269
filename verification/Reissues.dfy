/** From any state a message can be made to go out under an id: what its durable record
says, or anything at all when it has none. */
module Reissues {
  import opened Records
  import opened Journals
  import opened Protocol
  import opened Budgets
  import opened Runs
  import opened Serials
  import opened Orders
  import opened Unused
  import opened Standings
  import opened Restarts
  import opened Stores
  import opened Turns
  import opened Plans
  import opened Fanouts
  import opened Contents

  /** A reader without a ledger row, with nothing under way and nothing buffered. */
  ghost predicate Prepared(u: Server, id: SendId, k: string) {
    && Resting(u) && IsActive(u.journal.Now(), k) && (id, k) !in u.journal.Now().deliveries
  }

  lemma Prepare(v: Server, id: SendId) returns (es: seq<Event>, k: string)
    requires BaseInv(v) && LogOk(v.journal)
    ensures var u := Exec(v, es);
            && Prepared(u, id, k) && u.journal.synced == |u.journal.log|
            && u.journal.Now().sends == Mark(v.journal).sends && u.mail == v.mail && u.caps == v.caps
    ensures Unresolving(es)
  {
    var loss := [PowerLoss(v.journal.synced)];
    One(v, loss[0]);
    LossShows(v);
    var u := Exec(v, loss);
    k := NewAddress(u.journal.Now(), id);
    var ys := Welcome(u, k);
    es := loss + ys;
    ExecSplit(v, loss, ys);
  }

  // ----- a record nobody syncs

  function Stranding(c: nat, send: Send, now: Moment): seq<Event> {
    ResolveEvents(c, send.id, send.subject, send.bodyHtml, now, true, SyncFailed)
  }

  lemma RestMoves(u: Server, c: nat, k: Call, j: Journal)
    requires Resting(u) && Ended(k.pc)
    ensures var v := Move(u.(journal := j), c, k); v.lock.None? && forall d | d in v.calls :: Ended(v.calls[d].pc)
  {}

  lemma Strand(u: Server, c: nat, send: Send, now: Moment, k: string)
    requires Prepared(u, send.id, k) && c !in u.calls && !HasSend(u.journal.Now(), send.id) && send.sentAt == now.unix
    ensures var v := Exec(u, Stranding(c, send, now));
            && Prepared(v, send.id, k) && v.mail == u.mail && v.caps == u.caps
            && HasSend(v.journal.Now(), send.id) && v.journal.Now().sends[send.id] == send
            && v.journal.Now().rates == u.journal.Now().rates
            && v.journal.synced == u.journal.synced && u.journal.log <= v.journal.log
            && v.journal.base == u.journal.base
  {
    ResolveRun(u, c, send.id, send.subject, send.bodyHtml, now, true, SyncFailed);
    LogOkOn(u, Stranding(c, send, now));
    AppendViews(u.journal, PutSend(send));
    RestMoves(u, c, Call(send, now, [], Cut(false)), u.journal.Put(PutSend(send), SyncFailed));
  }

  // ----- reusing a record, up to a hand-off

  function Reusing(c: nat, send: Send, now: Moment): seq<Event> {
    ResolveEvents(c, send.id, send.subject, send.bodyHtml, now, true, Synced)
  }

  /** Call `c` of `v` stands before `rows`; all else is as in `u`. */
  ghost predicate Standing(u: Server, v: Server, c: nat, send: Send, now: Moment, rows: seq<Subscriber>) {
    Lined(v, c, send, now, rows) && v == u.(calls := v.calls)
  }

  lemma Reuse(u: Server, c: nat, send: Send, now: Moment)
    requires c !in u.calls && u.lock.None? && HasSend(u.journal.Now(), send.id)
    requires u.journal.Now().sends[send.id] == send
    ensures Exec(u, Reusing(c, send, now)) == Move(u, c, Call(send, now, [], Resolved))
  {
    ResolveRun(u, c, send.id, send.subject, send.bodyHtml, now, true, Synced);
  }

  lemma LineUp(u: Server, c: nat, send: Send, now: Moment, rows: seq<Subscriber>)
    requires c !in u.calls && u.lock.None? && HasSend(u.journal.Now(), send.id)
    requires u.journal.Now().sends[send.id] == send
    requires IsSnapshot(rows, u.journal.Now().subscribers)
    ensures Standing(u, Exec(u, Reusing(c, send, now) + [OfCall(c, Snapshot(true, rows))]), c, send, now, rows)
  {
    Reuse(u, c, send, now);
    var v := Move(u, c, Call(send, now, [], Resolved));
    Extend(u, Reusing(c, send, now), OfCall(c, Snapshot(true, rows)));
    SnapshotTurn(v, c, true, rows);
  }

  /** Before the lock, with a recipient; all else as in `u`. */
  ghost predicate Asking(u: Server, v: Server, c: nat, send: Send, now: Moment) {
    && v == u.(calls := v.calls) && v.lock.None? && c in v.calls
    && v.calls[c].pc.Waiting? && v.calls[c].queue != [] && v.calls[c].send == send && v.calls[c].now == now
  }

  lemma Unstruck(t: Tables, id: SendId, rows: seq<Subscriber>, row: Subscriber)
    requires rows != [] && row in rows && !Ledgered(t, id, row) && Ledgered(t, id, rows[0])
    ensures row in rows[1..]
  {
    var i :| 0 <= i < |rows| && rows[i] == row;
    assert rows[1..][i - 1] == row;
  }

  lemma PopLines(u: Server, v: Server, c: nat, send: Send, now: Moment, rows: seq<Subscriber>)
    requires rows != [] && Standing(u, v, c, send, now, rows)
    ensures Standing(u, Popped(v, c), c, send, now, rows[1..])
  {}

  /** Recipients with a ledger row are passed over until one without is reached. */
  lemma {:induction false} Skip(u: Server, v: Server, c: nat, send: Send, now: Moment, rows: seq<Subscriber>,
                                row: Subscriber)
    returns (es: seq<Event>)
    requires Standing(u, v, c, send, now, rows) && row in rows && !Ledgered(v.journal.Now(), send.id, row)
    ensures Unresolving(es) && Asking(u, Exec(v, es), c, send, now)
    ensures var next := Exec(v, es).calls[c].queue[0].row; next in rows && !Ledgered(v.journal.Now(), send.id, next)
    decreases |rows|
  {
    CheckTurn(v, c, true);
    One(v, OfCall(c, Check(true)));
    es := [OfCall(c, Check(true))];
    if Ledgered(v.journal.Now(), send.id, rows[0]) {
      Unstruck(v.journal.Now(), send.id, rows, row);
      PopLines(u, v, c, send, now, rows);
      var ys := Skip(u, Popped(v, c), c, send, now, rows[1..], row);
      ExecSplit(v, es, ys);
      es := es + ys;
    }
  }

  const SMOOTH := SlotIo(true, true, Written, Written)
  const FAIR := Fate(true, Never, SMOOTH, true, true, true, 0, Synced)

  /** What a hand-off leaves: one more message of `send`, and nothing more synced. */
  ghost predicate Delivered(u: Server, v: Server, send: Send) {
    && |v.mail| == |u.mail| + 1 && v.mail[..|u.mail|] == u.mail && v.mail[|u.mail|].send == send
    && v.journal.base == u.journal.base && v.journal.synced == u.journal.synced && u.journal.log <= v.journal.log
  }

  function HandEvents(c: nat): seq<Event> { [OfCall(c, Acquire)] + SlotEvents(c, SMOOTH) + MailEvents(c, FAIR) }

  lemma HandRun(v: Server, c: nat)
    requires c in v.calls && v.calls[c].queue != [] && v.calls[c].pc.Waiting? && v.lock.None?
    requires Reserved(v, c, SMOOTH).calls[c] == v.calls[c].(pc := Admitted)
    ensures Exec(v, HandEvents(c)) == Posted(Reserved(v, c, SMOOTH), c, FAIR)
  {
    SlotRun(v, c, SMOOTH);
    MailRun(Reserved(v, c, SMOOTH), c, FAIR);
    ExecSplit(v, [OfCall(c, Acquire)] + SlotEvents(c, SMOOTH), MailEvents(c, FAIR));
  }

  lemma HandOut(u: Server, v: Server, c: nat, send: Send, now: Moment)
    requires Asking(u, v, c, send, now) && 1 <= u.caps.hour && 1 <= u.caps.day
    requires Rate(u.journal.Now(), HourBucket(now.hour)) == 0 && Rate(u.journal.Now(), DayBucket(now.hour.day)) == 0
    ensures Delivered(u, Exec(v, HandEvents(c)), send)
  {
    SlotGranted(v.journal, Turns.HourOf(v, c), Turns.DayOf(v, c), v.caps.hour, v.caps.day, SMOOTH);
    HandRun(v, c);
  }

  lemma HandsUnresolving(c: nat)
    ensures Unresolving(HandEvents(c))
  {}

  /** From rest, with a record in the tables and a reader not yet in its ledger: a message of that record goes out. */
  lemma Issue(u: Server, send: Send, k: string) returns (es: seq<Event>)
    requires Prepared(u, send.id, k) && 1 <= u.caps.hour && 1 <= u.caps.day
    requires HasSend(u.journal.Now(), send.id) && u.journal.Now().sends[send.id] == send
    ensures Serial(u, es, send.id) && Delivered(u, Exec(u, es), send)
  {
    BaseNow(u);
    var t := u.journal.Now();
    var c := NewCall(u.calls);
    var now := NewMoment(t);
    var rows := SnapshotExists(t.subscribers);
    assert t.subscribers[k] in rows && Key(t.subscribers[k]) == k;
    var xs := Reusing(c, send, now) + [OfCall(c, Snapshot(true, rows))];
    LineUp(u, c, send, now, rows);
    var v := Exec(u, xs);
    var ys := Skip(u, v, c, send, now, rows, t.subscribers[k]);
    HandOut(u, Exec(v, ys), c, send, now);
    HandsUnresolving(c);
    es := xs + (ys + HandEvents(c));
    ExecSplit(v, ys, HandEvents(c));
    ExecSplit(u, xs, ys + HandEvents(c));
    SerialHead(u, es, send.id);
  }

  // ----- the two ways

  lemma MarkSame(j: Journal, j': Journal)
    requires j.Valid() && j'.base == j.base && j'.synced == j.synced && j.log <= j'.log
    ensures Mark(j') == Mark(j)
  {
    assert j'.log[..j.synced] == j.log[..j.synced];
  }

  /** What is durable under an id can go out again from anywhere. */
  lemma SendDurable(v: Server, id: SendId) returns (es: seq<Event>)
    requires BaseInv(v) && LogOk(v.journal) && 1 <= v.caps.hour && 1 <= v.caps.day
    requires HasSend(Mark(v.journal), id) && Mark(v.journal).sends[id].id == id
    ensures Serial(v, es, id)
    ensures var u := Exec(v, es);
            && |u.mail| == |v.mail| + 1 && u.mail[..|v.mail|] == v.mail
            && u.mail[|v.mail|].send == Mark(v.journal).sends[id]
  {
    var xs, k := Prepare(v, id);
    var ys := Issue(Exec(v, xs), Mark(v.journal).sends[id], k);
    es := xs + ys;
    ExecSplit(v, xs, ys);
    SerialRest(v, xs, id);
    SerialAppend(v, xs, ys, id);
  }

  lemma StrandAndIssue(u: Server, send: Send, k: string) returns (es: seq<Event>)
    requires Prepared(u, send.id, k) && 1 <= u.caps.hour && 1 <= u.caps.day && send.sentAt == 0
    requires !HasSend(u.journal.Now(), send.id)
    ensures Serial(u, es, send.id) && Delivered(u, Exec(u, es), send)
  {
    var c := NewCall(u.calls);
    var now := NewMoment(u.journal.Now());
    now := Moment(0, now.hour);
    Strand(u, c, send, now, k);
    var v := Exec(u, Stranding(c, send, now));
    var ys := Issue(v, send, k);
    es := Stranding(c, send, now) + ys;
    ExecSplit(u, Stranding(c, send, now), ys);
    SerialHead(u, Stranding(c, send, now), send.id);
    SerialAppend(u, Stranding(c, send, now), ys, send.id);
  }

  /** Under an id without a durable record anything can go out, and leave it without one. */
  lemma SendAnything(v: Server, send: Send) returns (es: seq<Event>)
    requires BaseInv(v) && LogOk(v.journal) && 1 <= v.caps.hour && 1 <= v.caps.day
    requires !HasSend(Mark(v.journal), send.id) && send.sentAt == 0
    ensures Serial(v, es, send.id) && BaseInv(Exec(v, es)) && LogOk(Exec(v, es).journal)
    ensures var u := Exec(v, es);
            && |u.mail| == |v.mail| + 1 && u.mail[..|v.mail|] == v.mail && u.mail[|v.mail|].send == send
            && !HasSend(Mark(u.journal), send.id)
  {
    var xs, k := Prepare(v, send.id);
    var u := Exec(v, xs);
    var ys := StrandAndIssue(u, send, k);
    es := xs + ys;
    ExecSplit(v, xs, ys);
    SerialRest(v, xs, send.id);
    SerialAppend(v, xs, ys, send.id);
    LogOkOn(v, es);
    FullView(u.journal);
    MarkSame(u.journal, Exec(v, es).journal);
  }
}
