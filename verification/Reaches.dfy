/** From rest, any one Active reader without a ledger row can be reached: the calls of as many
different hours attend to those before them in key order, one reader a call. */
module Reaches {
  import opened Records
  import opened Journals
  import opened Protocol
  import opened Budgets
  import opened Runs
  import opened Serials
  import opened Orders
  import opened Unused
  import opened Restarts
  import opened Stores
  import opened Turns
  import opened Contents
  import opened Reissues

  // ----- a record to send

  /** Nothing but the record under `id` may have changed, and there is one. */
  ghost predicate Recorded(u: Server, v: Server, id: SendId) {
    && Resting(v) && HasSend(v.journal.Now(), id) && v.mail == u.mail && v.caps == u.caps
    && v.journal.Now() == u.journal.Now().(sends := v.journal.Now().sends)
  }

  function Creating(c: nat, send: Send, now: Moment): seq<Event> {
    ResolveEvents(c, send.id, send.subject, send.bodyHtml, now, true, Synced) + [Kill]
  }

  lemma CreatedRests(u: Server, c: nat, send: Send, now: Moment)
    requires Resting(u) && c !in u.calls && !HasSend(u.journal.Now(), send.id)
    ensures var v := CutAll(ResolvedWorld(u, c, send, now, true, Synced));
            && (forall d | d in v.calls :: Ended(v.calls[d].pc)) && v.lock.None? && HasSend(v.journal.Now(), send.id)
            && v.mail == u.mail && v.caps == u.caps
            && v.journal.Now() == u.journal.Now().(sends := v.journal.Now().sends)
  {
    AppendViews(u.journal, PutSend(send));
  }

  lemma Create(u: Server, id: SendId) returns (es: seq<Event>)
    requires Resting(u) && !HasSend(u.journal.Now(), id)
    ensures Serial(u, es, id) && Recorded(u, Exec(u, es), id)
  {
    var c := NewCall(u.calls);
    var now := NewMoment(u.journal.Now());
    var send := Send(id, "s", "b", now.unix);
    es := Creating(c, send, now);
    ResolveRun(u, c, id, "s", "b", now, true, Synced);
    Extend(u, ResolveEvents(c, id, "s", "b", now, true, Synced), Kill);
    CreatedRests(u, c, send, now);
    LogOkOn(u, es);
    SerialHead(u, es, id);
  }

  // ----- one reader attended to

  function GiveEvents(c: nat): seq<Event> { HandEvents(c) + RecordEvents(c, FAIR) + [Kill] }

  /** `key` has its ledger row of `id`, and there is nothing else to tell. */
  ghost predicate Given(u: Server, v: Server, id: SendId, key: string) {
    && v.lock.None? && (forall c | c in v.calls :: Ended(v.calls[c].pc)) && v.caps == u.caps && u.mail <= v.mail
    && var t, t' := u.journal.Now(), v.journal.Now();
       t'.subscribers == t.subscribers && t'.sends == t.sends && t'.deliveries.Keys == t.deliveries.Keys + {(id, key)}
  }

  /** The slot is granted, the message out, its row durable. */
  lemma GiveTables(v: Server, c: nat, now: Moment)
    requires c in v.calls && v.calls[c].queue != [] && v.calls[c].now == now && 1 <= v.caps.hour && 1 <= v.caps.day
    requires Rate(v.journal.Now(), HourBucket(now.hour)) == 0 && Rate(v.journal.Now(), DayBucket(now.hour.day)) == 0
    ensures var w := Reserved(v, c, SMOOTH);
            && c in w.calls && w.calls[c] == v.calls[c].(pc := Admitted) && w.lock == v.lock && w.mail == v.mail
            && w.caps == v.caps
            && w.journal.Now().(rates := v.journal.Now().rates) == v.journal.Now()
  {
    SlotGranted(v.journal, Turns.HourOf(v, c), Turns.DayOf(v, c), v.caps.hour, v.caps.day, SMOOTH);
  }

  ghost function GivenWorld(v: Server, c: nat): Server
    requires c in v.calls && v.calls[c].queue != [] && Reserved(v, c, SMOOTH).calls[c] == v.calls[c].(pc := Admitted)
  {
    Step(RecordedWorld(Posted(Reserved(v, c, SMOOTH), c, FAIR), c, FAIR), Kill)
  }

  lemma GiveRun(v: Server, c: nat)
    requires c in v.calls && v.calls[c].queue != [] && v.calls[c].pc.Waiting? && v.lock.None?
    requires Reserved(v, c, SMOOTH).calls[c] == v.calls[c].(pc := Admitted)
    ensures Exec(v, GiveEvents(c)) == GivenWorld(v, c)
  {
    HandRun(v, c);
    RecordRun(Posted(Reserved(v, c, SMOOTH), c, FAIR), c, FAIR);
    Then(v, HandEvents(c), RecordEvents(c, FAIR), Kill);
  }

  lemma RowTables(x: Server, c: nat)
    requires c in x.calls && x.calls[c].queue != [] && x.calls[c].pc.Settled?
    ensures var t, t' := x.journal.Now(), RecordedWorld(x, c, FAIR).journal.Now();
            && t'.subscribers == t.subscribers && t'.sends == t.sends
            && t'.deliveries.Keys == t.deliveries.Keys + {(x.calls[c].send.id, Target(x.calls[c]))}
  {
    AppendViews(x.journal, PutDelivery(LedgerRow(x.calls[c], FAIR.at)));
  }

  lemma GivenTables(v: Server, c: nat)
    requires c in v.calls && v.calls[c].queue != [] && Reserved(v, c, SMOOTH).calls[c] == v.calls[c].(pc := Admitted)
    requires Reserved(v, c, SMOOTH).journal.Now().(rates := v.journal.Now().rates) == v.journal.Now()
    ensures var t, t' := v.journal.Now(), GivenWorld(v, c).journal.Now();
            && t'.subscribers == t.subscribers && t'.sends == t.sends
            && t'.deliveries.Keys == t.deliveries.Keys + {(v.calls[c].send.id, Target(v.calls[c]))}
  {
    RowTables(Posted(Reserved(v, c, SMOOTH), c, FAIR), c);
  }

  lemma GivenEnds(v: Server, c: nat)
    requires c in v.calls && v.calls[c].queue != [] && Reserved(v, c, SMOOTH).calls[c] == v.calls[c].(pc := Admitted)
    ensures var w := GivenWorld(v, c);
            w.lock.None? && (forall d | d in w.calls :: Ended(w.calls[d].pc)) && w.caps == v.caps && v.mail <= w.mail
  {}

  lemma Give(u: Server, v: Server, c: nat, send: Send, now: Moment)
    requires Asking(u, v, c, send, now) && 1 <= u.caps.hour && 1 <= u.caps.day
    requires Rate(u.journal.Now(), HourBucket(now.hour)) == 0 && Rate(u.journal.Now(), DayBucket(now.hour.day)) == 0
    ensures Given(u, Exec(v, GiveEvents(c)), send.id, Target(v.calls[c]))
  {
    GiveTables(v, c, now);
    GiveRun(v, c);
    GivenTables(v, c);
    GivenEnds(v, c);
  }

  // ----- the last hop

  /** The relay has a message of `send` for `row`, and its unsubscribe link has been signed. */
  ghost predicate Sent(u: Server, v: Server, send: Send, row: Subscriber, m: Minted) {
    && v.caps == u.caps && v.journal.Now().subscribers == u.journal.Now().subscribers
    && |v.mail| > |u.mail| && u.mail <= v.mail[..|v.mail| - 1]
    && v.mail[|v.mail| - 1].send == send && v.mail[|v.mail| - 1].key == Key(row)
    && m in v.minted && m.token.kind == Unsubscribe && m.token.email == row.email
    && m.token.generation == row.generation
  }

  lemma Sends(u: Server, v: Server, c: nat, send: Send, now: Moment) returns (m: Minted)
    requires Asking(u, v, c, send, now) && 1 <= u.caps.hour && 1 <= u.caps.day
    requires Rate(u.journal.Now(), HourBucket(now.hour)) == 0 && Rate(u.journal.Now(), DayBucket(now.hour.day)) == 0
    ensures Sent(u, Exec(v, HandEvents(c)), send, v.calls[c].queue[0].row, m)
  {
    GiveTables(v, c, now);
    HandRun(v, c);
    m := UnsubscribeToken(v.calls[c]);
  }

  // ----- all the hops

  /** Those the send has not attended to. */
  function Left(t: Tables, id: SendId): set<string> { set k | k in t.subscribers && (id, k) !in t.deliveries }

  lemma LeftShrinks(t: Tables, t': Tables, id: SendId, key: string)
    requires t'.subscribers == t.subscribers && t'.deliveries.Keys == t.deliveries.Keys + {(id, key)}
    requires key in Left(t, id)
    ensures |Left(t', id)| < |Left(t, id)|
  {
    assert Left(t', id) == Left(t, id) - {key};
  }

  /** A call of a new hour, up to the first reader it finds without a ledger row. */
  lemma Approach(u: Server, send: Send, k: string) returns (es: seq<Event>, c: nat, now: Moment)
    requires Prepared(u, send.id, k) && HasSend(u.journal.Now(), send.id) && u.journal.Now().sends[send.id] == send
    ensures forall i | 0 < i < |es| :: !es[i].Resolve?
    ensures Asking(u, Exec(u, es), c, send, now) && Target(Exec(u, es).calls[c]) in Left(u.journal.Now(), send.id)
    ensures var row := Exec(u, es).calls[c].queue[0].row; u.journal.Now().subscribers[Key(row)] == row
    ensures Rate(u.journal.Now(), HourBucket(now.hour)) == 0 && Rate(u.journal.Now(), DayBucket(now.hour.day)) == 0
  {
    BaseNow(u);
    var t := u.journal.Now();
    c := NewCall(u.calls);
    now := NewMoment(t);
    var rows := SnapshotExists(t.subscribers);
    assert t.subscribers[k] in rows && Key(t.subscribers[k]) == k;
    var xs := Reusing(c, send, now) + [OfCall(c, Snapshot(true, rows))];
    LineUp(u, c, send, now, rows);
    var ys := Skip(u, Exec(u, xs), c, send, now, rows, t.subscribers[k]);
    es := xs + ys;
    ExecSplit(u, xs, ys);
  }

  /** The reader it found is another one: attended to, it is out of the way. */
  lemma Hop(u: Server, xs: seq<Event>, c: nat, send: Send, now: Moment, k: string)
    requires Prepared(u, send.id, k) && 1 <= u.caps.hour && 1 <= u.caps.day && HasSend(u.journal.Now(), send.id)
    requires Asking(u, Exec(u, xs), c, send, now)
    requires Target(Exec(u, xs).calls[c]) in Left(u.journal.Now(), send.id) - {k}
    requires Rate(u.journal.Now(), HourBucket(now.hour)) == 0 && Rate(u.journal.Now(), DayBucket(now.hour.day)) == 0
    ensures var w := Exec(u, xs + GiveEvents(c));
            && Prepared(w, send.id, k) && w.caps == u.caps && u.mail <= w.mail
            && w.journal.Now().sends == u.journal.Now().sends
            && w.journal.Now().subscribers == u.journal.Now().subscribers
            && |Left(w.journal.Now(), send.id)| < |Left(u.journal.Now(), send.id)|
  {
    var v := Exec(u, xs);
    Give(u, v, c, send, now);
    ExecSplit(u, xs, GiveEvents(c));
    LogOkOn(u, xs + GiveEvents(c));
    LeftShrinks(u.journal.Now(), Exec(u, xs + GiveEvents(c)).journal.Now(), send.id, Target(v.calls[c]));
  }

  lemma GivesUnresolving(c: nat)
    ensures Unresolving(GiveEvents(c))
  {}

  /** What is sent from a later state, whose mail extends that of `u`. */
  lemma SentFrom(u: Server, w: Server, v: Server, send: Send, row: Subscriber, m: Minted)
    requires Sent(w, v, send, row, m) && w.caps == u.caps && u.mail <= w.mail
    requires w.journal.Now().subscribers == u.journal.Now().subscribers
    ensures Sent(u, v, send, row, m)
  {}

  lemma {:induction false} Reach(u: Server, send: Send, k: string) returns (es: seq<Event>, m: Minted)
    requires Prepared(u, send.id, k) && 1 <= u.caps.hour && 1 <= u.caps.day
    requires HasSend(u.journal.Now(), send.id) && u.journal.Now().sends[send.id] == send
    ensures Serial(u, es, send.id) && Sent(u, Exec(u, es), send, u.journal.Now().subscribers[k], m)
    decreases |Left(u.journal.Now(), send.id)|
  {
    var xs, c, now := Approach(u, send, k);
    var v := Exec(u, xs);
    if Target(v.calls[c]) == k {
      m := Sends(u, v, c, send, now);
      es := xs + HandEvents(c);
      ExecSplit(u, xs, HandEvents(c));
      HandsUnresolving(c);
      SerialHead(u, es, send.id);
    } else {
      var zs := xs + GiveEvents(c);
      Hop(u, xs, c, send, now, k);
      GivesUnresolving(c);
      SerialHead(u, zs, send.id);
      var ys;
      ys, m := Reach(Exec(u, zs), send, k);
      es := zs + ys;
      ExecSplit(u, zs, ys);
      SerialAppend(u, zs, ys, send.id);
      SentFrom(u, Exec(u, zs), Exec(u, es), send, u.journal.Now().subscribers[k], m);
    }
  }
}
