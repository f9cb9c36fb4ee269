/** What one `/send` call that nothing interrupts and nobody rivals comes to, and what
a run of retries comes to. */
module Plans {
  import opened Records
  import opened Journals
  import opened Protocol

  predicate Ledgered(t: Tables, id: SendId, row: Subscriber) { (id, Key(row)) in t.deliveries }

  /** The recipients without a ledger row, in key order. */
  function Unledgered(t: Tables, id: SendId, rows: seq<Subscriber>): (u: seq<Subscriber>)
    ensures |u| <= |rows| && forall x | x in u :: x in rows && !Ledgered(t, id, x)
  {
    if rows == [] then []
    else
      var last := rows[|rows| - 1];
      Unledgered(t, id, rows[..|rows| - 1]) + if Ledgered(t, id, last) then [] else [last]
  }

  function Room(cap: nat, count: nat): nat { if count < cap then cap - count else 0 }

  /** `n` over `h`, rounded up. */
  function CallsFor(n: nat, h: nat): nat
    requires h >= 1
  {
    (n + h - 1) / h
  }

  function Min(a: nat, b: nat): nat { if a < b then a else b }

  /** How many more slots the current hour and day will grant. */
  function Headroom(caps: Caps, t: Tables, hour: Hour): nat {
    Min(Room(caps.hour, Rate(t, HourBucket(hour))), Room(caps.day, Rate(t, DayBucket(hour.day))))
  }

  /** The recipients a call attempts: the first ones without a ledger row, as many as there is headroom for. */
  function Attempted(caps: Caps, t: Tables, id: SendId, hour: Hour, rows: seq<Subscriber>): (a: seq<Subscriber>)
    ensures |a| == Min(|Unledgered(t, id, rows)|, Headroom(caps, t, hour)) && a <= Unledgered(t, id, rows)
  {
    var u := Unledgered(t, id, rows);
    u[..Min(|u|, Headroom(caps, t, hour))]
  }

  function Keys(rows: seq<Subscriber>): set<string> { set r | r in rows :: Key(r) }

  function LedgerKeys(t: Tables, id: SendId): set<string> { set d | d in t.deliveries && d.0 == id :: d.1 }

  ghost predicate Distinct(rows: seq<Subscriber>) {
    forall i, j | 0 <= i < |rows| && 0 <= j < |rows| && Key(rows[i]) == Key(rows[j]) :: i == j
  }

  /** Only this send's ledger and this moment's two windows may have moved. */
  ghost predicate OnlyThisSend(t: Tables, t': Tables, id: SendId, hour: Hour) {
    && t'.subscribers == t.subscribers
    && (forall d | d in t.deliveries :: d in t'.deliveries && t'.deliveries[d] == t.deliveries[d])
    && (forall d | d in t'.deliveries && d.0 != id :: d in t.deliveries)
    && (forall b | b != HourBucket(hour) && b != DayBucket(hour.day) :: Rate(t', b) == Rate(t, b))
  }

  /** The effect of a call that ran to its end: exactly the planned recipients got a row and a slot. */
  ghost predicate FullCall(caps: Caps, t: Tables, t': Tables, id: SendId, hour: Hour, rows: seq<Subscriber>) {
    var a := Attempted(caps, t, id, hour, rows);
    && OnlyThisSend(t, t', id, hour)
    && LedgerKeys(t', id) == LedgerKeys(t, id) + Keys(a)
    && Rate(t', HourBucket(hour)) == Rate(t, HourBucket(hour)) + |a|
    && Rate(t', DayBucket(hour.day)) == Rate(t, DayBucket(hour.day)) + |a|
  }

  /** The ledger kept its rows and gained some for `rows`. */
  ghost predicate LedgerGained(t: Tables, t': Tables, id: SendId, rows: seq<Subscriber>) {
    LedgerKeys(t, id) <= LedgerKeys(t', id) <= LedgerKeys(t, id) + Keys(rows)
  }

  /** The effect of a call cut short anywhere: some of this send's recipients gained a row. */
  ghost predicate PartialCall(t: Tables, t': Tables, id: SendId, hour: Hour, rows: seq<Subscriber>) {
    && OnlyThisSend(t, t', id, hour)
    && LedgerGained(t, t', id, rows)
  }

  // ----- filtering

  lemma InLedger(t: Tables, id: SendId, row: Subscriber)
    ensures Ledgered(t, id, row) <==> Key(row) in LedgerKeys(t, id)
  {
    if Ledgered(t, id, row) {
      assert (id, Key(row)).1 in LedgerKeys(t, id);
    }
  }

  lemma {:induction false} UnledgeredSame(t: Tables, t': Tables, id: SendId, rows: seq<Subscriber>)
    requires forall r | r in rows :: Ledgered(t', id, r) <==> Ledgered(t, id, r)
    ensures Unledgered(t', id, rows) == Unledgered(t, id, rows)
    decreases |rows|
  {
    if rows != [] { UnledgeredSame(t, t', id, rows[..|rows| - 1]); }
  }

  /** Of `rows`, exactly those in `done` gained a ledger row. */
  ghost predicate Recorded(t: Tables, t': Tables, id: SendId, rows: seq<Subscriber>, done: seq<Subscriber>) {
    forall r | r in rows :: Ledgered(t', id, r) <==> Ledgered(t, id, r) || r in done
  }

  lemma FrontRecorded(t: Tables, t': Tables, id: SendId, front: seq<Subscriber>, last: Subscriber,
                      done: seq<Subscriber>, more: seq<Subscriber>)
    requires Recorded(t, t', id, front + [last], done + more) && last !in front
    requires more == [] || more == [last]
    ensures Recorded(t, t', id, front, done)
  {
    forall r | r in front
      ensures Ledgered(t', id, r) <==> Ledgered(t, id, r) || r in done
    {
      assert r in front + [last];
    }
  }

  lemma UnledgeredLast(t: Tables, id: SendId, front: seq<Subscriber>, last: Subscriber)
    ensures Unledgered(t, id, front + [last]) == Unledgered(t, id, front) + if Ledgered(t, id, last) then [] else [last]
  {
    assert (front + [last])[..|front|] == front;
  }

  lemma DropsBefore(t: Tables, t': Tables, id: SendId, front: seq<Subscriber>, last: Subscriber, n: nat)
    requires last !in front && n <= |Unledgered(t, id, front + [last])|
    requires Recorded(t, t', id, front + [last], Unledgered(t, id, front + [last])[..n])
    ensures var u := Unledgered(t, id, front); Recorded(t, t', id, front, u[..Min(n, |u|)])
    ensures Ledgered(t', id, last) <==> Ledgered(t, id, last) || n > |Unledgered(t, id, front)|
  {
    var u := Unledgered(t, id, front);
    UnledgeredLast(t, id, front, last);
    assert last in front + [last] && last !in u;
    if n <= |u| {
      assert Unledgered(t, id, front + [last])[..n] == u[..n] + [];
      FrontRecorded(t, t', id, front, last, u[..n], []);
    } else {
      assert u[..|u|] == u && Unledgered(t, id, front + [last])[..n] == u + [last];
      FrontRecorded(t, t', id, front, last, u, [last]);
    }
  }

  lemma DropsAfter(t: Tables, t': Tables, id: SendId, front: seq<Subscriber>, last: Subscriber, n: nat)
    requires n <= |Unledgered(t, id, front + [last])|
    requires Ledgered(t', id, last) <==> Ledgered(t, id, last) || n > |Unledgered(t, id, front)|
    requires var u := Unledgered(t, id, front); Unledgered(t', id, front) == u[Min(n, |u|)..]
    ensures Unledgered(t', id, front + [last]) == Unledgered(t, id, front + [last])[n..]
  {
    UnledgeredLast(t, id, front, last);
    UnledgeredLast(t', id, front, last);
  }

  lemma DistinctFront(front: seq<Subscriber>, last: Subscriber)
    requires Distinct(front + [last])
    ensures Distinct(front) && last !in front
  {
    var rows := front + [last];
    assert rows[|front|] == last;
    forall i | 0 <= i < |front|
      ensures front[i] != last
    {
      assert rows[i] == front[i];
    }
    forall i, j | 0 <= i < |front| && 0 <= j < |front| && Key(front[i]) == Key(front[j])
      ensures i == j
    {
      assert rows[i] == front[i] && rows[j] == front[j];
    }
  }

  /** Recording the first `n` unledgered recipients leaves exactly the others unledgered. */
  lemma {:induction false} UnledgeredDrops(t: Tables, t': Tables, id: SendId, rows: seq<Subscriber>, n: nat)
    requires Distinct(rows) && n <= |Unledgered(t, id, rows)|
    requires Recorded(t, t', id, rows, Unledgered(t, id, rows)[..n])
    ensures Unledgered(t', id, rows) == Unledgered(t, id, rows)[n..]
    decreases |rows|
  {
    if rows != [] {
      var front, last := rows[..|rows| - 1], rows[|rows| - 1];
      assert rows == front + [last];
      DistinctFront(front, last);
      DropsBefore(t, t', id, front, last, n);
      UnledgeredDrops(t, t', id, front, Min(n, |Unledgered(t, id, front)|));
      DropsAfter(t, t', id, front, last, n);
    }
  }

  // ----- one full call

  lemma AttemptedLedger(caps: Caps, t: Tables, t': Tables, id: SendId, hour: Hour, rows: seq<Subscriber>, r: Subscriber)
    requires Distinct(rows) && r in rows && FullCall(caps, t, t', id, hour, rows)
    ensures Ledgered(t', id, r) <==> Ledgered(t, id, r) || r in Attempted(caps, t, id, hour, rows)
  {
    var a := Attempted(caps, t, id, hour, rows);
    InLedger(t, id, r);
    InLedger(t', id, r);
    if Key(r) in Keys(a) {
      var x :| x in a && Key(x) == Key(r);
      assert x in Unledgered(t, id, rows);
      assert x == r;
    }
  }

  /** The recipients still to reach shrink by what the headroom allowed, from the front. */
  lemma Progress(caps: Caps, t: Tables, t': Tables, id: SendId, hour: Hour, rows: seq<Subscriber>)
    requires Distinct(rows) && FullCall(caps, t, t', id, hour, rows)
    ensures Unledgered(t', id, rows) == Unledgered(t, id, rows)[|Attempted(caps, t, id, hour, rows)|..]
    ensures |Unledgered(t', id, rows)| < |Unledgered(t, id, rows)| <==>
              Headroom(caps, t, hour) > 0 && Unledgered(t, id, rows) != []
  {
    forall r | r in rows
      ensures Ledgered(t', id, r) <==> Ledgered(t, id, r) || r in Attempted(caps, t, id, hour, rows)
    {
      AttemptedLedger(caps, t, t', id, hour, rows, r);
    }
    UnledgeredDrops(t, t', id, rows, |Attempted(caps, t, id, hour, rows)|);
  }

  // ----- runs of full calls

  /** `ts[i + 1]` is what a full call in `hours[i]` made of `ts[i]`. */
  ghost predicate Retries(caps: Caps, ts: seq<Tables>, hours: seq<Hour>, id: SendId, rows: seq<Subscriber>) {
    && |ts| == |hours| + 1
    && forall i | 0 <= i < |hours| :: FullCall(caps, ts[i], ts[i + 1], id, hours[i], rows)
  }

  lemma AttemptedKeys(caps: Caps, t: Tables, id: SendId, hour: Hour, rows: seq<Subscriber>)
    ensures Keys(Attempted(caps, t, id, hour, rows)) <= Keys(rows)
  {
    assert forall x | x in Attempted(caps, t, id, hour, rows) :: x in Unledgered(t, id, rows);
  }

  ghost predicate NewWindows(t: Tables, hours: seq<Hour>) {
    && (forall i, j | 0 <= i < j < |hours| :: hours[i].day != hours[j].day)
    && (forall i | 0 <= i < |hours| :: Rate(t, HourBucket(hours[i])) == 0 && Rate(t, DayBucket(hours[i].day)) == 0)
  }

  lemma {:induction false} StillNew(caps: Caps, ts: seq<Tables>, hours: seq<Hour>, id: SendId, rows: seq<Subscriber>,
                                    i: nat)
    requires Retries(caps, ts, hours, id, rows) && NewWindows(ts[0], hours) && i < |hours|
    ensures Headroom(caps, ts[i], hours[i]) == Min(caps.hour, caps.day)
  {
    var j := 0;
    while j < i
      invariant j <= i && Rate(ts[j], HourBucket(hours[i])) == 0 && Rate(ts[j], DayBucket(hours[i].day)) == 0
    {
      assert FullCall(caps, ts[j], ts[j + 1], id, hours[j], rows);
      assert hours[j].day != hours[i].day;
      j := j + 1;
    }
  }

  /** With the caps as validated, `m` calls on different days reach the hourly cap's worth
  of recipients each: after them `n - m * hour` of the `n` are left, or none. So every
  recipient is reached exactly when `m` is at least `n / hour` rounded up. */
  lemma {:induction false} RetriesReachAll(caps: Caps, ts: seq<Tables>, hours: seq<Hour>, id: SendId,
                                           rows: seq<Subscriber>)
    requires 1 <= caps.hour <= caps.day && Distinct(rows)
    requires Retries(caps, ts, hours, id, rows) && NewWindows(ts[0], hours)
    ensures |Unledgered(ts[|hours|], id, rows)| == Room(|Unledgered(ts[0], id, rows)|, |hours| * caps.hour)
    ensures Unledgered(ts[|hours|], id, rows) == [] <==>
              |hours| >= CallsFor(|Unledgered(ts[0], id, rows)|, caps.hour)
    decreases |hours|
  {
    var n := |Unledgered(ts[0], id, rows)|;
    if hours != [] {
      var k := |hours| - 1;
      assert NewWindows(ts[0], hours[..k]);
      RetriesReachAll(caps, ts[..k + 1], hours[..k], id, rows);
      StillNew(caps, ts, hours, id, rows, k);
      Progress(caps, ts[k], ts[k + 1], id, hours[k], rows);
      Grow(k, caps.hour);
    }
    RoundUp(n, caps.hour, |hours|);
  }

  /** `ts` are the tables before, between and after the calls in the first `i` of `hours`. */
  ghost predicate DaysDone(caps: Caps, ts: seq<Tables>, hours: seq<Hour>, i: nat, id: SendId, rows: seq<Subscriber>) {
    && i <= |hours| && Retries(caps, ts, hours[..i], id, rows)
    && ts[i].subscribers == ts[0].subscribers && LedgerGained(ts[0], ts[i], id, rows)
  }

  lemma DaysGoOn(caps: Caps, ts: seq<Tables>, hours: seq<Hour>, i: nat, id: SendId, rows: seq<Subscriber>, t: Tables)
    requires DaysDone(caps, ts, hours, i, id, rows) && i < |hours| && FullCall(caps, ts[i], t, id, hours[i], rows)
    ensures DaysDone(caps, ts + [t], hours, i + 1, id, rows)
  {
    AttemptedKeys(caps, ts[i], id, hours[i], rows);
    forall j | 0 <= j < i + 1
      ensures FullCall(caps, (ts + [t])[j], (ts + [t])[j + 1], id, hours[..i + 1][j], rows)
    {
      if j < i { assert FullCall(caps, ts[j], ts[j + 1], id, hours[..i][j], rows); }
    }
  }

  lemma Grow(k: nat, h: nat)
    ensures (k + 1) * h == k * h + h
  {}

  lemma RoundUp(n: nat, h: nat, m: nat)
    requires h >= 1
    ensures n <= m * h <==> m >= CallsFor(n, h)
  {
    var q := CallsFor(n, h);
    assert n <= q * h && (q == 0 || (q - 1) * h < n);
    if m >= q {
      assert m * h >= q * h;
    } else {
      assert m * h <= (q - 1) * h;
    }
  }

  lemma DaysOver(caps: Caps, ts: seq<Tables>, hours: seq<Hour>, id: SendId, rows: seq<Subscriber>)
    requires 1 <= caps.hour <= caps.day && Distinct(rows)
    requires DaysDone(caps, ts, hours, |hours|, id, rows) && NewWindows(ts[0], hours)
    ensures |Unledgered(ts[|hours|], id, rows)| == Room(|Unledgered(ts[0], id, rows)|, |hours| * caps.hour)
    ensures Unledgered(ts[|hours|], id, rows) == [] <==>
              |hours| >= CallsFor(|Unledgered(ts[0], id, rows)|, caps.hour)
  {
    assert hours[..|hours|] == hours;
    RetriesReachAll(caps, ts, hours, id, rows);
  }

  lemma {:induction false} AllUnledgeredKeys(t: Tables, id: SendId, rows: seq<Subscriber>)
    ensures LedgerKeys(t, id) + Keys(Unledgered(t, id, rows)) == LedgerKeys(t, id) + Keys(rows)
    decreases |rows|
  {
    if rows != [] {
      var n := |rows| - 1;
      AllUnledgeredKeys(t, id, rows[..n]);
      InLedger(t, id, rows[n]);
      assert Keys(rows) == Keys(rows[..n]) + {Key(rows[n])} by {
        assert rows == rows[..n] + [rows[n]];
      }
      if !Ledgered(t, id, rows[n]) {
        var u := Unledgered(t, id, rows[..n]);
        assert Keys(u + [rows[n]]) == Keys(u) + {Key(rows[n])};
      }
    }
  }
}
