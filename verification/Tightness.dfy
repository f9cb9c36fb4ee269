/** The bounds on hand-offs are met with equality, for hours and for days. */
module Tightness {
  import opened Records
  import opened Journals
  import opened Protocol
  import opened Budgets
  import opened Runs
  import opened Serials
  import opened Windows
  import opened Witnesses
  import Plans

  // ----- whole calls and lost calls

  /** Nothing is under way, everything is durable, ids from `c` on are new. */
  ghost predicate Rest(w: Server, c: nat) {
    && w.lock.None? && w.journal.synced == |w.journal.log|
    && (forall d | d in w.calls :: d < c && Ended(w.calls[d].pc))
    && w.journal.Now().subscribers == map[ADDRESS := READER]
    && (forall d: nat | c <= d :: d !in w.journal.Now().sends && (d, ADDRESS) !in w.journal.Now().deliveries)
  }

  /** Only the windows of hour `h` and of the day may count differently. */
  ghost predicate OtherWindows(h: Hour, t: Tables, t': Tables) {
    forall b | b != HourBucket(h) && b != DayBucket(h.day) :: Rate(t', b) == Rate(t, b)
  }

  function Broken(h: Hour, w: Server, c: nat): Server {
    Mailed(h, w, c, New(c), Queue(w), Cut(true), [PutSend(New(c))], |w.journal.log| + 1)
  }

  function Whole(h: Hour, w: Server, c: nat): Server {
    Mailed(h, w, c, New(c), [], Done, Trail(h, w, New(c)) + [Row(New(c))], |w.journal.log| + 4)
  }

  function Losing(h: Hour, w: Server, c: nat): seq<Event> { Attempt(h, c, New(c)) + [PowerLoss(|w.journal.log| + 1)] }

  function Completing(h: Hour, c: nat): seq<Event> { Attempt(h, c, New(c)) + Settles(c) }

  lemma StepLoss(h: Hour, w: Server, c: nat)
    requires forall d | d in w.calls :: Ended(w.calls[d].pc)
    ensures var n := |w.journal.log| + 1;
      Step(Mailed(h, w, c, New(c), Queue(w), Awaiting, Trail(h, w, New(c)), n), PowerLoss(n)) == Broken(h, w, c)
  {
    var n := |w.journal.log| + 1;
    var v := Mailed(h, w, c, New(c), Queue(w), Awaiting, Trail(h, w, New(c)), n);
    assert v.journal.log[..n] == w.journal.log + [PutSend(New(c))];
    assert CutAll(v).calls == Broken(h, w, c).calls;
  }

  /** Hand over, then lose power: the message is out, the count is gone. */
  lemma LoseOne(h: Hour, w: Server, c: nat)
    requires Rest(w, c) && RoomIn(h, w.caps, w.journal.Now())
    ensures Exec(w, Losing(h, w, c)) == Broken(h, w, c)
  {
    RunAttempt(h, w, c, New(c));
    Extend(w, Attempt(h, c, New(c)), PowerLoss(|w.journal.log| + 1));
    StepLoss(h, w, c);
  }

  lemma BrokenRests(h: Hour, w: Server, c: nat)
    requires Rest(w, c)
    ensures Rest(Broken(h, w, c), c + 1) && Broken(h, w, c).journal.Now().rates == w.journal.Now().rates
  {
    AfterSend(w, New(c));
    assert Broken(h, w, c).journal.Now() == After(w, [PutSend(New(c))]);
  }

  /** Hand over and see it through. */
  lemma CompleteOne(h: Hour, w: Server, c: nat)
    requires Rest(w, c) && RoomIn(h, w.caps, w.journal.Now())
    ensures Exec(w, Completing(h, c)) == Whole(h, w, c)
  {
    RunAttempt(h, w, c, New(c));
    RunSettles(h, w, c, New(c), |w.journal.log| + 1, Trail(h, w, New(c)));
    ExecSplit(w, Attempt(h, c, New(c)), Settles(c));
  }

  lemma WholeTables(h: Hour, w: Server, c: nat)
    ensures Whole(h, w, c).journal.Now() == Apply(After(w, Trail(h, w, New(c))), Row(New(c)))
  {
    AfterMore(w, Trail(h, w, New(c)), Row(New(c)));
    assert Whole(h, w, c).journal.Now() == After(w, Trail(h, w, New(c)) + [Row(New(c))]);
  }

  lemma WholeRests(h: Hour, w: Server, c: nat)
    requires Rest(w, c)
    ensures Rest(Whole(h, w, c), c + 1)
    ensures Rate(Whole(h, w, c).journal.Now(), HourBucket(h)) == Rate(w.journal.Now(), HourBucket(h)) + 1
    ensures Rate(Whole(h, w, c).journal.Now(), DayBucket(h.day)) == Rate(w.journal.Now(), DayBucket(h.day)) + 1
    ensures OtherWindows(h, w.journal.Now(), Whole(h, w, c).journal.Now())
  {
    WholeTables(h, w, c);
    AfterTrail(h, w, New(c));
    ReaderKey();
  }

  // ----- the tally of a window

  /** `x` is the class of hour `h` or of its day. */
  predicate Windowed(h: Hour, x: Class) { x == HourOf(h) || x == DayOf(h.day) }

  /** At rest with `sent` hand-offs in `x`, `lost` of them by calls ended before their ledger
  sync, and hour `h` and the day counted `hours` and `days` times. */
  ghost predicate Tally(h: Hour, w: Server, c: nat, x: Class, sent: nat, lost: nat, hours: nat, days: nat) {
    && Rest(w, c) && HandOffs(w.mail, x) == sent && |LostTrack(w, x)| == lost
    && Rate(w.journal.Now(), HourBucket(h)) == hours && Rate(w.journal.Now(), DayBucket(h.day)) == days
  }

  lemma BrokenLost(h: Hour, w: Server, c: nat, x: Class)
    requires Rest(w, c) && Windowed(h, x)
    ensures |LostTrack(Broken(h, w, c), x)| == |LostTrack(w, x)| + 1
  {
    assert LostTrack(Broken(h, w, c), x) == LostTrack(w, x) + {c};
  }

  lemma BrokenTally(h: Hour, w: Server, c: nat, x: Class, sent: nat, lost: nat, hours: nat, days: nat)
    requires Tally(h, w, c, x, sent, lost, hours, days) && Windowed(h, x)
    ensures Tally(h, Broken(h, w, c), c + 1, x, sent + 1, lost + 1, hours, days)
  {
    BrokenRests(h, w, c);
    BrokenLost(h, w, c, x);
    HandOffsAppend(w.mail, HandOff(New(c), ADDRESS, NowAt(h)), x);
  }

  lemma WholeTally(h: Hour, w: Server, c: nat, x: Class, sent: nat, lost: nat, hours: nat, days: nat)
    requires Tally(h, w, c, x, sent, lost, hours, days) && Windowed(h, x)
    ensures Tally(h, Whole(h, w, c), c + 1, x, sent + 1, lost, hours + 1, days + 1)
    ensures OtherWindows(h, w.journal.Now(), Whole(h, w, c).journal.Now())
  {
    WholeRests(h, w, c);
    assert LostTrack(Whole(h, w, c), x) == LostTrack(w, x);
    HandOffsAppend(w.mail, HandOff(New(c), ADDRESS, NowAt(h)), x);
  }

  lemma LoseMany(h: Hour, w: Server, c: nat, x: Class, n: nat, sent: nat, lost: nat, hours: nat, days: nat)
    returns (es: seq<Event>)
    requires Tally(h, w, c, x, sent, lost, hours, days) && Windowed(h, x) && hours < w.caps.hour && days < w.caps.day
    ensures Tally(h, Exec(w, es), c + n, x, sent + n, lost + n, hours, days) && Exec(w, es).caps == w.caps
    ensures Exec(w, es).journal.Now().rates == w.journal.Now().rates
    decreases n
  {
    es := [];
    if n > 0 {
      LoseOne(h, w, c);
      BrokenRests(h, w, c);
      BrokenTally(h, w, c, x, sent, lost, hours, days);
      var rest := LoseMany(h, Broken(h, w, c), c + 1, x, n - 1, sent + 1, lost + 1, hours, days);
      ExecSplit(w, Losing(h, w, c), rest);
      es := Losing(h, w, c) + rest;
    }
  }

  lemma CompleteMany(h: Hour, w: Server, c: nat, x: Class, n: nat, sent: nat, lost: nat, hours: nat, days: nat)
    returns (es: seq<Event>)
    requires Tally(h, w, c, x, sent, lost, hours, days) && Windowed(h, x)
    requires hours + n <= w.caps.hour && days + n <= w.caps.day
    ensures Tally(h, Exec(w, es), c + n, x, sent + n, lost, hours + n, days + n) && Exec(w, es).caps == w.caps
    ensures OtherWindows(h, w.journal.Now(), Exec(w, es).journal.Now())
    decreases n
  {
    es := [];
    if n > 0 {
      CompleteOne(h, w, c);
      WholeTally(h, w, c, x, sent, lost, hours, days);
      var rest := CompleteMany(h, Whole(h, w, c), c + 1, x, n - 1, sent + 1, lost, hours + 1, days + 1);
      ExecSplit(w, Completing(h, c), rest);
      es := Completing(h, c) + rest;
    }
  }

  lemma OpenedTally(h: Hour, caps: Caps, x: Class)
    ensures Tally(h, Opened(caps), 0, x, 0, 0, 0, 0)
  {
    assert LostTrack(Opened(caps), x) == {};
  }

  /** The bound on an hour's hand-offs is met with equality: for all valid caps, every hour and
  every number of lost calls there is a run that hands over exactly that many beyond the cap. */
  lemma CapBoundIsTight(caps: Caps, h: Hour, n: nat)
    requires Issuable(caps)
    ensures exists es ::
      && HandOffs(Exec(Opened(caps), es).mail, HourOf(h)) == caps.hour + n
      && |LostTrack(Exec(Opened(caps), es), HourOf(h))| == n
  {
    var x := HourOf(h);
    OpenedTally(h, caps, x);
    var xs := LoseMany(h, Opened(caps), 0, x, n, 0, 0, 0, 0);
    var ys := CompleteMany(h, Exec(Opened(caps), xs), n, x, caps.hour, n, n, 0, 0);
    ExecSplit(Opened(caps), xs, ys);
    assert HandOffs(Exec(Opened(caps), xs + ys).mail, x) == caps.hour + n;
  }

  // ----- a day, hour by hour

  /** The hours of day `d` from `h` on have not been counted in. */
  ghost predicate Untouched(d: Day, h: nat, t: Tables) {
    forall g: HourOfDay | h <= g :: Rate(t, HourBucket(Hour(d, g))) == 0
  }

  lemma HourLeft(h: nat, cap: nat, n: nat)
    requires h < 24 && n <= (24 - h) * cap
    ensures n - Plans.Min(n, cap) <= (23 - h) * cap && (h == 23 ==> n <= cap)
  {
    assert (24 - h) * cap == (23 - h) * cap + cap;
  }

  /** `n` more whole calls, as many an hour as its cap allows, from hour `h` on. */
  lemma FillDay(d: Day, h: HourOfDay, w: Server, c: nat, n: nat, sent: nat, lost: nat, days: nat)
    returns (es: seq<Event>)
    requires Tally(Hour(d, h), w, c, DayOf(d), sent, lost, 0, days) && Untouched(d, h, w.journal.Now())
    requires n <= (24 - h) * w.caps.hour && days + n <= w.caps.day
    ensures HandOffs(Exec(w, es).mail, DayOf(d)) == sent + n && |LostTrack(Exec(w, es), DayOf(d))| == lost
    decreases 24 - h
  {
    var m := Plans.Min(n, w.caps.hour);
    HourLeft(h, w.caps.hour, n);
    es := CompleteMany(Hour(d, h), w, c, DayOf(d), m, sent, lost, 0, days);
    if h < 23 {
      var v := Exec(w, es);
      assert Tally(Hour(d, h + 1), v, c + m, DayOf(d), sent + m, lost, 0, days + m);
      var rest := FillDay(d, h + 1, v, c + m, n - m, sent + m, lost, days + m);
      ExecSplit(w, es, rest);
      es := es + rest;
    }
  }

  lemma {:induction false} HoursAtMost(t: Tables, d: Day, n: nat, cap: nat)
    requires n <= 24 && forall h: HourOfDay :: Rate(t, HourBucket(Hour(d, h))) <= cap
    ensures HoursOf(t, d, n) <= n * cap
    decreases n
  {
    if n > 0 {
      HoursAtMost(t, d, n - 1, cap);
      assert n * cap == (n - 1) * cap + cap;
    }
  }

  /** By how much the count of a day exceeds those of its hours. */
  function Excess(t: Tables, d: Day): nat { Plans.Room(Rate(t, DayBucket(d)), HoursOf(t, d, 24)) }

  /** A day hands over no more than its own cap and its 24 hours' caps allow, plus what the store
  started with beyond its hours, plus the lost calls ... */
  lemma DayBound(w: Server, es: seq<Event>, d: Day)
    requires Init(w)
    ensures HandOffs(Exec(w, es).mail, DayOf(d)) <=
              Plans.Min(w.caps.day, 24 * w.caps.hour + Excess(w.journal.base, d)) + |LostTrack(Exec(w, es), DayOf(d))|
  {
    HandOffsWithinCount(w, es, DayOf(d));
    CountersWithinCaps(w, es, DayBucket(d));
    DayWithinHours(w, es, d);
    forall h: HourOfDay
      ensures Rate(Exec(w, es).journal.Now(), HourBucket(Hour(d, h))) <= w.caps.hour
    {
      CountersWithinCaps(w, es, HourBucket(Hour(d, h)));
    }
    HoursAtMost(Exec(w, es).journal.Now(), d, 24, w.caps.hour);
  }

  /** ... and from a store that has counted nothing, for all valid caps, every day and every number of lost
  calls, some run hands over exactly that many. */
  lemma DayBoundIsTight(caps: Caps, d: Day, n: nat)
    requires Issuable(caps)
    ensures exists es ::
      && HandOffs(Exec(Opened(caps), es).mail, DayOf(d)) == Plans.Min(caps.day, 24 * caps.hour) + n
      && |LostTrack(Exec(Opened(caps), es), DayOf(d))| == n
  {
    var m := Plans.Min(caps.day, 24 * caps.hour);
    OpenedTally(Hour(d, 0), caps, DayOf(d));
    var xs := LoseMany(Hour(d, 0), Opened(caps), 0, DayOf(d), n, 0, 0, 0, 0);
    assert Untouched(d, 0, Opened(caps).journal.Now());
    var ys := FillDay(d, 0, Exec(Opened(caps), xs), n, m, n, n, 0);
    ExecSplit(Opened(caps), xs, ys);
    assert HandOffs(Exec(Opened(caps), xs + ys).mail, DayOf(d)) == m + n;
  }

  // ----- one recipient, again and again

  const AGAIN := RecipientOf(0, ADDRESS)

  /** Issue 0 is on record, its reader has been sent it `n` times and is not in its ledger; each time the
  call ended before its ledger sync, and no other call was interrupted. */
  ghost predicate Knocked(h: Hour, w: Server, c: nat, n: nat) {
    && Resumable(h, w, c, New(0)) && w.journal.synced == |w.journal.log|
    && (forall d | d in w.calls :: d < c && Ended(w.calls[d].pc))
    && HandOffs(w.mail, AGAIN) == n && |LostTrack(w, AGAIN)| == n && LostTrack(w, AGAIN) == Interrupted(w, AGAIN)
  }

  function Missed(h: Hour, w: Server, c: nat): Server {
    Mailed(h, w, c, New(0), Queue(w), Cut(true), [], |w.journal.log|)
  }

  function Missing(h: Hour, w: Server, c: nat): seq<Event> { Again(h, c, New(0)) + [PowerLoss(|w.journal.log|)] }

  lemma MissStep(h: Hour, w: Server, c: nat)
    requires forall d | d in w.calls :: Ended(w.calls[d].pc)
    ensures var n := |w.journal.log|;
      Step(Mailed(h, w, c, New(0), Queue(w), Awaiting, Counted(h, w.journal.Now()), n), PowerLoss(n)) == Missed(h, w, c)
  {
    var n := |w.journal.log|;
    var v := Mailed(h, w, c, New(0), Queue(w), Awaiting, Counted(h, w.journal.Now()), n);
    assert v.journal.log[..n] == w.journal.log && w.journal.log + [] == w.journal.log;
    assert CutAll(v).calls == Missed(h, w, c).calls;
  }

  lemma MissOne(h: Hour, w: Server, c: nat, n: nat)
    requires Knocked(h, w, c, n)
    ensures Exec(w, Missing(h, w, c)) == Missed(h, w, c) && Serial(w, Missing(h, w, c), 0)
  {
    RunAgain(h, w, c, New(0));
    Extend(w, Again(h, c, New(0)), PowerLoss(|w.journal.log|));
    MissStep(h, w, c);
    SerialHead(w, Missing(h, w, c), 0);
  }

  /** It counts among the lost, and the lost are still all the interrupted ones. */
  lemma MissedLost(h: Hour, w: Server, c: nat, n: nat)
    requires Knocked(h, w, c, n)
    ensures var v := Missed(h, w, c); |LostTrack(v, AGAIN)| == n + 1 && LostTrack(v, AGAIN) == Interrupted(v, AGAIN)
  {
    var v := Missed(h, w, c);
    ReaderKey();
    assert LostTrack(v, AGAIN) == LostTrack(w, AGAIN) + {c} && Interrupted(v, AGAIN) == Interrupted(w, AGAIN) + {c};
  }

  lemma MissedSame(h: Hour, w: Server, c: nat)
    requires w.journal.synced == |w.journal.log|
    ensures Missed(h, w, c).journal == w.journal
    ensures HandOffs(Missed(h, w, c).mail, AGAIN) == HandOffs(w.mail, AGAIN) + 1
  {
    AfterNone(w);
    HandOffsAppend(w.mail, HandOff(New(0), ADDRESS, NowAt(h)), AGAIN);
  }

  lemma MissedKnocked(h: Hour, w: Server, c: nat, n: nat)
    requires Knocked(h, w, c, n)
    ensures Knocked(h, Missed(h, w, c), c + 1, n + 1)
  {
    MissedSame(h, w, c);
    MissedLost(h, w, c, n);
  }

  lemma {:induction false} MissMany(h: Hour, w: Server, c: nat, n: nat, more: nat) returns (es: seq<Event>)
    requires Knocked(h, w, c, n)
    ensures Knocked(h, Exec(w, es), c + more, n + more) && Serial(w, es, 0)
    decreases more
  {
    es := [];
    if more > 0 {
      MissOne(h, w, c, n);
      MissedKnocked(h, w, c, n);
      var rest := MissMany(h, Missed(h, w, c), c + 1, n + 1, more - 1);
      ExecSplit(w, Missing(h, w, c), rest);
      SerialAppend(w, Missing(h, w, c), rest, 0);
      es := Missing(h, w, c) + rest;
    }
  }

  lemma FirstMiss(h: Hour, caps: Caps)
    requires Issuable(caps)
    ensures Serial(Opened(caps), Losing(h, Opened(caps), 0), 0)
    ensures Knocked(h, Exec(Opened(caps), Losing(h, Opened(caps), 0)), 1, 1)
  {
    var w := Opened(caps);
    OpenedTally(h, caps, AGAIN);
    LoseOne(h, w, 0);
    SerialHead(w, Losing(h, w, 0), 0);
    var v := Broken(h, w, 0);
    AfterSend(w, New(0));
    ReaderKey();
    assert v.journal.Now() == After(w, [PutSend(New(0))]);
    assert LostTrack(v, AGAIN) == {0} && Interrupted(v, AGAIN) == {0};
    HandOffsAppend(w.mail, HandOff(New(0), ADDRESS, NowAt(h)), AGAIN);
  }

  lemma LastInterrupts(h: Hour, w: Server, c: nat, n: nat, extra: seq<Record>)
    requires Knocked(h, w, c, n)
    ensures Interrupted(Mailed(h, w, c, New(0), [], Done, extra, |w.journal.log| + |extra|), AGAIN) ==
              Interrupted(w, AGAIN)
  {}

  lemma LastTime(h: Hour, w: Server, c: nat, n: nat) returns (es: seq<Event>)
    requires Knocked(h, w, c, n)
    ensures var v := Exec(w, es); HandOffs(v.mail, AGAIN) == n + 1 && |Interrupted(v, AGAIN)| == n
    ensures Serial(w, es, 0)
  {
    es := Again(h, c, New(0)) + Settles(c);
    RunAgain(h, w, c, New(0));
    RunSettles(h, w, c, New(0), w.journal.synced, Counted(h, w.journal.Now()));
    ExecSplit(w, Again(h, c, New(0)), Settles(c));
    SerialHead(w, es, 0);
    LastInterrupts(h, w, c, n, Counted(h, w.journal.Now()) + [Row(New(0))]);
    HandOffsAppend(w.mail, HandOff(New(0), ADDRESS, NowAt(h)), AGAIN);
  }

  lemma OnlyTime(h: Hour, caps: Caps) returns (es: seq<Event>)
    requires Issuable(caps)
    ensures var v := Exec(Opened(caps), es); HandOffs(v.mail, AGAIN) == 1 && Interrupted(v, AGAIN) == {}
    ensures Serial(Opened(caps), es, 0)
  {
    var w := Opened(caps);
    es := Completing(h, 0);
    OpenedTally(h, caps, AGAIN);
    CompleteOne(h, w, 0);
    SerialHead(w, es, 0);
    HandOffsAppend(w.mail, HandOff(New(0), ADDRESS, NowAt(h)), AGAIN);
  }

  /** The bound of `AtMostOnce` is met with equality: for all valid caps and every `n` there is a run without
  overlapping calls that interrupts `n` calls and hands one recipient 1 + `n` messages of one send. */
  lemma AtMostOnceIsTight(caps: Caps, h: Hour, n: nat)
    requires Issuable(caps)
    ensures exists es ::
      && Serial(Opened(caps), es, 0)
      && HandOffs(Exec(Opened(caps), es).mail, RecipientOf(0, ADDRESS)) == 1 + n
      && |Interrupted(Exec(Opened(caps), es), RecipientOf(0, ADDRESS))| == n
  {
    var w := Opened(caps);
    var es;
    if n == 0 {
      es := OnlyTime(h, caps);
    } else {
      FirstMiss(h, caps);
      var xs := Losing(h, w, 0);
      var ys := MissMany(h, Exec(w, xs), 1, 1, n - 1);
      var zs := LastTime(h, Exec(Exec(w, xs), ys), n, n);
      ExecSplit(Exec(w, xs), ys, zs);
      SerialAppend(Exec(w, xs), ys, zs, 0);
      ExecSplit(w, xs, ys + zs);
      SerialAppend(w, xs, ys + zs, 0);
      es := xs + (ys + zs);
    }
    assert Serial(w, es, 0) && HandOffs(Exec(w, es).mail, AGAIN) == 1 + n;
  }
}
