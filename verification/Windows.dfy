/** The hour and day counters over a run: they only lose what a power loss may
take, a refusal is final exactly when the count behind it is durable, and a
day never counts more than its hours. */
module Windows {
  import opened Records
  import opened Journals
  import opened Protocol
  import opened Frames
  import opened Budgets

  // ----- counters only grow along the journal

  predicate NoLower(t: Tables, t': Tables, b: Bucket) {
    Rate(t, b) <= Rate(t', b)
  }

  /** Along the part of the journal that a power loss can cut, counts never fall. */
  ghost predicate Rising(w: Server, b: Bucket) {
    forall p: nat, q: nat | w.journal.synced <= p <= q <= |w.journal.log| ::
      NoLower(w.journal.View(p), w.journal.View(q), b)
  }

  lemma RisingGrows(w: Server, w': Server, b: Bucket)
    requires w.journal.Valid() && Rising(w, b) && Grows(w.journal, w'.journal)
    requires NoLower(w.journal.Now(), w'.journal.Now(), b)
    ensures Rising(w', b) && NoLower(Mark(w.journal), Mark(w'.journal), b)
  {
    GrownViews(w.journal, w'.journal);
    var n := |w.journal.log|;
    forall p: nat, q: nat | w'.journal.synced <= p <= q <= |w'.journal.log|
      ensures NoLower(w'.journal.View(p), w'.journal.View(q), b)
    {
      if p <= n < q {
        assert NoLower(w.journal.View(p), w.journal.View(n), b);
      }
    }
    if w'.journal.synced <= n {
      assert NoLower(w.journal.View(w.journal.synced), w.journal.View(w'.journal.synced), b);
    } else {
      assert NoLower(w.journal.View(w.journal.synced), w.journal.View(n), b);
    }
  }

  lemma RisingInsert(w: Server, w': Server, c: nat, r: Record, io: WriteIo, pc: Pc, b: Bucket)
    requires w.journal.Valid() && InsertMove(w, w', c, r, io, pc)
    requires r.PutRate? ==> Rate(w.journal.Now(), r.bucket) <= r.count
    ensures Grows(w.journal, w'.journal) && NoLower(w.journal.Now(), w'.journal.Now(), b)
  {
    WriteGrows(w.journal, r, io);
  }

  lemma CallNoLower(w: Server, c: nat, act: Act, b: Bucket)
    requires BaseInv(w) && c in w.calls
    ensures var w' := CallStep(w, c, w.calls[c], act);
      Grows(w.journal, w'.journal) && NoLower(w.journal.Now(), w'.journal.Now(), b)
  {
    var k := w.calls[c];
    if Quiet(act) {
      QuietCall(w, c, act);
    } else if Inserts(k, act) {
      assert HoldsLock(k.pc) ==> LockOk(w, c, k);
      InsertCall(w, c, act);
      RisingInsert(w, CallStep(w, c, k, act), c, InsertedRecord(k, act), act.io, InsertedPc(k, act), b);
    } else if !act.HandOver? {
      IdleCall(w, c, act);
    }
  }

  lemma StepNoLower(w: Server, e: Event, b: Bucket)
    requires BaseInv(w) && !e.PowerLoss?
    ensures Grows(w.journal, Step(w, e).journal) && NoLower(w.journal.Now(), Step(w, e).journal.Now(), b)
  {
    BaseNow(w);
    if e.Resolve? {
      ResolveFrame(w, e);
    } else if e.OfCall? {
      if e.call in w.calls { CallNoLower(w, e.call, e.act, b); }
    } else if Aside(e) {
      AsideFrame(w, e);
    }
  }

  lemma RisingStep(w: Server, e: Event, b: Bucket)
    requires BaseInv(w) && Rising(w, b)
    ensures BaseInv(Step(w, e)) && Rising(Step(w, e), b) && NoLower(Mark(w.journal), Mark(Step(w, e).journal), b)
  {
    BaseStep(w, e);
    if !e.PowerLoss? {
      StepNoLower(w, e, b);
      RisingGrows(w, Step(w, e), b);
    } else if w.journal.synced <= e.keep <= |w.journal.log| {
      RisingCrash(w, e.keep, b);
    }
  }

  lemma RisingCrash(w: Server, keep: nat, b: Bucket)
    requires Rising(w, b) && w.journal.synced <= keep <= |w.journal.log|
    ensures var w' := Step(w, PowerLoss(keep)); Rising(w', b) && NoLower(Mark(w.journal), Mark(w'.journal), b)
  {
    RecoverViews(w.journal, keep);
    assert NoLower(w.journal.View(w.journal.synced), w.journal.View(keep), b);
  }

  lemma RisingRun(w: Server, es: seq<Event>, b: Bucket)
    requires Init(w)
    ensures BaseInv(Exec(w, es)) && Rising(Exec(w, es), b)
    decreases |es|
  {
    if es == [] {
      BaseRun(w, es);
    } else {
      var n := |es| - 1;
      RisingRun(w, es[..n], b);
      RisingStep(Exec(w, es[..n]), es[n], b);
    }
  }

  lemma DurableRises(w: Server, es: seq<Event>, b: Bucket)
    requires BaseInv(w) && Rising(w, b)
    ensures BaseInv(Exec(w, es)) && Rising(Exec(w, es), b) && NoLower(Mark(w.journal), Mark(Exec(w, es).journal), b)
    decreases |es|
  {
    if es != [] {
      var n := |es| - 1;
      DurableRises(w, es[..n], b);
      RisingStep(Exec(w, es[..n]), es[n], b);
    }
  }

  /** A window that is full stays full along every continuation, power losses
  included, exactly when its durable count is already at the cap. */
  lemma RefusalFinal(w: Server, xs: seq<Event>, b: Bucket)
    requires Init(w)
    ensures Exec(w, xs).journal.Valid()
    ensures (forall ys :: Rate(Exec(Exec(w, xs), ys).journal.Now(), b) == Cap(w.caps, b))
       <==> Rate(Mark(Exec(w, xs).journal), b) == Cap(w.caps, b)
  {
    var v := Exec(w, xs);
    RisingRun(w, xs, b);
    CapsFixed(w, xs);
    if Rate(Mark(v.journal), b) == Cap(w.caps, b) {
      forall ys
        ensures Rate(Exec(v, ys).journal.Now(), b) == Cap(w.caps, b)
      {
        var u := Exec(v, ys);
        DurableRises(v, ys, b);
        FullView(u.journal);
        assert NoLower(u.journal.View(u.journal.synced), u.journal.View(|u.journal.log|), b);
        CapsFixed(v, ys);
        BaseNow(u);
      }
    } else {
      LossShowsDurable(v);
      assert Rate(Exec(v, [PowerLoss(v.journal.synced)]).journal.Now(), b) != Cap(w.caps, b);
    }
  }

  lemma LossShowsDurable(v: Server)
    requires v.journal.Valid()
    ensures Exec(v, [PowerLoss(v.journal.synced)]).journal.Now() == Mark(v.journal)
  {
    var loss := [PowerLoss(v.journal.synced)];
    RecoverViews(v.journal, v.journal.synced);
    assert loss[..|loss| - 1] == [];
    assert Exec(v, loss) == Step(v, loss[0]);
  }

  /** Without a power loss no count ever falls, so a refusal is final. */
  lemma CountNeverFalls(w: Server, xs: seq<Event>, ys: seq<Event>, b: Bucket)
    requires Init(w) && forall i | 0 <= i < |ys| :: !ys[i].PowerLoss?
    ensures Rate(Exec(w, xs).journal.Now(), b) <= Rate(Exec(Exec(w, xs), ys).journal.Now(), b)
    decreases |ys|
  {
    if ys != [] {
      var front, last := ys[..|ys| - 1], ys[|ys| - 1];
      CountNeverFalls(w, xs, front, b);
      var v := Exec(Exec(w, xs), front);
      assert BaseInv(v) by {
        ExecSplit(w, xs, front);
        BaseRun(w, xs + front);
      }
      StepNoLower(v, last, b);
      assert Exec(Exec(w, xs), ys) == Step(v, last);
    }
  }

  // ----- a day and its hours

  function HoursOf(t: Tables, d: Day, n: nat): nat
    requires n <= 24
  {
    if n == 0 then 0 else HoursOf(t, d, n - 1) + Rate(t, HourBucket(Hour(d, n - 1)))
  }

  /** From `base` to `t` the count of the day has risen by no more than those of its hours together,
  `torn` of them being ahead. */
  predicate DayRise(base: Tables, t: Tables, d: Day, torn: nat) {
    Rate(t, DayBucket(d)) + torn + HoursOf(base, d, 24) <= HoursOf(t, d, 24) + Rate(base, DayBucket(d))
  }

  /** Calls that have counted the hour and not yet the day. */
  function Torn(w: Server, d: Day): set<nat> {
    set c | c in w.calls && w.calls[c].pc.HourWritten? && w.calls[c].now.hour.day == d
  }

  ghost predicate DayInv(w: Server, d: Day) {
    && AllViews(w.journal, t => DayRise(w.journal.base, t, d, 0))
    && DayRise(w.journal.base, w.journal.Now(), d, |Torn(w, d)|)
  }

  lemma HoursUnchanged(t: Tables, t': Tables, d: Day, n: nat)
    requires n <= 24
    requires forall h | h in t.rates.Keys + t'.rates.Keys && h.HourBucket? && h.hour.day == d ::
               Rate(t, h) == Rate(t', h)
    ensures HoursOf(t', d, n) == HoursOf(t, d, n)
  {
    if n > 0 { HoursUnchanged(t, t', d, n - 1); }
  }

  lemma HoursPut(t: Tables, hour: Hour, d: Day, n: nat)
    requires n <= 24
    ensures var t' := Apply(t, PutRate(HourBucket(hour), Rate(t, HourBucket(hour)) + 1));
      HoursOf(t', d, n) == HoursOf(t, d, n) + if hour.day == d && hour.hour < n then 1 else 0
  {
    if n > 0 { HoursPut(t, hour, d, n - 1); }
  }

  lemma TornMove(calls: map<nat, Call>, w: Server, w': Server, c: nat, d: Day)
    requires calls == w.calls && c in calls && c in w'.calls && w'.calls == calls[c := w'.calls[c]]
    ensures Torn(w', d) ==
              if w'.calls[c].pc.HourWritten? && w'.calls[c].now.hour.day == d then Torn(w, d) + {c}
              else Torn(w, d) - {c}
  {}

  lemma DayGrows(w: Server, w': Server, d: Day)
    requires w.journal.Valid() && DayInv(w, d) && Grows(w.journal, w'.journal)
    requires DayRise(w.journal.base, w'.journal.Now(), d, |Torn(w', d)|)
    ensures DayInv(w', d)
  {
    GrownAllViews(w.journal, w'.journal, t => DayRise(w.journal.base, t, d, 0));
  }

  lemma DaySameRates(w: Server, w': Server, d: Day)
    requires w.journal.Valid() && DayInv(w, d) && Grows(w.journal, w'.journal)
    requires w'.journal.Now().rates == w.journal.Now().rates && |Torn(w', d)| <= |Torn(w, d)|
    ensures DayInv(w', d)
  {
    HoursUnchanged(w.journal.Now(), w'.journal.Now(), d, 24);
    DayGrows(w, w', d);
  }

  lemma DayWriteHour(w: Server, c: nat, io: WriteIo, d: Day)
    requires BaseInv(w) && DayInv(w, d) && c in w.calls && w.calls[c].pc.BothRead?
    ensures DayInv(WriteHourStep(w, c, w.calls[c], io), d)
  {
    var k := w.calls[c];
    var w' := WriteHourStep(w, c, k, io);
    assert LockOk(w, c, k);
    InsertHour(w, c, io);
    WriteGrows(w.journal, PutRate(HourBucket(k.now.hour), k.pc.hourCount + 1), io);
    HoursPut(w.journal.Now(), k.now.hour, d, 24);
    TornMove(w.calls, w, w', c, d);
    DayGrows(w, w', d);
  }

  lemma DayWriteDay(w: Server, c: nat, io: WriteIo, d: Day)
    requires BaseInv(w) && DayInv(w, d) && c in w.calls && w.calls[c].pc.HourWritten?
    ensures DayInv(WriteDayStep(w, c, w.calls[c], io), d)
  {
    var k := w.calls[c];
    var w' := WriteDayStep(w, c, k, io);
    var t := w.journal.Now();
    assert LockOk(w, c, k);
    InsertDay(w, c, io);
    WriteGrows(w.journal, PutRate(DayBucket(k.now.hour.day), k.pc.dayCount + 1), io);
    HoursUnchanged(t, w'.journal.Now(), d, 24);
    TornMove(w.calls, w, w', c, d);
    DayGrows(w, w', d);
  }

  predicate Counting(act: Act) { act.WriteHour? || act.WriteDay? }

  /** A step of a call that writes no counter. */

  lemma UncountedCall(w: Server, c: nat, act: Act, d: Day)
    requires w.journal.Valid() && c in w.calls && !Counting(act)
    ensures var w' := CallStep(w, c, w.calls[c], act);
      && Grows(w.journal, w'.journal) && w'.journal.Now().rates == w.journal.Now().rates
      && Torn(w', d) == Torn(w, d)
  {
    var k := w.calls[c];
    if Quiet(act) {
      QuietCall(w, c, act);
      QuietKeepsTorn(w, c, act, d);
    } else if Inserts(k, act) {
      InsertCall(w, c, act);
      WriteGrows(w.journal, InsertedRecord(k, act), act.io);
      TornMove(w.calls, w, CallStep(w, c, k, act), c, d);
    } else if act.HandOver? {
      if k.pc.Mailing? && k.queue != [] { TornMove(w.calls, w, HandOverStep(w, c, k), c, d); }
    } else {
      IdleCall(w, c, act);
    }
  }

  lemma QuietKeepsTorn(w: Server, c: nat, act: Act, d: Day)
    requires c in w.calls && Quiet(act)
    ensures Torn(CallStep(w, c, w.calls[c], act), d) == Torn(w, d)
  {
    var k := w.calls[c];
    QuietCall(w, c, act);
    TornMove(w.calls, w, CallStep(w, c, k, act), c, d);
    if k.pc.HourWritten? {
      assert CallStep(w, c, k, act) == w;
    }
  }

  lemma DayCall(w: Server, c: nat, act: Act, d: Day)
    requires BaseInv(w) && DayInv(w, d) && c in w.calls
    ensures DayInv(CallStep(w, c, w.calls[c], act), d)
  {
    if !Counting(act) {
      UncountedCall(w, c, act, d);
      DaySameRates(w, CallStep(w, c, w.calls[c], act), d);
    } else if act.WriteHour? {
      if w.calls[c].pc.BothRead? { DayWriteHour(w, c, act.io, d); }
    } else {
      if w.calls[c].pc.HourWritten? { DayWriteDay(w, c, act.io, d); }
    }
  }

  lemma DayStep(w: Server, e: Event, d: Day)
    requires BaseInv(w) && DayInv(w, d)
    ensures DayInv(Step(w, e), d)
  {
    BaseNow(w);
    var w' := Step(w, e);
    if e.Resolve? {
      ResolveFrame(w, e);
      assert Torn(w', d) == Torn(w, d);
      DaySameRates(w, w', d);
    } else if e.OfCall? {
      if e.call in w.calls { DayCall(w, e.call, e.act, d); }
    } else if Aside(e) {
      AsideFrame(w, e);
      assert Torn(w', d) == Torn(w, d);
      DaySameRates(w, w', d);
    } else {
      DayCrash(w, e, d);
    }
  }

  lemma DayCrash(w: Server, e: Event, d: Day)
    requires BaseInv(w) && DayInv(w, d) && (e.Kill? || e.PowerLoss?)
    ensures DayInv(Step(w, e), d)
  {
    if e.Kill? {
      assert Torn(Step(w, e), d) == {};
    } else if w.journal.synced <= e.keep <= |w.journal.log| {
      RecoverViews(w.journal, e.keep);
      assert Torn(Step(w, e), d) == {};
      assert DayRise(w.journal.base, w.journal.View(e.keep), d, 0);
    }
  }

  /** In every run a day's counter rises by at most what its 24 hour counters rise together, up to
  the tables as they stand and to every state a power loss could recover. So it stays within
  their sum if it started within. */
  lemma DayWithinHours(w: Server, es: seq<Event>, d: Day)
    requires Init(w)
    ensures var j := Exec(w, es).journal;
            j.Valid() && j.base == w.journal.base && AllViews(j, t => DayRise(w.journal.base, t, d, 0))
    ensures DayRise(w.journal.base, Exec(w, es).journal.Now(), d, 0)
    ensures Rate(w.journal.base, DayBucket(d)) <= HoursOf(w.journal.base, d, 24) ==>
              Rate(Exec(w, es).journal.Now(), DayBucket(d)) <= HoursOf(Exec(w, es).journal.Now(), d, 24)
  {
    DayRun(w, es, d);
  }

  lemma {:induction false} DayRun(w: Server, es: seq<Event>, d: Day)
    requires Init(w)
    ensures BaseInv(Exec(w, es)) && DayInv(Exec(w, es), d) && Exec(w, es).journal.base == w.journal.base
    decreases |es|
  {
    BaseRun(w, es);
    if es == [] {
      FullView(w.journal);
      assert Torn(w, d) == {};
    } else {
      var n := |es| - 1;
      DayRun(w, es[..n], d);
      DayStep(Exec(w, es[..n]), es[n], d);
      StepHistory(Exec(w, es[..n]), es[n]);
    }
  }

  // ----- and exactly the sum while nothing fails

  /** No counter write fails and nothing crashes. */
  predicate Smooth(e: Event) {
    && !e.Kill? && !e.PowerLoss?
    && (e.OfCall? && e.act.WriteHour? ==> e.act.io.Written?)
    && (e.OfCall? && e.act.WriteDay? ==> e.act.io.Written?)
  }

  ghost predicate DayExact(w: Server, d: Day) {
    var base, t := w.journal.base, w.journal.Now();
    Rate(t, DayBucket(d)) + |Torn(w, d)| + HoursOf(base, d, 24) == HoursOf(t, d, 24) + Rate(base, DayBucket(d))
  }

  lemma ExactSameRates(w: Server, w': Server, d: Day)
    requires DayExact(w, d) && w'.journal.base == w.journal.base && w'.journal.Now().rates == w.journal.Now().rates
    requires Torn(w', d) == Torn(w, d)
    ensures DayExact(w', d)
  {
    HoursUnchanged(w.journal.Now(), w'.journal.Now(), d, 24);
  }

  lemma ExactWriteHour(w: Server, c: nat, d: Day)
    requires BaseInv(w) && DayExact(w, d) && c in w.calls && w.calls[c].pc.BothRead?
    ensures DayExact(WriteHourStep(w, c, w.calls[c], Written), d)
  {
    var k := w.calls[c];
    assert LockOk(w, c, k);
    InsertHour(w, c, Written);
    WriteGrows(w.journal, PutRate(HourBucket(k.now.hour), k.pc.hourCount + 1), Written);
    HoursPut(w.journal.Now(), k.now.hour, d, 24);
    TornMove(w.calls, w, WriteHourStep(w, c, k, Written), c, d);
  }

  lemma ExactWriteDay(w: Server, c: nat, d: Day)
    requires BaseInv(w) && DayExact(w, d) && c in w.calls && w.calls[c].pc.HourWritten?
    ensures DayExact(WriteDayStep(w, c, w.calls[c], Written), d)
  {
    var k := w.calls[c];
    var w' := WriteDayStep(w, c, k, Written);
    assert LockOk(w, c, k);
    InsertDay(w, c, Written);
    WriteGrows(w.journal, PutRate(DayBucket(k.now.hour.day), k.pc.dayCount + 1), Written);
    HoursUnchanged(w.journal.Now(), w'.journal.Now(), d, 24);
    TornMove(w.calls, w, w', c, d);
  }

  lemma ExactCall(w: Server, c: nat, act: Act, d: Day)
    requires BaseInv(w) && DayExact(w, d) && c in w.calls && Smooth(OfCall(c, act))
    ensures DayExact(CallStep(w, c, w.calls[c], act), d)
  {
    if !Counting(act) {
      UncountedCall(w, c, act, d);
      ExactSameRates(w, CallStep(w, c, w.calls[c], act), d);
    } else if act.WriteHour? {
      if w.calls[c].pc.BothRead? { ExactWriteHour(w, c, d); }
    } else {
      if w.calls[c].pc.HourWritten? { ExactWriteDay(w, c, d); }
    }
  }

  lemma ExactStep(w: Server, e: Event, d: Day)
    requires BaseInv(w) && DayExact(w, d) && Smooth(e)
    ensures DayExact(Step(w, e), d)
  {
    BaseNow(w);
    if e.Resolve? {
      ResolveFrame(w, e);
      assert Torn(Step(w, e), d) == Torn(w, d);
      ExactSameRates(w, Step(w, e), d);
    } else if e.OfCall? {
      if e.call in w.calls { ExactCall(w, e.call, e.act, d); }
    } else {
      AsideFrame(w, e);
      assert Torn(Step(w, e), d) == Torn(w, d);
      ExactSameRates(w, Step(w, e), d);
    }
  }

  /** While no counter write fails and nothing crashes, a day's counter rises by exactly what its
  hours' counters rise together, short only of reservations between their two inserts. */
  lemma {:induction false} DayEqualsHours(w: Server, es: seq<Event>, d: Day)
    requires Init(w) && forall i | 0 <= i < |es| :: Smooth(es[i])
    ensures Exec(w, es).journal.base == w.journal.base && DayExact(Exec(w, es), d)
    decreases |es|
  {
    if es == [] {
      assert Torn(w, d) == {};
    } else {
      var n := |es| - 1;
      DayEqualsHours(w, es[..n], d);
      BaseRun(w, es[..n]);
      ExactStep(Exec(w, es[..n]), es[n], d);
      StepHistory(Exec(w, es[..n]), es[n]);
    }
  }

  // ----- admitted reservations

  /** The step on which a reservation of day `d` is granted. */
  predicate Admits(w: Server, e: Event, d: Day) {
    && e.OfCall? && e.act == WriteDay(Written) && e.call in w.calls
    && w.calls[e.call].pc.HourWritten? && w.calls[e.call].now.hour.day == d
  }

  ghost function Admissions(w: Server, es: seq<Event>, d: Day): nat {
    if es == [] then 0
    else
      var front := es[..|es| - 1];
      Admissions(w, front, d) + if Admits(Exec(w, front), es[|es| - 1], d) then 1 else 0
  }

  lemma AdmitStep(w: Server, e: Event, d: Day)
    requires BaseInv(w) && Smooth(e)
    ensures Rate(Step(w, e).journal.Now(), DayBucket(d)) ==
              Rate(w.journal.Now(), DayBucket(d)) + if Admits(w, e, d) then 1 else 0
  {
    BaseNow(w);
    if e.Resolve? {
      ResolveFrame(w, e);
    } else if !e.OfCall? {
      AsideFrame(w, e);
    } else if e.call in w.calls {
      AdmitCall(w, e.call, e.act, d);
    }
  }

  lemma AdmitCall(w: Server, c: nat, act: Act, d: Day)
    requires BaseInv(w) && Smooth(OfCall(c, act)) && c in w.calls
    ensures Rate(CallStep(w, c, w.calls[c], act).journal.Now(), DayBucket(d)) ==
              Rate(w.journal.Now(), DayBucket(d)) + if Admits(w, OfCall(c, act), d) then 1 else 0
  {
    var k := w.calls[c];
    if !Counting(act) {
      UncountedCall(w, c, act, d);
    } else if act.WriteHour? {
      if k.pc.BothRead? { WriteGrows(w.journal, PutRate(HourBucket(k.now.hour), k.pc.hourCount + 1), act.io); }
    } else if k.pc.HourWritten? {
      assert LockOk(w, c, k);
      WriteGrows(w.journal, PutRate(DayBucket(k.now.hour.day), k.pc.dayCount + 1), act.io);
    }
  }

  /** While no counter write fails and nothing crashes, however the reservations interleave,
  a day's counter has risen by exactly the reservations granted on that day: none is lost
  to a rival and none is counted twice. */
  lemma {:induction false} AdmittedAreCounted(w: Server, es: seq<Event>, d: Day)
    requires Init(w) && forall i | 0 <= i < |es| :: Smooth(es[i])
    ensures Rate(Exec(w, es).journal.Now(), DayBucket(d)) == Rate(w.journal.Now(), DayBucket(d)) + Admissions(w, es, d)
    decreases |es|
  {
    if es != [] {
      var n := |es| - 1;
      AdmittedAreCounted(w, es[..n], d);
      BaseRun(w, es[..n]);
      AdmitStep(Exec(w, es[..n]), es[n], d);
    }
  }
}
