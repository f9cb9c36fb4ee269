/** Three promises the code keeps only under a condition, each with a run that
breaks it when the condition is dropped. */
module Counterexamples {
  import opened Records
  import opened Journals
  import opened Protocol
  import opened Budgets
  import opened Runs
  import opened Serials
  import opened Witnesses
  import opened Standings

  // ----- one id, two newsletters

  const S := Issue(0, "s")
  const T := Issue(0, "t")
  const HOUR := Hour(Day(2026, 8, 15), 18)

  /** `send_put` inserts the record and fails to sync it. */
  function FailsToSync(): seq<Event> {
    [Ask(HOUR, 0, S), OfCall(0, InsertSend(Written)), OfCall(0, SyncSend(false))]
  }

  function Retries(): seq<Event> { Again(HOUR, 1, S) }

  function Unsynced(caps: Caps): Server {
    Stage(HOUR, Opened(caps), 0, S, [], Cut(false), [PutSend(S)], 0, None)
  }

  lemma RunFailsToSync(caps: Caps)
    ensures Exec(Opened(caps), FailsToSync()) == Unsynced(caps)
  {
    var w, es := Opened(caps), FailsToSync();
    AfterNone(w);
    Two(w, es[0], es[1]);
    assert Step(w, es[0]) == Stage(HOUR, w, 0, S, [], Creating, [], 0, None);
    StepInsertSend(HOUR, w, 0, S, 0);
    Extend(w, [es[0], es[1]], es[2]);
    assert [es[0], es[1]] + [es[2]] == es;
  }

  function Retried(caps: Caps): Server {
    Mailed(HOUR, Unsynced(caps), 1, S, Queue(Unsynced(caps)), Awaiting, Counted(HOUR, After(Unsynced(caps), [])), 0)
  }

  lemma UnsyncedTables(caps: Caps)
    ensures Unsynced(caps).journal.Now() == Apply(Opened(caps).journal.Now(), PutSend(S))
    ensures After(Unsynced(caps), []) == Unsynced(caps).journal.Now()
  {
    AfterSend(Opened(caps), S);
    AfterNone(Unsynced(caps));
  }

  lemma RunRetries(caps: Caps)
    requires 1 <= caps.hour <= caps.day
    ensures Exec(Unsynced(caps), Retries()) == Retried(caps)
  {
    var w := Unsynced(caps);
    UnsyncedTables(caps);
    RunAgain(HOUR, w, 1, S);
  }

  function Blank(caps: Caps): Server {
    CutAll(Retried(caps)).(journal := Journal(Opened(caps).journal.base, [], 0))
  }

  lemma RunBlackout(caps: Caps)
    ensures Exec(Retried(caps), [PowerLoss(0)]) == Blank(caps)
    ensures forall c | c in Blank(caps).calls :: c < 2 && Ended(Blank(caps).calls[c].pc)
  {
    One(Retried(caps), PowerLoss(0));
  }

  function Forgets(): seq<Event> { FailsToSync() + Retries() + [PowerLoss(0)] }

  function TwoIssues(): seq<Event> { Forgets() + Attempt(HOUR, 2, T) }

  lemma RunForgets(caps: Caps)
    requires 1 <= caps.hour <= caps.day
    ensures Exec(Opened(caps), FailsToSync() + Retries()) == Retried(caps)
    ensures Exec(Opened(caps), Forgets()) == Blank(caps)
  {
    RunFailsToSync(caps);
    RunRetries(caps);
    RunBlackout(caps);
    ExecSplit(Opened(caps), FailsToSync(), Retries());
    ExecSplit(Opened(caps), FailsToSync() + Retries(), [PowerLoss(0)]);
  }

  lemma SerialForgets(caps: Caps)
    requires 1 <= caps.hour <= caps.day
    ensures Serial(Opened(caps), Forgets(), 0)
  {
    var w := Opened(caps);
    RunForgets(caps);
    RunFailsToSync(caps);
    SerialHead(w, FailsToSync(), 0);
    SerialHead(Unsynced(caps), Retries(), 0);
    SerialAppend(w, FailsToSync(), Retries(), 0);
    LossSerial(Retried(caps));
    SerialAppend(w, FailsToSync() + Retries(), [PowerLoss(0)], 0);
  }

  lemma SerialTwoIssues(caps: Caps)
    requires 1 <= caps.hour <= caps.day
    ensures Serial(Opened(caps), TwoIssues(), 0)
  {
    RunForgets(caps);
    SerialForgets(caps);
    RunBlackout(caps);
    SerialHead(Blank(caps), Attempt(HOUR, 2, T), 0);
    SerialAppend(Opened(caps), Forgets(), Attempt(HOUR, 2, T), 0);
  }

  lemma RunTwoIssues(caps: Caps)
    requires 1 <= caps.hour <= caps.day
    ensures Exec(Opened(caps), TwoIssues()).mail == [HandOff(S, ADDRESS, NowAt(HOUR)), HandOff(T, ADDRESS, NowAt(HOUR))]
  {
    RunForgets(caps);
    RunBlackout(caps);
    RunAttempt(HOUR, Blank(caps), 2, T);
    ExecSplit(Opened(caps), Forgets(), Attempt(HOUR, 2, T));
  }

  lemma LossSerial(w: Server)
    ensures Serial(w, [PowerLoss(0)], 0)
  {
    SerialRest(w, [PowerLoss(0)], 0);
  }

  /** A record whose sync failed is reused by the retry without being synced; a power
  loss then forgets it, and the same id goes out with other content. The calls do
  not overlap and the caps are any valid ones. */
  lemma OneIdTwoContents(caps: Caps)
    requires 1 <= caps.hour <= caps.day
    ensures Init(Opened(caps))
    ensures exists es, i, j ::
      && Serial(Opened(caps), es, 0)
      && 0 <= i < j < |Exec(Opened(caps), es).mail|
      && Exec(Opened(caps), es).mail[i].send.id == Exec(Opened(caps), es).mail[j].send.id == 0
      && Exec(Opened(caps), es).mail[i].key == Exec(Opened(caps), es).mail[j].key
      && Exec(Opened(caps), es).mail[i].send.subject != Exec(Opened(caps), es).mail[j].send.subject
  {
    OpenedInit(caps);
    RunTwoIssues(caps);
    SerialTwoIssues(caps);
    var mail := Exec(Opened(caps), TwoIssues()).mail;
    assert mail[0].send.subject == "s" && mail[1].send.subject == "t";
    assert 0 <= 0 < 1 < |mail| && mail[0].send.id == mail[1].send.id == 0 && mail[0].key == mail[1].key;
  }

  // ----- overlapping calls on one id

  function Halted(caps: Caps): Server {
    Stage(HOUR, Opened(caps), 0, S, Queue(Opened(caps)), Waiting, [PutSend(S)], 1, None)
  }

  function Overtakes(): seq<Event> { Again(HOUR, 1, S) + Settles(1) }

  function Overtaken(caps: Caps): Server {
    var v := Halted(caps);
    Mailed(HOUR, v, 1, S, [], Done, Counted(HOUR, v.journal.Now()) + [Row(S)], |v.journal.log| + 3)
  }

  lemma HaltedTables(caps: Caps)
    ensures Halted(caps).journal.Now() == Apply(Opened(caps).journal.Now(), PutSend(S))
    ensures After(Halted(caps), []) == Halted(caps).journal.Now()
  {
    AfterSend(Opened(caps), S);
    AfterNone(Halted(caps));
  }

  lemma RunOvertakes(caps: Caps)
    requires 2 <= caps.hour <= caps.day
    ensures Exec(Halted(caps), Overtakes()) == Overtaken(caps)
  {
    var v := Halted(caps);
    HaltedTables(caps);
    RunAgain(HOUR, v, 1, S);
    RunSettles(HOUR, v, 1, S, 1, Counted(HOUR, v.journal.Now()));
    ExecSplit(v, Again(HOUR, 1, S), Settles(1));
  }

  lemma OvertakenRates(caps: Caps)
    ensures Rate(Overtaken(caps).journal.Now(), HourBucket(HOUR)) == 1
    ensures Rate(Overtaken(caps).journal.Now(), DayBucket(HOUR.day)) == 1
  {
    var v := Halted(caps);
    var r := Counted(HOUR, v.journal.Now());
    HaltedTables(caps);
    AfterMore(v, [], r[0]);
    AfterMore(v, [r[0]], r[1]);
    AfterMore(v, r, Row(S));
    assert [] + [r[0]] == [r[0]] && [r[0]] + [r[1]] == r;
    assert Overtaken(caps).journal.Now() == After(v, r + [Row(S)]);
  }

  lemma RunResumes(caps: Caps)
    requires 2 <= caps.hour <= caps.day
    ensures var v := Exec(Overtaken(caps), Delivers(0));
      && v.mail == [HandOff(S, ADDRESS, NowAt(HOUR)), HandOff(S, ADDRESS, NowAt(HOUR))]
      && v.calls.Keys == {0, 1} && !v.calls[0].pc.Cut? && !v.calls[1].pc.Cut?
  {
    var v := Overtaken(caps);
    OvertakenRates(caps);
    AfterNone(v);
    assert v == Stage(HOUR, v, 0, S, Queue(v), Waiting, [], v.journal.synced, None);
    RunDelivers(HOUR, v, 0, S, v.journal.synced, []);
  }

  function Halts(): seq<Event> { Starts(HOUR, 0, S) + [OfCall(0, Check(true))] }

  function Overlap(): seq<Event> { Halts() + Overtakes() + Delivers(0) }

  lemma RunHalts(caps: Caps)
    requires 2 <= caps.hour <= caps.day
    ensures Exec(Opened(caps), Halts()) == Halted(caps)
  {
    OpenedInit(caps);
    RunQueues(HOUR, Opened(caps), 0, S);
  }

  lemma RunOverlap(caps: Caps)
    requires 2 <= caps.hour <= caps.day
    ensures Exec(Opened(caps), Overlap()) == Exec(Overtaken(caps), Delivers(0))
  {
    RunHalts(caps);
    RunOvertakes(caps);
    ExecSplit(Opened(caps), Halts(), Overtakes());
    ExecSplit(Opened(caps), Halts() + Overtakes(), Delivers(0));
  }

  lemma TwiceIsTwo(h: HandOff, x: Class)
    requires Mine(x, h)
    ensures HandOffs([h, h], x) == 2
  {
    HandOffsAppend([h], h, x);
    HandOffsAppend([], h, x);
    assert [h] + [h] == [h, h] && [] + [h] == [h];
  }

  /** Two overlapping calls on one id send the same recipient the same message twice,
  with nothing interrupted, lost or failing. */
  lemma OverlapSendsTwice(caps: Caps)
    requires 2 <= caps.hour <= caps.day
    ensures Init(Opened(caps))
    ensures var v := Exec(Opened(caps), Overlap());
      && HandOffs(v.mail, RecipientOf(0, ADDRESS)) == 2
      && Interrupted(v, RecipientOf(0, ADDRESS)) == {}
  {
    OpenedInit(caps);
    RunOverlap(caps);
    RunResumes(caps);
    TwiceIsTwo(HandOff(S, ADDRESS, NowAt(HOUR)), RecipientOf(0, ADDRESS));
  }

  // ----- a stale token that writes

  const GONE := Subscriber(ADDRESS, Unsubscribed, 0, Some(0), Some(0), 1)
  const TOKEN := Minted(Token(Confirm, ADDRESS, CONFIRM_TTL_SECS, 1), 1)

  const ROW := Delivery(0, ADDRESS, Complained, 0)

  /** A server whose store holds one delivery to its reader. */
  function Served(caps: Caps): Server {
    var t := Tables(map[ADDRESS := READER], map[0 := S], map[(0, ADDRESS) := ROW.(status := Sent)], map[]);
    Opened(caps).(journal := Journal(t, [], 0))
  }

  lemma ServedInit(caps: Caps)
    ensures Init(Served(caps))
  {
    ReaderKey();
  }

  const COMPLAINT := Webhook(0, ADDRESS, Complaint, 0, Synced)

  /** The webhook reports a complaint and its suppression is not synced, a link is asked for, the power
  goes, the relay reports once more. */
  function Reverts(): seq<Event> {
    [COMPLAINT, Suppress(ADDRESS, 0, SyncFailed), Subscribe(ADDRESS, 0), PowerLoss(1)] +
    [COMPLAINT, Suppress(ADDRESS, 0, Synced)]
  }

  /** The reader is Active and the delivery is on record. */
  ghost predicate Reportable(w: Server) {
    && w.journal.Now().subscribers == map[ADDRESS := READER]
    && (0, ADDRESS) in w.journal.Now().deliveries
    && w.journal.Now().deliveries[(0, ADDRESS)].(status := Complained, at := 0) == ROW
  }

  lemma Complains(w: Server)
    requires Reportable(w)
    ensures Step(w, COMPLAINT) == w.(journal := w.journal.Append(PutDelivery(ROW)).Sync())
    ensures Reportable(Step(w, COMPLAINT))
  {
    ReaderKey();
    AppendViews(w.journal, PutDelivery(ROW));
  }

  lemma Decides(w: Server, io: PutIo)
    requires Reportable(w)
    ensures Decided(w, Suppress(ADDRESS, 0, io)) == Some(GONE) && Key(GONE) == ADDRESS
  {
    ReaderKey();
    assert Key(GONE) == Key(READER);
  }

  lemma Suppresses(w: Server, io: PutIo)
    requires Reportable(w) && Landed(io)
    ensures Step(w, Suppress(ADDRESS, 0, io)) ==
              w.(journal := w.journal.Put(PutSubscriber(GONE), io),
                  unsubs := w.unsubs[ADDRESS := Epoch(w, ADDRESS) + 1],
                 writes := w.writes + [ConsentWrite(ADDRESS, ByRelay, 0)])
    ensures Step(w, Suppress(ADDRESS, 0, io)).journal.Now().subscribers == map[ADDRESS := GONE]
  {
    Decides(w, io);
    AppendViews(w.journal, PutSubscriber(GONE));
  }

  /** Up to the power loss: everything but the complaint and the link is undone. */
  lemma RunLoses(caps: Caps)
    ensures var v := Exec(Served(caps), Reverts()[..4]);
            Reportable(v) && v.minted == {TOKEN} && v.unsubs == map[ADDRESS := 1]
  {
    var w, es := Served(caps), Reverts();
    ReaderKey();
    assert es[..4] == [es[0], es[1], es[2], es[3]];
    Four(w, es[0], es[1], es[2], es[3]);
    Complains(w);
    var v := Step(w, es[0]);
    Suppresses(v, SyncFailed);
    var u := Step(v, es[1]);
    assert MintConfirm(u, ADDRESS, 0) == TOKEN;
    assert u.journal.log[..1] == v.journal.log;
  }

  /** An unsubscription that is stored but not synced, a confirm link minted from it, a
  power loss that undoes it, a second unsubscription: the link predates the last
  transition into Unsubscribed and yet makes the address Active again. */
  lemma StaleTokenWrites(caps: Caps)
    ensures Init(Served(caps))
    ensures var v := Exec(Served(caps), Reverts());
      && TOKEN in v.minted && TOKEN.epoch < Epoch(v, ADDRESS)
      && IsActive(Step(v, ConfirmPost(TOKEN, 0, Synced)).journal.Now(), ADDRESS)
      && !IsActive(v.journal.Now(), ADDRESS)
  {
    ServedInit(caps);
    RunLoses(caps);
    var u := Exec(Served(caps), Reverts()[..4]);
    ExecSplit(Served(caps), Reverts()[..4], [COMPLAINT, Suppress(ADDRESS, 0, Synced)]);
    Two(u, COMPLAINT, Suppress(ADDRESS, 0, Synced));
    Complains(u);
    Suppresses(Step(u, COMPLAINT), Synced);
    Reactivates(Exec(Served(caps), Reverts()));
  }

  lemma Reactivates(v: Server)
    requires TOKEN in v.minted && v.journal.Now().subscribers == map[ADDRESS := GONE]
    ensures IsActive(Step(v, ConfirmPost(TOKEN, 0, Synced)).journal.Now(), ADDRESS)
  {
    ReaderKey();
    var back := GONE.(state := Active, confirmedAt := Some(0));
    assert Key(back) == ADDRESS by { assert Key(READER) == ADDRESS; }
    AppendViews(v.journal, PutSubscriber(back));
    assert Decided(v, ConfirmPost(TOKEN, 0, Synced)) == Some(back);
  }
}
