/** The send record of one id over a run: what the tables hold is what every call under way carries. */
module Contents {
  import opened Records
  import opened Journals
  import opened Protocol
  import opened Frames
  import opened Budgets
  import opened Standings

  predicate HasSend(t: Tables, id: SendId) { id in t.sends }

  predicate SameSend(t: Tables, t': Tables, id: SendId) {
    id in t.sends && id in t'.sends && t'.sends[id] == t.sends[id]
  }

  /** A record stays what it is from one state of the tables to another. */
  predicate Kept(t: Tables, t': Tables, id: SendId) {
    HasSend(t, id) ==> SameSend(t, t', id)
  }

  /** ... and from any point of the part a power loss can cut to any later one. */
  ghost predicate SendKept(j: Journal, id: SendId) {
    forall p: nat, q: nat | j.synced <= p <= q <= |j.log| :: Kept(j.View(p), j.View(q), id)
  }

  predicate Live(k: Call, id: SendId) { k.send.id == id && !Ended(k.pc) }

  predicate Starting(pc: Pc) { pc.Creating? || pc.Created? }

  /** The tables hold the record this call carries. */
  predicate Carries(t: Tables, k: Call) { HasSend(t, k.send.id) && t.sends[k.send.id] == k.send }

  /** A call creates only what is absent, and carries what the tables hold from then on. */
  predicate CallCarries(t: Tables, k: Call) {
    if k.pc.Creating? then !HasSend(t, k.send.id) else Carries(t, k)
  }

  ghost predicate CarryOk(w: Server, id: SendId) {
    forall c | c in w.calls && Live(w.calls[c], id) :: CallCarries(w.journal.Now(), w.calls[c])
  }

  ghost predicate SendInv(w: Server, id: SendId) {
    w.journal.Valid() && SendKept(w.journal, id) && CarryOk(w, id)
  }

  // ----- the record along the journal

  lemma KeptGrows(j: Journal, j': Journal, id: SendId)
    requires j.Valid() && SendKept(j, id) && Grows(j, j') && Kept(j.Now(), j'.Now(), id)
    ensures SendKept(j', id) && Kept(Mark(j), Mark(j'), id)
  {
    GrownViews(j, j');
    var n := |j.log|;
    forall p: nat, q: nat | j'.synced <= p <= q <= |j'.log|
      ensures Kept(j'.View(p), j'.View(q), id)
    {
      if p <= n < q { assert Kept(j.View(p), j.View(n), id); }
    }
    assert Kept(j.View(j.synced), j.View(if j'.synced <= n then j'.synced else n), id);
  }

  lemma MarkNow(j: Journal, id: SendId)
    requires j.Valid() && SendKept(j, id)
    ensures Kept(Mark(j), j.Now(), id)
  {
    FullView(j);
    assert Kept(j.View(j.synced), j.View(|j.log|), id);
  }

  // ----- what a step does to the record, to the calls and to the mail

  /** One call moves, and what it carries with it. */
  lemma CarryMove(w: Server, w': Server, c: nat, id: SendId)
    requires CarryOk(w, id) && c in w.calls && c in w'.calls && w'.calls == w.calls[c := w'.calls[c]]
    requires w'.journal.Now().sends == w.journal.Now().sends && w'.calls[c].send == w.calls[c].send
    requires Live(w'.calls[c], id) ==> Live(w.calls[c], id) && w'.calls[c].pc.Creating? == w.calls[c].pc.Creating?
    ensures CarryOk(w', id)
  {
    forall d | d in w'.calls && Live(w'.calls[d], id)
      ensures CallCarries(w'.journal.Now(), w'.calls[d])
    {
      assert CallCarries(w.journal.Now(), w.calls[d]);
    }
  }

  lemma QuietCreating(w: Server, c: nat, act: Act)
    requires c in w.calls && Quiet(act)
    ensures var k, k' := w.calls[c], CallStep(w, c, w.calls[c], act).calls[c];
      (Ended(k.pc) ==> Ended(k'.pc)) && (!Ended(k'.pc) ==> k'.pc.Creating? == k.pc.Creating?)
  {
    QuietCall(w, c, act);
  }

  lemma CreatingAlone(w: Server, c: nat, d: nat, id: SendId)
    requires LedgerInv(w, id) && c in w.calls && d in w.calls && Live(w.calls[c], id) && Live(w.calls[d], id)
    ensures c == d
  {}

  lemma CarryInsert(w: Server, c: nat, io: WriteIo, id: SendId)
    requires w.journal.Valid() && CarryOk(w, id) && LedgerInv(w, id) && c in w.calls && w.calls[c].pc.Creating?
    ensures CarryOk(InsertSendStep(w, c, w.calls[c], io), id)
    ensures Kept(w.journal.Now(), InsertSendStep(w, c, w.calls[c], io).journal.Now(), id)
  {
    var k, w' := w.calls[c], InsertSendStep(w, c, w.calls[c], io);
    InsertSendRow(w, c, io);
    WriteGrows(w.journal, PutSend(k.send), io);
    assert k.send.id == id ==> CallCarries(w.journal.Now(), k);
    forall d | d in w'.calls && Live(w'.calls[d], id)
      ensures CallCarries(w'.journal.Now(), w'.calls[d])
    {
      if d != c {
        if Live(k, id) { CreatingAlone(w, c, d, id); }
        assert CallCarries(w.journal.Now(), w.calls[d]);
      }
    }
  }

  /** Any other step of a call leaves `sends` alone and no call newly creating. */
  lemma CarryOther(w: Server, c: nat, act: Act, id: SendId)
    requires w.journal.Valid() && CarryOk(w, id) && c in w.calls && !act.InsertSend?
    ensures CarryOk(CallStep(w, c, w.calls[c], act), id)
  {
    CallTables(w, c, act);
    if Quiet(act) {
      QuietCall(w, c, act);
      QuietCreating(w, c, act);
    } else if Inserts(w.calls[c], act) {
      InsertCall(w, c, act);
    } else if !act.HandOver? {
      IdleCall(w, c, act);
    }
    CarryMove(w, CallStep(w, c, w.calls[c], act), c, id);
  }

  lemma CarryCall(w: Server, c: nat, act: Act, id: SendId)
    requires w.journal.Valid() && CarryOk(w, id) && LedgerInv(w, id) && c in w.calls
    ensures var w' := CallStep(w, c, w.calls[c], act); CarryOk(w', id) && Kept(w.journal.Now(), w'.journal.Now(), id)
  {
    if act.InsertSend? {
      if w.calls[c].pc.Creating? { CarryInsert(w, c, act.io, id); }
    } else {
      CallTables(w, c, act);
      CarryOther(w, c, act, id);
    }
  }

  lemma CarryResolve(w: Server, e: Event, id: SendId)
    requires e.Resolve? && CarryOk(w, id)
    requires forall i | i in w.journal.Now().sends :: w.journal.Now().sends[i].id == i
    ensures CarryOk(ResolveStep(w, e), id)
  {
    var w' := ResolveStep(w, e);
    forall d | d in w'.calls && Live(w'.calls[d], id)
      ensures CallCarries(w'.journal.Now(), w'.calls[d])
    {
      if d in w.calls { assert Live(w.calls[d], id) ==> CallCarries(w.journal.Now(), w.calls[d]); }
    }
  }

  /** Short of a power loss the journal only grows, and the record stays what it is. */
  lemma StepKeeps(w: Server, e: Event, id: SendId)
    requires BaseInv(w) && LedgerInv(w, id) && SendInv(w, id) && !e.PowerLoss?
    ensures var w' := Step(w, e);
            Grows(w.journal, w'.journal) && Kept(w.journal.Now(), w'.journal.Now(), id) && CarryOk(w', id)
  {
    BaseNow(w);
    if e.Resolve? {
      ResolveFrame(w, e);
      CarryResolve(w, e, id);
    } else if e.OfCall? {
      if e.call in w.calls {
        CallJournal(w, e.call, e.act);
        CarryCall(w, e.call, e.act, id);
      }
    } else if Aside(e) {
      AsideFrame(w, e);
    }
  }

  lemma SendLoss(w: Server, keep: nat, id: SendId)
    requires SendInv(w, id) && w.journal.synced <= keep <= |w.journal.log|
    ensures var w' := Step(w, PowerLoss(keep)); SendInv(w', id) && Kept(Mark(w.journal), Mark(w'.journal), id)
  {
    var w' := Step(w, PowerLoss(keep));
    RecoverViews(w.journal, keep);
    assert Kept(w.journal.View(w.journal.synced), w.journal.View(keep), id);
    assert forall c | c in w'.calls :: Ended(w'.calls[c].pc);
  }

  lemma SendStep(w: Server, e: Event, id: SendId)
    requires BaseInv(w) && LedgerInv(w, id) && SendInv(w, id)
    ensures SendInv(Step(w, e), id) && Kept(Mark(w.journal), Mark(Step(w, e).journal), id)
  {
    if !e.PowerLoss? {
      StepKeeps(w, e, id);
      KeptGrows(w.journal, Step(w, e).journal, id);
    } else if w.journal.synced <= e.keep <= |w.journal.log| {
      SendLoss(w, e.keep, id);
    }
  }

  /** In every run whose calls on `id` do not overlap. */
  lemma {:induction false} SendRun(w: Server, es: seq<Event>, id: SendId)
    requires Init(w) && Serial(w, es, id)
    ensures BaseInv(Exec(w, es)) && LedgerInv(Exec(w, es), id) && SendInv(Exec(w, es), id)
    decreases |es|
  {
    LedgerRun(w, es, id);
    if es == [] {
      FullView(w.journal);
    } else {
      var n := |es| - 1;
      SendRun(w, es[..n], id);
      SendStep(Exec(w, es[..n]), es[n], id);
    }
  }

  // ----- the mail

  /** The one step that hands a message over. */
  predicate HandsOver(w: Server, e: Event) {
    e.OfCall? && e.act.HandOver? && e.call in w.calls && w.calls[e.call].pc.Mailing? && w.calls[e.call].queue != []
  }

  lemma CallMail(w: Server, c: nat, act: Act)
    requires c in w.calls && !act.HandOver?
    ensures CallStep(w, c, w.calls[c], act).mail == w.mail
  {
    if Quiet(act) {
      QuietCall(w, c, act);
    } else if Inserts(w.calls[c], act) {
      InsertCall(w, c, act);
    } else {
      IdleCall(w, c, act);
    }
  }

  lemma MailStep(w: Server, e: Event)
    ensures Step(w, e).mail ==
              if HandsOver(w, e) then
                var k := w.calls[e.call]; w.mail + [HandOff(k.send, Target(k), k.now)]
              else w.mail
  {
    if e.OfCall? && e.call in w.calls && !e.act.HandOver? { CallMail(w, e.call, e.act); }
  }

  /** A message that is out stays out. */
  lemma {:induction false} MailGrows(w: Server, es: seq<Event>)
    ensures w.mail <= Exec(w, es).mail
    decreases |es|
  {
    if es != [] {
      MailGrows(w, es[..|es| - 1]);
      MailStep(Exec(w, es[..|es| - 1]), es[|es| - 1]);
    }
  }

  /** From the `n`th on, every message of `send`'s id carries `send`. */
  predicate Carry(mail: seq<HandOff>, n: nat, send: Send) {
    forall i | n <= i < |mail| && mail[i].send.id == send.id :: mail[i].send == send
  }

  /** The record of `send`'s id is durable, it is `send`, and so it has been in the mail from the `n`th on. */
  ghost predicate Fixed(w: Server, n: nat, send: Send) {
    && SendInv(w, send.id) && HasSend(Mark(w.journal), send.id) && Mark(w.journal).sends[send.id] == send
    && Carry(w.mail, n, send)
  }

  lemma FixedStep(w: Server, e: Event, n: nat, send: Send)
    requires BaseInv(w) && LedgerInv(w, send.id) && Fixed(w, n, send)
    ensures Fixed(Step(w, e), n, send)
  {
    SendStep(w, e, send.id);
    MailStep(w, e);
    if HandsOver(w, e) && w.calls[e.call].send.id == send.id {
      assert CallCarries(w.journal.Now(), w.calls[e.call]);
      MarkNow(w.journal, send.id);
    }
  }

  /** Once a record is durable, it is what goes out under its id in every later run. */
  lemma {:induction false} FixedRun(w: Server, xs: seq<Event>, ys: seq<Event>, n: nat, send: Send)
    requires Init(w) && Serial(w, xs + ys, send.id) && Fixed(Exec(w, xs), n, send)
    ensures Fixed(Exec(w, xs + ys), n, send)
    decreases |ys|
  {
    if ys == [] {
      assert xs + ys == xs;
    } else {
      var front, last := xs + ys[..|ys| - 1], ys[|ys| - 1];
      assert (xs + ys)[..|xs + ys| - 1] == front;
      FixedRun(w, xs, ys[..|ys| - 1], n, send);
      SendRun(w, front, send.id);
      FixedStep(Exec(w, front), last, n, send);
    }
  }

  // ----- runs that reuse only durable records

  /** A call that reuses the record of `id` finds it covered by the synced mark. */
  ghost predicate Anchored(w: Server, e: Event, id: SendId) {
    e.Resolve? && e.id == id && HasSend(w.journal.Now(), id) && w.journal.Valid() ==> HasSend(Mark(w.journal), id)
  }

  ghost predicate AllAnchored(w: Server, es: seq<Event>, id: SendId) {
    es == [] ||
    (AllAnchored(w, es[..|es| - 1], id) && Anchored(Exec(w, es[..|es| - 1]), es[|es| - 1], id))
  }

  /** Whatever has been or is being sent under `id` has its record durable. */
  ghost predicate AnchorInv(w: Server, id: SendId)
    requires w.journal.Valid()
  {
    && (forall i | 0 <= i < |w.mail| && w.mail[i].send.id == id ::
          HasSend(Mark(w.journal), id) && w.mail[i].send == Mark(w.journal).sends[id])
    && (forall c | c in w.calls && Live(w.calls[c], id) && !Starting(w.calls[c].pc) :: HasSend(Mark(w.journal), id))
  }

  /** A call under way after a step of its own was under way before it. */
  lemma LiveBefore(w: Server, c: nat, act: Act)
    requires c in w.calls && c in CallStep(w, c, w.calls[c], act).calls
    ensures var k, k' := w.calls[c], CallStep(w, c, w.calls[c], act).calls[c];
            k'.send == k.send && (!Ended(k'.pc) ==> !Ended(k.pc))
  {
    if Quiet(act) {
      QuietCall(w, c, act);
      QuietCreating(w, c, act);
    } else if Inserts(w.calls[c], act) {
      InsertCall(w, c, act);
    } else if !act.HandOver? {
      IdleCall(w, c, act);
    }
  }

  lemma StartsInCall(w: Server, d: nat, act: Act, c: nat, id: SendId)
    requires SendInv(w, id) && d in w.calls && SendInv(CallStep(w, d, w.calls[d], act), id)
    requires var w' := CallStep(w, d, w.calls[d], act);
             c in w'.calls && Live(w'.calls[c], id) && !Starting(w'.calls[c].pc)
    ensures || (c in w.calls && Live(w.calls[c], id) && !Starting(w.calls[c].pc))
            || HasSend(Mark(CallStep(w, d, w.calls[d], act).journal), id)
  {
    CallTables(w, d, act);
    if c == d {
      LiveBefore(w, d, act);
      if Starting(w.calls[c].pc) { StartEnds(w, c, act, id); }
    }
  }

  /** A call past its start had started before, or finds its record durable now. */
  lemma StartsDurable(w: Server, e: Event, c: nat, id: SendId)
    requires BaseInv(w) && SendInv(w, id) && Anchored(w, e, id) && SendInv(Step(w, e), id)
    requires var w' := Step(w, e); c in w'.calls && Live(w'.calls[c], id) && !Starting(w'.calls[c].pc)
    ensures var w' := Step(w, e);
            || (c in w.calls && Live(w.calls[c], id) && !Starting(w.calls[c].pc))
            || HasSend(Mark(w'.journal), id)
  {
    BaseNow(w);
    if e.OfCall? {
      if e.call in w.calls { StartsInCall(w, e.call, e.act, c, id); }
    } else if e.Resolve? {
      ResolveFrame(w, e);
    } else if Aside(e) {
      AsideFrame(w, e);
    }
  }

  lemma StartEnds(w: Server, c: nat, act: Act, id: SendId)
    requires SendInv(w, id) && c in w.calls && Live(w.calls[c], id) && Starting(w.calls[c].pc)
    requires var w' := CallStep(w, c, w.calls[c], act);
             c in w'.calls && Live(w'.calls[c], id) && !Starting(w'.calls[c].pc)
    ensures var j := CallStep(w, c, w.calls[c], act).journal; j.synced <= |j.log| && HasSend(Mark(j), id)
  {
    assert CallCarries(w.journal.Now(), w.calls[c]);
    FullView(w.journal);
    assert act.SyncSend?;
  }

  lemma AnchorStep(w: Server, e: Event, id: SendId)
    requires BaseInv(w) && LedgerInv(w, id) && SendInv(w, id) && AnchorInv(w, id) && Anchored(w, e, id)
    ensures SendInv(Step(w, e), id) && AnchorInv(Step(w, e), id)
  {
    var w' := Step(w, e);
    SendStep(w, e, id);
    MailStep(w, e);
    if HandsOver(w, e) && w.calls[e.call].send.id == id {
      assert CallCarries(w.journal.Now(), w.calls[e.call]);
      MarkNow(w.journal, id);
    }
    forall c | c in w'.calls && Live(w'.calls[c], id) && !Starting(w'.calls[c].pc)
      ensures HasSend(Mark(w'.journal), id)
    {
      StartsDurable(w, e, c, id);
    }
  }

  lemma {:induction false} AnchorRun(w: Server, es: seq<Event>, id: SendId)
    requires Init(w) && Serial(w, es, id) && AllAnchored(w, es, id)
    ensures SendInv(Exec(w, es), id) && AnchorInv(Exec(w, es), id)
    decreases |es|
  {
    SendRun(w, es, id);
    if es != [] {
      var n := |es| - 1;
      AnchorRun(w, es[..n], id);
      SendRun(w, es[..n], id);
      AnchorStep(Exec(w, es[..n]), es[n], id);
    }
  }

  /** Over every run in which the calls on `id` do not overlap and each call that
  reuses its record finds the record durable, all messages handed over under `id`
  carry one and the same record, and that record is durable. */
  lemma AnchoredOneContent(w: Server, es: seq<Event>, id: SendId, i: nat, j: nat)
    requires Init(w) && Serial(w, es, id) && AllAnchored(w, es, id)
    requires i < |Exec(w, es).mail| && Exec(w, es).mail[i].send.id == id
    requires j < |Exec(w, es).mail| && Exec(w, es).mail[j].send.id == id
    ensures Exec(w, es).mail[i].send == Exec(w, es).mail[j].send
    ensures Exec(w, es).journal.Valid() && HasSend(Mark(Exec(w, es).journal), id)
  {
    AnchorRun(w, es, id);
  }
}
