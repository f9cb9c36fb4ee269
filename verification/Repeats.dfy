/** When one recipient can get another message of one send: exactly while the ledger row is not
durable, whatever calls overlap, fail or are cut short. */
module Repeats {
  import opened Records
  import opened Journals
  import opened Protocol
  import opened Frames
  import opened Budgets
  import opened Runs
  import opened Durability
  import opened Standings
  import opened Restarts
  import opened Plans
  import opened Contents
  import opened Reissues
  import opened Reaches
  import R = Retries

  // ----- a durable row shuts the recipient out

  /** No call on `id` is past its ledger check with `key` next. */
  ghost predicate Passed(w: Server, id: SendId, key: string) {
    forall c | c in w.calls && w.calls[c].send.id == id && PastCheck(w.calls[c].pc) && w.calls[c].queue != [] ::
      Target(w.calls[c]) != key
  }

  lemma PassedMove(w: Server, w': Server, c: nat, id: SendId, key: string)
    requires Passed(w, id, key) && c in w.calls && c in w'.calls && w'.calls == w.calls[c := w'.calls[c]]
    requires w'.calls[c].send == w.calls[c].send
    requires PastCheck(w'.calls[c].pc) && w.calls[c].send.id == id ==>
               w'.calls[c].queue == w.calls[c].queue
               && (PastCheck(w.calls[c].pc) || (w.calls[c].queue != [] && Target(w.calls[c]) != key))
    ensures Passed(w', id, key)
  {}

  lemma PassedCall(w: Server, c: nat, act: Act, id: SendId, key: string)
    requires Passed(w, id, key) && (id, key) in w.journal.Now().deliveries && c in w.calls
    ensures Passed(CallStep(w, c, w.calls[c], act), id, key)
  {
    var k, w' := w.calls[c], CallStep(w, c, w.calls[c], act);
    if Quiet(act) {
      QuietCall(w, c, act);
      PassedMove(w, w', c, id, key);
    } else if Inserts(k, act) {
      InsertCall(w, c, act);
      PassedMove(w, w', c, id, key);
    } else if act.HandOver? {
      if k.pc.Mailing? && k.queue != [] { PassedMove(w, w', c, id, key); }
    } else {
      IdleCall(w, c, act);
    }
  }

  lemma PassedNew(w: Server, e: Event, id: SendId, key: string)
    requires e.Resolve? && ResolveMove(w, Step(w, e), e) && Passed(w, id, key)
    ensures Passed(Step(w, e), id, key)
  {}

  lemma PassedCut(w: Server, e: Event, id: SendId, key: string)
    requires (e.Kill? || e.PowerLoss?) && Passed(w, id, key)
    ensures Passed(Step(w, e), id, key)
  {}

  lemma PassedEvent(w: Server, e: Event, id: SendId, key: string)
    requires BaseInv(w) && Passed(w, id, key) && (id, key) in w.journal.Now().deliveries
    ensures Passed(Step(w, e), id, key)
  {
    BaseNow(w);
    if e.Resolve? {
      ResolveFrame(w, e);
      PassedNew(w, e, id, key);
    } else if e.OfCall? {
      if e.call in w.calls { PassedCall(w, e.call, e.act, id, key); }
    } else if Aside(e) {
      AsideFrame(w, e);
    } else {
      PassedCut(w, e, id, key);
    }
  }

  lemma PassedStep(w: Server, e: Event, id: SendId, key: string)
    requires BaseInv(w) && Passed(w, id, key) && (id, key) in w.journal.Now().deliveries
    ensures Passed(Step(w, e), id, key)
    ensures HandOffs(Step(w, e).mail, RecipientOf(id, key)) == HandOffs(w.mail, RecipientOf(id, key))
  {
    PassedEvent(w, e, id, key);
    MailStep(w, e);
    if HandsOver(w, e) {
      var k := w.calls[e.call];
      HandOffsAppend(w.mail, HandOff(k.send, Target(k), k.now), RecipientOf(id, key));
    }
  }

  lemma StillLedgered(v: Server, es: seq<Event>, id: SendId, key: string)
    requires BaseInv(v) && key in LedgerKeys(Mark(v.journal), id)
    ensures BaseInv(Exec(v, es)) && (id, key) in Exec(v, es).journal.Now().deliveries
  {
    KeepsRun(v, es);
    R.KeepsLedger(v.journal, Exec(v, es).journal, id);
    assert key in LedgerKeys(Exec(v, es).journal.Now(), id);
  }

  lemma {:induction false} NeverAgain(v: Server, es: seq<Event>, id: SendId, key: string)
    requires BaseInv(v) && key in LedgerKeys(Mark(v.journal), id) && Passed(v, id, key)
    ensures Passed(Exec(v, es), id, key)
    ensures HandOffs(Exec(v, es).mail, RecipientOf(id, key)) == HandOffs(v.mail, RecipientOf(id, key))
    decreases |es|
  {
    if es != [] {
      var n := |es| - 1;
      NeverAgain(v, es[..n], id, key);
      StillLedgered(v, es[..n], id, key);
      PassedStep(Exec(v, es[..n]), es[n], id, key);
    }
  }

  // ----- without one, the recipient can be reached

  /** `k` is Active, without a ledger row of `id`, and there is a record to send. */
  ghost predicate Reachable(u: Server, v: Server, id: SendId, k: string) {
    && Prepared(v, id, k) && HasSend(v.journal.Now(), id) && v.mail == u.mail && v.caps == u.caps
  }

  lemma Awaken(v: Server, k: string) returns (es: seq<Event>)
    requires BaseInv(v) && LogOk(v.journal) && Lower(k) == k
    ensures var u := Exec(v, es);
            && Resting(u) && IsActive(u.journal.Now(), k) && u.mail == v.mail && u.caps == v.caps
            && u.journal.Now().(subscribers := Mark(v.journal).subscribers) == Mark(v.journal)
  {
    es := [PowerLoss(v.journal.synced)];
    One(v, es[0]);
    LossShows(v);
    var u := Exec(v, es);
    if !IsActive(u.journal.Now(), k) {
      var ys := Welcome(u, k);
      ExecSplit(v, es, ys);
      es := es + ys;
    }
  }

  lemma MakeReachable(v: Server, id: SendId, k: string) returns (es: seq<Event>)
    requires BaseInv(v) && LogOk(v.journal) && Lower(k) == k && (id, k) !in Mark(v.journal).deliveries
    ensures Reachable(v, Exec(v, es), id, k)
  {
    es := Awaken(v, k);
    var u := Exec(v, es);
    if !HasSend(u.journal.Now(), id) {
      var ys := Create(u, id);
      ExecSplit(v, es, ys);
      es := es + ys;
    }
  }

  lemma {:induction false} HandOffsGrow(before: seq<HandOff>, after: seq<HandOff>, x: Class)
    requires before <= after
    ensures HandOffs(before, x) <= HandOffs(after, x)
    decreases |after|
  {
    if |before| < |after| {
      HandOffsGrow(before, after[..|after| - 1], x);
    } else {
      assert before == after;
    }
  }

  lemma OneMore(before: seq<HandOff>, after: seq<HandOff>, x: Class)
    requires |after| > |before| && before <= after[..|after| - 1] && Mine(x, after[|after| - 1])
    ensures HandOffs(after, x) > HandOffs(before, x)
  {
    HandOffsGrow(before, after[..|after| - 1], x);
  }

  lemma SendAgain(v: Server, id: SendId, k: string) returns (es: seq<Event>)
    requires BaseInv(v) && LogOk(v.journal) && Issuable(v.caps) && Lower(k) == k
    requires (id, k) !in Mark(v.journal).deliveries
    ensures HandOffs(Exec(v, es).mail, RecipientOf(id, k)) > HandOffs(v.mail, RecipientOf(id, k))
  {
    var xs := MakeReachable(v, id, k);
    var u := Exec(v, xs);
    BaseNow(u);
    var ys, m := Reach(u, u.journal.Now().sends[id], k);
    es := xs + ys;
    ExecSplit(v, xs, ys);
    OneMore(u.mail, Exec(u, ys).mail, RecipientOf(id, k));
  }

  // ----- main result

  /** With no call on `id` under way, and calls free to overlap from now on: some continuation hands a
  further message of `id` to `key` exactly if the ledger row is not durable. */
  lemma MailedAgainIff(w: Server, es: seq<Event>, id: SendId, key: string)
    requires Init(w) && Issuable(w.caps) && Lower(key) == key
    requires forall c | c in Exec(w, es).calls && Exec(w, es).calls[c].send.id == id :: Ended(Exec(w, es).calls[c].pc)
    ensures Exec(w, es).journal.Valid()
    ensures (exists ys ::
               HandOffs(Exec(w, es + ys).mail, RecipientOf(id, key)) > HandOffs(Exec(w, es).mail, RecipientOf(id, key)))
            <==> (id, key) !in Mark(Exec(w, es).journal).deliveries
  {
    var v := Exec(w, es);
    LogOkRun(w, es);
    CapsFixed(w, es);
    if (id, key) in Mark(v.journal).deliveries {
      assert (id, key).1 in LedgerKeys(Mark(v.journal), id);
      forall ys
        ensures HandOffs(Exec(w, es + ys).mail, RecipientOf(id, key)) == HandOffs(v.mail, RecipientOf(id, key))
      {
        ExecSplit(w, es, ys);
        NeverAgain(v, ys, id, key);
      }
    } else {
      var ys := SendAgain(v, id, key);
      ExecSplit(w, es, ys);
      assert HandOffs(Exec(w, es + ys).mail, RecipientOf(id, key)) > HandOffs(v.mail, RecipientOf(id, key));
    }
  }
}
