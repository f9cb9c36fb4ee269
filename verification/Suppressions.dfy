/** An unsubscription that was acknowledged, by the visitor's link or on the relay's report,
holds until somebody asks for a new link. */
module Suppressions {
  import opened Records
  import opened Journals
  import opened Protocol
  import opened Frames
  import opened Budgets
  import opened Runs
  import opened Standings
  import opened Revivals
  import opened Effects

  /** The address is Unsubscribed, at generation `g`. */
  predicate IsDown(t: Tables, k: string, g: nat) {
    k in t.subscribers && t.subscribers[k].state.Unsubscribed? && t.subscribers[k].generation == g
  }

  /** So it is in every state that a power loss can leave. */
  ghost predicate HeldDown(j: Journal, n: nat, k: string, g: nat) {
    n <= j.synced <= |j.log| && forall p: nat | n <= p <= |j.log| :: IsDown(j.View(p), k, g)
  }

  /** A confirm link of the address is out that was minted at generation `g`. */
  ghost predicate LinkOut(w: Server, k: string, g: nat) {
    exists m :: m in w.minted && m.token.kind.Confirm? && TokenKey(m) == k && m.token.generation == g
  }

  /** Nobody asks for a confirm link for the address. */
  predicate Unasked(es: seq<Event>, k: string) {
    forall i | 0 <= i < |es| && es[i].Subscribe? :: Lower(es[i].email) != k
  }

  predicate LeavesRow(r: Record, k: string) {
    (r.PutSubscriber? ==> Key(r.row) != k) && (r.RemoveSubscriber? ==> r.key != k)
  }

  lemma DownGrows(j: Journal, j': Journal, n: nat, k: string, g: nat)
    requires j.Valid() && HeldDown(j, n, k, g) && Grows(j, j')
    requires |j'.log| == |j.log| || LeavesRow(j'.log[|j.log|], k)
    ensures HeldDown(j', n, k, g)
  {
    GrownViews(j, j');
    if |j'.log| > |j.log| {
      assert j'.log == j.log + [j'.log[|j.log|]];
      AppendViews(j, j'.log[|j.log|]);
      assert IsDown(j.View(|j.log|), k, g);
    }
  }

  lemma DownNow(j: Journal, n: nat, k: string, g: nat)
    requires HeldDown(j, n, k, g)
    ensures IsDown(j.Now(), k, g)
  {
    FullView(j);
    assert IsDown(j.View(|j.log|), k, g);
  }

  lemma ConsentDown(w: Server, e: Event, n: nat, k: string, g: nat)
    requires BaseInv(w) && LogOk(w.journal) && HeldDown(w.journal, n, k, g) && !LinkOut(w, k, g) && IsConsent(e)
    ensures HeldDown(ConsentStep(w, e).journal, n, k, g)
  {
    if Decided(w, e).Some? {
      BaseNow(w);
      LegacyNow(w.journal);
      DownNow(w.journal, n, k, g);
      DecidedRaises(w, e);
      PutGrows(w.journal, PutSubscriber(Decided(w, e).value), e.put);
      DownGrows(w.journal, ConsentStep(w, e).journal, n, k, g);
    }
  }

  lemma AsideDown(w: Server, e: Event, n: nat, k: string, g: nat)
    requires BaseInv(w) && HeldDown(w.journal, n, k, g) && Aside(e) && !IsConsent(e)
    ensures HeldDown(Step(w, e).journal, n, k, g)
  {
    BaseNow(w);
    DownNow(w.journal, n, k, g);
    AsideFrame(w, e);
    DownGrows(w.journal, Step(w, e).journal, n, k, g);
  }

  lemma StepDown(w: Server, e: Event, n: nat, k: string, g: nat)
    requires BaseInv(w) && LogOk(w.journal) && HeldDown(w.journal, n, k, g) && !LinkOut(w, k, g)
    ensures HeldDown(Step(w, e).journal, n, k, g)
  {
    BaseNow(w);
    if e.OfCall? {
      if e.call in w.calls {
        CallJournal(w, e.call, e.act);
        DownGrows(w.journal, Step(w, e).journal, n, k, g);
      }
    } else if IsConsent(e) {
      ConsentDown(w, e, n, k, g);
    } else if e.Resolve? {
      ResolveFrame(w, e);
    } else if Aside(e) {
      AsideDown(w, e, n, k, g);
    } else if e.PowerLoss? && w.journal.synced <= e.keep <= |w.journal.log| {
      RecoverViews(w.journal, e.keep);
    }
  }

  /** A call mints unsubscribe links only. */
  lemma CallMints(w: Server, c: nat, act: Act)
    requires c in w.calls
    ensures forall m | m in CallStep(w, c, w.calls[c], act).minted :: m in w.minted || m.token.kind.Unsubscribe?
  {
    if Quiet(act) {
      QuietCall(w, c, act);
    } else if Inserts(w.calls[c], act) {
      InsertCall(w, c, act);
    } else if !act.HandOver? {
      IdleCall(w, c, act);
    }
  }

  lemma LinksStep(w: Server, e: Event, k: string, g: nat)
    requires !LinkOut(w, k, g) && (e.Subscribe? ==> Lower(e.email) != k)
    ensures !LinkOut(Step(w, e), k, g)
  {
    if e.OfCall? && e.call in w.calls { CallMints(w, e.call, e.act); }
    if e.Subscribe? { LowerTwice(e.email); }
  }

  lemma {:induction false} DownRun(w: Server, es: seq<Event>, n: nat, k: string, g: nat)
    requires BaseInv(w) && LogOk(w.journal) && HeldDown(w.journal, n, k, g) && !LinkOut(w, k, g) && Unasked(es, k)
    ensures var v := Exec(w, es);
            BaseInv(v) && LogOk(v.journal) && HeldDown(v.journal, n, k, g) && !LinkOut(v, k, g)
    decreases |es|
  {
    if es != [] {
      var m := |es| - 1;
      var v := Exec(w, es[..m]);
      DownRun(w, es[..m], n, k, g);
      BaseStep(v, es[m]);
      LogOkStep(v, es[m]);
      StepDown(v, es[m], n, k, g);
      LinksStep(v, es[m], k, g);
    }
  }

  lemma {:induction false} LinkBringsBack(u: Server, k: string, g: nat) returns (e: Event)
    requires BaseInv(u) && LogOk(u.journal) && IsDown(u.journal.Now(), k, g) && LinkOut(u, k, g)
    ensures !e.Subscribe? && IsActive(Step(u, e).journal.Now(), k)
  {
    var m :| m in u.minted && m.token.kind.Confirm? && TokenKey(m) == k && m.token.generation == g;
    e := ConfirmPost(m, m.token.expUnix, Synced);
    BaseNow(u);
    PutGrows(u.journal, PutSubscriber(Decided(u, e).value), Synced);
  }

  lemma AcknowledgedDown(v: Server, e: Event)
    requires BaseInv(v) && LogOk(v.journal) && IsConsent(e) && e.put.Synced?
    requires Decided(v, e).Some? && Decided(v, e).value.state.Unsubscribed?
    ensures var u, row := Step(v, e), Decided(v, e).value;
            && BaseInv(u) && LogOk(u.journal) && u.minted == v.minted
            && HeldDown(u.journal, |u.journal.log|, Key(row), row.generation)
  {
    var row, u := Decided(v, e).value, Step(v, e);
    BaseStep(v, e);
    LogOkStep(v, e);
    PutGrows(v.journal, PutSubscriber(row), Synced);
    FullView(u.journal);
  }

  /** A transition into Unsubscribed that has been acknowledged holds in every continuation, power losses,
  purges, older links and further reports included, until somebody asks for a confirm link for the address:
  it can be Active again before that exactly if a link is out already that was minted at the very generation
  the transition led to, which only a transition taken back by a power loss leaves behind. */
  lemma UnsubscribedHoldsIff(w: Server, xs: seq<Event>, e: Event)
    requires Init(w) && IsConsent(e) && e.put.Synced?
    requires Decided(Exec(w, xs), e).Some? && Decided(Exec(w, xs), e).value.state.Unsubscribed?
    ensures var v, row := Exec(w, xs), Decided(Exec(w, xs), e).value;
            (exists ys :: Unasked(ys, Key(row)) && IsActive(Exec(w, xs + [e] + ys).journal.Now(), Key(row))) <==>
              exists m :: m in v.minted && m.token.kind.Confirm? && Lower(m.token.email) == Key(row)
                          && m.token.generation == row.generation
  {
    var v, row := Exec(w, xs), Decided(Exec(w, xs), e).value;
    var k, g, u := Key(row), row.generation, Step(v, e);
    LogOkRun(w, xs);
    Extend(w, xs, e);
    AcknowledgedDown(v, e);
    DownNow(u.journal, |u.journal.log|, k, g);
    if LinkOut(v, k, g) {
      var f := LinkBringsBack(u, k, g);
      One(u, f);
      ExecSplit(w, xs + [e], [f]);
      assert Unasked([f], k) && IsActive(Exec(w, xs + [e] + [f]).journal.Now(), k);
    } else {
      forall ys | Unasked(ys, k)
        ensures !IsActive(Exec(w, xs + [e] + ys).journal.Now(), k)
      {
        ExecSplit(w, xs + [e], ys);
        DownRun(u, ys, |u.journal.log|, k, g);
        DownNow(Exec(u, ys).journal, |u.journal.log|, k, g);
      }
    }
    assert LinkOut(v, k, g) <==>
      exists m :: m in v.minted && m.token.kind.Confirm? && Lower(m.token.email) == k && m.token.generation == g;
  }

  lemma SuppressStep(v: Server, email: string, unix: int)
    requires v.journal.Valid() && Keyed(v.journal.Now())
    requires exists d :: d in v.journal.Now().deliveries && d.1 == Lower(email)
    ensures Step(v, Suppress(email, unix, Synced)).journal.Now().subscribers
         == TakenDown(v.journal.Now().subscribers, Lower(email), unix)
  {
    var e := Suppress(email, unix, Synced);
    assert HasDelivery(v.journal.Now(), email);
    if Decided(v, e).Some? { PutGrows(v.journal, PutSubscriber(Decided(v, e).value), Synced); }
  }

  /** After an acknowledged suppression of an address with a delivery on record, the address is not Active,
  in any run; an Active row it found is Unsubscribed one generation further, and any other row, of this
  address or another, is what it was. */
  lemma SuppressionTakesDown(w: Server, xs: seq<Event>, email: string, unix: int)
    requires Init(w) && exists d :: d in Exec(w, xs).journal.Now().deliveries && d.1 == Lower(email)
    ensures var rows := Exec(w, xs + [Suppress(email, unix, Synced)]).journal.Now().subscribers;
            && rows == TakenDown(Exec(w, xs).journal.Now().subscribers, Lower(email), unix)
            && (Lower(email) in rows ==> !rows[Lower(email)].state.Active?)
  {
    BaseRun(w, xs);
    BaseNow(Exec(w, xs));
    Extend(w, xs, Suppress(email, unix, Synced));
    SuppressStep(Exec(w, xs), email, unix);
  }
}
