/** A crash, and the few steps after it: from any state the server can be brought to rest with
what is durable, or with everything, and any address can be made Active. */
module Restarts {
  import opened Records
  import opened Journals
  import opened Protocol
  import opened Frames
  import opened Budgets
  import opened Runs
  import opened Serials
  import opened Standings

  /** No call is under way. */
  ghost predicate Resting(u: Server) {
    && BaseInv(u) && LogOk(u.journal) && u.lock.None?
    && forall c | c in u.calls :: Ended(u.calls[c].pc)
  }

  lemma {:induction false} LogOkOn(w: Server, es: seq<Event>)
    requires BaseInv(w) && LogOk(w.journal)
    ensures BaseInv(Exec(w, es)) && LogOk(Exec(w, es).journal)
    decreases |es|
  {
    if es != [] {
      var n := |es| - 1;
      LogOkOn(w, es[..n]);
      BaseStep(Exec(w, es[..n]), es[n]);
      LogOkStep(Exec(w, es[..n]), es[n]);
    }
  }

  lemma {:induction false} MintedStays(w: Server, es: seq<Event>, m: Minted)
    requires m in w.minted
    ensures m in Exec(w, es).minted
    decreases |es|
  {
    if es != [] {
      var n := |es| - 1;
      MintedStays(w, es[..n], m);
      StepHistory(Exec(w, es[..n]), es[n]);
    }
  }

  // ----- a power loss

  lemma LossTo(v: Server, keep: nat)
    requires BaseInv(v) && LogOk(v.journal) && v.journal.synced <= keep <= |v.journal.log|
    ensures var u := Step(v, PowerLoss(keep));
            && Resting(u) && u.journal.Now() == v.journal.View(keep) && u.journal.synced == |u.journal.log|
            && u.mail == v.mail && u.minted == v.minted && u.caps == v.caps
  {
    BaseStep(v, PowerLoss(keep));
    LogOkStep(v, PowerLoss(keep));
    RecoverViews(v.journal, keep);
  }

  /** A power loss that takes all it can ... */
  lemma LossShows(v: Server)
    requires BaseInv(v) && LogOk(v.journal)
    ensures var u := Step(v, PowerLoss(v.journal.synced));
            && Resting(u) && u.journal.Now() == Mark(v.journal) && u.journal.synced == |u.journal.log|
            && u.mail == v.mail && u.minted == v.minted && u.caps == v.caps
  {
    LossTo(v, v.journal.synced);
  }

  /** ... and one that happens to take nothing. */
  lemma LosesNothing(v: Server)
    requires BaseInv(v) && LogOk(v.journal)
    ensures var u := Step(v, PowerLoss(|v.journal.log|));
            && Resting(u) && u.journal.Now() == v.journal.Now()
            && u.mail == v.mail && u.minted == v.minted && u.caps == v.caps
  {
    LossTo(v, |v.journal.log|);
    FullView(v.journal);
  }

  // ----- a reader joins

  lemma StoresDecided(u: Server, e: Event)
    requires BaseInv(u) && LogOk(u.journal) && IsConsent(e) && e.put.Synced? && Decided(u, e).Some?
    ensures var v, row := Step(u, e), Decided(u, e).value;
            && BaseInv(v) && LogOk(v.journal)
            && v.journal.Now().subscribers == u.journal.Now().subscribers[Key(row) := row]
  {
    BaseStep(u, e);
    LogOkStep(u, e);
    PutGrows(u.journal, PutSubscriber(Decided(u, e).value), Synced);
  }

  function Invited(u: Server, k: string): Server { u.(minted := u.minted + {MintConfirm(u, k, 0)}) }

  lemma ConfirmRaises(u: Server, k: string)
    requires BaseInv(u) && LogOk(u.journal) && Lower(k) == k && !IsActive(u.journal.Now(), k)
    ensures var v := Step(Invited(u, k), ConfirmPost(MintConfirm(u, k, 0), 0, Synced));
            && BaseInv(v) && LogOk(v.journal) && k in v.journal.Now().subscribers
            && Rank(v.journal.Now(), k) == Rank(u.journal.Now(), k) + 1
  {
    BaseStep(u, Subscribe(k, 0));
    assert Invited(u, k) == Step(u, Subscribe(k, 0));
    BaseNow(Invited(u, k));
    StoresDecided(Invited(u, k), ConfirmPost(MintConfirm(u, k, 0), 0, Synced));
  }

  /** The only thing that changes is a subscriber row that is Active now, and it is durable. */
  ghost predicate Welcomed(u: Server, v: Server, k: string) {
    && Resting(v) && IsActive(v.journal.Now(), k) && v.journal.synced == |v.journal.log|
    && v.journal.Now() == u.journal.Now().(subscribers := v.journal.Now().subscribers)
    && v.mail == u.mail && v.caps == u.caps
  }

  lemma ConfirmWelcomes(u: Server, k: string)
    requires Resting(u) && Lower(k) == k && !IsActive(u.journal.Now(), k)
    ensures Welcomed(u, Step(Invited(u, k), ConfirmPost(MintConfirm(u, k, 0), 0, Synced)), k)
  {
    var e := ConfirmPost(MintConfirm(u, k, 0), 0, Synced);
    ConfirmRaises(u, k);
    PutGrows(u.journal, PutSubscriber(Decided(Invited(u, k), e).value), Synced);
  }

  lemma Welcome(u: Server, k: string) returns (es: seq<Event>)
    requires Resting(u) && Lower(k) == k && !IsActive(u.journal.Now(), k)
    ensures Unresolving(es) && Welcomed(u, Exec(u, es), k)
  {
    es := [Subscribe(k, 0), ConfirmPost(MintConfirm(u, k, 0), 0, Synced)];
    Two(u, es[0], es[1]);
    ConfirmWelcomes(u, k);
  }
}
