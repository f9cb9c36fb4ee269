/** Exactly which tokens can still write, in which continuations, whatever is lost.

Nothing here restricts the run: consent writes may fail to sync and power losses may take
them back. */
module Revivals {
  import opened Records
  import opened Journals
  import opened Protocol
  import opened Budgets
  import opened Runs
  import opened Durability
  import opened Standings
  import opened Unused
  import opened Restarts
  import opened Reaches

  /** Presenting a token at the endpoint of its kind. */
  function Present(m: Minted, unix: int, put: PutIo): Event {
    if m.token.kind.Confirm? then ConfirmPost(m, unix, put) else UnsubscribePost(m, unix, put)
  }

  /** Presented at `unix`, the token has its row written. */
  predicate Writes(v: Server, m: Minted, unix: int) { Decided(v, Present(m, unix, Synced)).Some? }

  /** The standing at which a token writes: a confirm token below Active, an unsubscribe token at Active. */
  function TokenRank(t: Token): nat { 2 * t.generation + Bit(t.kind.Unsubscribe?) }

  function TokenKey(m: Minted): string { Lower(m.token.email) }

  lemma WritesNeedRank(v: Server, m: Minted, unix: int)
    requires LegacyPending(v.journal.Now()) && Writes(v, m, unix)
    ensures Rank(v.journal.Now(), TokenKey(m)) <= TokenRank(m.token)
  {}

  lemma RankSuffices(v: Server, m: Minted, unix: int)
    requires m in v.minted && unix <= m.token.expUnix
    requires if TokenKey(m) in v.journal.Now().subscribers then Rank(v.journal.Now(), TokenKey(m)) == TokenRank(m.token)
             else m.token.kind.Confirm?
    ensures Writes(v, m, unix)
  {}

  // ----- what is durable bounds every later standing from below

  lemma SyncedView(j: Journal, j': Journal)
    requires Keeps(j, j')
    ensures j'.View(j.synced) == j.View(j.synced)
  {
    assert j'.log[..j.synced] == j.log[..j.synced];
  }

  lemma RankFloor(w: Server, ys: seq<Event>, k: string)
    requires BaseInv(w) && BaseInv(Exec(w, ys)) && LogOk(Exec(w, ys).journal)
    ensures Rank(Mark(w.journal), k) <= Rank(Exec(w, ys).journal.Now(), k)
  {
    var j := Exec(w, ys).journal;
    KeepsRun(w, ys);
    SyncedView(w.journal, j);
    RankRises(j, w.journal.synced, |j.log|, k);
    FullView(j);
  }

  // ----- and any higher standing can be reached

  /** An Active address is taken down by the link of a newsletter that reaches it. */
  lemma TakeDown(v: Server, k: string) returns (es: seq<Event>)
    requires BaseInv(v) && LogOk(v.journal) && Issuable(v.caps) && IsActive(v.journal.Now(), k)
    ensures var x := Exec(v, es);
            && BaseInv(x) && LogOk(x.journal) && k in x.journal.Now().subscribers
            && Rank(x.journal.Now(), k) == Rank(v.journal.Now(), k) + 1
  {
    var xs := [PowerLoss(|v.journal.log|)];
    One(v, xs[0]);
    LosesNothing(v);
    var u := Exec(v, xs);
    var id := NewId(u.journal.Now());
    var ys := Create(u, id);
    var r := Exec(u, ys);
    BaseNow(r);
    var zs, m := Reach(r, r.journal.Now().sends[id], k);
    var s := Exec(r, zs);
    var e := UnsubscribePost(m, m.token.expUnix, Synced);
    LogOkOn(r, zs);
    BaseNow(s);
    StoresDecided(s, e);
    es := xs + (ys + (zs + [e]));
    Extend(r, zs, e);
    ExecSplit(u, ys, zs + [e]);
    ExecSplit(v, xs, ys + (zs + [e]));
  }

  /** One step up, for any address in any state. */
  lemma Raise(u: Server, k: string) returns (es: seq<Event>)
    requires BaseInv(u) && LogOk(u.journal) && Issuable(u.caps) && Lower(k) == k
    ensures var v := Exec(u, es);
            && BaseInv(v) && LogOk(v.journal) && k in v.journal.Now().subscribers
            && Rank(v.journal.Now(), k) == Rank(u.journal.Now(), k) + 1
  {
    if IsActive(u.journal.Now(), k) {
      es := TakeDown(u, k);
    } else {
      es := [Subscribe(k, 0), ConfirmPost(MintConfirm(u, k, 0), 0, Synced)];
      Two(u, es[0], es[1]);
      ConfirmRaises(u, k);
    }
  }

  lemma {:induction false} Climb(u: Server, k: string, rank: nat) returns (es: seq<Event>)
    requires BaseInv(u) && LogOk(u.journal) && Issuable(u.caps) && Lower(k) == k && Rank(u.journal.Now(), k) <= rank
    ensures Rank(Exec(u, es).journal.Now(), k) == rank
    ensures k in u.journal.Now().subscribers || Rank(u.journal.Now(), k) < rank ==>
              k in Exec(u, es).journal.Now().subscribers
    decreases rank - Rank(u.journal.Now(), k)
  {
    if Rank(u.journal.Now(), k) == rank {
      es := [];
    } else {
      var xs := Raise(u, k);
      CapsFixed(u, xs);
      var ys := Climb(Exec(u, xs), k, rank);
      es := xs + ys;
      ExecSplit(u, xs, ys);
    }
  }

  lemma Revive(v: Server, m: Minted, unix: int) returns (es: seq<Event>)
    requires BaseInv(v) && LogOk(v.journal) && Issuable(v.caps) && m in v.minted && unix <= m.token.expUnix
    requires Rank(Mark(v.journal), TokenKey(m)) <= TokenRank(m.token)
    ensures Writes(Exec(v, es), m, unix)
  {
    var k, u := TokenKey(m), Step(v, PowerLoss(v.journal.synced));
    LowerTwice(m.token.email);
    LossShows(v);
    One(v, PowerLoss(v.journal.synced));
    var ys: seq<Event> := [];
    if !(m.token.kind.Confirm? && k !in u.journal.Now().subscribers) { ys := Climb(u, k, TokenRank(m.token)); }
    MintedStays(u, ys, m);
    es := [PowerLoss(v.journal.synced)] + ys;
    ExecSplit(v, [PowerLoss(v.journal.synced)], ys);
    RankSuffices(Exec(u, ys), m, unix);
  }

  // ----- main results

  /** Presented at `unix`, a token can still write in some continuation, power losses included,
  exactly when it has not expired by then and the durable standing of its address is at most
  the one it writes at. */
  lemma CanStillWriteIff(w: Server, xs: seq<Event>, m: Minted, unix: int)
    requires Init(w) && Issuable(w.caps) && m in Exec(w, xs).minted
    ensures BaseInv(Exec(w, xs))
    ensures (exists ys :: Writes(Exec(w, xs + ys), m, unix)) <==>
              && unix <= m.token.expUnix
              && Rank(Mark(Exec(w, xs).journal), Lower(m.token.email))
                 <= 2 * m.token.generation + Bit(m.token.kind.Unsubscribe?)
  {
    var v := Exec(w, xs);
    LogOkRun(w, xs);
    CapsFixed(w, xs);
    if ys :| Writes(Exec(w, xs + ys), m, unix) {
      LogOkRun(w, xs + ys);
      ExecSplit(w, xs, ys);
      LegacyNow(Exec(w, xs + ys).journal);
      WritesNeedRank(Exec(w, xs + ys), m, unix);
      RankFloor(v, ys, TokenKey(m));
    }
    if unix <= m.token.expUnix && Rank(Mark(v.journal), TokenKey(m)) <= TokenRank(m.token) {
      var ys := Revive(v, m, unix);
      ExecSplit(w, xs, ys);
      assert Writes(Exec(w, xs + ys), m, unix);
    }
  }

  lemma AcknowledgedRank(v: Server, e: Event)
    requires BaseInv(v) && LogOk(v.journal) && IsConsent(e) && e.put.Synced? && Decided(v, e).Some?
    ensures BaseInv(Step(v, e)) && LogOk(Step(v, e).journal)
    ensures Rank(Mark(Step(v, e).journal), Key(Decided(v, e).value)) == RowRank(Decided(v, e).value)
  {
    StoresDecided(v, e);
    FullView(Step(v, e).journal);
  }

  /** Once a consent write is acknowledged, every token of its address that writes below the
  standing it stored is dead: in every continuation, whatever is lost, minted when it may. */
  lemma AcknowledgedWriteKills(w: Server, xs: seq<Event>, e: Event, ys: seq<Event>, m: Minted, unix: int)
    requires Init(w) && IsConsent(e) && e.put.Synced? && Decided(Exec(w, xs), e).Some?
    requires var row := Decided(Exec(w, xs), e).value;
             Key(row) == Lower(m.token.email) && 2 * m.token.generation + Bit(m.token.kind.Unsubscribe?) < RowRank(row)
    ensures !Writes(Exec(w, xs + [e] + ys), m, unix)
  {
    var v := Exec(w, xs);
    LogOkRun(w, xs);
    AcknowledgedRank(v, e);
    Extend(w, xs, e);
    ExecSplit(w, xs + [e], ys);
    LogOkRun(w, xs + [e] + ys);
    RankFloor(Step(v, e), ys, TokenKey(m));
    LegacyNow(Exec(w, xs + [e] + ys).journal);
    if Writes(Exec(w, xs + [e] + ys), m, unix) { WritesNeedRank(Exec(w, xs + [e] + ys), m, unix); }
  }

  /** In particular an acknowledged unsubscription, by the visitor or the relay, shuts out every
  token of an older generation for good. */
  lemma UnsubscribedStaysShut(w: Server, xs: seq<Event>, e: Event, ys: seq<Event>, m: Minted, unix: int)
    requires Init(w) && IsConsent(e) && e.put.Synced? && Decided(Exec(w, xs), e).Some?
    requires var row := Decided(Exec(w, xs), e).value;
             row.state.Unsubscribed? && Key(row) == Lower(m.token.email) && m.token.generation < row.generation
    ensures !Writes(Exec(w, xs + [e] + ys), m, unix)
  {
    AcknowledgedWriteKills(w, xs, e, ys, m, unix);
  }

  /** And a token whose own write was acknowledged never writes again. */
  lemma UsedTokenIsSpent(w: Server, xs: seq<Event>, m: Minted, at: int, ys: seq<Event>, unix: int)
    requires Init(w) && Writes(Exec(w, xs), m, at)
    ensures !Writes(Exec(w, xs + [Present(m, at, Synced)] + ys), m, unix)
  {
    var v, e := Exec(w, xs), Present(m, at, Synced);
    LogOkRun(w, xs);
    BaseNow(v);
    LegacyNow(v.journal);
    DecidedRaises(v, e);
    AcknowledgedWriteKills(w, xs, e, ys, m, unix);
  }

  /** In the journal of every run the rows stored for one address rise strictly. So of the writes that
  survive, at most one makes an address Active at a given generation and at most one takes
  it down from there, whoever asked and however often writes were lost before. */
  lemma SurvivingWritesRise(w: Server, es: seq<Event>, i: nat, j: nat)
    requires Init(w) && i < j < |Exec(w, es).journal.log|
    requires var log := Exec(w, es).journal.log;
             log[i].PutSubscriber? && log[j].PutSubscriber? && Key(log[i].row) == Key(log[j].row)
    ensures var log := Exec(w, es).journal.log; RowRank(log[i].row) < RowRank(log[j].row)
  {
    var journal := Exec(w, es).journal;
    LogOkRun(w, es);
    LegacyView(journal, i);
    NextView(journal, i);
    RankNext(journal.View(i), journal.log[i], Key(journal.log[i].row));
    RankRises(journal, i + 1, j, Key(journal.log[i].row));
  }
}
