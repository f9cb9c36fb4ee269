/** How often tokens of one generation write, over every run: at most once, and once more for
each power loss that takes their address back. */
module Rewrites {
  import opened Records
  import opened Journals
  import opened Protocol
  import opened Budgets
  import opened Standings
  import opened Consent
  import opened ConsentResults

  /** The power losses of a run that take address `k` back to another standing. */
  ghost function Losses(w: Server, es: seq<Event>, k: string): nat {
    if es == [] then 0
    else Losses(w, es[..|es| - 1], k) + Bit(Loses(Exec(w, es[..|es| - 1]), es[|es| - 1], k))
  }

  /** The standing a token of generation `g` writes. */
  function WrittenRank(a: Author, g: nat): nat { if a.ByConfirm? then 2 * g + 1 else 2 * g + 2 }

  function Times(w: Server, k: string, a: Author, g: nat): nat { multiset(w.writes)[ConsentWrite(k, a, g)] }

  /** The writes so far, and one to come while the address stands below what it writes. */
  predicate Within(w: Server, k: string, a: Author, g: nat, losses: nat) {
    Times(w, k, a, g) + Bit(Rank(w.journal.Now(), k) < WrittenRank(a, g)) <= 1 + losses
  }

  lemma DecidedRank(w: Server, e: Event)
    requires Keyed(w.journal.Now()) && LegacyPending(w.journal.Now()) && IsConsent(e) && Decided(w, e).Some?
    ensures var row := Decided(w, e).value;
            && Rank(w.journal.Now(), Key(row)) < RowRank(row)
            && (AuthorOf(e) != ByRelay ==> RowRank(row) == WrittenRank(AuthorOf(e), GenerationOf(e)))
  {
    DecidedRaises(w, e);
  }

  lemma WithinConsent(w: Server, e: Event, k: string, a: Author, g: nat, losses: nat)
    requires BaseInv(w) && LogOk(w.journal) && IsConsent(e) && a != ByRelay && Within(w, k, a, g, losses)
    ensures Within(ConsentStep(w, e), k, a, g, losses)
  {
    if Decided(w, e).None? || !Landed(e.put) {
      StoredNothing(w, e);
    } else {
      var row := Decided(w, e).value;
      BaseNow(w);
      LegacyNow(w.journal);
      DecidedRank(w, e);
      StoredRow(w, e, row);
      TimesMore(w, ConsentStep(w, e), ConsentWrite(Key(row), AuthorOf(e), GenerationOf(e)), k, a, g);
    }
  }

  lemma TimesMore(w: Server, w': Server, x: ConsentWrite, k: string, a: Author, g: nat)
    requires w'.writes == w.writes + [x]
    ensures Times(w', k, a, g) == Times(w, k, a, g) + Bit(x == ConsentWrite(k, a, g))
  {
    assert multiset(w.writes + [x]) == multiset(w.writes) + multiset{x};
  }

  lemma WithinStep(w: Server, e: Event, k: string, a: Author, g: nat, losses: nat)
    requires BaseInv(w) && LogOk(w.journal) && a != ByRelay && Within(w, k, a, g, losses)
    ensures Within(Step(w, e), k, a, g, losses + Bit(Loses(w, e, k)))
  {
    if IsConsent(e) {
      WithinConsent(w, e, k, a, g, losses);
    } else if !Loses(w, e, k) {
      StepKeepsRow(w, e, k);
    }
  }

  /** Over every run, all confirm tokens of one address and generation write at most once together,
  and so do all its unsubscribe tokens, but for once more after each power loss that takes
  the address back. */
  lemma {:induction false} WritesWithinLosses(w: Server, es: seq<Event>, k: string, a: Author, g: nat)
    requires Init(w) && a != ByRelay
    ensures multiset(Exec(w, es).writes)[ConsentWrite(k, a, g)] <= 1 + Losses(w, es, k)
    ensures Within(Exec(w, es), k, a, g, Losses(w, es, k))
    decreases |es|
  {
    if es != [] {
      var n := |es| - 1;
      WritesWithinLosses(w, es[..n], k, a, g);
      LogOkRun(w, es[..n]);
      WithinStep(Exec(w, es[..n]), es[n], k, a, g, Losses(w, es[..n], k));
    }
  }

  lemma {:induction false} NoLosses(w: Server, es: seq<Event>, k: string)
    requires Lossless(w, es, k)
    ensures Losses(w, es, k) == 0
    decreases |es|
  {
    if es != [] { NoLosses(w, es[..|es| - 1], k); }
  }

  /** All confirm tokens of one address and generation together cause at most one
  write, and so do all its unsubscribe tokens, while no power loss takes the address back. */
  lemma OneWritePerGeneration(w: Server, es: seq<Event>, k: string, a: Author, g: nat)
    requires Init(w) && Lossless(w, es, k) && a != ByRelay
    ensures multiset(Exec(w, es).writes)[ConsentWrite(k, a, g)] <= 1
  {
    NoLosses(w, es, k);
    WritesWithinLosses(w, es, k, a, g);
  }
}
