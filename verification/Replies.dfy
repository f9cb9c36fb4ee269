/** When a call of `/send` that nothing rivals answers `Ok`, decided on what goes wrong outside the server,
and exactly what it has then done for every recipient. */
module Replies {
  import opened Records
  import opened Journals
  import opened Protocol
  import opened Turns
  import opened Plans
  import opened Fanouts

  /** Recipient `j` is attempted: it has no ledger row, and there is headroom left after the recipients
  before it that have none. */
  predicate Attempts(caps: Caps, t: Tables, id: SendId, hour: Hour, all: seq<Subscriber>, j: nat)
    requires j < |all|
  {
    !Ledgered(t, id, all[j]) && |Unledgered(t, id, all[..j])| < Headroom(caps, t, hour)
  }

  /** Nothing goes wrong in a turn that ends the call. What can depends on how far the turn gets: a recipient
  with a ledger row costs one read, a deferred one three, an attempted one everything. That the message cannot
  be composed, or that the relay refuses it, is nothing that ends the call. */
  predicate Passes(f: Fate, ledgered: bool, attempted: bool) {
    && f.ledger
    && (!ledgered ==> !f.dropped.AtLock? && f.slot.readHour && f.slot.readDay)
    && (attempted ==>
          && f.slot.writeHour.Written? && f.slot.writeDay.Written?
          && f.signed && (f.composed ==> f.dropped.Never?) && f.record.Synced?)
  }

  /** The error of a turn that something goes wrong in: of the first thing that does. */
  function Fault(f: Fate): Error {
    if !f.ledger then Error.Store
    else if f.dropped.AtLock? then TimedOut
    else if !f.slot.readHour || !f.slot.readDay then Error.Store
    else if !f.slot.writeHour.Written? || !f.slot.writeDay.Written? then Error.Store
    else if !f.signed then Error.Config
    else if f.composed && !f.dropped.Never? then TimedOut
    else Error.Store
  }

  /** No turn ends the call. */
  ghost predicate AllPass(caps: Caps, t: Tables, id: SendId, hour: Hour, all: seq<Subscriber>, fates: nat -> Fate,
                          n: nat)
    requires n <= |all|
  {
    forall j | 0 <= j < n :: Passes(fates(j), Ledgered(t, id, all[j]), Attempts(caps, t, id, hour, all, j))
  }

  /** The first turn that ends the call ends it with this error. */
  ghost predicate Stops(caps: Caps, t: Tables, id: SendId, hour: Hour, all: seq<Subscriber>, fates: nat -> Fate,
                        e: Error)
  {
    exists j | 0 <= j < |all| ::
      && AllPass(caps, t, id, hour, all, fates, j)
      && !Passes(fates(j), Ledgered(t, id, all[j]), Attempts(caps, t, id, hour, all, j)) && e == Fault(fates(j))
  }

  /** Nothing at all goes wrong in a turn. */
  predicate Clean(f: Fate) {
    && f.ledger && f.dropped.Never? && f.signed && f.record.Synced?
    && f.slot.readHour && f.slot.readDay && f.slot.writeHour.Written? && f.slot.writeDay.Written?
  }

  lemma CleanPasses(caps: Caps, t: Tables, id: SendId, hour: Hour, all: seq<Subscriber>, fates: nat -> Fate)
    requires forall j :: Clean(fates(j))
    ensures AllPass(caps, t, id, hour, all, fates, |all|)
  {}

  // ----- what the recipients taken so far have got

  /** The ledger row of an attempted recipient. */
  function RowOwed(id: SendId, row: Subscriber, f: Fate): Delivery {
    Delivery(id, row.email, if f.composed && f.accepted then DeliveryStatus.Sent else DeliveryStatus.Failed, f.at)
  }

  ghost predicate RowsServed(caps: Caps, t: Tables, t': Tables, id: SendId, hour: Hour, all: seq<Subscriber>,
                            fates: nat -> Fate, n: nat)
    requires n <= |all|
  {
    forall j | 0 <= j < n && Attempts(caps, t, id, hour, all, j) ::
      (id, Key(all[j])) in t'.deliveries && t'.deliveries[(id, Key(all[j]))] == RowOwed(id, all[j], fates(j))
  }

  /** The messages the relay has been given: one to each attempted recipient whose message could be composed. */
  function Messages(caps: Caps, t: Tables, send: Send, now: Moment, all: seq<Subscriber>, fates: nat -> Fate,
                    n: nat): seq<HandOff>
    requires n <= |all|
  {
    if n == 0 then []
    else
      var last := if Attempts(caps, t, send.id, now.hour, all, n - 1) && fates(n - 1).composed
                  then [HandOff(send, Key(all[n - 1]), now)] else [];
      Messages(caps, t, send, now, all, fates, n - 1) + last
  }

  ghost predicate MailServed(caps: Caps, t: Tables, before: seq<HandOff>, mail: seq<HandOff>, send: Send, now: Moment,
                            all: seq<Subscriber>, fates: nat -> Fate, n: nat)
    requires n <= |all|
  {
    mail == before + Messages(caps, t, send, now, all, fates, n)
  }

  function TokensOf(minted: set<Minted>): set<Token> { set m | m in minted :: m.token }

  /** The link in a recipient's message: good for ten years of 365 days, at the generation of the row. */
  function LinkOwed(row: Subscriber, now: Moment): Token {
    Token(TokenKind.Unsubscribe, row.email, now.unix + 315360000, row.generation)
  }

  function LinksOwed(caps: Caps, t: Tables, id: SendId, now: Moment, all: seq<Subscriber>, n: nat): set<Token>
    requires n <= |all|
  {
    set j | 0 <= j < n && Attempts(caps, t, id, now.hour, all, j) :: LinkOwed(all[j], now)
  }

  ghost predicate LinksServed(caps: Caps, t: Tables, tokens: set<Token>, minted: set<Minted>, id: SendId, now: Moment,
                             all: seq<Subscriber>, n: nat)
    requires n <= |all|
  {
    TokensOf(minted) == tokens + LinksOwed(caps, t, id, now, all, n)
  }

  ghost predicate SomeAttempt(caps: Caps, t: Tables, id: SendId, hour: Hour, all: seq<Subscriber>, n: nat)
    requires n <= |all|
  {
    exists j :: 0 <= j < n && Attempts(caps, t, id, hour, all, j)
  }

  /** Every recipient before `n` has got what the plan and its fate owe it, and nobody anything else. */
  ghost predicate Served(caps: Caps, t: Tables, before: seq<HandOff>, tokens: set<Token>, w: Server, send: Send,
                         now: Moment, all: seq<Subscriber>, fates: nat -> Fate, n: nat)
    requires n <= |all|
  {
    && AllPass(caps, t, send.id, now.hour, all, fates, n)
    && RowsServed(caps, t, w.journal.Now(), send.id, now.hour, all, fates, n)
    && MailServed(caps, t, before, w.mail, send, now, all, fates, n)
    && LinksServed(caps, t, tokens, w.minted, send.id, now, all, n)
    && (SomeAttempt(caps, t, send.id, now.hour, all, n) ==> w.journal.synced == |w.journal.log|)
  }

  // ----- one turn

  /** Whether the next recipient is attempted shows in the tables as they are by then. */
  lemma NextAttempt(caps: Caps, t: Tables, t': Tables, id: SendId, hour: Hour, all: seq<Subscriber>, i: nat)
    requires Distinct(all) && i < |all| && FullCall(caps, t, t', id, hour, all[..i])
    ensures Ledgered(t', id, all[i]) <==> Ledgered(t, id, all[i])
    ensures !Ledgered(t', id, all[i]) && Headroom(caps, t', hour) > 0 <==> Attempts(caps, t, id, hour, all, i)
  {
    NotYetListed(all, i);
    NextLedgered(caps, t, t', id, hour, all[..i], all[i]);
    HeadroomLeft(caps, t, t', id, hour, all[..i]);
  }

  lemma SlotOkIff(w: Server, c: nat, f: Fate)
    requires c in w.calls
    ensures SlotOf(w, c, f) == Ok(false) <==>
              f.slot.readHour && f.slot.readDay && Headroom(w.caps, w.journal.Now(), w.calls[c].now.hour) == 0
    ensures SlotOf(w, c, f).Err? ==> SlotOf(w, c, f).error.Store?
  {}

  /** A turn answers `Ok` exactly if nothing goes wrong in it. */
  lemma TurnOkIff(w: Server, c: nat, f: Fate)
    requires AtTop(w, c)
    ensures var t, k := w.journal.Now(), w.calls[c];
            var ledgered := Ledgered(t, k.send.id, k.queue[0].row);
            && (TurnAnswer(w, c, f).Ok? <==> Passes(f, ledgered, !ledgered && Headroom(w.caps, t, k.now.hour) > 0))
            && (TurnAnswer(w, c, f).Err? ==> TurnAnswer(w, c, f).error == Fault(f))
  {
    SlotOkIff(w, c, f);
  }

  /** No turn touches the send records. */
  lemma TurnSends(w: Server, c: nat, f: Fate)
    requires AtTop(w, c)
    ensures TurnWorld(w, c, f).journal.Now().sends == w.journal.Now().sends
  {
    if TurnAnswer(w, c, f).Ok? { TurnGoesOn(w, c, f); } else { TurnBreaks(w, c, f); }
  }

  /** From `w` to `v` an attempted recipient got its ledger row, durably, its link, and its message if that could
  be composed; any other got nothing. */
  ghost predicate Gave(w: Server, v: Server, send: Send, now: Moment, row: Subscriber, f: Fate, attempted: bool) {
    if attempted then
      && v.journal.Now().deliveries == w.journal.Now().deliveries[(send.id, Key(row)) := RowOwed(send.id, row, f)]
      && v.journal.synced == |v.journal.log|
      && v.mail == w.mail + (if f.composed then [HandOff(send, Key(row), now)] else [])
      && TokensOf(v.minted) == TokensOf(w.minted) + {LinkOwed(row, now)}
    else v.journal == w.journal && v.mail == w.mail && v.minted == w.minted
  }

  lemma TurnGives(w: Server, c: nat, f: Fate)
    requires AtTop(w, c) && TurnAnswer(w, c, f).Ok?
    ensures var t, k := w.journal.Now(), w.calls[c];
            var row := k.queue[0].row;
            Gave(w, TurnWorld(w, c, f), k.send, k.now, row, f,
                 !Ledgered(t, k.send.id, row) && Headroom(w.caps, t, k.now.hour) > 0)
  {
    TurnGoesOn(w, c, f);
    TokensMore(w.minted, UnsubscribeToken(w.calls[c]));
  }

  lemma TokensMore(minted: set<Minted>, m: Minted)
    ensures TokensOf(minted + {m}) == TokensOf(minted) + {m.token}
  {
    assert m in minted + {m};
    forall t | t in TokensOf(minted)
      ensures t in TokensOf(minted + {m})
    {
      var x :| x in minted && x.token == t;
      assert x in minted + {m};
    }
  }

  lemma LinksMore(caps: Caps, t: Tables, id: SendId, now: Moment, all: seq<Subscriber>, i: nat)
    requires i < |all|
    ensures LinksOwed(caps, t, id, now, all, i + 1) == LinksOwed(caps, t, id, now, all, i)
              + if Attempts(caps, t, id, now.hour, all, i) then {LinkOwed(all[i], now)} else {}
  {}

  lemma RowsMore(caps: Caps, t: Tables, t': Tables, t'': Tables, id: SendId, hour: Hour, all: seq<Subscriber>,
                 fates: nat -> Fate, i: nat)
    requires Distinct(all) && i < |all| && RowsServed(caps, t, t', id, hour, all, fates, i)
    requires t''.deliveries == if Attempts(caps, t, id, hour, all, i)
                               then t'.deliveries[(id, Key(all[i])) := RowOwed(id, all[i], fates(i))]
                               else t'.deliveries
    ensures RowsServed(caps, t, t'', id, hour, all, fates, i + 1)
  {}

  lemma PassMore(caps: Caps, t: Tables, id: SendId, hour: Hour, all: seq<Subscriber>, fates: nat -> Fate, i: nat)
    requires i < |all| && AllPass(caps, t, id, hour, all, fates, i)
    requires Passes(fates(i), Ledgered(t, id, all[i]), Attempts(caps, t, id, hour, all, i))
    ensures AllPass(caps, t, id, hour, all, fates, i + 1)
  {}

  lemma AttemptMore(caps: Caps, t: Tables, id: SendId, hour: Hour, all: seq<Subscriber>, i: nat)
    requires i < |all|
    ensures SomeAttempt(caps, t, id, hour, all, i + 1) <==>
              SomeAttempt(caps, t, id, hour, all, i) || Attempts(caps, t, id, hour, all, i)
  {}

  lemma MessagesMore(caps: Caps, t: Tables, send: Send, now: Moment, all: seq<Subscriber>, fates: nat -> Fate, i: nat)
    requires i < |all|
    ensures Messages(caps, t, send, now, all, fates, i + 1) == Messages(caps, t, send, now, all, fates, i)
              + if Attempts(caps, t, send.id, now.hour, all, i) && fates(i).composed
                then [HandOff(send, Key(all[i]), now)] else []
  {}

  /** One recipient more has been served. */
  lemma ServedMore(caps: Caps, t: Tables, before: seq<HandOff>, tokens: set<Token>, w: Server, v: Server, send: Send,
                   now: Moment, all: seq<Subscriber>, fates: nat -> Fate, i: nat)
    requires Distinct(all) && i < |all| && Served(caps, t, before, tokens, w, send, now, all, fates, i)
    requires Passes(fates(i), Ledgered(t, send.id, all[i]), Attempts(caps, t, send.id, now.hour, all, i))
    requires Gave(w, v, send, now, all[i], fates(i), Attempts(caps, t, send.id, now.hour, all, i))
    ensures Served(caps, t, before, tokens, v, send, now, all, fates, i + 1)
  {
    PassMore(caps, t, send.id, now.hour, all, fates, i);
    GaveRows(caps, t, w, v, send, now, all, fates, i);
    GaveMail(caps, t, before, w, v, send, now, all, fates, i);
    GaveLinks(caps, t, tokens, w, v, send, now, all, fates, i);
    AttemptMore(caps, t, send.id, now.hour, all, i);
  }

  lemma GaveMail(caps: Caps, t: Tables, before: seq<HandOff>, w: Server, v: Server, send: Send, now: Moment,
                 all: seq<Subscriber>, fates: nat -> Fate, i: nat)
    requires i < |all| && MailServed(caps, t, before, w.mail, send, now, all, fates, i)
    requires Gave(w, v, send, now, all[i], fates(i), Attempts(caps, t, send.id, now.hour, all, i))
    ensures MailServed(caps, t, before, v.mail, send, now, all, fates, i + 1)
  {
    MessagesMore(caps, t, send, now, all, fates, i);
  }

  lemma GaveLinks(caps: Caps, t: Tables, tokens: set<Token>, w: Server, v: Server, send: Send, now: Moment,
                  all: seq<Subscriber>, fates: nat -> Fate, i: nat)
    requires i < |all| && LinksServed(caps, t, tokens, w.minted, send.id, now, all, i)
    requires Gave(w, v, send, now, all[i], fates(i), Attempts(caps, t, send.id, now.hour, all, i))
    ensures LinksServed(caps, t, tokens, v.minted, send.id, now, all, i + 1)
  {
    LinksMore(caps, t, send.id, now, all, i);
  }

  lemma GaveRows(caps: Caps, t: Tables, w: Server, v: Server, send: Send, now: Moment, all: seq<Subscriber>,
                 fates: nat -> Fate, i: nat)
    requires Distinct(all) && i < |all|
    requires RowsServed(caps, t, w.journal.Now(), send.id, now.hour, all, fates, i)
    requires Gave(w, v, send, now, all[i], fates(i), Attempts(caps, t, send.id, now.hour, all, i))
    ensures RowsServed(caps, t, v.journal.Now(), send.id, now.hour, all, fates, i + 1)
  {
    RowsMore(caps, t, w.journal.Now(), v.journal.Now(), send.id, now.hour, all, fates, i);
  }

  /** A turn that went on serves its recipient. */
  lemma ServesOn(w: Server, c: nat, t: Tables, before: seq<HandOff>, tokens: set<Token>, send: Send, now: Moment,
                 all: seq<Subscriber>, fates: nat -> Fate, i: nat, n: Counts)
    requires Distinct(all) && i < |all| && LoopAt(w, c, send, now, t, before, all, i, n)
    requires Served(w.caps, t, before, tokens, w, send, now, all, fates, i) && TurnAnswer(w, c, fates(i)).Ok?
    ensures Served(w.caps, t, before, tokens, TurnWorld(w, c, fates(i)), send, now, all, fates, i + 1)
  {
    GoesOnIff(w, c, t, before, send, now, all, fates(i), i, n);
    GivesNext(w, c, t, before, send, now, all, fates(i), i, n);
    ServedMore(w.caps, t, before, tokens, w, TurnWorld(w, c, fates(i)), send, now, all, fates, i);
  }

  lemma GivesNext(w: Server, c: nat, t: Tables, before: seq<HandOff>, send: Send, now: Moment, all: seq<Subscriber>,
                  f: Fate, i: nat, n: Counts)
    requires Distinct(all) && i < |all| && LoopAt(w, c, send, now, t, before, all, i, n) && TurnAnswer(w, c, f).Ok?
    ensures Gave(w, TurnWorld(w, c, f), send, now, all[i], f, Attempts(w.caps, t, send.id, now.hour, all, i))
  {
    assert w.calls[c].queue[0].row == all[i..][0] == all[i];
    NextAttempt(w.caps, t, w.journal.Now(), send.id, now.hour, all, i);
    TurnGives(w, c, f);
  }

  /** A turn goes on exactly if nothing goes wrong in it, judged by the tables the call began with. */
  lemma GoesOnIff(w: Server, c: nat, t: Tables, before: seq<HandOff>, send: Send, now: Moment, all: seq<Subscriber>,
                  f: Fate, i: nat, n: Counts)
    requires Distinct(all) && i < |all| && LoopAt(w, c, send, now, t, before, all, i, n)
    ensures TurnAnswer(w, c, f).Ok? <==>
              Passes(f, Ledgered(t, send.id, all[i]), Attempts(w.caps, t, send.id, now.hour, all, i))
    ensures TurnAnswer(w, c, f).Err? ==> TurnAnswer(w, c, f).error == Fault(f)
  {
    assert w.calls[c].queue[0].row == all[i..][0] == all[i];
    NextAttempt(w.caps, t, w.journal.Now(), send.id, now.hour, all, i);
    TurnOkIff(w, c, f);
  }

  lemma ServedNone(w: Server, t: Tables, send: Send, now: Moment, all: seq<Subscriber>, fates: nat -> Fate)
    ensures Served(w.caps, t, w.mail, TokensOf(w.minted), w, send, now, all, fates, 0)
  {}

  lemma NotAllPass(caps: Caps, t: Tables, id: SendId, hour: Hour, all: seq<Subscriber>, fates: nat -> Fate, i: nat)
    requires i < |all| && !Passes(fates(i), Ledgered(t, id, all[i]), Attempts(caps, t, id, hour, all, i))
    requires AllPass(caps, t, id, hour, all, fates, i)
    ensures !AllPass(caps, t, id, hour, all, fates, |all|)
    ensures Stops(caps, t, id, hour, all, fates, Fault(fates(i)))
  {}

  /** The loop stands before `all[i]`, everybody before it served. */
  ghost predicate LoopServed(w: Server, c: nat, send: Send, now: Moment, t: Tables, before: seq<HandOff>,
                             tokens: set<Token>, all: seq<Subscriber>, fates: nat -> Fate, i: nat, n: Counts)
  {
    && LoopAt(w, c, send, now, t, before, all, i, n)
    && Served(w.caps, t, before, tokens, w, send, now, all, fates, i)
    && w.journal.Now().sends == t.sends
  }

  /** What a call has done that ran to its end. */
  ghost predicate CallServed(w: Server, send: Send, now: Moment, t: Tables, before: seq<HandOff>, tokens: set<Token>,
                             all: seq<Subscriber>, fates: nat -> Fate, n: Counts)
  {
    && SoFar(w.caps, t, w.journal.Now(), send.id, now.hour, all, n)
    && MailFits(before, w.mail, send, now, n) && Fanouts.MailSoFar(w, send, now, t, before, all)
    && Served(w.caps, t, before, tokens, w, send, now, all, fates, |all|)
  }

  lemma ServedSame(caps: Caps, t: Tables, before: seq<HandOff>, tokens: set<Token>, w: Server, v: Server, send: Send,
                   now: Moment, all: seq<Subscriber>, fates: nat -> Fate, n: nat)
    requires n <= |all| && Served(caps, t, before, tokens, w, send, now, all, fates, n)
    requires v.journal == w.journal && v.mail == w.mail && v.minted == w.minted
    ensures Served(caps, t, before, tokens, v, send, now, all, fates, n)
  {}

  /** At the end of the queue the call is over. */
  lemma LoopServedEnds(w: Server, c: nat, send: Send, now: Moment, t: Tables, before: seq<HandOff>, tokens: set<Token>,
                       all: seq<Subscriber>, fates: nat -> Fate, n: Counts)
    requires LoopServed(w, c, send, now, t, before, tokens, all, fates, |all|, n)
    ensures c in w.calls && w.calls[c].pc.Checking? && w.calls[c].queue == []
    ensures var v := At(w, c, Done);
            && (forall d | d in v.calls :: Ended(v.calls[d].pc))
            && CallServed(v, send, now, t, before, tokens, all, fates, n)
  {
    LoopEnds(w, c, send, now, t, before, all, n);
    ServedSame(w.caps, t, before, tokens, w, At(w, c, Done), send, now, all, fates, |all|);
  }

  // ----- before the loop

  /** Neither the plan nor what it owes depends on the `sends` keyspace. */
  lemma AttemptAside(caps: Caps, t: Tables, t1: Tables, id: SendId, hour: Hour, all: seq<Subscriber>, j: nat)
    requires t1.(sends := t.sends) == t && j < |all|
    ensures Attempts(caps, t1, id, hour, all, j) == Attempts(caps, t, id, hour, all, j)
  {
    UnledgeredSame(t, t1, id, all[..j]);
  }

  lemma AttemptsAside(caps: Caps, t: Tables, t1: Tables, id: SendId, hour: Hour, all: seq<Subscriber>)
    requires t1.(sends := t.sends) == t
    ensures forall j | 0 <= j < |all| :: Attempts(caps, t1, id, hour, all, j) == Attempts(caps, t, id, hour, all, j)
  {
    forall j | 0 <= j < |all|
      ensures Attempts(caps, t1, id, hour, all, j) == Attempts(caps, t, id, hour, all, j)
    {
      AttemptAside(caps, t, t1, id, hour, all, j);
    }
  }

  lemma {:induction false} MessagesAside(caps: Caps, t: Tables, t1: Tables, send: Send, now: Moment,
                                         all: seq<Subscriber>, fates: nat -> Fate, n: nat)
    requires t1.(sends := t.sends) == t && n <= |all|
    ensures Messages(caps, t1, send, now, all, fates, n) == Messages(caps, t, send, now, all, fates, n)
  {
    if n > 0 {
      MessagesAside(caps, t, t1, send, now, all, fates, n - 1);
      AttemptAside(caps, t, t1, send.id, now.hour, all, n - 1);
      MessagesMore(caps, t, send, now, all, fates, n - 1);
      MessagesMore(caps, t1, send, now, all, fates, n - 1);
    }
  }

  lemma PassAside(caps: Caps, t: Tables, t1: Tables, id: SendId, hour: Hour, all: seq<Subscriber>, fates: nat -> Fate)
    requires t1.(sends := t.sends) == t
    ensures AllPass(caps, t1, id, hour, all, fates, |all|) <==> AllPass(caps, t, id, hour, all, fates, |all|)
    ensures forall e :: Stops(caps, t1, id, hour, all, fates, e) ==> Stops(caps, t, id, hour, all, fates, e)
  {
    AttemptsAside(caps, t, t1, id, hour, all);
    forall e | Stops(caps, t1, id, hour, all, fates, e)
      ensures Stops(caps, t, id, hour, all, fates, e)
    {
      var j :| 0 <= j < |all| && AllPass(caps, t1, id, hour, all, fates, j)
               && !Passes(fates(j), Ledgered(t1, id, all[j]), Attempts(caps, t1, id, hour, all, j))
               && e == Fault(fates(j));
      assert AllPass(caps, t, id, hour, all, fates, j);
    }
  }

  lemma LinksAside(caps: Caps, t: Tables, t1: Tables, id: SendId, now: Moment, all: seq<Subscriber>)
    requires t1.(sends := t.sends) == t
    ensures LinksOwed(caps, t1, id, now, all, |all|) == LinksOwed(caps, t, id, now, all, |all|)
  {
    AttemptsAside(caps, t, t1, id, now.hour, all);
  }

  lemma ServedAside(caps: Caps, t: Tables, t1: Tables, before: seq<HandOff>, tokens: set<Token>, w: Server, send: Send,
                    now: Moment, all: seq<Subscriber>, fates: nat -> Fate)
    requires t1.(sends := t.sends) == t && Served(caps, t1, before, tokens, w, send, now, all, fates, |all|)
    ensures Served(caps, t, before, tokens, w, send, now, all, fates, |all|)
  {
    AttemptsAside(caps, t, t1, send.id, now.hour, all);
    MessagesAside(caps, t, t1, send, now, all, fates, |all|);
    LinksAside(caps, t, t1, send.id, now, all);
  }

  lemma CallAside(w: Server, send: Send, now: Moment, t: Tables, t1: Tables, before: seq<HandOff>, tokens: set<Token>,
                  all: seq<Subscriber>, fates: nat -> Fate, n: Counts)
    requires t1.(sends := t.sends) == t && CallServed(w, send, now, t1, before, tokens, all, fates, n)
    ensures CallServed(w, send, now, t, before, tokens, all, fates, n)
  {
    SendsAside(w.caps, t, t1, w.journal.Now(), send.id, now.hour, all, n);
    MailAside(w, send, now, t, t1, before, all);
    ServedAside(w.caps, t, t1, before, tokens, w, send, now, all, fates);
  }

  // ----- the record

  /** The id is new, or its record has this subject and body. */
  predicate Agrees(t: Tables, id: SendId, subject: string, bodyHtml: string) {
    id in t.sends ==> t.sends[id].subject == subject && t.sends[id].bodyHtml == bodyHtml
  }

  /** The `sends` keyspace holds what it held, and a record under the id. */
  ghost predicate OneRecord(t: Tables, t': Tables, made: Send) {
    t'.sends == if made.id in t.sends then t.sends else t.sends[made.id := made]
  }

  /** How settling the record `made` ends: refused exactly for other content; otherwise it works exactly if the
  read does and, for a new id, the durable write. */
  ghost predicate RecordSettled(w: Server, v: Server, made: Send, ok: bool, io: PutIo, r: Result<Send>) {
    var t, t' := w.journal.Now(), v.journal.Now();
    && (r == Err(BadRequest) <==> ok && !Agrees(t, made.id, made.subject, made.bodyHtml))
    && (r.Ok? <==> ok && Agrees(t, made.id, made.subject, made.bodyHtml) && (made.id !in t.sends ==> io.Synced?))
    && (r.Ok? ==> OneRecord(t, t', made))
    && (OneRecord(t, t', made) || v.journal == w.journal)
    && (r == Err(BadRequest) ==> v.journal == w.journal)
    && v.minted == w.minted
  }

  lemma ResolveOkIff(w: Server, c: nat, made: Send, now: Moment, ok: bool, io: PutIo)
    ensures RecordSettled(w, ResolvedWorld(w, c, made, now, ok, io), made, ok, io,
                          ResolveAnswer(w.journal.Now(), made, ok, io))
  {
    AppendViews(w.journal, PutSend(made));
  }

  // ----- the call

  /** Everything outside the server's control during one `/send` call. */
  datatype CallIo = CallIo(lookup: bool, create: PutIo, scan: bool, fates: nat -> Fate)

  /** The record can be read, and written if the id is new. */
  predicate RecordIo(io: CallIo, t: Tables, id: SendId) { io.lookup && (id !in t.sends ==> io.create.Synced?) }

  /** Nothing goes wrong that would end the call: the record can be settled, the recipients can be read, and no
  turn ends it. */
  ghost predicate Succeeds(caps: Caps, t: Tables, id: SendId, hour: Hour, active: seq<Subscriber>, io: CallIo) {
    && RecordIo(io, t, id) && io.scan
    && AllPass(caps, t, id, hour, active, io.fates, |active|)
  }

  /** Nothing at all goes wrong. */
  ghost predicate CleanCall(io: CallIo) {
    io.lookup && io.create.Synced? && io.scan && forall j :: Clean(io.fates(j))
  }

  lemma CleanSucceeds(caps: Caps, t: Tables, id: SendId, hour: Hour, active: seq<Subscriber>, io: CallIo)
    requires CleanCall(io)
    ensures Succeeds(caps, t, id, hour, active, io)
  {
    CleanPasses(caps, t, id, hour, active, io.fates);
  }

  /** How a call whose record is settled ends. */
  ghost predicate CallOver(w: Server, send: Send, now: Moment, t: Tables, before: seq<HandOff>, tokens: set<Token>,
                           active: seq<Subscriber>, io: CallIo, r: Result<Counts>)
  {
    && (r.Ok? <==> io.scan && AllPass(w.caps, t, send.id, now.hour, active, io.fates, |active|))
    && match r {
      case Ok(n) => CallServed(w, send, now, t, before, tokens, active, io.fates, n)
      case Err(e) =>
        && PartialCall(t, w.journal.Now(), send.id, now.hour, active) && MailWithin(before, w.mail, send, now, active)
        && if io.scan then Stops(w.caps, t, send.id, now.hour, active, io.fates, e) else e == Error.Store
    }
  }

  lemma OverAside(w: Server, send: Send, now: Moment, t: Tables, t1: Tables, before: seq<HandOff>, tokens: set<Token>,
                  active: seq<Subscriber>, io: CallIo, r: Result<Counts>)
    requires t1.(sends := t.sends) == t && CallOver(w, send, now, t1, before, tokens, active, io, r)
    ensures CallOver(w, send, now, t, before, tokens, active, io, r)
    ensures r.Err? ==> !r.error.BadRequest?
  {
    PassAside(w.caps, t, t1, send.id, now.hour, active, io.fates);
    match r
    case Ok(n) => CallAside(w, send, now, t, t1, before, tokens, active, io.fates, n);
    case Err(_) => PartialAside(t, t1, w.journal.Now(), send.id, now.hour, active);
  }
}
