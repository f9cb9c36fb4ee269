/** When a reused send record is durable: whenever no call on its id was cut off between
inserting the record and having it synced, with the process surviving. */
module Anchoring {
  import opened Records
  import opened Journals
  import opened Protocol
  import opened Frames
  import opened Budgets
  import opened Durability
  import opened Contents

  predicate CreatedOn(w: Server, c: nat, id: SendId) {
    c in w.calls && w.calls[c].send.id == id && w.calls[c].pc.Created?
  }

  /** The event leaves the record of `id` in the tables with nobody about to sync it: its insert
  reports an error though it reached the journal, its sync fails, or the process is
  killed between the two. */
  ghost predicate Strands(w: Server, e: Event, id: SendId) {
    || (e.OfCall? && e.call in w.calls && w.calls[e.call].send.id == id &&
        (|| (e.act == InsertSend(Refused(true)) && w.calls[e.call].pc.Creating?)
         || (e.act == SyncSend(false) && w.calls[e.call].pc.Created?)))
    || (e.Kill? && exists c :: CreatedOn(w, c, id))
  }

  ghost predicate NeverStranded(w: Server, es: seq<Event>, id: SendId) {
    es == [] ||
    (NeverStranded(w, es[..|es| - 1], id) && !Strands(Exec(w, es[..|es| - 1]), es[|es| - 1], id))
  }

  /** A record in the tables is durable, or the call that inserted it is about to sync it. */
  ghost predicate Tidy(w: Server, id: SendId) {
    && w.journal.Valid()
    && (HasSend(w.journal.Now(), id) ==> HasSend(Mark(w.journal), id) || exists c :: CreatedOn(w, c, id))
  }

  /** No record ever takes a send away. */
  lemma {:induction false} SendsOnlyGrow(base: Tables, log: seq<Record>, more: seq<Record>, id: SendId)
    requires HasSend(Replay(base, log), id)
    ensures HasSend(Replay(base, log + more), id)
    decreases |more|
  {
    if more == [] {
      assert log + more == log;
    } else {
      var n := |more| - 1;
      SendsOnlyGrow(base, log, more[..n], id);
      assert (log + more)[..|log + more| - 1] == log + more[..n];
    }
  }

  lemma MarkGrows(j: Journal, j': Journal, id: SendId)
    requires Keeps(j, j') && HasSend(Mark(j), id)
    ensures HasSend(Mark(j'), id)
  {
    var front := j.log[..j.synced];
    assert front == j'.log[..j.synced];
    assert j'.log[..j'.synced] == front + j'.log[j.synced..j'.synced];
    SendsOnlyGrow(j.base, front, j'.log[j.synced..j'.synced], id);
  }

  /** A call that has inserted its record does nothing but sync it. */
  lemma OnlySyncs(w: Server, d: nat, act: Act)
    requires d in w.calls && w.calls[d].pc.Created? && !act.SyncSend?
    ensures CallStep(w, d, w.calls[d], act) == w
  {}

  lemma TidyInsert(w: Server, d: nat, io: WriteIo, id: SendId)
    requires w.journal.Valid() && Tidy(w, id) && d in w.calls && !Strands(w, OfCall(d, InsertSend(io)), id)
    requires !HasSend(Mark(w.journal), id)
    ensures var w' := InsertSendStep(w, d, w.calls[d], io);
            HasSend(w'.journal.Now(), id) ==> exists c :: CreatedOn(w', c, id)
  {
    var k := w.calls[d];
    var w' := InsertSendStep(w, d, k, io);
    if k.pc.Creating? {
      WriteGrows(w.journal, PutSend(k.send), io);
      if HasSend(w.journal.Now(), id) {
        var c :| CreatedOn(w, c, id);
        assert CreatedOn(w', c, id);
      } else if HasSend(w'.journal.Now(), id) {
        assert CreatedOn(w', d, id);
      }
    }
  }

  lemma TidySync(w: Server, d: nat, ok: bool, id: SendId)
    requires w.journal.Valid() && Tidy(w, id) && d in w.calls && !Strands(w, OfCall(d, SyncSend(ok)), id)
    ensures Tidy(SyncSendStep(w, d, w.calls[d], ok), id)
  {
    var w' := SyncSendStep(w, d, w.calls[d], ok);
    FullView(w.journal);
    if w.calls[d].pc.Created? && !ok && HasSend(w.journal.Now(), id) && !HasSend(Mark(w.journal), id) {
      var c :| CreatedOn(w, c, id);
      assert CreatedOn(w', c, id);
    }
  }

  lemma TidyCall(w: Server, d: nat, act: Act, id: SendId)
    requires BaseInv(w) && Tidy(w, id) && d in w.calls && !Strands(w, OfCall(d, act), id)
    ensures Tidy(CallStep(w, d, w.calls[d], act), id)
  {
    var w' := Step(w, OfCall(d, act));
    KeepsStep(w, OfCall(d, act));
    if HasSend(Mark(w.journal), id) {
      MarkGrows(w.journal, w'.journal, id);
    } else if act.InsertSend? {
      TidyInsert(w, d, act.io, id);
    } else if act.SyncSend? {
      TidySync(w, d, act.ok, id);
    } else {
      CallTables(w, d, act);
      if HasSend(w.journal.Now(), id) {
        var c :| CreatedOn(w, c, id);
        if c == d { OnlySyncs(w, d, act); }
        assert CreatedOn(w', c, id);
      }
    }
  }

  lemma TidyStep(w: Server, e: Event, id: SendId)
    requires BaseInv(w) && Tidy(w, id) && !Strands(w, e, id)
    ensures Tidy(Step(w, e), id)
  {
    var w' := Step(w, e);
    BaseNow(w);
    if e.OfCall? {
      if e.call in w.calls { TidyCall(w, e.call, e.act, id); }
    } else if e.PowerLoss? {
      FullView(w'.journal);
    } else {
      KeepsStep(w, e);
      if HasSend(Mark(w.journal), id) {
        MarkGrows(w.journal, w'.journal, id);
      } else {
        TidyAside(w, e, id);
      }
    }
  }

  lemma TidyAside(w: Server, e: Event, id: SendId)
    requires BaseInv(w) && Keyed(w.journal.Now()) && Tidy(w, id) && !Strands(w, e, id) && !HasSend(Mark(w.journal), id)
    requires e.Resolve? || e.Kill? || Aside(e)
    ensures HasSend(Step(w, e).journal.Now(), id) ==> exists c :: CreatedOn(Step(w, e), c, id)
  {
    var w' := Step(w, e);
    if e.Resolve? {
      ResolveFrame(w, e);
    } else if Aside(e) {
      AsideFrame(w, e);
    }
    if HasSend(w.journal.Now(), id) {
      var c :| CreatedOn(w, c, id);
      assert CreatedOn(w', c, id);
    }
  }

  lemma TidyIsAnchored(v: Server, e: Event, id: SendId)
    requires Tidy(v, id) && Apart(v, e, id)
    ensures Anchored(v, e, id)
  {}

  /** With calls on `id` that do not overlap, a run that never strands its record reuses it only when durable. */
  lemma {:induction false} UnstrandedIsAnchored(w: Server, es: seq<Event>, id: SendId)
    requires Init(w) && Serial(w, es, id) && NeverStranded(w, es, id)
    ensures AllAnchored(w, es, id) && Tidy(Exec(w, es), id) && BaseInv(Exec(w, es))
    decreases |es|
  {
    BaseRun(w, es);
    if es == [] {
      FullView(w.journal);
    } else {
      var n := |es| - 1;
      UnstrandedIsAnchored(w, es[..n], id);
      TidyStep(Exec(w, es[..n]), es[n], id);
      TidyIsAnchored(Exec(w, es[..n]), es[n], id);
    }
  }

  /** So under one id one newsletter goes out, over every run in which calls on it do not
  overlap and none of them is cut off with its record inserted but not synced. */
  lemma UnstrandedOneContent(w: Server, es: seq<Event>, id: SendId, i: nat, j: nat)
    requires Init(w) && Serial(w, es, id) && NeverStranded(w, es, id)
    requires i < |Exec(w, es).mail| && Exec(w, es).mail[i].send.id == id
    requires j < |Exec(w, es).mail| && Exec(w, es).mail[j].send.id == id
    ensures Exec(w, es).mail[i].send == Exec(w, es).mail[j].send
  {
    UnstrandedIsAnchored(w, es, id);
    AnchoredOneContent(w, es, id, i, j);
  }
}
