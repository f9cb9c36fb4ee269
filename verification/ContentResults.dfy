/** One id, one newsletter: exactly when. */
module ContentResults {
  import opened Records
  import opened Journals
  import opened Protocol
  import opened Budgets
  import opened Serials
  import opened Standings
  import opened Contents
  import opened Reissues

  /** The same newsletter: what `resolve_send` compares, and all of a record that reaches a message. */
  predicate SameContent(a: Send, b: Send) { a.subject == b.subject && a.bodyHtml == b.bodyHtml }

  /** All messages of one id carry one newsletter. */
  predicate OneContent(mail: seq<HandOff>, id: SendId) {
    forall i, j | 0 <= i < |mail| && 0 <= j < |mail| && mail[i].send.id == id && mail[j].send.id == id ::
      SameContent(mail[i].send, mail[j].send)
  }

  /** All messages of `send`'s id carry the newsletter of `send`. */
  predicate AllOf(mail: seq<HandOff>, send: Send) {
    forall i | 0 <= i < |mail| && mail[i].send.id == send.id :: SameContent(mail[i].send, send)
  }

  /** In every continuation whose calls on `id` do not overlap, the id stands for one newsletter. */
  ghost predicate AlwaysOne(w: Server, es: seq<Event>, id: SendId) {
    forall ys | Serial(w, es + ys, id) :: OneContent(Exec(w, es + ys).mail, id)
  }

  /** In every such continuation, what goes out from now on under the id of `send` is `send`. */
  ghost predicate AlwaysCarries(w: Server, es: seq<Event>, send: Send) {
    forall ys | Serial(w, es + ys, send.id) :: Carry(Exec(w, es + ys).mail, |Exec(w, es).mail|, send)
  }

  lemma Continue(w: Server, es: seq<Event>, ys: seq<Event>, id: SendId)
    requires Serial(w, es, id) && Serial(Exec(w, es), ys, id)
    ensures Serial(w, es + ys, id) && Exec(w, es + ys) == Exec(Exec(w, es), ys)
  {
    SerialAppend(w, es, ys, id);
    ExecSplit(w, es, ys);
  }

  lemma AfterRun(w: Server, es: seq<Event>, id: SendId)
    requires Init(w) && Serial(w, es, id)
    ensures var v := Exec(w, es);
            && BaseInv(v) && LogOk(v.journal) && SendInv(v, id) && v.caps == w.caps
            && (HasSend(Mark(v.journal), id) ==> Mark(v.journal).sends[id].id == id)
  {
    LogOkRun(w, es);
    SendRun(w, es, id);
    CapsFixed(w, es);
    var v := Exec(w, es);
    assert Sound(v.caps, v.journal.View(v.journal.synced));
  }

  // ----- a state whose record is not durable

  function Titled(id: SendId, subject: string): Send { Send(id, subject, "b", 0) }

  lemma TitlesDiffer(before: seq<HandOff>, between: seq<HandOff>, after: seq<HandOff>, id: SendId)
    requires |between| == |before| + 1 && between[|before|].send == Titled(id, "s")
    requires |after| == |between| + 1 && after[..|between|] == between && after[|between|].send == Titled(id, "t")
    ensures !OneContent(after, id)
  {
    var n := |before|;
    assert after[..|between|][n] == after[n];
    assert after[n].send.subject == "s" && after[n + 1].send.subject == "t";
  }

  /** Two newsletters can go out one after the other, the second leaving the id as open as the first. */
  lemma TwoIssues(v: Server, id: SendId) returns (xs: seq<Event>, ys: seq<Event>)
    requires BaseInv(v) && LogOk(v.journal) && Issuable(v.caps) && !HasSend(Mark(v.journal), id)
    ensures Serial(v, xs, id) && Serial(Exec(v, xs), ys, id) && !OneContent(Exec(Exec(v, xs), ys).mail, id)
  {
    xs := SendAnything(v, Titled(id, "s"));
    CapsFixed(v, xs);
    ys := SendAnything(Exec(v, xs), Titled(id, "t"));
    TitlesDiffer(v.mail, Exec(v, xs).mail, Exec(Exec(v, xs), ys).mail, id);
  }

  lemma TwoContents(w: Server, es: seq<Event>, id: SendId)
    requires Init(w) && Issuable(w.caps) && Serial(w, es, id)
    requires Exec(w, es).journal.Valid() && !HasSend(Mark(Exec(w, es).journal), id)
    ensures !AlwaysOne(w, es, id)
  {
    AfterRun(w, es, id);
    var v := Exec(w, es);
    var xs, ys := TwoIssues(v, id);
    SerialAppend(v, xs, ys, id);
    ExecSplit(v, xs, ys);
    Continue(w, es, xs + ys, id);
  }

  lemma OtherContent(w: Server, es: seq<Event>, send: Send)
    requires Init(w) && Issuable(w.caps) && Serial(w, es, send.id)
    requires Exec(w, es).journal.Valid() && !HasSend(Mark(Exec(w, es).journal), send.id)
    ensures !AlwaysCarries(w, es, send)
  {
    AfterRun(w, es, send.id);
    var v, other := Exec(w, es), Titled(send.id, send.subject + "x");
    var ys := SendAnything(v, other);
    Continue(w, es, ys, send.id);
    assert other.subject != send.subject;
    assert Exec(w, es + ys).mail[|v.mail|].send == other;
    assert !Carry(Exec(w, es + ys).mail, |v.mail|, send);
  }

  /** And one whose record is durable. */
  lemma DurableStays(w: Server, es: seq<Event>, n: nat, send: Send)
    requires Init(w) && Serial(w, es, send.id) && Exec(w, es).journal.Valid()
    requires HasSend(Mark(Exec(w, es).journal), send.id) && Mark(Exec(w, es).journal).sends[send.id] == send
    requires Carry(Exec(w, es).mail, n, send)
    ensures forall ys | Serial(w, es + ys, send.id) :: Carry(Exec(w, es + ys).mail, n, send)
  {
    SendRun(w, es, send.id);
    forall ys | Serial(w, es + ys, send.id)
      ensures Carry(Exec(w, es + ys).mail, n, send)
    {
      FixedRun(w, es, ys, n, send);
    }
  }

  /** If one newsletter is all that ever goes out, what has gone out is that of the durable record. */
  lemma EarlierToo(w: Server, es: seq<Event>, id: SendId, i: nat)
    requires Init(w) && Issuable(w.caps) && Serial(w, es, id) && AlwaysOne(w, es, id) && Exec(w, es).journal.Valid()
    requires HasSend(Mark(Exec(w, es).journal), id)
    requires i < |Exec(w, es).mail| && Exec(w, es).mail[i].send.id == id
    ensures SameContent(Exec(w, es).mail[i].send, Mark(Exec(w, es).journal).sends[id])
  {
    AfterRun(w, es, id);
    var v := Exec(w, es);
    var ys := SendDurable(v, id);
    Continue(w, es, ys, id);
    var mail := Exec(w, es + ys).mail;
    assert OneContent(mail, id);
    assert mail[..|v.mail|][i] == v.mail[i];
    assert SameContent(mail[i].send, mail[|v.mail|].send);
  }

  /** And if all of it was, with the record durable, nothing else follows. */
  lemma LaterToo(w: Server, es: seq<Event>, ys: seq<Event>, send: Send)
    requires Init(w) && Serial(w, es, send.id) && Serial(w, es + ys, send.id) && Exec(w, es).journal.Valid()
    requires HasSend(Mark(Exec(w, es).journal), send.id) && Mark(Exec(w, es).journal).sends[send.id] == send
    requires AllOf(Exec(w, es).mail, send)
    ensures OneContent(Exec(w, es + ys).mail, send.id)
  {
    var before, mail := Exec(w, es).mail, Exec(w, es + ys).mail;
    DurableStays(w, es, |before|, send);
    assert Carry(mail, |before|, send);
    ExecSplit(w, es, ys);
    MailGrows(Exec(w, es), ys);
    forall i | 0 <= i < |mail| && mail[i].send.id == send.id
      ensures SameContent(mail[i].send, send)
    {
      if i < |before| { assert mail[i] == before[i]; }
    }
  }

  // ----- main results

  /** For every run whose calls on `id` do not overlap: the id stands for one newsletter in it and
  in all its continuations exactly when the record is durable by now and whatever went out
  before was that newsletter. */
  lemma OneIdOneContent(w: Server, es: seq<Event>, id: SendId)
    requires Init(w) && Issuable(w.caps) && Serial(w, es, id)
    ensures Exec(w, es).journal.Valid()
    ensures HasSend(Mark(Exec(w, es).journal), id) ==> Mark(Exec(w, es).journal).sends[id].id == id
    ensures AlwaysOne(w, es, id) <==>
              var v := Exec(w, es);
              HasSend(Mark(v.journal), id) && AllOf(v.mail, Mark(v.journal).sends[id])
  {
    AfterRun(w, es, id);
    var v := Exec(w, es);
    if !HasSend(Mark(v.journal), id) {
      TwoContents(w, es, id);
    } else if AlwaysOne(w, es, id) {
      forall i | 0 <= i < |v.mail| && v.mail[i].send.id == id
        ensures SameContent(v.mail[i].send, Mark(v.journal).sends[id])
      {
        EarlierToo(w, es, id, i);
      }
    } else if AllOf(v.mail, Mark(v.journal).sends[id]) {
      forall ys | Serial(w, es + ys, id)
        ensures OneContent(Exec(w, es + ys).mail, id)
      {
        LaterToo(w, es, ys, Mark(v.journal).sends[id]);
      }
    }
  }

  /** What the tables hold under the id is what goes out under it from now on, in every such
  continuation, exactly when the synced mark covers it. */
  lemma RecordGoesOutIff(w: Server, es: seq<Event>, id: SendId)
    requires Init(w) && Issuable(w.caps) && Serial(w, es, id) && HasSend(Exec(w, es).journal.Now(), id)
    ensures Exec(w, es).journal.Valid()
    ensures AlwaysCarries(w, es, Exec(w, es).journal.Now().sends[id]) <==> HasSend(Mark(Exec(w, es).journal), id)
  {
    AfterRun(w, es, id);
    var v := Exec(w, es);
    BaseNow(v);
    var send := v.journal.Now().sends[id];
    if HasSend(Mark(v.journal), id) {
      MarkNow(v.journal, id);
      DurableStays(w, es, |v.mail|, send);
    } else {
      OtherContent(w, es, send);
    }
  }

  /** A record in the tables is left as it is by every power loss exactly when the synced mark covers it. */
  lemma RecordSurvivesIff(w: Server, es: seq<Event>, id: SendId)
    requires Init(w) && Serial(w, es, id) && HasSend(Exec(w, es).journal.Now(), id)
    ensures var j := Exec(w, es).journal;
      && j.Valid()
      && ((forall keep: nat | j.synced <= keep <= |j.log| :: SameSend(j.View(keep), j.Now(), id)) <==>
            HasSend(Mark(j), id))
  {
    SendRun(w, es, id);
    var j := Exec(w, es).journal;
    FullView(j);
    if HasSend(Mark(j), id) {
      forall keep: nat | j.synced <= keep <= |j.log|
        ensures SameSend(j.View(keep), j.Now(), id)
      {
        assert Kept(j.View(j.synced), j.View(keep), id);
        assert Kept(j.View(keep), j.View(|j.log|), id);
      }
    } else {
      assert !SameSend(j.View(j.synced), j.Now(), id);
    }
  }
}
