/** What the mailed links are good for: how long each can be presented, and what it then does. */
module Links {
  import opened Records
  import opened Base64
  import opened Tokens
  import opened Journals
  import opened Protocol
  import opened Runs
  import opened Restarts
  import opened Pages
  import opened Effects

  /** The row of a visitor who has confirmed at `at`: the old one, or a new one, made Active. */
  function Joined(rows: map<string, Subscriber>, key: string, at: int): Subscriber {
    if key in rows then Up(rows[key], at) else New(key, 0, at)
  }

  /** A confirm link at the generation of a row that is not Active, or at 0 for a missing one. */
  lemma ConfirmLinkStep(v: Server, m: Minted, at: int, put: PutIo)
    requires m in v.minted && m.token.kind.Confirm? && Lower(m.token.email) == m.token.email
    requires var rows, key := v.journal.Now().subscribers, m.token.email;
             if key in rows then !rows[key].state.Active? && m.token.generation == rows[key].generation
             else m.token.generation == 0
    ensures var after := Step(v, ConfirmPost(m, at, put));
            if at > m.token.expUnix then after == v
            else after.journal ==
                   v.journal.Put(PutSubscriber(Joined(v.journal.Now().subscribers, m.token.email, at)), put)
  {}

  /** The link a subscription request mails is minted for the lower-cased address, at the generation of its
  row or 0. Over every continuation it can be presented until 86400 seconds have passed and not after; and
  while the address's row is what it was and not Active, presenting it then stores an Active row, a new one
  or the old one at its generation. */
  lemma ConfirmLinkWorks(w: Server, email: string, unix: int, ys: seq<Event>, at: int, put: PutIo)
    requires var key, rows := Lower(email), Exec(w, [Subscribe(email, unix)] + ys).journal.Now().subscribers;
             var was := w.journal.Now().subscribers;
             && (key in rows <==> key in was) && (key in was ==> rows[key] == was[key] && !was[key].state.Active?)
    ensures var key, was, v := Lower(email), w.journal.Now().subscribers, Exec(w, [Subscribe(email, unix)] + ys);
            var link := Token(Confirm, key, unix + 86400, if key in was then was[key].generation else 0);
            exists m | m in v.minted && m.token == link ::
              var after := Exec(w, [Subscribe(email, unix)] + ys + [ConfirmPost(m, at, put)]);
              if at > unix + 86400 then after == v
              else after.journal == v.journal.Put(PutSubscriber(Joined(was, key, at)), put)
  {
    var m := MintConfirm(w, email, unix);
    var v := Exec(w, [Subscribe(email, unix)] + ys);
    One(w, Subscribe(email, unix));
    ExecSplit(w, [Subscribe(email, unix)], ys);
    MintedStays(Step(w, Subscribe(email, unix)), ys, m);
    Extend(w, [Subscribe(email, unix)] + ys, ConfirmPost(m, at, put));
    LowerTwice(email);
    assert m in v.minted;
    ConfirmLinkStep(v, m, at, put);
  }

  /** An unsubscribe link at the generation of an Active row. */
  lemma NewsletterLinkStep(v: Server, m: Minted, at: int, put: PutIo)
    requires m in v.minted && m.token.kind.Unsubscribe?
    requires var rows, key := v.journal.Now().subscribers, Lower(m.token.email);
             key in rows && rows[key].state.Active? && m.token.generation == rows[key].generation
    ensures var s, after := v.journal.Now().subscribers[Lower(m.token.email)], Step(v, UnsubscribePost(m, at, put));
            if at > m.token.expUnix then after == v
            else after.journal == v.journal.Put(PutSubscriber(Down(s, at)), put)
  {}

  /** The link a newsletter carries is minted from the row the fan-out read. Over every continuation it can be
  presented for ten years of 365 days and not after; and while the row is what was read, Active at its
  generation, presenting it stores the row Unsubscribed, one generation further. */
  lemma NewsletterLinkWorks(w: Server, c: nat, composed: bool, ys: seq<Event>, at: int, put: PutIo)
    requires c in w.calls && w.calls[c].pc.Admitted? && w.calls[c].queue != []
    requires var s, rows := w.calls[c].queue[0].row,
                            Exec(w, [OfCall(c, Compose(true, composed))] + ys).journal.Now().subscribers;
             s.state.Active? && Lower(s.email) in rows && rows[Lower(s.email)] == s
    ensures var s, v := w.calls[c].queue[0].row, Exec(w, [OfCall(c, Compose(true, composed))] + ys);
            var link := Token(Unsubscribe, s.email, w.calls[c].now.unix + 315360000, s.generation);
            exists m | m in v.minted && m.token == link ::
              var after := Exec(w, [OfCall(c, Compose(true, composed))] + ys + [UnsubscribePost(m, at, put)]);
              if at > w.calls[c].now.unix + 315360000 then after == v
              else after.journal == v.journal.Put(PutSubscriber(Down(s, at)), put)
  {
    var e, m := OfCall(c, Compose(true, composed)), UnsubscribeToken(w.calls[c]);
    var v := Exec(w, [e] + ys);
    One(w, e);
    ExecSplit(w, [e], ys);
    MintedStays(Step(w, e), ys, m);
    Extend(w, [e] + ys, UnsubscribePost(m, at, put));
    assert m in v.minted;
    NewsletterLinkStep(v, m, at, put);
  }

  /** The text of a link: what was signed is presented to the endpoint of its kind as the token that was
  signed until it expires, and to the other endpoint, or later, as nothing. */
  lemma SignedLinkPresents(mac: Mac, secret: Bytes, t: Token, at: int, kind: TokenKind)
    requires WellTyped(t) && secret != []
    ensures Sign(mac, t, secret).Ok?
    ensures Presented(mac, secret, Sign(mac, t, secret).value, at, kind) ==
              if t.kind == kind && at <= t.expUnix then Some(t) else None
  {
    VerifySign(mac, t, secret, at);
  }
}
