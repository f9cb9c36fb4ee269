/** What the confirmation and unsubscription endpoints answer, and what they store. */
module Pages {
  import opened Records
  import opened Base64
  import opened Tokens
  import opened Journals
  import opened Protocol

  datatype Page =
    | InvalidTokenPage
    | ConfirmInterstitial(raw: string)
    | ConfirmedPage
    | UnsubscribeInterstitial(raw: string)
    | UnsubscribedPage
    | PendingPage(email: string)

  datatype Endpoint = ConfirmPages | UnsubscribePages

  function KindOf(e: Endpoint): TokenKind { if e.ConfirmPages? then Confirm else Unsubscribe }

  function Interstitial(e: Endpoint, raw: string): Page {
    if e.ConfirmPages? then ConfirmInterstitial(raw) else UnsubscribeInterstitial(raw)
  }

  /** The token a request carries, if it verifies and is of the endpoint's kind. */
  function Presented(mac: Mac, secret: Bytes, raw: string, unix: int, kind: TokenKind): Option<Token> {
    match Verify(mac, raw, secret, unix)
    case Ok(t) => if t.kind == kind then Some(t) else None
    case Err(_) => None
  }

  // ----- GET: read, pick a page

  function ConfirmPreview(row: Option<Subscriber>, t: Token, raw: string): Page {
    if row.Some? && row.value.state.Active? then ConfirmedPage
    else if row.Some? && row.value.generation != t.generation then InvalidTokenPage
    else ConfirmInterstitial(raw)
  }

  function UnsubscribePreview(row: Option<Subscriber>, t: Token, raw: string): Page {
    if row.Some? && row.value.state.Unsubscribed? then UnsubscribedPage
    else if row.Some? && row.value.generation == t.generation then UnsubscribeInterstitial(raw)
    else InvalidTokenPage
  }

  function Preview(mac: Mac, secret: Bytes, raw: string, unix: int, t: Tables, e: Endpoint): Page {
    var token := Presented(mac, secret, raw, unix, KindOf(e));
    if token.None? then InvalidTokenPage
    else
      var row := Lookup(t, token.value.email);
      match e
      case ConfirmPages => ConfirmPreview(row, token.value, raw)
      case UnsubscribePages => UnsubscribePreview(row, token.value, raw)
  }

  // ----- POST: read, pick a page, perhaps store a row

  function ConfirmCommit(row: Option<Subscriber>, t: Token): Page {
    match row
    case None => ConfirmedPage
    case Some(s) => if s.state.Active? || s.generation == t.generation then ConfirmedPage else InvalidTokenPage
  }

  function UnsubscribeCommit(row: Option<Subscriber>, t: Token): Page {
    match row
    case None => InvalidTokenPage
    case Some(s) => if s.state.Unsubscribed? || s.generation == t.generation then UnsubscribedPage else InvalidTokenPage
  }

  /** The page a commit answers with when the store does what it is asked. */
  function Commit(mac: Mac, secret: Bytes, raw: string, unix: int, t: Tables, e: Endpoint): Page {
    var token := Presented(mac, secret, raw, unix, KindOf(e));
    if token.None? then InvalidTokenPage
    else
      var row := Lookup(t, token.value.email);
      match e
      case ConfirmPages => ConfirmCommit(row, token.value)
      case UnsubscribePages => UnsubscribeCommit(row, token.value)
  }

  /** The row a commit stores, if it stores one. */
  function Writes(mac: Mac, secret: Bytes, raw: string, unix: int, t: Tables, e: Endpoint): Option<Subscriber> {
    var token := Presented(mac, secret, raw, unix, KindOf(e));
    if token.None? then None
    else
      var row := Lookup(t, token.value.email);
      match e
      case ConfirmPages => ConfirmWrite(row, token.value, unix)
      case UnsubscribePages => UnsubscribeWrite(row, token.value, unix)
  }

  /** For every raw token, moment and store, the preview shows the interstitial exactly
  when the commit would write; otherwise the two show one page. */
  lemma PreviewAgrees(mac: Mac, secret: Bytes, raw: string, unix: int, t: Tables, e: Endpoint)
    ensures Preview(mac, secret, raw, unix, t, e) == Interstitial(e, raw) <==>
              Writes(mac, secret, raw, unix, t, e).Some?
    ensures Writes(mac, secret, raw, unix, t, e).None? ==>
              Preview(mac, secret, raw, unix, t, e) == Commit(mac, secret, raw, unix, t, e)
  {}

  /** The page of a commit tells where the address then stands: `/confirm` shows its success page exactly if
  the row is Active afterwards, the unsubscribe endpoints exactly if it is Unsubscribed; otherwise the token
  is called invalid. */
  lemma PageTellsState(mac: Mac, secret: Bytes, raw: string, unix: int, t: Tables, e: Endpoint)
    requires KeyedRows(t) && Presented(mac, secret, raw, unix, KindOf(e)).Some?
    ensures var key, row := Lower(Presented(mac, secret, raw, unix, KindOf(e)).value.email),
                            Writes(mac, secret, raw, unix, t, e);
            var rows := (if row.Some? then Apply(t, PutSubscriber(row.value)) else t).subscribers;
            var page := Commit(mac, secret, raw, unix, t, e);
            match e
            case ConfirmPages =>
              page == if key in rows && rows[key].state.Active? then ConfirmedPage else InvalidTokenPage
            case UnsubscribePages =>
              page == if key in rows && rows[key].state.Unsubscribed? then UnsubscribedPage else InvalidTokenPage
  {
    var key, row := Lower(Presented(mac, secret, raw, unix, KindOf(e)).value.email),
                    Writes(mac, secret, raw, unix, t, e);
    if row.Some? { assert Key(row.value) == key; }
  }

  /** Committing twice in a row: the second commit of one raw token shows the same page, unless
  the first one already showed it invalid, and stores nothing. */
  lemma CommitTwice(mac: Mac, secret: Bytes, raw: string, unix: int, later: int, t: Tables, e: Endpoint)
    requires Writes(mac, secret, raw, unix, t, e).Some? && unix <= later
    requires Presented(mac, secret, raw, later, KindOf(e)).Some?
    ensures var t' := Apply(t, PutSubscriber(Writes(mac, secret, raw, unix, t, e).value));
            KeyedRows(t) ==>
              Writes(mac, secret, raw, later, t', e).None?
              && Commit(mac, secret, raw, later, t', e) == Commit(mac, secret, raw, unix, t, e)
  {
    var token := Presented(mac, secret, raw, unix, KindOf(e)).value;
    assert Presented(mac, secret, raw, later, KindOf(e)).value == token;
    var k := Lower(token.email);
    if KeyedRows(t) {
      assert Key(Writes(mac, secret, raw, unix, t, e).value) == k;
    }
  }

  ghost predicate KeyedRows(t: Tables) { forall k | k in t.subscribers :: Key(t.subscribers[k]) == k }
}
