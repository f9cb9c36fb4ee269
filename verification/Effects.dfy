/** What consent transitions do to a row, field by field. */
module Effects {
  import opened Records

  /** The address has an Active row. */
  predicate IsUp(rows: map<string, Subscriber>, key: string) { key in rows && rows[key].state.Active? }

  /** A row once its reader has confirmed at `at`. */
  function Up(s: Subscriber, at: int): Subscriber {
    Subscriber(s.email, Active, s.createdAt, Some(at), s.unsubscribedAt, s.generation)
  }

  /** The row of a reader who had none. */
  function New(email: string, generation: nat, at: int): Subscriber {
    Subscriber(email, Active, at, Some(at), None, generation)
  }

  /** A row once its reader has unsubscribed, or been suppressed, at `at`: one generation further. */
  function Down(s: Subscriber, at: int): Subscriber {
    Subscriber(s.email, Unsubscribed, s.createdAt, s.confirmedAt, Some(at), s.generation + 1)
  }

  /** The rows after a suppression of `key` at `at`: an Active row goes down, nothing else changes. */
  function TakenDown(rows: map<string, Subscriber>, key: string, at: int): map<string, Subscriber> {
    if IsUp(rows, key) then rows[key := Down(rows[key], at)] else rows
  }
}
