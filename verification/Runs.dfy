/** Short runs, event by event. */
module Runs {
  import opened Protocol

  lemma Extend(w: Server, es: seq<Event>, e: Event)
    ensures Exec(w, es + [e]) == Step(Exec(w, es), e)
  {
    assert (es + [e])[..|es + [e]| - 1] == es;
  }

  lemma Then(w: Server, xs: seq<Event>, ys: seq<Event>, e: Event)
    ensures Exec(w, xs + ys + [e]) == Step(Exec(Exec(w, xs), ys), e)
  {
    ExecSplit(w, xs, ys);
    Extend(w, xs + ys, e);
  }

  lemma One(w: Server, a: Event)
    ensures Exec(w, [a]) == Step(w, a)
  {
    Extend(w, [], a);
  }

  lemma Two(w: Server, a: Event, b: Event)
    ensures Exec(w, [a, b]) == Step(Step(w, a), b)
  {
    One(w, a);
    Extend(w, [a], b);
    assert [a] + [b] == [a, b];
  }

  lemma Four(w: Server, a: Event, b: Event, c: Event, d: Event)
    ensures Exec(w, [a, b, c, d]) == Step(Step(Step(Step(w, a), b), c), d)
  {
    Two(w, a, b);
    Extend(w, [a, b], c);
    Extend(w, [a, b, c], d);
    assert [a, b] + [c] == [a, b, c] && [a, b, c] + [d] == [a, b, c, d];
  }
}
