/** Key order is a strict total order, so a scan of a keyspace is determined by its contents. */
module Orders {
  import opened Records
  import opened Protocol

  lemma {:induction false} LessIrreflexive(a: string)
    ensures !Less(a, a)
  {
    if a != [] { LessIrreflexive(a[1..]); }
  }

  lemma {:induction false} LessTransitive(a: string, b: string, c: string)
    requires Less(a, b) && Less(b, c)
    ensures Less(a, c)
  {
    if a != [] && a[0] == b[0] && b[0] == c[0] { LessTransitive(a[1..], b[1..], c[1..]); }
  }

  lemma {:induction false} LessTotal(a: string, b: string)
    ensures a == b || Less(a, b) || Less(b, a)
  {
    if a != [] && b != [] && a[0] == b[0] {
      LessTotal(a[1..], b[1..]);
      if a[1..] == b[1..] {
        assert a == [a[0]] + a[1..] && b == [b[0]] + b[1..];
      }
    }
  }

  predicate Ascending(keys: seq<string>) {
    forall i, j | 0 <= i < j < |keys| :: Less(keys[i], keys[j])
  }

  /** A list in key order of the keys in a set is as long as the set is large. */
  lemma {:induction false} AscendingSize(list: seq<string>, keys: set<string>)
    requires Ascending(list) && forall k :: k in list <==> k in keys
    ensures |list| == |keys|
    decreases |list|
  {
    if list == [] {
      assert keys == {};
    } else {
      var n := |list| - 1;
      LessIrreflexive(list[n]);
      assert forall k :: k in list <==> k in list[..n] || k == list[n];
      AscendingSize(list[..n], keys - {list[n]});
    }
  }

  /** A row of a snapshot is found under its own key, and at one place only. */
  lemma SnapshotDistinct(rows: seq<Subscriber>, subscribers: map<string, Subscriber>, i: nat, j: nat)
    requires IsSnapshot(rows, subscribers) && i < |rows| && j < |rows|
    ensures Key(rows[i]) == Key(rows[j]) <==> i == j
  {
    LessIrreflexive(Key(rows[i]));
  }

  ghost predicate UnderOwnKeys(subscribers: map<string, Subscriber>) {
    forall k | k in subscribers :: Key(subscribers[k]) == k
  }

  /** Two snapshots of one keyspace agree row by row. */
  lemma {:induction false} SnapshotUnique(xs: seq<Subscriber>, ys: seq<Subscriber>,
                                          subscribers: map<string, Subscriber>)
    requires UnderOwnKeys(subscribers) && IsSnapshot(xs, subscribers) && IsSnapshot(ys, subscribers)
    ensures xs == ys
    decreases |xs|
  {
    if xs == [] {
      assert forall y | y in ys :: y in xs;
    } else {
      assert xs[0] in ys;
      assert ys[0] in xs;
      FirstRow(xs, ys[0]);
      FirstRow(ys, xs[0]);
      if xs[0] != ys[0] {
        LessTransitive(Key(xs[0]), Key(ys[0]), Key(xs[0]));
        LessIrreflexive(Key(xs[0]));
        assert false;
      }
      var rest := subscribers - {Key(xs[0])};
      DropFirst(xs, subscribers);
      DropFirst(ys, subscribers);
      SnapshotUnique(xs[1..], ys[1..], rest);
    }
  }

  lemma FirstRow(xs: seq<Subscriber>, row: Subscriber)
    requires xs != [] && row in xs && forall i, j | 0 <= i < j < |xs| :: Less(Key(xs[i]), Key(xs[j]))
    ensures row == xs[0] || Less(Key(xs[0]), Key(row))
  {}

  lemma StillListed(xs: seq<Subscriber>, row: Subscriber)
    requires xs != [] && row in xs && row != xs[0]
    ensures row in xs[1..]
  {
    var i :| 0 <= i < |xs| && xs[i] == row;
    assert xs[1..][i - 1] == row;
  }

  lemma DropFirst(xs: seq<Subscriber>, subscribers: map<string, Subscriber>)
    requires xs != [] && UnderOwnKeys(subscribers) && IsSnapshot(xs, subscribers)
    ensures IsSnapshot(xs[1..], subscribers - {Key(xs[0])})
  {
    var rest := subscribers - {Key(xs[0])};
    forall i | 0 <= i < |xs| - 1
      ensures Key(xs[1..][i]) in rest
    {
      SnapshotDistinct(xs, subscribers, 0, i + 1);
    }
    forall k | k in rest && rest[k].state.Active?
      ensures rest[k] in xs[1..]
    {
      StillListed(xs, rest[k]);
    }
  }

  // ----- every keyspace has its scan

  lemma {:induction false} Least(keys: set<string>) returns (k: string)
    requires keys != {}
    ensures k in keys && forall j | j in keys && j != k :: Less(k, j)
    decreases |keys|
  {
    k :| k in keys;
    if keys != {k} {
      assert keys - {k} != {};
      var m := Least(keys - {k});
      LessTotal(m, k);
      if Less(m, k) {
        k := m;
      } else {
        forall j | j in keys && j != k
          ensures Less(k, j)
        {
          if j != m { LessTransitive(k, m, j); }
        }
      }
    }
  }

  lemma {:induction false} Listing(keys: set<string>) returns (list: seq<string>)
    ensures Ascending(list) && forall k :: k in list <==> k in keys
    decreases |keys|
  {
    if keys == {} {
      list := [];
    } else {
      var k := Least(keys);
      var rest := Listing(keys - {k});
      list := [k] + rest;
      forall i, j | 0 <= i < j < |list|
        ensures Less(list[i], list[j])
      {
        assert list[j] == rest[j - 1] && rest[j - 1] in rest;
      }
    }
  }

  /** The snapshot a fan-out takes exists, whatever the rows. */
  lemma SnapshotExists(subscribers: map<string, Subscriber>) returns (rows: seq<Subscriber>)
    requires UnderOwnKeys(subscribers)
    ensures IsSnapshot(rows, subscribers)
  {
    var list := Listing(set k | k in subscribers && subscribers[k].state.Active?);
    rows := seq(|list|, i requires 0 <= i < |list| => (assert list[i] in list; subscribers[list[i]]));
    forall i | 0 <= i < |list|
      ensures Key(rows[i]) == list[i] && rows[i].state.Active? && list[i] in subscribers
    {
      assert list[i] in list;
    }
    forall k | k in subscribers && subscribers[k].state.Active?
      ensures subscribers[k] in rows
    {
      assert k in list;
      var i :| 0 <= i < |list| && list[i] == k;
      assert rows[i] == subscribers[k];
    }
  }
}
