/** When an accepted path leads exactly where its canonical form says: a condition on the path and
the filesystem alone. */
module Exactness {
  import opened Paths

  /** Nothing on the way from `p` down `rest` is a link. */
  ghost predicate ClearDown(fs: Fs, p: Place, rest: Place) {
    forall i | 0 <= i <= |rest| :: p + rest[..i] in fs ==> !fs[p + rest[..i]].Link?
  }

  /** Nothing is a link on the way down `rest` from wherever `e` leads. */
  ghost predicate ClearUnder(fs: Fs, e: Place, rest: Place) {
    forall links: nat ::
      var w := Walk(fs, [], e, links); !w.TooManyLinks? ==> ClearDown(fs, Spelled(w), rest)
  }

  /** The part of the path that has an entry is found, or is a link whose aim passes the same test and
  below which the path meets no further link. */
  ghost predicate ReadThrough(fs: Fs, path: Place, hops: nat)
    decreases MAX_SYMLINK_HOPS + 1 - hops
  {
    var n := Existing(fs, path);
    || Walk(fs, [], path[..n], KERNEL_LINKS).Found?
    || (&& hops <= MAX_SYMLINK_HOPS && ReadLink(fs, path[..n]).Some?
        && ReadThrough(fs, Aimed(path[..n], ReadLink(fs, path[..n]).value), hops + 1)
        && ClearUnder(fs, path[..n], path[n..]))
  }

  lemma LinkFreeSplit(fs: Fs, p: Place, rest: Place)
    ensures LinkFree(fs, p + rest) <==> LinkFree(fs, p) && ClearDown(fs, p, rest)
  {
    var q := p + rest;
    forall i | 0 <= i <= |q|
      ensures q[..i] == if i <= |p| then p[..i] else p + rest[..i - |p|]
    {
    }
    forall i | 0 <= i <= |rest|
      ensures p + rest[..i] == q[..|p| + i]
    {
    }
    if LinkFree(fs, p) && ClearDown(fs, p, rest) {
      forall i | 0 <= i <= |q| && q[..i] in fs
        ensures !fs[q[..i]].Link?
      {
        if i > |p| { assert q[..i] == p + rest[..i - |p|]; }
      }
    }
    if LinkFree(fs, q) {
      forall i | 0 <= i <= |p| && p[..i] in fs
        ensures !fs[p[..i]].Link?
      {
        assert q[..i] == p[..i];
      }
    }
  }

  /** What is found is answered without a link. */
  lemma FoundLinkFree(fs: Fs, path: Place)
    requires WellFormed(fs) && Walk(fs, [], path[..Existing(fs, path)], KERNEL_LINKS).Found?
    ensures LinkFree(fs, Walk(fs, [], path[..Existing(fs, path)], KERNEL_LINKS).at + path[Existing(fs, path)..])
  {
    var n := Existing(fs, path);
    var w := Walk(fs, [], path[..n], KERNEL_LINKS);
    SplitAtExisting(fs, path, KERNEL_LINKS);
    if n < |path| { TailMissing(fs, path, w.left); } else { assert path[n..] == []; }
    SpelledFound(fs, path, KERNEL_LINKS);
    WalkEndsLinkFree(fs, [], path, KERNEL_LINKS);
  }

  /** A place without links that `e` resolves like is where `e` leads, whatever the allowance. */
  lemma LeadsTo(fs: Fs, e: Place, q: Place, k: nat, links: nat)
    requires WellFormed(fs) && ResolvesLike(fs, e, q, k) && LinkFree(fs, q) && !Walk(fs, [], e, links).TooManyLinks?
    ensures Spelled(Walk(fs, [], e, links)) == q
  {
    assert [] + q == q;
    WalkMore(fs, [], e, links, k);
    assert Walk(fs, [], e, links + k) == Walk(fs, [], q, links);
    WalkLinkFree(fs, [], q, links);
  }

  lemma ClearThere(fs: Fs, e: Place, q: Place, k: nat, rest: Place)
    requires WellFormed(fs) && ResolvesLike(fs, e, q, k) && LinkFree(fs, q)
    ensures ClearUnder(fs, e, rest) <==> ClearDown(fs, q, rest)
  {
    assert [] + q == q;
    WalkLinkFree(fs, [], q, 0);
    assert Walk(fs, [], e, 0 + k) == Walk(fs, [], q, 0);
    LeadsTo(fs, e, q, k, k);
    forall links: nat | !Walk(fs, [], e, links).TooManyLinks?
      ensures Spelled(Walk(fs, [], e, links)) == q
    {
      LeadsTo(fs, e, q, k, links);
    }
  }

  lemma EntryLike(fs: Fs, e: Place, q: Place, j: nat)
    requires ReadLink(fs, e).Some? && ResolvesLike(fs, Aimed(e, ReadLink(fs, e).value), q, j)
    ensures ResolvesLike(fs, e, q, j + 1 + Before(fs, e))
  {
    HopFollows(fs, e, [], q, j);
    assert e + [] == e && q + [] == q;
  }

  lemma {:induction false} ReadThroughIff(fs: Fs, path: Place, hops: nat)
    requires WellFormed(fs) && Canon(fs, path, hops).Some?
    ensures LinkFree(fs, Canon(fs, path, hops).value) <==> ReadThrough(fs, path, hops)
    decreases MAX_SYMLINK_HOPS + 1 - hops
  {
    var n := Existing(fs, path);
    var e, rest := path[..n], path[n..];
    if Walk(fs, [], e, KERNEL_LINKS).Found? {
      CanonFound(fs, path, hops);
      FoundLinkFree(fs, path);
    } else {
      ExistingLink(fs, path);
      var aim := Aimed(e, ReadLink(fs, e).value);
      CanonHop(fs, path, hops, aim);
      ReadThroughIff(fs, aim, hops + 1);
      var q := Canon(fs, aim, hops + 1).value;
      LinkFreeSplit(fs, q, rest);
      if LinkFree(fs, q) {
        var j := CanonFollows(fs, aim, hops + 1);
        EntryLike(fs, e, q, j);
        ClearThere(fs, e, q, j + 1 + Before(fs, e), rest);
      }
    }
  }

  /** An accepted path leads exactly to its canonical form if and only if each link its canonicalisation
  follows in person has no further link of the path below it. */
  lemma AcceptedExactIff(fs: Fs, path: Place)
    requires WellFormed(fs) && Canon(fs, path, 0).Some?
    ensures ReadThrough(fs, path, 0) <==>
              exists links: nat :: !Walk(fs, [], path, links).TooManyLinks?
                                   && Spelled(Walk(fs, [], path, links)) == Canon(fs, path, 0).value
  {
    ReadThroughIff(fs, path, 0);
    AnswerExactIff(fs, path);
  }
}
