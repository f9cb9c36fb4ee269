/** How long a chain of links the canonicalisation follows, and what happens past the
kernel's own limit. */
module Chains {
  import opened Records
  import opened Paths
  import opened Exactness

  predicate LinkAt(fs: Fs, names: seq<Name>, i: nat)
    requires 1 <= i < |names|
  {
    [names[i]] in fs && fs[[names[i]]] == Link(true, [names[i - 1]])
  }

  /** `names[i]` in the root is a link to `names[i - 1]`, for every `i` above zero. */
  ghost predicate Chain(fs: Fs, names: seq<Name>) {
    && WellFormed(fs) && names != []
    && forall i {:trigger LinkAt(fs, names, i)} | 1 <= i < |names| :: LinkAt(fs, names, i)
  }

  /** The chain leads to a directory. */
  ghost predicate Intact(fs: Fs, names: seq<Name>) {
    Chain(fs, names) && [names[0]] in fs && fs[[names[0]]].Dir?
  }

  /** The chain leads to nothing. */
  ghost predicate Broken(fs: Fs, names: seq<Name>) {
    Chain(fs, names) && [names[0]] !in fs
  }

  lemma RootStep(fs: Fs, name: Name, links: nat)
    requires WellFormed(fs)
    ensures Walk(fs, [], [name], links) ==
              if [name] !in fs then Missing([], [name], links)
              else if !fs[[name]].Link? then Found([name], links)
              else if links == 0 then TooManyLinks
              else Walk(fs, [], fs[[name]].target, links - 1)
    ensures Lstat(fs, [name]) <==> [name] in fs
    ensures [name] in fs && fs[[name]].Link? ==> ReadLink(fs, [name]) == Some(fs[[name]])
  {
    assert [] + [name] == [name] && [name][1..] == [] && [name][..0] == [];
    if [name] in fs && fs[[name]].Link? { assert fs[[name]].target + [] == fs[[name]].target; }
  }

  /** The kernel follows a chain exactly as long as its allowance lasts. */
  lemma {:induction false} ChainWalk(fs: Fs, names: seq<Name>, i: nat, links: nat)
    requires Chain(fs, names) && i < |names| && (Intact(fs, names) || Broken(fs, names))
    ensures Walk(fs, [], [names[i]], links) ==
              if i > links then TooManyLinks
              else if [names[0]] in fs then Found([names[0]], links - i)
              else Missing([], [names[0]], links - i)
  {
    RootStep(fs, names[i], links);
    if i > 0 {
      assert LinkAt(fs, names, i);
      if links > 0 { ChainWalk(fs, names, i - 1, links - 1); }
    }
  }

  lemma ChainHop(fs: Fs, names: seq<Name>, i: nat, hops: nat)
    requires Chain(fs, names) && 1 <= i < |names| && hops <= MAX_SYMLINK_HOPS
    requires RealPath(fs, [names[i]]).None?
    ensures Canon(fs, [names[i]], hops) == Canon(fs, [names[i - 1]], hops + 1)
  {
    RootStep(fs, names[i], KERNEL_LINKS);
    assert LinkAt(fs, names, i);
    var p := [names[i]];
    assert p[..1] == p && p[1..] == [];
    var r := Canon(fs, [names[i - 1]], hops + 1);
    if r.Some? { assert r.value + [] == r.value; }
  }

  lemma ChainFound(fs: Fs, names: seq<Name>, i: nat, hops: nat)
    requires Intact(fs, names) && i < |names| && i <= KERNEL_LINKS && hops <= MAX_SYMLINK_HOPS
    ensures Canon(fs, [names[i]], hops) == Some([names[0]])
  {
    ChainWalk(fs, names, i, KERNEL_LINKS);
    RootStep(fs, names[i], KERNEL_LINKS);
    assert [names[i]][..1] == [names[i]] && [names[0]] + [] == [names[0]];
  }

  function Answer(found: bool, name: Name): Option<Place> { if found then Some([name]) else None }

  lemma IntactHop(fs: Fs, names: seq<Name>, i: nat, hops: nat)
    requires Intact(fs, names) && KERNEL_LINKS < i < |names| && hops <= MAX_SYMLINK_HOPS
    ensures Canon(fs, [names[i]], hops) == Canon(fs, [names[i - 1]], hops + 1)
  {
    ChainWalk(fs, names, i, KERNEL_LINKS);
    ChainHop(fs, names, i, hops);
  }

  lemma BrokenHop(fs: Fs, names: seq<Name>, i: nat, hops: nat)
    requires Broken(fs, names) && 1 <= i < |names| && hops <= MAX_SYMLINK_HOPS
    ensures Canon(fs, [names[i]], hops) == Canon(fs, [names[i - 1]], hops + 1)
  {
    ChainWalk(fs, names, i, KERNEL_LINKS);
    ChainHop(fs, names, i, hops);
  }

  lemma NoHopsLeft(fs: Fs, path: Place, hops: nat)
    requires hops > MAX_SYMLINK_HOPS
    ensures Canon(fs, path, hops) == None
  {}

  lemma IntactDown(fs: Fs, names: seq<Name>, i: nat, hops: nat)
    requires Intact(fs, names) && KERNEL_LINKS < i < |names| && hops <= MAX_SYMLINK_HOPS
    requires hops < MAX_SYMLINK_HOPS ==>
               Canon(fs, [names[i - 1]], hops + 1) ==
                   Answer(i - 1 <= KERNEL_LINKS + MAX_SYMLINK_HOPS - hops - 1, names[0])
    ensures Canon(fs, [names[i]], hops) == Answer(i <= KERNEL_LINKS + MAX_SYMLINK_HOPS - hops, names[0])
  {
    IntactHop(fs, names, i, hops);
    if hops == MAX_SYMLINK_HOPS { NoHopsLeft(fs, [names[i - 1]], hops + 1); }
  }

  lemma {:induction false} IntactCanon(fs: Fs, names: seq<Name>, i: nat, hops: nat)
    requires Intact(fs, names) && i < |names| && hops <= MAX_SYMLINK_HOPS
    ensures Canon(fs, [names[i]], hops) == Answer(i <= KERNEL_LINKS + MAX_SYMLINK_HOPS - hops, names[0])
    decreases i
  {
    if i <= KERNEL_LINKS {
      ChainFound(fs, names, i, hops);
    } else {
      if hops < MAX_SYMLINK_HOPS { IntactCanon(fs, names, i - 1, hops + 1); }
      IntactDown(fs, names, i, hops);
    }
  }

  lemma BareName(fs: Fs, name: Name, hops: nat)
    requires WellFormed(fs) && [name] !in fs && hops <= MAX_SYMLINK_HOPS
    ensures Canon(fs, [name], hops) == Some([name])
  {
    RootStep(fs, name, KERNEL_LINKS);
    var p := [name];
    assert p[..0] == [] && p[0..] == p && [] + p == p;
    assert Existing(fs, p) == 0;
  }

  lemma BrokenDown(fs: Fs, names: seq<Name>, i: nat, hops: nat)
    requires Broken(fs, names) && 1 <= i < |names| && hops <= MAX_SYMLINK_HOPS
    requires hops < MAX_SYMLINK_HOPS ==>
               Canon(fs, [names[i - 1]], hops + 1) == Answer(i - 1 <= MAX_SYMLINK_HOPS - hops - 1, names[0])
    ensures Canon(fs, [names[i]], hops) == Answer(i <= MAX_SYMLINK_HOPS - hops, names[0])
  {
    BrokenHop(fs, names, i, hops);
    if hops == MAX_SYMLINK_HOPS { NoHopsLeft(fs, [names[i - 1]], hops + 1); }
  }

  lemma {:induction false} BrokenCanon(fs: Fs, names: seq<Name>, i: nat, hops: nat)
    requires Broken(fs, names) && i < |names| && hops <= MAX_SYMLINK_HOPS
    ensures Canon(fs, [names[i]], hops) == Answer(i <= MAX_SYMLINK_HOPS - hops, names[0])
    decreases i
  {
    if i == 0 {
      BareName(fs, names[0], hops);
    } else {
      if hops < MAX_SYMLINK_HOPS { BrokenCanon(fs, names, i - 1, hops + 1); }
      BrokenDown(fs, names, i, hops);
    }
  }

  /** A chain of `n` links to a directory is accepted exactly up to eighty links, twice what
  the kernel follows; one that leads to nothing, exactly up to forty. */
  lemma ChainLimit(fs: Fs, names: seq<Name>, n: nat)
    requires n == |names| - 1
    ensures Intact(fs, names) ==>
              && (Canon(fs, [names[n]], 0).Some? <==> n <= 80)
              && (RealPath(fs, [names[n]]).Some? <==> n <= 40)
    ensures Broken(fs, names) ==>
              && (Canon(fs, [names[n]], 0).Some? <==> n <= 40)
              && (Walk(fs, [], [names[n]], KERNEL_LINKS).TooManyLinks? <==> n > 40)
  {
    if Intact(fs, names) {
      IntactCanon(fs, names, n, 0);
      ChainWalk(fs, names, n, KERNEL_LINKS);
    }
    if Broken(fs, names) {
      BrokenCanon(fs, names, n, 0);
      ChainWalk(fs, names, n, KERNEL_LINKS);
    }
  }

  /** Past the kernel's limit nothing below the chain can be seen. */
  lemma {:induction false} BlindBelow(fs: Fs, names: seq<Name>, n: nat, rest: Place)
    requires Intact(fs, names) && n == |names| - 1 && n > KERNEL_LINKS
    ensures Existing(fs, [names[n]] + rest) == 1
    decreases |rest|
  {
    var p := [names[n]] + rest;
    if rest == [] {
      RootStep(fs, names[n], KERNEL_LINKS);
      assert LinkAt(fs, names, n) && p == [names[n]];
    } else {
      var front := rest[..|rest| - 1];
      assert p[..|p| - 1] == [names[n]] + front;
      ChainWalk(fs, names, n, KERNEL_LINKS);
      WalkSplit(fs, [], [names[n]], front, KERNEL_LINKS);
      BlindBelow(fs, names, n, front);
    }
  }

  /** So what the path names below the chain is put back unread. */
  lemma ChainAnswer(fs: Fs, names: seq<Name>, n: nat, rest: Place)
    requires Intact(fs, names) && n == |names| - 1 && n > KERNEL_LINKS
    ensures Canon(fs, [names[n]] + rest, 0) ==
              if n <= KERNEL_LINKS + MAX_SYMLINK_HOPS then Some([names[0]] + rest) else None
  {
    var p, up := [names[n]] + rest, [names[n]];
    assert up + [] == up && up[..1] == up && p[..1] == up && p[1..] == rest;
    BlindBelow(fs, names, n, []);
    BlindBelow(fs, names, n, rest);
    IntactCanon(fs, names, n, 0);
    var base := CanonOfEntry(fs, up, 0);
    if base.Some? { assert base.value + up[1..] == base.value; }
  }

  /** Behind a chain of forty-one to eighty links every path is accepted, and its answer is
  where the path leads exactly when the filesystem has no link below the chain's directory
  along that path. */
  lemma ChainExactIff(fs: Fs, names: seq<Name>, n: nat, rest: Place)
    requires Intact(fs, names) && n == |names| - 1 && 40 < n <= 80
    ensures Canon(fs, [names[n]] + rest, 0) == Some([names[0]] + rest)
    ensures ClearDown(fs, [names[0]], rest) <==>
              exists links: nat :: !Walk(fs, [], [names[n]] + rest, links).TooManyLinks?
                                   && Spelled(Walk(fs, [], [names[n]] + rest, links)) == [names[0]] + rest
  {
    ChainAnswer(fs, names, n, rest);
    AnswerExactIff(fs, [names[n]] + rest);
    LinkFreeSplit(fs, [names[0]], rest);
    assert [names[0]][..0] == [] && [names[0]][..1] == [names[0]];
  }

  /** Between forty-one and eighty links, a link below the chain survives into the answer. */
  lemma LinkSurvives(fs: Fs, names: seq<Name>, n: nat, below: Name)
    requires Intact(fs, names) && n == |names| - 1 && 40 < n <= 80
    requires [names[0], below] in fs && fs[[names[0], below]].Link?
    ensures Canon(fs, [names[n], below], 0) == Some([names[0], below])
    ensures !LinkFree(fs, Canon(fs, [names[n], below], 0).value)
  {
    ChainAnswer(fs, names, n, [below]);
    assert [names[n]] + [below] == [names[n], below] && [names[0]] + [below] == [names[0], below];
    var r := [names[0], below];
    assert r[..2] == r;
  }

  // ----- such a filesystem

  function Rung(i: nat): Name { seq(i + 1, _ => 'l') }

  function Rungs(n: nat): seq<Name> { seq(n + 1, i requires 0 <= i => Rung(i)) }

  /** `n` links, each to the one before, the first to a directory that holds a link `x`. */
  function Ladder(n: nat): Fs {
    (map p | p in (set i | 1 <= i <= n :: [Rung(i)]) :: Link(true, [Rung(|p[0]| - 2)])) +
    map[[] := Dir, [Rung(0)] := Dir, [Rung(0), "x"] := Link(true, [])]
  }

  lemma RungLinks(n: nat, i: nat)
    requires 1 <= i <= n
    ensures [Rung(i)] in Ladder(n) && Ladder(n)[[Rung(i)]] == Link(true, [Rung(i - 1)])
  {
    assert |Rung(i)| == i + 1 && |Rung(0)| == 1;
  }

  lemma LadderPlaces(n: nat, p: Place)
    requires p in Ladder(n)
    ensures UnderDirectory(Ladder(n), p)
  {
    if |p| == 1 {
      assert p[..0] == [];
    } else if |p| == 2 {
      assert p == [Rung(0), "x"] && p[..1] == [Rung(0)];
    }
  }

  lemma LadderIntact(n: nat)
    ensures Intact(Ladder(n), Rungs(n)) && |Rungs(n)| == n + 1
    ensures [Rungs(n)[0], "x"] in Ladder(n) && Ladder(n)[[Rungs(n)[0], "x"]].Link?
  {
    forall p | p in Ladder(n)
      ensures UnderDirectory(Ladder(n), p)
    {
      LadderPlaces(n, p);
    }
    forall i | 1 <= i <= n
      ensures LinkAt(Ladder(n), Rungs(n), i)
    {
      RungLinks(n, i);
    }
  }

  /** So the canonical form of a path that resolves to nothing the kernel can open may hold a link. */
  lemma CanonicalFormWithLink()
    ensures exists fs, path :: WellFormed(fs) && Canon(fs, path, 0).Some? && !LinkFree(fs, Canon(fs, path, 0).value)
  {
    LadderIntact(41);
    LinkSurvives(Ladder(41), Rungs(41), 41, "x");
  }
}
