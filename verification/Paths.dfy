/** Symlink-aware canonicalisation of a path that need not exist yet, and the guard that
refuses a keyspace inside another one.

A filesystem maps physical locations to nodes. Names are those of a path after its
separators are taken out; neither paths nor link targets contain `..`. */
module Paths {
  import opened Records

  type Name = string
  type Place = seq<Name>

  datatype Node = Dir | File | Link(absolute: bool, target: Place)

  type Fs = map<Place, Node>

  predicate UnderDirectory(fs: Fs, p: Place) {
    p != [] ==> p[..|p| - 1] in fs && fs[p[..|p| - 1]].Dir?
  }

  /** Every place has a directory above it, up to the root. */
  ghost predicate WellFormed(fs: Fs) {
    && [] in fs && fs[[]].Dir?
    && forall p {:trigger UnderDirectory(fs, p)} | p in fs :: UnderDirectory(fs, p)
  }

  // ----- component-by-component resolution

  /** Where a walk ends: at a place; above a first missing component, with what is left of
  the path; or out of links. `left` is what remains of the allowance of links. */
  datatype Walked = Found(at: Place, left: nat) | Missing(at: Place, rest: Place, left: nat) | TooManyLinks

  function Walk(fs: Fs, at: Place, path: Place, links: nat): Walked
    decreases links, |path|
  {
    if path == [] then Found(at, links)
    else if at !in fs || !fs[at].Dir? || at + [path[0]] !in fs then Missing(at, path, links)
    else
      match fs[at + [path[0]]]
      case Link(absolute, target) =>
        if links == 0 then TooManyLinks
        else Walk(fs, if absolute then [] else at, target + path[1..], links - 1)
      case _ => Walk(fs, at + [path[0]], path[1..], links)
  }

  /** The place a walk names: what does not exist yet is appended literally. */
  function Spelled(w: Walked): Place
    requires !w.TooManyLinks?
  {
    if w.Found? then w.at else w.at + w.rest
  }

  // ----- what the operating system offers, its own limit being forty links

  const KERNEL_LINKS := 40

  /** `lstat`: follows every link but the last component. */
  predicate Lstat(fs: Fs, path: Place) {
    path == [] ||
    var up := Walk(fs, [], path[..|path| - 1], KERNEL_LINKS);
    up.Found? && up.at in fs && fs[up.at].Dir? && up.at + [path[|path| - 1]] in fs
  }

  /** `realpath`: follows every link; the place has to exist. */
  function RealPath(fs: Fs, path: Place): Option<Place> {
    var w := Walk(fs, [], path, KERNEL_LINKS);
    if w.Found? then Some(w.at) else None
  }

  /** `readlink`: the link the path names. */
  function ReadLink(fs: Fs, path: Place): Option<Node> {
    if path == [] || !Lstat(fs, path) then None
    else
      var up := Walk(fs, [], path[..|path| - 1], KERNEL_LINKS);
      var node := fs[up.at + [path[|path| - 1]]];
      if node.Link? then Some(node) else None
  }

  // ----- the canonicalisation

  const MAX_SYMLINK_HOPS := 40

  /** The longest part of `path` that has an entry. */
  function Existing(fs: Fs, path: Place): (n: nat)
    ensures n <= |path|
  {
    if Lstat(fs, path) || path == [] then |path| else Existing(fs, path[..|path| - 1])
  }

  function Aimed(e: Place, link: Node): Place
    requires link.Link?
  {
    if link.absolute then link.target else (if e == [] then [] else e[..|e| - 1]) + link.target
  }

  function Canon(fs: Fs, path: Place, hops: nat): Option<Place>
    decreases MAX_SYMLINK_HOPS + 1 - hops, 1
  {
    if hops > MAX_SYMLINK_HOPS then None
    else
      var n := Existing(fs, path);
      var base := CanonOfEntry(fs, path[..n], hops);
      if base.None? then None else Some(base.value + path[n..])
  }

  /** An entry that exists: its real place, or, for a link that leads nowhere yet, that of its aim. */
  function CanonOfEntry(fs: Fs, e: Place, hops: nat): Option<Place>
    requires hops <= MAX_SYMLINK_HOPS
    decreases MAX_SYMLINK_HOPS + 1 - hops, 0
  {
    if RealPath(fs, e).Some? then RealPath(fs, e)
    else
      var link := ReadLink(fs, e);
      if link.None? then None else Canon(fs, Aimed(e, link.value), hops + 1)
  }

  /** Walk up from the leaf to the first entry that exists, links being entries. */
  method NearestExisting(fs: Fs, absolute: Place) returns (existing: Place, tail: seq<Name>)
    ensures existing == absolute[..Existing(fs, absolute)]
    ensures |tail| == |absolute| - |existing|
    ensures forall i | 0 <= i < |tail| :: tail[i] == absolute[|absolute| - 1 - i]
  {
    existing, tail := absolute, [];
    while !Lstat(fs, existing) && existing != []
      invariant |existing| + |tail| == |absolute| && existing == absolute[..|existing|]
      invariant forall i | 0 <= i < |tail| :: tail[i] == absolute[|absolute| - 1 - i]
      invariant Existing(fs, absolute) == Existing(fs, existing)
      decreases |existing|
    {
      tail := tail + [existing[|existing| - 1]];
      existing := existing[..|existing| - 1];
    }
  }

  /** The loop that walks up, the recursion on a link that leads nowhere yet, and the loop that puts the tail back. */
  method CanonicalizeBounded(fs: Fs, absolute: Place, hops: nat) returns (r: Option<Place>)
    ensures r == Canon(fs, absolute, hops)
    decreases MAX_SYMLINK_HOPS + 1 - hops
  {
    if hops > MAX_SYMLINK_HOPS { return None; }
    var existing, tail := NearestExisting(fs, absolute);
    var canonical;
    var known := RealPath(fs, existing);
    if known.Some? {
      canonical := known.value;
    } else {
      var link := ReadLink(fs, existing);
      if link.None? { return None; }
      var resolved := CanonicalizeBounded(fs, Aimed(existing, link.value), hops + 1);
      if resolved.None? { return None; }
      canonical := resolved.value;
    }
    canonical := PushTail(canonical, tail, absolute[|existing|..]);
    return Some(canonical);
  }

  /** Push the stripped names back, last stripped first. */
  method PushTail(base: Place, tail: seq<Name>, ghost rest: Place) returns (canonical: Place)
    requires |rest| == |tail| && forall i | 0 <= i < |tail| :: tail[i] == rest[|rest| - 1 - i]
    ensures canonical == base + rest
  {
    canonical := base;
    var i := |tail|;
    while i > 0
      invariant 0 <= i <= |tail| && canonical == base + rest[..|rest| - i]
    {
      i := i - 1;
      canonical := canonical + [tail[i]];
    }
    assert rest[..|rest|] == rest;
  }

  /** The path has a canonical form, and that lies strictly below no component named `partitions`. */
  predicate Admissible(fs: Fs, path: Place) {
    var c := Canon(fs, path, 0);
    c.Some? && forall i | 0 <= i < |c.value| - 1 :: c.value[i] != "partitions"
  }

  /** Refuse a path that resolves strictly below a component named `partitions`. */
  method GuardAgainstNestedKeyspace(fs: Fs, cwd: Place, absolute: bool, path: Place) returns (r: Result<()>)
    ensures r.Ok? <==> Admissible(fs, if absolute then path else cwd + path)
    ensures r.Ok? || r == Err(Error.Store)
  {
    var canonical := CanonicalizeBounded(fs, if absolute then path else cwd + path, 0);
    if canonical.None? { return Err(Error.Store); }
    var cur := |canonical.value| - 1;
    while cur > 0
      invariant cur < |canonical.value|
      invariant forall i | 0 <= i < |canonical.value| - 1 && cur <= i :: canonical.value[i] != "partitions"
    {
      if canonical.value[cur - 1] == "partitions" { return Err(Error.Store); }
      cur := cur - 1;
    }
    return Ok(());
  }

  // ----- walks

  /** Walking on from where a walk of the first part ended. */
  function Onward(fs: Fs, w: Walked, more: Place): Walked {
    match w
    case Found(at, left) => Walk(fs, at, more, left)
    case Missing(at, rest, left) => Missing(at, rest + more, left)
    case TooManyLinks => TooManyLinks
  }

  lemma {:induction false} WalkSplit(fs: Fs, at: Place, xs: Place, ys: Place, links: nat)
    ensures Walk(fs, at, xs + ys, links) == Onward(fs, Walk(fs, at, xs, links), ys)
    decreases links, |xs|
  {
    if xs == [] {
      assert xs + ys == ys;
    } else if at in fs && fs[at].Dir? && at + [xs[0]] in fs {
      assert (xs + ys)[1..] == xs[1..] + ys;
      match fs[at + [xs[0]]] {
        case Link(absolute, target) =>
          if links > 0 {
            WalkSplit(fs, if absolute then [] else at, target + xs[1..], ys, links - 1);
            assert target + (xs[1..] + ys) == (target + xs[1..]) + ys;
          }
        case _ => WalkSplit(fs, at + [xs[0]], xs[1..], ys, links);
      }
    }
  }

  function More(w: Walked, extra: nat): Walked {
    match w
    case Found(at, left) => Found(at, left + extra)
    case Missing(at, rest, left) => Missing(at, rest, left + extra)
    case TooManyLinks => TooManyLinks
  }

  /** A larger allowance changes nothing but what is left of it. */
  lemma {:induction false} WalkMore(fs: Fs, at: Place, path: Place, links: nat, extra: nat)
    requires !Walk(fs, at, path, links).TooManyLinks?
    ensures Walk(fs, at, path, links + extra) == More(Walk(fs, at, path, links), extra)
    decreases links, |path|
  {
    if path != [] && at in fs && fs[at].Dir? && at + [path[0]] in fs {
      match fs[at + [path[0]]] {
        case Link(absolute, target) => WalkMore(fs, if absolute then [] else at, target + path[1..], links - 1, extra);
        case _ => WalkMore(fs, at + [path[0]], path[1..], links, extra);
      }
    }
  }

  /** A smaller allowance that still covers the links used changes nothing else either. */
  lemma {:induction false} WalkLess(fs: Fs, at: Place, path: Place, links: nat, less: nat)
    requires less <= links && !Walk(fs, at, path, links).TooManyLinks?
    ensures Walk(fs, at, path, links - less) ==
              if less <= Walk(fs, at, path, links).left then
                var w := Walk(fs, at, path, links);
                if w.Found? then Found(w.at, w.left - less) else Missing(w.at, w.rest, w.left - less)
              else TooManyLinks
    decreases links, |path|
  {
    if path != [] && at in fs && fs[at].Dir? && at + [path[0]] in fs {
      match fs[at + [path[0]]] {
        case Link(absolute, target) =>
          LeftWithin(fs, if absolute then [] else at, target + path[1..], links - 1);
          if less < links { WalkLess(fs, if absolute then [] else at, target + path[1..], links - 1, less); }
        case _ => WalkLess(fs, at + [path[0]], path[1..], links, less);
      }
    }
  }

  lemma {:induction false} LeftWithin(fs: Fs, at: Place, path: Place, links: nat)
    ensures var w := Walk(fs, at, path, links); !w.TooManyLinks? ==> w.left <= links
    decreases links, |path|
  {
    if path != [] && at in fs && fs[at].Dir? && at + [path[0]] in fs {
      match fs[at + [path[0]]] {
        case Link(absolute, target) =>
          if links > 0 { LeftWithin(fs, if absolute then [] else at, target + path[1..], links - 1); }
        case _ => LeftWithin(fs, at + [path[0]], path[1..], links);
      }
    }
  }

  // ----- places without links

  /** No part of the place is a symbolic link. */
  ghost predicate LinkFree(fs: Fs, p: Place) {
    forall i | 0 <= i <= |p| :: p[..i] in fs ==> !fs[p[..i]].Link?
  }

  lemma {:induction false} Above(fs: Fs, p: Place, i: nat)
    requires WellFormed(fs) && p in fs && i <= |p|
    ensures p[..i] in fs && (i < |p| ==> fs[p[..i]].Dir?)
    decreases |p|
  {
    assert p[..|p|] == p && UnderDirectory(fs, p);
    if i < |p| {
      var up := p[..|p| - 1];
      Above(fs, up, i);
      assert up[..i] == p[..i];
    }
  }

  lemma LinkFreeOne(fs: Fs, at: Place, name: Name)
    requires LinkFree(fs, at) && (at + [name] in fs ==> !fs[at + [name]].Link?)
    ensures LinkFree(fs, at + [name])
  {
    var p := at + [name];
    forall i | 0 <= i <= |p| && p[..i] in fs
      ensures !fs[p[..i]].Link?
    {
      if i <= |at| { assert p[..i] == at[..i]; } else { assert p[..i] == p; }
    }
  }

  lemma LinkFreeBeyond(fs: Fs, at: Place, rest: Place)
    requires WellFormed(fs) && LinkFree(fs, at) && rest != []
    requires at !in fs || !fs[at].Dir? || at + [rest[0]] !in fs
    ensures LinkFree(fs, at + rest) && at + rest !in fs
  {
    var p := at + rest;
    assert p[..|p|] == p;
    forall i | 0 <= i <= |p|
      ensures p[..i] in fs ==> i <= |at| && !fs[p[..i]].Link?
    {
      if i <= |at| {
        assert p[..i] == at[..i];
      } else {
        var q := p[..i];
        assert q[..|at|] == at && q[..|at| + 1] == at + [rest[0]];
        if q in fs {
          Above(fs, q, |at|);
          Above(fs, q, |at| + 1);
        }
      }
    }
  }

  /** A walk ends at a place without links: an existing one, or one that starts to be missing where it says. */
  lemma {:induction false} WalkEndsLinkFree(fs: Fs, at: Place, path: Place, links: nat)
    requires WellFormed(fs) && at in fs && LinkFree(fs, at)
    ensures var w := Walk(fs, at, path, links);
            !w.TooManyLinks? ==>
              && w.at in fs && LinkFree(fs, w.at) && LinkFree(fs, Spelled(w)) && (w.Found? <==> Spelled(w) in fs)
              && (w.Missing? ==> w.rest != [] && (!fs[w.at].Dir? || w.at + [w.rest[0]] !in fs))
    decreases links, |path|
  {
    if path == [] {
    } else if !fs[at].Dir? || at + [path[0]] !in fs {
      LinkFreeBeyond(fs, at, path);
    } else {
      match fs[at + [path[0]]] {
        case Link(absolute, target) =>
          if links > 0 { WalkEndsLinkFree(fs, if absolute then [] else at, target + path[1..], links - 1); }
        case _ =>
          LinkFreeOne(fs, at, path[0]);
          WalkEndsLinkFree(fs, at + [path[0]], path[1..], links);
      }
    }
  }

  /** Walking a place without links stays on it and uses no links. */
  lemma {:induction false} WalkLinkFree(fs: Fs, at: Place, path: Place, links: nat)
    requires LinkFree(fs, at + path) && (at in fs || path == [])
    ensures var w := Walk(fs, at, path, links); !w.TooManyLinks? && w.left == links && Spelled(w) == at + path
    decreases |path|
  {
    if path == [] {
      assert at + path == at;
    } else if fs[at].Dir? && at + [path[0]] in fs {
      assert (at + path)[..|at| + 1] == at + [path[0]];
      assert at + path == (at + [path[0]]) + path[1..];
      WalkLinkFree(fs, at + [path[0]], path[1..], links);
    }
  }

  // ----- one hop

  /** With the parent of `e` found, `left` of `top` links remaining, any allowance gets there or runs out. */
  lemma WalkExact(fs: Fs, path: Place, links: nat)
    requires Walk(fs, [], path, KERNEL_LINKS).Found?
    ensures var w := Walk(fs, [], path, KERNEL_LINKS);
            && w.left <= KERNEL_LINKS
            && Walk(fs, [], path, links) ==
                 if links >= KERNEL_LINKS - w.left then Found(w.at, links - (KERNEL_LINKS - w.left)) else TooManyLinks
  {
    LeftWithin(fs, [], path, KERNEL_LINKS);
    if links >= KERNEL_LINKS {
      WalkMore(fs, [], path, KERNEL_LINKS, links - KERNEL_LINKS);
    } else {
      WalkLess(fs, [], path, KERNEL_LINKS, KERNEL_LINKS - links);
    }
  }

  /** The links a walk follows before the one `e` names, when that one leads elsewhere. */
  function Before(fs: Fs, e: Place): nat
    requires ReadLink(fs, e).Some?
  {
    LeftWithin(fs, [], e[..|e| - 1], KERNEL_LINKS);
    if ReadLink(fs, e).value.absolute then KERNEL_LINKS - Walk(fs, [], e[..|e| - 1], KERNEL_LINKS).left else 0
  }

  lemma Last(p: Place)
    requires p != []
    ensures p == p[..|p| - 1] + [p[|p| - 1]]
  {}

  /** Following the link `e` names costs one link, and after that the walk is that of its aim. */
  lemma LinkHop(fs: Fs, e: Place, links: nat)
    requires ReadLink(fs, e).Some?
    ensures Walk(fs, [], e, links + 1 + Before(fs, e)) == Walk(fs, [], Aimed(e, ReadLink(fs, e).value), links)
  {
    var up, leaf, link := e[..|e| - 1], [e[|e| - 1]], ReadLink(fs, e).value;
    Last(e);
    WalkSplit(fs, [], up, leaf, links + 1 + Before(fs, e));
    WalkExact(fs, up, links + 1 + Before(fs, e));
    assert link.target + leaf[1..] == link.target;
    if !link.absolute {
      WalkSplit(fs, [], up, link.target, links);
      WalkExact(fs, up, links);
    }
  }

  /** Nothing directly below the existing part exists. */
  lemma {:induction false} ExistingMost(fs: Fs, path: Place)
    ensures var n := Existing(fs, path);
            && (Lstat(fs, path[..n]) || n == 0) && (n < |path| ==> !Lstat(fs, path[..n + 1]))
    decreases |path|
  {
    if Existing(fs, path) == |path| {
      assert path[..|path|] == path;
    } else {
      var up := path[..|path| - 1];
      var n := Existing(fs, up);
      ExistingMost(fs, up);
      assert up[..n] == path[..n];
      if n < |up| { assert up[..n + 1] == path[..n + 1]; } else { assert path[..n + 1] == path; }
    }
  }

  /** If the existing part is found, the rest is missing right there. */
  lemma TailMissing(fs: Fs, path: Place, links: nat)
    requires var n := Existing(fs, path); n < |path| && Walk(fs, [], path[..n], KERNEL_LINKS).Found?
    ensures var n, at := Existing(fs, path), Walk(fs, [], path[..Existing(fs, path)], KERNEL_LINKS).at;
            Walk(fs, at, path[n..], links) == Missing(at, path[n..], links)
  {
    var n := Existing(fs, path);
    ExistingMost(fs, path);
    assert path[..n + 1][..n] == path[..n];
  }

  /** A step onto an entry that is no link is found. */
  lemma OneStep(fs: Fs, at: Place, name: Name, links: nat)
    requires at in fs && fs[at].Dir? && at + [name] in fs && !fs[at + [name]].Link?
    ensures Walk(fs, at, [name], links) == Found(at + [name], links)
  {
    assert [name][1..] == [];
  }

  /** If it is not found, it names a link. */
  lemma ExistingLink(fs: Fs, path: Place)
    requires WellFormed(fs) && !Walk(fs, [], path[..Existing(fs, path)], KERNEL_LINKS).Found?
    ensures ReadLink(fs, path[..Existing(fs, path)]).Some?
  {
    var e := path[..Existing(fs, path)];
    ExistingMost(fs, path);
    assert e != [];
    var up, leaf := e[..|e| - 1], [e[|e| - 1]];
    Last(e);
    WalkSplit(fs, [], up, leaf, KERNEL_LINKS);
    var w := Walk(fs, [], up, KERNEL_LINKS);
    if !fs[w.at + leaf].Link? { OneStep(fs, w.at, e[|e| - 1], w.left); }
  }

  // ----- canonicalisation against resolution

  /** The walk of a whole path, seen from its existing part. */
  lemma SplitAtExisting(fs: Fs, path: Place, links: nat)
    ensures var n := Existing(fs, path);
            Walk(fs, [], path, links) == Onward(fs, Walk(fs, [], path[..n], links), path[n..])
  {
    var n := Existing(fs, path);
    assert path == path[..n] + path[n..];
    WalkSplit(fs, [], path[..n], path[n..], links);
  }

  lemma SpelledFound(fs: Fs, path: Place, links: nat)
    requires links <= KERNEL_LINKS && !Walk(fs, [], path, links).TooManyLinks?
    requires Walk(fs, [], path[..Existing(fs, path)], KERNEL_LINKS).Found?
    ensures var n := Existing(fs, path);
            Spelled(Walk(fs, [], path, links)) == Walk(fs, [], path[..n], KERNEL_LINKS).at + path[n..]
  {
    var n := Existing(fs, path);
    SplitAtExisting(fs, path, links);
    WalkExact(fs, path[..n], links);
    if n < |path| {
      TailMissing(fs, path, Walk(fs, [], path[..n], links).left);
    } else {
      assert path[n..] == [];
    }
  }

  lemma SpelledHop(fs: Fs, path: Place, links: nat)
    requires links <= KERNEL_LINKS && !Walk(fs, [], path, links).TooManyLinks?
    requires !Walk(fs, [], path[..Existing(fs, path)], KERNEL_LINKS).Found?
    ensures var n := Existing(fs, path);
            && !Walk(fs, [], path[..n], links).TooManyLinks?
            && Spelled(Walk(fs, [], path, links)) == Spelled(Walk(fs, [], path[..n], links)) + path[n..]
  {
    SplitAtExisting(fs, path, links);
    WalkMore(fs, [], path[..Existing(fs, path)], links, KERNEL_LINKS - links);
  }

  lemma CanonFound(fs: Fs, path: Place, hops: nat)
    requires hops <= MAX_SYMLINK_HOPS && Walk(fs, [], path[..Existing(fs, path)], KERNEL_LINKS).Found?
    ensures var n := Existing(fs, path);
            Canon(fs, path, hops) == Some(Walk(fs, [], path[..n], KERNEL_LINKS).at + path[n..])
  {}

  lemma CanonHop(fs: Fs, path: Place, hops: nat, aim: Place)
    requires var e := path[..Existing(fs, path)];
             && hops <= MAX_SYMLINK_HOPS && !Walk(fs, [], e, KERNEL_LINKS).Found?
             && ReadLink(fs, e).Some? && aim == Aimed(e, ReadLink(fs, e).value)
    ensures var r := Canon(fs, aim, hops + 1);
            Canon(fs, path, hops) == if r.None? then None else Some(r.value + path[Existing(fs, path)..])
  {}

  lemma HopFits(fs: Fs, e: Place, links: nat)
    requires ReadLink(fs, e).Some? && !Walk(fs, [], e, links).TooManyLinks?
    ensures 1 + Before(fs, e) <= links
  {
    var up, leaf := e[..|e| - 1], [e[|e| - 1]];
    Last(e);
    WalkSplit(fs, [], up, leaf, links);
    WalkExact(fs, up, links);
  }

  /** What is left of an allowance once the existing part's link has been followed. */
  lemma AimWalk(fs: Fs, path: Place, links: nat) returns (aim: Place, less: nat)
    requires WellFormed(fs) && links <= KERNEL_LINKS && !Walk(fs, [], path, links).TooManyLinks?
    requires !Walk(fs, [], path[..Existing(fs, path)], KERNEL_LINKS).Found?
    ensures less < links && !Walk(fs, [], aim, less).TooManyLinks?
    ensures ReadLink(fs, path[..Existing(fs, path)]).Some?
    ensures aim == Aimed(path[..Existing(fs, path)], ReadLink(fs, path[..Existing(fs, path)]).value)
    ensures Spelled(Walk(fs, [], path, links)) == Spelled(Walk(fs, [], aim, less)) + path[Existing(fs, path)..]
  {
    var e := path[..Existing(fs, path)];
    SpelledHop(fs, path, links);
    ExistingLink(fs, path);
    HopFits(fs, e, links);
    aim, less := Aimed(e, ReadLink(fs, e).value), links - 1 - Before(fs, e);
    LinkHop(fs, e, less);
  }

  lemma MatchesFound(fs: Fs, path: Place, hops: nat, links: nat)
    requires hops <= MAX_SYMLINK_HOPS && links <= KERNEL_LINKS && !Walk(fs, [], path, links).TooManyLinks?
    requires Walk(fs, [], path[..Existing(fs, path)], KERNEL_LINKS).Found?
    ensures Canon(fs, path, hops) == Some(Spelled(Walk(fs, [], path, links)))
  {
    SpelledFound(fs, path, links);
    CanonFound(fs, path, hops);
  }

  lemma MatchesHop(fs: Fs, path: Place, hops: nat, links: nat) returns (aim: Place, less: nat)
    requires WellFormed(fs) && hops <= MAX_SYMLINK_HOPS && links <= KERNEL_LINKS
    requires !Walk(fs, [], path, links).TooManyLinks?
    requires !Walk(fs, [], path[..Existing(fs, path)], KERNEL_LINKS).Found?
    ensures less < links && !Walk(fs, [], aim, less).TooManyLinks?
    ensures Canon(fs, aim, hops + 1) == Some(Spelled(Walk(fs, [], aim, less))) ==>
              Canon(fs, path, hops) == Some(Spelled(Walk(fs, [], path, links)))
  {
    aim, less := AimWalk(fs, path, links);
    CanonHop(fs, path, hops, aim);
  }

  /** A path the walk can resolve within the hops still allowed canonicalises to the place the walk names. */
  lemma {:induction false} CanonMatches(fs: Fs, path: Place, hops: nat, links: nat)
    requires WellFormed(fs) && hops + links <= MAX_SYMLINK_HOPS && !Walk(fs, [], path, links).TooManyLinks?
    ensures Canon(fs, path, hops) == Some(Spelled(Walk(fs, [], path, links)))
    decreases links
  {
    if Walk(fs, [], path[..Existing(fs, path)], KERNEL_LINKS).Found? {
      MatchesFound(fs, path, hops, links);
    } else {
      var aim, less := MatchesHop(fs, path, hops, links);
      CanonMatches(fs, aim, hops + 1, less);
    }
  }

  /** `p` resolves like `r`, after `k` links more: to the same place, or both to none. */
  ghost predicate ResolvesLike(fs: Fs, p: Place, r: Place, k: nat) {
    forall links: nat :: Walk(fs, [], p, links + k) == Walk(fs, [], r, links)
  }

  lemma {:induction false} CanonFollows(fs: Fs, path: Place, hops: nat) returns (k: nat)
    requires WellFormed(fs) && Canon(fs, path, hops).Some?
    ensures ResolvesLike(fs, path, Canon(fs, path, hops).value, k)
    decreases MAX_SYMLINK_HOPS + 1 - hops
  {
    var n := Existing(fs, path);
    var e, tail := path[..n], path[n..];
    assert path == e + tail;
    if Walk(fs, [], e, KERNEL_LINKS).Found? {
      k := FoundFollows(fs, e, tail);
    } else {
      ExistingLink(fs, path);
      var aim := Aimed(e, ReadLink(fs, e).value);
      var j := CanonFollows(fs, aim, hops + 1);
      k := j + 1 + Before(fs, e);
      HopFollows(fs, e, tail, Canon(fs, aim, hops + 1).value, j);
    }
  }

  lemma FoundThere(fs: Fs, at: Place, links: nat)
    requires WellFormed(fs) && at in fs && LinkFree(fs, at)
    ensures Walk(fs, [], at, links) == Found(at, links)
  {
    assert [] + at == at;
    WalkLinkFree(fs, [], at, links);
    WalkEndsLinkFree(fs, [], at, links);
  }

  lemma FoundAlike(fs: Fs, e: Place, tail: Place, links: nat)
    requires WellFormed(fs) && Walk(fs, [], e, KERNEL_LINKS).Found?
    requires Walk(fs, [], e, KERNEL_LINKS).left <= KERNEL_LINKS
    ensures var w := Walk(fs, [], e, KERNEL_LINKS);
            Walk(fs, [], e + tail, links + (KERNEL_LINKS - w.left)) == Walk(fs, [], w.at + tail, links)
  {
    var w := Walk(fs, [], e, KERNEL_LINKS);
    WalkEndsLinkFree(fs, [], e, KERNEL_LINKS);
    WalkSplit(fs, [], e, tail, links + (KERNEL_LINKS - w.left));
    WalkExact(fs, e, links + (KERNEL_LINKS - w.left));
    WalkSplit(fs, [], w.at, tail, links);
    FoundThere(fs, w.at, links);
  }

  lemma FoundFollows(fs: Fs, e: Place, tail: Place) returns (k: nat)
    requires WellFormed(fs) && Walk(fs, [], e, KERNEL_LINKS).Found?
    ensures ResolvesLike(fs, e + tail, Walk(fs, [], e, KERNEL_LINKS).at + tail, k)
  {
    LeftWithin(fs, [], e, KERNEL_LINKS);
    k := KERNEL_LINKS - Walk(fs, [], e, KERNEL_LINKS).left;
    forall links: nat
      ensures Walk(fs, [], e + tail, links + k) == Walk(fs, [], Walk(fs, [], e, KERNEL_LINKS).at + tail, links)
    {
      FoundAlike(fs, e, tail, links);
    }
  }

  lemma HopFollows(fs: Fs, e: Place, tail: Place, r: Place, j: nat)
    requires ReadLink(fs, e).Some? && ResolvesLike(fs, Aimed(e, ReadLink(fs, e).value), r, j)
    ensures ResolvesLike(fs, e + tail, r + tail, j + 1 + Before(fs, e))
  {
    forall links: nat
      ensures Walk(fs, [], e + tail, links + (j + 1 + Before(fs, e))) == Walk(fs, [], r + tail, links)
    {
      WalkSplit(fs, [], e, tail, links + (j + 1 + Before(fs, e)));
      LinkHop(fs, e, links + j);
      WalkSplit(fs, [], r, tail, links);
    }
  }

  // ----- main results

  /** Every path the kernel itself can resolve, its missing part included, canonicalises to
  exactly the place resolution names; that place has no link in it and is its own canonical form. */
  lemma KernelPathsCanonicalise(fs: Fs, path: Place)
    requires WellFormed(fs) && !Walk(fs, [], path, KERNEL_LINKS).TooManyLinks?
    ensures var r := Spelled(Walk(fs, [], path, KERNEL_LINKS));
            Canon(fs, path, 0) == Some(r) && LinkFree(fs, r) && Canon(fs, r, 0) == Some(r)
  {
    var r := Spelled(Walk(fs, [], path, KERNEL_LINKS));
    CanonMatches(fs, path, 0, KERNEL_LINKS);
    WalkEndsLinkFree(fs, [], path, KERNEL_LINKS);
    assert [] + r == r;
    WalkLinkFree(fs, [], r, KERNEL_LINKS);
    CanonMatches(fs, r, 0, KERNEL_LINKS);
  }

  /** Whatever it accepts, cyclic filesystems and longer chains included, resolves like what it answers. */
  lemma AcceptedResolvesAlike(fs: Fs, path: Place)
    requires WellFormed(fs) && Canon(fs, path, 0).Some?
    ensures exists k :: ResolvesLike(fs, path, Canon(fs, path, 0).value, k)
  {
    var k := CanonFollows(fs, path, 0);
  }

  /** An answer is the place resolution names exactly when there is no link left in it. */
  lemma AnswerExactIff(fs: Fs, path: Place)
    requires WellFormed(fs) && Canon(fs, path, 0).Some?
    ensures var r := Canon(fs, path, 0).value;
            LinkFree(fs, r) <==>
              exists links: nat :: !Walk(fs, [], path, links).TooManyLinks? && Spelled(Walk(fs, [], path, links)) == r
  {
    var r := Canon(fs, path, 0).value;
    if LinkFree(fs, r) {
      var k := CanonFollows(fs, path, 0);
      assert [] + r == r;
      WalkLinkFree(fs, [], r, 0);
      assert Walk(fs, [], path, 0 + k) == Walk(fs, [], r, 0);
    }
    if links: nat :| !Walk(fs, [], path, links).TooManyLinks? && Spelled(Walk(fs, [], path, links)) == r {
      WalkEndsLinkFree(fs, [], path, links);
    }
  }

  /** The guard, on a path the kernel can resolve: it refuses exactly those that lead
  strictly below a directory, or a directory to be, named `partitions`. */
  lemma GuardExact(fs: Fs, path: Place)
    requires WellFormed(fs) && !Walk(fs, [], path, KERNEL_LINKS).TooManyLinks?
    ensures var place := Spelled(Walk(fs, [], path, KERNEL_LINKS));
            !Admissible(fs, path) <==> exists i :: 0 <= i < |place| - 1 && place[i] == "partitions"
  {
    KernelPathsCanonicalise(fs, path);
  }
}
