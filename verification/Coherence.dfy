/**
 * The path caches while the remote tree changes: what one event prunes, exactly
 * when that is enough, and what holds over whole runs with events in flight.
 */
module Coherence {
  import opened Outcome
  import opened Paths
  import opened Remote
  import opened Metadata
  import opened Sessions
  import opened Events
  import opened PathCache

  // ----- what one event does to the path caches -----

  /** The forward entries `handle` removes; every test reads the reverse map only. */
  predicate Pruned(s: State, ev: LinkEvent, key: string) {
    var path, parentPath := LinkPath(s, ev.link.id), LinkPath(s, ev.link.parent);
    var single := ev.link.parent in s.linkPaths && key == s.linkPaths[ev.link.parent];
    match ev.kind
    case Delete => AtOrUnder(path, key) || (path == "" && single)
    case Create => if parentPath != "" then AtOrUnder(parentPath, key) else single
    case Update =>
      || AtOrUnder(path, key)
      || (parentPath != "" && parentPath != path && AtOrUnder(parentPath, key))
      || (path == "" && single)
  }

  function Survivors(s: State, ev: LinkEvent): map<string, LinkID> {
    map key | key in s.pathLinks && !Pruned(s, ev, key) :: s.pathLinks[key]
  }

  /** A diff touches neither the forward map nor the keyrings. */
  lemma DiffKeepsForwardMap(ps: PollerState, api: Api, dir: string, dirID: LinkID, was: Option<ListEntry>, now: nat)
    ensures var s, s' := ps.session, DiffIfKnown(ps, api, dir, dirID, was, now).0.session;
            s'.pathLinks == s.pathLinks && s'.nodeKRs == s.nodeKRs && s'.root == s.root
  {
  }

  lemma {:induction false} HandledForwardMap(ps: PollerState, ev: LinkEvent, api: Api, now: nat)
    ensures var s, s' := ps.session, Handled(ps, ev, api, now).session;
            s'.pathLinks == Survivors(s, ev) && s'.nodeKRs == s.nodeKRs && s'.root == s.root
  {
    match ev.kind
    case Delete =>
    case Create =>
      CreateForwardMap(ps, ev.link, api, now);
    case Update =>
      UpdateForwardMap(ps, ev.link, api, now);
  }

  lemma {:induction false} CreateForwardMap(ps: PollerState, link: Link, api: Api, now: nat)
    ensures var s, s' := ps.session, HandleCreate(ps, link, api, now).session;
            s'.pathLinks == Survivors(s, LinkEvent(Create, link)) && s'.nodeKRs == s.nodeKRs && s'.root == s.root
  {
    hide DiffIfKnown, ChildPath, DropLink, DropPath, AtOrUnder;
    var s := ps.session;
    var parentPath := LinkPath(s, link.parent);
    var was := Lookup(s.meta.lists, parentPath);
    var s1 := CreateStart(s, link, api);
    assert s1.pathLinks == Survivors(s, LinkEvent(Create, link));
    DiffKeepsForwardMap(ps.(session := s1), api, parentPath, link.parent, was, now);
    if link.parent in s1.nodeKRs {
      var s2 := CreatedName(s1, link, s1.nodeKRs[link.parent], api).0;
      DiffKeepsForwardMap(ps.(session := s2), api, parentPath, link.parent, was, now);
    }
  }

  lemma {:induction false} UpdateForwardMap(ps: PollerState, link: Link, api: Api, now: nat)
    ensures var s, s' := ps.session, HandleUpdate(ps, link, api, now).session;
            s'.pathLinks == Survivors(s, LinkEvent(Update, link)) && s'.nodeKRs == s.nodeKRs && s'.root == s.root
  {
    var s := ps.session;
    var path, parentPath := LinkPath(s, link.id), LinkPath(s, link.parent);
    var was, wasParent := Lookup(s.meta.lists, path), Lookup(s.meta.lists, parentPath);
    InvalidatedForwardMap(s, link, api);
    var ps1 := UpdateStart(ps, link, api);
    DiffKeepsForwardMap(ps1, api, path, link.id, was, now);
    var ps2 := DiffIfKnown(ps1, api, path, link.id, was, now).0;
    DiffKeepsForwardMap(ps2, api, parentPath, link.parent, wasParent, now);
    var ps3 := DiffIfKnown(ps2, api, parentPath, link.parent, wasParent, now).0;
    FallbackKeepsForwardMap(ps3, link, path, parentPath, api);
  }

  lemma InvalidatedForwardMap(s: State, link: Link, api: Api)
    ensures var s' := Invalidated(s, link, api);
            s'.pathLinks == Survivors(s, LinkEvent(Update, link)) && s'.nodeKRs == s.nodeKRs && s'.root == s.root
  {
  }

  lemma FallbackKeepsForwardMap(ps: PollerState, link: Link, path: string, parentPath: string, api: Api)
    ensures var s, s' := ps.session, UpdateFallback(ps, link, path, parentPath, api).session;
            s'.pathLinks == s.pathLinks && s'.nodeKRs == s.nodeKRs && s'.root == s.root
  {
  }

  // ----- remote changes -----

  ghost predicate Passes(t: Tree, c: seq<string>, x: LinkID) {
    exists k :: 0 <= k <= |c| && Reaches(t, c[..k], x)
  }

  ghost predicate Under(t: Tree, x: LinkID, y: LinkID) {
    exists c :: Reaches(t, c, y) && Passes(t, c, x)
  }

  predicate SamePlace(a: Link, b: Link) {
    a.parent == b.parent && a.name == b.name
  }

  /**
   * A rename, move, trash, restore, delete or content change of `x`: no other
   * link moves, and only links under `x` may disappear with it.
   */
  ghost predicate Relocates(t: Tree, t': Tree, x: LinkID) {
    && t'.root == t.root
    && (forall y | y in t'.links && y != x :: y in t.links && SamePlace(t.links[y], t'.links[y]))
    && (forall y | y in t.links && y != x && y !in t'.links :: x != t.root && Under(t, x, y))
  }

  /** A new link `x`, placed as the event says; the event may omit the name. */
  ghost predicate Adds(t: Tree, t': Tree, link: Link) {
    && link.id !in t.links && link.id != t.root
    && link.id in t'.links && t' == Tree(t.root, t.links[link.id := t'.links[link.id]])
    && t'.links[link.id].parent == link.parent
    && (link.name.Some? ==> t'.links[link.id].name == link.name)
  }

  ghost predicate Changes(t: Tree, t': Tree, ev: LinkEvent) {
    WellFormed(t') && if ev.kind.Create? then Adds(t, t', ev.link) else Relocates(t, t', ev.link.id)
  }

  /** A path that does not pass through `x` leads where it led before. */
  lemma {:induction false} ReachesKept(t: Tree, t': Tree, x: LinkID, c: seq<string>, y: LinkID)
    requires WellFormed(t) && Relocates(t, t', x) && Reaches(t, c, y)
    requires x == t.root || !Passes(t, c, x)
    ensures Reaches(t', c, y)
    decreases |c|
  {
    if c != [] {
      var front := c[..|c| - 1];
      assert c[..|c|] == c;
      if y == x {
        assert false;
      }
      if y !in t'.links {
        var d :| Reaches(t, d, y) && Passes(t, d, x);
        PathUnique(t, c, d, y);
        assert false;
      }
      if Passes(t, front, x) {
        var k :| 0 <= k <= |front| && Reaches(t, front[..k], x);
        assert front[..k] == c[..k];
      }
      ReachesKept(t, t', x, front, t.links[y].parent);
    }
  }

  lemma {:induction false} ReachesAfterAdd(t: Tree, t': Tree, link: Link, c: seq<string>, y: LinkID)
    requires Adds(t, t', link) && Reaches(t, c, y)
    ensures Reaches(t', c, y)
    decreases |c|
  {
    if c != [] {
      ReachesAfterAdd(t, t', link, c[..|c| - 1], t.links[y].parent);
    }
  }

  /** Good entries off the path of a change stay good. */
  lemma GoodKept(s: State, t: Tree, t': Tree, ev: LinkEvent, q: string)
    requires WellFormed(t) && Changes(t, t', ev) && Good(s, t, q)
    requires ev.kind.Create? || ev.link.id == t.root || !Passes(t, SplitPath(q), ev.link.id)
    ensures Good(s, t', q)
  {
    hide Render, SplitPath, Relocates, Adds;
    var c := SplitPath(q);
    var y := s.pathLinks[q];
    if ev.kind.Create? {
      ReachesAfterAdd(t, t', ev.link, c, y);
    } else {
      ReachesKept(t, t', ev.link.id, c, y);
    }
    forall k: nat, z | k <= |c| && Reaches(t', c[..k], z) && z in s.linkPaths
      ensures s.linkPaths[z] == Render(c[..k])
    {
      var z0 := PrefixTarget(t, c, y, k);
      if ev.kind.Create? {
        ReachesAfterAdd(t, t', ev.link, c[..k], z0);
      } else {
        if Passes(t, c[..k], ev.link.id) {
          var j :| 0 <= j <= k && Reaches(t, c[..k][..j], ev.link.id);
          assert c[..k][..j] == c[..j];
        }
        ReachesKept(t, t', ev.link.id, c[..k], z0);
      }
      TargetUnique(t', c[..k], z, z0);
    }
  }

  // ----- exactly when one event is enough -----

  /** If a path through `x` still leads where it led, then `x` is still where it was. */
  lemma {:induction false} StillThere(t: Tree, t': Tree, x: LinkID, d: seq<string>, y: LinkID, k: nat)
    requires WellFormed(t) && Relocates(t, t', x) && k <= |d|
    requires Reaches(t, d, y) && Reaches(t', d, y) && Reaches(t, d[..k], x)
    ensures Reaches(t', d[..k], x)
    decreases |d|
  {
    assert d[..|d|] == d;
    if k == |d| {
      TargetUnique(t, d, x, y);
    } else {
      if y == x {
        PathUnique(t, d, d[..k], x);
        assert false;
      }
      assert d[..|d| - 1][..k] == d[..k];
      StillThere(t, t', x, d[..|d| - 1], t.links[y].parent, k);
    }
  }

  lemma ThroughMeansUnder(t: Tree, c: seq<string>, x: LinkID, q: string)
    requires WellFormed(t) && Reaches(t, c, x) && AllNames(c) && c != [] && IsClean(q)
    ensures AtOrUnder(Render(c), q) <==> Passes(t, SplitPath(q), x)
  {
    var d := SplitPath(q);
    RenderInverse(c);
    CleanPathShape(q);
    assert Render(c) != "/" && Render(c) != "" by {
      TailEmpty(c);
      if Render(c) == "/" {
        RenderInjective(c, []);
      }
    }
    AtOrUnderIsAncestor(Render(c), q);
    if c <= d {
      assert d[..|c|] == c;
    }
    if Passes(t, d, x) {
      var k :| 0 <= k <= |d| && Reaches(t, d[..k], x);
      PathUnique(t, c, d[..k], x);
    }
  }

  /** The entries that survive the event of a link that left its path `c`. */
  lemma {:induction false} SurvivorsRightIff(s: State, t: Tree, t': Tree, ev: LinkEvent, c: seq<string>)
    requires WellFormed(t) && Changes(t, t', ev) && !ev.kind.Create?
    requires Coherent(s, t) && AllNames(c)
    requires Reaches(t, c, ev.link.id) && !Reaches(t', c, ev.link.id)
    ensures AllRight(Survivors(s, ev), t')
       <==> forall q | q in s.pathLinks && AtOrUnder(Render(c), q) :: Pruned(s, ev, q)
  {
    hide AtOrUnder, IsPathOf, Pruned, Render, Changes;
    forall q | q in s.pathLinks
      ensures IsPathOf(t', q, s.pathLinks[q]) <==> !AtOrUnder(Render(c), q)
    {
      RightIffAway(t, t', ev, c, q, s.pathLinks[q]);
    }
    if AllRight(Survivors(s, ev), t') {
      assert forall q | q in s.pathLinks :: Pruned(s, ev, q) || q in Survivors(s, ev);
    }
  }

  /** A right entry stays right exactly if it is not at or under the path that was left. */
  lemma {:induction false} RightIffAway(t: Tree, t': Tree, ev: LinkEvent, c: seq<string>, q: string, y: LinkID)
    requires WellFormed(t) && Changes(t, t', ev) && !ev.kind.Create? && AllNames(c)
    requires Reaches(t, c, ev.link.id) && !Reaches(t', c, ev.link.id) && IsPathOf(t, q, y)
    ensures IsPathOf(t', q, y) <==> !AtOrUnder(Render(c), q)
  {
    var x, d := ev.link.id, SplitPath(q);
    assert c != [];
    ThroughMeansUnder(t, c, x, q);
    if Passes(t, d, x) {
      var k :| 0 <= k <= |d| && Reaches(t, d[..k], x);
      PathUnique(t, c, d[..k], x);
      if Reaches(t', d, y) {
        StillThere(t, t', x, d, y, k);
        assert false;
      }
    } else {
      ReachesKept(t, t', x, d, y);
    }
  }

  /**
   * After the event of a link that left its path `c`, the forward map is
   * coherent with the new tree if and only if every entry at or under `c` is
   * one the event prunes.
   */
  lemma {:induction false} EventCoherenceExact(ps: PollerState, t: Tree, t': Tree, ev: LinkEvent, c: seq<string>,
      api: Api, now: nat)
    requires WellFormed(t) && Changes(t, t', ev) && !ev.kind.Create?
    requires Coherent(ps.session, t) && AllNames(c)
    requires Reaches(t, c, ev.link.id) && !Reaches(t', c, ev.link.id)
    ensures Coherent(Handled(ps, ev, api, now).session, t')
       <==> forall q | q in ps.session.pathLinks && AtOrUnder(Render(c), q) :: Pruned(ps.session, ev, q)
  {
    hide Pruned, AtOrUnder, AllRight;
    HandledForwardMap(ps, ev, api, now);
    SurvivorsRightIff(ps.session, t, t', ev, c);
  }

  /**
   * In particular it is enough that the reverse map holds the link's path, or
   * nothing at all for it.
   */
  lemma {:induction false} EventCoherence(ps: PollerState, t: Tree, t': Tree, ev: LinkEvent, api: Api, now: nat)
    requires WellFormed(t) && Changes(t, t', ev) && Coherent(ps.session, t)
    requires !ev.kind.Create? && ev.link.id in ps.session.linkPaths ==>
      IsPathOf(t, ps.session.linkPaths[ev.link.id], ev.link.id)
    ensures Coherent(Handled(ps, ev, api, now).session, t')
  {
    hide Pruned, AllRight;
    HandledForwardMap(ps, ev, api, now);
    SurvivorsRight(ps.session, t, t', ev);
  }

  lemma {:induction false} SurvivorsRight(s: State, t: Tree, t': Tree, ev: LinkEvent)
    requires WellFormed(t) && Changes(t, t', ev) && Coherent(s, t)
    requires !ev.kind.Create? && ev.link.id in s.linkPaths ==> IsPathOf(t, s.linkPaths[ev.link.id], ev.link.id)
    ensures AllRight(Survivors(s, ev), t')
  {
    forall q | q in Survivors(s, ev)
      ensures IsPathOf(t', q, s.pathLinks[q])
    {
      if ev.kind.Create? {
        ReachesAfterAdd(t, t', ev.link, SplitPath(q), s.pathLinks[q]);
      } else {
        SurvivorAvoids(s, t, ev, q);
        ReachesKept(t, t', ev.link.id, SplitPath(q), s.pathLinks[q]);
      }
    }
  }

  /** What survives the event of `x` does not pass through `x`. */
  lemma SurvivorAvoids(s: State, t: Tree, ev: LinkEvent, q: string)
    requires WellFormed(t) && IsClean(q) && !ev.kind.Create? && !Pruned(s, ev, q)
    requires ev.link.id in s.linkPaths ==> IsPathOf(t, s.linkPaths[ev.link.id], ev.link.id)
    ensures ev.link.id == t.root || !Passes(t, SplitPath(q), ev.link.id)
  {
    var x := ev.link.id;
    if x !in s.linkPaths {
      UnknownPrunesAll(s, ev, q);
    } else if x != t.root {
      CleanPathShape(s.linkPaths[x]);
      ThroughMeansUnder(t, SplitPath(s.linkPaths[x]), x, q);
    }
  }

  /** An event for a link of unknown path clears the whole forward map. */
  lemma UnknownPrunesAll(s: State, ev: LinkEvent, q: string)
    requires IsClean(q) && !ev.kind.Create? && ev.link.id !in s.linkPaths
    ensures Pruned(s, ev, q)
  {
    AtOrUnderIsAncestor("", q);
  }
}
