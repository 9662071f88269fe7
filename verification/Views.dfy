/**
 * What the file manager shows of a folder after it has applied what an event
 * announced: for every event, either the folder's new contents or it has been
 * told to look again.
 */
module Views {
  import opened Outcome
  import opened Paths
  import opened Remote
  import opened Metadata
  import opened Sessions
  import opened Events
  import opened PathCache
  import opened Coherence
  import opened Notifications
  import opened Records
  import opened Announcements

  /** The paths of the named children of folder `d` at `dir`. */
  function Shown(t: Tree, d: LinkID, dir: string): set<string> {
    set y | y in t.links && t.links[y].parent == d && t.links[y].name.Some? :: ChildPath(dir, t.links[y].name.value)
  }

  /** The child that is shown at a path. */
  ghost function Showing(t: Tree, d: LinkID, dir: string, p: string): (y: LinkID)
    requires p in Shown(t, d, dir)
    ensures y in t.links && t.links[y].parent == d && t.links[y].name.Some?
    ensures p == ChildPath(dir, t.links[y].name.value)
  {
    var y :| y in t.links && t.links[y].parent == d && t.links[y].name.Some? &&
        p == ChildPath(dir, t.links[y].name.value);
    y
  }

  ghost predicate ProperNames(t: Tree, d: LinkID) {
    forall y | y in t.links && t.links[y].parent == d && t.links[y].name.Some? :: IsName(t.links[y].name.value)
  }

  lemma ListedIsShown(t: Tree, d: LinkID, ls: seq<Link>, dir: string)
    requires WellFormed(t) && IsListing(t, d, ls)
    ensures PathsOf(dir, NamesOf(ls, NodeKey(d))) == Shown(t, d, dir)
  {
    hide ChildPath;
    var names := NamesOf(ls, NodeKey(d));
    NamesOfAre(ls, NodeKey(d));
    forall p | p in PathsOf(dir, names)
      ensures p in Shown(t, d, dir)
    {
      var n :| n in names && p == ChildPath(dir, n);
      var l :| l in ls && GetName(l, NodeKey(d)) == Some(n);
      assert t.links[l.id].name.value == n;
    }
    forall p | p in Shown(t, d, dir)
      ensures p in PathsOf(dir, names)
    {
      var y := Showing(t, d, dir, p);
      assert t.links[y] in ls && GetName(t.links[y], NodeKey(d)) == Some(t.links[y].name.value);
    }
  }

  /** A diff brings the view of its folder up to date. */
  lemma DiffShows(s: State, t: Tree, t': Tree, d: LinkID, call: nat, api: Api)
    requires WellFormed(t) && WellFormed(t') && KeysRight(s) && Faithful(api, t') && Orders(api)
    requires Diffable(s, d) && api.list(call, d).Ok? && Listed(s, t, d)
    ensures Replay(Shown(t, d, LinkPath(s, d)), DiffAnnounced(s, d, call, api)) == Shown(t', d, LinkPath(s, d))
  {
    hide WellFormed, Replay, Differences;
    var dir, kr := LinkPath(s, d), NodeKey(d);
    var was, cur := s.meta.lists[dir].listing.links, api.list(call, d).value;
    assert IsListing(t', d, cur);
    ListedIsShown(t, d, was, dir);
    ListedIsShown(t', d, cur, dir);
    DiffReplays(api, dir, NamesOf(was, kr), NamesOf(cur, kr), DiffAnnounced(s, d, call, api));
  }

  /** The shown path of a child is that of the child alone. */
  lemma ShownIsPath(t: Tree, d: LinkID, dir: string, y: LinkID, x: LinkID, path: string)
    requires WellFormed(t) && ProperNames(t, d) && IsPathOf(t, dir, d) && IsPathOf(t, path, x)
    requires y in t.links && t.links[y].parent == d && t.links[y].name.Some?
    ensures ChildPath(dir, t.links[y].name.value) == path <==> y == x
  {
    hide Render, ChildPath, SplitPath;
    var c, n := SplitPath(dir), t.links[y].name.value;
    CleanPathShape(dir);
    CleanPathShape(path);
    ChildPathOfRender(c, n);
    RenderInverse(c + [n]);
    ReachesSnoc(t, c, n, y);
    if y == x {
      PathUnique(t, c + [n], SplitPath(path), x);
    } else if ChildPath(dir, n) == path {
      TargetUnique(t, c + [n], x, y);
    }
  }

  /** When a link goes, the folder shows its other children. */
  lemma {:induction false} GoneShows(t: Tree, t': Tree, x: LinkID, d: LinkID, dir: string, path: string)
    requires WellFormed(t) && WellFormed(t') && Relocates(t, t', x) && x !in t'.links && !Under(t, x, d)
    requires ProperNames(t, d) && IsPathOf(t, dir, d) && IsPathOf(t, path, x)
    ensures Shown(t', d, dir) == Shown(t, d, dir) - {path}
  {
    hide ChildPath, IsPathOf, WellFormed, Under;
    forall p | p in Shown(t, d, dir) && p != path
      ensures p in Shown(t', d, dir)
    {
      var y := Showing(t, d, dir, p);
      ShownIsPath(t, d, dir, y, x, path);
      SiblingStays(t, t', x, y);
    }
    forall p | p in Shown(t', d, dir)
      ensures p in Shown(t, d, dir) && p != path
    {
      var y := Showing(t', d, dir, p);
      assert SamePlace(t.links[y], t'.links[y]);
      ShownIsPath(t, d, dir, y, x, path);
    }
  }

  /** When a link is added, the folder shows one child more. */
  lemma AddedShows(t: Tree, t': Tree, link: Link, dir: string)
    requires Adds(t, t', link) && t'.links[link.id].name.Some?
    ensures Shown(t', link.parent, dir) == Shown(t, link.parent, dir) + {ChildPath(dir, t'.links[link.id].name.value)}
  {
    hide ChildPath;
    var d := link.parent;
    forall p
      ensures p in Shown(t', d, dir) <==> p in Shown(t, d, dir) || p == ChildPath(dir, t'.links[link.id].name.value)
    {
      if p in Shown(t', d, dir) {
        var y := Showing(t', d, dir, p);
        assert y == link.id || t.links[y] == t'.links[y];
      }
      if p in Shown(t, d, dir) {
        var y := Showing(t, d, dir, p);
        assert t'.links[y] == t.links[y];
      }
      assert t'.links[link.id].parent == d;
    }
  }

  lemma ReplayOne(shown: set<string>, e: DriveEvent)
    ensures Replay(shown, [e])
         == match e.kind case Created => shown + {e.path} case Deleted => shown - {e.path} case Changed => shown
  {
    assert [e][..0] == [];
  }

  /** The name a create event finds is the link's. */
  lemma NewNameIsTrue(s: State, t: Tree, link: Link, api: Api)
    requires Faithful(api, t) && KeysRight(s) && link.id in t.links && t.links[link.id].parent == link.parent
    requires (link.name.Some? ==> t.links[link.id].name == link.name) && NewName(s, link, api).Some?
    ensures NewName(s, link, api) == t.links[link.id].name
  {
  }

  /** The folder is told to look at itself or at the link again. */
  ghost predicate ToldToLook(s: State, ev: LinkEvent, evs: seq<DriveEvent>) {
    exists e :: e in evs && e.kind == Changed
      && (e.path == LinkPath(s, ev.link.parent) || e.path == LinkPath(s, ev.link.id))
  }

  /**
   * The tree before and after the change, and what the helper knows: the path
   * of the event's folder, nothing wrong about the link, and listings as they
   * were. A deletion removes the link; what is listed is not in the trash.
   */
  ghost predicate Witnessed(s: State, t: Tree, t': Tree, ev: LinkEvent, api: Api) {
    var x, d := ev.link.id, ev.link.parent;
    && WellFormed(t) && Changes(t, t', ev) && KeysRight(s) && Faithful(api, t') && Orders(api)
    && d in s.linkPaths && IsPathOf(t, s.linkPaths[d], d) && ProperNames(t, d) && Listed(s, t, d)
    && (!ev.kind.Create? ==> !Under(t, x, d) && (x in s.linkPaths ==> IsPathOf(t, s.linkPaths[x], x)))
    && (ev.kind.Update? ==> Listed(s, t, x) && (x in t'.links ==> t'.links[x].state == StateActive))
    && (ev.kind.Delete? ==> x !in t'.links)
  }

  /** The folder whose view an event brings up to date. */
  function Refreshes(s: State, ev: LinkEvent, api: Api): LinkID {
    if ev.kind.Update? && OwnDiff(s, ev.link, api) then ev.link.id else ev.link.parent
  }

  lemma DeleteShows(s: State, t: Tree, t': Tree, ev: LinkEvent, api: Api)
    requires Witnessed(s, t, t', ev, api) && ev.link.id !in t'.links && !ev.kind.Create?
    requires LinkPath(s, ev.link.id) != ""
    ensures var d, path := ev.link.parent, LinkPath(s, ev.link.id);
            Replay(Shown(t, d, LinkPath(s, d)), [DriveEvent(Deleted, ev.link.id, path)]) == Shown(t', d, LinkPath(s, d))
  {
    hide Shown, Replay, IsPathOf, Under, ProperNames, Listed, Relocates;
    var d, path := ev.link.parent, LinkPath(s, ev.link.id);
    GoneShows(t, t', ev.link.id, d, LinkPath(s, d), path);
    ReplayOne(Shown(t, d, LinkPath(s, d)), DriveEvent(Deleted, ev.link.id, path));
  }

  lemma CreateShows(s: State, t: Tree, t': Tree, ev: LinkEvent, api: Api)
    requires Witnessed(s, t, t', ev, api) && ev.kind.Create? && NewName(s, ev.link, api).Some?
    ensures var d, evs := ev.link.parent, Announced(s, ev, api);
            Replay(Shown(t, d, LinkPath(s, d)), evs) == Shown(t', d, LinkPath(s, d))
  {
    hide Shown, Replay, IsPathOf, ProperNames, Listed, ChildPath, NewName;
    var d := ev.link.parent;
    NewNameIsTrue(s, t', ev.link, api);
    AddedShows(t, t', ev.link, LinkPath(s, d));
    ReplayOne(Shown(t, d, LinkPath(s, d)), Announced(s, ev, api)[0]);
  }

  /**
   * For every event: either the file manager is told to look at the folder or
   * the link again, or applying what is announced turns the names it showed
   * into those the folder has now. The folder is the event's parent, except
   * for an update that lists the link itself again.
   */
  lemma {:induction false} EventIsAnnounced(s: State, t: Tree, t': Tree, ev: LinkEvent, api: Api)
    requires Witnessed(s, t, t', ev, api)
    ensures var d, evs := Refreshes(s, ev, api), Announced(s, ev, api);
            || ToldToLook(s, ev, evs)
            || Replay(Shown(t, d, LinkPath(s, d)), evs) == Shown(t', d, LinkPath(s, d))
  {
    hide Shown, Replay, Faithful, ProperNames, Under, Listed, Relocates, ChildPath, NewName, Diffable,
      DiffAnnounced, AfterOwn, AfterName;
    var x, d, evs := ev.link.id, ev.link.parent, Announced(s, ev, api);
    CleanPathShape(s.linkPaths[d]);
    match ev.kind
    case Delete =>
      if LinkPath(s, x) != "" {
        DeleteShows(s, t, t', ev, api);
      } else {
        assert evs[0].kind == Changed;
      }
    case Create =>
      if NewName(s, ev.link, api).Some? {
        CreateShows(s, t, t', ev, api);
      } else if CreateDiff(s, ev.link, api) {
        DiffShows(s, t, t', d, AfterName(s, ev.link), api);
      } else {
        assert evs[0].kind == Changed;
      }
    case Update =>
      if OwnDiff(s, ev.link, api) {
        DiffShows(s, t, t', x, s.calls, api);
      } else if ParentDiff(s, ev.link, api) {
        DiffShows(s, t, t', d, AfterOwn(s, ev.link), api);
      } else if FoundGone(s, ev.link, api) {
        if x in t'.links {
          ListedIsNotGone(s, t', ev, api);
        } else {
          DeleteShows(s, t, t', ev, api);
        }
      } else {
        assert evs[0].kind == Changed;
      }
  }

  lemma NamesAreProper(t: Tree, d: LinkID, ls: seq<Link>, n: string)
    requires IsListing(t, d, ls) && ProperNames(t, d) && n in NamesOf(ls, NodeKey(d))
    ensures IsName(n)
  {
    NamesOfAre(ls, NodeKey(d));
    var l :| l in ls && GetName(l, NodeKey(d)) == Some(n);
    assert t.links[l.id].name == Some(n);
  }

  /** A diff's events are about proper names below the folder. */
  lemma DiffStaysBelow(s: State, t: Tree, t': Tree, d: LinkID, call: nat, api: Api, e: DriveEvent) returns (n: string)
    requires KeysRight(s) && Faithful(api, t') && Diffable(s, d) && api.list(call, d).Ok? && Listed(s, t, d)
    requires ProperNames(t, d) && ProperNames(t', d) && e in DiffAnnounced(s, d, call, api)
    ensures IsName(n) && e.path == ChildPath(LinkPath(s, d), n)
  {
    hide ChildPath;
    var dir, kr := LinkPath(s, d), NodeKey(d);
    var was, cur := s.meta.lists[dir].listing.links, api.list(call, d).value;
    assert IsListing(t', d, cur);
    DiffEventsAre(api, dir, NamesOf(was, kr), NamesOf(cur, kr), e);
    if e.kind == Created {
      n :| About(e, n, NamesOf(cur, kr), NamesOf(was, kr), Created, dir);
      NamesAreProper(t', d, cur, n);
    } else {
      n :| About(e, n, NamesOf(was, kr), NamesOf(cur, kr), Deleted, dir);
      NamesAreProper(t, d, was, n);
    }
  }

  lemma DifferentFolders(c: seq<string>, n: string, d: seq<string>, m: string)
    requires AllNames(c) && AllNames(d) && IsName(n) && IsName(m) && c != d
    ensures ChildPath(Render(c), n) != ChildPath(Render(d), m)
  {
    hide Render, ChildPath;
    ChildPathOfRender(c, n);
    ChildPathOfRender(d, m);
    assert c == (c + [n])[..|c|] && d == (d + [m])[..|d|];
    if Render(c + [n]) == Render(d + [m]) {
      RenderInjective(c + [n], d + [m]);
    }
  }

  /** An update that lists the link itself again says nothing about the folder the link is in. */
  lemma OwnDiffSparesFolder(s: State, t: Tree, t': Tree, ev: LinkEvent, api: Api, e: DriveEvent, n: string)
    requires Witnessed(s, t, t', ev, api) && ev.kind.Update? && OwnDiff(s, ev.link, api)
    requires ev.link.id != ev.link.parent && ProperNames(t, ev.link.id) && ProperNames(t', ev.link.id) && IsName(n)
    ensures e in Announced(s, ev, api) ==> e.path != ChildPath(LinkPath(s, ev.link.parent), n)
  {
    hide ChildPath, Render, SplitPath, Relocates, ProperNames, Under, Listed, DiffAnnounced, Faithful;
    var x, d := ev.link.id, ev.link.parent;
    if e in Announced(s, ev, api) {
      var m := DiffStaysBelow(s, t, t', x, s.calls, api, e);
      CleanPathShape(s.linkPaths[x]);
      CleanPathShape(s.linkPaths[d]);
      var c, b := SplitPath(s.linkPaths[x]), SplitPath(s.linkPaths[d]);
      if c == b {
        TargetUnique(t, c, x, d);
      } else {
        DifferentFolders(c, m, b, n);
      }
    }
  }

  /** Events about other paths do not change what is shown at a path. */
  lemma {:induction false} ReplayElsewhere(shown: set<string>, evs: seq<DriveEvent>, p: string)
    requires forall e | e in evs && e.kind != Changed :: e.path != p
    ensures p in Replay(shown, evs) <==> p in shown
    decreases |evs|
  {
    if evs != [] {
      assert forall e | e in evs[..|evs| - 1] :: e in evs;
      ReplayElsewhere(shown, evs[..|evs| - 1], p);
      assert evs[|evs| - 1] in evs;
    }
  }

  /**
   * So after such an update the view of the folder the link is in is right if
   * and only if the names in that folder did not change.
   */
  lemma OwnDiffViewIff(s: State, t: Tree, t': Tree, ev: LinkEvent, api: Api)
    requires Witnessed(s, t, t', ev, api) && ev.kind.Update? && OwnDiff(s, ev.link, api)
    requires ev.link.id != ev.link.parent && ProperNames(t, ev.link.id) && ProperNames(t', ev.link.id)
    requires ProperNames(t', ev.link.parent)
    ensures var d, dir := ev.link.parent, LinkPath(s, ev.link.parent);
            var view := Replay(Shown(t, d, dir), Announced(s, ev, api));
            (forall n | IsName(n) :: ChildPath(dir, n) in view <==> ChildPath(dir, n) in Shown(t', d, dir))
            <==> Shown(t, d, dir) == Shown(t', d, dir)
  {
    hide Shown, Replay, Announced, ChildPath, Witnessed, OwnDiff;
    var d, dir := ev.link.parent, LinkPath(s, ev.link.parent);
    var view := Replay(Shown(t, d, dir), Announced(s, ev, api));
    forall n | IsName(n)
      ensures ChildPath(dir, n) in view <==> ChildPath(dir, n) in Shown(t, d, dir)
    {
      forall e | e in Announced(s, ev, api)
        ensures e.path != ChildPath(dir, n)
      {
        OwnDiffSparesFolder(s, t, t', ev, api, e, n);
      }
      ReplayElsewhere(Shown(t, d, dir), Announced(s, ev, api), ChildPath(dir, n));
    }
    FolderIsProper(s, t, t', ev, api);
    ShownAreNames(t, d, dir);
    ShownAreNames(t', d, dir);
  }

  lemma FolderIsProper(s: State, t: Tree, t': Tree, ev: LinkEvent, api: Api)
    requires Witnessed(s, t, t', ev, api)
    ensures ProperNames(t, ev.link.parent)
  {
  }

  lemma ShownAreNames(t: Tree, d: LinkID, dir: string)
    requires ProperNames(t, d)
    ensures forall p | p in Shown(t, d, dir) :: exists n :: IsName(n) && p == ChildPath(dir, n)
  {
    hide ChildPath;
    forall p | p in Shown(t, d, dir)
      ensures exists n :: IsName(n) && p == ChildPath(dir, n)
    {
      var y := Showing(t, d, dir, p);
      assert IsName(t.links[y].name.value);
    }
  }
}
