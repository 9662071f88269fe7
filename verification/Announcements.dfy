/**
 * What handling an event tells the file manager, against the tree before and
 * after the change.
 */
module Announcements {
  import opened Outcome
  import opened Paths
  import opened Remote
  import opened Metadata
  import opened Sessions
  import opened Events
  import opened PathCache
  import opened Coherence
  import opened Notifications
  import opened Records

  // ----- what one event queues -----

  /** The events of a diff of folder `d` against the listing that `s` holds. */
  function DiffAnnounced(s: State, d: LinkID, call: nat, api: Api): seq<DriveEvent>
    requires Diffable(s, d) && api.list(call, d).Ok?
  {
    var kr, dir := s.nodeKRs[d], LinkPath(s, d);
    DiffEvents(api, dir, NamesOf(s.meta.lists[dir].listing.links, kr), NamesOf(api.list(call, d).value, kr))
  }

  /** Everything `handle` queues for an event, read off the state before it. */
  function Announced(s: State, ev: LinkEvent, api: Api): seq<DriveEvent> {
    var link, path, parentPath := ev.link, LinkPath(s, ev.link.id), LinkPath(s, ev.link.parent);
    var folderChanged := if parentPath != "" then [DriveEvent(Changed, link.id, parentPath)] else [];
    match ev.kind
    case Delete => if path != "" then [DriveEvent(Deleted, link.id, path)] else folderChanged
    case Create =>
      if NewName(s, link, api).Some?
      then [DriveEvent(Created, link.id, ChildPath(parentPath, NewName(s, link, api).value))]
      else if CreateDiff(s, link, api) then DiffAnnounced(s, link.parent, AfterName(s, link), api)
      else folderChanged
    case Update =>
      if OwnDiff(s, link, api) then DiffAnnounced(s, link.id, s.calls, api)
      else if ParentDiff(s, link, api) then DiffAnnounced(s, link.parent, AfterOwn(s, link), api)
      else if FoundGone(s, link, api) then [DriveEvent(Deleted, link.id, path)]
      else if path != "" then [DriveEvent(Changed, link.id, path)]
      else folderChanged
  }

  lemma EnqueueOne(q: seq<DriveEvent>, ev: DriveEvent)
    ensures EnqueueAll(q, [ev]) == Enqueue(q, ev)
  {
    assert [ev][..0] == [];
  }

  lemma DiffQueue(s: State, ps: PollerState, d: LinkID, call: nat, api: Api, now: nat)
    requires Diffable(s, d) && api.list(call, d).Ok?
    ensures DiffOf(s, ps, d, call, api, now).queue == EnqueueAll(ps.queue, DiffAnnounced(s, d, call, api))
  {
  }

  lemma {:induction false} HandledQueue(ps: PollerState, ev: LinkEvent, api: Api, now: nat)
    ensures Handled(ps, ev, api, now).queue == EnqueueAll(ps.queue, Announced(ps.session, ev, api))
  {
    hide DiffOf, DiffAnnounced, Diffable, ChildPath, NewName, HandleCreate, HandleUpdate, InvalidatePath,
      InvalidateLink, Enqueue;
    var s, link := ps.session, ev.link;
    forall e {:trigger Enqueue(ps.queue, e)}
      ensures EnqueueAll(ps.queue, [e]) == Enqueue(ps.queue, e)
    {
      EnqueueOne(ps.queue, e);
    }
    match ev.kind
    case Delete =>
    case Create =>
      CreateBranches(ps, link, api, now);
      if CreateDiff(s, link, api) {
        DiffQueue(s, ps.(session := CreateStart(s, link, api)), link.parent, AfterName(s, link), api, now);
      }
    case Update =>
      UpdateBranches(ps, link, api, now);
      var ps1 := UpdateStart(ps, link, api);
      if OwnDiff(s, link, api) {
        DiffQueue(s, ps1, link.id, s.calls, api, now);
      } else if ParentDiff(s, link, api) {
        DiffQueue(s, ps1, link.parent, AfterOwn(s, link), api, now);
      }
  }

  // ----- names in a folder -----

  ghost predicate Orders(api: Api) {
    forall s: set<string> :: Enumerates(api.order(s), s)
  }

  /** The listing cached at the recorded path of `d`, if there is one, is that of the tree. */
  ghost predicate Listed(s: State, t: Tree, d: LinkID) {
    LinkPath(s, d) in s.meta.lists ==> IsListing(t, d, s.meta.lists[LinkPath(s, d)].listing.links)
  }

  lemma {:induction false} NamesOfUnique(ls: seq<Link>, kr: KeyRing, l: Link, n: string)
    requires l in ls && GetName(l, kr) == Some(n)
    requires forall m | m in ls && GetName(m, kr) == Some(n) :: m == l
    ensures n in NamesOf(ls, kr) && NamesOf(ls, kr)[n] == l.id
    decreases |ls|
  {
    var front, last := ls[..|ls| - 1], ls[|ls| - 1];
    assert ls == front + [last];
    if l in front {
      NamesOfUnique(front, kr, l, n);
    }
  }

  lemma NameOfListed(t: Tree, d: LinkID, ls: seq<Link>, x: LinkID)
    requires WellFormed(t) && IsListing(t, d, ls)
    requires x in t.links && t.links[x].parent == d && t.links[x].name.Some?
    ensures var n := t.links[x].name.value;
            n in NamesOf(ls, NodeKey(d)) && NamesOf(ls, NodeKey(d))[n] == x
  {
    var l := t.links[x];
    forall m | m in ls && GetName(m, NodeKey(d)) == Some(l.name.value)
      ensures m == l
    {
      assert SameSlot(t.links[m.id], t.links[x]);
    }
    NamesOfUnique(ls, NodeKey(d), l, l.name.value);
  }

  lemma {:induction false} NamedAreListed(ls: seq<Link>, kr: KeyRing, n: string)
    requires n in NamesOf(ls, kr)
    ensures exists l :: l in ls && l.id == NamesOf(ls, kr)[n] && GetName(l, kr) == Some(n)
    decreases |ls|
  {
    var front, last := ls[..|ls| - 1], ls[|ls| - 1];
    assert ls == front + [last];
    if GetName(last, kr) != Some(n) {
      NamedAreListed(front, kr, n);
    }
  }

  /** The names a listing of the tree gives a folder's children. */
  lemma NamesAreChildren(t: Tree, d: LinkID, ls: seq<Link>, n: string, x: LinkID)
    requires WellFormed(t) && IsListing(t, d, ls)
    ensures Lookup(NamesOf(ls, NodeKey(d)), n) == Some(x) <==> IsChild(t, d, n, x)
  {
    if IsChild(t, d, n, x) {
      NameOfListed(t, d, ls, x);
    } else if n in NamesOf(ls, NodeKey(d)) {
      NamedAreListed(ls, NodeKey(d), n);
    }
  }

  /** Who a diff's events are about. */
  lemma DiffEventsAre(api: Api, dir: string, was: map<string, LinkID>, cur: map<string, LinkID>, e: DriveEvent)
    requires e in DiffEvents(api, dir, was, cur)
    ensures e.kind == Created ==> exists n :: About(e, n, cur, was, Created, dir)
    ensures e.kind == Deleted ==> exists n :: About(e, n, was, cur, Deleted, dir)
    ensures e.kind != Changed
  {
    hide About;
    DifferencesAre(api.order(cur.Keys), cur, was, Created, dir);
    DifferencesAre(api.order(was.Keys), was, cur, Deleted, dir);
  }

  /** The names in the listing cached for a folder, old as it may be. */
  function CachedNames(s: State, d: LinkID): map<string, LinkID> {
    var dir := LinkPath(s, d);
    if dir in s.meta.lists then NamesOf(s.meta.lists[dir].listing.links, NodeKey(d)) else map[]
  }

  /** The cached listing has the link under the name `a`, which no child of the folder has now. */
  ghost predicate Left(s: State, t: Tree, d: LinkID, a: string, x: LinkID) {
    Lookup(CachedNames(s, d), a) == Some(x) && ChildNamed(t, d, a).None?
  }

  /** The link has the name `n` now, which the cached listing gives to no link. */
  ghost predicate Arrived(s: State, t: Tree, d: LinkID, n: string, x: LinkID) {
    IsChild(t, d, n, x) && n !in CachedNames(s, d)
  }

  /** What a diff of folder `d` announces: exactly who arrived and who left since the cached listing. */
  lemma {:induction false} DiffAnnouncedIff(s: State, t: Tree, d: LinkID, call: nat, api: Api, e: DriveEvent)
    requires WellFormed(t) && KeysRight(s) && Faithful(api, t) && Orders(api) && Diffable(s, d) && api.list(call, d).Ok?
    ensures e in DiffAnnounced(s, d, call, api)
       <==> exists n :: e.path == ChildPath(LinkPath(s, d), n)
              && (if e.kind == Created then Arrived(s, t, d, n, e.linkID)
                  else e.kind == Deleted && Left(s, t, d, n, e.linkID))
  {
    hide ChildPath, Differences, NamesOf;
    var dir, kr := LinkPath(s, d), NodeKey(d);
    var was, ls := CachedNames(s, d), api.list(call, d).value;
    var cur := NamesOf(ls, kr);
    assert IsListing(t, d, ls);
    assert Enumerates(api.order(cur.Keys), cur.Keys) && Enumerates(api.order(was.Keys), was.Keys);
    DifferencesAre(api.order(cur.Keys), cur, was, Created, dir);
    DifferencesAre(api.order(was.Keys), was, cur, Deleted, dir);
    forall n, x
      ensures Lookup(cur, n) == Some(x) <==> IsChild(t, d, n, x)
    {
      NamesAreChildren(t, d, ls, n, x);
    }
    forall n
      ensures n in cur <==> ChildNamed(t, d, n).Some?
    {
      assert n in cur ==> IsChild(t, d, n, cur[n]);
    }
    if e in DiffAnnounced(s, d, call, api) {
      DiffEventsAre(api, dir, was, cur, e);
    }
  }

  /**
   * A creation under a folder whose path and keyring are known is announced at
   * the new link's true path, which the reverse map then holds, whether the
   * event carries the name or the helper has to ask for it.
   */
  lemma CreationIsAnnounced(ps: PollerState, t: Tree, t': Tree, ev: LinkEvent, api: Api, now: nat)
    requires WellFormed(t) && Changes(t, t', ev) && ev.kind.Create? && Faithful(api, t') && KeysRight(ps.session)
    requires ev.link.parent in ps.session.nodeKRs && ev.link.parent in ps.session.linkPaths
    requires IsPathOf(t, ps.session.linkPaths[ev.link.parent], ev.link.parent)
    requires t'.links[ev.link.id].name.Some? && IsName(t'.links[ev.link.id].name.value)
    requires ev.link.name.Some? || forall k :: api.getLink(k, ev.link.id).Ok?
    ensures var ps' := Handled(ps, ev, api, now);
            var p := LinkPath(ps'.session, ev.link.id);
            Announced(ps.session, ev, api) == [DriveEvent(Created, ev.link.id, p)] && IsPathOf(t', p, ev.link.id)
  {
    NewPathIsTrue(t, t', ev, ps.session.linkPaths[ev.link.parent]);
    CreatedNameIsTrue(CreateStart(ps.session, ev.link, api), t', ev.link, api);
  }

  lemma NewPathIsTrue(t: Tree, t': Tree, ev: LinkEvent, dir: string)
    requires WellFormed(t) && Changes(t, t', ev) && ev.kind.Create? && IsPathOf(t, dir, ev.link.parent)
    requires t'.links[ev.link.id].name.Some? && IsName(t'.links[ev.link.id].name.value)
    ensures dir != "" && IsPathOf(t', ChildPath(dir, t'.links[ev.link.id].name.value), ev.link.id)
  {
    var n, c := t'.links[ev.link.id].name.value, SplitPath(dir);
    CleanPathShape(dir);
    ReachesAfterAdd(t, t', ev.link, c, ev.link.parent);
    ReachesSnoc(t', c, n, ev.link.id);
    ChildPathOfRender(c, n);
    RenderInverse(c + [n]);
  }

  lemma CreatedNameIsTrue(s: State, t: Tree, link: Link, api: Api)
    requires Faithful(api, t) && link.id in t.links && t.links[link.id].parent == link.parent
    requires link.name.Some? ==> t.links[link.id].name == link.name
    requires link.name.Some? || forall k :: api.getLink(k, link.id).Ok?
    ensures CreatedName(s, link, NodeKey(link.parent), api).1 == t.links[link.id].name
  {
    if link.name.None? {
      assert api.getLink(s.calls, link.id).Ok?;
    }
  }

  // ----- where a changed link was and is -----

  /** A link's folder does not lie under the link. */
  lemma ParentNotUnder(t: Tree, x: LinkID)
    requires WellFormed(t) && x in t.links
    ensures !Under(t, x, t.links[x].parent)
  {
    var d := t.links[x].parent;
    if Under(t, x, d) {
      var c :| Reaches(t, c, d) && Passes(t, c, x);
      var k :| 0 <= k <= |c| && Reaches(t, c[..k], x);
      assert c[..k][..k - 1] == c[..k - 1];
      PathUnique(t, c, c[..k - 1], d);
      assert false;
    }
  }

  lemma UnderByParent(t: Tree, x: LinkID, y: LinkID)
    requires WellFormed(t) && y in t.links && y != x && Under(t, x, y)
    ensures Under(t, x, t.links[y].parent)
  {
    var c :| Reaches(t, c, y) && Passes(t, c, x);
    var k :| 0 <= k <= |c| && Reaches(t, c[..k], x);
    if k == |c| {
      assert c[..k] == c;
      TargetUnique(t, c, x, y);
      assert false;
    }
    var front := c[..|c| - 1];
    assert front[..k] == c[..k];
    assert Passes(t, front, x);
  }

  /** The other links of a folder that does not lie under the changed link stay where they are. */
  lemma SiblingStays(t: Tree, t': Tree, x: LinkID, y: LinkID)
    requires WellFormed(t) && Relocates(t, t', x) && y in t.links && y != x && !Under(t, x, t.links[y].parent)
    ensures y in t'.links && SamePlace(t.links[y], t'.links[y])
  {
    if y !in t'.links {
      UnderByParent(t, x, y);
    }
  }

  /** The name a link arrives at was free. */
  lemma NameWasFree(t: Tree, t': Tree, x: LinkID, d: LinkID, n: string)
    requires WellFormed(t) && WellFormed(t') && Relocates(t, t', x) && !Under(t, x, d)
    requires IsChild(t', d, n, x) && !IsChild(t, d, n, x)
    ensures ChildNamed(t, d, n).None?
  {
    var y := ChildNamed(t, d, n);
    if y.Some? {
      SiblingStays(t, t', x, y.value);
      assert SameSlot(t'.links[x], t'.links[y.value]);
    }
  }

  /** The name a link leaves is free afterwards. */
  lemma NameIsFree(t: Tree, t': Tree, x: LinkID, d: LinkID, n: string)
    requires WellFormed(t) && WellFormed(t') && Relocates(t, t', x)
    requires IsChild(t, d, n, x) && !IsChild(t', d, n, x)
    ensures ChildNamed(t', d, n).None?
  {
    var y := ChildNamed(t', d, n);
    assert y.Some? ==> SamePlace(t.links[y.value], t'.links[y.value]);
    assert y.Some? ==> SameSlot(t.links[x], t.links[y.value]);
  }

  /** An update of link `x`, whose folder now is `d`; cached listings of both are those of the tree before. */
  ghost predicate Updates(s: State, t: Tree, t': Tree, ev: LinkEvent, api: Api) {
    && WellFormed(t) && ev.kind.Update? && Changes(t, t', ev)
    && KeysRight(s) && Faithful(api, t') && Orders(api)
    && Listed(s, t, ev.link.id) && Listed(s, t, ev.link.parent)
    && ev.link.parent != ev.link.id
  }

  /** An update handled when the tree is `t`, however much later than the change. */
  ghost predicate Current(s: State, t: Tree, ev: LinkEvent, api: Api) {
    && WellFormed(t) && ev.kind.Update? && ev.link.parent != ev.link.id
    && KeysRight(s) && Faithful(api, t) && Orders(api)
  }

  /**
   * Where a link is now, by rename, move or restore, is announced if and only if
   * the link's own folder listing is not fetched again, that of its folder is,
   * and the listing cached before does not have the name.
   */
  lemma ArrivalAnnouncedIff(s: State, t: Tree, ev: LinkEvent, api: Api, n: string)
    requires Current(s, t, ev, api) && IsChild(t, ev.link.parent, n, ev.link.id)
    ensures DriveEvent(Created, ev.link.id, ChildPath(LinkPath(s, ev.link.parent), n)) in Announced(s, ev, api)
       <==> !OwnDiff(s, ev.link, api) && ParentDiff(s, ev.link, api) && n !in CachedNames(s, ev.link.parent)
  {
    hide DiffAnnounced, Diffable, ChildPath, FoundGone, CachedNames, AfterOwn, Faithful, WellFormed, Orders;
    var x, d := ev.link.id, ev.link.parent;
    var e := DriveEvent(Created, x, ChildPath(LinkPath(s, d), n));
    if OwnDiff(s, ev.link, api) {
      OwnDiffNeeds(s, ev.link, api);
      DiffAnnouncedIff(s, t, x, s.calls, api, e);
    } else if ParentDiff(s, ev.link, api) {
      ParentDiffNeeds(s, ev.link, api);
      DiffAnnouncedIff(s, t, d, AfterOwn(s, ev.link), api, e);
      forall m | ChildPath(LinkPath(s, d), m) == e.path
        ensures m == n
      {
        ChildPathInjective(LinkPath(s, d), m, n);
      }
    }
  }

  /**
   * That a link has gone from a path is announced if and only if its own
   * listing is not fetched again, and either its folder's is and the path is
   * that of a name the cached listing has for it and no child has now, or the
   * server, asked, says it is in the trash and the path is the recorded one.
   */
  lemma DepartureAnnouncedIff(s: State, t: Tree, ev: LinkEvent, api: Api, p: string)
    requires Current(s, t, ev, api) && ev.link.id !in CachedNames(s, ev.link.id).Values
    ensures var x, d := ev.link.id, ev.link.parent;
            DriveEvent(Deleted, x, p) in Announced(s, ev, api)
            <==> !OwnDiff(s, ev.link, api)
                 && if ParentDiff(s, ev.link, api)
                    then exists a :: p == ChildPath(LinkPath(s, d), a) && Left(s, t, d, a, x)
                    else FoundGone(s, ev.link, api) && p == LinkPath(s, x)
  {
    hide DiffAnnounced, Diffable, ChildPath, FoundGone, CachedNames, AfterOwn, Faithful, WellFormed, Orders;
    var x, d := ev.link.id, ev.link.parent;
    var e := DriveEvent(Deleted, x, p);
    if OwnDiff(s, ev.link, api) {
      OwnDiffNeeds(s, ev.link, api);
      DiffAnnouncedIff(s, t, x, s.calls, api, e);
      NotAmongValues(CachedNames(s, x), x);
    } else if ParentDiff(s, ev.link, api) {
      ParentDiffNeeds(s, ev.link, api);
      DiffAnnouncedIff(s, t, d, AfterOwn(s, ev.link), api, e);
    }
  }

  lemma NotAmongValues(m: map<string, LinkID>, x: LinkID)
    requires x !in m.Values
    ensures forall a :: Lookup(m, a) != Some(x)
  {
  }

  lemma OwnDiffNeeds(s: State, link: Link, api: Api)
    requires OwnDiff(s, link, api)
    ensures Diffable(s, link.id) && api.list(s.calls, link.id).Ok?
  {
  }

  lemma ParentDiffNeeds(s: State, link: Link, api: Api)
    requires ParentDiff(s, link, api)
    ensures Diffable(s, link.parent) && api.list(AfterOwn(s, link), link.parent).Ok?
  {
  }

  /** What the cached listing names, if it is that of the tree before. */
  lemma ListedNames(s: State, t: Tree, d: LinkID, n: string, x: LinkID)
    requires WellFormed(t) && Listed(s, t, d)
    ensures Lookup(CachedNames(s, d), n) == Some(x) ==> IsChild(t, d, n, x)
    ensures LinkPath(s, d) in s.meta.lists && IsChild(t, d, n, x) ==> Lookup(CachedNames(s, d), n) == Some(x)
  {
    if LinkPath(s, d) in s.meta.lists {
      NamesAreChildren(t, d, s.meta.lists[LinkPath(s, d)].listing.links, n, x);
    }
  }

  /** A link that is not its own child is not in its own cached listing. */
  lemma NotInItself(s: State, t: Tree, x: LinkID)
    requires WellFormed(t) && Listed(s, t, x) && (x in t.links ==> t.links[x].parent != x)
    ensures x !in CachedNames(s, x).Values
  {
    if x in CachedNames(s, x).Values {
      var n :| n in CachedNames(s, x) && CachedNames(s, x)[n] == x;
      ListedNames(s, t, x, n, x);
    }
  }

  /** What is listed as active is not found in the trash. */
  lemma ListedIsNotGone(s: State, t: Tree, ev: LinkEvent, api: Api)
    requires Faithful(api, t) && ev.link.id in t.links && t.links[ev.link.id].state == StateActive
    ensures !FoundGone(s, ev.link, api)
  {
  }

  /**
   * Seen against the listing of the tree before: a rename is announced, as the
   * new name there and the old one gone, if and only if the renamed link is not
   * itself a listed folder whose listing is fetched again, and its folder is one.
   */
  lemma RenameAnnouncedIff(s: State, t: Tree, t': Tree, ev: LinkEvent, api: Api, a: string, b: string)
    requires Updates(s, t, t', ev, api) && a != b
    requires IsChild(t, ev.link.parent, a, ev.link.id) && IsChild(t', ev.link.parent, b, ev.link.id)
    requires t'.links[ev.link.id].state == StateActive
    ensures var announced, dir := Announced(s, ev, api), LinkPath(s, ev.link.parent);
            var listed := !OwnDiff(s, ev.link, api) && ParentDiff(s, ev.link, api);
            && (DriveEvent(Created, ev.link.id, ChildPath(dir, b)) in announced <==> listed)
            && (DriveEvent(Deleted, ev.link.id, ChildPath(dir, a)) in announced <==> listed)
  {
    hide Announced, Relocates, ChildPath, FoundGone, Faithful, Listed, CachedNames, OwnDiff, AfterOwn, Orders;
    var x, d := ev.link.id, ev.link.parent;
    ParentNotUnder(t, x);
    ArrivalAnnouncedIff(s, t', ev, api, b);
    ListedIsNotGone(s, t', ev, api);
    NotInItself(s, t, x);
    DepartureAnnouncedIff(s, t', ev, api, ChildPath(LinkPath(s, d), a));
    NameWasFree(t, t', x, d, b);
    NotCached(s, t, d, b);
    if ParentDiff(s, ev.link, api) {
      NameIsFree(t, t', x, d, a);
      ListedNames(s, t, d, a, x);
      assert Left(s, t', d, a, x);
    }
  }

  lemma NotCached(s: State, t: Tree, d: LinkID, n: string)
    requires WellFormed(t) && Listed(s, t, d) && ChildNamed(t, d, n).None?
    ensures n !in CachedNames(s, d)
  {
    if n in CachedNames(s, d) {
      ListedNames(s, t, d, n, CachedNames(s, d)[n]);
    }
  }

  /**
   * A move to another folder is announced there under the same condition; that
   * the link has left its old place is never announced.
   */
  lemma MoveAnnouncedIff(s: State, t: Tree, t': Tree, ev: LinkEvent, api: Api, d: LinkID, a: string, b: string)
    requires Updates(s, t, t', ev, api) && d != ev.link.parent && d != ev.link.id
    requires !Under(t, ev.link.id, ev.link.parent)
    requires IsChild(t, d, a, ev.link.id) && IsChild(t', ev.link.parent, b, ev.link.id)
    requires t'.links[ev.link.id].state == StateActive
    ensures DriveEvent(Created, ev.link.id, ChildPath(LinkPath(s, ev.link.parent), b)) in Announced(s, ev, api)
       <==> !OwnDiff(s, ev.link, api) && ParentDiff(s, ev.link, api)
    ensures forall p :: DriveEvent(Deleted, ev.link.id, p) !in Announced(s, ev, api)
  {
    hide Announced, Relocates, ChildPath, FoundGone, Faithful, Listed, CachedNames, OwnDiff, ParentDiff, Orders;
    var x, d' := ev.link.id, ev.link.parent;
    ArrivalAnnouncedIff(s, t', ev, api, b);
    ListedIsNotGone(s, t', ev, api);
    NotInItself(s, t, x);
    NameWasFree(t, t', x, d', b);
    NotCached(s, t, d', b);
    forall p
      ensures DriveEvent(Deleted, x, p) !in Announced(s, ev, api)
    {
      DepartureAnnouncedIff(s, t', ev, api, p);
      forall m
        ensures !Left(s, t', d', m, x)
      {
        ListedNames(s, t, d', m, x);
      }
    }
  }

  /**
   * Trashing, seen against the listing of the tree before, is announced if and
   * only if the link's own listing is not fetched again, and either its folder's
   * is or the server, asked, says where it went. Only in the last case is the
   * recorded path forgotten.
   */
  lemma TrashingAnnouncedIff(ps: PollerState, t: Tree, t': Tree, ev: LinkEvent, api: Api, now: nat, a: string)
    requires Updates(ps.session, t, t', ev, api)
    requires IsChild(t, ev.link.parent, a, ev.link.id) && ev.link.id !in t'.links
    ensures var s, link := ps.session, ev.link;
            var own, listed, gone := OwnDiff(s, link, api), ParentDiff(s, link, api), FoundGone(s, link, api);
            && ((exists p :: DriveEvent(Deleted, link.id, p) in Announced(s, ev, api)) <==> !own && (listed || gone))
            && (link.id in Handled(ps, ev, api, now).session.linkPaths
                <==> link.id in s.linkPaths && (own || listed || !gone))
  {
    hide Announced, Relocates, ChildPath, Handled, AfterOwn, AfterBoth, Orders, Listed, CachedNames, OwnDiff, FoundGone;
    var s, x, d := ps.session, ev.link.id, ev.link.parent;
    EventRecords(ps, ev, api, t', now);
    NotInItself(s, t, x);
    forall p
      ensures DriveEvent(Deleted, x, p) in Announced(s, ev, api) ==>
        !OwnDiff(s, ev.link, api) && (ParentDiff(s, ev.link, api) || FoundGone(s, ev.link, api))
    {
      DepartureAnnouncedIff(s, t', ev, api, p);
    }
    DepartureAnnouncedIff(s, t', ev, api, ChildPath(LinkPath(s, d), a));
    DepartureAnnouncedIff(s, t', ev, api, LinkPath(s, x));
    if ParentDiff(s, ev.link, api) {
      NameIsFree(t, t', x, d, a);
      ListedNames(s, t, d, a, x);
      assert Left(s, t', d, a, x);
    }
  }

  // ----- the silent case -----

  lemma {:induction false} NoDifferences(keys: seq<string>, names: map<string, LinkID>, others: map<string, LinkID>,
      kind: EventType, dir: string)
    requires forall n | n in names :: n in others
    ensures Differences(keys, names, others, kind, dir) == []
    decreases |keys|
  {
    if keys != [] {
      NoDifferences(keys[..|keys| - 1], names, others, kind, dir);
    }
  }

  /** A folder whose own children did not change keeps its names. */
  lemma SameNames(t: Tree, t': Tree, x: LinkID, was: seq<Link>, cur: seq<Link>)
    requires WellFormed(t) && WellFormed(t') && Relocates(t, t', x) && IsListing(t, x, was) && IsListing(t', x, cur)
    requires forall y | y in t.links && t.links[y].parent == x :: y != x && y in t'.links
    requires x in t'.links ==> t'.links[x].parent != x
    ensures NamesOf(was, NodeKey(x)).Keys == NamesOf(cur, NodeKey(x)).Keys
  {
    NamesOfAre(was, NodeKey(x));
    NamesOfAre(cur, NodeKey(x));
    forall n
      ensures n in NamesOf(was, NodeKey(x)) <==> n in NamesOf(cur, NodeKey(x))
    {
      if n in NamesOf(was, NodeKey(x)) {
        var l :| l in was && GetName(l, NodeKey(x)) == Some(n);
        assert t'.links[l.id] in cur;
      }
      if n in NamesOf(cur, NodeKey(x)) {
        var l :| l in cur && GetName(l, NodeKey(x)) == Some(n);
        assert t.links[l.id] in was;
      }
    }
  }

  /**
   * If a folder that has been listed is itself renamed or moved, and its
   * listing is fetched again, nothing at all is announced; the recorded path
   * stays the old one, and `ListChildren` goes on serving the folder there.
   */
  lemma RenamedListedFolderIsSilent(ps: PollerState, t: Tree, t': Tree, ev: LinkEvent, api: Api, now: nat, api': Api,
      later: nat)
    requires Updates(ps.session, t, t', ev, api) && OwnDiff(ps.session, ev.link, api)
    requires forall y | y in t.links && t.links[y].parent == ev.link.id :: y != ev.link.id && y in t'.links
    requires ev.link.id in t'.links ==> t'.links[ev.link.id].parent != ev.link.id
    requires now <= later < now + ps.session.meta.ttl
    ensures var s, s' := ps.session, Handled(ps, ev, api, now).session;
            var path := LinkPath(s, ev.link.id);
            && Handled(ps, ev, api, now).queue == ps.queue
            && LinkPath(s', ev.link.id) == path
            && List(s', api', path, later)
               == (s', Ok((Listing(api.list(s.calls, ev.link.id).value, Fetch(s.calls, now)), NodeKey(ev.link.id))))
  {
    hide Announced, Relocates, UpdateStart;
    var s, x := ps.session, ev.link.id;
    UpdateBranches(ps, ev.link, api, now);
    StartKeepsKeys(ps, ev.link, api);
    StartKeepsTtl(ps, ev.link, api);
    EventRecords(ps, ev, api, t', now);
    NothingAnnounced(s, t, t', ev, api);
    HandledQueue(ps, ev, api, now);
  }

  lemma StartKeepsTtl(ps: PollerState, link: Link, api: Api)
    ensures UpdateStart(ps, link, api).session.meta.ttl == ps.session.meta.ttl
  {
    InvalidatedKeepsTtl(ps.session, link, api);
  }

  lemma InvalidatedKeepsTtl(s: State, link: Link, api: Api)
    ensures Invalidated(s, link, api).meta.ttl == s.meta.ttl
  {
    var path, parentPath := LinkPath(s, link.id), LinkPath(s, link.parent);
    var s1 := InvalidatePath(s, path);
    var s2 := if parentPath != "" && parentPath != path then InvalidatePath(s1, parentPath) else s1;
    DropLinkKeepsTtl(s2.meta, link.parent, api.order(s2.meta.stats.Keys));
  }

  lemma {:induction false} DropLinkKeepsTtl(m: Meta, id: LinkID, keys: seq<string>)
    ensures DropLink(m, id, keys).ttl == m.ttl
  {
    if keys != [] {
      DropLinkKeepsTtl(m, id, keys[1..]);
    }
  }

  lemma NothingAnnounced(s: State, t: Tree, t': Tree, ev: LinkEvent, api: Api)
    requires Updates(s, t, t', ev, api) && OwnDiff(s, ev.link, api)
    requires forall y | y in t.links && t.links[y].parent == ev.link.id :: y != ev.link.id && y in t'.links
    requires ev.link.id in t'.links ==> t'.links[ev.link.id].parent != ev.link.id
    ensures Announced(s, ev, api) == []
  {
    var x, dir, kr := ev.link.id, LinkPath(s, ev.link.id), NodeKey(ev.link.id);
    var was, cur := s.meta.lists[dir].listing.links, api.list(s.calls, x).value;
    assert IsListing(t', x, cur);
    SameNames(t, t', x, was, cur);
    NoDifferences(api.order(NamesOf(cur, kr).Keys), NamesOf(cur, kr), NamesOf(was, kr), Created, dir);
    NoDifferences(api.order(NamesOf(was, kr).Keys), NamesOf(was, kr), NamesOf(cur, kr), Deleted, dir);
  }
}
