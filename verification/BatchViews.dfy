/**
 * The file manager over a whole batch, handled however late: whenever the
 * helper has a listing of a folder, the file manager that applied what was
 * announced shows exactly the names in it.
 */
module BatchViews {
  import opened Outcome
  import opened Paths
  import opened Remote
  import opened Metadata
  import opened Sessions
  import opened Events
  import opened PathCache
  import opened Notifications
  import opened Records
  import opened Announcements
  import opened Batches
  import opened Views
  import Freshness

  // ----- what a batch announces -----

  ghost function AnnouncedAll(s: State, t: Tree, events: seq<LinkEvent>, api: Api, now: nat): seq<DriveEvent>
    decreases |events|
  {
    if events == [] then []
    else
      var front := events[..|events| - 1];
      AnnouncedAll(s, t, front, api, now) + Announced(ForeseenAll(s, t, front, api, now), events[|events| - 1], api)
  }

  lemma {:induction false} BatchQueue(ps: PollerState, t: Tree, events: seq<LinkEvent>, api: Api, now: nat)
    requires WellFormed(t) && Faithful(api, t) && KeysRight(ps.session)
    ensures HandledAll(ps, events, api, now).queue
         == EnqueueAll(ps.queue, AnnouncedAll(ps.session, t, events, api, now))
    decreases |events|
  {
    hide Handled, Announced, Faithful, WellFormed, ForeseenAll;
    if events != [] {
      var front := events[..|events| - 1];
      BatchQueue(ps, t, front, api, now);
      BatchLeaves(ps, t, front, api, now);
      HandledQueue(HandledAll(ps, front, api, now), events[|events| - 1], api, now);
      EnqueueAllConcat(ps.queue, AnnouncedAll(ps.session, t, front, api, now),
                       Announced(ForeseenAll(ps.session, t, front, api, now), events[|events| - 1], api));
    }
  }

  lemma {:induction false} ReplayConcat(shown: set<string>, a: seq<DriveEvent>, b: seq<DriveEvent>)
    ensures Replay(shown, a + b) == Replay(Replay(shown, a), b)
    decreases |b|
  {
    if b == [] {
      assert a + b == a;
    } else {
      ReplayConcat(shown, a, b[..|b| - 1]);
      assert (a + b)[..|a + b| - 1] == a + b[..|b| - 1];
    }
  }

  /** What is shown at a path depends only on what was shown there. */
  lemma {:induction false} ReplayIsLocal(a: set<string>, b: set<string>, evs: seq<DriveEvent>, p: string)
    requires p in a <==> p in b
    ensures p in Replay(a, evs) <==> p in Replay(b, evs)
    decreases |evs|
  {
    if evs != [] {
      ReplayIsLocal(a, b, evs[..|evs| - 1], p);
    }
  }

  // ----- the listing and the view -----

  /** If the folder at `dir` has a cached listing, the view shows its names and no others. */
  ghost predicate InStep(m: Meta, dir: string, shown: set<string>) {
    dir in m.lists ==>
      forall n | IsName(n) ::
        ChildPath(dir, n) in shown <==> n in NamesOf(m.lists[dir].listing.links, m.lists[dir].parentKR)
  }

  ghost predicate ProperLinks(ls: seq<Link>) {
    forall l | l in ls && l.name.Some? :: IsName(l.name.value)
  }

  /** Recorded paths are clean, listed names are proper path components. */
  ghost predicate Tidy(s: State) {
    && (forall y | y in s.linkPaths :: IsClean(s.linkPaths[y]))
    && (forall p | p in s.meta.lists :: ProperLinks(s.meta.lists[p].listing.links))
  }

  /** All names the server gives are proper path components. */
  ghost predicate ProperServer(t: Tree, api: Api) {
    && (forall y | y in t.links && t.links[y].name.Some? :: IsName(t.links[y].name.value))
    && (forall k, id :: api.getLink(k, id).Ok? && api.getLink(k, id).value.name.Some? ==>
          IsName(api.getLink(k, id).value.name.value))
  }

  predicate ProperEvent(ev: LinkEvent) {
    ev.link.name.Some? ==> IsName(ev.link.name.value)
  }

  /** The listing that an event compares with is one of the folder it lists again. */
  predicate ComparesOwn(s: State, ev: LinkEvent, api: Api) {
    match Relisted(s, ev, api)
    case None => true
    case Some((d, _)) => s.meta.lists[LinkPath(s, d)].parentKR == NodeKey(d)
  }

  lemma NamesAreIn(ls: seq<Link>, kr: KeyRing, n: string)
    requires ProperLinks(ls) && n in NamesOf(ls, kr)
    ensures IsName(n)
  {
    NamesOfAre(ls, kr);
  }

  lemma ListingIsProper(t: Tree, api: Api, call: nat, d: LinkID)
    requires Faithful(api, t) && ProperServer(t, api) && api.list(call, d).Ok?
    ensures ProperLinks(api.list(call, d).value)
  {
    var ls := api.list(call, d).value;
    assert IsListing(t, d, ls);
    forall l | l in ls && l.name.Some?
      ensures IsName(l.name.value)
    {
      assert t.links[l.id] == l;
    }
  }

  /** A diff brings the view of its folder into step with the new listing. */
  lemma DiffInStep(s: State, t: Tree, d: LinkID, call: nat, api: Api, shown: set<string>, n: string)
    requires KeysRight(s) && Orders(api) && Diffable(s, d) && api.list(call, d).Ok? && IsName(n)
    requires InStep(s.meta, LinkPath(s, d), shown) && s.meta.lists[LinkPath(s, d)].parentKR == NodeKey(d)
    ensures ChildPath(LinkPath(s, d), n) in Replay(shown, DiffAnnounced(s, d, call, api))
       <==> n in NamesOf(api.list(call, d).value, NodeKey(d))
  {
    hide Replay, ChildPath, NamesOf, DiffEvents;
    var dir, kr := LinkPath(s, d), NodeKey(d);
    var was, cur := NamesOf(s.meta.lists[dir].listing.links, kr), NamesOf(api.list(call, d).value, kr);
    var evs := DiffAnnounced(s, d, call, api);
    DiffReplays(api, dir, was, cur, evs);
    PathAmong(dir, was, n);
    PathAmong(dir, cur, n);
    ReplayIsLocal(shown, PathsOf(dir, was), evs, ChildPath(dir, n));
  }

  lemma PathAmong(dir: string, names: map<string, LinkID>, n: string)
    ensures ChildPath(dir, n) in PathsOf(dir, names) <==> n in names
  {
    hide ChildPath;
    if ChildPath(dir, n) in PathsOf(dir, names) {
      var m :| m in names && ChildPath(dir, n) == ChildPath(dir, m);
      ChildPathInjective(dir, n, m);
    }
  }

  /** A diff of another folder leaves the view of this one alone. */
  lemma DiffElsewhere(s: State, t: Tree, d: LinkID, call: nat, api: Api, dir: string, n: string, e: DriveEvent)
    requires KeysRight(s) && Faithful(api, t) && ProperServer(t, api) && Tidy(s)
    requires Diffable(s, d) && api.list(call, d).Ok? && IsClean(dir) && LinkPath(s, d) != dir && IsName(n)
    requires e in DiffAnnounced(s, d, call, api)
    ensures e.path != ChildPath(dir, n)
  {
    hide ChildPath, Render, SplitPath, NamesOf, Faithful;
    var dir', kr := LinkPath(s, d), NodeKey(d);
    var was, ls := s.meta.lists[dir'].listing.links, api.list(call, d).value;
    ListingIsProper(t, api, call, d);
    DiffEventsAre(api, dir', NamesOf(was, kr), NamesOf(ls, kr), e);
    var m;
    if e.kind == Created {
      m :| About(e, m, NamesOf(ls, kr), NamesOf(was, kr), Created, dir');
      NamesAreIn(ls, kr, m);
    } else {
      m :| About(e, m, NamesOf(was, kr), NamesOf(ls, kr), Deleted, dir');
      NamesAreIn(was, kr, m);
    }
    PathsApart(dir', m, dir, n);
  }

  lemma PathsApart(dir: string, n: string, dir': string, n': string)
    requires IsClean(dir) && IsClean(dir') && IsName(n) && IsName(n') && dir != dir'
    ensures ChildPath(dir, n) != ChildPath(dir', n')
  {
    hide ChildPath, Render, SplitPath, Clean;
    CleanPathShape(dir);
    CleanPathShape(dir');
    DifferentFolders(SplitPath(dir), n, SplitPath(dir'), n');
  }

  /** The folder of a child's path. */
  lemma DirOfChildPath(dir: string, n: string)
    requires IsClean(dir) && IsName(n)
    ensures Dir(ChildPath(dir, n)) == dir
  {
    hide ChildPath, Render, SplitPath, Clean, Dir;
    CleanPathShape(dir);
    ChildPathOfRender(SplitPath(dir), n);
    DirBaseOfChild(SplitPath(dir), n);
  }

  // ----- one event -----

  lemma RelistedAnnounces(s: State, ev: LinkEvent, api: Api)
    requires Relisted(s, ev, api).Some?
    ensures var (d, call) := Relisted(s, ev, api).value;
            Announced(s, ev, api) == DiffAnnounced(s, d, call, api)
  {
  }

  lemma NewNameIsProper(s: State, t: Tree, ev: LinkEvent, api: Api)
    requires ProperServer(t, api) && ProperEvent(ev) && NewName(s, ev.link, api).Some?
    ensures IsName(NewName(s, ev.link, api).value)
  {
  }

  /** Without a diff an event says one thing, about a path it strikes or a child of one. */
  lemma {:induction false} SingleAnnounced(s: State, t: Tree, ev: LinkEvent, api: Api, e: DriveEvent)
    requires ProperServer(t, api) && ProperEvent(ev) && Relisted(s, ev, api).None?
    requires e in Announced(s, ev, api) && e.kind != Changed
    ensures || e.path in Freshness.Struck(s, ev)
            || (LinkPath(s, ev.link.parent) in Freshness.Struck(s, ev)
                && exists n :: IsName(n) && e.path == ChildPath(LinkPath(s, ev.link.parent), n))
  {
    hide ChildPath, Diffable, AfterName, AfterOwn, NewName;
    if ev.kind.Create? && NewName(s, ev.link, api).Some? {
      NewNameIsProper(s, t, ev, api);
      NamedHasPath(s, ev.link, api);
    }
  }

  /** A folder whose listing an event leaves alone is not one it says anything about. */
  lemma {:induction false} SparedIsQuiet(s: State, t: Tree, ev: LinkEvent, api: Api, dir: string, n: string,
      e: DriveEvent)
    requires ProperServer(t, api) && ProperEvent(ev) && Tidy(s) && Relisted(s, ev, api).None?
    requires IsClean(dir) && IsName(n) && dir !in Freshness.WithParents(Freshness.Struck(s, ev))
    requires e in Announced(s, ev, api) && e.kind != Changed
    ensures e.path != ChildPath(dir, n)
  {
    hide ChildPath, Relisted, Announced, Dir, Clean, SplitPath, Render;
    SingleAnnounced(s, t, ev, api, e);
    if e.path in Freshness.Struck(s, ev) {
      DirOfChildPath(dir, n);
    } else {
      var m :| IsName(m) && e.path == ChildPath(LinkPath(s, ev.link.parent), m);
      PathsApart(LinkPath(s, ev.link.parent), m, dir, n);
    }
  }

  /** Every event keeps the view in step with the listing, whatever it drops, fetches or announces. */
  lemma {:induction false} EventKeepsInStep(ps: PollerState, t: Tree, ev: LinkEvent, api: Api, now: nat, dir: string,
                                            shown: set<string>)
    requires WellFormed(t) && Faithful(api, t) && Orders(api) && ProperServer(t, api) && ProperEvent(ev)
    requires KeysRight(ps.session) && Tidy(ps.session) && ComparesOwn(ps.session, ev, api)
    requires IsClean(dir) && InStep(ps.session.meta, dir, shown)
    ensures InStep(Handled(ps, ev, api, now).session.meta, dir, Replay(shown, Announced(ps.session, ev, api)))
  {
    hide Handled, Announced, ChildPath, Replay, NamesOf, Relisted, Dropped, Faithful, WellFormed, Orders, Tidy,
      ProperServer, Freshness.WithParents, Freshness.Struck, Freshness.Scanned, IsClean;
    var s, m := ps.session, Handled(ps, ev, api, now).session.meta;
    Freshness.EventDropsExactly(ps, ev, api, now);
    EventRestocks(ps, ev, api, now);
    if dir in m.lists {
      forall n | IsName(n)
        ensures ChildPath(dir, n) in Replay(shown, Announced(s, ev, api))
           <==> n in NamesOf(m.lists[dir].listing.links, m.lists[dir].parentKR)
      {
        match Relisted(s, ev, api)
        case None =>
          SparedInStep(s, t, ev, api, dir, shown, n);
        case Some((d, call)) =>
          RelistedAnnounces(s, ev, api);
          if LinkPath(s, d) == dir {
            DiffInStep(s, t, d, call, api, shown, n);
          } else {
            ElsewhereInStep(s, t, d, call, api, dir, shown, n);
          }
      }
    }
  }

  lemma SparedInStep(s: State, t: Tree, ev: LinkEvent, api: Api, dir: string, shown: set<string>, n: string)
    requires ProperServer(t, api) && ProperEvent(ev) && Tidy(s) && Relisted(s, ev, api).None?
    requires IsClean(dir) && IsName(n)
    requires dir !in Freshness.WithParents(Freshness.Struck(s, ev) + Freshness.Scanned(s, ev, api))
    ensures ChildPath(dir, n) in Replay(shown, Announced(s, ev, api)) <==> ChildPath(dir, n) in shown
  {
    hide ChildPath, Relisted, Announced, Replay, Dir, IsClean, Freshness.Struck, Freshness.Scanned;
    assert dir !in Freshness.WithParents(Freshness.Struck(s, ev));
    forall e | e in Announced(s, ev, api) && e.kind != Changed
      ensures e.path != ChildPath(dir, n)
    {
      SparedIsQuiet(s, t, ev, api, dir, n, e);
    }
    ReplayElsewhere(shown, Announced(s, ev, api), ChildPath(dir, n));
  }

  lemma ElsewhereInStep(s: State, t: Tree, d: LinkID, call: nat, api: Api, dir: string, shown: set<string>, n: string)
    requires KeysRight(s) && Faithful(api, t) && ProperServer(t, api) && Tidy(s)
    requires Diffable(s, d) && api.list(call, d).Ok? && IsClean(dir) && LinkPath(s, d) != dir && IsName(n)
    ensures ChildPath(dir, n) in Replay(shown, DiffAnnounced(s, d, call, api)) <==> ChildPath(dir, n) in shown
  {
    hide ChildPath, DiffAnnounced, Replay, IsClean, Faithful, Tidy, ProperServer, KeysRight;
    forall e | e in DiffAnnounced(s, d, call, api)
      ensures e.path != ChildPath(dir, n)
    {
      DiffElsewhere(s, t, d, call, api, dir, n, e);
    }
    ReplayElsewhere(shown, DiffAnnounced(s, d, call, api), ChildPath(dir, n));
  }

  // ----- what every event keeps -----

  lemma ChildPathIsClean(dir: string, n: string)
    requires IsClean(dir) && IsName(n)
    ensures IsClean(ChildPath(dir, n))
  {
    hide ChildPath, Render, SplitPath, Clean;
    CleanPathShape(dir);
    ChildPathOfRender(SplitPath(dir), n);
    RenderInverse(SplitPath(dir) + [n]);
  }

  /** Paths recorded by an event are clean again. */
  lemma {:induction false} RecordsStayClean(s: State, t: Tree, ev: LinkEvent, api: Api)
    requires ProperServer(t, api) && ProperEvent(ev) && Tidy(s)
    ensures forall y | y in HandledRecords(s, t, ev, api) :: IsClean(HandledRecords(s, t, ev, api)[y])
  {
    hide ChildPath, IsClean, NewName, FoundGone, AfterOwn, AfterName;
    forall dir, n | IsClean(dir) && IsName(n)
      ensures IsClean(ChildPath(dir, n))
    {
      ChildPathIsClean(dir, n);
    }
    if ev.kind.Create? && NewName(s, ev.link, api).Some? {
      NewNameIsProper(s, t, ev, api);
      NamedHasPath(s, ev.link, api);
    }
  }

  lemma NamedHasPath(s: State, link: Link, api: Api)
    requires NewName(s, link, api).Some?
    ensures link.parent in s.linkPaths && LinkPath(s, link.parent) != ""
  {
  }

  /** A listing that the event leaves was there before or is that of its folder in the tree. */
  ghost predicate FromTree(t: Tree, e: ListEntry) {
    exists d :: e.parentKR == NodeKey(d) && IsListing(t, d, e.listing.links)
  }

  lemma {:induction false} EventLists(ps: PollerState, t: Tree, ev: LinkEvent, api: Api, now: nat, p: string)
    requires Faithful(api, t) && KeysRight(ps.session)
    requires p in Handled(ps, ev, api, now).session.meta.lists
    ensures var m, m' := ps.session.meta, Handled(ps, ev, api, now).session.meta;
            (p in m.lists && m'.lists[p] == m.lists[p]) || FromTree(t, m'.lists[p])
  {
    hide Handled, Relisted, Dropped, Freshness.WithParents, Freshness.Struck, Freshness.Scanned;
    Freshness.EventDropsExactly(ps, ev, api, now);
    EventRestocks(ps, ev, api, now);
    match Relisted(ps.session, ev, api)
    case None =>
    case Some((d, call)) =>
      assert IsListing(t, d, api.list(call, d).value);
  }

  lemma FromTreeIsProper(t: Tree, api: Api, e: ListEntry)
    requires ProperServer(t, api) && FromTree(t, e)
    ensures ProperLinks(e.listing.links)
  {
    var d :| e.parentKR == NodeKey(d) && IsListing(t, d, e.listing.links);
    forall l | l in e.listing.links && l.name.Some?
      ensures IsName(l.name.value)
    {
      assert t.links[l.id] == l;
    }
  }

  lemma {:induction false} EventKeepsTidy(ps: PollerState, t: Tree, ev: LinkEvent, api: Api, now: nat)
    requires WellFormed(t) && Faithful(api, t) && KeysRight(ps.session)
    requires ProperServer(t, api) && ProperEvent(ev) && Tidy(ps.session)
    ensures Tidy(Handled(ps, ev, api, now).session)
  {
    hide Handled, IsClean, HandledRecords, FromTree, ProperLinks, Faithful, WellFormed, ProperServer;
    RecordsStayClean(ps.session, t, ev, api);
    EventRecords(ps, ev, api, t, now);
    var lists := Handled(ps, ev, api, now).session.meta.lists;
    forall p | p in lists
      ensures ProperLinks(lists[p].listing.links)
    {
      EventLists(ps, t, ev, api, now, p);
      if FromTree(t, lists[p]) {
        FromTreeIsProper(t, api, lists[p]);
      }
    }
  }

  // ----- the whole batch -----

  /** Whenever an event lists a folder again, the listing it compares with is one of that folder. */
  ghost predicate AllCompareOwn(s: State, t: Tree, events: seq<LinkEvent>, api: Api, now: nat) {
    forall i | 0 <= i < |events| :: ComparesOwn(ForeseenAll(s, t, events[..i], api, now), events[i], api)
  }

  lemma FrontComparesOwn(s: State, t: Tree, events: seq<LinkEvent>, api: Api, now: nat)
    requires events != [] && AllCompareOwn(s, t, events, api, now)
    ensures AllCompareOwn(s, t, events[..|events| - 1], api, now)
    ensures ComparesOwn(ForeseenAll(s, t, events[..|events| - 1], api, now), events[|events| - 1], api)
  {
    hide ComparesOwn, ForeseenAll;
    var front := events[..|events| - 1];
    assert forall i | 0 <= i < |front| :: front[..i] == events[..i] && front[i] == events[i];
  }

  lemma {:induction false} BatchKeepsInStep(ps: PollerState, t: Tree, events: seq<LinkEvent>, api: Api, now: nat,
      dir: string, shown: set<string>)
    requires WellFormed(t) && Faithful(api, t) && Orders(api) && ProperServer(t, api)
    requires KeysRight(ps.session) && Tidy(ps.session) && AllCompareOwn(ps.session, t, events, api, now)
    requires forall i | 0 <= i < |events| :: ProperEvent(events[i])
    requires IsClean(dir) && InStep(ps.session.meta, dir, shown)
    ensures var s' := HandledAll(ps, events, api, now).session;
            && InStep(s'.meta, dir, Replay(shown, AnnouncedAll(ps.session, t, events, api, now)))
            && Tidy(s') && KeysRight(s')
            && (forall p | p in s'.meta.lists ::
                  || (p in ps.session.meta.lists && s'.meta.lists[p] == ps.session.meta.lists[p])
                  || FromTree(t, s'.meta.lists[p]))
    decreases |events|
  {
    hide Handled, Announced, ForeseenAll, Faithful, WellFormed, Orders, Tidy, ProperServer, InStep, FromTree,
      AllCompareOwn, ComparesOwn, IsClean, ProperEvent, Replay;
    if events == [] {
      ReplayNothing(shown);
    } else {
      var front, ev := events[..|events| - 1], events[|events| - 1];
      var ps1 := HandledAll(ps, front, api, now);
      FrontComparesOwn(ps.session, t, events, api, now);
      BatchKeepsInStep(ps, t, front, api, now, dir, shown);
      BatchLeaves(ps, t, front, api, now);
      BatchLeaves(ps, t, events, api, now);
      var before := AnnouncedAll(ps.session, t, front, api, now);
      EventKeepsInStep(ps1, t, ev, api, now, dir, Replay(shown, before));
      EventKeepsTidy(ps1, t, ev, api, now);
      ReplayConcat(shown, before, Announced(ps1.session, ev, api));
      forall p | p in HandledAll(ps, events, api, now).session.meta.lists
        ensures var lists, lists' := ps.session.meta.lists, HandledAll(ps, events, api, now).session.meta.lists;
                (p in lists && lists'[p] == lists[p]) || FromTree(t, lists'[p])
      {
        EventLists(ps1, t, ev, api, now, p);
      }
    }
  }

  lemma ReplayNothing(shown: set<string>)
    ensures Replay(shown, []) == shown
  {
  }

  /**
   * A whole batch, however late it is handled: if the view was in step with the
   * cached listing of a folder before, it is afterwards; and if the batch has
   * fetched that folder's listing, the view shows exactly the names its link has
   * in the tree.
   */
  lemma {:induction false} BatchIsShown(ps: PollerState, t: Tree, events: seq<LinkEvent>, api: Api, now: nat,
      dir: string, shown: set<string>)
    requires WellFormed(t) && Faithful(api, t) && Orders(api) && ProperServer(t, api)
    requires KeysRight(ps.session) && Tidy(ps.session) && AllCompareOwn(ps.session, t, events, api, now)
    requires forall i | 0 <= i < |events| :: ProperEvent(events[i])
    requires IsClean(dir) && InStep(ps.session.meta, dir, shown)
    ensures var lists, lists' := ps.session.meta.lists, HandledAll(ps, events, api, now).session.meta.lists;
            var view := Replay(shown, AnnouncedAll(ps.session, t, events, api, now));
            && InStep(HandledAll(ps, events, api, now).session.meta, dir, view)
            && (dir in lists' && !(dir in lists && lists'[dir] == lists[dir]) ==>
                  exists d :: lists'[dir].parentKR == NodeKey(d)
                    && forall n | IsName(n) :: ChildPath(dir, n) in view <==> ChildNamed(t, d, n).Some?)
  {
    hide HandledAll, AnnouncedAll, AllCompareOwn, ForeseenAll, Faithful, Orders, Tidy, ProperServer, ProperEvent,
      ChildPath, Replay, NamesOf, IsClean;
    BatchKeepsInStep(ps, t, events, api, now, dir, shown);
    var lists, lists' := ps.session.meta.lists, HandledAll(ps, events, api, now).session.meta.lists;
    if dir in lists' && !(dir in lists && lists'[dir] == lists[dir]) {
      var e := lists'[dir];
      var d :| e.parentKR == NodeKey(d) && IsListing(t, d, e.listing.links);
      forall n
        ensures n in NamesOf(e.listing.links, NodeKey(d)) <==> ChildNamed(t, d, n).Some?
      {
        ListedIffNamed(t, d, e.listing.links, n);
      }
    }
  }

  lemma ListedIffNamed(t: Tree, d: LinkID, ls: seq<Link>, n: string)
    requires WellFormed(t) && IsListing(t, d, ls)
    ensures n in NamesOf(ls, NodeKey(d)) <==> ChildNamed(t, d, n).Some?
  {
    var y := ChildNamed(t, d, n);
    if y.Some? {
      NamesAreChildren(t, d, ls, n, y.value);
    }
    if n in NamesOf(ls, NodeKey(d)) {
      NamesAreChildren(t, d, ls, n, NamesOf(ls, NodeKey(d))[n]);
    }
  }
}
