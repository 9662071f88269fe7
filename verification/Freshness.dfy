/**
 * How old the data served by `Stat` and `ListChildren` can be: never older than
 * an event that invalidated it, and bounded by the time to live while online.
 */
module Freshness {
  import opened Outcome
  import opened Paths
  import opened Remote
  import opened Metadata
  import opened Sessions
  import opened Events
  import opened PathCache
  import opened Records

  /** Anything that can happen to a session later on. */
  datatype Later =
    | Client(op: Op)
    | Event(ev: LinkEvent, api: Api, now: nat)
    | Refresh

  function After(ps: PollerState, m: Later): PollerState {
    match m
    case Client(op) => ps.(session := Step(ps.session, op))
    case Event(ev, api, now) => Handled(ps, ev, api, now)
    case Refresh => Refreshed(ps)
  }

  function AfterAll(ps: PollerState, ms: seq<Later>): PollerState
    decreases |ms|
  {
    if ms == [] then ps else AfterAll(After(ps, ms[0]), ms[1..])
  }

  // ----- where cached data comes from -----

  /** Each listing was there before or was fetched just now; no stat is new. */
  ghost predicate Refetched(s: State, s': State, now: nat) {
    && s'.calls >= s.calls && s'.meta.ttl == s.meta.ttl
    && (forall p | p in s'.meta.stats :: p in s.meta.stats && s'.meta.stats[p] == s.meta.stats[p])
    && (forall p | p in s'.meta.lists ::
          || (p in s.meta.lists && s'.meta.lists[p] == s.meta.lists[p])
          || FetchedNow(s, s'.meta.lists[p], now))
  }

  predicate FetchedNow(s: State, e: ListEntry, now: nat) {
    e.listing.asOf.call >= s.calls && e.listing.asOf.at == now && e.cachedAt == now
  }

  lemma RefetchedTrans(a: State, b: State, c: State, now: nat)
    requires Refetched(a, b, now) && Refetched(b, c, now)
    ensures Refetched(a, c, now)
  {
  }

  lemma {:induction false} WalkRefetches(s: State, api: Api, parts: seq<string>, done: nat, id: LinkID, kr: KeyRing,
      now: nat)
    requires done <= |parts|
    ensures Refetched(s, Walk(s, api, parts, done, id, kr, now).0, now)
    decreases |parts| - done
  {
    if done < |parts| {
      var (s1, r) := Descend(s, api, Render(parts[..done]), Render(parts[..done + 1]), parts[done], id, kr, now);
      assert Refetched(s, s1, now);
      if r.Ok? {
        WalkRefetches(s1, api, parts, done + 1, r.value.0, r.value.1, now);
        RefetchedTrans(s, s1, Walk(s1, api, parts, done + 1, r.value.0, r.value.1, now).0, now);
      }
    }
  }

  lemma ResolveRefetches(s: State, api: Api, p: string, now: nat)
    ensures Refetched(s, Resolve(s, api, p, now).0, now)
  {
    var q := Clean(p);
    if !Hit(s, q) {
      var s1 := s.(linkPaths := s.linkPaths[s.root := "/"]);
      var (s2, r) := RootKeyRing(s1, api);
      if r.Ok? {
        var s3 := s2.(pathLinks := s2.pathLinks["/" := s.root]);
        WalkRefetches(s3, api, SplitPath(q), 0, s.root, r.value, now);
        RefetchedTrans(s, s3, Walk(s3, api, SplitPath(q), 0, s.root, r.value, now).0, now);
      }
    }
  }

  /** A successful listing is a fresh or stale entry, or was fetched just now. */
  lemma ListRefetches(s: State, api: Api, p: string, now: nat)
    ensures Refetched(s, List(s, api, p, now).0, now)
    ensures var (s', r) := List(s, api, p, now);
            r.Ok? ==> p in s'.meta.lists && r.value.0 == s'.meta.lists[p].listing
  {
    hide Resolve, Clean;
    if FreshList(s.meta, p, now).None? {
      ResolveRefetches(s, api, p, now);
      var (s1, r1) := Resolve(s, api, p, now);
      var s2 := List(s, api, p, now).0;
      assert Refetched(s1, s2, now);
      RefetchedTrans(s, s1, s2, now);
    }
  }

  /** A stat comes from the root link fetched just now, or from the parent's listing. */
  lemma {:induction false} StatUncachedRefetches(s: State, api: Api, p: string, now: nat)
    ensures Refetched(s, StatUncached(s, api, p, now).0, now)
    ensures var (s', r) := StatUncached(s, api, p, now);
            r.Ok? ==> if p == "/" then r.value.asOf == Fetch(s.calls, now)
                      else Dir(p) in s'.meta.lists && r.value.asOf == s'.meta.lists[Dir(p)].listing.asOf
  {
    hide Resolve, List, Dir, Clean, Base;
    if p != "/" {
      var parent := Dir(Clean(p));
      ResolveRefetches(s, api, parent, now);
      var s1 := Resolve(s, api, parent, now).0;
      ListRefetches(s1, api, Dir(p), now);
      RefetchedTrans(s, s1, List(s1, api, Dir(p), now).0, now);
    }
  }

  lemma {:induction false} DropLinkRefetches(s: State, id: LinkID, keys: seq<string>, now: nat)
    ensures Refetched(s, s.(meta := DropLink(s.meta, id, keys)), now)
    decreases |keys|
  {
    if keys != [] {
      DropLinkRefetches(s, id, keys[1..], now);
    }
  }

  lemma InvalidateLinkRefetches(s: State, id: LinkID, api: Api, now: nat)
    ensures Refetched(s, InvalidateLink(s, id, api), now)
  {
    DropLinkRefetches(s, id, api.order(s.meta.stats.Keys), now);
  }

  // ----- exactly what an event drops -----

  /** The first stat, in iteration order, that belongs to a link. */
  function FirstStat(m: Meta, id: LinkID, keys: seq<string>): set<string> {
    if keys == [] then {}
    else if keys[0] in m.stats && m.stats[keys[0]].link.id == id then {keys[0]}
    else FirstStat(m, id, keys[1..])
  }

  /** Removing the entries of a set of paths, with the listings of their parents. */
  function DropEntries(m: Meta, ps: set<string>): Meta {
    m.(stats := m.stats - ps, lists := m.lists - WithParents(ps))
  }

  function WithParents(ps: set<string>): set<string> {
    ps + set p | p in ps :: Dir(p)
  }

  lemma {:induction false} DropLinkIs(m: Meta, id: LinkID, keys: seq<string>)
    ensures DropLink(m, id, keys) == DropEntries(m, FirstStat(m, id, keys))
  {
    hide Dir;
    if keys == [] {
      assert WithParents({}) == {};
    } else if keys[0] in m.stats && m.stats[keys[0]].link.id == id {
      assert WithParents({keys[0]}) == {keys[0], Dir(keys[0])};
    } else {
      DropLinkIs(m, id, keys[1..]);
    }
  }

  lemma DropTwice(m: Meta, a: set<string>, b: set<string>)
    ensures DropEntries(DropEntries(m, a), b) == DropEntries(m, a + b)
  {
    hide Dir;
    assert WithParents(a + b) == WithParents(a) + WithParents(b);
  }

  lemma DropPathIs(m: Meta, p: string)
    ensures DropPath(m, p) == DropEntries(m, {p} - {""})
  {
    hide Dir;
    assert WithParents({p}) == {p, Dir(p)};
    assert WithParents({}) == {};
  }

  /** The paths an event invalidates outright, when the reverse map knows them. */
  function Struck(s: State, ev: LinkEvent): set<string> {
    var path, parentPath := LinkPath(s, ev.link.id), LinkPath(s, ev.link.parent);
    (match ev.kind
     case Delete => {path}
     case Create => {parentPath}
     case Update => {path, parentPath}) - {""}
  }

  function StruckLists(s: State, ev: LinkEvent): set<string> {
    WithParents(Struck(s, ev))
  }

  /** The path found by scanning the stats, when the event's own path is not known. */
  function Scanned(s: State, ev: LinkEvent, api: Api): set<string> {
    var path, parentPath := LinkPath(s, ev.link.id), LinkPath(s, ev.link.parent);
    var m := if ev.kind.Update? then DropPath(s.meta, parentPath) else s.meta;
    if (if ev.kind.Create? then parentPath else path) != "" then {}
    else FirstStat(m, ev.link.parent, api.order(m.stats.Keys))
  }

  lemma {:induction false} DroppedMeta(s: State, ev: LinkEvent, api: Api)
    ensures Dropped(s, ev, api).meta == DropEntries(s.meta, Struck(s, ev) + Scanned(s, ev, api))
  {
    hide Dir, DropEntries, DropLink, FirstStat;
    var path, parentPath := LinkPath(s, ev.link.id), LinkPath(s, ev.link.parent);
    DropPathIs(s.meta, path);
    DropPathIs(s.meta, parentPath);
    DropNone(s.meta);
    match ev.kind
    case Delete =>
      DropLinkIs(s.meta, ev.link.parent, api.order(s.meta.stats.Keys));
      assert path == "" ==> Struck(s, ev) + Scanned(s, ev, api) == Scanned(s, ev, api);
      assert path != "" ==> Struck(s, ev) + Scanned(s, ev, api) == Struck(s, ev) == {path} - {""};
    case Create =>
      DropLinkIs(s.meta, ev.link.parent, api.order(s.meta.stats.Keys));
      assert parentPath == "" ==> Struck(s, ev) + Scanned(s, ev, api) == Scanned(s, ev, api);
      assert parentPath != "" ==> Struck(s, ev) + Scanned(s, ev, api) == Struck(s, ev) == {parentPath} - {""};
    case Update =>
      UpdateDrops(s, ev, api);
  }

  lemma DropNone(m: Meta)
    ensures DropEntries(m, {}) == m
  {
  }

  lemma UpdateDrops(s: State, ev: LinkEvent, api: Api)
    requires ev.kind.Update?
    ensures Invalidated(s, ev.link, api).meta == DropEntries(s.meta, Struck(s, ev) + Scanned(s, ev, api))
  {
    hide Dir, DropEntries, DropLink, FirstStat;
    var path, parentPath := LinkPath(s, ev.link.id), LinkPath(s, ev.link.parent);
    TwoPathsDropped(s.meta, path, parentPath);
    var m2 := DropEntries(s.meta, {path, parentPath} - {""});
    if path == "" {
      DropPathIs(s.meta, parentPath);
      assert {path, parentPath} - {""} == {parentPath} - {""};
      DropLinkIs(m2, ev.link.parent, api.order(m2.stats.Keys));
      DropTwice(s.meta, Struck(s, ev), Scanned(s, ev, api));
    } else {
      assert Struck(s, ev) + Scanned(s, ev, api) == {path, parentPath} - {""};
    }
  }

  lemma TwoPathsDropped(m: Meta, path: string, parentPath: string)
    ensures var m1 := DropPath(m, path);
            (if parentPath != "" && parentPath != path then DropPath(m1, parentPath) else m1)
            == DropEntries(m, {path, parentPath} - {""})
  {
    hide Dir, DropEntries, DropPath;
    DropPathIs(m, path);
    DropPathIs(DropPath(m, path), parentPath);
    DropTwice(m, {path} - {""}, {parentPath} - {""});
    assert {path} - {""} + ({parentPath} - {""}) == {path, parentPath} - {""};
    if parentPath == "" || parentPath == path {
      assert {path} - {""} == {path, parentPath} - {""};
    }
  }

  /**
   * Exactly which cached entries an event removes: the stats of the paths it
   * strikes, and their listings with those of their parents; one of these may
   * come back as the listing it fetches. Every other entry, so everything cached
   * below a struck path, is served as before.
   */
  lemma {:induction false} EventDropsExactly(ps: PollerState, ev: LinkEvent, api: Api, now: nat)
    ensures var s, m := ps.session, Handled(ps, ev, api, now).session.meta;
            var struck := Struck(s, ev) + Scanned(s, ev, api);
            var relisted := match Relisted(s, ev, api) case None => {} case Some((d, _)) => {LinkPath(s, d)};
            && m.stats == s.meta.stats - struck
            && (forall p | p !in WithParents(struck) :: Lookup(m.lists, p) == Lookup(s.meta.lists, p))
            && (forall p | p in WithParents(struck) :: p in m.lists <==> p in relisted)
            && relisted <= Struck(s, ev)
            && (forall p | p in relisted && p in m.lists :: FetchedNow(s, m.lists[p], now))
  {
    hide Handled, Dir, Dropped, Scanned, OwnDiff, ParentDiff, CreateDiff;
    EventRestocks(ps, ev, api, now);
    DroppedMeta(ps.session, ev, api);
  }

  /** An entry strictly below every struck path survives. */
  lemma DescendantsSurvive(ps: PollerState, ev: LinkEvent, api: Api, now: nat, q: string)
    requires IsClean(q)
    requires forall p | p in Struck(ps.session, ev) + Scanned(ps.session, ev, api) ::
               IsClean(p) && SplitPath(p) < SplitPath(q)
    ensures var m, m' := ps.session.meta, Handled(ps, ev, api, now).session.meta;
            Lookup(m'.stats, q) == Lookup(m.stats, q) && Lookup(m'.lists, q) == Lookup(m.lists, q)
  {
    hide Handled, Dir, Struck, Scanned, SplitPath, Relisted, Render;
    EventDropsExactly(ps, ev, api, now);
    var struck := Struck(ps.session, ev) + Scanned(ps.session, ev, api);
    forall p | p in struck
      ensures q != p && q != Dir(p)
    {
      DirIsAbove(p);
    }
  }

  lemma DirIsAbove(p: string)
    requires IsClean(p)
    ensures SplitPath(Dir(p)) <= SplitPath(p)
  {
    hide Dir, Render;
    CleanPathShape(p);
    var c := SplitPath(p);
    if c == [] {
      RootDir();
    } else {
      var front, n := c[..|c| - 1], c[|c| - 1];
      assert c == front + [n];
      DirBaseOfChild(front, n);
      RenderInverse(front);
    }
  }

  lemma RootDir()
    ensures Dir(Render([])) == Render([])
  {
    var none: seq<string> := [];
    CleanRender(none);
    assert "/"[..AfterLastSlash("/")] == "/";
  }

  lemma HandledRefetches(ps: PollerState, ev: LinkEvent, api: Api, now: nat)
    ensures Refetched(ps.session, Handled(ps, ev, api, now).session, now)
  {
    hide Handled, Dir, Dropped, Scanned, OwnDiff, ParentDiff, CreateDiff, Struck, WithParents, Relisted, NewName;
    EventDropsExactly(ps, ev, api, now);
    EventRestocks(ps, ev, api, now);
    DroppedMeta(ps.session, ev, api);
  }

  /** Every operation but `Stat`, which also stores a stat. */
  lemma AfterRefetches(ps: PollerState, m: Later, now: nat)
    requires m.Event? ==> m.now == now
    requires m.Client? && IsLookup(m.op) ==> m.op.now == now && !m.op.DoStat?
    ensures Refetched(ps.session, After(ps, m).session, now)
  {
    match m
    case Refresh =>
    case Event(ev, api, _) => HandledRefetches(ps, ev, api, now);
    case Client(op) =>
      match op {
        case DoResolve(api, p, _) => ResolveRefetches(ps.session, api, p, now);
        case DoList(api, p, _) => ListRefetches(ps.session, api, p, now);
        case ForgetLink(api, id) => InvalidateLinkRefetches(ps.session, id, api, now);
        case _ =>
      }
  }

  // ----- no stale survivor -----

  /**
   * Cached stats of the paths in `stats` and listings of those in `lists` come
   * from requests numbered `since` or later.
   */
  ghost predicate Renewed(s: State, stats: set<string>, lists: set<string>, since: nat) {
    && s.calls >= since
    && (forall p | p in stats && p in s.meta.stats :: s.meta.stats[p].asOf.call >= since)
    && (forall p | p in lists && p in s.meta.lists :: s.meta.lists[p].listing.asOf.call >= since)
  }

  /** A stat is answered from the parent's listing, so that must be covered too. */
  ghost predicate Covering(stats: set<string>, lists: set<string>) {
    forall p | p in stats && p != "/" :: Dir(p) in lists
  }

  lemma RefetchingRenews(s: State, s': State, now: nat, stats: set<string>, lists: set<string>, since: nat)
    requires Refetched(s, s', now) && Renewed(s, stats, lists, since)
    ensures Renewed(s', stats, lists, since)
  {
  }

  lemma {:induction false} StatRenewed(s: State, api: Api, path: string, now: nat, stats: set<string>,
      lists: set<string>, since: nat)
    requires Renewed(s, stats, lists, since) && Covering(stats, lists)
    ensures var (s', r) := Stat(s, api, path, now);
            && Renewed(s', stats, lists, since)
            && (r.Ok? && Clean(path) in stats ==> r.value.asOf.call >= since)
  {
    hide StatUncached, Clean;
    var p := Clean(path);
    StatUncachedRefetches(s, api, p, now);
    RefetchingRenews(s, StatUncached(s, api, p, now).0, now, stats, lists, since);
  }

  lemma AfterRenewed(ps: PollerState, m: Later, stats: set<string>, lists: set<string>, since: nat)
    requires Renewed(ps.session, stats, lists, since) && Covering(stats, lists)
    ensures Renewed(After(ps, m).session, stats, lists, since)
  {
    if m.Client? && m.op.DoStat? {
      StatRenewed(ps.session, m.op.api, m.op.path, m.op.now, stats, lists, since);
    } else {
      var now := if m.Event? then m.now else if m.Client? && IsLookup(m.op) then m.op.now else 0;
      AfterRefetches(ps, m, now);
      RefetchingRenews(ps.session, After(ps, m).session, now, stats, lists, since);
    }
  }

  lemma {:induction false} AfterAllRenewed(ps: PollerState, ms: seq<Later>, stats: set<string>, lists: set<string>,
      since: nat)
    requires Renewed(ps.session, stats, lists, since) && Covering(stats, lists)
    ensures Renewed(AfterAll(ps, ms).session, stats, lists, since)
    decreases |ms|
  {
    if ms != [] {
      AfterRenewed(ps, ms[0], stats, lists, since);
      AfterAllRenewed(After(ps, ms[0]), ms[1..], stats, lists, since);
    }
  }

  /** What an event strikes holds only data requested from then on. */
  lemma {:induction false} StrikeRenews(ps: PollerState, ev: LinkEvent, api: Api, now: nat)
    ensures Renewed(Handled(ps, ev, api, now).session, Struck(ps.session, ev), StruckLists(ps.session, ev),
                    ps.session.calls)
  {
    hide Handled, Struck, Scanned, Relisted, Dir;
    EventDropsExactly(ps, ev, api, now);
    HandledRefetches(ps, ev, api, now);
    var struck := Struck(ps.session, ev);
    assert WithParents(struck) <= WithParents(struck + Scanned(ps.session, ev, api));
  }

  /**
   * Once an event has been handled, no continuation whatever — more lookups,
   * more events, requests failing, stale offline answers — lets `Stat` of a
   * struck path, or a listing of a struck path or its parent, return data that
   * was requested before the event.
   */
  lemma {:induction false} NoStaleSurvivor(ps: PollerState, ev: LinkEvent, api: Api, now: nat, ms: seq<Later>,
      api': Api, p: string, later: nat)
    ensures var s := AfterAll(Handled(ps, ev, api, now), ms).session;
            var listed, found := List(s, api', p, later).1, Stat(s, api', p, later).1;
            && (listed.Ok? && p in StruckLists(ps.session, ev) ==> listed.value.0.asOf.call >= ps.session.calls)
            && (found.Ok? && Clean(p) in Struck(ps.session, ev) ==> found.value.asOf.call >= ps.session.calls)
  {
    var stats, lists, since := Struck(ps.session, ev), StruckLists(ps.session, ev), ps.session.calls;
    StrikeRenews(ps, ev, api, now);
    AfterAllRenewed(Handled(ps, ev, api, now), ms, stats, lists, since);
    var s := AfterAll(Handled(ps, ev, api, now), ms).session;
    ListRefetches(s, api', p, later);
    RefetchingRenews(s, List(s, api', p, later).0, later, stats, lists, since);
    StatRenewed(s, api', p, later, stats, lists, since);
  }

  // ----- bounded age -----

  /** Listings are stamped when fetched; a stat may be stamped up to one time to live later. */
  ghost predicate Aged(s: State, clock: nat) {
    && s.meta.ttl > 0
    && (forall p | p in s.meta.lists :: s.meta.lists[p].listing.asOf.at == s.meta.lists[p].cachedAt <= clock)
    && (forall p | p in s.meta.stats ::
          s.meta.stats[p].asOf.at <= s.meta.stats[p].cachedAt <= clock
          && s.meta.stats[p].cachedAt - s.meta.stats[p].asOf.at < s.meta.ttl)
  }

  lemma RefetchingAges(s: State, s': State, clock: nat, now: nat)
    requires Refetched(s, s', now) && Aged(s, clock) && clock <= now
    ensures Aged(s', now)
  {
  }

  /** A walk lists only the folders above its path. */
  lemma {:induction false} WalkKeepsOwnListing(s: State, api: Api, parts: seq<string>, done: nat, id: LinkID,
      kr: KeyRing,
      now: nat, p: string)
    requires done <= |parts| && AllNames(parts) && (IsClean(p) ==> p == Render(parts))
    ensures Lookup(Walk(s, api, parts, done, id, kr, now).0.meta.lists, p) == Lookup(s.meta.lists, p)
    decreases |parts| - done
  {
    hide Render, SplitPath;
    if done < |parts| {
      RenderInverse(parts[..done]);
      RenderInverse(parts);
      assert Render(parts[..done]) != p;
      var (s1, r) := Descend(s, api, Render(parts[..done]), Render(parts[..done + 1]), parts[done], id, kr, now);
      if r.Ok? {
        WalkKeepsOwnListing(s1, api, parts, done + 1, r.value.0, r.value.1, now, p);
      }
    }
  }

  lemma ResolveKeepsOwnListing(s: State, api: Api, p: string, now: nat)
    ensures Lookup(Resolve(s, api, p, now).0.meta.lists, p) == Lookup(s.meta.lists, p)
  {
    hide Render, Clean, SplitPath;
    SplitPathComponents(p);
    SplitPathComponents(Clean(p));
    if IsClean(p) {
      CleanPathShape(p);
    }
    RenderInverse(SplitPath(p));
    if !Hit(s, Clean(p)) {
      var s1 := s.(linkPaths := s.linkPaths[s.root := "/"]);
      var (s2, r) := RootKeyRing(s1, api);
      if r.Ok? {
        var s3 := s2.(pathLinks := s2.pathLinks["/" := s.root]);
        WalkKeepsOwnListing(s3, api, SplitPath(Clean(p)), 0, s.root, r.value, now, p);
      }
    }
  }

  /** A listing has to fall back on the cached entry: it is not fresh, and a request fails. */
  predicate ListFallsBack(s: State, api: Api, p: string, now: nat) {
    && FreshList(s.meta, p, now).None?
    && var (s1, r1) := Resolve(s, api, p, now);
       r1.Fail? || api.list(s1.calls, r1.value.0).Fail?
  }

  /** A listing that is served is less than one time to live old, if and only if it is no fallback. */
  lemma ListIsRecentIff(s: State, api: Api, p: string, clock: nat, now: nat)
    requires Aged(s, clock) && clock <= now
    ensures Aged(List(s, api, p, now).0, now)
    ensures var r := List(s, api, p, now).1;
            r.Ok? ==>
              && 0 <= now - r.value.0.asOf.at
              && (now - r.value.0.asOf.at < s.meta.ttl <==> !ListFallsBack(s, api, p, now))
  {
    hide Resolve, Clean;
    ListRefetches(s, api, p, now);
    RefetchingAges(s, List(s, api, p, now).0, clock, now);
    ResolveKeepsOwnListing(s, api, p, now);
    ResolveRefetches(s, api, p, now);
    RefetchingAges(s, Resolve(s, api, p, now).0, clock, now);
  }

  /**
   * A stat is about to store what an expired listing of the parent says: the
   * parent resolves, listing it again fails offline, and the entry that is
   * served instead names the child.
   */
  predicate StoresExpired(s: State, api: Api, path: string, now: nat) {
    var p, dir := Clean(path), Dir(Clean(path));
    && p != "/" && FreshStat(s.meta, p, now).None?
    && dir in s.meta.lists && FreshList(s.meta, dir, now).None?
    && var (s1, r1) := Resolve(s, api, dir, now);
       && r1.Ok? && api.list(s1.calls, r1.value.0) == Fail(Offline)
       && FindNamed(s.meta.lists[dir].listing.links, r1.value.1, Base(p)).Some?
  }

  /** Resolving a path a second time finds the same. */
  lemma ResolveAgain(s: State, api: Api, p: string, now: nat)
    requires Resolve(s, api, p, now).1.Ok?
    ensures var (s1, r) := Resolve(s, api, p, now);
            Resolve(s1, api, p, now) == (s1, r)
  {
    hide Walk, Clean, SplitPath;
    if !Hit(s, Clean(p)) {
      var s1 := s.(linkPaths := s.linkPaths[s.root := "/"]);
      var (s2, r) := RootKeyRing(s1, api);
      var s3 := s2.(pathLinks := s2.pathLinks["/" := s.root]);
      SplitPathComponents(p);
      SplitPathComponents(Clean(p));
      RenderInverse(SplitPath(p));
      RootIsClean();
      WalkIsCached(s3, api, SplitPath(Clean(p)), 0, s.root, r.value, now);
    }
  }

  lemma RootIsClean()
    ensures Render([]) == "/"
  {
  }

  /** What a successful walk ends at is what the forward map and the keyrings then hold. */
  lemma {:induction false} WalkIsCached(s: State, api: Api, parts: seq<string>, done: nat, id: LinkID, kr: KeyRing,
      now: nat)
    requires done <= |parts|
    requires Lookup(s.pathLinks, Render(parts[..done])) == Some(id) && Lookup(s.nodeKRs, id) == Some(kr)
    ensures var (s', r) := Walk(s, api, parts, done, id, kr, now);
            r.Ok? ==>
              && Lookup(s'.pathLinks, Render(parts)) == Some(r.value.0)
              && Lookup(s'.nodeKRs, r.value.0) == Some(r.value.1)
    decreases |parts| - done
  {
    hide Render;
    if done == |parts| {
      assert parts[..done] == parts;
    } else {
      var (s1, r) := Descend(s, api, Render(parts[..done]), Render(parts[..done + 1]), parts[done], id, kr, now);
      if r.Ok? {
        WalkIsCached(s1, api, parts, done + 1, r.value.0, r.value.1, now);
      }
    }
  }

  /** Where a stat that has to be looked up gets its data from, and how old that is. */
  lemma {:induction false} StatUncachedAge(s: State, api: Api, p: string, clock: nat, now: nat)
    requires Aged(s, clock) && clock <= now && Clean(p) == p && FreshStat(s.meta, p, now).None?
    ensures Aged(StatUncached(s, api, p, now).0, now)
    ensures var r := StatUncached(s, api, p, now).1;
            && (r.Ok? ==>
                  && 0 <= now - r.value.asOf.at
                  && (now - r.value.asOf.at < s.meta.ttl <==> !StoresExpired(s, api, p, now)))
            && (StoresExpired(s, api, p, now) ==> r.Ok?)
  {
    hide Resolve, Dir, Clean, Base, FreshStat;
    StatUncachedRefetches(s, api, p, now);
    RefetchingAges(s, StatUncached(s, api, p, now).0, clock, now);
    if p != "/" {
      ResolveRefetches(s, api, Dir(p), now);
      ResolveKeepsOwnListing(s, api, Dir(p), now);
      var (s1, r1) := Resolve(s, api, Dir(p), now);
      RefetchingAges(s, s1, clock, now);
      if r1.Ok? {
        ResolveAgain(s, api, Dir(p), now);
        ListIsRecentIff(s1, api, Dir(p), now, now);
      }
    }
  }

  /**
   * Listings are stamped with the time they were fetched, stats at most one
   * time to live later. A stat keeps it so if and only if it does not store
   * what an expired listing says.
   */
  lemma {:induction false} StatKeepsAgeIff(s: State, api: Api, path: string, clock: nat, now: nat)
    requires Aged(s, clock) && clock <= now
    ensures Aged(Stat(s, api, path, now).0, now) <==> !StoresExpired(s, api, path, now)
  {
    hide StatUncached, StoresExpired, Clean;
    var p := Clean(path);
    SplitPathComponents(path);
    CleanPathShape(p);
    StoresExpiredClean(s, api, path, now);
    if FreshStat(s.meta, p, now).None? {
      StatUncachedAge(s, api, p, clock, now);
      StatUncachedRefetches(s, api, p, now);
      StoringKeepsAgeIff(StatUncached(s, api, p, now).0, p, StatUncached(s, api, p, now).1, now);
    }
  }

  lemma StoresExpiredClean(s: State, api: Api, path: string, now: nat)
    ensures StoresExpired(s, api, path, now) <==> StoresExpired(s, api, Clean(path), now)
    ensures StoresExpired(s, api, path, now) ==> FreshStat(s.meta, Clean(path), now).None?
  {
    hide Clean, Dir, Base, Resolve;
    SplitPathComponents(path);
    CleanPathShape(Clean(path));
  }

  lemma StoringKeepsAgeIff(s: State, p: string, r: Result<Found>, now: nat)
    requires Aged(s, now) && (r.Ok? ==> r.value.asOf.at <= now)
    ensures r.Ok? ==>
      (Aged(s.(meta := PutStat(s.meta, p, r.value.link, r.value.asOf, r.value.parentKR, now)), now)
       <==> now - r.value.asOf.at < s.meta.ttl)
  {
    if r.Ok? {
      var stats := PutStat(s.meta, p, r.value.link, r.value.asOf, r.value.parentKR, now).stats;
      assert stats[p].asOf == r.value.asOf && stats[p].cachedAt == now;
    }
  }

  /** A stat has to fall back on its own cached entry. */
  predicate StatFallsBack(s: State, api: Api, path: string, now: nat) {
    FreshStat(s.meta, Clean(path), now).None? && StatUncached(s, api, Clean(path), now).1.Fail?
  }

  /** A stat that is served is less than two times to live old, but for the two ways of falling back. */
  lemma {:induction false} StatIsRecent(s: State, api: Api, path: string, clock: nat, now: nat)
    requires Aged(s, clock) && clock <= now
    requires !StoresExpired(s, api, path, now) && !StatFallsBack(s, api, path, now)
    ensures var r := Stat(s, api, path, now).1;
            r.Ok? ==> now - r.value.asOf.at < 2 * s.meta.ttl
  {
    hide StatUncached, StoresExpired, Clean;
    var p := Clean(path);
    SplitPathComponents(path);
    CleanPathShape(p);
    StoresExpiredClean(s, api, path, now);
    if FreshStat(s.meta, p, now).None? {
      StatUncachedAge(s, api, p, clock, now);
    }
  }

  // ----- runs -----

  /** The clock after a step. */
  function Tick(m: Later, clock: nat): nat {
    match m
    case Client(op) => if IsLookup(op) then op.now else clock
    case Event(_, _, now) => now
    case Refresh => clock
  }

  /** Clocks do not run backwards. */
  predicate Timely(ms: seq<Later>, clock: nat)
    decreases |ms|
  {
    ms == [] || (clock <= Tick(ms[0], clock) && Timely(ms[1..], Tick(ms[0], clock)))
  }

  function Clock(ms: seq<Later>, clock: nat): nat
    decreases |ms|
  {
    if ms == [] then clock else Clock(ms[1..], Tick(ms[0], clock))
  }

  predicate Restamps(ps: PollerState, m: Later) {
    m.Client? && m.op.DoStat? && StoresExpired(ps.session, m.op.api, m.op.path, m.op.now)
  }

  /** No stat of the run stores what an expired listing says. */
  predicate NeverRestamps(ps: PollerState, ms: seq<Later>)
    decreases |ms|
  {
    ms == [] || (!Restamps(ps, ms[0]) && NeverRestamps(After(ps, ms[0]), ms[1..]))
  }

  ghost predicate AgedThroughout(ps: PollerState, ms: seq<Later>, clock: nat)
    decreases |ms|
  {
    Aged(ps.session, clock) && (ms == [] || AgedThroughout(After(ps, ms[0]), ms[1..], Tick(ms[0], clock)))
  }

  lemma {:induction false} StepAgesIff(ps: PollerState, m: Later, clock: nat)
    requires Aged(ps.session, clock) && clock <= Tick(m, clock)
    ensures Aged(After(ps, m).session, Tick(m, clock)) <==> !Restamps(ps, m)
  {
    hide Aged, StoresExpired, Handled;
    if m.Client? && m.op.DoStat? {
      StatKeepsAgeIff(ps.session, m.op.api, m.op.path, clock, m.op.now);
    } else {
      AfterRefetches(ps, m, Tick(m, clock));
      RefetchingAges(ps.session, After(ps, m).session, clock, Tick(m, clock));
    }
  }

  /** The stamps are kept in every state of a run if and only if no stat stores expired data as new. */
  lemma {:induction false} RunAgesIff(ps: PollerState, ms: seq<Later>, clock: nat)
    requires Aged(ps.session, clock) && Timely(ms, clock)
    ensures AgedThroughout(ps, ms, clock) <==> NeverRestamps(ps, ms)
    decreases |ms|
  {
    hide After, Aged, Restamps;
    if ms != [] {
      StepAgesIff(ps, ms[0], clock);
      if !Restamps(ps, ms[0]) {
        RunAgesIff(After(ps, ms[0]), ms[1..], Tick(ms[0], clock));
      }
    }
  }

  lemma {:induction false} AgedAtTheEnd(ps: PollerState, ms: seq<Later>, clock: nat)
    requires AgedThroughout(ps, ms, clock)
    ensures Aged(AfterAll(ps, ms).session, Clock(ms, clock))
    decreases |ms|
  {
    hide After, Aged;
    if ms != [] {
      AgedAtTheEnd(After(ps, ms[0]), ms[1..], Tick(ms[0], clock));
    }
  }

  /** Nothing changes the time to live. */
  lemma {:induction false} TtlIsKept(ps: PollerState, ms: seq<Later>)
    ensures AfterAll(ps, ms).session.meta.ttl == ps.session.meta.ttl
    decreases |ms|
  {
    hide Handled;
    if ms != [] {
      var m := ms[0];
      if m.Client? && m.op.DoStat? {
        StatUncachedRefetches(ps.session, m.op.api, Clean(m.op.path), m.op.now);
      } else {
        AfterRefetches(ps, m, Tick(m, 0));
      }
      TtlIsKept(After(ps, m), ms[1..]);
    }
  }

  /**
   * The staleness bound, whichever requests fail: in every run in which no stat
   * stores expired data as new, a listing is served less than `ttl` after the
   * server sent it if and only if it is no fallback, and a stat less than
   * 2·`ttl` unless it is one.
   */
  lemma {:induction false} StalenessBound(root: LinkID, ttl: nat, store: BlockStore.Store, ms: seq<Later>, api: Api,
      p: string, now: nat)
    requires ttl > 0 && Timely(ms, 0) && Clock(ms, 0) <= now
    requires NeverRestamps(PollerState(Initial(root, ttl), store, [], ""), ms)
    ensures var s := AfterAll(PollerState(Initial(root, ttl), store, [], ""), ms).session;
            var listed, found := List(s, api, p, now).1, Stat(s, api, p, now).1;
            && (listed.Ok? ==> (now - listed.value.0.asOf.at < ttl <==> !ListFallsBack(s, api, p, now)))
            && (found.Ok? && !StoresExpired(s, api, p, now) && !StatFallsBack(s, api, p, now) ==>
                  now - found.value.asOf.at < 2 * ttl)
  {
    hide After, AgedThroughout, NeverRestamps, List, Stat, StoresExpired, StatFallsBack, ListFallsBack;
    var ps := PollerState(Initial(root, ttl), store, [], "");
    RunAgesIff(ps, ms, 0);
    AgedAtTheEnd(ps, ms, 0);
    TtlIsKept(ps, ms);
    var s := AfterAll(ps, ms).session;
    ListIsRecentIff(s, api, p, Clock(ms, 0), now);
    if !StoresExpired(s, api, p, now) && !StatFallsBack(s, api, p, now) {
      StatIsRecent(s, api, p, Clock(ms, 0), now);
    }
  }

  /**
   * Offline the bound fails: a stat answered from an expired listing of the
   * parent is stored as if it were new, so even an online stat that follows
   * returns data as old as that listing.
   */
  lemma OfflineStatRestampsOldData(s: State, down: Api, up: Api, p: string, now: nat, later: nat)
    requires Clean(p) == p != "/" && Clean(Dir(p)) == Dir(p) && p !in s.meta.stats
    requires Hit(s, Dir(p)) && Dir(p) in s.meta.lists && FreshList(s.meta, Dir(p), now).None?
    requires forall k, id :: down.list(k, id) == Fail(Offline)
    requires FindNamed(s.meta.lists[Dir(p)].listing.links, s.nodeKRs[s.pathLinks[Dir(p)]], Base(p)).Some?
    requires now <= later < now + s.meta.ttl
    ensures var (s', r) := Stat(s, down, p, now);
            && r.Ok? && r.value.asOf == s.meta.lists[Dir(p)].listing.asOf
            && Stat(s', up, p, later).1 == r
  {
    var parent := s.pathLinks[Dir(p)];
    assert down.list(s.calls, parent) == Fail(Offline);
    assert Resolve(s, down, Dir(p), now) == (s, Ok((parent, s.nodeKRs[parent])));
  }
}
