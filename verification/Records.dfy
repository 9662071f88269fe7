/**
 * What one step writes into the path caches, as a function of the state before
 * it and the remote tree: a lookup records the path it walks down, an event
 * the children of the folder it lists again.
 */
module Records {
  import opened Outcome
  import opened Paths
  import opened Remote
  import opened Metadata
  import opened Sessions
  import opened Events
  import opened PathCache
  import opened Notifications

  // ----- lookups -----

  ghost predicate IsChild(t: Tree, id: LinkID, name: string, y: LinkID) {
    y in t.links && t.links[y].parent == id && t.links[y].name == Some(name)
  }

  ghost function ChildNamed(t: Tree, id: LinkID, name: string): (r: Option<LinkID>)
    ensures r.Some? ==> IsChild(t, id, name, r.value)
    ensures r.None? ==> forall y :: !IsChild(t, id, name, y)
  {
    if exists y :: IsChild(t, id, name, y) then
      var y :| IsChild(t, id, name, y);
      Some(y)
    else None
  }

  /**
   * How many of `parts` a walk gets through: on each level the listing must
   * succeed and the child must be there and readable. `done` levels led to `id`.
   */
  ghost function Depth(t: Tree, api: Api, calls: nat, parts: seq<string>, done: nat, id: LinkID): (n: nat)
    requires done <= |parts|
    ensures done <= n <= |parts|
    decreases |parts| - done
  {
    if done == |parts| || api.list(calls, id).Fail? then done
    else
      match ChildNamed(t, id, parts[done])
      case None => done
      case Some(y) => if t.links[y].unlockable then Depth(t, api, calls + 1, parts, done + 1, y) else done
  }

  ghost function LinkAt(t: Tree, c: seq<string>): (r: Option<LinkID>)
    ensures r.Some? ==> Reaches(t, c, r.value)
    ensures r.None? ==> forall y :: !Reaches(t, c, y)
  {
    if exists y :: Reaches(t, c, y) then
      var y :| Reaches(t, c, y);
      Some(y)
    else None
  }

  /** The reverse map once every link on the path `c` has been recorded at its path. */
  ghost function Recorded(links: map<LinkID, string>, t: Tree, c: seq<string>): map<LinkID, string>
    decreases |c|
  {
    if c == [] then links[t.root := "/"]
    else
      var m := Recorded(links, t, c[..|c| - 1]);
      match LinkAt(t, c)
      case None => m
      case Some(y) => m[y := Render(c)]
  }

  /** The forward map once the path `c` and its ancestors have been entered. */
  ghost function Entered(links: map<string, LinkID>, t: Tree, c: seq<string>): map<string, LinkID>
    decreases |c|
  {
    if c == [] then links["/" := t.root]
    else
      var m := Entered(links, t, c[..|c| - 1]);
      match LinkAt(t, c)
      case None => m
      case Some(y) => m[Render(c) := y]
  }

  lemma FindsChild(t: Tree, id: LinkID, ls: seq<Link>, part: string)
    requires WellFormed(t) && IsListing(t, id, ls)
    ensures var found, y := FindNamed(ls, NodeKey(id), part), ChildNamed(t, id, part);
            && (found.Some? <==> y.Some?)
            && (found.Some? ==> found.value == t.links[y.value] && found.value.id == y.value)
  {
    var found, y := FindNamed(ls, NodeKey(id), part), ChildNamed(t, id, part);
    if y.Some? {
      assert t.links[y.value] in ls;
    }
    if found.Some? {
      assert IsChild(t, id, part, found.value.id);
      assert SameSlot(t.links[found.value.id], t.links[y.value]);
    }
  }

  predicate SamePaths(a: State, b: State) {
    a.linkPaths == b.linkPaths && a.pathLinks == b.pathLinks
  }

  /** One level of the walk, as the tree says it goes. */
  lemma DescendRecords(s: State, api: Api, t: Tree, p: string, next: string, part: string, id: LinkID, now: nat)
    requires WellFormed(t) && Faithful(api, t)
    ensures var (s', r) := Descend(s, api, p, next, part, id, NodeKey(id), now);
            var y := if api.list(s.calls, id).Ok? then ChildNamed(t, id, part) else None;
            if y.Some? && t.links[y.value].unlockable
            then r == Ok((y.value, NodeKey(y.value))) && s'.calls == s.calls + 1
                 && s'.linkPaths == s.linkPaths[y.value := next] && s'.pathLinks == s.pathLinks[next := y.value]
            else r.Fail? && SamePaths(s', s)
  {
    if api.list(s.calls, id).Ok? {
      assert IsListing(t, id, api.list(s.calls, id).value);
      FindsChild(t, id, api.list(s.calls, id).value, part);
    }
  }

  lemma RecordedSnoc(links: map<LinkID, string>, fwd: map<string, LinkID>, t: Tree, c: seq<string>, part: string,
      y: LinkID)
    requires WellFormed(t) && Reaches(t, c + [part], y)
    ensures Recorded(links, t, c + [part]) == Recorded(links, t, c)[y := Render(c + [part])]
    ensures Entered(fwd, t, c + [part]) == Entered(fwd, t, c)[Render(c + [part]) := y]
  {
    hide Render;
    assert (c + [part])[..|c|] == c;
    TargetUnique(t, c + [part], y, LinkAt(t, c + [part]).value);
  }

  lemma {:induction false} WalkRecords(s: State, api: Api, t: Tree, parts: seq<string>, done: nat, id: LinkID, now: nat,
      links: map<LinkID, string>, fwd: map<string, LinkID>)
    requires WellFormed(t) && Faithful(api, t) && done <= |parts| && Reaches(t, parts[..done], id)
    requires s.linkPaths == Recorded(links, t, parts[..done]) && s.pathLinks == Entered(fwd, t, parts[..done])
    ensures var s', n := Walk(s, api, parts, done, id, NodeKey(id), now).0, Depth(t, api, s.calls, parts, done, id);
            s'.linkPaths == Recorded(links, t, parts[..n]) && s'.pathLinks == Entered(fwd, t, parts[..n])
    decreases |parts| - done
  {
    hide Render, Faithful, WellFormed, Descend, Recorded, Entered, LinkAt, Reaches;
    if done < |parts| {
      var c, part := parts[..done], parts[done];
      assert parts[..done + 1] == c + [part];
      var y := ChildNamed(t, id, part);
      DescendRecords(s, api, t, Render(c), Render(c + [part]), part, id, now);
      if api.list(s.calls, id).Ok? && y.Some? && t.links[y.value].unlockable {
        ReachesSnoc(t, c, part, y.value);
        RecordedSnoc(links, fwd, t, c, part, y.value);
        var s1 := Descend(s, api, Render(c), Render(c + [part]), part, id, NodeKey(id), now).0;
        WalkRecords(s1, api, t, parts, done + 1, y.value, now, links, fwd);
      }
    }
  }

  /** The root keyring is cached or fetched. */
  predicate RootKeyed(s: State, api: Api) {
    s.root in s.nodeKRs || api.rootKey(s.calls).Ok?
  }

  /** The components a slow lookup of `p` gets through. */
  ghost function Walked(s: State, t: Tree, api: Api, p: string): seq<string> {
    if RootKeyed(s, api)
    then SplitPath(p)[..Depth(t, api, if s.root in s.nodeKRs then s.calls else s.calls + 1, SplitPath(p), 0, t.root)]
    else []
  }

  /** The path a lookup has to walk, if the caches do not answer it. */
  function ToWalk(s: State, op: Op): Option<string>
    requires IsLookup(op)
  {
    match op
    case DoResolve(_, p, _) => Missed(s, p)
    case DoList(_, p, now) => if FreshList(s.meta, p, now).Some? then None else Missed(s, p)
    case DoStat(_, p, now) =>
      if FreshStat(s.meta, Clean(p), now).Some? || Clean(p) == "/" then None else Missed(s, Dir(Clean(p)))
  }

  function Missed(s: State, p: string): Option<string> {
    if Hit(s, Clean(p)) then None else Some(p)
  }

  /** The path caches after a lookup. */
  ghost function Learnt(s: State, t: Tree, op: Op): State
    requires IsLookup(op)
  {
    match ToWalk(s, op)
    case None => s
    case Some(p) => Retraced(s, t, op.api, p)
  }

  ghost function Retraced(s: State, t: Tree, api: Api, p: string): State {
    var c := Walked(s, t, api, p);
    s.(linkPaths := Recorded(s.linkPaths, t, c),
       pathLinks := if RootKeyed(s, api) then Entered(s.pathLinks, t, c) else s.pathLinks)
  }

  lemma ResolveRecords(s: State, api: Api, t: Tree, p: string, now: nat)
    requires WellFormed(t) && Faithful(api, t) && KeysRight(s) && s.root == t.root && !Hit(s, Clean(p))
    ensures SamePaths(Resolve(s, api, p, now).0, Retraced(s, t, api, p))
  {
    hide Render, Clean, Depth, Walk, SplitPath, Reaches;
    SplitPathAgain(p);
    ReachesRoot(t);
    var s1 := s.(linkPaths := s.linkPaths[s.root := "/"]);
    var (s2, r) := RootKeyRing(s1, api);
    if r.Ok? {
      var parts := SplitPath(p);
      assert parts[..0] == [];
      WalkRecords(s2.(pathLinks := s2.pathLinks["/" := s.root]), api, t, parts, 0, t.root, now, s.linkPaths,
          s.pathLinks);
    }
  }

  lemma ReachesRoot(t: Tree)
    ensures Reaches(t, [], t.root)
  {
  }

  lemma SplitPathAgain(p: string)
    ensures SplitPath(Clean(p)) == SplitPath(p)
  {
    SplitPathComponents(p);
    RenderInverse(SplitPath(p));
  }

  /** Once a path resolves, resolving it again changes nothing. */
  lemma ResolvedTwice(s: State, api: Api, p: string, now: nat)
    requires Resolve(s, api, p, now).1.Ok?
    ensures Hit(Resolve(s, api, p, now).0, Clean(p))
  {
    if !Hit(s, Clean(p)) {
      SlowSuccessHits(s, api, p, now, |SplitPath(p)|);
      SplitPathComponents(p);
      assert SplitPath(p)[..|SplitPath(p)|] == SplitPath(p);
    }
  }

  /** The listing after a successful lookup of the parent changes no path. */
  lemma StatUncachedRecords(s: State, api: Api, p: string, now: nat)
    requires IsClean(p) && p != "/"
    ensures SamePaths(StatUncached(s, api, p, now).0, Resolve(s, api, Dir(p), now).0)
  {
    hide Resolve, Clean, Dir, Base, Hit;
    CleanPathShape(p);
    var (s1, r1) := Resolve(s, api, Dir(p), now);
    if r1.Ok? {
      ResolvedTwice(s, api, Dir(p), now);
      HitResolves(s1, api, Dir(p), now);
    }
  }

  lemma StatRecords(s: State, api: Api, t: Tree, path: string, now: nat)
    requires WellFormed(t) && Faithful(api, t) && KeysRight(s) && s.root == t.root
    ensures SamePaths(Stat(s, api, path, now).0, Learnt(s, t, DoStat(api, path, now)))
  {
    hide Resolve, StatUncached, Clean, Dir, Base, Hit, Retraced, Faithful, WellFormed, KeysRight;
    var p := Clean(path);
    if FreshStat(s.meta, p, now).None? && p != "/" {
      SplitPathComponents(path);
      StatUncachedRecords(s, api, p, now);
      if Hit(s, Clean(Dir(p))) {
        HitResolves(s, api, Dir(p), now);
      } else {
        ResolveRecords(s, api, t, Dir(p), now);
      }
    } else if FreshStat(s.meta, p, now).None? {
      StatRootRecords(s, api, now);
    }
  }

  lemma StatRootRecords(s: State, api: Api, now: nat)
    ensures SamePaths(StatUncached(s, api, "/", now).0, s)
  {
  }

  lemma HitResolves(s: State, api: Api, p: string, now: nat)
    requires Hit(s, Clean(p))
    ensures Resolve(s, api, p, now).0 == s && Resolve(s, api, p, now).1.Ok?
  {
  }

  /** What a lookup leaves in the path caches, whichever requests fail. */
  lemma {:induction false} LookupRecords(s: State, op: Op, t: Tree)
    requires WellFormed(t) && KeysRight(s) && s.root == t.root
    requires IsLookup(op) && Faithful(op.api, t)
    ensures SamePaths(Step(s, op), Learnt(s, t, op))
  {
    hide Resolve, Clean, Retraced, Stat;
    match op
    case DoResolve(api, p, now) =>
      if Hit(s, Clean(p)) { HitResolves(s, api, p, now); } else { ResolveRecords(s, api, t, p, now); }
    case DoList(api, p, now) =>
      if Hit(s, Clean(p)) { HitResolves(s, api, p, now); } else { ResolveRecords(s, api, t, p, now); }
    case DoStat(api, p, now) =>
      StatRecords(s, api, t, p, now);
  }

  // ----- events -----

  /** What a diff of folder `d` needs: its path, an old listing and its keyring. */
  predicate Diffable(s: State, d: LinkID) {
    LinkPath(s, d) != "" && LinkPath(s, d) in s.meta.lists && d in s.nodeKRs
  }

  /** An update lists the link itself again. */
  predicate OwnDiff(s: State, link: Link, api: Api) {
    Diffable(s, link.id) && api.list(s.calls, link.id).Ok?
  }

  function AfterOwn(s: State, link: Link): nat {
    if Diffable(s, link.id) then s.calls + 1 else s.calls
  }

  /** An update that does not list the link itself lists its folder again. */
  predicate ParentDiff(s: State, link: Link, api: Api) {
    Diffable(s, link.parent) && api.list(AfterOwn(s, link), link.parent).Ok?
  }

  function AfterBoth(s: State, link: Link): nat {
    if Diffable(s, link.parent) then AfterOwn(s, link) + 1 else AfterOwn(s, link)
  }

  /** An update that lists neither finds the link in the trash. */
  predicate FoundGone(s: State, link: Link, api: Api) {
    var reply := api.getLink(AfterBoth(s, link), link.id);
    LinkPath(s, link.id) != "" && reply.Ok? && (reply.value.state == StateTrashed || reply.value.state == StateDeleted)
  }

  /** The parent's path and keyring are known, so a create event looks for the name. */
  predicate Nameable(s: State, link: Link) {
    LinkPath(s, link.parent) != "" && link.parent in s.nodeKRs
  }

  /** The name a create event finds for its link. */
  function NewName(s: State, link: Link, api: Api): Option<string> {
    if !Nameable(s, link) then None
    else
      var name := CreatedName(s, link, s.nodeKRs[link.parent], api).1;
      if name == Some("") then None else name
  }

  function AfterName(s: State, link: Link): nat {
    if Nameable(s, link) && GetName(link, s.nodeKRs[link.parent]).None? then s.calls + 1 else s.calls
  }

  /** A create event without a name lists the folder again. */
  predicate CreateDiff(s: State, link: Link, api: Api) {
    Diffable(s, link.parent) && api.list(AfterName(s, link), link.parent).Ok?
  }

  function AtCall(ps: PollerState, call: nat): PollerState {
    ps.(session := ps.session.(calls := call))
  }

  /** The diff of folder `d` against the listing that `s` holds, as request `call`. */
  function DiffOf(s: State, ps: PollerState, d: LinkID, call: nat, api: Api, now: nat): PollerState
    requires Diffable(s, d)
  {
    Diff(AtCall(ps, call), api, LinkPath(s, d), d, s.nodeKRs[d], s.meta.lists[LinkPath(s, d)].listing.links, now).0
  }

  lemma DiffIfDiffable(s: State, ps: PollerState, d: LinkID, api: Api, now: nat)
    requires ps.session.nodeKRs == s.nodeKRs
    ensures var (ps', done) := DiffIfKnown(ps, api, LinkPath(s, d), d, Lookup(s.meta.lists, LinkPath(s, d)), now);
            && (done <==> Diffable(s, d) && api.list(ps.session.calls, d).Ok?)
            && (done ==> ps' == DiffOf(s, ps, d, ps.session.calls, api, now))
            && (!done ==> ps' == AtCall(ps, if Diffable(s, d) then ps.session.calls + 1 else ps.session.calls))
  {
    assert AtCall(ps, ps.session.calls) == ps;
  }

  /** The three outcomes of an update event, decided by the state before it. */
  function UpdateOutcome(ps: PollerState, link: Link, api: Api, now: nat): PollerState {
    var s, ps1 := ps.session, UpdateStart(ps, link, api);
    if OwnDiff(s, link, api) then DiffOf(s, ps1, link.id, s.calls, api, now)
    else if ParentDiff(s, link, api) then DiffOf(s, ps1, link.parent, AfterOwn(s, link), api, now)
    else UpdateFallback(AtCall(ps1, AfterBoth(s, link)), link, LinkPath(s, link.id), LinkPath(s, link.parent), api)
  }

  lemma {:induction false} UpdateBranches(ps: PollerState, link: Link, api: Api, now: nat)
    ensures HandleUpdate(ps, link, api, now) == UpdateOutcome(ps, link, api, now)
  {
    hide DiffIfKnown, UpdateFallback, Diff;
    var s, ps1 := ps.session, UpdateStart(ps, link, api);
    StartKeepsKeys(ps, link, api);
    DiffIfDiffable(s, ps1, link.id, api, now);
    var ps2 := AtCall(ps1, AfterOwn(s, link));
    DiffIfDiffable(s, ps2, link.parent, api, now);
  }

  lemma StartKeepsKeys(ps: PollerState, link: Link, api: Api)
    ensures var s, s1 := ps.session, UpdateStart(ps, link, api).session;
            s1.nodeKRs == s.nodeKRs && s1.calls == s.calls && s1.linkPaths == s.linkPaths && s1.root == s.root
  {
  }

  /** The outcomes of a create event, decided by the state before it. */
  function CreateOutcome(ps: PollerState, link: Link, api: Api, now: nat): PollerState {
    var s, ps1 := ps.session, ps.(session := CreateStart(ps.session, link, api));
    if NewName(s, link, api).Some? then
      var child := ChildPath(LinkPath(s, link.parent), NewName(s, link, api).value);
      var ps2 := AtCall(ps1, AfterName(s, link));
      Emitted(ps2.(session := ps2.session.(linkPaths := s.linkPaths[link.id := child])), Created, link.id, child)
    else if CreateDiff(s, link, api) then DiffOf(s, ps1, link.parent, AfterName(s, link), api, now)
    else if LinkPath(s, link.parent) != "" then
      var call := if Diffable(s, link.parent) then AfterName(s, link) + 1 else AfterName(s, link);
      Emitted(AtCall(ps1, call), Changed, link.id, LinkPath(s, link.parent))
    else ps1
  }

  lemma {:induction false} CreateBranches(ps: PollerState, link: Link, api: Api, now: nat)
    ensures HandleCreate(ps, link, api, now) == CreateOutcome(ps, link, api, now)
  {
    hide DiffIfKnown, Diff, ChildPath, InvalidatePath, InvalidateLink;
    var s := ps.session;
    var ps1 := ps.(session := CreateStart(s, link, api));
    CreateStartKeepsKeys(s, link, api);
    DiffIfDiffable(s, ps1, link.parent, api, now);
    DiffIfDiffable(s, AtCall(ps1, AfterName(s, link)), link.parent, api, now);
  }

  lemma CreateStartKeepsKeys(s: State, link: Link, api: Api)
    ensures var s1 := CreateStart(s, link, api);
            s1.nodeKRs == s.nodeKRs && s1.calls == s.calls && s1.linkPaths == s.linkPaths && s1.root == s.root
  {
  }

  /** The reverse map after a diff of folder `d`: each named child is recorded below it. */
  ghost function Noted(s: State, t: Tree, d: LinkID): map<LinkID, string> {
    s.linkPaths + map y | y in t.links && t.links[y].parent == d && t.links[y].name.Some? ::
                    ChildPath(LinkPath(s, d), t.links[y].name.value)
  }

  /** The reverse map after an event. */
  ghost function HandledRecords(s: State, t: Tree, ev: LinkEvent, api: Api): map<LinkID, string> {
    match ev.kind
    case Delete => s.linkPaths
    case Create =>
      if NewName(s, ev.link, api).Some?
      then s.linkPaths[ev.link.id := ChildPath(LinkPath(s, ev.link.parent), NewName(s, ev.link, api).value)]
      else if CreateDiff(s, ev.link, api) then Noted(s, t, ev.link.parent)
      else s.linkPaths
    case Update =>
      if OwnDiff(s, ev.link, api) then Noted(s, t, ev.link.id)
      else if ParentDiff(s, ev.link, api) then Noted(s, t, ev.link.parent)
      else if FoundGone(s, ev.link, api) then s.linkPaths - {ev.link.id}
      else s.linkPaths
  }

  lemma {:induction false} NotePathsElsewhere(links: map<LinkID, string>, dir: string, ls: seq<Link>, kr: KeyRing,
      y: LinkID)
    requires forall l | l in ls && GetName(l, kr).Some? :: l.id != y
    ensures Lookup(NotePaths(links, dir, ls, kr), y) == Lookup(links, y)
    decreases |ls|
  {
    if ls != [] {
      assert forall l | l in ls[..|ls| - 1] :: l in ls;
      NotePathsElsewhere(links, dir, ls[..|ls| - 1], kr, y);
      assert ls[|ls| - 1] in ls;
    }
  }

  /** A diff records exactly the named children the tree gives the folder. */
  lemma NotePathsAreNoted(s: State, t: Tree, d: LinkID, ls: seq<Link>)
    requires WellFormed(t) && IsListing(t, d, ls)
    ensures NotePaths(s.linkPaths, LinkPath(s, d), ls, NodeKey(d)) == Noted(s, t, d)
  {
    hide ChildPath;
    var kr, dir := NodeKey(d), LinkPath(s, d);
    var m, n := NotePaths(s.linkPaths, dir, ls, kr), Noted(s, t, d);
    NotePathsAre(s.linkPaths, dir, ls, kr);
    forall y
      ensures Lookup(m, y) == Lookup(n, y)
    {
      if y in t.links && t.links[y].parent == d && t.links[y].name.Some? {
        assert t.links[y] in ls;
      } else {
        NotePathsElsewhere(s.linkPaths, dir, ls, kr, y);
      }
    }
    assert forall y :: y in m <==> Lookup(m, y).Some?;
    assert forall y :: y in n <==> Lookup(n, y).Some?;
    assert forall y | y in m :: Lookup(m, y) == Some(m[y]) && Lookup(n, y) == Some(n[y]);
  }

  lemma DiffRecords(s: State, ps: PollerState, t: Tree, d: LinkID, call: nat, api: Api, now: nat)
    requires WellFormed(t) && Faithful(api, t) && KeysRight(s) && ps.session.linkPaths == s.linkPaths
    requires Diffable(s, d) && api.list(call, d).Ok?
    ensures DiffOf(s, ps, d, call, api, now).session.linkPaths == Noted(s, t, d)
  {
    assert IsListing(t, d, api.list(call, d).value);
    NotePathsAreNoted(s, t, d, api.list(call, d).value);
  }

  /** What an event leaves in the reverse map. */
  lemma {:induction false} EventRecords(ps: PollerState, ev: LinkEvent, api: Api, t: Tree, now: nat)
    requires WellFormed(t) && Faithful(api, t) && KeysRight(ps.session)
    ensures Handled(ps, ev, api, now).session.linkPaths == HandledRecords(ps.session, t, ev, api)
  {
    hide ChildPath, Noted, Diff, NewName, DiffOf, Diffable, HandleUpdate, HandleCreate, UpdateStart, CreateStart,
      Faithful;
    var s, link := ps.session, ev.link;
    match ev.kind
    case Delete =>
    case Create =>
      CreateBranches(ps, link, api, now);
      CreateStartKeepsKeys(s, link, api);
      if CreateDiff(s, link, api) {
        DiffRecords(s, ps.(session := CreateStart(s, link, api)), t, link.parent, AfterName(s, link), api, now);
      }
    case Update =>
      UpdateBranches(ps, link, api, now);
      StartKeepsKeys(ps, link, api);
      var ps1 := UpdateStart(ps, link, api);
      if OwnDiff(s, link, api) {
        DiffRecords(s, ps1, t, link.id, s.calls, api, now);
      } else if ParentDiff(s, link, api) {
        DiffRecords(s, ps1, t, link.parent, AfterOwn(s, link), api, now);
      }
  }

  // ----- the whole session after an event -----

  /** What an event drops before it sends any request. */
  function Dropped(s: State, ev: LinkEvent, api: Api): State {
    match ev.kind
    case Delete =>
      var path := LinkPath(s, ev.link.id);
      var s1 := InvalidatePath(s, path);
      if path == "" then InvalidateLink(s1, ev.link.parent, api) else s1
    case Create => CreateStart(s, ev.link, api)
    case Update => Invalidated(s, ev.link, api)
  }

  /** The folder an event lists again, if any, and the number of that request. */
  function Relisted(s: State, ev: LinkEvent, api: Api): (r: Option<(LinkID, nat)>)
    ensures r.Some? ==> Diffable(s, r.value.0) && api.list(r.value.1, r.value.0).Ok? && r.value.1 >= s.calls
  {
    match ev.kind
    case Delete => None
    case Create =>
      if NewName(s, ev.link, api).None? && CreateDiff(s, ev.link, api)
      then Some((ev.link.parent, AfterName(s, ev.link))) else None
    case Update =>
      if OwnDiff(s, ev.link, api) then Some((ev.link.id, s.calls))
      else if ParentDiff(s, ev.link, api) then Some((ev.link.parent, AfterOwn(s, ev.link)))
      else None
  }

  /** How many requests have been sent after an event. */
  function CallsAfter(s: State, ev: LinkEvent, api: Api): nat {
    match ev.kind
    case Delete => s.calls
    case Create =>
      if NewName(s, ev.link, api).None? && Diffable(s, ev.link.parent)
      then AfterName(s, ev.link) + 1 else AfterName(s, ev.link)
    case Update =>
      if OwnDiff(s, ev.link, api) then s.calls + 1
      else if ParentDiff(s, ev.link, api) then AfterOwn(s, ev.link) + 1
      else if LinkPath(s, ev.link.id) != "" then AfterBoth(s, ev.link) + 1
      else AfterBoth(s, ev.link)
  }

  /** The metadata after an event: what it drops is gone, the folder it lists again has its new listing. */
  function MetaAfter(s: State, ev: LinkEvent, api: Api, now: nat): Meta {
    var m := Dropped(s, ev, api).meta;
    match Relisted(s, ev, api)
    case None => m
    case Some((d, call)) =>
      PutList(m, LinkPath(s, d), Listing(api.list(call, d).value, Fetch(call, now)), s.nodeKRs[d], now)
  }

  /** The session with what an event drops, fetches and counts; the reverse map is left open. */
  function Restocked(s: State, links: map<LinkID, string>, ev: LinkEvent, api: Api, now: nat): State {
    Dropped(s, ev, api).(linkPaths := links, calls := CallsAfter(s, ev, api), meta := MetaAfter(s, ev, api, now))
  }

  /** The session after an event, read off the session before it and the tree. */
  ghost function Foreseen(s: State, t: Tree, ev: LinkEvent, api: Api, now: nat): State {
    Restocked(s, HandledRecords(s, t, ev, api), ev, api, now)
  }

  lemma DeleteRestocks(ps: PollerState, link: Link, api: Api, now: nat)
    ensures var s' := HandleDelete(ps, link, api).session;
            s' == Restocked(ps.session, s'.linkPaths, LinkEvent(Delete, link), api, now)
  {
  }

  lemma {:induction false} CreateRestocks(ps: PollerState, link: Link, api: Api, now: nat)
    ensures var s' := HandleCreate(ps, link, api, now).session;
            s' == Restocked(ps.session, s'.linkPaths, LinkEvent(Create, link), api, now)
  {
    hide ChildPath, NewName, HandleCreate, CreateStart, NotePaths, DiffEvents;
    CreateBranches(ps, link, api, now);
    CreateStartKeepsKeys(ps.session, link, api);
  }

  lemma {:induction false} UpdateRestocks(ps: PollerState, link: Link, api: Api, now: nat)
    ensures var s' := HandleUpdate(ps, link, api, now).session;
            s' == Restocked(ps.session, s'.linkPaths, LinkEvent(Update, link), api, now)
  {
    hide HandleUpdate, Invalidated, NotePaths, DiffEvents;
    UpdateBranches(ps, link, api, now);
    StartKeepsKeys(ps, link, api);
  }

  /** What an event does to the metadata, the request count and the forward map, whatever the server answers. */
  lemma {:induction false} EventRestocks(ps: PollerState, ev: LinkEvent, api: Api, now: nat)
    ensures var s' := Handled(ps, ev, api, now).session;
            s' == Restocked(ps.session, s'.linkPaths, ev, api, now)
  {
    hide HandleCreate, HandleUpdate, HandleDelete, Restocked;
    match ev.kind
    case Delete => DeleteRestocks(ps, ev.link, api, now);
    case Create => CreateRestocks(ps, ev.link, api, now);
    case Update => UpdateRestocks(ps, ev.link, api, now);
  }

  lemma EventLeaves(ps: PollerState, ev: LinkEvent, api: Api, t: Tree, now: nat)
    requires WellFormed(t) && Faithful(api, t) && KeysRight(ps.session)
    ensures Handled(ps, ev, api, now).session == Foreseen(ps.session, t, ev, api, now)
  {
    hide HandledRecords, Faithful, WellFormed, Handled, Dropped, CallsAfter, MetaAfter;
    EventRestocks(ps, ev, api, now);
    EventRecords(ps, ev, api, t, now);
  }
}
