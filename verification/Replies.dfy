/**
 * Exactly what each lookup answers against an unchanging tree: which failure
 * surfaces and as which error, when a cached entry is served instead, and that
 * whatever can be found is found.
 */
module Replies {
  import opened Outcome
  import opened Paths
  import opened Remote
  import opened Metadata
  import opened Sessions
  import opened PathCache
  import opened Records
  import opened Answers
  import Freshness

  // ----- resolving a path -----

  /**
   * The first thing that goes wrong on the way down: a listing that fails, a
   * name that is not there, a node key that does not decrypt.
   */
  ghost function WalkError(t: Tree, api: Api, calls: nat, parts: seq<string>, done: nat, id: LinkID): Option<Error>
    requires done <= |parts|
    decreases |parts| - done
  {
    if done == |parts| then None
    else if api.list(calls, id).Fail? then Some(api.list(calls, id).error)
    else
      match ChildNamed(t, id, parts[done])
      case None => Some(NotFound)
      case Some(y) => if t.links[y].unlockable then WalkError(t, api, calls + 1, parts, done + 1, y) else Some(Other)
  }

  lemma DescendReplies(s: State, api: Api, t: Tree, p: string, next: string, part: string, id: LinkID, now: nat)
    requires WellFormed(t) && Faithful(api, t)
    ensures var (s', r) := Descend(s, api, p, next, part, id, NodeKey(id), now);
            && s'.calls == s.calls + 1
            && r == match api.list(s.calls, id)
                    case Fail(e) => Fail(e)
                    case Ok(_) =>
                      match ChildNamed(t, id, part)
                      case None => Fail(NotFound)
                      case Some(y) => if t.links[y].unlockable then Ok((y, NodeKey(y))) else Fail(Other)
  {
    if api.list(s.calls, id).Ok? {
      assert IsListing(t, id, api.list(s.calls, id).value);
      FindsChild(t, id, api.list(s.calls, id).value, part);
    }
  }

  lemma {:induction false} WalkReplies(s: State, api: Api, t: Tree, parts: seq<string>, done: nat, id: LinkID, now: nat)
    requires WellFormed(t) && Faithful(api, t) && done <= |parts| && Reaches(t, parts[..done], id)
    ensures var (s', r) := Walk(s, api, parts, done, id, NodeKey(id), now);
            match WalkError(t, api, s.calls, parts, done, id)
            case Some(e) => r == Fail(e) && s'.calls > s.calls
            case None =>
              && r.Ok? && Reaches(t, parts, r.value.0) && r.value.1 == NodeKey(r.value.0)
              && s'.calls == s.calls + |parts| - done
    decreases |parts| - done
  {
    hide Descend, Faithful, WellFormed, Reaches, Render;
    if done == |parts| {
      assert parts[..done] == parts;
    } else {
      var c, part := parts[..done], parts[done];
      assert parts[..done + 1] == c + [part];
      DescendReplies(s, api, t, Render(c), Render(parts[..done + 1]), part, id, now);
      var (s1, r) := Descend(s, api, Render(c), Render(parts[..done + 1]), part, id, NodeKey(id), now);
      if r.Ok? {
        ReachesSnoc(t, c, part, r.value.0);
        WalkReplies(s1, api, t, parts, done + 1, r.value.0, now);
      }
    }
  }

  /** What keeps a path from being resolved, if anything does. */
  ghost function LookupError(s: State, t: Tree, api: Api, p: string): Option<Error> {
    if Hit(s, Clean(p)) then None
    else if !RootKeyed(s, api) then Some(api.rootKey(s.calls).error)
    else WalkError(t, api, FirstCall(s), SplitPath(p), 0, t.root)
  }

  /** The requests a successful lookup sends. */
  function CallsFor(s: State, p: string): nat {
    if Hit(s, Clean(p)) then s.calls
    else FirstCall(s) + |SplitPath(p)|
  }

  /** A lookup gives the link of the path, or exactly the first error on the way, and then not without a request. */
  lemma {:induction false} ResolveReplies(s: State, api: Api, t: Tree, p: string, now: nat)
    requires WellFormed(t) && AllGood(s, t) && Faithful(api, t)
    ensures var (s', r) := Resolve(s, api, p, now);
            match LookupError(s, t, api, p)
            case Some(e) => r == Fail(e) && s'.calls > s.calls
            case None =>
              && r.Ok? && Reaches(t, SplitPath(p), r.value.0) && r.value.1 == NodeKey(r.value.0)
              && s'.calls == CallsFor(s, p)
  {
    hide Render, Clean, WalkError, Walk, Reaches, NotMischarted;
    SplitPathAgain(p);
    SplitPathComponents(p);
    if Hit(s, Clean(p)) {
      assert Good(s, t, Clean(p));
    } else {
      SlowReplies(s, api, t, p, now);
    }
  }

  lemma SlowReplies(s: State, api: Api, t: Tree, p: string, now: nat)
    requires WellFormed(t) && KeysRight(s) && s.root == t.root && Faithful(api, t) && !Hit(s, Clean(p))
    ensures var (s', r) := Resolve(s, api, p, now);
            match LookupError(s, t, api, p)
            case Some(e) => r == Fail(e) && s'.calls > s.calls
            case None =>
              && r.Ok? && Reaches(t, SplitPath(p), r.value.0) && r.value.1 == NodeKey(r.value.0)
              && s'.calls == CallsFor(s, p)
  {
    hide Render, Clean, WalkError, Walk, SplitPath, Reaches, Resolve, Seeded;
    ReachesRoot(t);
    assert SplitPath(p)[..0] == [];
    SlowIsWalk(s, api, t, p, now);
    if RootKeyed(s, api) {
      WalkReplies(Seeded(s, api), api, t, SplitPath(p), 0, t.root, now);
    }
  }

  /** The state in which a slow lookup starts to walk. */
  function Seeded(s: State, api: Api): State {
    var s2 := RootKeyRing(s.(linkPaths := s.linkPaths[s.root := "/"]), api).0;
    s2.(pathLinks := s2.pathLinks["/" := s.root])
  }

  /** The number of the first listing request of a slow lookup. */
  function FirstCall(s: State): nat {
    if s.root in s.nodeKRs then s.calls else s.calls + 1
  }

  lemma SlowIsWalk(s: State, api: Api, t: Tree, p: string, now: nat)
    requires KeysRight(s) && s.root == t.root && Faithful(api, t) && !Hit(s, Clean(p))
    ensures !RootKeyed(s, api) ==>
      Resolve(s, api, p, now).1 == Fail(api.rootKey(s.calls).error) && Resolve(s, api, p, now).0.calls == s.calls + 1
    ensures RootKeyed(s, api) ==>
      && Seeded(s, api).calls == FirstCall(s)
      && Resolve(s, api, p, now) == Walk(Seeded(s, api), api, SplitPath(p), 0, t.root, NodeKey(t.root), now)
  {
    hide Clean, Walk, SplitPath;
    SplitPathAgain(p);
  }

  // ----- the listings a lookup leaves, also when it fails -----

  lemma {:induction false} WalkSpares(s: State, api: Api, parts: seq<string>, done: nat, id: LinkID, kr: KeyRing,
      now: nat, p: string)
    requires done <= |parts| && forall k | done <= k < |parts| :: Render(parts[..k]) != p
    ensures Lookup(Walk(s, api, parts, done, id, kr, now).0.meta.lists, p) == Lookup(s.meta.lists, p)
    decreases |parts| - done
  {
    hide Render;
    if done < |parts| {
      assert Render(parts[..done]) != p;
      var (s1, r) := Descend(s, api, Render(parts[..done]), Render(parts[..done + 1]), parts[done], id, kr, now);
      if r.Ok? {
        WalkSpares(s1, api, parts, done + 1, r.value.0, r.value.1, now, p);
      }
    }
  }

  lemma DescendLists(s: State, api: Api, p: string, next: string, part: string, id: LinkID, kr: KeyRing, now: nat)
    ensures var lists := Descend(s, api, p, next, part, id, kr, now).0.meta.lists;
            api.list(s.calls, id).Ok? ==>
              Lookup(lists, p) == Some(ListEntry(Listing(api.list(s.calls, id).value, Fetch(s.calls, now)), kr, now))
  {
  }

  /** The listing of the folder a walk starts in stays to its end. */
  lemma WalkListsFirst(s: State, api: Api, t: Tree, parts: seq<string>, done: nat, id: LinkID, now: nat)
    requires WellFormed(t) && Faithful(api, t) && AllNames(parts) && done < |parts|
    requires api.list(s.calls, id).Ok?
    ensures Lookup(Walk(s, api, parts, done, id, NodeKey(id), now).0.meta.lists, Render(parts[..done]))
            == Some(ListEntry(Listing(api.list(s.calls, id).value, Fetch(s.calls, now)), NodeKey(id), now))
  {
    hide Render, Descend, Faithful, WellFormed;
    var p, next := Render(parts[..done]), Render(parts[..done + 1]);
    DescendLists(s, api, p, next, parts[done], id, NodeKey(id), now);
    var (s1, r) := Descend(s, api, p, next, parts[done], id, NodeKey(id), now);
    if r.Ok? {
      forall j | done + 1 <= j < |parts|
        ensures Render(parts[..j]) != p
      {
        if Render(parts[..j]) == p {
          RenderInjective(parts[..j], parts[..done]);
        }
      }
      WalkSpares(s1, api, parts, done + 1, r.value.0, r.value.1, now, p);
    }
  }

  /** Level `k` of a walk that gets that far, and whose listing succeeds, is left with that listing. */
  lemma {:induction false} WalkLists(s: State, api: Api, t: Tree, parts: seq<string>, done: nat, id: LinkID, now: nat,
      k: nat, y: LinkID)
    requires WellFormed(t) && Faithful(api, t) && AllNames(parts) && done <= k < |parts|
    requires Reaches(t, parts[..done], id) && Reaches(t, parts[..k], y)
    requires k <= Depth(t, api, s.calls, parts, done, id) && api.list(s.calls + k - done, y).Ok?
    ensures var lists, call := Walk(s, api, parts, done, id, NodeKey(id), now).0.meta.lists, s.calls + k - done;
            Lookup(lists, Render(parts[..k]))
            == Some(ListEntry(Listing(api.list(call, y).value, Fetch(call, now)), NodeKey(y), now))
    decreases |parts| - done
  {
    hide Render, Descend, Faithful, Reaches, WellFormed;
    var c, part := parts[..done], parts[done];
    if k == done {
      TargetUnique(t, c, id, y);
      WalkListsFirst(s, api, t, parts, done, id, now);
    } else {
      assert parts[..done + 1] == c + [part];
      DescendReplies(s, api, t, Render(c), Render(parts[..done + 1]), part, id, now);
      var (s1, r) := Descend(s, api, Render(c), Render(parts[..done + 1]), part, id, NodeKey(id), now);
      ReachesSnoc(t, c, part, r.value.0);
      WalkLists(s1, api, t, parts, done + 1, r.value.0, now, k, y);
    }
  }

  /**
   * A slow lookup caches the listing of every folder it lists, at that folder's
   * path, also when it goes on to fail.
   */
  lemma {:induction false} ResolveLeavesListings(s: State, api: Api, t: Tree, p: string, now: nat, c: seq<string>,
      y: LinkID, ls: seq<Link>)
    requires WellFormed(t) && KeysRight(s) && s.root == t.root && Faithful(api, t)
    requires !Hit(s, Clean(p)) && RootKeyed(s, api) && c < SplitPath(p) && Reaches(t, c, y)
    requires |c| <= Depth(t, api, FirstCall(s), SplitPath(p), 0, t.root) && api.list(FirstCall(s) + |c|, y) == Ok(ls)
    ensures var entry := ListEntry(Listing(ls, Fetch(FirstCall(s) + |c|, now)), NodeKey(y), now);
            Lookup(Resolve(s, api, p, now).0.meta.lists, Render(c)) == Some(entry)
  {
    hide Render, Clean, Walk, SplitPath, Reaches, Depth, Faithful, Resolve, Seeded;
    SplitPathComponents(p);
    ReachesRoot(t);
    assert SplitPath(p)[..0] == [] && SplitPath(p)[..|c|] == c;
    SlowIsWalk(s, api, t, p, now);
    WalkLists(Seeded(s, api), api, t, SplitPath(p), 0, t.root, now, |c|, y);
  }

  // ----- ListChildren -----

  /** What keeps `p` from being listed anew, if anything does. */
  ghost function ListError(s: State, t: Tree, api: Api, p: string): Option<Error> {
    match LookupError(s, t, api, p)
    case Some(e) => Some(e)
    case None =>
      match LinkAt(t, SplitPath(p))
      case None => None
      case Some(y) => if api.list(CallsFor(s, p), y).Fail? then Some(api.list(CallsFor(s, p), y).error) else None
  }

  /** The listing cached for `p`, whatever its age. */
  function CachedList(s: State, p: string): (Listing, KeyRing)
    requires p in s.meta.lists
  {
    (s.meta.lists[p].listing, s.meta.lists[p].parentKR)
  }

  /**
   * `ListChildren` answers from a fresh entry if there is one. Otherwise it
   * gives a listing fetched by this call, unless something goes wrong: then the
   * cached entry if what went wrong is being offline, and else that error.
   */
  lemma {:induction false} ListReplies(s: State, api: Api, t: Tree, p: string, now: nat)
    requires WellFormed(t) && AllGood(s, t) && Faithful(api, t)
    ensures var r := List(s, api, p, now).1;
            if FreshList(s.meta, p, now).Some? then r == Ok(CachedList(s, p))
            else
              match ListError(s, t, api, p)
              case None =>
                r.Ok? && r.value.0.asOf == Fetch(CallsFor(s, p), now) && ListsPath(t, p, r.value.0.links, r.value.1)
              case Some(e) => r == if e == Offline && p in s.meta.lists then Ok(CachedList(s, p)) else Fail(e)
  {
    hide Resolve, Clean, SplitPath, Reaches, LookupError, CallsFor;
    if FreshList(s.meta, p, now).None? {
      ResolveReplies(s, api, t, p, now);
      Freshness.ResolveKeepsOwnListing(s, api, p, now);
      var (s1, r1) := Resolve(s, api, p, now);
      assert Lookup(s1.meta.lists, p) == Lookup(s.meta.lists, p);
      if r1.Ok? {
        TargetUnique(t, SplitPath(p), r1.value.0, LinkAt(t, SplitPath(p)).value);
        if api.list(s1.calls, r1.value.0).Ok? {
          assert IsListing(t, r1.value.0, api.list(s1.calls, r1.value.0).value);
        }
      }
    }
  }

  // ----- Stat -----

  /** What keeps the stat of a clean path from being looked up anew, if anything does. */
  ghost function StatError(s: State, t: Tree, api: Api, p: string, now: nat): Option<Error> {
    if p == "/" then
      if api.getLink(s.calls, s.root).Fail? then Some(api.getLink(s.calls, s.root).error)
      else if s.root in s.nodeKRs || api.rootKey(s.calls + 1).Ok? then None
      else Some(api.rootKey(s.calls + 1).error)
    else if LookupError(s, t, api, Dir(p)).Some? then LookupError(s, t, api, Dir(p))
    else
      match ListError(s, t, api, Dir(p))
      case Some(e) =>
        if FreshList(s.meta, Dir(p), now).None? && !(e == Offline && Dir(p) in s.meta.lists) then Some(e)
        else NameError(t, p)
      case None => NameError(t, p)
  }

  /** The parent's listing has the name, or it has not. */
  ghost function NameError(t: Tree, p: string): Option<Error> {
    match LinkAt(t, SplitPath(p))
    case None => Some(NotFound)
    case Some(_) => None
  }

  /** The stat cached for `p`, whatever its age. */
  function CachedStat(s: State, p: string): Found
    requires p in s.meta.stats
  {
    Found(s.meta.stats[p].link, s.meta.stats[p].parentKR, s.meta.stats[p].asOf)
  }

  /** A path and its last component. */
  lemma LastComponent(p: string) returns (c: seq<string>, n: string)
    requires IsClean(p) && p != "/"
    ensures AllNames(c) && IsName(n) && SplitPath(p) == c + [n] && SplitPath(Dir(p)) == c && Base(p) == n
    ensures Clean(Dir(p)) == Dir(p)
  {
    hide Render, Dir, Base, Clean;
    CleanPathShape(p);
    var d := SplitPath(p);
    if d == [] {
      RootIsPath(Tree("", map[]));
      assert false;
    }
    c, n := d[..|d| - 1], d[|d| - 1];
    assert d == c + [n];
    DirBaseOfChild(c, n);
    RenderInverse(c);
    CleanPathShape(Render(c));
  }

  /** The listing of the folder has the name exactly if the tree has the path. */
  lemma NamedIffThere(t: Tree, p: string, y: LinkID, links: seq<Link>)
    requires WellFormed(t) && IsClean(p) && p != "/"
    requires Reaches(t, SplitPath(Dir(p)), y) && ListsPath(t, Dir(p), links, NodeKey(y))
    ensures FindNamed(links, NodeKey(y), Base(p)).Some? <==> NameError(t, p).None?
  {
    hide Dir, Base, Clean, SplitPath;
    var c, n := LastComponent(p);
    var z :| Reaches(t, SplitPath(Dir(p)), z) && IsListing(t, z, links) && NodeKey(y) == NodeKey(z);
    var l := LinkAt(t, c + [n]);
    if l.Some? {
      assert (c + [n])[..|c|] == c;
      TargetUnique(t, c, y, t.links[l.value].parent);
      assert t.links[l.value] in links;
    }
    var found := FindNamed(links, NodeKey(y), n);
    if found.Some? {
      ReachesSnoc(t, c, n, found.value.id);
    }
  }

  lemma {:induction false} WalkKeepsStats(s: State, api: Api, parts: seq<string>, done: nat, id: LinkID, kr: KeyRing,
      now: nat)
    requires done <= |parts|
    ensures Walk(s, api, parts, done, id, kr, now).0.meta.stats == s.meta.stats
    decreases |parts| - done
  {
    hide Render;
    if done < |parts| {
      var (s1, r) := Descend(s, api, Render(parts[..done]), Render(parts[..done + 1]), parts[done], id, kr, now);
      if r.Ok? {
        WalkKeepsStats(s1, api, parts, done + 1, r.value.0, r.value.1, now);
      }
    }
  }

  lemma ResolveKeepsStats(s: State, api: Api, p: string, now: nat)
    ensures Resolve(s, api, p, now).0.meta.stats == s.meta.stats
  {
    hide Walk, Clean, SplitPath;
    if !Hit(s, Clean(p)) {
      var s1 := s.(linkPaths := s.linkPaths[s.root := "/"]);
      var (s2, r) := RootKeyRing(s1, api);
      if r.Ok? {
        var s3 := s2.(pathLinks := s2.pathLinks["/" := s.root]);
        WalkKeepsStats(s3, api, SplitPath(Clean(p)), 0, s.root, r.value, now);
      }
    }
  }

  lemma {:induction false} StatUncachedKeepsStats(s: State, api: Api, p: string, now: nat)
    ensures StatUncached(s, api, p, now).0.meta.stats == s.meta.stats
  {
    hide Resolve, Clean, Dir, Base, StaleListOr, FreshList, FindNamed;
    if p != "/" {
      ResolveKeepsStats(s, api, Dir(Clean(p)), now);
      var s1 := Resolve(s, api, Dir(Clean(p)), now).0;
      ResolveKeepsStats(s1, api, Dir(p), now);
    }
  }

  lemma {:induction false} StatUncachedReplies(s: State, api: Api, t: Tree, tops: iset<Link>, p: string, now: nat)
    requires Right(s, t, tops) && Faithful(api, t) && AnswersTop(api, t, tops) && IsClean(p)
    ensures var r := StatUncached(s, api, p, now).1;
            match StatError(s, t, api, p, now)
            case None => r.Ok? && IsAtPath(t, tops, p, r.value.link, r.value.parentKR)
            case Some(e) => r == Fail(e)
  {
    hide Resolve, List, Clean, SplitPath, Dir, Base, IsAtPath, ListsPath, Good, Reaches, LookupError, CallsFor,
      ListError, ListsRight, StatsRight, Faithful, WellFormed;
    CleanPathShape(p);
    if p == "/" {
      StatUncachedAnswers(s, api, t, tops, p, now);
      RootStatReplies(s, api, t, now);
    } else {
      var dir := Dir(p);
      ResolveReplies(s, api, t, dir, now);
      ResolveAnswers(s, api, t, tops, dir, now);
      var (s1, r1) := Resolve(s, api, dir, now);
      if r1.Ok? {
        SecondLookup(s, api, t, dir, now);
        ListReplies(s1, api, t, dir, now);
        ListAnswers(s1, api, t, tops, dir, now);
        var (s2, r2) := List(s1, api, dir, now);
        if r2.Ok? {
          SameKeyRing(t, dir, r1.value.0, r2.value.0.links, r2.value.1);
          NamedIffThere(t, p, r1.value.0, r2.value.0.links);
          var found := FindNamed(r2.value.0.links, r1.value.1, Base(p));
          if found.Some? {
            NamedIsAtPath(t, tops, p, r1.value.0, r2.value.0.links, found.value);
          }
        }
      }
    }
  }

  lemma RootStatReplies(s: State, api: Api, t: Tree, now: nat)
    requires s.root == t.root
    ensures var r := StatUncached(s, api, "/", now).1;
            match StatError(s, t, api, "/", now)
            case None => r.Ok?
            case Some(e) => r == Fail(e)
  {
  }

  /** Once the folder is resolved, listing it meets the same state of affairs. */
  lemma SecondLookup(s: State, api: Api, t: Tree, dir: string, now: nat)
    requires WellFormed(t) && AllGood(s, t) && Faithful(api, t) && LookupError(s, t, api, dir).None?
    ensures var s1 := Resolve(s, api, dir, now).0;
            && ListError(s1, t, api, dir) == ListError(s, t, api, dir)
            && Lookup(s1.meta.lists, dir) == Lookup(s.meta.lists, dir) && s1.meta.ttl == s.meta.ttl
            && s1.meta.stats == s.meta.stats
  {
    hide Resolve, Clean, SplitPath, Reaches, WalkError, RootKeyed, AllGood, Faithful, WellFormed;
    ResolveReplies(s, api, t, dir, now);
    ResolvedTwice(s, api, dir, now);
    Freshness.ResolveKeepsOwnListing(s, api, dir, now);
    Freshness.ResolveRefetches(s, api, dir, now);
    ResolveKeepsStats(s, api, dir, now);
  }

  /**
   * `Stat` answers from a fresh entry if there is one. Otherwise it gives the
   * link of the path, unless something goes wrong: then the cached entry if what
   * went wrong is being offline, and else that error.
   */
  lemma {:induction false} StatReplies(s: State, api: Api, t: Tree, tops: iset<Link>, path: string, now: nat)
    requires Right(s, t, tops) && Faithful(api, t) && AnswersTop(api, t, tops)
    ensures var p, r := Clean(path), Stat(s, api, path, now).1;
            if FreshStat(s.meta, p, now).Some? then r == Ok(CachedStat(s, p))
            else
              match StatError(s, t, api, p, now)
              case None => r.Ok? && IsAtPath(t, tops, p, r.value.link, r.value.parentKR)
              case Some(e) => r == if e == Offline && p in s.meta.stats then Ok(CachedStat(s, p)) else Fail(e)
  {
    hide StatUncached, Clean, StatError, IsAtPath, Right, Faithful;
    var p := Clean(path);
    SplitPathComponents(path);
    StatUncachedKeepsStats(s, api, p, now);
    StatUncachedReplies(s, api, t, tops, p, now);
  }

  // ----- whatever can be found is found -----

  /** The server answers every request. */
  ghost predicate AnswersAll(api: Api, t: Tree) {
    NeverFails(api) && forall k :: api.getLink(k, t.root).Ok?
  }

  /** `Stat` finds the root and every path whose folder can be read, whatever is cached, expired or fresh. */
  lemma {:induction false} StatFinds(s: State, api: Api, t: Tree, tops: iset<Link>, path: string, y: LinkID, now: nat)
    requires Right(s, t, tops) && Faithful(api, t) && AnswersTop(api, t, tops) && AnswersAll(api, t)
    requires Reaches(t, SplitPath(path), y) && (y != t.root ==> FolderReadable(t, SplitPath(path), y))
    ensures var r := Stat(s, api, path, now).1;
            && r.Ok?
            && if y == t.root then r.value.link in tops && r.value.parentKR == NodeKey(t.root)
               else r.value.link == t.links[y] && r.value.parentKR == NodeKey(t.links[y].parent)
  {
    hide Stat, Clean, SplitPath, StatError, AllGood, ListsRight, StatsRight, LookupError, ListError, FreshStat;
    StatReplies(s, api, t, tops, path, now);
    StatAnswers(s, api, t, tops, path, now);
    SplitPathComponents(path);
    SplitPathAgain(path);
    AtRootIff(t, path, y);
    NothingMissing(s, api, t, tops, Clean(path), y, now);
    FreshIsCached(s, Clean(path), now);
    if y != t.root {
      OnlyAtPath(t, tops, Clean(path), y, Stat(s, api, path, now).1);
    }
  }

  /** Every node key above `y` decrypts. */
  ghost predicate FolderReadable(t: Tree, c: seq<string>, y: LinkID)
    requires Reaches(t, c, y)
  {
    c == [] || Unlockable(t, c[..|c| - 1], t.links[y].parent)
  }

  lemma FreshIsCached(s: State, p: string, now: nat)
    ensures FreshStat(s.meta, p, now).Some? ==> p in s.meta.stats
  {
  }

  lemma AtRootIff(t: Tree, path: string, y: LinkID)
    requires WellFormed(t) && Reaches(t, SplitPath(path), y)
    ensures y == t.root <==> Clean(path) == "/"
  {
    hide Clean, Render;
    SplitPathComponents(path);
    RootIsPath(t);
    ReachesRoot(t);
    SplitPathAgain(path);
    if y == t.root {
      PathUnique(t, SplitPath(path), [], y);
    }
  }

  lemma OnlyAtPath(t: Tree, tops: iset<Link>, p: string, y: LinkID, r: Result<Found>)
    requires WellFormed(t) && p != "/" && Reaches(t, SplitPath(p), y) && y in t.links
    requires r.Ok? ==> IsAtPath(t, tops, p, r.value.link, r.value.parentKR)
    ensures r.Ok? ==> r.value.link == t.links[y] && r.value.parentKR == NodeKey(t.links[y].parent)
  {
    hide SplitPath;
    if r.Ok? {
      TargetUnique(t, SplitPath(p), y, r.value.link.id);
    }
  }

  lemma {:induction false} NothingMissing(s: State, api: Api, t: Tree, tops: iset<Link>, p: string, y: LinkID, now: nat)
    requires Right(s, t, tops) && Faithful(api, t) && AnswersAll(api, t) && IsClean(p)
    requires Reaches(t, SplitPath(p), y) && (y != t.root ==> FolderReadable(t, SplitPath(p), y))
    ensures StatError(s, t, api, p, now).None?
  {
    hide Clean, SplitPath, LookupError, Dir, Base, CallsFor, Good, ListsRight, StatsRight, Faithful;
    if p != "/" {
      var c, n := LastComponent(p);
      assert (c + [n])[..|c|] == c && c + [n] != [];
      var d := t.links[y].parent;
      LookupFinds(s, api, t, Dir(p), d, now);
    }
  }

  lemma LookupFinds(s: State, api: Api, t: Tree, p: string, y: LinkID, now: nat)
    requires WellFormed(t) && AllGood(s, t) && Faithful(api, t) && NeverFails(api)
    requires Reaches(t, SplitPath(p), y) && Unlockable(t, SplitPath(p), y)
    ensures LookupError(s, t, api, p).None?
  {
    hide Clean, SplitPath, LookupError, Resolve, CallsFor, Reaches, Unlockable;
    ResolveFinds(s, api, t, p, y, now);
    ResolveReplies(s, api, t, p, now);
  }

  /** `ListChildren` lists every path whose keys decrypt, itself included. */
  lemma {:induction false} ListFinds(s: State, api: Api, t: Tree, tops: iset<Link>, p: string, y: LinkID, now: nat)
    requires Right(s, t, tops) && Faithful(api, t) && NeverFails(api)
    requires Reaches(t, SplitPath(p), y) && Unlockable(t, SplitPath(p), y)
    ensures var r := List(s, api, p, now).1;
            r.Ok? && IsListing(t, y, r.value.0.links) && r.value.1 == NodeKey(y)
  {
    hide List, Clean, SplitPath, LookupError, Resolve, CallsFor, Reaches;
    ListReplies(s, api, t, p, now);
    ListAnswers(s, api, t, tops, p, now);
    LookupFinds(s, api, t, p, y, now);
    var r := List(s, api, p, now).1;
    var z :| Reaches(t, SplitPath(p), z) && IsListing(t, z, r.value.0.links) && r.value.1 == NodeKey(z);
    TargetUnique(t, SplitPath(p), y, z);
  }

  /** So it is after any lookups and invalidations, with any failures, when the server answers again. */
  lemma EverythingIsFound(root: LinkID, ttl: nat, ops: seq<Op>, t: Tree, tops: iset<Link>, api: Api, p: string,
      y: LinkID, now: nat)
    requires WellFormed(t) && t.root == root && AllFaithful(ops, t) && AllAnswerTop(ops, t, tops)
    requires Faithful(api, t) && AnswersTop(api, t, tops) && AnswersAll(api, t)
    requires Reaches(t, SplitPath(p), y) && Unlockable(t, SplitPath(p), y)
    ensures var s := Run(Initial(root, ttl), ops);
            var found, listed, stated := Resolve(s, api, p, now).1, List(s, api, p, now).1, Stat(s, api, p, now).1;
            && found == Ok((y, NodeKey(y)))
            && listed.Ok? && IsListing(t, y, listed.value.0.links)
            && stated.Ok? && (if y == root then stated.value.link in tops else stated.value.link == t.links[y])
  {
    hide Run, Resolve, List, Stat, SplitPath, Faithful;
    RunKeepsRight(Initial(root, ttl), ops, t, tops);
    var s := Run(Initial(root, ttl), ops);
    ResolveFinds(s, api, t, p, y, now);
    ListFinds(s, api, t, tops, p, y, now);
    StatFinds(s, api, t, tops, p, y, now);
  }

  // ----- with the network down -----

  /** Every request fails as being offline. */
  ghost predicate Down(api: Api) {
    && (forall k, id :: api.list(k, id) == Fail(Offline))
    && (forall k, id :: api.getLink(k, id) == Fail(Offline))
    && (forall k :: api.rootKey(k) == Fail(Offline))
  }

  /** What resolves without any request. */
  function Known(s: State, p: string): Option<Node> {
    if Hit(s, Clean(p)) then Some((s.pathLinks[Clean(p)], s.nodeKRs[s.pathLinks[Clean(p)]]))
    else if SplitPath(p) == [] && s.root in s.nodeKRs then Some((s.root, s.nodeKRs[s.root]))
    else None
  }

  lemma ResolveDown(s: State, api: Api, p: string, now: nat)
    requires Down(api)
    ensures var (s', r) := Resolve(s, api, p, now);
            && r == (match Known(s, p) case Some(node) => Ok(node) case None => Fail(Offline))
            && s'.meta == s.meta
  {
    hide Clean, SplitPath, Render;
    SplitPathAgain(p);
    if !Hit(s, Clean(p)) {
      var s1 := s.(linkPaths := s.linkPaths[s.root := "/"]);
      assert api.rootKey(s1.calls) == Fail(Offline);
      if s.root in s.nodeKRs {
        assert api.list(s1.calls, s.root) == Fail(Offline);
      }
    }
  }

  /** Offline, in any state whatever: a folder is listed if and only if some listing of it is cached, and as cached. */
  lemma ListDown(s: State, api: Api, p: string, now: nat)
    requires Down(api)
    ensures List(s, api, p, now).1 == if p in s.meta.lists then Ok(CachedList(s, p)) else Fail(Offline)
  {
    hide Resolve, Clean, SplitPath;
    ResolveDown(s, api, p, now);
    var (s1, r1) := Resolve(s, api, p, now);
    if r1.Ok? {
      assert api.list(s1.calls, r1.value.0) == Fail(Offline);
    }
  }

  /**
   * Offline, in any state: a stat comes from its own fresh entry, else from a
   * cached listing of a folder that needs no request, else from its own entry,
   * however old; and if none of these is there it fails as offline.
   */
  lemma {:induction false} StatDown(s: State, api: Api, path: string, now: nat)
    requires Down(api)
    ensures var p, r := Clean(path), Stat(s, api, path, now).1;
            if FreshStat(s.meta, p, now).Some? then r == Ok(CachedStat(s, p))
            else if p != "/" && Known(s, Dir(p)).Some? && Dir(p) in s.meta.lists then
              var e, kr := s.meta.lists[Dir(p)].listing, Known(s, Dir(p)).value.1;
              match FindNamed(e.links, kr, Base(p))
              case Some(l) => r == Ok(Found(l, kr, e.asOf))
              case None => r == Fail(NotFound)
            else r == if p in s.meta.stats then Ok(CachedStat(s, p)) else Fail(Offline)
  {
    hide Resolve, List, Clean, Dir, Base, Known, FindNamed;
    var p := Clean(path);
    SplitPathComponents(path);
    CleanPathShape(p);
    StatUncachedKeepsStats(s, api, p, now);
    if p == "/" {
      assert api.getLink(s.calls, s.root) == Fail(Offline);
    } else {
      ResolveDown(s, api, Dir(p), now);
      ListDown(Resolve(s, api, Dir(p), now).0, api, Dir(p), now);
    }
  }

  // ----- what else surfaces -----

  /**
   * If the server never fails as offline, nothing stale is served: a listing
   * that is not fresh was fetched by this very call.
   */
  ghost predicate NeverOffline(api: Api) {
    && (forall k, id :: api.list(k, id) != Fail(Offline))
    && (forall k, id :: api.getLink(k, id) != Fail(Offline))
    && (forall k :: api.rootKey(k) != Fail(Offline))
  }

  lemma {:induction false} WalkNotOffline(t: Tree, api: Api, calls: nat, parts: seq<string>, done: nat, id: LinkID)
    requires done <= |parts| && NeverOffline(api)
    ensures WalkError(t, api, calls, parts, done, id) != Some(Offline)
    decreases |parts| - done
  {
    if done < |parts| && api.list(calls, id).Ok? && ChildNamed(t, id, parts[done]).Some? {
      WalkNotOffline(t, api, calls + 1, parts, done + 1, ChildNamed(t, id, parts[done]).value);
    }
    assert api.list(calls, id) != Fail(Offline);
  }

  /** The only errors that are not the server's are a missing name and a key that does not decrypt. */
  lemma {:induction false} NothingStaleOnline(s: State, api: Api, t: Tree, tops: iset<Link>, p: string, now: nat)
    requires Right(s, t, tops) && Faithful(api, t) && AnswersTop(api, t, tops) && NeverOffline(api)
    ensures var r := List(s, api, p, now).1;
            && r != Fail(Offline)
            && (FreshList(s.meta, p, now).None? && r.Ok? ==> r.value.0.asOf == Fetch(CallsFor(s, p), now))
    ensures Stat(s, api, p, now).1 != Fail(Offline)
  {
    hide List, Stat, Clean, SplitPath, CallsFor, IsAtPath, ListsPath, WalkError;
    LookupNotOffline(s, t, api, p);
    LookupNotOffline(s, t, api, Dir(Clean(p)));
    ListReplies(s, api, t, p, now);
    StatReplies(s, api, t, tops, p, now);
    assert forall k, id :: api.list(k, id) != Fail(Offline);
    assert api.getLink(s.calls, s.root) != Fail(Offline) && api.rootKey(s.calls + 1) != Fail(Offline);
  }

  lemma LookupNotOffline(s: State, t: Tree, api: Api, p: string)
    requires NeverOffline(api)
    ensures LookupError(s, t, api, p) != Some(Offline)
  {
    hide Clean, SplitPath;
    WalkNotOffline(t, api, FirstCall(s), SplitPath(p), 0, t.root);
    assert api.rootKey(s.calls) != Fail(Offline);
  }

  // ----- requests that fail only as offline -----

  ghost predicate OfflineOnly(api: Api) {
    && (forall k, id :: api.list(k, id).Fail? ==> api.list(k, id).error == Offline)
    && (forall k, id :: api.getLink(k, id).Fail? ==> api.getLink(k, id).error == Offline)
    && (forall k :: api.rootKey(k).Fail? ==> api.rootKey(k).error == Offline)
  }

  lemma {:induction false} WalkOnlyOffline(t: Tree, api: Api, calls: nat, parts: seq<string>, done: nat, id: LinkID,
      y: LinkID)
    requires WellFormed(t) && OfflineOnly(api) && done <= |parts|
    requires Reaches(t, parts[..done], id) && Reaches(t, parts, y) && Unlockable(t, parts, y)
    ensures WalkError(t, api, calls, parts, done, id) in {None, Some(Offline)}
    decreases |parts| - done
  {
    if done < |parts| {
      var c := parts[..done + 1];
      var z := UnlockablePrefix(t, parts, y, done + 1);
      assert c[..done] == parts[..done] && c[|c| - 1] == parts[done];
      TargetUnique(t, parts[..done], id, t.links[z].parent);
      assert IsChild(t, id, parts[done], z);
      var child := ChildNamed(t, id, parts[done]).value;
      assert SameSlot(t.links[child], t.links[z]);
      WalkOnlyOffline(t, api, calls + 1, parts, done + 1, z, y);
    }
  }

  lemma LookupOnlyOffline(s: State, t: Tree, api: Api, p: string, y: LinkID)
    requires WellFormed(t) && OfflineOnly(api) && s.root == t.root
    requires Reaches(t, SplitPath(p), y) && Unlockable(t, SplitPath(p), y)
    ensures LookupError(s, t, api, p) in {None, Some(Offline)}
  {
    hide Clean, SplitPath, WalkError;
    ReachesRoot(t);
    assert SplitPath(p)[..0] == [];
    WalkOnlyOffline(t, api, FirstCall(s), SplitPath(p), 0, t.root, y);
  }

  /** While requests fail only as offline, a readable path once listed can always be listed. */
  lemma {:induction false} ListedStaysListed(s: State, api: Api, t: Tree, p: string, y: LinkID, now: nat)
    requires WellFormed(t) && AllGood(s, t) && Faithful(api, t) && OfflineOnly(api) && p in s.meta.lists
    requires Reaches(t, SplitPath(p), y) && Unlockable(t, SplitPath(p), y)
    ensures List(s, api, p, now).1.Ok?
  {
    hide List, Clean, SplitPath, LookupError, CallsFor, Faithful, WellFormed, Good;
    LookupOnlyOffline(s, t, api, p, y);
    ListReplies(s, api, t, p, now);
  }

  /** And a path whose stat was once taken can always be stat'ed. */
  lemma {:induction false} StattedStaysStatted(s: State, api: Api, t: Tree, tops: iset<Link>, path: string, y: LinkID,
      now: nat)
    requires Right(s, t, tops) && Faithful(api, t) && AnswersTop(api, t, tops) && OfflineOnly(api)
    requires Clean(path) in s.meta.stats
    requires Reaches(t, SplitPath(path), y) && (y != t.root ==> FolderReadable(t, SplitPath(path), y))
    ensures Stat(s, api, path, now).1.Ok?
  {
    hide Stat, Clean, SplitPath, LookupError, CallsFor, Faithful, Good, ListsRight, StatsRight, Dir, Reaches;
    StatReplies(s, api, t, tops, path, now);
    SplitPathComponents(path);
    SplitPathAgain(path);
    OnlyOfflineOrNone(s, api, t, Clean(path), y, now);
  }

  lemma {:induction false} OnlyOfflineOrNone(s: State, api: Api, t: Tree, p: string, y: LinkID, now: nat)
    requires WellFormed(t) && s.root == t.root && OfflineOnly(api) && IsClean(p)
    requires Reaches(t, SplitPath(p), y) && (y != t.root ==> FolderReadable(t, SplitPath(p), y))
    ensures StatError(s, t, api, p, now) in {None, Some(Offline)}
  {
    hide Clean, SplitPath, LookupError, CallsFor, Dir, Base;
    if p != "/" {
      var c, n := LastComponent(p);
      assert (c + [n])[..|c|] == c && c + [n] != [];
      LookupOnlyOffline(s, t, api, Dir(p), t.links[y].parent);
    }
  }
}
