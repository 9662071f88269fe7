/**
 * Path resolution and the cached metadata operations (helper/drive/session.go).
 *
 * Each operation is a function on the session's state; the class below carries
 * it out step by step and is proved to compute that function.
 */
module Sessions {
  import opened Outcome
  import opened Paths
  import opened Remote
  import opened Metadata

  /** `calls` counts the requests sent to the server so far. */
  datatype State = State(
    root: LinkID,
    pathLinks: map<string, LinkID>,
    linkPaths: map<LinkID, string>,
    nodeKRs: map<LinkID, KeyRing>,
    meta: Meta,
    calls: nat)

  type Node = (LinkID, KeyRing)

  /** A link, the keyring its name decrypts with, and the age of the data. */
  datatype Found = Found(link: Link, parentKR: KeyRing, asOf: Fetch)

  function Initial(root: LinkID, ttl: nat): State {
    State(root, map[], map[], map[], Meta(ttl, map[], map[]), 0)
  }

  /** `linkPath`: the empty string when the link was never visited. */
  function LinkPath(s: State, id: LinkID): string {
    if id in s.linkPaths then s.linkPaths[id] else ""
  }

  // ----- resolvePath -----

  /** Both halves of the fast path are present for `p`. */
  predicate Hit(s: State, p: string) {
    p in s.pathLinks && s.pathLinks[p] in s.nodeKRs
  }

  function RootKeyRing(s: State, api: Api): (State, Result<KeyRing>) {
    if s.root in s.nodeKRs then (s, Ok(s.nodeKRs[s.root]))
    else
      var s1 := s.(calls := s.calls + 1);
      match api.rootKey(s.calls)
      case Fail(e) => (s1, Fail(e))
      case Ok(kr) => (s1.(nodeKRs := s1.nodeKRs[s.root := kr]), Ok(kr))
  }

  /** List one folder on the way down and remember the listing. */
  function Fetched(s: State, p: string, ls: seq<Link>, kr: KeyRing, now: nat): State {
    s.(calls := s.calls + 1, meta := PutList(s.meta, p, Listing(ls, Fetch(s.calls, now)), kr, now))
  }

  /** Remember a child found on the way down. */
  function Learned(s: State, p: string, id: LinkID, kr: KeyRing): State {
    s.(nodeKRs := s.nodeKRs[id := kr], linkPaths := s.linkPaths[id := p], pathLinks := s.pathLinks[p := id])
  }

  /** One level down: list folder `id` at `p` and learn its child `part` at `next`. */
  function Descend(s: State, api: Api, p: string, next: string, part: string, id: LinkID, kr: KeyRing, now: nat)
    : (State, Result<Node>)
  {
    match api.list(s.calls, id)
    case Fail(e) => (s.(calls := s.calls + 1), Fail(e))
    case Ok(ls) =>
      var s1 := Fetched(s, p, ls, kr, now);
      match FindNamed(ls, kr, part)
      case None => (s1, Fail(NotFound))
      case Some(child) =>
        match GetKeyRing(child, kr)
        case None => (s1, Fail(Other))
        case Some(childKR) => (Learned(s1, next, child.id, childKR), Ok((child.id, childKR)))
  }

  /** Walk the remaining components; the first `done` of them led to `id`. */
  function Walk(s: State, api: Api, parts: seq<string>, done: nat, id: LinkID, kr: KeyRing, now: nat)
    : (State, Result<Node>)
    requires done <= |parts|
    decreases |parts| - done
  {
    if done == |parts| then (s, Ok((id, kr)))
    else
      var (s1, r) := Descend(s, api, Render(parts[..done]), Render(parts[..done + 1]), parts[done], id, kr, now);
      match r
      case Fail(e) => (s1, Fail(e))
      case Ok(child) => Walk(s1, api, parts, done + 1, child.0, child.1, now)
  }

  function WalkFromRoot(s: State, api: Api, p: string, now: nat): (State, Result<Node>) {
    var s1 := s.(linkPaths := s.linkPaths[s.root := "/"]);
    var (s2, r) := RootKeyRing(s1, api);
    match r
    case Fail(e) => (s2, Fail(e))
    case Ok(kr) =>
      Walk(s2.(pathLinks := s2.pathLinks["/" := s.root]), api, SplitPath(p), 0, s.root, kr, now)
  }

  function Resolve(s: State, api: Api, p: string, now: nat): (State, Result<Node>) {
    var q := Clean(p);
    if Hit(s, q) then (s, Ok((s.pathLinks[q], s.nodeKRs[s.pathLinks[q]])))
    else WalkFromRoot(s, api, q, now)
  }

  // ----- ListChildren and Stat -----

  function StaleListOr(s: State, p: string, e: Error): Result<(Listing, KeyRing)> {
    if e == Offline && p in s.meta.lists then Ok((s.meta.lists[p].listing, s.meta.lists[p].parentKR))
    else Fail(e)
  }

  function List(s: State, api: Api, p: string, now: nat): (State, Result<(Listing, KeyRing)>) {
    match FreshList(s.meta, p, now)
    case Some(e) => (s, Ok((e.listing, e.parentKR)))
    case None =>
      var (s1, r) := Resolve(s, api, p, now);
      match r
      case Fail(e) => (s1, StaleListOr(s1, p, e))
      case Ok(node) =>
        match api.list(s1.calls, node.0)
        case Fail(e) => (s1.(calls := s1.calls + 1), StaleListOr(s1, p, e))
        case Ok(ls) =>
          (Fetched(s1, p, ls, node.1, now), Ok((Listing(ls, Fetch(s1.calls, now)), node.1)))
  }

  function StatRoot(s: State, api: Api, now: nat): (State, Result<Found>) {
    var s1 := s.(calls := s.calls + 1);
    match api.getLink(s.calls, s.root)
    case Fail(e) => (s1, Fail(e))
    case Ok(link) =>
      var (s2, r) := RootKeyRing(s1, api);
      match r
      case Fail(e) => (s2, Fail(e))
      case Ok(kr) => (s2, Ok(Found(link, kr, Fetch(s.calls, now))))
  }

  function StatUncached(s: State, api: Api, p: string, now: nat): (State, Result<Found>) {
    if p == "/" then StatRoot(s, api, now)
    else
      var (s1, r1) := Resolve(s, api, Dir(Clean(p)), now);
      match r1
      case Fail(e) => (s1, Fail(e))
      case Ok(parent) =>
        var (s2, r2) := List(s1, api, Dir(p), now);
        match r2
        case Fail(e) => (s2, Fail(e))
        case Ok((listing, _)) =>
          match FindNamed(listing.links, parent.1, Base(p))
          case None => (s2, Fail(NotFound))
          case Some(l) => (s2, Ok(Found(l, parent.1, listing.asOf)))
  }

  function Stat(s: State, api: Api, path: string, now: nat): (State, Result<Found>) {
    var p := Clean(path);
    match FreshStat(s.meta, p, now)
    case Some(e) => (s, Ok(Found(e.link, e.parentKR, e.asOf)))
    case None =>
      var (s1, r) := StatUncached(s, api, p, now);
      match r
      case Ok(f) => (s1.(meta := PutStat(s1.meta, p, f.link, f.asOf, f.parentKR, now)), r)
      case Fail(e) =>
        if e == Offline && p in s1.meta.stats then
          var st := s1.meta.stats[p];
          (s1, Ok(Found(st.link, st.parentKR, st.asOf)))
        else (s1, r)
  }

  // ----- invalidation -----

  function Prune(links: map<string, LinkID>, p: string): map<string, LinkID> {
    map key | key in links && !AtOrUnder(p, key) :: links[key]
  }

  function InvalidatePath(s: State, p: string): State {
    s.(meta := DropPath(s.meta, p), pathLinks := Prune(s.pathLinks, p))
  }

  function InvalidateLink(s: State, id: LinkID, api: Api): State {
    s.(meta := DropLink(s.meta, id, api.order(s.meta.stats.Keys)),
       pathLinks := if id in s.linkPaths then s.pathLinks - {s.linkPaths[id]} else s.pathLinks)
  }

  function InvalidateAll(s: State): State {
    s.(meta := DropAll(s.meta), pathLinks := map[])
  }

  class Session {
    const root: LinkID
    const meta: MetaCache
    var pathLinks: map<string, LinkID>
    var linkPaths: map<LinkID, string>
    var nodeKRs: map<LinkID, KeyRing>
    var calls: nat

    ghost function View(): State
      reads this, meta
    {
      State(root, pathLinks, linkPaths, nodeKRs, meta.View(), calls)
    }

    constructor (root: LinkID)
      ensures View() == Initial(root, 30) && fresh(meta)
    {
      this.root := root;
      pathLinks, linkPaths, nodeKRs, calls := map[], map[], map[], 0;
      meta := new MetaCache(0);
    }

    method RootNodeKeyRing(api: Api) returns (r: Result<KeyRing>)
      modifies this
      ensures (View(), r) == RootKeyRing(old(View()), api)
    {
      if root in nodeKRs {
        return Ok(nodeKRs[root]);
      }
      r := api.rootKey(calls);
      calls := calls + 1;
      if r.Ok? {
        nodeKRs := nodeKRs[root := r.value];
      }
    }

    method ResolvePath(api: Api, path: string, now: nat) returns (r: Result<Node>)
      modifies this, meta
      ensures (View(), r) == Resolve(old(View()), api, path, now)
    {
      var p := Clean(path);
      var parts := SplitPath(p);
      SplitPathComponents(p);

      if p in pathLinks {
        var hit := pathLinks[p];
        if hit in nodeKRs {
          return Ok((hit, nodeKRs[hit]));
        }
      }

      linkPaths := linkPaths[root := "/"];
      var rootKR := RootNodeKeyRing(api);
      if rootKR.Fail? {
        return Fail(rootKR.error);
      }
      var kr := rootKR.value;
      pathLinks := pathLinks["/" := root];

      r := WalkDown(api, parts, kr, now);
    }

    /** The loop over path components. */
    method WalkDown(api: Api, parts: seq<string>, rootKR: KeyRing, now: nat) returns (r: Result<Node>)
      requires AllNames(parts)
      modifies this, meta
      ensures (View(), r) == Walk(old(View()), api, parts, 0, root, rootKR, now)
    {
      var id, kr, current := root, rootKR, "/";
      var i := 0;
      while i < |parts|
        invariant 0 <= i <= |parts|
        invariant current == Render(parts[..i])
        invariant Walk(old(View()), api, parts, 0, root, rootKR, now) == Walk(View(), api, parts, i, id, kr, now)
      {
        NextPath(parts, i);
        var next := if current == "/" then "/" + parts[i] else current + "/" + parts[i];
        var child := StepDown(api, current, next, parts[i], id, kr, now);
        if child.Fail? {
          return Fail(child.error);
        }
        id, kr, current := child.value.0, child.value.1, next;
        i := i + 1;
      }
      return Ok((id, kr));
    }

    /** The body of the loop over path components. */
    method StepDown(api: Api, current: string, next: string, part: string, id: LinkID, kr: KeyRing, now: nat)
      returns (r: Result<Node>)
      modifies this, meta
      ensures (View(), r) == Descend(old(View()), api, current, next, part, id, kr, now)
    {
      var before := calls;
      var reply := api.list(before, id);
      calls := calls + 1;
      if reply.Fail? {
        return Fail(reply.error);
      }
      var children := reply.value;
      meta.SetList(current, Listing(children, Fetch(before, now)), kr, now);
      var child := FindChild(children, kr, part);
      if child.None? {
        return Fail(NotFound);
      }
      var childKR := GetKeyRing(child.value, kr);
      if childKR.None? {
        return Fail(Other);
      }
      var childID := child.value.id;
      nodeKRs := nodeKRs[childID := childKR.value];
      linkPaths := linkPaths[childID := next];
      pathLinks := pathLinks[next := childID];
      return Ok((childID, childKR.value));
    }

    method ListChildren(api: Api, p: string, now: nat) returns (r: Result<(Listing, KeyRing)>)
      modifies this, meta
      ensures (View(), r) == List(old(View()), api, p, now)
    {
      var cached := meta.GetList(p, now);
      if cached.Some? {
        return Ok((cached.value.listing, cached.value.parentKR));
      }
      var node := ResolvePath(api, p, now);
      if node.Fail? {
        r := ListFallback(p, node.error);
        return;
      }
      var before := calls;
      var reply := api.list(before, node.value.0);
      calls := calls + 1;
      if reply.Fail? {
        r := ListFallback(p, reply.error);
        return;
      }
      var listing := Listing(reply.value, Fetch(before, now));
      meta.SetList(p, listing, node.value.1, now);
      return Ok((listing, node.value.1));
    }

    method ListFallback(p: string, e: Error) returns (r: Result<(Listing, KeyRing)>)
      ensures r == StaleListOr(View(), p, e)
    {
      if e == Offline {
        var stale := meta.GetListStale(p);
        if stale.Some? {
          return Ok((stale.value.listing, stale.value.parentKR));
        }
      }
      return Fail(e);
    }

    method StatAt(api: Api, path: string, now: nat) returns (r: Result<Found>)
      modifies this, meta
      ensures (View(), r) == Stat(old(View()), api, path, now)
    {
      var p := Clean(path);
      var cached := meta.GetStat(p, now);
      if cached.Some? {
        return Ok(Found(cached.value.link, cached.value.parentKR, cached.value.asOf));
      }
      r := StatNetwork(api, p, now);
      if r.Fail? {
        if r.error == Offline {
          var stale := meta.GetStatStale(p);
          if stale.Some? {
            return Ok(Found(stale.value.link, stale.value.parentKR, stale.value.asOf));
          }
        }
        return;
      }
      meta.SetStat(p, r.value.link, r.value.asOf, r.value.parentKR, now);
    }

    method StatNetwork(api: Api, p: string, now: nat) returns (r: Result<Found>)
      modifies this, meta
      ensures (View(), r) == StatUncached(old(View()), api, p, now)
    {
      if p == "/" {
        var before := calls;
        var link := api.getLink(before, root);
        calls := calls + 1;
        if link.Fail? {
          return Fail(link.error);
        }
        var kr := RootNodeKeyRing(api);
        return if kr.Fail? then Fail(kr.error) else Ok(Found(link.value, kr.value, Fetch(before, now)));
      }
      var parent := ResolvePath(api, Dir(Clean(p)), now);
      if parent.Fail? {
        return Fail(parent.error);
      }
      var parentPath, name := Dir(p), Base(p);
      var children := ListChildren(api, parentPath, now);
      if children.Fail? {
        return Fail(children.error);
      }
      var child := FindChild(children.value.0.links, parent.value.1, name);
      return if child.None? then Fail(NotFound)
             else Ok(Found(child.value, parent.value.1, children.value.0.asOf));
    }

    method InvalidateByPath(p: string)
      modifies this, meta
      ensures View() == InvalidatePath(old(View()), p)
    {
      meta.InvalidatePath(p);
      pathLinks := DropKeys(pathLinks - {p}, p + "/");
      assert pathLinks == Prune(old(pathLinks), p);
    }

    method InvalidateByLink(id: LinkID, api: Api)
      modifies this, meta
      ensures View() == InvalidateLink(old(View()), id, api)
    {
      meta.InvalidateLinkID(id, api.order(meta.stats.Keys));
      if id in linkPaths {
        pathLinks := pathLinks - {linkPaths[id]};
      }
    }

    method InvalidateEverything()
      modifies this, meta
      ensures View() == InvalidateAll(old(View()))
    {
      meta.InvalidateAll();
      pathLinks := map[];
    }
  }

  /** Delete every key with the given prefix, one by one, in any order. */
  method DropKeys(links: map<string, LinkID>, prefix: string) returns (r: map<string, LinkID>)
    ensures r == map key | key in links && !(prefix <= key) :: links[key]
  {
    r := links;
    var rest := links.Keys;
    while rest != {}
      invariant rest <= links.Keys
      invariant r == map key | key in links && (key in rest || !(prefix <= key)) :: links[key]
      decreases |rest|
    {
      var key :| key in rest;
      rest := rest - {key};
      if prefix <= key {
        r := r - {key};
      }
    }
  }

  /** Scan a listing for the child whose name decrypts to `part`. */
  method FindChild(children: seq<Link>, kr: KeyRing, part: string) returns (r: Option<Link>)
    ensures r == FindNamed(children, kr, part)
  {
    for i := 0 to |children|
      invariant FindNamed(children, kr, part) == FindNamed(children[i..], kr, part)
    {
      FindNamedStep(children, kr, part, i);
      if GetName(children[i], kr) == Some(part) {
        return Some(children[i]);
      }
    }
    return None;
  }

  /** The string the walk builds for the next level is the rendered prefix. */
  lemma NextPath(parts: seq<string>, i: nat)
    requires AllNames(parts) && i < |parts|
    ensures Render(parts[..i + 1])
         == if Render(parts[..i]) == "/" then "/" + parts[i] else Render(parts[..i]) + "/" + parts[i]
  {
    assert parts[..i + 1] == parts[..i] + [parts[i]];
    TailSnoc(parts[..i], parts[i]);
    if i > 0 {
      assert parts[..i][0] == parts[0] && IsName(parts[0]);
      assert |Tail(parts[..i])| >= 2;
    }
  }
}
