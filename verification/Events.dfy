/**
 * The event poller (helper/drive/events.go): handling one remote event, diffing
 * a listing, the bounded queue, and one poll with its persisted anchor.
 */
module Events {
  import opened Outcome
  import opened Paths
  import opened Remote
  import opened Metadata
  import opened Sessions
  import opened BlockStore

  const EVENT_BUFFER_SIZE: nat := 64

  datatype EventType = Changed | Deleted | Created
  datatype DriveEvent = DriveEvent(kind: EventType, linkID: LinkID, path: string)

  /** `Update` covers both kinds of update event. */
  datatype LinkEventKind = Delete | Create | Update
  datatype LinkEvent = LinkEvent(kind: LinkEventKind, link: Link)

  /** `anchor` is the content of the anchor file, empty when there is none. */
  datatype PollerState = PollerState(session: State, store: Store, queue: seq<DriveEvent>, anchor: string)

  // ----- the queue -----

  function Enqueue(q: seq<DriveEvent>, ev: DriveEvent): seq<DriveEvent> {
    (if |q| >= EVENT_BUFFER_SIZE then q[1..] else q) + [ev]
  }

  function EnqueueAll(q: seq<DriveEvent>, evs: seq<DriveEvent>): seq<DriveEvent>
    decreases |evs|
  {
    if evs == [] then q else Enqueue(EnqueueAll(q, evs[..|evs| - 1]), evs[|evs| - 1])
  }

  function Emitted(ps: PollerState, kind: EventType, id: LinkID, path: string): PollerState {
    ps.(queue := Enqueue(ps.queue, DriveEvent(kind, id, path)))
  }

  // ----- diffing a listing -----

  /** Decryptable names of a listing; of two equal names the later link wins. */
  function NamesOf(ls: seq<Link>, kr: KeyRing): map<string, LinkID>
    decreases |ls|
  {
    if ls == [] then map[]
    else
      var names, l := NamesOf(ls[..|ls| - 1], kr), ls[|ls| - 1];
      match GetName(l, kr)
      case None => names
      case Some(n) => names[n := l.id]
  }

  function NotePaths(linkPaths: map<LinkID, string>, dir: string, ls: seq<Link>, kr: KeyRing): map<LinkID, string>
    decreases |ls|
  {
    if ls == [] then linkPaths
    else
      var known, l := NotePaths(linkPaths, dir, ls[..|ls| - 1], kr), ls[|ls| - 1];
      match GetName(l, kr)
      case None => known
      case Some(n) => known[l.id := ChildPath(dir, n)]
  }

  /** One event for each of `keys` that `names` has and `others` has not. */
  function Differences(keys: seq<string>, names: map<string, LinkID>, others: map<string, LinkID>,
                       kind: EventType, dir: string): seq<DriveEvent>
    decreases |keys|
  {
    if keys == [] then []
    else
      var n := keys[|keys| - 1];
      var front := Differences(keys[..|keys| - 1], names, others, kind, dir);
      if n in names && n !in others then front + [DriveEvent(kind, names[n], ChildPath(dir, n))] else front
  }

  function DiffEvents(api: Api, dir: string, was: map<string, LinkID>, cur: map<string, LinkID>): seq<DriveEvent> {
    Differences(api.order(cur.Keys), cur, was, Created, dir)
    + Differences(api.order(was.Keys), was, cur, Deleted, dir)
  }

  function Diff(ps: PollerState, api: Api, dir: string, dirID: LinkID, kr: KeyRing, oldLinks: seq<Link>, now: nat)
    : (PollerState, bool)
  {
    var s := ps.session;
    match api.list(s.calls, dirID)
    case Fail(_) => (ps.(session := s.(calls := s.calls + 1)), false)
    case Ok(ls) =>
      var s1 := Fetched(s, dir, ls, kr, now).(linkPaths := NotePaths(s.linkPaths, dir, ls, kr));
      var evs := DiffEvents(api, dir, NamesOf(oldLinks, kr), NamesOf(ls, kr));
      (ps.(session := s1, queue := EnqueueAll(ps.queue, evs)), true)
  }

  /** Diff a folder whose path, old listing and keyring are all known. */
  function DiffIfKnown(ps: PollerState, api: Api, dir: string, dirID: LinkID, was: Option<ListEntry>, now: nat)
    : (PollerState, bool)
  {
    if dir != "" && was.Some? && dirID in ps.session.nodeKRs
    then Diff(ps, api, dir, dirID, ps.session.nodeKRs[dirID], was.value.listing.links, now)
    else (ps, false)
  }

  // ----- handling one event -----

  function HandleDelete(ps: PollerState, link: Link, api: Api): PollerState {
    var path, parentPath := LinkPath(ps.session, link.id), LinkPath(ps.session, link.parent);
    var s1 := InvalidatePath(ps.session, path);
    var s2 := if path == "" then InvalidateLink(s1, link.parent, api) else s1;
    var ps1 := ps.(session := s2, store := WithoutLink(ps.store, link.id));
    if path != "" then Emitted(ps1, Deleted, link.id, path)
    else if parentPath != "" then Emitted(ps1, Changed, link.id, parentPath)
    else ps1
  }

  /** The name in the event, or else in the link as the server has it now. */
  function CreatedName(s: State, link: Link, kr: KeyRing, api: Api): (State, Option<string>) {
    if GetName(link, kr).Some? then (s, GetName(link, kr))
    else
      var s1 := s.(calls := s.calls + 1);
      match api.getLink(s.calls, link.id)
      case Fail(_) => (s1, None)
      case Ok(full) => (s1, GetName(full, kr))
  }

  function CreateFallback(ps: PollerState, link: Link, parentPath: string, was: Option<ListEntry>, api: Api, now: nat)
    : PollerState
  {
    var (ps1, done) := DiffIfKnown(ps, api, parentPath, link.parent, was, now);
    if done then ps1
    else if parentPath != "" then Emitted(ps1, Changed, link.id, parentPath)
    else ps1
  }

  function CreateStart(s: State, link: Link, api: Api): State {
    var parentPath := LinkPath(s, link.parent);
    if parentPath != "" then InvalidatePath(s, parentPath) else InvalidateLink(s, link.parent, api)
  }

  function HandleCreate(ps: PollerState, link: Link, api: Api, now: nat): PollerState {
    var parentPath := LinkPath(ps.session, link.parent);
    var was := Lookup(ps.session.meta.lists, parentPath);
    var s1 := CreateStart(ps.session, link, api);
    if parentPath != "" && link.parent in s1.nodeKRs then
      var (s2, name) := CreatedName(s1, link, s1.nodeKRs[link.parent], api);
      if name.Some? && name.value != "" then
        var child := ChildPath(parentPath, name.value);
        Emitted(ps.(session := s2.(linkPaths := s2.linkPaths[link.id := child])), Created, link.id, child)
      else CreateFallback(ps.(session := s2), link, parentPath, was, api, now)
    else CreateFallback(ps.(session := s1), link, parentPath, was, api, now)
  }

  function Invalidated(s: State, link: Link, api: Api): State {
    var path, parentPath := LinkPath(s, link.id), LinkPath(s, link.parent);
    var s1 := InvalidatePath(s, path);
    var s2 := if parentPath != "" && parentPath != path then InvalidatePath(s1, parentPath) else s1;
    if path == "" then InvalidateLink(s2, link.parent, api) else s2
  }

  function UpdateStart(ps: PollerState, link: Link, api: Api): PollerState {
    ps.(session := Invalidated(ps.session, link, api), store := WithoutLink(ps.store, link.id))
  }

  function UpdateFallback(ps: PollerState, link: Link, path: string, parentPath: string, api: Api): PollerState {
    var s := ps.session;
    if path != "" then
      var ps1 := ps.(session := s.(calls := s.calls + 1));
      var reply := api.getLink(s.calls, link.id);
      if reply.Ok? && (reply.value.state == StateTrashed || reply.value.state == StateDeleted)
      then Emitted(ps1.(session := ps1.session.(linkPaths := s.linkPaths - {link.id})), Deleted, link.id, path)
      else Emitted(ps1, Changed, link.id, path)
    else if parentPath != "" then Emitted(ps, Changed, link.id, parentPath)
    else ps
  }

  function HandleUpdate(ps: PollerState, link: Link, api: Api, now: nat): PollerState {
    var path, parentPath := LinkPath(ps.session, link.id), LinkPath(ps.session, link.parent);
    var was := Lookup(ps.session.meta.lists, path);
    var wasParent := Lookup(ps.session.meta.lists, parentPath);
    var ps1 := UpdateStart(ps, link, api);
    var (ps2, done2) := DiffIfKnown(ps1, api, path, link.id, was, now);
    if done2 then ps2
    else
      var (ps3, done3) := DiffIfKnown(ps2, api, parentPath, link.parent, wasParent, now);
      if done3 then ps3 else UpdateFallback(ps3, link, path, parentPath, api)
  }

  function Handled(ps: PollerState, ev: LinkEvent, api: Api, now: nat): PollerState {
    match ev.kind
    case Delete => HandleDelete(ps, ev.link, api)
    case Create => HandleCreate(ps, ev.link, api, now)
    case Update => HandleUpdate(ps, ev.link, api, now)
  }

  // ----- one poll -----

  /** An empty `eventID` means the server has forgotten the anchor. */
  datatype Batch = Batch(eventID: string, refresh: bool, events: seq<LinkEvent>)

  function HandledAll(ps: PollerState, events: seq<LinkEvent>, api: Api, now: nat): PollerState
    decreases |events|
  {
    if events == [] then ps
    else Handled(HandledAll(ps, events[..|events| - 1], api, now), events[|events| - 1], api, now)
  }

  /** Forget everything and tell the file manager to look again. */
  function Refreshed(ps: PollerState): PollerState {
    Emitted(ps.(session := InvalidateAll(ps.session)), Changed, "", "/")
  }

  function Saved(ps: PollerState, id: string, saves: bool): PollerState {
    if saves then ps.(anchor := id) else ps
  }

  function Polled(ps: PollerState, current: string, batch: Result<Batch>, latest: Result<string>, api: Api,
      now: nat, saves: bool)
    : (PollerState, string)
  {
    match batch
    case Fail(_) => (ps, current)
    case Ok(b) =>
      if b.eventID == "" then
        match latest
        case Fail(_) => (ps, current)
        case Ok(id) => (Saved(Refreshed(ps), id, saves), id)
      else if b.refresh then (Saved(Refreshed(ps), b.eventID, saves), b.eventID)
      else (Saved(HandledAll(ps, b.events, api, now), b.eventID, saves), b.eventID)
  }

  class EventPoller {
    const s: Session
    const blocks: BlockCache
    var queue: seq<DriveEvent>
    var anchor: string

    ghost function View(): PollerState
      reads this, s, s.meta, blocks
    {
      PollerState(s.View(), blocks.store, queue, anchor)
    }

    constructor (s: Session, blocks: BlockCache, anchor: string)
      ensures this.s == s && this.blocks == blocks
      ensures View() == PollerState(s.View(), blocks.store, [], anchor)
    {
      this.s, this.blocks, this.anchor := s, blocks, anchor;
      queue := [];
    }

    method Add(ev: DriveEvent)
      modifies this
      ensures queue == Enqueue(old(queue), ev) && anchor == old(anchor)
    {
      if |queue| >= EVENT_BUFFER_SIZE {
        queue := queue[1..];
      }
      queue := queue + [ev];
    }

    method Drain() returns (out: seq<DriveEvent>)
      modifies this
      ensures out == old(queue) && queue == [] && anchor == old(anchor)
    {
      out := queue;
      queue := [];
    }

    /** Append the differences in iteration order. */
    method EmitDifferences(keys: seq<string>, names: map<string, LinkID>, others: map<string, LinkID>,
                           kind: EventType, dir: string)
      modifies this
      ensures queue == EnqueueAll(old(queue), Differences(keys, names, others, kind, dir))
      ensures anchor == old(anchor)
    {
      assert keys[..0] == [];
      for i := 0 to |keys|
        invariant queue == EnqueueAll(old(queue), Differences(keys[..i], names, others, kind, dir))
        invariant anchor == old(anchor)
      {
        var n := keys[i];
        assert keys[..i + 1][..i] == keys[..i];
        ghost var evs := Differences(keys[..i], names, others, kind, dir);
        if n in names && n !in others {
          var ev := DriveEvent(kind, names[n], ChildPath(dir, n));
          assert (evs + [ev])[..|evs|] == evs;
          Add(ev);
        }
      }
      assert keys[..|keys|] == keys;
    }

    method DiffAndEmit(api: Api, dir: string, dirID: LinkID, kr: KeyRing, oldLinks: seq<Link>, now: nat)
        returns (ok: bool)
      modifies this, s, s.meta
      ensures (View(), ok) == Diff(old(View()), api, dir, dirID, kr, oldLinks, now)
    {
      var oldNames := Names(oldLinks, kr);
      var before := s.calls;
      var reply := api.list(before, dirID);
      s.calls := s.calls + 1;
      if reply.Fail? {
        return false;
      }
      var newLinks := reply.value;
      var newNames := Names(newLinks, kr);
      s.linkPaths := WithChildPaths(s.linkPaths, dir, newLinks, kr);
      s.meta.SetList(dir, Listing(newLinks, Fetch(before, now)), kr, now);
      label Emit:
      var created, deleted := api.order(newNames.Keys), api.order(oldNames.Keys);
      EmitDifferences(created, newNames, oldNames, Created, dir);
      EmitDifferences(deleted, oldNames, newNames, Deleted, dir);
      EnqueueAllConcat(old@Emit(queue), Differences(created, newNames, oldNames, Created, dir),
                       Differences(deleted, oldNames, newNames, Deleted, dir));
      return true;
    }

    method PathOf(id: LinkID) returns (p: string)
      ensures p == LinkPath(s.View(), id)
    {
      p := if id in s.linkPaths then s.linkPaths[id] else "";
    }

    method DiffKnown(api: Api, dir: string, dirID: LinkID, was: Option<ListEntry>, now: nat) returns (done: bool)
      modifies this, s, s.meta
      ensures (View(), done) == DiffIfKnown(old(View()), api, dir, dirID, was, now)
    {
      if dir != "" && was.Some? && dirID in s.nodeKRs {
        done := DiffAndEmit(api, dir, dirID, s.nodeKRs[dirID], was.value.listing.links, now);
        return;
      }
      return false;
    }

    method OnDelete(link: Link, api: Api)
      modifies this, s, s.meta, blocks
      ensures View() == HandleDelete(old(View()), link, api)
    {
      var path := PathOf(link.id);
      var parentPath := PathOf(link.parent);
      s.InvalidateByPath(path);
      if path == "" {
        s.InvalidateByLink(link.parent, api);
      }
      blocks.InvalidateLink(link.id);
      if path != "" {
        Add(DriveEvent(Deleted, link.id, path));
      } else if parentPath != "" {
        Add(DriveEvent(Changed, link.id, parentPath));
      }
    }

    method NameOfCreated(link: Link, kr: KeyRing, api: Api) returns (name: Option<string>)
      modifies s
      ensures (s.View(), name) == CreatedName(old(s.View()), link, kr, api)
    {
      name := GetName(link, kr);
      if name.None? {
        var full := api.getLink(s.calls, link.id);
        s.calls := s.calls + 1;
        if full.Ok? {
          name := GetName(full.value, kr);
        }
      }
    }

    method OnCreate(link: Link, api: Api, now: nat)
      modifies this, s, s.meta
      ensures View() == HandleCreate(old(View()), link, api, now)
    {
      var parentPath := PathOf(link.parent);
      var was := s.meta.GetListStale(parentPath);
      if parentPath != "" {
        s.InvalidateByPath(parentPath);
      } else {
        s.InvalidateByLink(link.parent, api);
      }
      if parentPath != "" && link.parent in s.nodeKRs {
        var name := NameOfCreated(link, s.nodeKRs[link.parent], api);
        if name.Some? && name.value != "" {
          var child := ChildPath(parentPath, name.value);
          s.linkPaths := s.linkPaths[link.id := child];
          Add(DriveEvent(Created, link.id, child));
          return;
        }
      }
      FallBackToDiff(link, parentPath, was, api, now);
    }

    method FallBackToDiff(link: Link, parentPath: string, was: Option<ListEntry>, api: Api, now: nat)
      modifies this, s, s.meta
      ensures View() == CreateFallback(old(View()), link, parentPath, was, api, now)
    {
      var done := DiffKnown(api, parentPath, link.parent, was, now);
      if !done && parentPath != "" {
        Add(DriveEvent(Changed, link.id, parentPath));
      }
    }

    method InvalidateFor(link: Link, path: string, parentPath: string, api: Api)
      requires path == LinkPath(s.View(), link.id) && parentPath == LinkPath(s.View(), link.parent)
      modifies s, s.meta
      ensures s.View() == Invalidated(old(s.View()), link, api)
    {
      s.InvalidateByPath(path);
      if parentPath != "" && parentPath != path {
        s.InvalidateByPath(parentPath);
      }
      if path == "" {
        s.InvalidateByLink(link.parent, api);
      }
    }

    method OnUpdate(link: Link, api: Api, now: nat)
      modifies this, s, s.meta, blocks
      ensures View() == HandleUpdate(old(View()), link, api, now)
    {
      var path := PathOf(link.id);
      var parentPath := PathOf(link.parent);
      var was := s.meta.GetListStale(path);
      var wasParent := s.meta.GetListStale(parentPath);
      InvalidateFor(link, path, parentPath, api);
      blocks.InvalidateLink(link.id);
      var done := DiffKnown(api, path, link.id, was, now);
      if !done {
        done := DiffKnown(api, parentPath, link.parent, wasParent, now);
        if !done {
          EmitChange(link, path, parentPath, api);
        }
      }
    }

    method EmitChange(link: Link, path: string, parentPath: string, api: Api)
      modifies this, s
      ensures View() == UpdateFallback(old(View()), link, path, parentPath, api)
    {
      if path != "" {
        var reply := api.getLink(s.calls, link.id);
        s.calls := s.calls + 1;
        if reply.Ok? && (reply.value.state == StateTrashed || reply.value.state == StateDeleted) {
          s.linkPaths := s.linkPaths - {link.id};
          Add(DriveEvent(Deleted, link.id, path));
          return;
        }
      }
      var eventPath := if path == "" then parentPath else path;
      if eventPath != "" {
        Add(DriveEvent(Changed, link.id, eventPath));
      }
    }

    method Handle(ev: LinkEvent, api: Api, now: nat)
      modifies this, s, s.meta, blocks
      ensures View() == Handled(old(View()), ev, api, now)
    {
      match ev.kind
      case Delete => OnDelete(ev.link, api);
      case Create => OnCreate(ev.link, api, now);
      case Update => OnUpdate(ev.link, api, now);
    }

    method SaveAnchor(id: string, saves: bool)
      modifies this
      ensures View() == Saved(old(View()), id, saves)
    {
      if saves {
        anchor := id;
      }
    }

    method Refresh()
      modifies this, s, s.meta
      ensures View() == Refreshed(old(View()))
    {
      s.InvalidateEverything();
      Add(DriveEvent(Changed, "", "/"));
    }

    /** `saves` says whether writing the anchor file succeeds. */
    method Poll(current: string, batch: Result<Batch>, latest: Result<string>, api: Api, now: nat, saves: bool)
      returns (next: string)
      modifies this, s, s.meta, blocks
      ensures (View(), next) == Polled(old(View()), current, batch, latest, api, now, saves)
    {
      if batch.Fail? {
        return current;
      }
      var b := batch.value;
      if b.eventID == "" {
        if latest.Fail? {
          return current;
        }
        Refresh();
        SaveAnchor(latest.value, saves);
        return latest.value;
      }
      if b.refresh {
        Refresh();
        SaveAnchor(b.eventID, saves);
        return b.eventID;
      }
      HandleBatch(b.events, api, now);
      SaveAnchor(b.eventID, saves);
      return b.eventID;
    }

    method HandleBatch(events: seq<LinkEvent>, api: Api, now: nat)
      modifies this, s, s.meta, blocks
      ensures View() == HandledAll(old(View()), events, api, now)
    {
      assert events[..0] == [];
      for i := 0 to |events|
        invariant View() == HandledAll(old(View()), events[..i], api, now)
      {
        assert events[..i + 1][..i] == events[..i];
        Handle(events[i], api, now);
      }
      assert events[..|events|] == events;
    }
  }

  method Names(ls: seq<Link>, kr: KeyRing) returns (names: map<string, LinkID>)
    ensures names == NamesOf(ls, kr)
  {
    names := map[];
    for i := 0 to |ls|
      invariant names == NamesOf(ls[..i], kr)
    {
      assert ls[..i + 1][..i] == ls[..i];
      var n := GetName(ls[i], kr);
      if n.Some? {
        names := names[n.value := ls[i].id];
      }
    }
    assert ls[..|ls|] == ls;
  }

  method WithChildPaths(linkPaths: map<LinkID, string>, dir: string, ls: seq<Link>, kr: KeyRing)
      returns (r: map<LinkID, string>)
    ensures r == NotePaths(linkPaths, dir, ls, kr)
  {
    r := linkPaths;
    for i := 0 to |ls|
      invariant r == NotePaths(linkPaths, dir, ls[..i], kr)
    {
      assert ls[..i + 1][..i] == ls[..i];
      var n := GetName(ls[i], kr);
      if n.Some? {
        r := r[ls[i].id := ChildPath(dir, n.value)];
      }
    }
    assert ls[..|ls|] == ls;
  }

  lemma {:induction false} EnqueueAllConcat(q: seq<DriveEvent>, a: seq<DriveEvent>, b: seq<DriveEvent>)
    ensures EnqueueAll(EnqueueAll(q, a), b) == EnqueueAll(q, a + b)
    decreases |b|
  {
    if b == [] {
      assert a + b == a;
    } else {
      EnqueueAllConcat(q, a, b[..|b| - 1]);
      assert (a + b)[..|a + b| - 1] == a + b[..|b| - 1];
    }
  }
}
