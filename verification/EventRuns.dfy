/**
 * Whole runs: lookups, remote changes, and events handled some time later.
 * The cached paths recover exactly as long as no step takes a wrong entry out
 * of the reach of the events still waiting to be handled.
 */
module EventRuns {
  import opened Outcome
  import opened Paths
  import opened Remote
  import opened Metadata
  import opened Sessions
  import opened Events
  import opened PathCache
  import opened Coherence
  import opened Records

  // ----- what handling does to the reverse map -----

  /** `v` is the path of `y` if the reverse map is right about its parent. */
  ghost predicate FromParent(s: State, t: Tree, y: LinkID, v: string) {
    && y in t.links && t.links[y].name.Some?
    && t.links[y].parent in s.linkPaths
    && v == ChildPath(s.linkPaths[t.links[y].parent], t.links[y].name.value)
  }

  /** The path a create event gives its own link, from the name it carries. */
  ghost predicate FromPayload(s: State, t: Tree, link: Link, v: string) {
    || link.id !in t.links
    || FromParent(s, t, link.id, v)
    || (link.name.Some? && link.parent in s.linkPaths && v == ChildPath(s.linkPaths[link.parent], link.name.value))
  }

  ghost predicate RetoldByEvent(s: State, m: map<LinkID, string>, t: Tree, ev: LinkEvent) {
    forall y | y in m ::
      || (y in s.linkPaths && m[y] == s.linkPaths[y])
      || FromParent(s, t, y, m[y])
      || (ev.kind.Create? && y == ev.link.id && FromPayload(s, t, ev.link, m[y]))
  }

  lemma NewNameIsPayload(s: State, t: Tree, link: Link, api: Api)
    requires Faithful(api, t) && KeysRight(s) && NewName(s, link, api).Some?
    ensures FromPayload(s, t, link, ChildPath(LinkPath(s, link.parent), NewName(s, link, api).value))
  {
  }

  /** Every path an event records is the parent's recorded path and the link's name. */
  lemma {:induction false} HandledReverseMap(ps: PollerState, ev: LinkEvent, api: Api, t: Tree, now: nat)
    requires WellFormed(t) && Faithful(api, t) && KeysRight(ps.session)
    ensures RetoldByEvent(ps.session, Handled(ps, ev, api, now).session.linkPaths, t, ev)
  {
    hide Handled, ChildPath, NewName, FoundGone, FromPayload, Faithful, AfterName, AfterOwn, AfterBoth;
    EventRecords(ps, ev, api, t, now);
    if ev.kind.Create? && NewName(ps.session, ev.link, api).Some? {
      NewNameIsPayload(ps.session, t, ev.link, api);
    }
  }

  // ----- the machine -----

  /** `pending` holds the events of remote changes not handled yet, oldest first. */
  datatype World = World(tree: Tree, ps: PollerState, pending: seq<LinkEvent>)

  /** A refresh stands for the first `upto` of the pending events. */
  datatype Move =
    | Client(op: Op)
    | Remote(tree: Tree, ev: LinkEvent)
    | Deliver(api: Api, now: nat)
    | Refresh(upto: nat)

  ghost predicate Allowed(w: World, m: Move) {
    match m
    case Client(op) => IsLookup(op) ==> Faithful(op.api, w.tree)
    case Remote(t, ev) => Changes(w.tree, t, ev)
    case Deliver(api, _) => w.pending != [] && Faithful(api, w.tree)
    case Refresh(upto) => upto <= |w.pending|
  }

  function After(w: World, m: Move): World
    requires m.Deliver? ==> w.pending != []
    requires m.Refresh? ==> m.upto <= |w.pending|
  {
    match m
    case Client(op) => w.(ps := w.ps.(session := Step(w.ps.session, op)))
    case Remote(t, ev) => World(t, w.ps, w.pending + [ev])
    case Deliver(api, now) => World(w.tree, Handled(w.ps, w.pending[0], api, now), w.pending[1..])
    case Refresh(upto) => World(w.tree, Refreshed(w.ps), w.pending[upto..])
  }

  /** Some pending event prunes the entry, by the paths recorded now. */
  ghost predicate Doomed(s: State, pending: seq<LinkEvent>, q: string) {
    exists i :: 0 <= i < |pending| && Pruned(s, pending[i], q)
  }

  ghost predicate IsRight(s: State, t: Tree, q: string) {
    q in s.pathLinks && IsPathOf(t, q, s.pathLinks[q])
  }

  ghost predicate Covered(s: State, t: Tree, pending: seq<LinkEvent>, q: string) {
    IsRight(s, t, q) || Doomed(s, pending, q)
  }

  /** Every cached path is right, or some pending event prunes it. */
  ghost predicate Inv(w: World) {
    var s := w.ps.session;
    && WellFormed(w.tree) && s.root == w.tree.root && KeysRight(s)
    && forall q | q in s.pathLinks :: Covered(s, w.tree, w.pending, q)
  }

  /** The path caches after the event, read off the state before it. */
  ghost function Noticed(s: State, t: Tree, ev: LinkEvent, api: Api): State {
    s.(pathLinks := Survivors(s, ev), linkPaths := HandledRecords(s, t, ev, api))
  }

  /**
   * What must hold before a move. Lookup: with the paths it is about to record,
   * each wrong entry it does not overwrite is still one a pending event prunes.
   * Event: likewise for each wrong entry it spares and the events after it.
   * Remote change: it makes wrong only entries that its event or an earlier one
   * prunes.
   */
  ghost predicate Harmless(w: World, m: Move)
    requires m.Deliver? ==> w.pending != []
  {
    var s, t := w.ps.session, w.tree;
    match m
    case Client(op) =>
      IsLookup(op) ==> forall q | q in s.pathLinks && !IsRight(s, t, q) :: Covered(Learnt(s, t, op), t, w.pending, q)
    case Deliver(api, _) =>
      var ev := w.pending[0];
      forall q | q in Survivors(s, ev) && !IsRight(s, t, q) :: Doomed(Noticed(s, t, ev, api), w.pending[1..], q)
    case Remote(t', ev) =>
      forall q | IsRight(s, t, q) && !IsRight(s, t', q) :: Pruned(s, ev, q) || Doomed(s, w.pending, q)
    case Refresh(_) => true
  }

  // ----- a move keeps the invariant if and only if it is harmless -----

  lemma PrunedReadsPaths(s: State, s': State)
    requires s.linkPaths == s'.linkPaths
    ensures forall ev, q :: Pruned(s, ev, q) <==> Pruned(s', ev, q)
  {
    hide AtOrUnder;
  }

  lemma CoveredReadsPaths(s: State, s': State, t: Tree, pending: seq<LinkEvent>, q: string)
    requires SamePaths(s, s')
    ensures Covered(s, t, pending, q) <==> Covered(s', t, pending, q)
    ensures Doomed(s, pending, q) <==> Doomed(s', pending, q)
  {
    hide Pruned, IsPathOf;
    PrunedReadsPaths(s, s');
  }

  lemma {:induction false} LookupKeepsInvIff(w: World, op: Op)
    requires Inv(w) && Allowed(w, Client(op)) && IsLookup(op)
    ensures Inv(After(w, Client(op))) <==> Harmless(w, Client(op))
  {
    hide Step, Learnt, Doomed, IsPathOf, Faithful, Charted;
    var s, t := w.ps.session, w.tree;
    var s' := Step(s, op);
    LookupLearns(s, op, t);
    LookupRecords(s, op, t);
    forall q
      ensures Covered(s', t, w.pending, q) <==> Covered(Learnt(s, t, op), t, w.pending, q)
    {
      CoveredReadsPaths(s', Learnt(s, t, op), t, w.pending, q);
    }
    assert forall q | q in s'.pathLinks && (q in s.pathLinks ==> IsRight(s, t, q)) :: IsRight(s', t, q);
  }

  lemma ForgettingKeepsInv(w: World, op: Op)
    requires Inv(w) && !IsLookup(op)
    ensures Inv(After(w, Client(op)))
  {
    hide AtOrUnder, IsPathOf, DropLink, DropPath, Pruned;
    var s, s' := w.ps.session, Step(w.ps.session, op);
    PrunedReadsPaths(s, s');
    forall q | q in s'.pathLinks
      ensures Covered(s', w.tree, w.pending, q)
    {
      assert Covered(s, w.tree, w.pending, q);
    }
  }

  lemma DoomedBySnoc(s: State, pending: seq<LinkEvent>, ev: LinkEvent, q: string)
    ensures Doomed(s, pending + [ev], q) <==> Doomed(s, pending, q) || Pruned(s, ev, q)
  {
    hide Pruned;
    var more := pending + [ev];
    assert more[|pending|] == ev;
    assert forall i | 0 <= i < |pending| :: more[i] == pending[i];
  }

  lemma {:induction false} RemoteKeepsInvIff(w: World, t: Tree, ev: LinkEvent)
    requires Inv(w) && Allowed(w, Remote(t, ev))
    ensures Inv(After(w, Remote(t, ev))) <==> Harmless(w, Remote(t, ev))
  {
    hide Pruned, IsPathOf, Doomed, Relocates, Adds, WellFormed;
    var s := w.ps.session;
    ChangesKeepRoot(w.tree, t, ev);
    forall q
      ensures Doomed(s, w.pending + [ev], q) <==> Doomed(s, w.pending, q) || Pruned(s, ev, q)
    {
      DoomedBySnoc(s, w.pending, ev, q);
    }
    assert forall q | q in s.pathLinks :: Covered(s, w.tree, w.pending, q);
  }

  lemma ChangesKeepRoot(t: Tree, t': Tree, ev: LinkEvent)
    requires Changes(t, t', ev)
    ensures t'.root == t.root && WellFormed(t')
  {
  }

  lemma {:induction false} DeliverKeepsInvIff(w: World, m: Move)
    requires Inv(w) && m.Deliver? && Allowed(w, m)
    ensures Inv(After(w, m)) <==> Harmless(w, m)
  {
    hide Handled, Pruned, IsPathOf, Doomed, Faithful, HandledRecords;
    var s, t, ev, rest := w.ps.session, w.tree, w.pending[0], w.pending[1..];
    var s' := After(w, m).ps.session;
    HandledForwardMap(w.ps, ev, m.api, m.now);
    EventRecords(w.ps, ev, m.api, t, m.now);
    forall q
      ensures Doomed(s', rest, q) <==> Doomed(Noticed(s, t, ev, m.api), rest, q)
    {
      CoveredReadsPaths(s', Noticed(s, t, ev, m.api), t, rest, q);
    }
    assert forall q | q in Survivors(s, ev) :: IsRight(s', t, q) <==> IsRight(s, t, q);
  }

  /**
   * Every wrong entry stays one that a pending event prunes if and only if the
   * move is harmless; refreshes and forgetting always are.
   */
  lemma {:induction false} MoveKeepsInvIff(w: World, m: Move)
    requires Inv(w) && Allowed(w, m)
    ensures Inv(After(w, m)) <==> Harmless(w, m)
  {
    match m
    case Client(op) => if IsLookup(op) { LookupKeepsInvIff(w, op); } else { ForgettingKeepsInv(w, op); }
    case Remote(t, ev) => RemoteKeepsInvIff(w, t, ev);
    case Deliver(_, _) => DeliverKeepsInvIff(w, m);
    case Refresh(_) =>
  }

  /**
   * A remote change of a link that leaves its path `c` is harmless if and only
   * if each right entry at or under `c` is one that its event or an earlier one
   * prunes.
   */
  lemma {:induction false} DepartureHarmlessIff(w: World, t: Tree, ev: LinkEvent, c: seq<string>)
    requires WellFormed(w.tree) && Changes(w.tree, t, ev) && !ev.kind.Create? && AllNames(c)
    requires Reaches(w.tree, c, ev.link.id) && !Reaches(t, c, ev.link.id)
    ensures var s := w.ps.session;
            Harmless(w, Remote(t, ev))
            <==> forall q | IsRight(s, w.tree, q) && AtOrUnder(Render(c), q) ::
                   Pruned(s, ev, q) || Doomed(s, w.pending, q)
  {
    hide AtOrUnder, IsPathOf, Pruned, Render, Changes, Doomed, Reaches;
    var s := w.ps.session;
    forall q | IsRight(s, w.tree, q)
      ensures IsRight(s, t, q) <==> !AtOrUnder(Render(c), q)
    {
      RightIffAway(w.tree, t, ev, c, q, s.pathLinks[q]);
    }
  }

  /** A lookup is harmless if it records no changed link, nor its folder, at a new path. */
  lemma UndisturbedLookupIsHarmless(w: World, op: Op)
    requires Inv(w) && IsLookup(op)
    requires var s, m := w.ps.session, Learnt(w.ps.session, w.tree, op).linkPaths;
             forall e | e in w.pending ::
               && Lookup(m, e.link.id) == Lookup(s.linkPaths, e.link.id)
               && Lookup(m, e.link.parent) == Lookup(s.linkPaths, e.link.parent)
    ensures Harmless(w, Client(op))
  {
    hide IsPathOf, Learnt, AtOrUnder;
    var s, s' := w.ps.session, Learnt(w.ps.session, w.tree, op);
    forall q | q in s.pathLinks && !IsRight(s, w.tree, q)
      ensures Covered(s', w.tree, w.pending, q)
    {
      assert Covered(s, w.tree, w.pending, q);
      var i :| 0 <= i < |w.pending| && Pruned(s, w.pending[i], q);
      assert w.pending[i] in w.pending;
      assert Pruned(s', w.pending[i], q);
    }
  }

  // ----- runs -----

  function Start(t: Tree, ttl: nat, store: BlockStore.Store, anchor: string): World {
    World(t, PollerState(Initial(t.root, ttl), store, [], anchor), [])
  }

  ghost predicate RunAllowed(w: World, moves: seq<Move>)
    decreases |moves|
  {
    moves == [] || (Allowed(w, moves[0]) && RunAllowed(After(w, moves[0]), moves[1..]))
  }

  ghost function RunWorld(w: World, moves: seq<Move>): World
    requires RunAllowed(w, moves)
    decreases |moves|
  {
    if moves == [] then w else RunWorld(After(w, moves[0]), moves[1..])
  }

  /** Each move is harmless where it is made. */
  ghost predicate AllHarmless(w: World, moves: seq<Move>)
    requires RunAllowed(w, moves)
    decreases |moves|
  {
    moves == [] || (Harmless(w, moves[0]) && AllHarmless(After(w, moves[0]), moves[1..]))
  }

  ghost predicate InvThroughout(w: World, moves: seq<Move>)
    requires RunAllowed(w, moves)
    decreases |moves|
  {
    Inv(w) && (moves == [] || InvThroughout(After(w, moves[0]), moves[1..]))
  }

  /** In every state of a run each wrong entry is bound to be pruned, if and only if every move is harmless. */
  lemma {:induction false} RunKeepsInvIff(w: World, moves: seq<Move>)
    requires Inv(w) && RunAllowed(w, moves)
    ensures InvThroughout(w, moves) <==> AllHarmless(w, moves)
    decreases |moves|
  {
    if moves != [] {
      MoveKeepsInvIff(w, moves[0]);
      if Harmless(w, moves[0]) {
        RunKeepsInvIff(After(w, moves[0]), moves[1..]);
      }
    }
  }

  lemma {:induction false} InvAtTheEnd(w: World, moves: seq<Move>)
    requires RunAllowed(w, moves) && InvThroughout(w, moves)
    ensures Inv(RunWorld(w, moves))
    decreases |moves|
  {
    if moves != [] {
      InvAtTheEnd(After(w, moves[0]), moves[1..]);
    }
  }

  /**
   * In every run of harmless moves, however late events are handled and
   * whichever requests fail: once no event is pending, every cached path is
   * right, and a successful `resolvePath` returns exactly what the walk of the
   * current tree ends at.
   */
  lemma {:induction false} CaughtUpIsCoherent(t: Tree, ttl: nat, store: BlockStore.Store, anchor: string,
      moves: seq<Move>,
      api: Api, p: string, now: nat)
    requires WellFormed(t) && RunAllowed(Start(t, ttl, store, anchor), moves)
    requires AllHarmless(Start(t, ttl, store, anchor), moves)
    requires RunWorld(Start(t, ttl, store, anchor), moves).pending == []
    requires Faithful(api, RunWorld(Start(t, ttl, store, anchor), moves).tree)
    ensures var w := RunWorld(Start(t, ttl, store, anchor), moves);
            && Coherent(w.ps.session, w.tree)
            && var r := Resolve(w.ps.session, api, p, now).1;
               r.Ok? ==> forall y :: Reaches(w.tree, SplitPath(p), y) <==> r.value == (y, NodeKey(y))
  {
    hide AllHarmless, RunAllowed, RunWorld, Resolve, Clean;
    var w := RunWorld(Start(t, ttl, store, anchor), moves);
    RunKeepsInvIff(Start(t, ttl, store, anchor), moves);
    InvAtTheEnd(Start(t, ttl, store, anchor), moves);
    CaughtUpResolves(w, api, p, now);
  }

  /** With no event pending the invariant says that every entry is right, and so is every answer. */
  lemma CaughtUpResolves(w: World, api: Api, p: string, now: nat)
    requires Inv(w) && w.pending == [] && Faithful(api, w.tree)
    ensures Coherent(w.ps.session, w.tree)
    ensures var r := Resolve(w.ps.session, api, p, now).1;
            r.Ok? ==> forall y :: Reaches(w.tree, SplitPath(p), y) <==> r.value == (y, NodeKey(y))
  {
    hide Pruned;
    assert forall q | q in w.ps.session.pathLinks :: Covered(w.ps.session, w.tree, w.pending, q);
    ResolveLearns(w.ps.session, api, w.tree, p, now);
    SplitPathComponents(p);
    RenderInverse(SplitPath(p));
    var r := Resolve(w.ps.session, api, p, now).1;
    if r.Ok? {
      forall y | Reaches(w.tree, SplitPath(p), y)
        ensures y == r.value.0
      {
        TargetUnique(w.tree, SplitPath(p), y, r.value.0);
      }
    }
  }

  // ----- a lookup between a rename and its event -----

  /** A drive with one file `x` called `name`. */
  function OneFile(root: LinkID, x: LinkID, name: string): Tree {
    Tree(root, map[x := Link(x, root, Some(name), true, StateActive)])
  }

  lemma OneFileShape(root: LinkID, x: LinkID, name: string)
    requires x != root && IsName(name)
    ensures var t := OneFile(root, x, name);
            && WellFormed(t) && Reaches(t, [name], x) && Unlockable(t, [name], x) && Reaches(t, [], root)
            && (forall y, n :: Reaches(t, [n], y) ==> y == x && n == name)
  {
    var t, c := OneFile(root, x, name), [name];
    assert c[..0] == [];
    assert Reaches(t, c[..0], root);
    forall y, n | Reaches(t, [n], y)
      ensures y == x && n == name
    {
      assert [n][|[n]| - 1] == n;
    }
  }

  /** `p` is the clean path of a child of the root called `name`. */
  predicate TopPath(p: string, name: string) {
    IsName(name) && IsClean(p) && SplitPath(p) == [name]
  }

  /** Lookups of an unchanging tree never touch the entry of a path that leads nowhere. */
  lemma {:induction false} StaleEntryStays(s: State, ops: seq<Op>, t: Tree, q: string)
    requires WellFormed(t) && KeysRight(s) && s.root == t.root && AllFaithful(ops, t)
    requires forall i | 0 <= i < |ops| :: IsLookup(ops[i])
    requires Hit(s, q) && forall y :: !Reaches(t, SplitPath(q), y)
    ensures Hit(Run(s, ops), q) && Run(s, ops).pathLinks[q] == s.pathLinks[q] && KeysRight(Run(s, ops))
    decreases |ops|
  {
    hide Step, Reaches, Retold;
    if ops != [] {
      var s1 := Step(s, ops[0]);
      LookupLearns(s, ops[0], t);
      assert !Fresh(s1, t, q);
      StaleEntryStays(s1, ops[1..], t, q);
    }
  }

  /**
   * `x` is cached at one path, renamed remotely, and looked up at its new path
   * before its event is handled. The event then prunes the new path, and the
   * old one still resolves to `x`, although nothing has that name any more,
   * through any number of further lookups.
   */
  lemma {:induction false} LookupBeforeEventLeavesStaleEntry(root: LinkID, x: LinkID, a: string, b: string,
      pa: string, pb: string,
      store: BlockStore.Store, api1: Api, api2: Api, api3: Api, now: nat, ops: seq<Op>)
    requires x != root && TopPath(pa, a) && TopPath(pb, b) && a != b
    requires Faithful(api1, OneFile(root, x, a)) && NeverFails(api1)
    requires Faithful(api2, OneFile(root, x, b)) && NeverFails(api2)
    requires AllFaithful(ops, OneFile(root, x, b)) && forall i | 0 <= i < |ops| :: IsLookup(ops[i])
    ensures var s1 := Resolve(Initial(root, 30), api1, pa, now).0;
            var s2 := Resolve(s1, api2, pb, now).0;
            var ev := LinkEvent(Update, OneFile(root, x, b).links[x]);
            var s3 := Handled(PollerState(s2, store, [], ""), ev, api3, now).session;
            && Changes(OneFile(root, x, a), OneFile(root, x, b), ev)
            && pa in s3.pathLinks && !Coherent(s3, OneFile(root, x, b))
            && Resolve(Run(s3, ops), api3, pa, now).1 == Ok((x, NodeKey(x)))
  {
    hide Resolve, Handled, Run, Render, AllFaithful, NeverFails, Faithful;
    var s1 := Resolve(Initial(root, 30), api1, pa, now).0;
    FirstLookup(OneFile(root, x, a), a, pa, pb, b, x, api1, now);
    var s2 := Resolve(s1, api2, pb, now).0;
    SecondLookup(s1, OneFile(root, x, b), a, b, pa, pb, x, api2, now);
    OneFileShape(root, x, b);
    OneFileShape(root, x, a);
    StaleAfterEvent(s2, root, x, a, b, pa, pb, store, api3, now, ops);
  }

  lemma {:induction false} StaleAfterEvent(s: State, root: LinkID, x: LinkID, a: string, b: string, pa: string,
      pb: string,
      store: BlockStore.Store, api: Api, now: nat, ops: seq<Op>)
    requires x != root && TopPath(pa, a) && TopPath(pb, b) && a != b && KeysRight(s) && s.root == root
    requires Hit(s, pa) && s.pathLinks[pa] == x && LinkPath(s, x) == pb && LinkPath(s, root) == "/"
    requires AllFaithful(ops, OneFile(root, x, b)) && forall i | 0 <= i < |ops| :: IsLookup(ops[i])
    ensures var t := OneFile(root, x, b);
            var s' := Handled(PollerState(s, store, [], ""), LinkEvent(Update, t.links[x]), api, now).session;
            && pa in s'.pathLinks && !IsPathOf(t, pa, s'.pathLinks[pa])
            && Resolve(Run(s', ops), api, pa, now).1 == Ok((x, NodeKey(x)))
  {
    hide Handled, Run, AllFaithful, Render, AtOrUnder, WalkFromRoot, Clean, Normalize, Split;
    var t := OneFile(root, x, b);
    var ev := LinkEvent(Update, t.links[x]);
    HandledForwardMap(PollerState(s, store, [], ""), ev, api, now);
    NotAtOrUnder(pb, b, pa, a);
    CleanPathShape(pa);
    OneFileShape(root, x, b);
    StaleEntryStays(Handled(PollerState(s, store, [], ""), ev, api, now).session, ops, t, pa);
  }

  /** Pruning one child of the root, or "/", spares another child. */
  lemma NotAtOrUnder(p: string, n: string, q: string, m: string)
    requires TopPath(p, n) && TopPath(q, m) && n != m
    ensures p != "" && !AtOrUnder(p, q) && !AtOrUnder("/", q)
  {
    hide Render, SplitPath, Clean, AtOrUnder;
    CleanPathShape(p);
    CleanPathShape(q);
    RootIsPath(Tree("", map[]));
    assert SplitPath(p)[0] != SplitPath(q)[0];
    AtOrUnderIsAncestor(p, q);
    AtOrUnderIsAncestor("/", q);
  }

  lemma FirstLookup(t: Tree, a: string, pa: string, pb: string, b: string, x: LinkID, api: Api, now: nat)
    requires TopPath(pa, a) && TopPath(pb, b) && a != b && x != t.root && t == OneFile(t.root, x, a)
    requires Faithful(api, t) && NeverFails(api)
    ensures var s1 := Resolve(Initial(t.root, 30), api, pa, now).0;
            && KeysRight(s1) && s1.root == t.root && Hit(s1, pa) && s1.pathLinks[pa] == x
            && pb !in s1.pathLinks
  {
    hide Render, Resolve, Clean;
    var s := Initial(t.root, 30);
    OneFileShape(t.root, x, a);
    CleanPathShape(pa);
    MissFinds(s, api, t, pa, x, now);
    SlowSuccessHits(s, api, pa, now, 1);
    ResolveLearns(s, api, t, pa, now);
    var s1 := Resolve(s, api, pa, now).0;
    assert SplitPath(pa)[..1] == SplitPath(pa);
    assert Fresh(s1, t, pa);
    assert !Fresh(s1, t, pb);
  }

  lemma {:induction false} SecondLookup(s: State, t: Tree, a: string, b: string, pa: string, pb: string, x: LinkID,
      api: Api, now: nat)
    requires TopPath(pa, a) && TopPath(pb, b) && a != b && x != t.root && t == OneFile(t.root, x, b)
    requires KeysRight(s) && s.root == t.root && Faithful(api, t) && NeverFails(api)
    requires Hit(s, pa) && s.pathLinks[pa] == x && pb !in s.pathLinks
    ensures var s2 := Resolve(s, api, pb, now).0;
            && Hit(s2, pa) && s2.pathLinks[pa] == x && KeysRight(s2) && s2.root == t.root
            && LinkPath(s2, x) == pb && LinkPath(s2, t.root) == "/"
  {
    hide Resolve, Clean, Split, Normalize, Tail;
    OneFileShape(t.root, x, b);
    CleanPathShape(pb);
    MissFinds(s, api, t, pb, x, now);
    SlowSuccessHits(s, api, pb, now, 1);
    ResolveLearns(s, api, t, pb, now);
    var s2 := Resolve(s, api, pb, now).0;
    var c := SplitPath(pb);
    assert c[..1] == c && c[..0] == [];
    assert Fresh(s2, t, pb);
    assert Reaches(t, c[..1], x) && Reaches(t, c[..0], t.root);
    assert !Fresh(s2, t, pa);
  }
}
