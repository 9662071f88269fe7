/**
 * One batch of events, handled one after the other with no lookup in between:
 * exactly which entries survive it, and two renames that between them leave a
 * wrong one.
 */
module Batches {
  import opened Outcome
  import opened Paths
  import opened Remote
  import opened Metadata
  import opened Sessions
  import opened Events
  import opened PathCache
  import opened Coherence
  import opened Records
  import opened EventRuns

  // ----- exactly when a batch is enough -----

  /** Some event of the batch prunes the entry, by the paths recorded when its turn comes. */
  ghost predicate PrunedInBatch(ps: PollerState, events: seq<LinkEvent>, api: Api, now: nat, q: string) {
    exists i :: 0 <= i < |events| && Pruned(HandledAll(ps, events[..i], api, now).session, events[i], q)
  }

  ghost function BatchSurvivors(ps: PollerState, events: seq<LinkEvent>, api: Api, now: nat): map<string, LinkID> {
    map q | q in ps.session.pathLinks && !PrunedInBatch(ps, events, api, now, q) :: ps.session.pathLinks[q]
  }

  lemma {:induction false} BatchForwardMap(ps: PollerState, events: seq<LinkEvent>, api: Api, now: nat)
    ensures var s, s' := ps.session, HandledAll(ps, events, api, now).session;
            s'.pathLinks == BatchSurvivors(ps, events, api, now) && s'.nodeKRs == s.nodeKRs && s'.root == s.root
    decreases |events|
  {
    hide Pruned, Handled;
    if events != [] {
      var front := events[..|events| - 1];
      BatchForwardMap(ps, front, api, now);
      HandledForwardMap(HandledAll(ps, front, api, now), events[|events| - 1], api, now);
      forall q
        ensures PrunedInBatch(ps, events, api, now, q)
           <==> PrunedInBatch(ps, front, api, now, q)
                || Pruned(HandledAll(ps, front, api, now).session, events[|events| - 1], q)
      {
        PrunedByLast(ps, events, api, now, q);
      }
    }
  }

  lemma PrunedByLast(ps: PollerState, events: seq<LinkEvent>, api: Api, now: nat, q: string)
    requires events != []
    ensures PrunedInBatch(ps, events, api, now, q)
       <==> PrunedInBatch(ps, events[..|events| - 1], api, now, q)
            || Pruned(HandledAll(ps, events[..|events| - 1], api, now).session, events[|events| - 1], q)
  {
    hide Pruned, HandledAll;
    var front := events[..|events| - 1];
    assert forall i | 0 <= i <= |front| :: front[..i] == events[..i];
    assert forall i | 0 <= i < |front| :: front[i] == events[i];
    if PrunedInBatch(ps, front, api, now, q) {
      var i :| 0 <= i < |front| && Pruned(HandledAll(ps, front[..i], api, now).session, front[i], q);
      assert Pruned(HandledAll(ps, events[..i], api, now).session, events[i], q);
    }
    if PrunedInBatch(ps, events, api, now, q) {
      var i :| 0 <= i < |events| && Pruned(HandledAll(ps, events[..i], api, now).session, events[i], q);
      if i < |front| {
        assert Pruned(HandledAll(ps, front[..i], api, now).session, front[i], q);
      }
    }
  }

  /**
   * After a batch the forward map agrees with the tree if and only if each
   * entry that was wrong is pruned by one of its events, going by the paths
   * recorded when that event's turn comes.
   */
  lemma {:induction false} BatchCoherentIff(ps: PollerState, t: Tree, events: seq<LinkEvent>, api: Api, now: nat)
    ensures Coherent(HandledAll(ps, events, api, now).session, t)
       <==> forall q | q in ps.session.pathLinks && !IsPathOf(t, q, ps.session.pathLinks[q]) ::
              PrunedInBatch(ps, events, api, now, q)
  {
    hide HandledAll, IsPathOf, PrunedInBatch;
    BatchForwardMap(ps, events, api, now);
    var s, s' := ps.session, HandledAll(ps, events, api, now).session;
    assert forall q | q in s.pathLinks && !PrunedInBatch(ps, events, api, now, q) ::
      q in s'.pathLinks && s'.pathLinks[q] == s.pathLinks[q];
  }

  // ----- the same, read off the session before the batch -----

  /** The session after a batch, by what each event records in turn. */
  ghost function ForeseenAll(s: State, t: Tree, events: seq<LinkEvent>, api: Api, now: nat): State
    decreases |events|
  {
    if events == [] then s
    else Foreseen(ForeseenAll(s, t, events[..|events| - 1], api, now), t, events[|events| - 1], api, now)
  }

  lemma {:induction false} BatchLeaves(ps: PollerState, t: Tree, events: seq<LinkEvent>, api: Api, now: nat)
    requires WellFormed(t) && Faithful(api, t) && KeysRight(ps.session)
    ensures HandledAll(ps, events, api, now).session == ForeseenAll(ps.session, t, events, api, now)
    ensures KeysRight(HandledAll(ps, events, api, now).session)
    decreases |events|
  {
    hide Handled, Foreseen, Faithful, WellFormed;
    if events != [] {
      BatchLeaves(ps, t, events[..|events| - 1], api, now);
      EventLeaves(HandledAll(ps, events[..|events| - 1], api, now), events[|events| - 1], api, t, now);
    }
    BatchForwardMap(ps, events, api, now);
  }

  /** Some event of the batch prunes the entry, by the paths the events before it record. */
  ghost predicate PrunedInTurn(s: State, t: Tree, events: seq<LinkEvent>, api: Api, now: nat, q: string) {
    exists i :: 0 <= i < |events| && Pruned(ForeseenAll(s, t, events[..i], api, now), events[i], q)
  }

  lemma PrunedInTurnIff(ps: PollerState, t: Tree, events: seq<LinkEvent>, api: Api, now: nat, q: string)
    requires WellFormed(t) && Faithful(api, t) && KeysRight(ps.session)
    ensures PrunedInBatch(ps, events, api, now, q) <==> PrunedInTurn(ps.session, t, events, api, now, q)
  {
    hide Pruned, HandledAll, ForeseenAll, Faithful, WellFormed;
    forall i | 0 <= i < |events|
      ensures HandledAll(ps, events[..i], api, now).session == ForeseenAll(ps.session, t, events[..i], api, now)
    {
      BatchLeaves(ps, t, events[..i], api, now);
    }
  }

  /** The exact condition on the session before the batch, the tree and the requests that fail. */
  lemma {:induction false} BatchCoherentForeseen(ps: PollerState, t: Tree, events: seq<LinkEvent>, api: Api, now: nat)
    requires WellFormed(t) && Faithful(api, t) && KeysRight(ps.session)
    ensures Coherent(HandledAll(ps, events, api, now).session, t)
       <==> forall q | q in ps.session.pathLinks && !IsPathOf(t, q, ps.session.pathLinks[q]) ::
              PrunedInTurn(ps.session, t, events, api, now, q)
  {
    hide HandledAll, Coherent, IsPathOf, PrunedInBatch, PrunedInTurn, Faithful, WellFormed;
    BatchCoherentIff(ps, t, events, api, now);
    forall q
      ensures PrunedInBatch(ps, events, api, now, q) <==> PrunedInTurn(ps.session, t, events, api, now, q)
    {
      PrunedInTurnIff(ps, t, events, api, now, q);
    }
  }

  // ----- two renames in one batch -----

  /** A drive with two files in its root folder. */
  function TwoFiles(root: LinkID, x: LinkID, a: string, y: LinkID, b: string): Tree {
    Tree(root, map[x := Link(x, root, Some(a), true, StateActive), y := Link(y, root, Some(b), true, StateActive)])
  }

  lemma TwoFilesShape(root: LinkID, x: LinkID, a: string, y: LinkID, b: string)
    requires x != root && y != root && x != y && a != b
    ensures var t := TwoFiles(root, x, a, y, b);
            && WellFormed(t) && Reaches(t, [], root)
            && (forall z, n :: Reaches(t, [n], z) <==> (z == x && n == a) || (z == y && n == b))
  {
    var t := TwoFiles(root, x, a, y, b);
    forall z, n
      ensures Reaches(t, [n], z) <==> (z == x && n == a) || (z == y && n == b)
    {
      assert [n][|[n]| - 1] == n && [n][..0] == [];
    }
  }

  /** What looking up a child `x` of the root at `p` leaves behind. */
  ghost predicate LookedUp(s: State, s': State, root: LinkID, p: string, x: LinkID) {
    && s'.root == root && KeysRight(s')
    && s'.linkPaths == s.linkPaths[root := "/"][x := p]
    && s'.pathLinks == s.pathLinks["/" := root][p := x]
    && s'.nodeKRs == s.nodeKRs[root := NodeKey(root)][x := NodeKey(x)]
    && s'.meta.lists.Keys == s.meta.lists.Keys + {"/"}
  }

  lemma {:induction false} TopLookup(s: State, t: Tree, api: Api, p: string, n: string, x: LinkID, now: nat)
    requires TopPath(p, n) && WellFormed(t) && Faithful(api, t) && NeverFails(api) && KeysRight(s) && s.root == t.root
    requires !Hit(s, p) && x in t.links && t.links[x].unlockable && Reaches(t, [n], x)
    ensures LookedUp(s, Resolve(s, api, p, now).0, t.root, p, x)
  {
    hide Clean, Tail, Split, Normalize;
    CleanPathShape(p);
    var parts := [n];
    assert parts[..0] == [] && parts[..1] == parts;
    var s1 := s.(linkPaths := s.linkPaths[s.root := "/"]);
    var (s2, r) := RootKeyRing(s1, api);
    assert r == Ok(NodeKey(t.root));
    var s3 := s2.(pathLinks := s2.pathLinks["/" := s.root]);
    var ls := api.list(s3.calls, t.root).value;
    assert IsListing(t, t.root, ls);
    assert IsChild(t, t.root, n, x);
    FindsChild(t, t.root, ls, n);
    assert SameSlot(t.links[x], t.links[ChildNamed(t, t.root, n).value]);
    var s4 := Descend(s3, api, "/", p, n, t.root, NodeKey(t.root), now).0;
    assert Walk(s3, api, parts, 0, t.root, NodeKey(t.root), now).0 == s4;
  }

  /**
   * Both files of a drive are looked up, then both are renamed, and the poller
   * gets both events in one batch. Handling the first event lists the folder
   * again and so records the second file's new path; the second event then
   * prunes that, and the second file's old path still resolves to it.
   */
  lemma {:induction false} TwoRenamesLeaveStaleEntry(root: LinkID, x: LinkID, y: LinkID, a: string, b: string,
      a': string, b': string,
      pa: string, pb: string, store: BlockStore.Store, api: Api, api': Api, now: nat, later: nat)
    requires x != root && y != root && x != y && a != b && a' != b' && a' != b && b != b'
    requires TopPath(pa, a) && TopPath(pb, b) && IsName(a') && IsName(b')
    requires Faithful(api, TwoFiles(root, x, a, y, b)) && NeverFails(api)
    requires Faithful(api', TwoFiles(root, x, a', y, b')) && NeverFails(api')
    ensures var t0, t1, t2 := TwoFiles(root, x, a, y, b), TwoFiles(root, x, a', y, b), TwoFiles(root, x, a', y, b');
            var evs := [LinkEvent(Update, t1.links[x]), LinkEvent(Update, t2.links[y])];
            var s := Resolve(Resolve(Initial(root, 30), api, pa, now).0, api, pb, now).0;
            var s' := HandledAll(PollerState(s, store, [], ""), evs, api', later).session;
            && Changes(t0, t1, evs[0]) && Changes(t1, t2, evs[1])
            && Coherent(s, t0) && !Coherent(s', t2)
            && Resolve(s', api', pb, later).1 == Ok((y, NodeKey(y)))
  {
    var t0, t1, t2 := TwoFiles(root, x, a, y, b), TwoFiles(root, x, a', y, b), TwoFiles(root, x, a', y, b');
    TwoChanges(root, x, y, a, b, a', b');
    TwoLookups(root, x, y, a, b, pa, pb, api, now);
    hide *;
    var s := Resolve(Resolve(Initial(root, 30), api, pa, now).0, api, pb, now).0;
    TwoEvents(PollerState(s, store, [], ""), root, x, y, a, b, a', b', pa, pb, api', later);
  }

  lemma TwoChanges(root: LinkID, x: LinkID, y: LinkID, a: string, b: string, a': string, b': string)
    requires x != root && y != root && x != y && a != b && a' != b' && a' != b
    ensures var t1, t2 := TwoFiles(root, x, a', y, b), TwoFiles(root, x, a', y, b');
            && Changes(TwoFiles(root, x, a, y, b), t1, LinkEvent(Update, t1.links[x]))
            && Changes(t1, t2, LinkEvent(Update, t2.links[y]))
  {
    TwoFilesShape(root, x, a', y, b);
    TwoFilesShape(root, x, a', y, b');
  }

  /** Both files were looked up and the root listed. */
  ghost predicate BothKnown(s: State, root: LinkID, x: LinkID, y: LinkID, pa: string, pb: string) {
    && s.root == root && KeysRight(s) && root in s.nodeKRs && y in s.nodeKRs
    && LinkPath(s, root) == "/" && LinkPath(s, x) == pa && LinkPath(s, y) == pb
    && s.pathLinks.Keys == {"/", pa, pb} && s.pathLinks["/"] == root && s.pathLinks[pa] == x && s.pathLinks[pb] == y
    && s.meta.lists.Keys == {"/"}
  }

  lemma {:induction false} TwoLookups(root: LinkID, x: LinkID, y: LinkID, a: string, b: string, pa: string,
      pb: string, api: Api, now: nat)
    requires x != root && y != root && x != y && a != b && TopPath(pa, a) && TopPath(pb, b)
    requires Faithful(api, TwoFiles(root, x, a, y, b)) && NeverFails(api)
    ensures var s := Resolve(Resolve(Initial(root, 30), api, pa, now).0, api, pb, now).0;
            BothKnown(s, root, x, y, pa, pb) && Coherent(s, TwoFiles(root, x, a, y, b))
  {
    hide Resolve, Faithful, NeverFails, Reaches, WellFormed, Clean, SplitPath, Render, IsPathOf, BothKnown;
    var t, s0 := TwoFiles(root, x, a, y, b), Initial(root, 30);
    TwoFilesShape(root, x, a, y, b);
    NotRootPath(pa, a);
    NotRootPath(pb, b);
    TopLookup(s0, t, api, pa, a, x, now);
    var s1 := Resolve(s0, api, pa, now).0;
    TopLookup(s1, t, api, pb, b, y, now);
    TwoLookedUp(s1, Resolve(s1, api, pb, now).0, root, x, y, pa, pb);
    BothKnownIsCoherent(Resolve(s1, api, pb, now).0, root, x, y, a, b, pa, pb);
  }

  lemma TwoLookedUp(s1: State, s2: State, root: LinkID, x: LinkID, y: LinkID, pa: string, pb: string)
    requires x != root && y != root && x != y && pa != pb && pa != "/" && pb != "/"
    requires LookedUp(Initial(root, 30), s1, root, pa, x) && LookedUp(s1, s2, root, pb, y)
    ensures BothKnown(s2, root, x, y, pa, pb)
  {
  }

  lemma NotRootPath(p: string, n: string)
    requires TopPath(p, n)
    ensures p != "/"
  {
    RootIsPath(Tree("", map[]));
  }

  lemma BothKnownIsCoherent(s: State, root: LinkID, x: LinkID, y: LinkID, a: string, b: string, pa: string, pb: string)
    requires x != root && y != root && x != y && a != b && TopPath(pa, a) && TopPath(pb, b)
    requires BothKnown(s, root, x, y, pa, pb)
    ensures Coherent(s, TwoFiles(root, x, a, y, b))
  {
    hide KeysRight, SplitPath;
    TwoFilesShape(root, x, a, y, b);
    RootIsPath(TwoFiles(root, x, a, y, b));
  }

  lemma {:induction false} TwoEvents(ps: PollerState, root: LinkID, x: LinkID, y: LinkID, a: string, b: string,
      a': string, b': string,
      pa: string, pb: string, api: Api, now: nat)
    requires x != root && y != root && x != y && a != b && a' != b' && b != b'
    requires TopPath(pa, a) && TopPath(pb, b) && IsName(b')
    requires Faithful(api, TwoFiles(root, x, a', y, b')) && NeverFails(api) && BothKnown(ps.session, root, x, y, pa, pb)
    ensures var t := TwoFiles(root, x, a', y, b');
            var s' := HandledAll(ps, [LinkEvent(Update, t.links[x]), LinkEvent(Update, t.links[y])], api, now).session;
            !Coherent(s', t) && Resolve(s', api, pb, now).1 == Ok((y, NodeKey(y)))
  {
    hide Handled, HandledAll, Faithful, WalkFromRoot, Clean, AtOrUnder, ChildPath;
    var t := TwoFiles(root, x, a', y, b');
    var ev1, ev2 := LinkEvent(Update, t.links[x]), LinkEvent(Update, t.links[y]);
    var ps1 := Handled(ps, ev1, api, now);
    HandledTwo(ps, ev1, ev2, api, now);
    FirstEvent(ps, root, x, y, a, b, a', b', pa, pb, api, now);
    HandledForwardMap(ps1, ev2, api, now);
    NotAtOrUnder(ChildPath("/", b'), b', pb, b);
    CleanPathShape(pb);
    TwoFilesShape(root, x, a', y, b');
    assert !Pruned(ps1.session, ev2, pb);
    assert pb in Handled(ps1, ev2, api, now).session.pathLinks;
    assert !IsPathOf(t, pb, y);
    assert Hit(Handled(ps1, ev2, api, now).session, pb);
  }

  lemma HandledTwo(ps: PollerState, ev1: LinkEvent, ev2: LinkEvent, api: Api, now: nat)
    ensures HandledAll(ps, [ev1, ev2], api, now) == Handled(Handled(ps, ev1, api, now), ev2, api, now)
  {
    hide Handled;
    assert [ev1, ev2][..1] == [ev1] && [ev1][..0] == [];
    assert HandledAll(ps, [ev1], api, now) == Handled(ps, ev1, api, now);
  }

  /** The first event records the second file's new path and spares its old one. */
  lemma {:induction false} FirstEvent(ps: PollerState, root: LinkID, x: LinkID, y: LinkID, a: string, b: string,
      a': string, b': string,
      pa: string, pb: string, api: Api, now: nat)
    requires x != root && y != root && x != y && a != b && a' != b'
    requires TopPath(pa, a) && TopPath(pb, b) && IsName(b')
    requires Faithful(api, TwoFiles(root, x, a', y, b')) && NeverFails(api) && BothKnown(ps.session, root, x, y, pa, pb)
    ensures var t := TwoFiles(root, x, a', y, b');
            var s' := Handled(ps, LinkEvent(Update, t.links[x]), api, now).session;
            && LinkPath(s', y) == ChildPath("/", b') && LinkPath(s', root) == "/" && TopPath(ChildPath("/", b'), b')
            && pb in s'.pathLinks && s'.pathLinks[pb] == y && s'.nodeKRs == ps.session.nodeKRs
  {
    hide Handled, Faithful, Clean, AtOrUnder, ChildPath;
    var t, s := TwoFiles(root, x, a', y, b'), ps.session;
    var ev := LinkEvent(Update, t.links[x]);
    TwoFilesShape(root, x, a', y, b');
    HandledForwardMap(ps, ev, api, now);
    EventRecords(ps, ev, api, t, now);
    NotRootPath(pa, a);
    NotRootPath(pb, b);
    NotAtOrUnder(pa, a, pb, b);
    TopChild(b');
    assert api.list(s.calls, root).Ok?;
    assert ParentDiff(s, ev.link, api) && !OwnDiff(s, ev.link, api);
  }

  lemma TopChild(n: string)
    requires IsName(n)
    ensures TopPath(ChildPath("/", n), n)
  {
    ChildPathOfRender([], n);
    RenderInverse([n]);
    assert [] + [n] == [n];
  }
}
