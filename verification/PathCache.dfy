/**
 * What the path caches mean: the forward map, the reverse map and the keyrings
 * against the tree they were learned from.
 */
module PathCache {
  import opened Outcome
  import opened Paths
  import opened Remote
  import opened Metadata
  import opened Sessions

  ghost predicate KeysRight(s: State) {
    forall id | id in s.nodeKRs :: s.nodeKRs[id] == NodeKey(id)
  }

  /** The reverse map knows every link on the path `c`. */
  ghost predicate Charted(s: State, t: Tree, c: seq<string>) {
    forall k: nat, y | k <= |c| && Reaches(t, c[..k], y) ::
      y in s.linkPaths && s.linkPaths[y] == Render(c[..k])
  }

  /** The reverse map is right about every link on the path `c` that it knows. */
  ghost predicate NotMischarted(s: State, t: Tree, c: seq<string>) {
    forall k: nat, y | k <= |c| && Reaches(t, c[..k], y) && y in s.linkPaths ::
      s.linkPaths[y] == Render(c[..k])
  }

  /** A forward entry that is right, and whose path the reverse map is right about. */
  ghost predicate Good(s: State, t: Tree, q: string) {
    && q in s.pathLinks
    && IsPathOf(t, q, s.pathLinks[q])
    && NotMischarted(s, t, SplitPath(q))
  }

  ghost predicate Fresh(s: State, t: Tree, q: string) {
    && q in s.pathLinks
    && IsPathOf(t, q, s.pathLinks[q])
    && Charted(s, t, SplitPath(q))
  }

  ghost predicate AllRight(links: map<string, LinkID>, t: Tree) {
    forall q | q in links :: IsPathOf(t, q, links[q])
  }

  /** Every forward entry resolves as the walk does. */
  ghost predicate Coherent(s: State, t: Tree) {
    AllRight(s.pathLinks, t)
  }

  ghost predicate AllGood(s: State, t: Tree) {
    && s.root == t.root
    && KeysRight(s)
    && forall q | q in s.pathLinks :: Good(s, t, q)
  }

  /** The reverse map only gained or corrected entries. */
  ghost predicate Retold(s: State, s': State, t: Tree) {
    && (forall y | y in s.linkPaths :: y in s'.linkPaths)
    && (forall y | y in s'.linkPaths ::
          || (y in s.linkPaths && s'.linkPaths[y] == s.linkPaths[y])
          || IsPathOf(t, s'.linkPaths[y], y))
  }

  /** What any lookup against tree `t` may do to the path caches. */
  ghost predicate Learns(s: State, s': State, t: Tree) {
    && s'.root == s.root
    && KeysRight(s')
    && Retold(s, s', t)
    && (forall id | id in s.nodeKRs :: id in s'.nodeKRs)
    && (forall q | q in s.pathLinks :: q in s'.pathLinks)
    && (forall q | q in s'.pathLinks ::
          (q in s.pathLinks && s'.pathLinks[q] == s.pathLinks[q]) || Fresh(s', t, q))
  }

  // ----- lookups only learn -----

  lemma {:induction false} ChartedKept(s: State, s': State, t: Tree, c: seq<string>)
    requires WellFormed(t) && Retold(s, s', t) && Charted(s, t, c)
    ensures Charted(s', t, c)
  {
    hide Render, SplitPath;
    forall k: nat, y | k <= |c| && Reaches(t, c[..k], y)
      ensures y in s'.linkPaths && s'.linkPaths[y] == Render(c[..k])
    {
      if s'.linkPaths[y] != s.linkPaths[y] {
        PathUnique(t, c[..k], SplitPath(s'.linkPaths[y]), y);
      }
    }
  }

  lemma {:induction false} NotMischartedKept(s: State, s': State, t: Tree, c: seq<string>)
    requires WellFormed(t) && Retold(s, s', t) && NotMischarted(s, t, c)
    ensures NotMischarted(s', t, c)
  {
    forall k: nat, y | k <= |c| && Reaches(t, c[..k], y) && y in s'.linkPaths
      ensures s'.linkPaths[y] == Render(c[..k])
    {
      if !(y in s.linkPaths && s'.linkPaths[y] == s.linkPaths[y]) {
        PathUnique(t, c[..k], SplitPath(s'.linkPaths[y]), y);
      }
    }
  }

  lemma RetoldTrans(a: State, b: State, c: State, t: Tree)
    requires Retold(a, b, t) && Retold(b, c, t)
    ensures Retold(a, c, t)
  {
  }

  lemma {:induction false} LearnsTrans(a: State, b: State, c: State, t: Tree)
    requires WellFormed(t) && Learns(a, b, t) && Learns(b, c, t)
    ensures Learns(a, c, t)
  {
    RetoldTrans(a, b, c, t);
    forall q | q in c.pathLinks
      ensures (q in a.pathLinks && c.pathLinks[q] == a.pathLinks[q]) || Fresh(c, t, q)
    {
      if !Fresh(c, t, q) {
        assert q in b.pathLinks && c.pathLinks[q] == b.pathLinks[q];
        if Fresh(b, t, q) {
          ChartedKept(b, c, t, SplitPath(q));
        }
      }
    }
  }

  lemma LearnsFromQuiet(s: State, s': State, t: Tree)
    requires KeysRight(s) && s' == s.(calls := s'.calls, meta := s'.meta)
    ensures Learns(s, s', t)
  {
  }

  /** Learning one child of a folder whose own path is charted. */
  lemma LearnedLearns(s: State, t: Tree, c: seq<string>, n: string, id: LinkID)
    requires WellFormed(t) && KeysRight(s) && AllNames(c + [n])
    requires Charted(s, t, c) && Reaches(t, c + [n], id)
    ensures Learns(s, Learned(s, Render(c + [n]), id, NodeKey(id)), t)
    ensures Charted(Learned(s, Render(c + [n]), id, NodeKey(id)), t, c + [n])
  {
    var d := c + [n];
    var p := Render(d);
    var s' := Learned(s, p, id, NodeKey(id));
    RenderInverse(d);
    assert Retold(s, s', t);
    forall k: nat, y | k <= |d| && Reaches(t, d[..k], y)
      ensures y in s'.linkPaths && s'.linkPaths[y] == Render(d[..k])
    {
      if y == id {
        PathUnique(t, d[..k], d, y);
      } else {
        if k == |d| {
          assert d[..k] == d;
          TargetUnique(t, d, y, id);
          assert false;
        }
        assert d[..k] == c[..k];
      }
    }
    assert Charted(s', t, d);
    assert Fresh(s', t, p);
  }

  lemma DescendLearns(s: State, api: Api, t: Tree, c: seq<string>, n: string, id: LinkID, now: nat)
    requires WellFormed(t) && Faithful(api, t) && KeysRight(s) && AllNames(c + [n])
    requires Charted(s, t, c) && Reaches(t, c, id)
    ensures var (s', r) := Descend(s, api, Render(c), Render(c + [n]), n, id, NodeKey(id), now);
            && Learns(s, s', t)
            && (r.Ok? ==> Reaches(t, c + [n], r.value.0) && r.value.1 == NodeKey(r.value.0)
                          && Charted(s', t, c + [n]))
  {
    var reply := api.list(s.calls, id);
    if reply.Fail? {
      LearnsFromQuiet(s, s.(calls := s.calls + 1), t);
    } else {
      assert IsListing(t, id, reply.value);
      var kr := NodeKey(id);
      var s1 := Fetched(s, Render(c), reply.value, kr, now);
      LearnsFromQuiet(s, s1, t);
      var child := FindNamed(reply.value, kr, n);
      if child.Some? && GetKeyRing(child.value, kr).Some? {
        ReachesSnoc(t, c, n, child.value.id);
        assert Charted(s1, t, c);
        LearnedLearns(s1, t, c, n, child.value.id);
        LearnsTrans(s, s1, Learned(s1, Render(c + [n]), child.value.id, NodeKey(child.value.id)), t);
      }
    }
  }

  lemma {:induction false} WalkLearns(s: State, api: Api, t: Tree, parts: seq<string>, done: nat, id: LinkID, now: nat)
    requires WellFormed(t) && Faithful(api, t) && KeysRight(s) && AllNames(parts) && done <= |parts|
    requires Charted(s, t, parts[..done]) && Reaches(t, parts[..done], id)
    ensures var (s', r) := Walk(s, api, parts, done, id, NodeKey(id), now);
            && Learns(s, s', t)
            && (r.Ok? ==> Reaches(t, parts, r.value.0) && r.value.1 == NodeKey(r.value.0))
    decreases |parts| - done
  {
    if done == |parts| {
      assert parts[..done] == parts;
      LearnsFromQuiet(s, s, t);
    } else {
      var c, n := parts[..done], parts[done];
      assert parts[..done + 1] == c + [n];
      DescendLearns(s, api, t, c, n, id, now);
      var (s1, r) := Descend(s, api, Render(c), Render(c + [n]), n, id, NodeKey(id), now);
      if r.Ok? {
        WalkLearns(s1, api, t, parts, done + 1, r.value.0, now);
        var (s2, _) := Walk(s1, api, parts, done + 1, r.value.0, r.value.1, now);
        LearnsTrans(s, s1, s2, t);
      }
    }
  }

  lemma {:induction false} RootIsPath(t: Tree)
    ensures IsPathOf(t, "/", t.root) && SplitPath("/") == []
  {
    RenderInverse([]);
  }

  /** The root's entry in the reverse map. */
  lemma RootSeedLearns(s: State, t: Tree)
    requires KeysRight(s) && s.root == t.root
    ensures var s1 := s.(linkPaths := s.linkPaths[s.root := "/"]);
            Learns(s, s1, t) && Charted(s1, t, [])
  {
    hide IsClean, SplitPath;
    RootIsPath(t);
    var none: seq<string> := [];
    assert none[..0] == none;
  }

  /** The root's entry in the forward map. */
  lemma RootEntryLearns(s: State, t: Tree)
    requires KeysRight(s) && s.root == t.root && Charted(s, t, [])
    ensures var s1 := s.(pathLinks := s.pathLinks["/" := s.root]);
            Learns(s, s1, t) && Charted(s1, t, [])
  {
    hide IsClean, SplitPath, NotMischarted;
    RootIsPath(t);
    var s1 := s.(pathLinks := s.pathLinks["/" := s.root]);
    assert Charted(s1, t, []);
    assert Fresh(s1, t, "/");
  }

  lemma RootKeyLearns(s: State, api: Api, t: Tree)
    requires Faithful(api, t) && KeysRight(s) && s.root == t.root
    ensures var (s', r) := RootKeyRing(s, api);
            && Learns(s, s', t) && s'.linkPaths == s.linkPaths
            && (r.Ok? ==> r.value == NodeKey(t.root))
  {
    hide IsPathOf, Charted;
  }

  /** Seeding the root entry of both maps. */
  lemma {:induction false} RootLearns(s: State, api: Api, t: Tree)
    requires WellFormed(t) && Faithful(api, t) && KeysRight(s) && s.root == t.root
    ensures var s1 := s.(linkPaths := s.linkPaths[s.root := "/"]);
            var (s2, r) := RootKeyRing(s1, api);
            && Learns(s, s2, t) && s2.root == t.root
            && (r.Ok? ==> r.value == NodeKey(t.root))
            && (r.Ok? ==> var s3 := s2.(pathLinks := s2.pathLinks["/" := s.root]);
                          Learns(s, s3, t) && Charted(s3, t, []))
  {
    hide IsPathOf, Fresh, RootKeyRing;
    var s1 := s.(linkPaths := s.linkPaths[s.root := "/"]);
    RootSeedLearns(s, t);
    RootKeyLearns(s1, api, t);
    var (s2, r) := RootKeyRing(s1, api);
    LearnsTrans(s, s1, s2, t);
    assert Charted(s2, t, []);
    RootEntryLearns(s2, t);
    LearnsTrans(s, s2, s2.(pathLinks := s2.pathLinks["/" := s.root]), t);
  }

  /** Resolving a path: what it leaves behind and what it returns. */
  lemma {:induction false} ResolveLearns(s: State, api: Api, t: Tree, p: string, now: nat)
    requires WellFormed(t) && Faithful(api, t) && KeysRight(s) && s.root == t.root
    ensures var (s', r) := Resolve(s, api, p, now);
            && Learns(s, s', t)
            && (r.Ok? && !Hit(s, Clean(p)) ==>
                  Reaches(t, SplitPath(p), r.value.0) && r.value.1 == NodeKey(r.value.0))
  {
    var q := Clean(p);
    SplitPathComponents(p);
    CleanPathShape(q);
    RenderInverse(SplitPath(p));
    if Hit(s, q) {
      LearnsFromQuiet(s, s, t);
    } else {
      RootLearns(s, api, t);
      var s1 := s.(linkPaths := s.linkPaths[s.root := "/"]);
      var (s2, r) := RootKeyRing(s1, api);
      if r.Ok? {
        var s3 := s2.(pathLinks := s2.pathLinks["/" := s.root]);
        var parts := SplitPath(q);
        assert parts[..0] == [];
        WalkLearns(s3, api, t, parts, 0, t.root, now);
        LearnsTrans(s, s3, Walk(s3, api, parts, 0, t.root, r.value, now).0, t);
      }
    }
  }

  lemma {:induction false} ListLearns(s: State, api: Api, t: Tree, p: string, now: nat)
    requires WellFormed(t) && Faithful(api, t) && KeysRight(s) && s.root == t.root
    ensures Learns(s, List(s, api, p, now).0, t)
  {
    if FreshList(s.meta, p, now).Some? {
      LearnsFromQuiet(s, s, t);
    } else {
      ResolveLearns(s, api, t, p, now);
      var (s1, _) := Resolve(s, api, p, now);
      LearnsFromQuiet(s1, List(s, api, p, now).0, t);
      LearnsTrans(s, s1, List(s, api, p, now).0, t);
    }
  }

  lemma StatRootLearns(s: State, api: Api, t: Tree, now: nat)
    requires WellFormed(t) && Faithful(api, t) && KeysRight(s) && s.root == t.root
    ensures Learns(s, StatRoot(s, api, now).0, t)
  {
    hide RootKeyRing, Learns, Clean;
    var s0 := s.(calls := s.calls + 1);
    LearnsFromQuiet(s, s0, t);
    RootKeyLearns(s0, api, t);
    LearnsTrans(s, s0, RootKeyRing(s0, api).0, t);
  }

  lemma {:induction false} StatUncachedLearns(s: State, api: Api, t: Tree, p: string, now: nat)
    requires WellFormed(t) && Faithful(api, t) && KeysRight(s) && s.root == t.root
    ensures Learns(s, StatUncached(s, api, p, now).0, t)
  {
    hide Resolve, List, StatRoot, Learns, Dir, Clean, Base;
    if p == "/" {
      StatRootLearns(s, api, t, now);
    } else {
      var parent := Dir(Clean(p));
      ResolveLearns(s, api, t, parent, now);
      var (s0, r0) := Resolve(s, api, parent, now);
      if r0.Ok? {
        ListLearns(s0, api, t, Dir(p), now);
        LearnsTrans(s, s0, List(s0, api, Dir(p), now).0, t);
      }
    }
  }

  lemma {:induction false} StatLearns(s: State, api: Api, t: Tree, path: string, now: nat)
    requires WellFormed(t) && Faithful(api, t) && KeysRight(s) && s.root == t.root
    ensures Learns(s, Stat(s, api, path, now).0, t)
  {
    var p := Clean(path);
    if FreshStat(s.meta, p, now).Some? {
      LearnsFromQuiet(s, s, t);
    } else {
      StatUncachedLearns(s, api, t, p, now);
      var (s1, _) := StatUncached(s, api, p, now);
      var s2 := Stat(s, api, path, now).0;
      LearnsFromQuiet(s1, s2, t);
      LearnsTrans(s, s1, s2, t);
    }
  }

  /** Good entries stay good when a lookup learns more. */
  lemma {:induction false} LearnsKeepsGood(s: State, s': State, t: Tree, q: string)
    requires WellFormed(t) && Learns(s, s', t) && q in s'.pathLinks
    requires q in s.pathLinks ==> Good(s, t, q)
    ensures Good(s', t, q)
  {
    if !Fresh(s', t, q) {
      NotMischartedKept(s, s', t, SplitPath(q));
    }
  }

  lemma {:induction false} LearnsKeepsAllGood(s: State, s': State, t: Tree)
    requires WellFormed(t) && Learns(s, s', t) && AllGood(s, t)
    ensures AllGood(s', t)
  {
    forall q | q in s'.pathLinks
      ensures Good(s', t, q)
    {
      LearnsKeepsGood(s, s', t, q);
    }
  }

  // ----- the fast path refines the walk -----

  /** The session operations a client can cause, in any order. */
  datatype Op =
    | DoResolve(api: Api, path: string, now: nat)
    | DoList(api: Api, path: string, now: nat)
    | DoStat(api: Api, path: string, now: nat)
    | ForgetPath(path: string)
    | ForgetLink(api: Api, id: LinkID)
    | ForgetAll

  function Step(s: State, op: Op): State {
    match op
    case DoResolve(api, p, now) => Resolve(s, api, p, now).0
    case DoList(api, p, now) => List(s, api, p, now).0
    case DoStat(api, p, now) => Stat(s, api, p, now).0
    case ForgetPath(p) => InvalidatePath(s, p)
    case ForgetLink(api, id) => InvalidateLink(s, id, api)
    case ForgetAll => InvalidateAll(s)
  }

  function Run(s: State, ops: seq<Op>): State
    decreases |ops|
  {
    if ops == [] then s else Run(Step(s, ops[0]), ops[1..])
  }

  predicate IsLookup(op: Op) {
    op.DoResolve? || op.DoList? || op.DoStat?
  }

  ghost predicate AllFaithful(ops: seq<Op>, t: Tree) {
    forall i | 0 <= i < |ops| :: IsLookup(ops[i]) ==> Faithful(ops[i].api, t)
  }

  lemma {:induction false} LookupLearns(s: State, op: Op, t: Tree)
    requires WellFormed(t) && KeysRight(s) && s.root == t.root
    requires IsLookup(op) && Faithful(op.api, t)
    ensures Learns(s, Step(s, op), t)
  {
    match op
    case DoResolve(api, p, now) => ResolveLearns(s, api, t, p, now);
    case DoList(api, p, now) => ListLearns(s, api, t, p, now);
    case DoStat(api, p, now) => StatLearns(s, api, t, p, now);
  }

  lemma {:induction false} StepKeepsAllGood(s: State, op: Op, t: Tree)
    requires WellFormed(t) && AllGood(s, t)
    requires IsLookup(op) ==> Faithful(op.api, t)
    ensures AllGood(Step(s, op), t)
  {
    if IsLookup(op) {
      LookupLearns(s, op, t);
      LearnsKeepsAllGood(s, Step(s, op), t);
    } else {
      var s' := Step(s, op);
      forall q | q in s'.pathLinks
        ensures Good(s', t, q)
      {
        assert Good(s, t, q);
      }
    }
  }

  lemma {:induction false} RunKeepsAllGood(s: State, ops: seq<Op>, t: Tree)
    requires WellFormed(t) && AllGood(s, t) && AllFaithful(ops, t)
    ensures AllGood(Run(s, ops), t)
    decreases |ops|
  {
    if ops != [] {
      StepKeepsAllGood(s, ops[0], t);
      RunKeepsAllGood(Step(s, ops[0]), ops[1..], t);
    }
  }

  /**
   * Against an unchanging tree, after any sequence of lookups and
   * invalidations with requests failing at will, a successful `resolvePath`
   * returns exactly the link and keyring the root-to-leaf walk ends at.
   */
  lemma FastPathRefinesWalk(root: LinkID, ttl: nat, ops: seq<Op>, t: Tree, api: Api, p: string, now: nat)
    requires WellFormed(t) && t.root == root && AllFaithful(ops, t) && Faithful(api, t)
    ensures var r := Resolve(Run(Initial(root, ttl), ops), api, p, now).1;
            r.Ok? ==> forall y :: Reaches(t, SplitPath(p), y) <==> r.value == (y, NodeKey(y))
  {
    var s := Run(Initial(root, ttl), ops);
    RunKeepsAllGood(Initial(root, ttl), ops, t);
    ResolveLearns(s, api, t, p, now);
    var r := Resolve(s, api, p, now).1;
    if r.Ok? {
      SplitPathComponents(p);
      CleanPathShape(Clean(p));
      RenderInverse(SplitPath(p));
      if Hit(s, Clean(p)) {
        assert Good(s, t, Clean(p));
      }
      forall y | Reaches(t, SplitPath(p), y)
        ensures y == r.value.0
      {
        TargetUnique(t, SplitPath(p), y, r.value.0);
      }
    }
  }

  // ----- and finds whatever the walk can find -----

  ghost predicate NeverFails(api: Api) {
    && (forall k, id :: api.list(k, id).Ok?)
    && (forall k :: api.rootKey(k).Ok?)
  }

  /** Every node key on the way to `y` decrypts. */
  ghost predicate Unlockable(t: Tree, c: seq<string>, y: LinkID)
    requires Reaches(t, c, y)
    decreases |c|
  {
    c == [] || (t.links[y].unlockable && Unlockable(t, c[..|c| - 1], t.links[y].parent))
  }

  lemma {:induction false} UnlockablePrefix(t: Tree, c: seq<string>, y: LinkID, k: nat) returns (z: LinkID)
    requires Reaches(t, c, y) && Unlockable(t, c, y) && k <= |c|
    ensures Reaches(t, c[..k], z) && Unlockable(t, c[..k], z)
    decreases |c|
  {
    if k == |c| {
      assert c[..k] == c;
      z := y;
    } else {
      z := UnlockablePrefix(t, c[..|c| - 1], t.links[y].parent, k);
      assert c[..|c| - 1][..k] == c[..k];
    }
  }

  lemma {:induction false} WalkFinds(s: State, api: Api, t: Tree, parts: seq<string>, done: nat, id: LinkID,
      y: LinkID, now: nat)
    requires WellFormed(t) && Faithful(api, t) && NeverFails(api) && done <= |parts|
    requires Reaches(t, parts[..done], id) && Reaches(t, parts, y) && Unlockable(t, parts, y)
    ensures Walk(s, api, parts, done, id, NodeKey(id), now).1 == Ok((y, NodeKey(y)))
    decreases |parts| - done
  {
    if done == |parts| {
      assert parts[..done] == parts;
      TargetUnique(t, parts, y, id);
    } else {
      var c, n := parts[..done], parts[done];
      assert parts[..done + 1] == c + [n];
      assert parts[..done + 1][..done] == c;
      var z := UnlockablePrefix(t, parts, y, done + 1);
      TargetUnique(t, c, id, t.links[z].parent);
      var ls := api.list(s.calls, id).value;
      assert IsListing(t, id, ls);
      assert t.links[z] in ls && GetName(t.links[z], NodeKey(id)) == Some(n);
      var child := FindNamed(ls, NodeKey(id), n).value;
      assert SameSlot(child, t.links[z]);
      var (s1, r) := Descend(s, api, Render(c), Render(c + [n]), n, id, NodeKey(id), now);
      assert r == Ok((z, NodeKey(z)));
      WalkFinds(s1, api, t, parts, done + 1, z, y, now);
    }
  }

  lemma {:induction false} MissFinds(s: State, api: Api, t: Tree, p: string, y: LinkID, now: nat)
    requires WellFormed(t) && Faithful(api, t) && NeverFails(api) && KeysRight(s) && s.root == t.root
    requires !Hit(s, Clean(p)) && Reaches(t, SplitPath(p), y) && Unlockable(t, SplitPath(p), y)
    ensures Resolve(s, api, p, now).1 == Ok((y, NodeKey(y)))
  {
    SplitPathComponents(p);
    RenderInverse(SplitPath(p));
    var s1 := s.(linkPaths := s.linkPaths[s.root := "/"]);
    var (s2, r) := RootKeyRing(s1, api);
    assert r == Ok(NodeKey(t.root));
    var parts := SplitPath(Clean(p));
    assert parts[..0] == [];
    WalkFinds(s2.(pathLinks := s2.pathLinks["/" := s.root]), api, t, parts, 0, t.root, y, now);
  }

  /** With good caches and a server that answers, whatever the walk reaches is found. */
  lemma {:induction false} ResolveFinds(s: State, api: Api, t: Tree, p: string, y: LinkID, now: nat)
    requires WellFormed(t) && Faithful(api, t) && NeverFails(api) && AllGood(s, t)
    requires Reaches(t, SplitPath(p), y) && Unlockable(t, SplitPath(p), y)
    ensures Resolve(s, api, p, now).1 == Ok((y, NodeKey(y)))
  {
    var q := Clean(p);
    if Hit(s, q) {
      assert Good(s, t, q);
      SplitPathComponents(p);
      RenderInverse(SplitPath(p));
      TargetUnique(t, SplitPath(p), y, s.pathLinks[q]);
    } else {
      MissFinds(s, api, t, p, y, now);
    }
  }

  // ----- a successful walk warms every ancestor -----

  lemma {:induction false} WalkWarms(s: State, api: Api, parts: seq<string>, done: nat, id: LinkID, kr: KeyRing,
      now: nat)
    requires done <= |parts| && AllNames(parts)
    requires forall k | 0 <= k <= done :: Hit(s, Render(parts[..k]))
    ensures var (s', r) := Walk(s, api, parts, done, id, kr, now);
            r.Ok? ==> forall k | 0 <= k <= |parts| :: Hit(s', Render(parts[..k]))
    decreases |parts| - done
  {
    if done < |parts| {
      var (s1, r) := Descend(s, api, Render(parts[..done]), Render(parts[..done + 1]), parts[done], id, kr, now);
      if r.Ok? {
        forall k | 0 <= k <= done + 1
          ensures Hit(s1, Render(parts[..k]))
        {
        }
        WalkWarms(s1, api, parts, done + 1, r.value.0, r.value.1, now);
      }
    }
  }

  lemma SlowSuccessHits(s: State, api: Api, p: string, now: nat, k: nat)
    requires !Hit(s, Clean(p)) && Resolve(s, api, p, now).1.Ok? && k <= |SplitPath(p)|
    ensures Hit(Resolve(s, api, p, now).0, Render(SplitPath(p)[..k]))
  {
    SplitPathComponents(p);
    RenderInverse(SplitPath(p));
    var parts := SplitPath(p);
    var s1 := s.(linkPaths := s.linkPaths[s.root := "/"]);
    var (s2, r) := RootKeyRing(s1, api);
    assert parts[..0] == [];
    WalkWarms(s2.(pathLinks := s2.pathLinks["/" := s.root]), api, parts, 0, s.root, r.value, now);
  }

  /**
   * When the slow path succeeds, resolving the same path or any ancestor of it
   * afterwards is answered from the cache: the state does not change, so no
   * request is sent, even by a server that fails every request.
   */
  lemma {:induction false} WalkMakesAncestorsHits(s: State, api: Api, p: string, now: nat, k: nat, api': Api,
      later: nat)
    requires !Hit(s, Clean(p)) && Resolve(s, api, p, now).1.Ok? && k <= |SplitPath(p)|
    ensures var s' := Resolve(s, api, p, now).0;
            var (s'', r) := Resolve(s', api', Render(SplitPath(p)[..k]), later);
            s'' == s' && r.Ok?
  {
    SlowSuccessHits(s, api, p, now, k);
    SplitPathComponents(p);
    CleanRender(SplitPath(p)[..k]);
  }

  // ----- what the caches save -----

  lemma {:induction false} WalkWarmsListings(s: State, api: Api, parts: seq<string>, done: nat, id: LinkID, kr: KeyRing,
                                             now: nat, k: nat)
    requires done <= |parts| && AllNames(parts) && k < |parts| && s.meta.ttl > 0
    requires k < done ==> FreshList(s.meta, Render(parts[..k]), now).Some?
    ensures var (s', r) := Walk(s, api, parts, done, id, kr, now);
            r.Ok? ==> FreshList(s'.meta, Render(parts[..k]), now).Some?
    decreases |parts| - done
  {
    if done < |parts| {
      var (s1, r) := Descend(s, api, Render(parts[..done]), Render(parts[..done + 1]), parts[done], id, kr, now);
      if r.Ok? {
        WalkWarmsListings(s1, api, parts, done + 1, r.value.0, r.value.1, now, k);
      }
    }
  }

  /** A successful slow lookup leaves a fresh listing of every folder it went through. */
  lemma {:induction false} SlowSuccessListsAncestors(s: State, api: Api, p: string, now: nat, k: nat)
    requires !Hit(s, Clean(p)) && Resolve(s, api, p, now).1.Ok? && k < |SplitPath(p)| && s.meta.ttl > 0
    ensures FreshList(Resolve(s, api, p, now).0.meta, Render(SplitPath(p)[..k]), now).Some?
  {
    SplitPathComponents(p);
    RenderInverse(SplitPath(p));
    var s1 := s.(linkPaths := s.linkPaths[s.root := "/"]);
    var (s2, r) := RootKeyRing(s1, api);
    WalkWarmsListings(s2.(pathLinks := s2.pathLinks["/" := s.root]), api, SplitPath(p), 0, s.root, r.value, now, k);
  }

  /**
   * A successful online `Stat` is repeated from the cache, at no request, while
   * its age is below the time to live; from then on it is taken anew.
   */
  lemma RepeatedStatIsCached(s: State, api: Api, p: string, now: nat, api': Api, later: nat)
    requires Stat(s, api, p, now).1.Ok? && FreshStat(s.meta, Clean(p), now).None?
    requires StatUncached(s, api, Clean(p), now).1.Ok? && now <= later
    ensures var (s', r) := Stat(s, api, p, now);
            var (s2, r2) := Stat(s', api', p, later);
            var again := StatUncached(s', api', Clean(p), later).1;
            && (later - now < s'.meta.ttl ==> (s2, r2) == (s', r))
            && (later - now >= s'.meta.ttl && again.Ok? ==>
                r2 == again && Clean(p) in s2.meta.stats && s2.meta.stats[Clean(p)].cachedAt == later)
  {
    hide StatUncached, Clean;
  }

  /** Likewise a listing fetched by `ListChildren`. */
  lemma RepeatedListIsCached(s: State, api: Api, p: string, now: nat, api': Api, later: nat)
    requires FreshList(s.meta, p, now).None? && Resolve(s, api, p, now).1.Ok?
    requires api.list(Resolve(s, api, p, now).0.calls, Resolve(s, api, p, now).1.value.0).Ok? && now <= later
    ensures var (s', r) := List(s, api, p, now);
            var (s2, r2) := List(s', api', p, later);
            var (looked, again) := Resolve(s', api', p, later);
            && r.Ok?
            && (later - now < s'.meta.ttl ==> (s2, r2) == (s', r))
            && (later - now >= s'.meta.ttl && again.Ok? && api'.list(looked.calls, again.value.0).Ok? ==>
                var ls := api'.list(looked.calls, again.value.0).value;
                r2 == Ok((Listing(ls, Fetch(looked.calls, later)), again.value.1)) && s2.calls == looked.calls + 1)
  {
    hide Resolve, Clean;
  }

  /**
   * On clean keys `InvalidatePath(p)` forgets exactly `p` and what is below it,
   * except that "/" forgets the root alone and "" forgets everything.
   */
  lemma InvalidatePathExact(s: State, p: string, key: string)
    requires IsClean(key) && (p == "" || IsClean(p))
    ensures var left := InvalidatePath(s, p).pathLinks;
            && (key in left ==> key in s.pathLinks && left[key] == s.pathLinks[key])
            && (p == "" ==> key !in left)
            && (p == "/" ==> (key in left <==> key in s.pathLinks && key != "/"))
            && (p != "" && p != "/" ==> (key in left <==> key in s.pathLinks && !(SplitPath(p) <= SplitPath(key))))
  {
    AtOrUnderIsAncestor(p, key);
  }
}
