/**
 * What `ListChildren` and `Stat` answer against an unchanging tree: whatever
 * was cached, forgotten or expired before, and whichever requests fail, a
 * listing is that of the link the walk reaches and a stat is that link.
 */
module Answers {
  import opened Outcome
  import opened Paths
  import opened Remote
  import opened Metadata
  import opened Sessions
  import opened PathCache

  /** A listing, with its keyring, of the link that the path `p` leads to. */
  ghost predicate ListsPath(t: Tree, p: string, links: seq<Link>, kr: KeyRing) {
    exists y :: Reaches(t, SplitPath(p), y) && IsListing(t, y, links) && kr == NodeKey(y)
  }

  /**
   * The link that the path `p` leads to, with its parent's keyring. The root is
   * not among the listed links: `tops` is what the server may answer for it, and
   * it comes with its own keyring.
   */
  ghost predicate IsAtPath(t: Tree, tops: iset<Link>, p: string, link: Link, kr: KeyRing) {
    if p == "/" then link in tops && kr == NodeKey(t.root)
    else
      && Reaches(t, SplitPath(p), link.id)
      && link.id in t.links && t.links[link.id] == link && kr == NodeKey(link.parent)
  }

  /** Every answer for the root link that is not an error is among `tops`. */
  ghost predicate AnswersTop(api: Api, t: Tree, tops: iset<Link>) {
    forall k :: api.getLink(k, t.root).Ok? ==> api.getLink(k, t.root).value in tops
  }

  ghost predicate ListsRight(m: Meta, t: Tree) {
    forall p | p in m.lists :: ListsPath(t, p, m.lists[p].listing.links, m.lists[p].parentKR)
  }

  ghost predicate StatsRight(m: Meta, t: Tree, tops: iset<Link>) {
    forall p | p in m.stats :: IsAtPath(t, tops, p, m.stats[p].link, m.stats[p].parentKR)
  }

  ghost predicate Right(s: State, t: Tree, tops: iset<Link>) {
    WellFormed(t) && AllGood(s, t) && ListsRight(s.meta, t) && StatsRight(s.meta, t, tops)
  }

  // ----- lookups keep the metadata right -----

  lemma DescendKeepsMeta(s: State, api: Api, t: Tree, c: seq<string>, next: string, part: string, id: LinkID, now: nat)
    requires WellFormed(t) && Faithful(api, t) && AllNames(c) && Reaches(t, c, id) && ListsRight(s.meta, t)
    ensures var (s', r) := Descend(s, api, Render(c), next, part, id, NodeKey(id), now);
            && ListsRight(s'.meta, t) && s'.meta.stats == s.meta.stats
            && (r.Ok? ==> Reaches(t, c + [part], r.value.0) && r.value.1 == NodeKey(r.value.0))
  {
    hide Render, SplitPath, Reaches;
    if api.list(s.calls, id).Ok? {
      var ls := api.list(s.calls, id).value;
      assert IsListing(t, id, ls);
      RenderInverse(c);
      assert ListsPath(t, Render(c), ls, NodeKey(id));
      var child := FindNamed(ls, NodeKey(id), part);
      if child.Some? {
        ReachesSnoc(t, c, part, child.value.id);
      }
    }
  }

  lemma {:induction false} WalkKeepsMeta(s: State, api: Api, t: Tree, parts: seq<string>, done: nat, id: LinkID,
      now: nat)
    requires WellFormed(t) && Faithful(api, t) && done <= |parts| && AllNames(parts)
    requires Reaches(t, parts[..done], id) && ListsRight(s.meta, t)
    ensures var s' := Walk(s, api, parts, done, id, NodeKey(id), now).0;
            ListsRight(s'.meta, t) && s'.meta.stats == s.meta.stats
    decreases |parts| - done
  {
    hide Render, Descend, Reaches, ListsRight, Faithful, WellFormed;
    if done < |parts| {
      var c := parts[..done];
      assert parts[..done + 1] == c + [parts[done]];
      DescendKeepsMeta(s, api, t, c, Render(parts[..done + 1]), parts[done], id, now);
      var (s1, r) := Descend(s, api, Render(c), Render(parts[..done + 1]), parts[done], id, NodeKey(id), now);
      if r.Ok? {
        WalkKeepsMeta(s1, api, t, parts, done + 1, r.value.0, now);
      }
    }
  }

  /** Resolving keeps everything right, and its answer is the link the path leads to. */
  lemma {:induction false} ResolveAnswers(s: State, api: Api, t: Tree, tops: iset<Link>, p: string, now: nat)
    requires Right(s, t, tops) && Faithful(api, t)
    ensures var (s', r) := Resolve(s, api, p, now);
            && Right(s', t, tops)
            && (r.Ok? ==> Reaches(t, SplitPath(p), r.value.0) && r.value.1 == NodeKey(r.value.0))
  {
    hide Render, Clean, SplitPath, IsAtPath, ListsPath, Learns, Faithful, NotMischarted;
    ResolveLearns(s, api, t, p, now);
    LearnsKeepsAllGood(s, Resolve(s, api, p, now).0, t);
    LearnsFrame(s, Resolve(s, api, p, now).0, t);
    SplitPathComponents(p);
    RenderInverse(SplitPath(p));
    if Hit(s, Clean(p)) {
      assert Good(s, t, Clean(p));
    } else {
      SlowKeepsMeta(s, api, t, tops, p, now);
    }
  }

  lemma LearnsFrame(s: State, s': State, t: Tree)
    requires Learns(s, s', t)
    ensures KeysRight(s') && s'.root == s.root
  {
  }

  lemma SlowKeepsMeta(s: State, api: Api, t: Tree, tops: iset<Link>, p: string, now: nat)
    requires Right(s, t, tops) && Faithful(api, t) && !Hit(s, Clean(p))
    ensures var s' := Resolve(s, api, p, now).0;
            ListsRight(s'.meta, t) && s'.meta.stats == s.meta.stats
  {
    hide Render, SplitPath, Clean, ListsRight, StatsRight;
    var s1 := s.(linkPaths := s.linkPaths[s.root := "/"]);
    var (s2, r) := RootKeyRing(s1, api);
    if r.Ok? {
      var parts := SplitPath(Clean(p));
      SplitPathComponents(Clean(p));
      assert parts[..0] == [];
      WalkKeepsMeta(s2.(pathLinks := s2.pathLinks["/" := s.root]), api, t, parts, 0, t.root, now);
    }
  }

  lemma QuietKeepsAllGood(s: State, s': State, t: Tree)
    requires AllGood(s, t) && s' == s.(calls := s'.calls, meta := s'.meta)
    ensures AllGood(s', t)
  {
    hide IsPathOf;
    assert forall q | q in s'.pathLinks :: Good(s, t, q);
  }

  /** A listing that is served is that of the link the path leads to. */
  lemma {:induction false} ListAnswers(s: State, api: Api, t: Tree, tops: iset<Link>, p: string, now: nat)
    requires Right(s, t, tops) && Faithful(api, t)
    ensures var (s', r) := List(s, api, p, now);
            Right(s', t, tops) && (r.Ok? ==> ListsPath(t, p, r.value.0.links, r.value.1))
  {
    hide Resolve, Clean, SplitPath, Reaches, IsAtPath, Good;
    if FreshList(s.meta, p, now).None? {
      ResolveAnswers(s, api, t, tops, p, now);
      var (s1, r1) := Resolve(s, api, p, now);
      if r1.Ok? && api.list(s1.calls, r1.value.0).Ok? {
        assert IsListing(t, r1.value.0, api.list(s1.calls, r1.value.0).value);
        assert ListsPath(t, p, api.list(s1.calls, r1.value.0).value, r1.value.1);
      }
      QuietKeepsAllGood(s1, List(s, api, p, now).0, t);
    }
  }

  lemma NamedIsAtPath(t: Tree, tops: iset<Link>, p: string, y: LinkID, links: seq<Link>, l: Link)
    requires WellFormed(t) && IsClean(p) && p != "/" && l in links
    requires Reaches(t, SplitPath(Dir(p)), y) && ListsPath(t, Dir(p), links, NodeKey(y))
    requires GetName(l, NodeKey(y)) == Some(Base(p))
    ensures IsAtPath(t, tops, p, l, NodeKey(y))
  {
    hide Render, Dir, Base;
    CleanPathShape(p);
    var c := SplitPath(p);
    if c == [] {
      RootIsPath(t);
      assert false;
    }
    var front, n := c[..|c| - 1], c[|c| - 1];
    assert c == front + [n];
    DirBaseOfChild(front, n);
    RenderInverse(front);
    var z :| Reaches(t, SplitPath(Dir(p)), z) && IsListing(t, z, links) && NodeKey(y) == NodeKey(z);
    ReachesSnoc(t, front, n, l.id);
  }

  lemma {:induction false} StatUncachedAnswers(s: State, api: Api, t: Tree, tops: iset<Link>, p: string, now: nat)
    requires Right(s, t, tops) && Faithful(api, t) && AnswersTop(api, t, tops) && IsClean(p)
    ensures var (s', r) := StatUncached(s, api, p, now);
            Right(s', t, tops) && (r.Ok? ==> IsAtPath(t, tops, p, r.value.link, r.value.parentKR))
  {
    hide Resolve, List, Clean, SplitPath, Dir, Base, IsAtPath, ListsPath, AllGood, Reaches, StatRoot;
    CleanPathShape(p);
    if p == "/" {
      StatRootKeeps(s, api, t, tops, now);
    } else {
      ResolveAnswers(s, api, t, tops, Dir(p), now);
      var (s1, r1) := Resolve(s, api, Dir(p), now);
      if r1.Ok? {
        ListAnswers(s1, api, t, tops, Dir(p), now);
        var (s2, r2) := List(s1, api, Dir(p), now);
        if r2.Ok? {
          var found := FindNamed(r2.value.0.links, r1.value.1, Base(p));
          if found.Some? {
            SameKeyRing(t, Dir(p), r1.value.0, r2.value.0.links, r2.value.1);
            NamedIsAtPath(t, tops, p, r1.value.0, r2.value.0.links, found.value);
          }
        }
      }
    }
  }

  lemma SameKeyRing(t: Tree, p: string, y: LinkID, links: seq<Link>, kr: KeyRing)
    requires WellFormed(t) && Reaches(t, SplitPath(p), y) && ListsPath(t, p, links, kr)
    ensures kr == NodeKey(y)
  {
    var z :| Reaches(t, SplitPath(p), z) && IsListing(t, z, links) && kr == NodeKey(z);
    TargetUnique(t, SplitPath(p), y, z);
  }

  lemma StatRootKeeps(s: State, api: Api, t: Tree, tops: iset<Link>, now: nat)
    requires Right(s, t, tops) && Faithful(api, t) && AnswersTop(api, t, tops)
    ensures var (s', r) := StatRoot(s, api, now);
            Right(s', t, tops) && (r.Ok? ==> IsAtPath(t, tops, "/", r.value.link, r.value.parentKR))
  {
    hide RootKeyRing, ListsPath, Learns;
    StatRootLearns(s, api, t, now);
    LearnsKeepsAllGood(s, StatRoot(s, api, now).0, t);
    LearnsFrame(s, StatRoot(s, api, now).0, t);
    StatRootMeta(s, api, now);
    RootKeyLearns(s.(calls := s.calls + 1), api, t);
  }

  lemma StatRootMeta(s: State, api: Api, now: nat)
    ensures StatRoot(s, api, now).0.meta == s.meta
  {
  }

  /** A stat that is served is the link the path leads to. */
  lemma {:induction false} StatAnswers(s: State, api: Api, t: Tree, tops: iset<Link>, path: string, now: nat)
    requires Right(s, t, tops) && Faithful(api, t) && AnswersTop(api, t, tops)
    ensures var (s', r) := Stat(s, api, path, now);
            Right(s', t, tops) && (r.Ok? ==> IsAtPath(t, tops, Clean(path), r.value.link, r.value.parentKR))
  {
    hide StatUncached, Clean, SplitPath, IsAtPath, ListsPath, Good;
    SplitPathComponents(path);
    if FreshStat(s.meta, Clean(path), now).None? {
      StatUncachedAnswers(s, api, t, tops, Clean(path), now);
      QuietKeepsAllGood(StatUncached(s, api, Clean(path), now).0, Stat(s, api, path, now).0, t);
    }
  }

  // ----- runs -----

  lemma {:induction false} DropLinkKeeps(m: Meta, id: LinkID, keys: seq<string>, t: Tree, tops: iset<Link>)
    requires ListsRight(m, t) && StatsRight(m, t, tops)
    ensures ListsRight(DropLink(m, id, keys), t) && StatsRight(DropLink(m, id, keys), t, tops)
  {
    hide ListsPath, IsAtPath, Dir;
    if keys != [] {
      DropLinkKeeps(m, id, keys[1..], t, tops);
    }
  }

  lemma {:induction false} StepKeepsRight(s: State, op: Op, t: Tree, tops: iset<Link>)
    requires Right(s, t, tops) && (IsLookup(op) ==> Faithful(op.api, t) && AnswersTop(op.api, t, tops))
    ensures Right(Step(s, op), t, tops)
  {
    hide Resolve, List, Stat, ListsPath, IsAtPath, Good, Dir;
    match op
    case DoResolve(api, p, now) => ResolveAnswers(s, api, t, tops, p, now);
    case DoList(api, p, now) => ListAnswers(s, api, t, tops, p, now);
    case DoStat(api, p, now) => StatAnswers(s, api, t, tops, p, now);
    case ForgetPath(p) => StepKeepsAllGood(s, op, t);
    case ForgetLink(api, id) =>
      StepKeepsAllGood(s, op, t);
      DropLinkKeeps(s.meta, id, api.order(s.meta.stats.Keys), t, tops);
    case ForgetAll =>
  }

  ghost predicate AllAnswerTop(ops: seq<Op>, t: Tree, tops: iset<Link>) {
    forall i | 0 <= i < |ops| :: IsLookup(ops[i]) ==> AnswersTop(ops[i].api, t, tops)
  }

  lemma {:induction false} RunKeepsRight(s: State, ops: seq<Op>, t: Tree, tops: iset<Link>)
    requires Right(s, t, tops) && AllFaithful(ops, t) && AllAnswerTop(ops, t, tops)
    ensures Right(Run(s, ops), t, tops)
    decreases |ops|
  {
    hide Right, Step;
    if ops != [] {
      StepKeepsRight(s, ops[0], t, tops);
      RunKeepsRight(Step(s, ops[0]), ops[1..], t, tops);
    }
  }

  /**
   * Against an unchanging tree, after any sequence of lookups and
   * invalidations with requests failing at will, through fresh, expired and
   * offline entries alike: a successful `ListChildren` returns the listing of
   * the link the walk reaches, and a successful `Stat` returns that link, or
   * for "/" an answer the server gave for the root link.
   */
  lemma AnswersAreTrue(root: LinkID, ttl: nat, ops: seq<Op>, t: Tree, tops: iset<Link>, api: Api, p: string, now: nat)
    requires WellFormed(t) && t.root == root && AllFaithful(ops, t) && Faithful(api, t)
    requires AllAnswerTop(ops, t, tops) && AnswersTop(api, t, tops)
    ensures var s := Run(Initial(root, ttl), ops);
            var listed, found := List(s, api, p, now).1, Stat(s, api, p, now).1;
            && (listed.Ok? ==> ListsPath(t, p, listed.value.0.links, listed.value.1))
            && (found.Ok? ==> IsAtPath(t, tops, Clean(p), found.value.link, found.value.parentKR))
  {
    hide List, Stat, Run, ListsPath, IsAtPath;
    RunKeepsRight(Initial(root, ttl), ops, t, tops);
    var s := Run(Initial(root, ttl), ops);
    ListAnswers(s, api, t, tops, p, now);
    StatAnswers(s, api, t, tops, p, now);
  }
}
