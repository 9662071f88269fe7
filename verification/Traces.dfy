/**
 * Runs in which the reverse map, too, is right about every path that is cached:
 * then no remote change does harm, and handling each event before the next
 * lookup keeps every cached path right.
 */
module Traces {
  import opened Outcome
  import opened Paths
  import opened Remote
  import opened Metadata
  import opened Sessions
  import opened Events
  import opened PathCache
  import opened Coherence
  import opened Records
  import opened EventRuns

  /** The event's name and parent, where given, are those the link has now. */
  predicate UpToDate(t: Tree, link: Link) {
    link.id in t.links ==>
      && t.links[link.id].parent == link.parent
      && (link.name.Some? ==> t.links[link.id].name == link.name)
  }

  /** A create event that records its link where it no longer is. */
  predicate StaleCreate(t: Tree, ev: LinkEvent) {
    ev.kind.Create? && (ev.link.id == t.root || !UpToDate(t, ev.link))
  }

  lemma HandlingKeepsPathRight(s: State, s': State, t: Tree, ev: LinkEvent, c: seq<string>)
    requires WellFormed(t) && AllNames(c) && NotMischarted(s, t, c)
    requires RetoldByEvent(s, s'.linkPaths, t, ev)
    requires StaleCreate(t, ev) ==> !Passes(t, c, ev.link.id)
    ensures NotMischarted(s', t, c)
  {
    hide ChildPath, Render;
    forall k: nat, y | k <= |c| && Reaches(t, c[..k], y) && y in s'.linkPaths
      ensures s'.linkPaths[y] == Render(c[..k])
    {
      if !(y in s.linkPaths && s'.linkPaths[y] == s.linkPaths[y]) {
        assert k > 0;
        assert FromParent(s, t, y, s'.linkPaths[y]);
        assert c[..k][..k - 1] == c[..k - 1];
        assert c[..k] == c[..k - 1] + [c[k - 1]];
        ChildPathOfRender(c[..k - 1], c[k - 1]);
      }
    }
  }

  // ----- entries that the reverse map is right about -----

  ghost predicate Settled(s: State, t: Tree, pending: seq<LinkEvent>, q: string) {
    Good(s, t, q) || Doomed(s, pending, q)
  }

  /** Every cached path is right and recorded right, or some pending event prunes it. */
  ghost predicate Traced(w: World) {
    var s := w.ps.session;
    && WellFormed(w.tree) && s.root == w.tree.root && KeysRight(s)
    && forall q | q in s.pathLinks :: Settled(s, w.tree, w.pending, q)
  }

  /** The entry is wrong, or passes through a link the event is about to misplace. */
  ghost predicate AtRisk(s: State, t: Tree, ev: LinkEvent, q: string) {
    !Good(s, t, q) || (StaleCreate(t, ev) && Passes(t, SplitPath(q), ev.link.id))
  }

  /** As `Harmless`, for entries that are wrong or recorded wrong. */
  ghost predicate KeepsTraces(w: World, m: Move)
    requires m.Deliver? ==> w.pending != []
  {
    var s, t := w.ps.session, w.tree;
    match m
    case Client(op) =>
      IsLookup(op) ==> forall q | q in s.pathLinks && !Good(s, t, q) :: Settled(Learnt(s, t, op), t, w.pending, q)
    case Deliver(api, _) =>
      var ev := w.pending[0];
      forall q | q in Survivors(s, ev) && AtRisk(s, t, ev, q) :: Settled(Noticed(s, t, ev, api), t, w.pending[1..], q)
    case _ => true
  }

  lemma SettledReadsPaths(s: State, s': State, t: Tree, pending: seq<LinkEvent>, q: string)
    requires SamePaths(s, s')
    ensures Settled(s, t, pending, q) <==> Settled(s', t, pending, q)
  {
    hide AtOrUnder, Passes, Reaches, IsClean, SplitPath;
  }

  lemma {:induction false} LookupKeepsTracesIff(w: World, op: Op)
    requires Traced(w) && Allowed(w, Client(op)) && IsLookup(op)
    ensures Traced(After(w, Client(op))) <==> KeepsTraces(w, Client(op))
  {
    hide Step, Learnt, Good, Doomed, NotMischarted, IsPathOf, Faithful;
    var s, t := w.ps.session, w.tree;
    var s' := Step(s, op);
    LookupLearns(s, op, t);
    LookupRecords(s, op, t);
    forall q
      ensures Settled(s', t, w.pending, q) <==> Settled(Learnt(s, t, op), t, w.pending, q)
    {
      SettledReadsPaths(s', Learnt(s, t, op), t, w.pending, q);
    }
    forall q | q in s'.pathLinks && (q in s.pathLinks ==> Good(s, t, q))
      ensures Good(s', t, q)
    {
      LearnsKeepsGood(s, s', t, q);
    }
  }

  lemma ForgettingKeepsTraces(w: World, op: Op)
    requires Traced(w) && !IsLookup(op)
    ensures Traced(After(w, Client(op)))
  {
    hide AtOrUnder, Passes, Reaches, IsClean, SplitPath, DropLink, DropPath, Pruned;
    var s, s' := w.ps.session, Step(w.ps.session, op);
    forall q | q in s'.pathLinks
      ensures Settled(s', w.tree, w.pending, q)
    {
      PrunedReadsPaths(s, s');
      assert Settled(s, w.tree, w.pending, q);
    }
  }

  lemma {:induction false} RemoteKeepsTraces(w: World, t: Tree, ev: LinkEvent)
    requires Traced(w) && Allowed(w, Remote(t, ev))
    ensures Traced(After(w, Remote(t, ev)))
  {
    hide Pruned, Good, Passes;
    var s, pending := w.ps.session, w.pending + [ev];
    assert pending[|w.pending|] == ev;
    forall q | q in s.pathLinks
      ensures Settled(s, t, pending, q)
    {
      if Doomed(s, w.pending, q) {
        var i :| 0 <= i < |w.pending| && Pruned(s, w.pending[i], q);
        assert pending[i] == w.pending[i];
      } else if !ev.kind.Create? && ev.link.id != w.tree.root && Passes(w.tree, SplitPath(q), ev.link.id) {
        PassingIsPruned(s, w.tree, q, ev);
      } else {
        GoodKept(s, w.tree, t, ev, q);
      }
    }
  }

  /** An entry through the changed link is one its event prunes. */
  lemma {:induction false} PassingIsPruned(s: State, t: Tree, q: string, ev: LinkEvent)
    requires WellFormed(t) && Good(s, t, q) && !ev.kind.Create?
    requires ev.link.id != t.root && Passes(t, SplitPath(q), ev.link.id)
    ensures Pruned(s, ev, q)
  {
    hide Render, SplitPath, Clean, AtOrUnder, Reaches;
    var x := ev.link.id;
    if x !in s.linkPaths {
      UnknownPrunesAll(s, ev, q);
    } else {
      var c := SplitPath(q);
      CleanPathShape(q);
      var k: nat :| 0 <= k <= |c| && Reaches(t, c[..k], x);
      if k == 0 {
        assert c[..k] == [];
        RootOnly(t, x);
        assert false;
      }
      ThroughMeansUnder(t, c[..k], x, q);
    }
  }

  lemma RootOnly(t: Tree, x: LinkID)
    ensures Reaches(t, [], x) <==> x == t.root
  {
  }

  /** Good entries that the event neither prunes nor puts at risk stay good. */
  lemma {:induction false} SafeSurvivorsStayGood(w: World, m: Move, q: string)
    requires Traced(w) && m.Deliver? && Allowed(w, m)
    requires q in Survivors(w.ps.session, w.pending[0]) && !AtRisk(w.ps.session, w.tree, w.pending[0], q)
    ensures Good(After(w, m).ps.session, w.tree, q)
  {
    hide Pruned, RetoldByEvent, NotMischarted, Passes, Handled;
    var s, s' := w.ps.session, After(w, m).ps.session;
    HandledForwardMap(w.ps, w.pending[0], m.api, m.now);
    HandledReverseMap(w.ps, w.pending[0], m.api, w.tree, m.now);
    CleanPathShape(q);
    HandlingKeepsPathRight(s, s', w.tree, w.pending[0], SplitPath(q));
  }

  lemma {:induction false} DeliverKeepsTracesIff(w: World, m: Move)
    requires Traced(w) && m.Deliver? && Allowed(w, m)
    ensures Traced(After(w, m)) <==> KeepsTraces(w, m)
  {
    hide Handled, Pruned, Good, Doomed, AtRisk, Faithful, HandledRecords, Survivors;
    var s, t, ev, rest := w.ps.session, w.tree, w.pending[0], w.pending[1..];
    var s' := After(w, m).ps.session;
    HandledForwardMap(w.ps, ev, m.api, m.now);
    EventRecords(w.ps, ev, m.api, t, m.now);
    forall q
      ensures Settled(s', t, rest, q) <==> Settled(Noticed(s, t, ev, m.api), t, rest, q)
    {
      SettledReadsPaths(s', Noticed(s, t, ev, m.api), t, rest, q);
    }
    forall q | q in Survivors(s, ev) && !AtRisk(s, t, ev, q)
      ensures Settled(s', t, rest, q)
    {
      SafeSurvivorsStayGood(w, m, q);
    }
  }

  /** Remote changes, refreshes and forgetting always keep the traces. */
  lemma {:induction false} MoveKeepsTracesIff(w: World, m: Move)
    requires Traced(w) && Allowed(w, m)
    ensures Traced(After(w, m)) <==> KeepsTraces(w, m)
  {
    match m
    case Client(op) => if IsLookup(op) { LookupKeepsTracesIff(w, op); } else { ForgettingKeepsTraces(w, op); }
    case Remote(t, ev) => RemoteKeepsTraces(w, t, ev);
    case Deliver(_, _) => DeliverKeepsTracesIff(w, m);
    case Refresh(_) =>
  }

  /** A traced state satisfies the invariant, and no remote change does harm to it. */
  lemma {:induction false} TracedRemoteIsHarmless(w: World, t: Tree, ev: LinkEvent)
    requires Traced(w)
    ensures Inv(w)
    ensures Allowed(w, Remote(t, ev)) ==> Harmless(w, Remote(t, ev))
  {
    hide Pruned, NotMischarted, Faithful, Relocates, Harmless;
    TracedIsInv(w);
    if Allowed(w, Remote(t, ev)) {
      RemoteKeepsTraces(w, t, ev);
      TracedIsInv(After(w, Remote(t, ev)));
      MoveKeepsInvIff(w, Remote(t, ev));
    }
  }

  lemma TracedIsInv(w: World)
    requires Traced(w)
    ensures Inv(w)
  {
    hide Pruned, NotMischarted, IsPathOf;
    forall q | q in w.ps.session.pathLinks
      ensures Covered(w.ps.session, w.tree, w.pending, q)
    {
      assert Settled(w.ps.session, w.tree, w.pending, q);
    }
  }

  // ----- events handled at once -----

  /** A client operation, or a remote change together with its event. */
  datatype Prompt = PromptClient(op: Op) | PromptChange(tree: Tree, ev: LinkEvent, api: Api, now: nat)

  ghost predicate PromptAllowed(w: World, m: Prompt) {
    match m
    case PromptClient(op) => IsLookup(op) ==> Faithful(op.api, w.tree)
    case PromptChange(t, ev, api, _) => Changes(w.tree, t, ev) && Faithful(api, t)
  }

  function AfterPrompt(w: World, m: Prompt): World {
    match m
    case PromptClient(op) => After(w, Client(op))
    case PromptChange(t, ev, api, now) => World(t, Handled(w.ps, ev, api, now), w.pending)
  }

  ghost predicate PromptRun(w: World, moves: seq<Prompt>)
    decreases |moves|
  {
    moves == [] || (PromptAllowed(w, moves[0]) && PromptRun(AfterPrompt(w, moves[0]), moves[1..]))
  }

  function RunPrompt(w: World, moves: seq<Prompt>): World
    decreases |moves|
  {
    if moves == [] then w else RunPrompt(AfterPrompt(w, moves[0]), moves[1..])
  }

  /** With nothing pending no entry is wrong, so no lookup can do harm. */
  lemma NothingPendingKeepsTraces(w: World, m: Move)
    requires Traced(w) && w.pending == [] && m.Client?
    ensures KeepsTraces(w, m)
  {
    hide Good, Learnt;
  }

  /** Nor can handling the only pending event, if it still says where its link is. */
  lemma LastEventKeepsTraces(w: World, m: Move)
    requires Traced(w) && |w.pending| == 1 && m.Deliver? && !StaleCreate(w.tree, w.pending[0])
    ensures KeepsTraces(w, m)
  {
    hide Good, HandledRecords, Pruned;
    var s := w.ps.session;
    forall q | q in Survivors(s, w.pending[0])
      ensures Good(s, w.tree, q)
    {
      assert Settled(s, w.tree, w.pending, q);
    }
  }

  lemma {:induction false} PromptKeepsTraces(w: World, m: Prompt)
    requires Traced(w) && w.pending == [] && PromptAllowed(w, m)
    ensures Traced(AfterPrompt(w, m)) && AfterPrompt(w, m).pending == []
  {
    hide Traced, KeepsTraces, Handled, Step, Faithful, WellFormed, Relocates;
    match m
    case PromptClient(op) =>
      NothingPendingKeepsTraces(w, Client(op));
      MoveKeepsTracesIff(w, Client(op));
    case PromptChange(t, ev, api, now) =>
      RemoteKeepsTraces(w, t, ev);
      var w1 := After(w, Remote(t, ev));
      assert w1.pending == [ev] && w1.pending[1..] == [];
      LastEventKeepsTraces(w1, Deliver(api, now));
      MoveKeepsTracesIff(w1, Deliver(api, now));
  }

  /** Handling each event before the next lookup is always harmless: no further hypothesis is needed. */
  lemma {:induction false} PromptRunStaysCoherent(w: World, moves: seq<Prompt>)
    requires Traced(w) && w.pending == [] && PromptRun(w, moves)
    ensures Traced(RunPrompt(w, moves)) && RunPrompt(w, moves).pending == []
    ensures Coherent(RunPrompt(w, moves).ps.session, RunPrompt(w, moves).tree)
    decreases |moves|
  {
    if moves != [] {
      PromptKeepsTraces(w, moves[0]);
      PromptRunStaysCoherent(AfterPrompt(w, moves[0]), moves[1..]);
    } else {
      assert forall q | q in w.ps.session.pathLinks :: Settled(w.ps.session, w.tree, w.pending, q);
    }
  }
}
