/**
 * What the client of the event queue can rely on: the bounded queue's history,
 * and replaying the events of a listing diff.
 */
module Notifications {
  import opened Outcome
  import opened Paths
  import opened Remote
  import opened Sessions
  import opened Events

  // ----- the queue over a run -----

  datatype QueueOp = Push(ev: DriveEvent) | Pull

  /** The queue, and everything drained so far in order. */
  function RunQueue(ops: seq<QueueOp>): (seq<DriveEvent>, seq<DriveEvent>)
    decreases |ops|
  {
    if ops == [] then ([], [])
    else
      var (q, out) := RunQueue(ops[..|ops| - 1]);
      match ops[|ops| - 1]
      case Push(ev) => (Enqueue(q, ev), out)
      case Pull => ([], out + q)
  }

  /** All events enqueued in a run. */
  function Pushed(ops: seq<QueueOp>): seq<DriveEvent>
    decreases |ops|
  {
    if ops == [] then []
    else
      var front := Pushed(ops[..|ops| - 1]);
      if ops[|ops| - 1].Push? then front + [ops[|ops| - 1].ev] else front
  }

  /** The events enqueued since the last drain. */
  function SinceDrain(ops: seq<QueueOp>): seq<DriveEvent>
    decreases |ops|
  {
    if ops == [] || ops[|ops| - 1].Pull? then []
    else SinceDrain(ops[..|ops| - 1]) + [ops[|ops| - 1].ev]
  }

  function Newest(evs: seq<DriveEvent>): seq<DriveEvent> {
    if |evs| <= EVENT_BUFFER_SIZE then evs else evs[|evs| - EVENT_BUFFER_SIZE..]
  }

  /** The queue is the last 64 of the events enqueued since the last drain. */
  lemma {:induction false} QueueIsNewest(ops: seq<QueueOp>)
    ensures RunQueue(ops).0 == Newest(SinceDrain(ops))
    decreases |ops|
  {
    if ops != [] && ops[|ops| - 1].Push? {
      QueueIsNewest(ops[..|ops| - 1]);
      var since, ev := SinceDrain(ops[..|ops| - 1]), ops[|ops| - 1].ev;
      assert Enqueue(Newest(since), ev) == Newest(since + [ev]);
    }
  }

  /** `a` is `b` with some elements left out. */
  ghost predicate Subsequence(a: seq<DriveEvent>, b: seq<DriveEvent>)
    decreases |b|
  {
    || a == []
    || (b != [] && Subsequence(a, b[..|b| - 1]))
    || (b != [] && a[|a| - 1] == b[|b| - 1] && Subsequence(a[..|a| - 1], b[..|b| - 1]))
  }

  lemma {:induction false} SubsequenceAppend(a: seq<DriveEvent>, b: seq<DriveEvent>, c: seq<DriveEvent>, k: nat)
    requires Subsequence(a, b) && k <= |c|
    ensures Subsequence(a + c[k..], b + c)
    decreases |c|
  {
    if c == [] {
      assert a + c[k..] == a && b + c == b;
    } else {
      var front := c[..|c| - 1];
      assert (b + c)[..|b + c| - 1] == b + front;
      if k == |c| {
        SubsequenceAppend(a, b, front, k - 1);
        assert a + c[k..] == a + front[k - 1..];
      } else {
        SubsequenceAppend(a, b, front, k);
        assert (a + c[k..])[..|a + c[k..]| - 1] == a + front[k..];
      }
    }
  }

  /** The events pushed up to the last drain, and those since. */
  lemma {:induction false} PushedSplits(ops: seq<QueueOp>) returns (before: seq<DriveEvent>)
    ensures Pushed(ops) == before + SinceDrain(ops) && Subsequence(RunQueue(ops).1, before)
    decreases |ops|
  {
    if ops == [] {
      before := [];
    } else {
      var front := ops[..|ops| - 1];
      before := PushedSplits(front);
      if ops[|ops| - 1].Pull? {
        var since := SinceDrain(front);
        QueueIsNewest(front);
        var k := if |since| <= EVENT_BUFFER_SIZE then 0 else |since| - EVENT_BUFFER_SIZE;
        SubsequenceAppend(RunQueue(front).1, before, since, k);
        assert Newest(since) == since[k..];
        before := before + since;
        assert before + [] == before;
      }
    }
  }

  /** The drains, concatenated, are an in-order subsequence of what was enqueued. */
  lemma DrainsAreSubsequence(ops: seq<QueueOp>)
    ensures Subsequence(RunQueue(ops).1, Pushed(ops))
  {
    var before := PushedSplits(ops);
    SubsequenceAppend(RunQueue(ops).1, before, SinceDrain(ops), |SinceDrain(ops)|);
    assert RunQueue(ops).1 + SinceDrain(ops)[|SinceDrain(ops)|..] == RunQueue(ops).1;
  }

  /** Never more than 64 events are enqueued between two drains. */
  ghost predicate NeverOverflows(ops: seq<QueueOp>) {
    forall k | 0 <= k <= |ops| :: |SinceDrain(ops[..k])| <= EVENT_BUFFER_SIZE
  }

  /** And nothing is lost if the queue never overflows. */
  lemma {:induction false} QueueIsLossless(ops: seq<QueueOp>)
    requires NeverOverflows(ops)
    ensures RunQueue(ops).1 + RunQueue(ops).0 == Pushed(ops)
    decreases |ops|
  {
    if ops != [] {
      var front := ops[..|ops| - 1];
      forall k | 0 <= k <= |front|
        ensures |SinceDrain(front[..k])| <= EVENT_BUFFER_SIZE
      {
        assert front[..k] == ops[..k];
      }
      QueueIsLossless(front);
      QueueIsNewest(front);
      assert ops[..|ops|] == ops;
      if ops[|ops| - 1].Push? {
        assert |SinceDrain(ops)| == |SinceDrain(front)| + 1;
      }
    }
  }

  // ----- replaying a diff -----

  /** The iteration order lists every key once. */
  ghost predicate Enumerates(keys: seq<string>, s: set<string>) {
    && (forall k :: k in keys <==> k in s)
    && (forall i, j | 0 <= i < j < |keys| :: keys[i] != keys[j])
  }

  lemma ChildPathInjective(dir: string, a: string, b: string)
    requires ChildPath(dir, a) == ChildPath(dir, b)
    ensures a == b
  {
    var h := TrimSlashes(dir) + "/";
    assert a == (h + a)[|h|..] && b == (h + b)[|h|..];
  }

  /** The event `e` is about the name `n`, which `names` has and `others` has not. */
  predicate About(e: DriveEvent, n: string, names: map<string, LinkID>, others: map<string, LinkID>,
      kind: EventType, dir: string) {
    n in names && n !in others && e == DriveEvent(kind, names[n], ChildPath(dir, n))
  }

  ghost predicate AreDifferences(evs: seq<DriveEvent>, keys: seq<string>, names: map<string, LinkID>,
      others: map<string, LinkID>, kind: EventType, dir: string) {
    && (forall e | e in evs :: e.kind == kind && exists n :: n in keys && About(e, n, names, others, kind, dir))
    && (forall n | n in keys && n in names && n !in others :: DriveEvent(kind, names[n], ChildPath(dir, n)) in evs)
  }

  lemma {:induction false} DifferencesAre(keys: seq<string>, names: map<string, LinkID>, others: map<string, LinkID>,
                                          kind: EventType, dir: string)
    ensures AreDifferences(Differences(keys, names, others, kind, dir), keys, names, others, kind, dir)
    decreases |keys|
  {
    if keys != [] {
      var front, last := keys[..|keys| - 1], keys[|keys| - 1];
      DifferencesAre(front, names, others, kind, dir);
      var evs := Differences(keys, names, others, kind, dir);
      assert forall n :: n in keys <==> n in front || n == last;
      forall e | e in evs
        ensures e.kind == kind && exists n :: n in keys && About(e, n, names, others, kind, dir)
      {
        if e in Differences(front, names, others, kind, dir) {
          var n :| n in front && About(e, n, names, others, kind, dir);
          assert n in keys;
        } else {
          assert About(e, last, names, others, kind, dir);
        }
      }
    }
  }

  ghost predicate DistinctPaths(evs: seq<DriveEvent>) {
    forall i, j | 0 <= i < j < |evs| :: evs[i].path != evs[j].path
  }

  lemma {:induction false} DifferencesDistinct(keys: seq<string>, names: map<string, LinkID>,
      others: map<string, LinkID>, kind: EventType, dir: string)
    requires forall i, j | 0 <= i < j < |keys| :: keys[i] != keys[j]
    ensures DistinctPaths(Differences(keys, names, others, kind, dir))
    decreases |keys|
  {
    if keys != [] {
      var front, last := keys[..|keys| - 1], keys[|keys| - 1];
      DifferencesDistinct(front, names, others, kind, dir);
      DifferencesAre(front, names, others, kind, dir);
      var evs := Differences(front, names, others, kind, dir);
      forall i | 0 <= i < |evs|
        ensures evs[i].path != ChildPath(dir, last)
      {
        assert evs[i] in evs;
        var n :| n in front && About(evs[i], n, names, others, kind, dir);
        if evs[i].path == ChildPath(dir, last) {
          ChildPathInjective(dir, n, last);
        }
      }
    }
  }

  /** The file manager's view of a folder after applying events. */
  function Replay(shown: set<string>, evs: seq<DriveEvent>): set<string>
    decreases |evs|
  {
    if evs == [] then shown
    else
      var s, e := Replay(shown, evs[..|evs| - 1]), evs[|evs| - 1];
      match e.kind
      case Created => s + {e.path}
      case Deleted => s - {e.path}
      case Changed => s
  }

  /** When no path is both created and deleted, order does not matter. */
  lemma {:induction false} ReplayIsSets(shown: set<string>, evs: seq<DriveEvent>)
    requires forall a, b | a in evs && b in evs && a.kind == Created && b.kind == Deleted :: a.path != b.path
    ensures forall p :: p in Replay(shown, evs) <==>
      (exists e :: e in evs && e.kind == Created && e.path == p)
      || (p in shown && !exists e :: e in evs && e.kind == Deleted && e.path == p)
    decreases |evs|
  {
    if evs != [] {
      var front, last := evs[..|evs| - 1], evs[|evs| - 1];
      assert evs == front + [last];
      assert forall e :: e in evs <==> e in front || e == last;
      ReplayIsSets(shown, front);
    }
  }

  function PathsOf(dir: string, names: map<string, LinkID>): set<string> {
    set n | n in names :: ChildPath(dir, n)
  }

  lemma CreatedIsNotDeleted(dir: string, was: map<string, LinkID>, cur: map<string, LinkID>, ck: seq<string>,
      dk: seq<string>, a: DriveEvent, b: DriveEvent)
    requires exists m :: m in ck && About(a, m, cur, was, Created, dir)
    requires exists n :: n in dk && About(b, n, was, cur, Deleted, dir)
    ensures a.path != b.path
  {
    var m :| m in ck && About(a, m, cur, was, Created, dir);
    var n :| n in dk && About(b, n, was, cur, Deleted, dir);
    if a.path == b.path {
      ChildPathInjective(dir, m, n);
    }
  }

  /**
   * Applying a diff's events, in whatever order, to the old names gives exactly
   * the new names, and each name gets at most one event.
   */
  lemma DiffReplays(api: Api, dir: string, was: map<string, LinkID>, cur: map<string, LinkID>, evs: seq<DriveEvent>)
    requires Enumerates(api.order(was.Keys), was.Keys) && Enumerates(api.order(cur.Keys), cur.Keys)
    requires multiset(evs) == multiset(DiffEvents(api, dir, was, cur))
    ensures Replay(PathsOf(dir, was), evs) == PathsOf(dir, cur)
    ensures DistinctPaths(DiffEvents(api, dir, was, cur))
  {
    var ck, dk := api.order(cur.Keys), api.order(was.Keys);
    var created := Differences(ck, cur, was, Created, dir);
    var deleted := Differences(dk, was, cur, Deleted, dir);
    DifferencesAre(ck, cur, was, Created, dir);
    DifferencesAre(dk, was, cur, Deleted, dir);
    forall a, b | a in created && b in deleted
      ensures a.path != b.path
    {
      CreatedIsNotDeleted(dir, was, cur, ck, dk, a, b);
    }
    BothDistinct(ck, dk, was, cur, dir, created, deleted);
    ReplayOfBoth(dir, was, cur, created, deleted, evs);
    forall p
      ensures p in Replay(PathsOf(dir, was), evs) <==> p in PathsOf(dir, cur)
    {
      ReplayedPath(dir, was, cur, ck, dk, created, deleted, p);
    }
  }

  lemma BothDistinct(ck: seq<string>, dk: seq<string>, was: map<string, LinkID>, cur: map<string, LinkID>, dir: string,
                     created: seq<DriveEvent>, deleted: seq<DriveEvent>)
    requires Enumerates(ck, cur.Keys) && Enumerates(dk, was.Keys)
    requires created == Differences(ck, cur, was, Created, dir) && deleted == Differences(dk, was, cur, Deleted, dir)
    requires forall a, b | a in created && b in deleted :: a.path != b.path
    ensures DistinctPaths(created + deleted)
  {
    DifferencesDistinct(ck, cur, was, Created, dir);
    DifferencesDistinct(dk, was, cur, Deleted, dir);
  }

  lemma ReplayOfBoth(dir: string, was: map<string, LinkID>, cur: map<string, LinkID>,
                     created: seq<DriveEvent>, deleted: seq<DriveEvent>, evs: seq<DriveEvent>)
    requires multiset(evs) == multiset(created + deleted)
    requires forall e | e in created :: e.kind == Created
    requires forall e | e in deleted :: e.kind == Deleted
    requires forall a, b | a in created && b in deleted :: a.path != b.path
    ensures forall p :: p in Replay(PathsOf(dir, was), evs) <==>
      (exists e :: e in created && e.path == p)
      || (p in PathsOf(dir, was) && !exists e :: e in deleted && e.path == p)
  {
    forall e
      ensures e in evs <==> e in created || e in deleted
    {
      assert e in evs <==> e in multiset(evs);
      assert e in created + deleted <==> e in multiset(created + deleted);
    }
    ReplayIsSets(PathsOf(dir, was), evs);
  }

  lemma ReplayedPath(dir: string, was: map<string, LinkID>, cur: map<string, LinkID>, ck: seq<string>, dk: seq<string>,
                     created: seq<DriveEvent>, deleted: seq<DriveEvent>, p: string)
    requires AreDifferences(created, ck, cur, was, Created, dir) && AreDifferences(deleted, dk, was, cur, Deleted, dir)
    requires Enumerates(ck, cur.Keys) && Enumerates(dk, was.Keys)
    ensures p in PathsOf(dir, cur) <==>
      (exists e :: e in created && e.path == p)
      || (p in PathsOf(dir, was) && !exists e :: e in deleted && e.path == p)
  {
    if p in PathsOf(dir, cur) {
      var n :| n in cur && p == ChildPath(dir, n);
      assert n in ck;
      if n in was {
        StaysShown(dir, was, cur, dk, deleted, n);
      } else {
        assert DriveEvent(Created, cur[n], p) in created;
      }
    } else {
      forall e | e in created
        ensures e.path != p
      {
        var n :| n in ck && About(e, n, cur, was, Created, dir);
        assert ChildPath(dir, n) in PathsOf(dir, cur);
      }
      if p in PathsOf(dir, was) {
        var n :| n in was && p == ChildPath(dir, n);
        assert n in dk && n !in cur;
        assert DriveEvent(Deleted, was[n], p) in deleted;
      }
    }
  }

  lemma StaysShown(dir: string, was: map<string, LinkID>, cur: map<string, LinkID>, dk: seq<string>,
                   deleted: seq<DriveEvent>, n: string)
    requires AreDifferences(deleted, dk, was, cur, Deleted, dir) && n in was && n in cur
    ensures ChildPath(dir, n) in PathsOf(dir, was) && !exists e :: e in deleted && e.path == ChildPath(dir, n)
  {
    forall e | e in deleted
      ensures e.path != ChildPath(dir, n)
    {
      var m :| m in dk && About(e, m, was, cur, Deleted, dir);
      if e.path == ChildPath(dir, n) {
        ChildPathInjective(dir, m, n);
      }
    }
  }

  // ----- the names and paths a diff records -----

  lemma {:induction false} NamesOfAre(ls: seq<Link>, kr: KeyRing)
    ensures forall n :: n in NamesOf(ls, kr) <==> exists l :: l in ls && GetName(l, kr) == Some(n)
    decreases |ls|
  {
    if ls != [] {
      var front, last := ls[..|ls| - 1], ls[|ls| - 1];
      NamesOfAre(front, kr);
      assert ls == front + [last];
      assert forall l :: l in ls <==> l in front || l == last;
    }
  }

  /** Every child whose name decrypts is recorded at its path. */
  lemma {:induction false} NotePathsAre(linkPaths: map<LinkID, string>, dir: string, ls: seq<Link>, kr: KeyRing)
    requires forall l, m | l in ls && m in ls && l.id == m.id :: l == m
    ensures forall l | l in ls && GetName(l, kr).Some? ::
      Lookup(NotePaths(linkPaths, dir, ls, kr), l.id) == Some(ChildPath(dir, GetName(l, kr).value))
    decreases |ls|
  {
    if ls != [] {
      var front, last := ls[..|ls| - 1], ls[|ls| - 1];
      assert ls == front + [last];
      assert forall l :: l in ls <==> l in front || l == last;
      NotePathsAre(linkPaths, dir, front, kr);
    }
  }

  /** A diff tells of every arrival before any departure, so a renamed child is never out of sight. */
  lemma ArrivalsFirst(api: Api, dir: string, was: map<string, LinkID>, cur: map<string, LinkID>, i: nat, j: nat)
    requires i < j < |DiffEvents(api, dir, was, cur)|
    ensures var evs := DiffEvents(api, dir, was, cur);
            evs[i].kind == Created || (evs[i].kind == Deleted && evs[j].kind == Deleted)
  {
    var created := Differences(api.order(cur.Keys), cur, was, Created, dir);
    var deleted := Differences(api.order(was.Keys), was, cur, Deleted, dir);
    DifferencesAre(api.order(cur.Keys), cur, was, Created, dir);
    DifferencesAre(api.order(was.Keys), was, cur, Deleted, dir);
    if i < |created| {
      assert created[i] in created;
    } else {
      assert deleted[i - |created|] in deleted && deleted[j - |created|] in deleted;
    }
  }

  lemma {:induction false} EnqueueAllFits(q: seq<DriveEvent>, evs: seq<DriveEvent>)
    requires |q| + |evs| <= EVENT_BUFFER_SIZE
    ensures EnqueueAll(q, evs) == q + evs
    decreases |evs|
  {
    if evs != [] {
      EnqueueAllFits(q, evs[..|evs| - 1]);
    }
  }

  /**
   * A diff that fits the queue: the new events, in any order, turn the names of
   * the old listing into those of the new one, and the reverse map holds the
   * path of every child the new listing names.
   */
  lemma DiffAndEmitReplays(ps: PollerState, api: Api, dir: string, dirID: LinkID, kr: KeyRing, oldLinks: seq<Link>,
                           now: nat, evs: seq<DriveEvent>)
    requires var ls := api.list(ps.session.calls, dirID);
             && ls.Ok?
             && (forall l, m | l in ls.value && m in ls.value && l.id == m.id :: l == m)
             && |ps.queue| + |DiffEvents(api, dir, NamesOf(oldLinks, kr), NamesOf(ls.value, kr))| <= EVENT_BUFFER_SIZE
             && Enumerates(api.order(NamesOf(oldLinks, kr).Keys), NamesOf(oldLinks, kr).Keys)
             && Enumerates(api.order(NamesOf(ls.value, kr).Keys), NamesOf(ls.value, kr).Keys)
    ensures var ls := api.list(ps.session.calls, dirID).value;
            var (ps', ok) := Diff(ps, api, dir, dirID, kr, oldLinks, now);
            && ok && ps.queue <= ps'.queue
            && (multiset(evs) == multiset(ps'.queue[|ps.queue|..]) ==>
                  Replay(PathsOf(dir, NamesOf(oldLinks, kr)), evs) == PathsOf(dir, NamesOf(ls, kr)))
            && (forall l | l in ls && GetName(l, kr).Some? ::
                  LinkPath(ps'.session, l.id) == ChildPath(dir, GetName(l, kr).value))
  {
    var ls := api.list(ps.session.calls, dirID).value;
    var was, cur := NamesOf(oldLinks, kr), NamesOf(ls, kr);
    EnqueueAllFits(ps.queue, DiffEvents(api, dir, was, cur));
    var ps' := Diff(ps, api, dir, dirID, kr, oldLinks, now).0;
    assert ps'.queue[|ps.queue|..] == DiffEvents(api, dir, was, cur);
    if multiset(evs) == multiset(ps'.queue[|ps.queue|..]) {
      DiffReplays(api, dir, was, cur, evs);
    }
    NotePathsAre(ps.session.linkPaths, dir, ls, kr);
  }
}
