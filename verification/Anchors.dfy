/**
 * The persisted event anchor across polls, errors, refreshes, lost anchors,
 * failed writes and crashes (helper/drive/events.go), one step at a time.
 *
 * Events are numbered in server order; an anchor `a` stands for "everything
 * before event `a` is accounted for".
 */
module Anchors {
  import opened Outcome

  /** Where the helper process is. */
  datatype Phase =
    | Down
    | Booted                                        // session visible, poller not started
    | Disabled                                      // no anchor could be had
    | Idle(anchor: nat)
    | Handling(anchor: nat, next: nat, upto: nat)   // a batch was fetched
    | Refreshing(anchor: nat, upto: nat)            // a refresh was asked for, nothing dropped yet
    | Lost(anchor: nat)                             // the server forgot the anchor
    | Reanchoring(anchor: nat, latest: nat)         // new head fetched, nothing dropped yet
    | Saving(upto: nat)

  /**
   * `head` counts the server's events, `disk` is the anchor file. `cached`
   * holds, for each live in-memory datum, the head at the time it was fetched;
   * `seen` the events handled since the process started, `handled` those ever
   * handled; every event before `covered` preceded a full invalidation or an
   * anchorless start.
   */
  datatype World = World(
    head: nat,
    disk: Option<nat>,
    phase: Phase,
    cached: set<nat>,
    seen: set<nat>,
    handled: set<nat>,
    covered: nat)

  datatype Step =
    | ServerEvent
    | Lookup
    | Boot
    | StartResumed
    | StartLatest
    | StartFailed
    | PollFailed
    | PollBatch(upto: nat)
    | PollRefresh(upto: nat)
    | PollLost
    | HandleNext
    | BatchDone
    | GetLatest
    | GetLatestFailed
    | DropAll
    | Save(written: bool)
    | Crash

  predicate Enabled(w: World, s: Step) {
    match s
    case ServerEvent => true
    case Lookup => !w.phase.Down?
    case Boot => w.phase.Down?
    case StartResumed => w.phase.Booted? && w.disk.Some?
    case StartLatest => w.phase.Booted?      // the file is missing, or could not be read
    case StartFailed => w.phase.Booted?
    case PollFailed => w.phase.Idle?
    case PollBatch(upto) => w.phase.Idle? && w.phase.anchor <= upto <= w.head
    case PollRefresh(upto) => w.phase.Idle? && w.phase.anchor <= upto <= w.head
    case PollLost => w.phase.Idle?
    case HandleNext => w.phase.Handling? && w.phase.next < w.phase.upto
    case BatchDone => w.phase.Handling? && w.phase.next == w.phase.upto
    case GetLatest => w.phase.Lost?
    case GetLatestFailed => w.phase.Lost?
    case DropAll => w.phase.Refreshing? || w.phase.Reanchoring?
    case Save(_) => w.phase.Saving?
    case Crash => !w.phase.Down?
  }

  function Next(w: World, s: Step): World
    requires Enabled(w, s)
  {
    match s
    case ServerEvent => w.(head := w.head + 1)
    case Lookup => w.(cached := w.cached + {w.head})
    case Boot => w.(phase := Booted, cached := {}, seen := {})
    case StartResumed => w.(phase := Idle(w.disk.value))
    case StartLatest => w.(phase := Idle(w.head), covered := w.head)
    case StartFailed => w.(phase := Disabled)
    case PollFailed => w
    case PollBatch(upto) => w.(phase := Handling(w.phase.anchor, w.phase.anchor, upto))
    case PollRefresh(upto) => w.(phase := Refreshing(w.phase.anchor, upto))
    case PollLost => w.(phase := Lost(w.phase.anchor))
    case HandleNext =>
      w.(phase := w.phase.(next := w.phase.next + 1),
         seen := w.seen + {w.phase.next}, handled := w.handled + {w.phase.next})
    case BatchDone => w.(phase := Saving(w.phase.upto))
    case GetLatest => w.(phase := Reanchoring(w.phase.anchor, w.head))
    case GetLatestFailed => w.(phase := Idle(w.phase.anchor))
    case DropAll =>
      w.(phase := Saving(if w.phase.Refreshing? then w.phase.upto else w.phase.latest),
         cached := {}, covered := w.head)
    case Save(written) =>
      w.(phase := Idle(w.phase.upto), disk := if written then Some(w.phase.upto) else w.disk)
    case Crash => w.(phase := Down, cached := {})
  }

  /** Events before this point will not be fetched again by the running helper. */
  function Passed(p: Phase): nat {
    match p
    case Idle(a) => a
    case Handling(_, next, _) => next
    case Refreshing(a, _) => a
    case Lost(a) => a
    case Reanchoring(a, _) => a
    case Saving(upto) => upto
    case _ => 0
  }

  predicate Accounted(w: World, i: nat) {
    i in w.handled || i < w.covered
  }

  /** Whatever the anchor file leaves out was handled or covered. */
  ghost predicate DiskSafe(w: World) {
    w.disk.Some? ==> forall i: nat | i < w.disk.value :: Accounted(w, i)
  }

  /** Every event newer than a live datum is still to come or was handled after it. */
  ghost predicate MemorySafe(w: World) {
    forall f, i: nat | f in w.cached && f <= i < Passed(w.phase) :: i in w.seen
  }

  predicate Polling(p: Phase) {
    !p.Down? && !p.Booted? && !p.Disabled?
  }

  /** The anchor file is never ahead of the running helper. */
  predicate NotAhead(w: World) {
    && (w.disk.Some? && Polling(w.phase) ==> w.disk.value <= Passed(w.phase))
    && (w.phase.Handling? && w.disk.Some? ==> w.disk.value <= w.phase.anchor)
    && (w.phase.Refreshing? ==> w.phase.anchor <= w.phase.upto)
    && (w.phase.Reanchoring? ==> w.phase.anchor <= w.phase.latest)
  }

  ghost predicate Inv(w: World) {
    && DiskSafe(w) && MemorySafe(w)
    && w.covered <= w.head && Passed(w.phase) <= w.head
    && (w.disk.Some? ==> w.disk.value <= w.head)
    && (forall f | f in w.cached :: f <= w.head)
    && (forall i: nat | i < Passed(w.phase) :: Accounted(w, i))
    && (w.phase.Handling? ==> w.phase.upto <= w.head)
    && (w.phase.Refreshing? ==> w.phase.upto <= w.head)
    && (w.phase.Reanchoring? ==> w.phase.latest <= w.head)
    && (w.phase.Booted? && w.disk.Some? ==> forall f | f in w.cached :: f >= w.disk.value)
    && (w.phase.Booted? ==> w.seen == {})
    && (w.phase.Handling? ==> w.phase.anchor <= w.phase.next)
    && NotAhead(w)
  }

  function Initial(head: nat): World {
    World(head, None, Down, {}, {}, {}, 0)
  }

  /** An anchorless start must not skip an event newer than something already cached. */
  predicate StartsClean(w: World, s: Step) {
    s.StartLatest? ==> forall f | f in w.cached :: f >= w.head
  }

  lemma NextKeepsAccounts(w: World, s: Step)
    requires Inv(w) && Enabled(w, s)
    ensures var w' := Next(w, s);
            DiskSafe(w') && forall i: nat | i < Passed(w'.phase) :: Accounted(w', i)
  {
    assert forall i: nat | Accounted(w, i) :: Accounted(Next(w, s), i);
  }

  lemma NextKeepsMemory(w: World, s: Step)
    requires Inv(w) && Enabled(w, s) && StartsClean(w, s)
    ensures MemorySafe(Next(w, s))
  {
    hide Accounted, NotAhead;
  }

  lemma NextKeepsInv(w: World, s: Step)
    requires Inv(w) && Enabled(w, s) && StartsClean(w, s)
    ensures Inv(Next(w, s))
  {
    hide Accounted, MemorySafe, DiskSafe;
    NextKeepsAccounts(w, s);
    NextKeepsMemory(w, s);
  }

  /**
   * The session answers lookups before its poller has an anchor. Starting at
   * the server's head is then safe exactly if no event arrived since the oldest
   * datum cached so far.
   */
  lemma AnchorlessStartIsSafeIffClean(w: World)
    requires Inv(w) && Enabled(w, StartLatest)
    ensures MemorySafe(Next(w, StartLatest)) <==> StartsClean(w, StartLatest)
  {
    var w' := Next(w, StartLatest);
    if f :| f in w.cached && f < w.head {
      assert f in w'.cached && f <= f < Passed(w'.phase) && f !in w'.seen;
    }
  }

  function RunFrom(w: World, steps: seq<Step>): World
    requires Possible(w, steps)
    decreases |steps|
  {
    if steps == [] then w else RunFrom(Next(w, steps[0]), steps[1..])
  }

  predicate Possible(w: World, steps: seq<Step>)
    decreases |steps|
  {
    steps == [] || (Enabled(w, steps[0]) && StartsClean(w, steps[0]) && Possible(Next(w, steps[0]), steps[1..]))
  }

  lemma {:induction false} RunKeepsInv(w: World, steps: seq<Step>)
    requires Inv(w) && Possible(w, steps)
    ensures Inv(RunFrom(w, steps))
    decreases |steps|
  {
    if steps != [] {
      NextKeepsInv(w, steps[0]);
      RunKeepsInv(Next(w, steps[0]), steps[1..]);
    }
  }

  /**
   * Over every interleaving of polls, errors, refreshes, lost anchors, failed
   * writes, crashes and restarts: the anchor file never passes an event that
   * was neither handled nor covered, and the running helper never passes an
   * event newer than a live datum without having handled it; and the file is
   * never ahead of the helper.
   */
  lemma AnchorNeverSkips(head: nat, steps: seq<Step>)
    requires Possible(Initial(head), steps)
    ensures var w := RunFrom(Initial(head), steps);
            && DiskSafe(w) && MemorySafe(w)
            && (w.disk.Some? && Polling(w.phase) ==> w.disk.value <= Passed(w.phase))
  {
    RunKeepsInv(Initial(head), steps);
  }

  /** Only a successful save changes the anchor file. */
  lemma {:induction false} OnlySavesWrite(w: World, steps: seq<Step>)
    requires Possible(w, steps) && Save(true) !in steps
    ensures RunFrom(w, steps).disk == w.disk
    decreases |steps|
  {
    if steps != [] {
      assert steps[0] in steps && forall s | s in steps[1..] :: s in steps;
      OnlySavesWrite(Next(w, steps[0]), steps[1..]);
    }
  }

  /**
   * A save writes the helper's position. Whatever follows short of another
   * save, crashes and failed writes included, the next start resumes there.
   */
  lemma {:induction false} ResumesWhereSaved(w: World, steps: seq<Step>)
    requires Enabled(w, Save(true))
    requires Possible(Next(w, Save(true)), steps) && Save(true) !in steps
    ensures Next(w, Save(true)).phase == Idle(Passed(w.phase))
    ensures var w' := RunFrom(Next(w, Save(true)), steps);
            && w'.disk == Some(Passed(w.phase))
            && (Enabled(w', StartResumed) ==> Next(w', StartResumed).phase == Idle(Passed(w.phase)))
  {
    OnlySavesWrite(Next(w, Save(true)), steps);
  }
}
