/**
 * What an event does to the block store, and what a poll leaves behind: which
 * anchor it moves to, and which steps of the anchor machine it goes through.
 */
module Polls {
  import opened Outcome
  import opened Paths
  import opened Remote
  import opened Metadata
  import opened Sessions
  import opened BlockStore
  import opened Events
  import opened Coherence
  import opened Records
  import opened Announcements
  import Anchors

  predicate LastEvent(ps: PollerState, ev: DriveEvent) {
    ps.queue != [] && ps.queue[|ps.queue| - 1] == ev
  }

  // ----- blocks and the anchor file -----

  lemma DiffKeepsDisk(ps: PollerState, api: Api, dir: string, dirID: LinkID, was: Option<ListEntry>, now: nat)
    ensures var ps' := DiffIfKnown(ps, api, dir, dirID, was, now).0;
            ps'.store == ps.store && ps'.anchor == ps.anchor
  {
  }

  lemma CreateKeepsDisk(ps: PollerState, link: Link, api: Api, now: nat)
    ensures HandleCreate(ps, link, api, now).store == ps.store && HandleCreate(ps, link, api, now).anchor == ps.anchor
  {
    var parentPath := LinkPath(ps.session, link.parent);
    var was := Lookup(ps.session.meta.lists, parentPath);
    var s1 := CreateStart(ps.session, link, api);
    DiffKeepsDisk(ps.(session := s1), api, parentPath, link.parent, was, now);
    if link.parent in s1.nodeKRs {
      var s2 := CreatedName(s1, link, s1.nodeKRs[link.parent], api).0;
      DiffKeepsDisk(ps.(session := s2), api, parentPath, link.parent, was, now);
    }
  }

  lemma {:induction false} UpdateDropsBlocks(ps: PollerState, link: Link, api: Api, now: nat)
    ensures HandleUpdate(ps, link, api, now).store == WithoutLink(ps.store, link.id)
    ensures HandleUpdate(ps, link, api, now).anchor == ps.anchor
  {
    var s, path, parentPath := ps.session, LinkPath(ps.session, link.id), LinkPath(ps.session, link.parent);
    var ps1 := UpdateStart(ps, link, api);
    DiffKeepsDisk(ps1, api, path, link.id, Lookup(s.meta.lists, path), now);
    var ps2 := DiffIfKnown(ps1, api, path, link.id, Lookup(s.meta.lists, path), now).0;
    DiffKeepsDisk(ps2, api, parentPath, link.parent, Lookup(s.meta.lists, parentPath), now);
  }

  /** Deletions and updates drop every cached block of the link and no other; the anchor file is left alone. */
  lemma {:induction false} BlocksAreDropped(ps: PollerState, ev: LinkEvent, api: Api, now: nat)
    ensures forall k :: k in Handled(ps, ev, api, now).store <==>
      k in ps.store && (ev.kind.Create? || k.link != ev.link.id)
    ensures Submap(Handled(ps, ev, api, now).store, ps.store)
    ensures Handled(ps, ev, api, now).anchor == ps.anchor
  {
    match ev.kind
    case Delete =>
    case Create => CreateKeepsDisk(ps, ev.link, api, now);
    case Update => UpdateDropsBlocks(ps, ev.link, api, now);
  }

  lemma {:induction false} BatchKeepsAnchor(ps: PollerState, events: seq<LinkEvent>, api: Api, now: nat)
    ensures HandledAll(ps, events, api, now).anchor == ps.anchor
    decreases |events|
  {
    if events != [] {
      BatchKeepsAnchor(ps, events[..|events| - 1], api, now);
      BlocksAreDropped(HandledAll(ps, events[..|events| - 1], api, now), events[|events| - 1], api, now);
    }
  }

  /**
   * A poll moves on only after handling its whole batch or dropping every
   * cached path and entry, and writes no other anchor than the one it returns.
   */
  lemma {:induction false} PollMovesOnlyWhenSafe(ps: PollerState, current: string, batch: Result<Batch>,
      latest: Result<string>,
      api: Api, now: nat, saves: bool)
    ensures var (ps', next) := Polled(ps, current, batch, latest, api, now, saves);
            && (ps'.anchor == ps.anchor || (saves && ps'.anchor == next))
            && (ps'.anchor != ps.anchor || next != current ==>
                  || (batch.Ok? && ps'.session == HandledAll(ps, batch.value.events, api, now).session)
                  || (ps'.session.pathLinks == map[]
                      && ps'.session.meta.stats == map[] && ps'.session.meta.lists == map[]
                      && LastEvent(ps', DriveEvent(Changed, "", "/"))))
  {
    if batch.Ok? {
      BatchKeepsAnchor(ps, batch.value.events, api, now);
    }
  }

  // ----- what a refresh keeps -----

  /** The poll drops everything: the server forgot the anchor, or asked for a refresh. */
  predicate Refreshes(batch: Result<Batch>, latest: Result<string>) {
    batch.Ok? && if batch.value.eventID == "" then latest.Ok? else batch.value.refresh
  }

  /**
   * A refreshing poll empties the forward map and the metadata and keeps all the
   * rest: recorded paths, keyrings, blocks. It queues one event, for the root.
   */
  lemma RefreshKeeps(ps: PollerState, current: string, batch: Result<Batch>, latest: Result<string>, api: Api, now: nat,
      saves: bool)
    requires Refreshes(batch, latest)
    ensures var (ps', next) := Polled(ps, current, batch, latest, api, now, saves);
            var s, s' := ps.session, ps'.session;
            && s'.pathLinks == map[] && s'.meta.stats == map[] && s'.meta.lists == map[]
            && s'.root == s.root && s'.linkPaths == s.linkPaths && s'.nodeKRs == s.nodeKRs && s'.calls == s.calls
            && s'.meta.ttl == s.meta.ttl
            && ps'.store == ps.store
            && ps'.queue == Enqueue(ps.queue, DriveEvent(Changed, "", "/"))
            && next == (if batch.value.eventID == "" then latest.value else batch.value.eventID)
            && ps'.anchor == (if saves then next else ps.anchor)
  {
  }

  predicate InTrash(reply: Result<Link>) {
    reply.Ok? && reply.value.state != StateActive
  }

  /** An update is told as a deletion if the link turns out to be in the trash. */
  function UpdateKind(reply: Result<Link>): EventType {
    if InTrash(reply) then Deleted else Changed
  }

  /**
   * So an event that follows goes by the paths recorded before the refresh. A
   * deletion is announced at the link's path, a creation at its folder's, an
   * update as a change or a deletion at the link's path; and with no listing
   * left to compare with nothing else is announced.
   */
  lemma {:induction false} EventAfterRefresh(ps: PollerState, current: string, batch: Result<Batch>,
      latest: Result<string>, api: Api, now: nat, saves: bool, ev: LinkEvent, api': Api)
    requires Refreshes(batch, latest)
    ensures var s, s' := ps.session, Polled(ps, current, batch, latest, api, now, saves).0.session;
            var link, path, parentPath := ev.link, LinkPath(s, ev.link.id), LinkPath(s, ev.link.parent);
            var said := Announced(s', ev, api');
            && (forall q :: Pruned(s', ev, q) <==> Pruned(s, ev, q))
            && (ev.kind.Delete? && path != "" ==> said == [DriveEvent(Deleted, link.id, path)])
            && (ev.kind.Create? && parentPath != "" ==>
                  said == (match NewName(s, link, api')
                           case Some(n) => [DriveEvent(Created, link.id, ChildPath(parentPath, n))]
                           case None => [DriveEvent(Changed, link.id, parentPath)]))
            && (ev.kind.Update? && path != "" ==>
                  said == [DriveEvent(UpdateKind(api'.getLink(s.calls, link.id)), link.id, path)])
            && (path == "" && !ev.kind.Create? && parentPath != "" ==>
                  said == [DriveEvent(Changed, link.id, parentPath)])
  {
    hide ChildPath, AtOrUnder, Polled, Announced, Pruned, NewName;
    RefreshKeeps(ps, current, batch, latest, api, now, saves);
    var s, s' := ps.session, Polled(ps, current, batch, latest, api, now, saves).0.session;
    SameRecordsPrune(s, s', ev);
    SameRecordsName(s, s', ev.link, api');
    NoListingsSay(s', ev, api');
  }

  lemma SameRecordsPrune(s: State, s': State, ev: LinkEvent)
    requires s'.linkPaths == s.linkPaths
    ensures forall q :: Pruned(s', ev, q) <==> Pruned(s, ev, q)
  {
    hide AtOrUnder;
  }

  lemma SameRecordsName(s: State, s': State, link: Link, api: Api)
    requires s'.linkPaths == s.linkPaths && s'.nodeKRs == s.nodeKRs && s'.calls == s.calls
    ensures NewName(s', link, api) == NewName(s, link, api)
  {
  }

  /** What is announced when no listing is cached. */
  lemma NoListingsSay(s: State, ev: LinkEvent, api: Api)
    requires s.meta.lists == map[]
    ensures var link, path, parentPath := ev.link, LinkPath(s, ev.link.id), LinkPath(s, ev.link.parent);
            var said := Announced(s, ev, api);
            && (ev.kind.Delete? && path != "" ==> said == [DriveEvent(Deleted, link.id, path)])
            && (ev.kind.Create? && parentPath != "" ==>
                  said == (match NewName(s, link, api)
                           case Some(n) => [DriveEvent(Created, link.id, ChildPath(parentPath, n))]
                           case None => [DriveEvent(Changed, link.id, parentPath)]))
            && (ev.kind.Update? && path != "" ==>
                  said == [DriveEvent(UpdateKind(api.getLink(s.calls, link.id)), link.id, path)])
            && (path == "" && !ev.kind.Create? && parentPath != "" ==>
                  said == [DriveEvent(Changed, link.id, parentPath)])
  {
    hide ChildPath, NewName, DiffAnnounced;
  }

  // ----- a poll as steps of the anchor machine -----

  /** The anchor file as an event number; an empty file is no anchor. */
  function FileOf(anchor: string, pos: string -> nat): Option<nat> {
    if anchor == "" then None else Some(pos(anchor))
  }

  /** The server answers with what follows the anchor; `pos` numbers its identifiers. */
  predicate Served(w: Anchors.World, current: string, batch: Result<Batch>, latest: Result<string>,
      pos: string -> nat) {
    match batch
    case Fail(_) => true
    case Ok(b) =>
      if b.eventID == "" then latest.Ok? ==> latest.value != "" && pos(latest.value) == w.head
      else
        && pos(current) <= pos(b.eventID) <= w.head
        && (!b.refresh ==> |b.events| == pos(b.eventID) - pos(current))
  }

  function Handlings(n: nat): seq<Anchors.Step> {
    if n == 0 then [] else [Anchors.HandleNext] + Handlings(n - 1)
  }

  /** The steps one poll takes. */
  function PollSteps(batch: Result<Batch>, latest: Result<string>, saves: bool, pos: string -> nat): seq<Anchors.Step> {
    match batch
    case Fail(_) => [Anchors.PollFailed]
    case Ok(b) =>
      if b.eventID == "" then
        if latest.Fail? then [Anchors.PollLost, Anchors.GetLatestFailed]
        else [Anchors.PollLost, Anchors.GetLatest, Anchors.DropAll, Anchors.Save(saves)]
      else if b.refresh then [Anchors.PollRefresh(pos(b.eventID)), Anchors.DropAll, Anchors.Save(saves)]
      else [Anchors.PollBatch(pos(b.eventID))] + (Handlings(|b.events|) + [Anchors.BatchDone, Anchors.Save(saves)])
  }

  /** The event numbers from one up to another. */
  function Numbered(from: nat, upto: nat): set<nat>
    decreases upto - from
  {
    if from >= upto then {} else {from} + Numbered(from + 1, upto)
  }

  lemma RunOne(w: Anchors.World, step: Anchors.Step, rest: seq<Anchors.Step>)
    requires Anchors.Enabled(w, step) && !step.StartLatest? && Anchors.Possible(Anchors.Next(w, step), rest)
    ensures Anchors.Possible(w, [step] + rest)
    ensures Anchors.RunFrom(w, [step] + rest) == Anchors.RunFrom(Anchors.Next(w, step), rest)
  {
    assert ([step] + rest)[1..] == rest;
  }

  lemma RunNone(w: Anchors.World)
    ensures Anchors.Possible(w, []) && Anchors.RunFrom(w, []) == w
  {
  }

  lemma {:induction false} HandlingSteps(w: Anchors.World, n: nat, saves: bool)
    requires w.phase.Handling? && w.phase.next + n == w.phase.upto
    ensures var steps := Handlings(n) + [Anchors.BatchDone, Anchors.Save(saves)];
            var done := Numbered(w.phase.next, w.phase.upto);
            && Anchors.Possible(w, steps)
            && Anchors.RunFrom(w, steps)
               == w.(phase := Anchors.Idle(w.phase.upto), disk := if saves then Some(w.phase.upto) else w.disk,
                     seen := w.seen + done, handled := w.handled + done)
    decreases n
  {
    hide Anchors.RunFrom, Anchors.Possible;
    var last := [Anchors.BatchDone, Anchors.Save(saves)];
    if n == 0 {
      assert Handlings(n) + last == [Anchors.BatchDone] + ([Anchors.Save(saves)] + []);
      var w1 := Anchors.Next(w, Anchors.BatchDone);
      RunNone(Anchors.Next(w1, Anchors.Save(saves)));
      RunOne(w1, Anchors.Save(saves), []);
      RunOne(w, Anchors.BatchDone, [Anchors.Save(saves)] + []);
      assert Numbered(w.phase.next, w.phase.upto) == {};
    } else {
      assert Handlings(n) + last == [Anchors.HandleNext] + (Handlings(n - 1) + last);
      var w1 := Anchors.Next(w, Anchors.HandleNext);
      HandlingSteps(w1, n - 1, saves);
      RunOne(w, Anchors.HandleNext, Handlings(n - 1) + last);
      assert Numbered(w.phase.next, w.phase.upto) == {w.phase.next} + Numbered(w1.phase.next, w.phase.upto);
      assert w1.seen + Numbered(w1.phase.next, w.phase.upto) == w.seen + Numbered(w.phase.next, w.phase.upto);
      assert w1.handled + Numbered(w1.phase.next, w.phase.upto) == w.handled + Numbered(w.phase.next, w.phase.upto);
    }
  }

  lemma DroppingSteps(w: Anchors.World, saves: bool)
    requires w.phase.Refreshing? || w.phase.Reanchoring?
    ensures var upto := if w.phase.Refreshing? then w.phase.upto else w.phase.latest;
            var steps := [Anchors.DropAll, Anchors.Save(saves)];
            && Anchors.Possible(w, steps)
            && Anchors.RunFrom(w, steps)
               == w.(phase := Anchors.Idle(upto), disk := if saves then Some(upto) else w.disk,
                     cached := {}, covered := w.head)
  {
    hide Anchors.RunFrom, Anchors.Possible;
    var w1 := Anchors.Next(w, Anchors.DropAll);
    RunNone(Anchors.Next(w1, Anchors.Save(saves)));
    RunOne(w1, Anchors.Save(saves), []);
    RunOne(w, Anchors.DropAll, [Anchors.Save(saves)] + []);
    assert [Anchors.DropAll, Anchors.Save(saves)] == [Anchors.DropAll] + ([Anchors.Save(saves)] + []);
  }

  lemma FailingSteps(w: Anchors.World)
    requires w.phase.Idle?
    ensures Anchors.Possible(w, [Anchors.PollFailed]) && Anchors.RunFrom(w, [Anchors.PollFailed]) == w
    ensures var steps := [Anchors.PollLost, Anchors.GetLatestFailed];
            Anchors.Possible(w, steps) && Anchors.RunFrom(w, steps) == w
  {
    hide Anchors.RunFrom, Anchors.Possible;
    RunNone(w);
    RunOne(w, Anchors.PollFailed, []);
    assert [Anchors.PollFailed] + [] == [Anchors.PollFailed];
    RunOne(Anchors.Next(w, Anchors.PollLost), Anchors.GetLatestFailed, []);
    RunOne(w, Anchors.PollLost, [Anchors.GetLatestFailed] + []);
    assert [Anchors.PollLost, Anchors.GetLatestFailed] == [Anchors.PollLost] + ([Anchors.GetLatestFailed] + []);
  }

  lemma LostSteps(w: Anchors.World, saves: bool)
    requires w.phase.Idle?
    ensures var steps := [Anchors.PollLost, Anchors.GetLatest, Anchors.DropAll, Anchors.Save(saves)];
            && Anchors.Possible(w, steps)
            && Anchors.RunFrom(w, steps)
               == w.(phase := Anchors.Idle(w.head), disk := if saves then Some(w.head) else w.disk,
                     cached := {}, covered := w.head)
  {
    hide Anchors.RunFrom, Anchors.Possible;
    var rest := [Anchors.DropAll, Anchors.Save(saves)];
    var w1 := Anchors.Next(w, Anchors.PollLost);
    DroppingSteps(Anchors.Next(w1, Anchors.GetLatest), saves);
    RunOne(w1, Anchors.GetLatest, rest);
    RunOne(w, Anchors.PollLost, [Anchors.GetLatest] + rest);
    assert [Anchors.PollLost, Anchors.GetLatest, Anchors.DropAll, Anchors.Save(saves)]
        == [Anchors.PollLost] + ([Anchors.GetLatest] + rest);
  }

  /**
   * Every poll is a sequence of steps of the anchor machine, which agrees with
   * it on the anchor it goes on with, on the anchor file, on the events handled
   * and on whether everything cached was dropped.
   */
  lemma PollIsSteps(w: Anchors.World, ps: PollerState, current: string, batch: Result<Batch>, latest: Result<string>,
      api: Api, now: nat, saves: bool, pos: string -> nat)
    requires w.phase == Anchors.Idle(pos(current)) && w.disk == FileOf(ps.anchor, pos)
    requires Served(w, current, batch, latest, pos)
    ensures var (ps', next) := Polled(ps, current, batch, latest, api, now, saves);
            var steps := PollSteps(batch, latest, saves, pos);
            && Anchors.Possible(w, steps)
            && var w' := Anchors.RunFrom(w, steps);
               && w'.phase == Anchors.Idle(pos(next)) && w'.disk == FileOf(ps'.anchor, pos) && w'.head == w.head
               && if batch.Ok? && batch.value.eventID != "" && !batch.value.refresh then
                    var done := Numbered(pos(current), pos(next));
                    && ps'.session == HandledAll(ps, batch.value.events, api, now).session
                    && w'.seen == w.seen + done && w'.handled == w.handled + done
                    && w'.cached == w.cached && w'.covered == w.covered
                  else if batch.Ok? && (batch.value.eventID != "" || latest.Ok?) then
                    && ps'.session == InvalidateAll(ps.session)
                    && w'.cached == {} && w'.covered == w.head && w'.seen == w.seen && w'.handled == w.handled
                  else ps' == ps && w' == w
  {
    hide Anchors.RunFrom, Anchors.Possible, Handled;
    match batch
    case Fail(_) => FailingSteps(w);
    case Ok(b) =>
      if b.eventID == "" {
        FailingSteps(w);
        LostSteps(w, saves);
      } else if b.refresh {
        var step, rest := Anchors.PollRefresh(pos(b.eventID)), [Anchors.DropAll, Anchors.Save(saves)];
        DroppingSteps(Anchors.Next(w, step), saves);
        RunOne(w, step, rest);
        assert [step] + rest == [step, Anchors.DropAll, Anchors.Save(saves)];
      } else {
        var step := Anchors.PollBatch(pos(b.eventID));
        BatchKeepsAnchor(ps, b.events, api, now);
        HandlingSteps(Anchors.Next(w, step), |b.events|, saves);
        RunOne(w, step, Handlings(|b.events|) + [Anchors.BatchDone, Anchors.Save(saves)]);
      }
  }
}
