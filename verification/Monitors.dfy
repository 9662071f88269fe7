/** Forwarding drained events to file monitors (backend/gvfsbackendproton.c). */
module Monitors {
  import opened Outcome
  import opened Paths
  import Events

  datatype FileEvent = FileChanged | FileDeleted | FileCreated

  /** `alive` is false once the monitor behind the entry has been finalised. */
  datatype Monitor = Monitor(path: string, alive: bool)

  /** One `g_vfs_monitor_emit_event` call. */
  datatype Signal = Signal(monitor: nat, event: FileEvent, path: string)

  /** The helper's event as it arrives; a missing path means "unknown". */
  datatype Notice = Notice(kind: string, path: Option<string>)

  function FileEventOf(kind: string): FileEvent {
    if kind == "deleted" then FileDeleted else if kind == "created" then FileCreated else FileChanged
  }

  /** The string test of `emit_on_monitors`. */
  predicate Matches(monitor: string, file: string)
    requires monitor != ""
  {
    || monitor == file
    || (monitor <= file
        && (monitor[|monitor| - 1] == '/' || (|monitor| < |file| && file[|monitor|] == '/')))
  }

  /** A monitor is told about its own path and everything below it, the root's about everything. */
  lemma MatchesIsAncestor(monitor: string, file: string)
    requires IsClean(monitor) && IsClean(file) && monitor != ""
    ensures Matches(monitor, file) <==> SplitPath(monitor) <= SplitPath(file)
  {
    hide SplitPath, Clean;
    var c, d := SplitPath(monitor), SplitPath(file);
    CleanPathShape(monitor);
    CleanPathShape(file);
    PrefixIsAncestor(c, d);
    if c != [] {
      var front, last := c[..|c| - 1], c[|c| - 1];
      assert c == front + [last];
      TailSnoc(front, last);
      assert IsName(last) && last[|last| - 1] in last;
      assert monitor[|monitor| - 1] != '/';
      PrefixWithSlash(monitor, file);
      if d == [] {
        assert |monitor| >= 2;
      }
      if c == d {
        assert monitor == file;
      }
      assert c <= d <==> c == d || c < d;
    } else {
      assert monitor == "/" && file[0] == '/';
      assert monitor <= file;
    }
  }

  lemma PrefixWithSlash(m: string, f: string)
    ensures m + "/" <= f <==> m <= f && |m| < |f| && f[|m|] == '/'
  {
  }

  /** What one notice makes monitor number `i` emit. */
  function Emission(monitors: seq<Monitor>, i: nat, event: FileEvent, file: Option<string>): seq<Signal>
    requires i < |monitors| && monitors[i].path != ""
  {
    if !monitors[i].alive then []
    else
      match file
      case None => [Signal(i, FileChanged, monitors[i].path)]
      case Some(f) => if Matches(monitors[i].path, f) then [Signal(i, event, f)] else []
  }

  predicate Usable(monitors: seq<Monitor>) {
    forall i | 0 <= i < |monitors| :: monitors[i].path != ""
  }

  /** Exactly the live monitors at or above the file are told, each once, in order. */
  ghost predicate EmittedFor(monitors: seq<Monitor>, n: nat, event: FileEvent, file: Option<string>, out: seq<Signal>)
    requires n <= |monitors| && Usable(monitors)
  {
    && (forall s | s in out :: s.monitor < n && s in Emission(monitors, s.monitor, event, file))
    && (forall i | 0 <= i < n :: forall s | s in Emission(monitors, i, event, file) :: s in out)
    && (forall a, b | 0 <= a < b < |out| :: out[a].monitor < out[b].monitor)
  }

  class Backend {
    var monitors: seq<Monitor>

    constructor ()
      ensures monitors == []
    {
      monitors := [];
    }

    method RegisterMonitor(path: string)
      modifies this
      ensures monitors == old(monitors) + [Monitor(path, true)]
    {
      monitors := monitors + [Monitor(path, true)];
    }

    method EmitOnMonitors(event: FileEvent, file: Option<string>) returns (out: seq<Signal>)
      requires Usable(monitors)
      ensures EmittedFor(monitors, |monitors|, event, file, out)
    {
      out := [];
      for i := 0 to |monitors|
        invariant EmittedFor(monitors, i, event, file, out)
      {
        var entry := monitors[i];
        if entry.alive {
          if file.None? {
            out := out + [Signal(i, FileChanged, entry.path)];
          } else if Matches(entry.path, file.value) {
            out := out + [Signal(i, event, file.value)];
          }
        }
      }
    }

    /** The timeout callback: each drained event in turn is put to every monitor. */
    method PollEvents(notices: seq<Notice>) returns (out: seq<seq<Signal>>)
      requires Usable(monitors)
      ensures |out| == |notices|
      ensures forall k | 0 <= k < |out| ::
        EmittedFor(monitors, |monitors|, FileEventOf(notices[k].kind), notices[k].path, out[k])
    {
      out := [];
      for k := 0 to |notices|
        invariant |out| == k
        invariant forall j | 0 <= j < k ::
          EmittedFor(monitors, |monitors|, FileEventOf(notices[j].kind), notices[j].path, out[j])
      {
        var signals := EmitOnMonitors(FileEventOf(notices[k].kind), notices[k].path);
        out := out + [signals];
      }
    }
  }

  /** Among clean paths: a live monitor is told of a file exactly when it is at or above it. */
  lemma ToldIffAtOrAbove(monitors: seq<Monitor>, event: FileEvent, file: string, out: seq<Signal>, i: nat)
    requires Usable(monitors) && EmittedFor(monitors, |monitors|, event, Some(file), out)
    requires i < |monitors| && IsClean(monitors[i].path) && IsClean(file)
    ensures Signal(i, event, file) in out <==> monitors[i].alive && SplitPath(monitors[i].path) <= SplitPath(file)
  {
    MatchesIsAncestor(monitors[i].path, file);
    if monitors[i].alive && Matches(monitors[i].path, file) {
      assert Signal(i, event, file) in Emission(monitors, i, event, Some(file));
    }
  }

  /** A queued event as it arrives at the client; an empty path is not sent at all. */
  function NoticeOf(ev: Events.DriveEvent): Notice {
    Notice(match ev.kind case Changed => "changed" case Deleted => "deleted" case Created => "created",
           if ev.path == "" then None else Some(ev.path))
  }

  /** The file manager's word for the helper's. */
  predicate Means(kind: Events.EventType, event: FileEvent) {
    && (kind == Events.Changed <==> event == FileChanged)
    && (kind == Events.Deleted <==> event == FileDeleted)
    && (kind == Events.Created <==> event == FileCreated)
  }

  /**
   * A queued event reaches exactly the live monitors at or above its path, as
   * what it is; one without a path makes each live monitor report its own path
   * changed. Nothing else is said.
   */
  lemma QueuedIsTold(monitors: seq<Monitor>, ev: Events.DriveEvent, out: seq<Signal>, i: nat)
    requires Usable(monitors) && i < |monitors| && IsClean(monitors[i].path) && (ev.path != "" ==> IsClean(ev.path))
    requires EmittedFor(monitors, |monitors|, FileEventOf(NoticeOf(ev).kind), NoticeOf(ev).path, out)
    ensures forall event, path :: Signal(i, event, path) in out <==>
      && monitors[i].alive
      && if ev.path == "" then event == FileChanged && path == monitors[i].path
         else Means(ev.kind, event) && path == ev.path && SplitPath(monitors[i].path) <= SplitPath(ev.path)
  {
    hide Matches, SplitPath, IsClean;
    var event := FileEventOf(NoticeOf(ev).kind);
    assert Means(ev.kind, event);
    if ev.path != "" {
      MatchesIsAncestor(monitors[i].path, ev.path);
    }
    forall s | s in Emission(monitors, i, event, NoticeOf(ev).path)
      ensures s in out
    {
    }
  }
}
