/**
 * The account watcher and the volume list it drives
 * (volume-monitor/proton-account-watcher.vala, proton-remote-volume-monitor.vala).
 */
module Accounts {
  import opened Outcome

  datatype Volume = Volume(username: string)

  function VolumeId(username: string): string {
    "proton-" + username
  }

  datatype Signal = VolumeAdded(id: string) | VolumeRemoved(id: string)

  /** `signals` are all volume signals emitted so far. */
  datatype State = State(known: set<string>, volumes: map<string, Volume>, signals: seq<Signal>)

  const EMPTY := State({}, map[], [])

  function AddAccount(s: State, u: string): State {
    if u in s.known then s
    else State(s.known + {u}, s.volumes[u := Volume(u)], s.signals + [VolumeAdded(VolumeId(u))])
  }

  function RemoveAccount(s: State, u: string): State {
    if u !in s.known then s
    else if u !in s.volumes then s.(known := s.known - {u})
    else State(s.known - {u}, s.volumes - {u}, s.signals + [VolumeRemoved(VolumeId(s.volumes[u].username))])
  }

  /** A change of one account, however it was noticed. */
  datatype Change = Appeared(username: string) | Vanished(username: string)

  function Apply(s: State, c: Change): State {
    match c
    case Appeared(u) => AddAccount(s, u)
    case Vanished(u) => RemoveAccount(s, u)
  }

  function ApplyAll(s: State, cs: seq<Change>): State
    decreases |cs|
  {
    if cs == [] then s else Apply(ApplyAll(s, cs[..|cs| - 1]), cs[|cs| - 1])
  }

  /** The accounts a keyring search finds; items without a username are skipped. */
  function Found(items: seq<Option<string>>): (names: set<string>)
    ensures forall u :: u in names <==> Some(u) in items
  {
    set i | 0 <= i < |items| && items[i].Some? :: items[i].value
  }

  /** A scan only adds accounts it found, and then removes ones it did not. */
  ghost predicate IsScan(cs: seq<Change>, current: set<string>) {
    forall i | 0 <= i < |cs| :: (cs[i].Appeared? <==> cs[i].username in current)
  }

  class RemoteVolumeMonitor {
    var volumes: map<string, Volume>
    var signals: seq<Signal>

    constructor ()
      ensures volumes == map[] && signals == []
    {
      volumes, signals := map[], [];
    }

    method OnAccountAdded(u: string)
      modifies this
      ensures volumes == old(volumes)[u := Volume(u)]
      ensures signals == old(signals) + [VolumeAdded(VolumeId(u))]
    {
      var vol := Volume(u);
      volumes := volumes[u := vol];
      signals := signals + [VolumeAdded(VolumeId(vol.username))];
    }

    method OnAccountRemoved(u: string)
      modifies this
      ensures u !in old(volumes) ==> volumes == old(volumes) && signals == old(signals)
      ensures u in old(volumes) ==>
        volumes == old(volumes) - {u} && signals == old(signals) + [VolumeRemoved(VolumeId(old(volumes)[u].username))]
    {
      if u !in volumes {
        return;
      }
      var vol := volumes[u];
      volumes := volumes - {u};
      signals := signals + [VolumeRemoved(VolumeId(vol.username))];
    }

    /** The volumes in some order, each once. */
    method List() returns (vols: seq<Volume>)
      ensures |vols| == |volumes|
      ensures forall v :: v in vols <==> exists u :: u in volumes && volumes[u] == v
    {
      vols := [];
      var rest := volumes.Keys;
      while rest != {}
        invariant rest <= volumes.Keys
        invariant |vols| + |rest| == |volumes|
        invariant forall v :: v in vols <==> exists u :: u in volumes && u !in rest && volumes[u] == v
        decreases |rest|
      {
        var u :| u in rest;
        rest := rest - {u};
        vols := vols + [volumes[u]];
      }
      assert |volumes.Keys| == |volumes|;
    }
  }

  class AccountWatcher {
    var known: set<string>
    const monitor: RemoteVolumeMonitor

    ghost function View(): State
      reads this, monitor
    {
      State(known, monitor.volumes, monitor.signals)
    }

    constructor ()
      ensures View() == EMPTY && fresh(monitor)
    {
      known := {};
      monitor := new RemoteVolumeMonitor();
    }

    method OnDbusAccountAdded(u: string)
      modifies this, monitor
      ensures View() == AddAccount(old(View()), u)
    {
      if u in known {
        return;
      }
      known := known + {u};
      monitor.OnAccountAdded(u);
    }

    method OnDbusAccountRemoved(u: string)
      modifies this, monitor
      ensures View() == RemoveAccount(old(View()), u)
    {
      if u !in known {
        return;
      }
      known := known - {u};
      monitor.OnAccountRemoved(u);
    }

    /** The part of a scan after the search returned; iteration order is unspecified. */
    method Reload(items: seq<Option<string>>) returns (ghost changes: seq<Change>)
      modifies this, monitor
      ensures known == Found(items)
      ensures IsScan(changes, Found(items)) && View() == ApplyAll(old(View()), changes)
    {
      var current := UsernamesOf(items);
      ghost var adds := AddFound(current);
      ghost var drops := DropMissing(current);
      changes := adds + drops;
      ApplyAllConcat(old(View()), adds, drops);
    }

    method AddFound(current: set<string>) returns (ghost changes: seq<Change>)
      modifies this, monitor
      ensures known == old(known) + current
      ensures IsScan(changes, current) && View() == ApplyAll(old(View()), changes)
    {
      changes := [];
      assert View() == ApplyAll(old(View()), changes) && IsScan(changes, current);
      hide ApplyAll;
      var rest := current;
      while rest != {}
        invariant rest <= current && known == old(known) + (current - rest)
        invariant IsScan(changes, current) && View() == ApplyAll(old(View()), changes)
        decreases |rest|
      {
        var u :| u in rest;
        rest := rest - {u};
        OneMore(old(View()), changes, Appeared(u), current);
        changes := changes + [Appeared(u)];
        OnDbusAccountAdded(u);
      }
    }

    method DropMissing(current: set<string>) returns (ghost changes: seq<Change>)
      requires current <= known
      modifies this, monitor
      ensures known == current
      ensures IsScan(changes, current) && View() == ApplyAll(old(View()), changes)
    {
      changes := [];
      assert View() == ApplyAll(old(View()), changes) && IsScan(changes, current);
      hide ApplyAll;
      var removed := known - current;
      while removed != {}
        invariant current <= known && forall v :: v in removed <==> v in known && v !in current
        invariant IsScan(changes, current) && View() == ApplyAll(old(View()), changes)
        decreases |removed|
      {
        var u :| u in removed;
        removed := removed - {u};
        OneMore(old(View()), changes, Vanished(u), current);
        changes := changes + [Vanished(u)];
        OnDbusAccountRemoved(u);
      }
    }
  }

  method UsernamesOf(items: seq<Option<string>>) returns (current: set<string>)
    ensures current == Found(items)
  {
    current := {};
    for i := 0 to |items|
      invariant current == set j | 0 <= j < i && items[j].Some? :: items[j].value
    {
      if items[i].Some? {
        current := current + {items[i].value};
      }
    }
  }

  lemma OneMore(s: State, cs: seq<Change>, c: Change, current: set<string>)
    requires IsScan(cs, current) && (c.Appeared? <==> c.username in current)
    ensures IsScan(cs + [c], current)
    ensures ApplyAll(s, cs + [c]) == Apply(ApplyAll(s, cs), c)
  {
    assert (cs + [c])[..|cs|] == cs;
  }

  // ----- what a client of the signals sees -----

  /** The added (true) and removed (false) signals of one volume. */
  function OnOff(signals: seq<Signal>, id: string): seq<bool>
    decreases |signals|
  {
    if signals == [] then []
    else
      var front, last := OnOff(signals[..|signals| - 1], id), signals[|signals| - 1];
      if last.id != id then front else front + [last.VolumeAdded?]
  }

  predicate Alternating(s: seq<bool>) {
    forall i | 0 <= i < |s| :: s[i] == (i % 2 == 0)
  }

  /** A client that starts empty and follows the signals. */
  function Followed(signals: seq<Signal>): set<string>
    decreases |signals|
  {
    if signals == [] then {}
    else
      var shown, last := Followed(signals[..|signals| - 1]), signals[|signals| - 1];
      if last.VolumeAdded? then shown + {last.id} else shown - {last.id}
  }

  ghost predicate Inv(s: State) {
    && s.volumes.Keys == s.known
    && (forall u | u in s.volumes :: s.volumes[u] == Volume(u))
    && (forall u :: Alternating(OnOff(s.signals, VolumeId(u))))
    && (forall u :: |OnOff(s.signals, VolumeId(u))| % 2 == 1 <==> u in s.known)
    && Followed(s.signals) == VolumeIds(s.volumes)
  }

  function VolumeIds(volumes: map<string, Volume>): set<string> {
    set u | u in volumes :: VolumeId(u)
  }

  lemma VolumeIdInjective(a: string, b: string)
    requires VolumeId(a) == VolumeId(b)
    ensures a == b
  {
    assert a == VolumeId(a)[7..] && b == VolumeId(b)[7..];
  }

  lemma VolumeIdsFollow(volumes: map<string, Volume>, u: string)
    ensures VolumeIds(volumes[u := Volume(u)]) == VolumeIds(volumes) + {VolumeId(u)}
    ensures VolumeIds(volumes - {u}) == VolumeIds(volumes) - {VolumeId(u)}
  {
    var more, less := volumes[u := Volume(u)], volumes - {u};
    forall id
      ensures id in VolumeIds(more) <==> id in VolumeIds(volumes) || id == VolumeId(u)
    {
      assert forall v | v in volumes :: v in more;
      assert u in more;
    }
    forall v | v in volumes && VolumeId(v) == VolumeId(u)
      ensures v == u
    {
      VolumeIdInjective(v, u);
    }
    assert forall v | v in volumes && v != u :: v in less;
  }

  lemma ApplyKeepsInv(s: State, c: Change)
    requires Inv(s)
    ensures Inv(Apply(s, c))
  {
    var s', u := Apply(s, c), c.username;
    if s'.signals != s.signals {
      var last := s'.signals[|s.signals|];
      assert s'.signals[..|s.signals|] == s.signals;
      forall v
        ensures Alternating(OnOff(s'.signals, VolumeId(v)))
        ensures |OnOff(s'.signals, VolumeId(v))| % 2 == 1 <==> v in s'.known
      {
        if VolumeId(v) == last.id {
          VolumeIdInjective(v, u);
        }
      }
      VolumeIdsFollow(s.volumes, u);
    }
  }

  lemma {:induction false} ApplyAllKeepsInv(s: State, cs: seq<Change>)
    requires Inv(s)
    ensures Inv(ApplyAll(s, cs))
    decreases |cs|
  {
    if cs != [] {
      ApplyAllKeepsInv(s, cs[..|cs| - 1]);
      ApplyKeepsInv(ApplyAll(s, cs[..|cs| - 1]), cs[|cs| - 1]);
    }
  }

  /**
   * Over any interleaving of scans and D-Bus signals: the volume list and the
   * known accounts agree, each account's signals strictly alternate starting
   * with an addition, and a client following the signals shows exactly the
   * identifiers of the volumes `list` would return.
   */
  lemma SignalsMirrorAccounts(cs: seq<Change>, u: string)
    ensures var s := ApplyAll(EMPTY, cs);
            && s.volumes.Keys == s.known
            && Alternating(OnOff(s.signals, VolumeId(u)))
            && (u in s.volumes ==> s.volumes[u] == Volume(u))
            && Followed(s.signals) == VolumeIds(s.volumes)
  {
    ApplyAllKeepsInv(EMPTY, cs);
  }

  lemma {:induction false} ApplyAllConcat(s: State, a: seq<Change>, b: seq<Change>)
    ensures ApplyAll(ApplyAll(s, a), b) == ApplyAll(s, a + b)
    decreases |b|
  {
    if b == [] {
      assert a + b == a;
    } else {
      ApplyAllConcat(s, a, b[..|b| - 1]);
      assert (a + b)[..|a + b| - 1] == a + b[..|b| - 1];
    }
  }

  /** Scanning again with nothing changed emits nothing. */
  lemma {:induction false} RescanIsSilent(s: State, cs: seq<Change>)
    requires IsScan(cs, s.known)
    ensures ApplyAll(s, cs) == s
    decreases |cs|
  {
    if cs != [] {
      RescanIsSilent(s, cs[..|cs| - 1]);
    }
  }
}
