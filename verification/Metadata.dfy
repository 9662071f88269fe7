/** The in-memory metadata cache with a time to live (helper/drive/metacache.go). */
module Metadata {
  import opened Outcome
  import opened Paths
  import opened Remote

  /** `asOf` records where the data came from; no branch of the cache reads it. */
  datatype StatEntry = StatEntry(link: Link, asOf: Fetch, parentKR: KeyRing, cachedAt: nat)
  datatype ListEntry = ListEntry(listing: Listing, parentKR: KeyRing, cachedAt: nat)

  datatype Meta = Meta(ttl: nat, stats: map<string, StatEntry>, lists: map<string, ListEntry>)

  function FreshStat(m: Meta, p: string, now: nat): Option<StatEntry> {
    if p in m.stats && now - m.stats[p].cachedAt < m.ttl then Some(m.stats[p]) else None
  }

  function FreshList(m: Meta, p: string, now: nat): Option<ListEntry> {
    if p in m.lists && now - m.lists[p].cachedAt < m.ttl then Some(m.lists[p]) else None
  }

  function PutStat(m: Meta, p: string, link: Link, asOf: Fetch, kr: KeyRing, now: nat): Meta {
    m.(stats := m.stats[p := StatEntry(link, asOf, kr, now)])
  }

  function PutList(m: Meta, p: string, listing: Listing, kr: KeyRing, now: nat): Meta {
    m.(lists := m.lists[p := ListEntry(listing, kr, now)])
  }

  function DropEntry(m: Meta, p: string): Meta {
    m.(stats := m.stats - {p}, lists := m.lists - {p, Dir(p)})
  }

  /** The empty path stands for "unknown" and drops nothing. */
  function DropPath(m: Meta, p: string): Meta {
    if p == "" then m else DropEntry(m, p)
  }

  /** Drop the first stat entry, in iteration order, that belongs to `id`. */
  function DropLink(m: Meta, id: LinkID, keys: seq<string>): Meta {
    if keys == [] then m
    else if keys[0] in m.stats && m.stats[keys[0]].link.id == id then DropEntry(m, keys[0])
    else DropLink(m, id, keys[1..])
  }

  function DropAll(m: Meta): Meta {
    m.(stats := map[], lists := map[])
  }

  class MetaCache {
    const ttl: nat
    var stats: map<string, StatEntry>
    var lists: map<string, ListEntry>

    ghost function View(): Meta
      reads this
    {
      Meta(ttl, stats, lists)
    }

    constructor (ttl: nat)
      ensures View() == Meta(if ttl == 0 then 30 else ttl, map[], map[])
    {
      this.ttl := if ttl == 0 then 30 else ttl;
      stats, lists := map[], map[];
    }

    method GetStat(p: string, now: nat) returns (r: Option<StatEntry>)
      ensures r == FreshStat(View(), p, now)
    {
      if p !in stats || now - stats[p].cachedAt >= ttl {
        return None;
      }
      return Some(stats[p]);
    }

    method GetStatStale(p: string) returns (r: Option<StatEntry>)
      ensures r == Lookup(View().stats, p)
    {
      r := if p in stats then Some(stats[p]) else None;
    }

    method SetStat(p: string, link: Link, asOf: Fetch, kr: KeyRing, now: nat)
      modifies this
      ensures View() == PutStat(old(View()), p, link, asOf, kr, now)
    {
      stats := stats[p := StatEntry(link, asOf, kr, now)];
    }

    method GetList(p: string, now: nat) returns (r: Option<ListEntry>)
      ensures r == FreshList(View(), p, now)
    {
      if p !in lists || now - lists[p].cachedAt >= ttl {
        return None;
      }
      return Some(lists[p]);
    }

    method GetListStale(p: string) returns (r: Option<ListEntry>)
      ensures r == Lookup(View().lists, p)
    {
      r := if p in lists then Some(lists[p]) else None;
    }

    method SetList(p: string, listing: Listing, kr: KeyRing, now: nat)
      modifies this
      ensures View() == PutList(old(View()), p, listing, kr, now)
    {
      lists := lists[p := ListEntry(listing, kr, now)];
    }

    method InvalidatePath(p: string)
      modifies this
      ensures View() == DropPath(old(View()), p)
    {
      if p == "" {
        return;
      }
      stats := stats - {p};
      lists := lists - {p} - {Dir(p)};
      assert lists == old(lists) - {p, Dir(p)};
    }

    method InvalidateLinkID(id: LinkID, keys: seq<string>)
      modifies this
      ensures View() == DropLink(old(View()), id, keys)
    {
      var i := 0;
      while i < |keys|
        invariant 0 <= i <= |keys|
        invariant View() == old(View())
        invariant DropLink(View(), id, keys) == DropLink(View(), id, keys[i..])
      {
        var p := keys[i];
        assert keys[i..][1..] == keys[i + 1..];
        if p in stats && stats[p].link.id == id {
          stats := stats - {p};
          lists := lists - {p} - {Dir(p)};
          assert lists == old(lists) - {p, Dir(p)};
          return;
        }
        i := i + 1;
      }
    }

    method InvalidateAll()
      modifies this
      ensures View() == DropAll(old(View()))
    {
      stats, lists := map[], map[];
    }
  }
}
