/**
 * The persistent block cache and its LRU eviction (helper/drive/blockcache.go).
 *
 * The on-disk tree is a map from (link, revision, index) to file contents and
 * modification time. Writes are atomic; a write, a touch or a removal may fail.
 */
module BlockStore {
  import opened Outcome

  newtype byte = x: int | 0 <= x < 256

  datatype Key = Key(link: string, rev: string, index: int)
  datatype Block = Block(data: seq<byte>, mtime: nat)
  type Store = map<Key, Block>

  ghost function TotalSize(st: Store): nat {
    if st == map[] then 0
    else
      var k :| k in st;
      |st[k].data| + TotalSize(st - {k})
  }

  lemma {:induction false} TotalWithout(st: Store, k: Key)
    requires k in st
    ensures TotalSize(st) == |st[k].data| + TotalSize(st - {k})
    decreases |st|
  {
    var j :| j in st && TotalSize(st) == |st[j].data| + TotalSize(st - {j});
    if j != k {
      TotalWithout(st - {j}, k);
      TotalWithout(st - {k}, j);
      assert st - {j} - {k} == st - {k} - {j};
    }
  }

  lemma {:induction false} TotalOfSubmap(st: Store, keep: set<Key>)
    requires keep <= st.Keys
    ensures TotalSize(map k | k in keep :: st[k]) <= TotalSize(st)
    decreases |st|
  {
    var sub := map k | k in keep :: st[k];
    if st.Keys <= keep {
      assert sub == st;
    } else {
      var j :| j in st && j !in keep;
      TotalWithout(st, j);
      TotalOfSubmap(st - {j}, keep);
      assert sub == map k | k in keep :: (st - {j})[k];
    }
  }

  function Touch(st: Store, k: Key, now: nat): Store {
    if k in st then st[k := Block(st[k].data, now)] else st
  }

  lemma TouchKeepsTotal(st: Store, k: Key, now: nat)
    ensures TotalSize(Touch(st, k, now)) == TotalSize(st)
  {
    if k in st {
      var st' := Touch(st, k, now);
      TotalWithout(st, k);
      TotalWithout(st', k);
      assert st - {k} == st' - {k};
    }
  }

  function WithoutLink(st: Store, link: string): Store {
    map k | k in st && k.link != link :: st[k]
  }

  // ----- what eviction promises -----

  predicate Submap(a: Store, b: Store) {
    forall k | k in a :: k in b && a[k] == b[k]
  }

  /** No removed file is newer than a kept one that could have been removed. */
  ghost predicate OldestFirst(st: Store, st': Store, removable: Key -> bool) {
    forall r, k | r in st && r !in st' && k in st' && removable(k) && k in st :: st[r].mtime <= st[k].mtime
  }

  /** Some removed file is the newest removed, and without its removal the target is missed. */
  ghost predicate LastWasNeeded(st: Store, st': Store, target: nat) {
    exists last | last in st && last !in st' ::
      && (forall r | r in st && r !in st' :: st[r].mtime <= st[last].mtime)
      && TotalSize(st') + |st[last].data| > target
  }

  /** `st'` is what one eviction pass may leave of `st`. */
  ghost predicate Evicts(st: Store, st': Store, maxSize: nat, target: nat, removable: Key -> bool) {
    && Submap(st', st)
    && (TotalSize(st) <= maxSize ==> st' == st)
    && (forall r | r in st && r !in st' :: removable(r))
    && OldestFirst(st, st', removable)
    && (TotalSize(st) > maxSize ==>
          TotalSize(st') <= target || forall k | k in st' :: !removable(k))
    && (st' != st ==> LastWasNeeded(st, st', target))
  }

  /** One cached file as the eviction pass sees it. */
  datatype CacheFile = CacheFile(key: Key, mtime: nat, size: nat)

  ghost predicate Describes(f: CacheFile, st: Store) {
    f.key in st && f.mtime == st[f.key].mtime && f.size == |st[f.key].data|
  }

  ghost predicate DescribesAll(files: seq<CacheFile>, st: Store) {
    && (forall i | 0 <= i < |files| :: Describes(files[i], st))
    && (forall i, j | 0 <= i < j < |files| :: files[i].key != files[j].key)
  }

  ghost predicate Covers(files: seq<CacheFile>, st: Store) {
    forall k | k in st :: exists i :: 0 <= i < |files| && files[i].key == k
  }

  ghost predicate ByAge(files: seq<CacheFile>) {
    forall i, j | 0 <= i < j < |files| :: files[i].mtime <= files[j].mtime
  }

  /** The files of `rest` are still to be visited. */
  ghost predicate Visiting(st: Store, rest: Store, files: seq<CacheFile>, total: nat) {
    && Submap(rest, st)
    && DescribesAll(files, st)
    && (forall i | 0 <= i < |files| :: files[i].key !in rest)
    && (forall k | k in st && k !in rest :: exists i :: 0 <= i < |files| && files[i].key == k)
    && total + TotalSize(rest) == TotalSize(st)
  }

  lemma VisitKeeps(st: Store, rest: Store, files: seq<CacheFile>, total: nat, k: Key)
    requires Visiting(st, rest, files, total) && k in rest
    ensures Visiting(st, rest - {k}, files + [CacheFile(k, st[k].mtime, |st[k].data|)], total + |st[k].data|)
  {
    hide TotalSize;
    TotalWithout(rest, k);
    var f := CacheFile(k, st[k].mtime, |st[k].data|);
    var more := files + [f];
    assert Describes(f, st);
    assert forall i | 0 <= i < |files| :: more[i] == files[i];
    assert more[|files|] == f;
    forall j | j in st && j !in rest - {k}
      ensures exists i :: 0 <= i < |more| && more[i].key == j
    {
      if j != k {
        var i :| 0 <= i < |files| && files[i].key == j;
        assert more[i].key == j;
      }
    }
  }

  /** Walk the cache directory, in any order, adding up the sizes. */
  method WalkDir(st: Store) returns (files: seq<CacheFile>, total: nat)
    ensures DescribesAll(files, st) && Covers(files, st) && total == TotalSize(st)
  {
    hide Describes;
    files, total := [], 0;
    var rest := st;
    while rest != map[]
      invariant Submap(rest, st)
      invariant Visiting(st, rest, files, total)
      decreases |rest|
    {
      hide Visiting;
      var k :| k in rest;
      VisitKeeps(st, rest, files, total, k);
      files := files + [CacheFile(k, st[k].mtime, |st[k].data|)];
      total := total + |st[k].data|;
      rest := rest - {k};
    }
  }

  /** Place one file into an age-ordered list. */
  function InsertByAge(f: CacheFile, files: seq<CacheFile>): (r: seq<CacheFile>)
    ensures multiset(r) == multiset(files) + multiset{f}
  {
    if files == [] || f.mtime <= files[0].mtime then [f] + files
    else
      assert files == [files[0]] + files[1..];
      [files[0]] + InsertByAge(f, files[1..])
  }

  lemma {:induction false} InsertKeepsAge(f: CacheFile, files: seq<CacheFile>)
    requires ByAge(files)
    ensures ByAge(InsertByAge(f, files))
    decreases |files|
  {
    if files != [] && f.mtime > files[0].mtime {
      InsertKeepsAge(f, files[1..]);
      InsertedAreYounger(f, files);
      YoungerFollow(files[0], InsertByAge(f, files[1..]));
    }
  }

  lemma InsertedAreYounger(f: CacheFile, files: seq<CacheFile>)
    requires files != [] && ByAge(files) && f.mtime > files[0].mtime
    ensures forall i | 0 <= i < |InsertByAge(f, files[1..])| :: files[0].mtime <= InsertByAge(f, files[1..])[i].mtime
  {
    hide InsertByAge;
    var rest := InsertByAge(f, files[1..]);
    forall i | 0 <= i < |rest|
      ensures files[0].mtime <= rest[i].mtime
    {
      assert rest[i] in multiset(rest) && multiset(rest) == multiset(files[1..]) + multiset{f};
      assert rest[i] == f || rest[i] in files[1..];
    }
  }

  lemma YoungerFollow(f: CacheFile, rest: seq<CacheFile>)
    requires ByAge(rest) && forall i | 0 <= i < |rest| :: f.mtime <= rest[i].mtime
    ensures ByAge([f] + rest)
  {
  }

  method SortByAge(files: seq<CacheFile>) returns (r: seq<CacheFile>)
    ensures ByAge(r) && multiset(r) == multiset(files)
  {
    r := [];
    for i := 0 to |files|
      invariant ByAge(r) && multiset(r) == multiset(files[..i])
    {
      assert files[..i + 1] == files[..i] + [files[i]];
      InsertKeepsAge(files[i], r);
      r := InsertByAge(files[i], r);
    }
    assert files[..|files|] == files;
  }

  lemma PermutationDescribes(files: seq<CacheFile>, sorted: seq<CacheFile>, st: Store)
    requires multiset(files) == multiset(sorted) && DescribesAll(files, st) && Covers(files, st)
    ensures DescribesAll(sorted, st) && Covers(sorted, st)
  {
    forall i | 0 <= i < |sorted|
      ensures Describes(sorted[i], st)
    {
      assert sorted[i] in multiset(files);
    }
    forall k | k in st
      ensures exists i :: 0 <= i < |sorted| && sorted[i].key == k
    {
      var i :| 0 <= i < |files| && files[i].key == k;
      assert files[i] in multiset(sorted);
    }
    forall i, j | 0 <= i < j < |sorted|
      ensures sorted[i].key != sorted[j].key
    {
      if sorted[i].key == sorted[j].key {
        assert sorted[i] == sorted[j];
        TwiceInSeq(sorted, i, j);
        OnceInSeq(files, st, sorted[i]);
        assert false;
      }
    }
  }

  lemma TwiceInSeq(s: seq<CacheFile>, i: nat, j: nat)
    requires i < j < |s| && s[i] == s[j]
    ensures multiset(s)[s[i]] >= 2
  {
    assert s == s[..i] + [s[i]] + s[i + 1..j] + [s[j]] + s[j + 1..];
  }

  lemma OnceInSeq(s: seq<CacheFile>, st: Store, f: CacheFile)
    requires DescribesAll(s, st)
    ensures multiset(s)[f] <= 1
  {
    if f in s {
      var i :| 0 <= i < |s| && s[i] == f;
      assert s == s[..i] + [s[i]] + s[i + 1..];
      assert f !in s[..i] && f !in s[i + 1..];
    }
  }

  // ----- the eviction loop -----

  /** The first `i` files, oldest first, have been dealt with. */
  ghost predicate Midway(st: Store, cur: Store, files: seq<CacheFile>, i: nat, target: nat, removable: Key -> bool)
    requires i <= |files|
  {
    && Submap(cur, st)
    && (forall j | i <= j < |files| :: files[j].key in cur)
    && (forall j | 0 <= j < i && files[j].key in cur :: !removable(files[j].key))
    && (forall r | r in st && r !in cur :: removable(r) && exists j :: 0 <= j < i && files[j].key == r)
    && (cur != st ==> LastWasNeeded(st, cur, target))
  }

  lemma RemovalKeepsMidway(st: Store, cur: Store, files: seq<CacheFile>, i: nat, target: nat, removable: Key -> bool)
    requires i < |files| && Midway(st, cur, files, i, target, removable)
    requires DescribesAll(files, st) && ByAge(files)
    requires removable(files[i].key) && TotalSize(cur) > target
    ensures Midway(st, cur - {files[i].key}, files, i + 1, target, removable)
    ensures TotalSize(cur) == files[i].size + TotalSize(cur - {files[i].key})
  {
    var k := files[i].key;
    var next := cur - {k};
    assert Describes(files[i], st);
    TotalWithout(cur, k);
    forall r | r in st && r !in next
      ensures removable(r) && (exists j :: 0 <= j < i + 1 && files[j].key == r)
      ensures st[r].mtime <= st[k].mtime
    {
      if r != k {
        var j :| 0 <= j < i && files[j].key == r;
        assert Describes(files[j], st);
      }
    }
    assert LastWasNeeded(st, next, target) by {
      assert k in st && k !in next;
    }
  }

  lemma FailureKeepsMidway(st: Store, cur: Store, files: seq<CacheFile>, i: nat, target: nat, removable: Key -> bool)
    requires i < |files| && Midway(st, cur, files, i, target, removable) && !removable(files[i].key)
    ensures Midway(st, cur, files, i + 1, target, removable)
  {
    forall r | r in st && r !in cur
      ensures exists j :: 0 <= j < i + 1 && files[j].key == r
    {
      var j :| 0 <= j < i && files[j].key == r;
    }
  }

  lemma KeysAreStored(files: seq<CacheFile>, st: Store)
    requires DescribesAll(files, st)
    ensures forall j | 0 <= j < |files| :: files[j].key in st
  {
    assert forall j | 0 <= j < |files| :: Describes(files[j], st);
  }

  lemma MidwayEvicts(st: Store, cur: Store, files: seq<CacheFile>, i: nat, maxSize: nat, target: nat,
      removable: Key -> bool)
    requires i <= |files| && Midway(st, cur, files, i, target, removable)
    requires DescribesAll(files, st) && Covers(files, st) && ByAge(files)
    requires TotalSize(st) > maxSize && (i == |files| || TotalSize(cur) <= target)
    ensures Evicts(st, cur, maxSize, target, removable)
  {
    forall r, k | r in st && r !in cur && k in cur && removable(k) && k in st
      ensures st[r].mtime <= st[k].mtime
    {
      var a :| 0 <= a < i && files[a].key == r;
      var b :| 0 <= b < |files| && files[b].key == k;
      assert Describes(files[a], st) && Describes(files[b], st);
    }
  }

  class BlockCache {
    const maxSize: nat
    const target: nat
    var store: Store

    ghost predicate Valid() {
      target <= maxSize
    }

    /** `target` stands for nine tenths of `maxSize`, rounded by floating point. */
    constructor (maxSize: nat, target: nat)
      requires target <= maxSize
      ensures Valid() && this.maxSize == maxSize && this.target == target && store == map[]
    {
      this.maxSize, this.target := maxSize, target;
      store := map[];
    }

    method InvalidateLink(link: string)
      modifies this
      ensures store == WithoutLink(old(store), link)
    {
      store := map k | k in store && k.link != link :: store[k];
    }

    /** `touches` says whether updating the modification time succeeds. */
    method GetBlock(k: Key, now: nat, touches: bool) returns (r: Option<seq<byte>>)
      modifies this
      ensures r == if k in old(store) then Some(old(store)[k].data) else None
      ensures store == if touches then Touch(old(store), k, now) else old(store)
    {
      if k !in store {
        return None;
      }
      var data := store[k].data;
      if touches {
        store := store[k := Block(data, now)];
      }
      return Some(data);
    }

    /** `writes` says whether the file write succeeds. */
    method PutBlock(k: Key, data: seq<byte>, now: nat, writes: bool, removable: Key -> bool) returns (ok: bool)
      requires Valid()
      modifies this
      ensures ok == writes
      ensures !writes ==> store == old(store)
      ensures writes ==> Evicts(old(store)[k := Block(data, now)], store, maxSize, target, removable)
    {
      if !writes {
        return false;
      }
      store := store[k := Block(data, now)];
      EvictIfNeeded(removable);
      return true;
    }

    method EvictIfNeeded(removable: Key -> bool)
      requires Valid()
      modifies this
      ensures Evicts(old(store), store, maxSize, target, removable)
    {
      var files, total := WalkDir(store);
      if total <= maxSize {
        return;
      }
      var sorted := SortByAge(files);
      PermutationDescribes(files, sorted, store);
      RemoveOldest(sorted, total, removable);
    }

    /** The removal loop over the files sorted by age. */
    method RemoveOldest(files: seq<CacheFile>, size: nat, removable: Key -> bool)
      requires Valid() && DescribesAll(files, store) && Covers(files, store) && ByAge(files)
      requires size == TotalSize(store) > maxSize
      modifies this
      ensures Evicts(old(store), store, maxSize, target, removable)
    {
      hide Describes, ByAge, Covers, LastWasNeeded, TotalSize, Evicts;
      ghost var st := store;
      var total, i := size, 0;
      assert forall j | 0 <= j < |files| :: files[j].key in store by { KeysAreStored(files, store); }
      while i < |files| && total > target
        invariant 0 <= i <= |files|
        invariant Midway(st, store, files, i, target, removable)
        invariant total == TotalSize(store)
      {
        var k := files[i].key;
        if removable(k) {
          RemovalKeepsMidway(st, store, files, i, target, removable);
          store := store - {k};
          total := total - files[i].size;
        } else {
          FailureKeepsMidway(st, store, files, i, target, removable);
        }
        i := i + 1;
      }
      MidwayEvicts(st, store, files, i, maxSize, target, removable);
    }
  }

  // ----- consequences -----

  ghost predicate AllRemovable(st: Store, removable: Key -> bool) {
    forall k | k in st :: removable(k)
  }

  /**
   * When every removal succeeds, eviction meets its target, drops no file
   * newer than a file it keeps, and drops no more than it has to.
   */
  lemma EvictionIsOrderedAndMinimal(st: Store, st': Store, maxSize: nat, target: nat, removable: Key -> bool)
    requires Evicts(st, st', maxSize, target, removable) && AllRemovable(st, removable)
    requires TotalSize(st) > maxSize >= target
    ensures TotalSize(st') <= target
    ensures forall r, k | r in st && r !in st' && k in st' && k in st :: st[r].mtime <= st[k].mtime
    ensures LastWasNeeded(st, st', target)
  {
    if st' == map[] {
    } else {
      var k :| k in st';
      assert removable(k);
    }
  }

  /** The block just written survives if it is strictly newest and fits the target. */
  lemma NewestSurvives(st: Store, st': Store, k: Key, maxSize: nat, target: nat, removable: Key -> bool)
    requires Evicts(st, st', maxSize, target, removable) && AllRemovable(st, removable)
    requires k in st && |st[k].data| <= target
    requires forall j | j in st && j != k :: st[j].mtime < st[k].mtime
    ensures k in st' && st'[k] == st[k]
  {
    assert TotalSize(map[]) == 0;
    if k !in st' {
      assert false;
    }
  }

  /**
   * A block that was read goes after every block not used since: if the next
   * block stored evicts it, each removable block left was used no earlier.
   */
  lemma ReadBlockGoesLast(st: Store, st': Store, hit: Key, at: nat, stored: Key, b: Block, maxSize: nat, target: nat,
      removable: Key -> bool)
    requires hit in st && hit != stored && Evicts(Touch(st, hit, at)[stored := b], st', maxSize, target, removable)
    requires hit !in st'
    ensures forall j | j in st' && removable(j) && j != stored :: j in st && st[j].mtime >= at
    ensures stored in st' && removable(stored) ==> b.mtime >= at
  {
    var more := Touch(st, hit, at)[stored := b];
    assert more[hit].mtime == at;
    assert hit in more;
  }

  /** In particular a hit just now outlives every older block, and stays if it and the new block fit the target. */
  lemma ReadBlockSurvives(st: Store, st': Store, hit: Key, at: nat, stored: Key, b: Block, maxSize: nat, target: nat,
      removable: Key -> bool)
    requires hit in st && hit != stored && Evicts(Touch(st, hit, at)[stored := b], st', maxSize, target, removable)
    requires AllRemovable(Touch(st, hit, at)[stored := b], removable)
    requires (forall j | j in st && j != hit :: st[j].mtime < at) && at < b.mtime
    requires |st[hit].data| + |b.data| <= target
    ensures hit in st' && st'[hit].data == st[hit].data
  {
    OnlyOne(st', stored);
    if hit !in st' {
      ReadBlockGoesLast(st, st', hit, at, stored, b, maxSize, target, removable);
    }
  }

  lemma OnlyOne(st: Store, k: Key)
    ensures (forall j | j in st :: j == k) ==> TotalSize(st) == if k in st then |st[k].data| else 0
  {
    if forall j | j in st :: j == k {
      if k in st {
        TotalWithout(st, k);
        assert st - {k} == map[];
      } else {
        assert st == map[];
      }
    }
  }

  /** A completed cache operation. */
  datatype CacheOp =
    | Get(key: Key, now: nat)
    | Invalidate(link: string)
    | Put(key: Key, block: Block, removable: Key -> bool)

  ghost predicate CacheStep(st: Store, op: CacheOp, st': Store, maxSize: nat, target: nat) {
    match op
    case Get(k, now) => st' == Touch(st, k, now)
    case Invalidate(link) => st' == WithoutLink(st, link)
    case Put(k, b, removable) =>
      Evicts(st[k := b], st', maxSize, target, removable)
  }

  ghost predicate RemovalsSucceed(st: Store, op: CacheOp) {
    op.Put? ==> AllRemovable(st[op.key := op.block], op.removable)
  }

  ghost predicate CacheRun(states: seq<Store>, ops: seq<CacheOp>, maxSize: nat, target: nat) {
    && |states| == |ops| + 1 && states[0] == map[]
    && forall i | 0 <= i < |ops| :: CacheStep(states[i], ops[i], states[i + 1], maxSize, target)
  }

  lemma StepKeepsBound(st: Store, op: CacheOp, st': Store, maxSize: nat, target: nat)
    requires CacheStep(st, op, st', maxSize, target) && RemovalsSucceed(st, op)
    requires target <= maxSize && TotalSize(st) <= maxSize
    ensures TotalSize(st') <= maxSize
  {
    match op
    case Get(k, now) => TouchKeepsTotal(st, k, now);
    case Invalidate(link) =>
      TotalOfSubmap(st, st'.Keys);
      assert st' == map k | k in st'.Keys :: st[k];
    case Put(k, b, removable) =>
      if TotalSize(st[k := b]) > maxSize {
        EvictionIsOrderedAndMinimal(st[k := b], st', maxSize, target, removable);
      }
  }

  /** In every state of every run in which removals succeed, the cache is within its limit. */
  lemma {:induction false} CacheStaysBounded(states: seq<Store>, ops: seq<CacheOp>, maxSize: nat, target: nat, i: nat)
    requires CacheRun(states, ops, maxSize, target) && target <= maxSize && i < |states|
    requires forall j | 0 <= j < |ops| :: RemovalsSucceed(states[j], ops[j])
    ensures TotalSize(states[i]) <= maxSize
  {
    if i > 0 {
      CacheStaysBounded(states, ops, maxSize, target, i - 1);
      StepKeepsBound(states[i - 1], ops[i - 1], states[i], maxSize, target);
    }
  }
}
