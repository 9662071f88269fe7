/**
 * Byte-range reads assembled from four-mebibyte blocks, online through the
 * block cache and offline from it alone (helper/drive/session.go).
 */
module BlockReads {
  import opened Outcome
  import opened BlockStore

  type Bytes = seq<byte>

  const BLOCK_SIZE: int := 4 * 1024 * 1024
  /** How many blocks one revision page holds; the page is never continued. */
  const PAGE_BLOCKS: int := 500
  const MAX_INT64: int := 0x7FFF_FFFF_FFFF_FFFF

  function Min(a: int, b: int): int {
    if a <= b then a else b
  }

  /** Go's integer division. */
  function TruncDiv(a: int, b: int): int
    requires b > 0
  {
    if a >= 0 then a / b else -(-a / b)
  }

  /** Go's `int64` addition of two values in range. */
  function Add64(a: int, b: int): int {
    var sum := a + b;
    if sum > MAX_INT64 then sum - 0x1_0000_0000_0000_0000
    else if sum < -MAX_INT64 - 1 then sum + 0x1_0000_0000_0000_0000
    else sum
  }

  function NumBlocks(f: Bytes): nat {
    (|f| + BLOCK_SIZE - 1) / BLOCK_SIZE
  }

  /** The plaintext of block `i`; only the last block may be short. */
  function BlockOf(f: Bytes, i: nat): Bytes
    requires i < NumBlocks(f)
  {
    f[i * BLOCK_SIZE..Min((i + 1) * BLOCK_SIZE, |f|)]
  }

  /** `sliceRange`: trim a buffer that starts at block `start`. */
  function SliceRange(buf: Bytes, start: int, offset: int, length: int): Bytes {
    var trim := offset - start * BLOCK_SIZE;
    var from := if trim < 0 then 0 else trim;
    if from >= |buf| then []
    else
      var rest := buf[from..];
      if 0 < length < |rest| then rest[..length] else rest
  }

  /** The exclusive end of a request; `length` of 0 asks for everything. */
  function RequestEnd(f: Bytes, offset: nat, length: nat): nat {
    if 0 < length && offset + length < |f| then offset + length else |f|
  }

  /** What a read is for: the requested slice, empty past the end. */
  function Requested(f: Bytes, offset: nat, length: nat): Bytes {
    if offset >= |f| then [] else f[offset..RequestEnd(f, offset, length)]
  }

  /** What one page of blocks can deliver of it. */
  function OnlineRange(f: Bytes, offset: nat, length: nat): Bytes {
    var pageEnd := (offset / BLOCK_SIZE + PAGE_BLOCKS) * BLOCK_SIZE;
    if offset >= |f| then [] else f[offset..Min(RequestEnd(f, offset, length), pageEnd)]
  }

  /** A downloadable block; `body` is the outcome of fetching and decrypting it. */
  datatype BlockRef = BlockRef(index: int, body: Result<Bytes>)

  /** The page lists up to 500 blocks of `f` from 1-based block `from`. */
  ghost predicate ServesPage(f: Bytes, from: nat, refs: seq<BlockRef>)
    requires from >= 1
  {
    && |refs| == Min(PAGE_BLOCKS, if from <= NumBlocks(f) then NumBlocks(f) - (from - 1) else 0)
    && forall j | 0 <= j < |refs| ::
         && refs[j].index == from + j
         && (refs[j].body.Ok? ==> refs[j].body.value == BlockOf(f, from + j - 1))
  }

  /** Every cached block of this revision holds that block of `f`. */
  ghost predicate Sound(st: Store, link: string, rev: string, f: Bytes) {
    forall i: int :: Key(link, rev, i) in st ==>
      0 <= i < NumBlocks(f) && st[Key(link, rev, i)].data == BlockOf(f, i)
  }

  ghost predicate SameData(a: Store, b: Store) {
    a.Keys == b.Keys && forall k | k in a :: a[k].data == b[k].data
  }

  lemma BlockAppends(f: Bytes, start: nat, i: nat)
    requires start <= i < NumBlocks(f)
    ensures 0 <= start * BLOCK_SIZE <= Min(i * BLOCK_SIZE, |f|) <= Min((i + 1) * BLOCK_SIZE, |f|)
    ensures f[start * BLOCK_SIZE..Min(i * BLOCK_SIZE, |f|)] + BlockOf(f, i)
         == f[start * BLOCK_SIZE..Min((i + 1) * BLOCK_SIZE, |f|)]
  {
    assert i * BLOCK_SIZE <= |f|;
  }

  /** Trimming whole blocks of `f` from `start` gives the slice of `f`. */
  lemma SliceOfBlocks(f: Bytes, offset: nat, length: nat, end: nat)
    requires offset / BLOCK_SIZE * BLOCK_SIZE <= end <= |f|
    ensures var start := offset / BLOCK_SIZE;
            SliceRange(f[start * BLOCK_SIZE..end], start, offset, length)
            == if offset >= end then [] else f[offset..Min(RequestEnd(f, offset, length), end)]
  {
  }

  /** Blocks of this revision are only ever stored with their own content. */
  ghost predicate PutsTrueBlocks(ops: seq<CacheOp>, link: string, rev: string, f: Bytes) {
    forall i | 0 <= i < |ops| && ops[i].Put? && ops[i].key.link == link && ops[i].key.rev == rev ::
      0 <= ops[i].key.index < NumBlocks(f) && ops[i].block.data == BlockOf(f, ops[i].key.index)
  }

  /** So every cache reachable by puts, gets, evictions and invalidations is sound. */
  lemma {:induction false} ReachableCacheIsSound(states: seq<Store>, ops: seq<CacheOp>, maxSize: nat, target: nat,
      i: nat, link: string, rev: string, f: Bytes)
    requires CacheRun(states, ops, maxSize, target) && i < |states| && PutsTrueBlocks(ops, link, rev, f)
    ensures Sound(states[i], link, rev, f)
  {
    if i > 0 {
      ReachableCacheIsSound(states, ops, maxSize, target, i - 1, link, rev, f);
      assert CacheStep(states[i - 1], ops[i - 1], states[i], maxSize, target);
    }
  }

  // ----- readFromCache -----

  function EndByte(size: int, offset: int, length: int): int {
    if length > 0 && Add64(offset, length) < size then Add64(offset, length) else size
  }

  function Gather(st: Store, link: string, rev: string, i: int, last: int, acc: Bytes): Option<Bytes>
    decreases last - i
  {
    if i > last then Some(acc)
    else if Key(link, rev, i) in st then Gather(st, link, rev, i + 1, last, acc + st[Key(link, rev, i)].data)
    else None
  }

  function CachedRead(st: Store, link: string, rev: string, size: int, offset: nat, length: nat): Result<Bytes> {
    var start := offset / BLOCK_SIZE;
    match Gather(st, link, rev, start, TruncDiv(EndByte(size, offset, length) - 1, BLOCK_SIZE), [])
    case None => Fail(Offline)
    case Some(buf) => Ok(SliceRange(buf, start, offset, length))
  }

  lemma {:induction false} GatherSameData(a: Store, b: Store, link: string, rev: string, i: int, last: int, acc: Bytes)
    requires SameData(a, b)
    ensures Gather(a, link, rev, i, last, acc) == Gather(b, link, rev, i, last, acc)
    decreases last - i
  {
    if i <= last && Key(link, rev, i) in a {
      GatherSameData(a, b, link, rev, i + 1, last, acc + a[Key(link, rev, i)].data);
    }
  }

  method ReadFromCache(blocks: BlockCache?, link: string, rev: string, size: int, offset: nat, length: nat,
                       now: nat, touches: bool) returns (r: Result<Bytes>)
    modifies blocks
    ensures r == if blocks == null then Fail(Offline)
                 else CachedRead(old(blocks.store), link, rev, size, offset, length)
    ensures blocks != null ==> SameData(old(blocks.store), blocks.store)
  {
    if blocks == null {
      return Fail(Offline);
    }
    var start := TruncDiv(offset, BLOCK_SIZE);
    var end := size;
    if length > 0 && Add64(offset, length) < end {
      end := Add64(offset, length);
    }
    var last := TruncDiv(end - 1, BLOCK_SIZE);
    var buf: Bytes := [];
    var idx := start;
    while idx <= last
      invariant SameData(old(blocks.store), blocks.store)
      invariant Gather(old(blocks.store), link, rev, start, last, [])
             == Gather(old(blocks.store), link, rev, idx, last, buf)
      decreases last - idx
    {
      var data := blocks.GetBlock(Key(link, rev, idx), now, touches);
      if data.None? {
        return Fail(Offline);
      }
      buf := buf + data.value;
      idx := idx + 1;
    }
    return Ok(SliceRange(buf, start, offset, length));
  }

  /** Every block of the inclusive range is in the cache. */
  ghost predicate AllCached(st: Store, link: string, rev: string, first: int, last: int) {
    forall i | first <= i <= last :: Key(link, rev, i) in st
  }

  lemma {:induction false} GatherBlocks(st: Store, link: string, rev: string, f: Bytes, start: nat, i: nat, last: int)
    requires Sound(st, link, rev, f) && start <= i <= last + 1 && last < NumBlocks(f)
    requires start * BLOCK_SIZE <= |f|
    ensures var acc := f[start * BLOCK_SIZE..Min(i * BLOCK_SIZE, |f|)];
            Gather(st, link, rev, i, last, acc)
            == if AllCached(st, link, rev, i, last)
                then Some(f[start * BLOCK_SIZE..Min((last + 1) * BLOCK_SIZE, |f|)]) else None
    decreases last - i + 1
  {
    if i <= last {
      BlockAppends(f, start, i);
      GatherBlocks(st, link, rev, f, start, i + 1, last);
      if Key(link, rev, i) in st {
        assert AllCached(st, link, rev, i, last) <==> AllCached(st, link, rev, i + 1, last);
      }
    }
  }

  /** The last block of a request, and how far it reaches. */
  lemma LastBlock(f: Bytes, offset: nat, length: nat)
    requires f != []
    ensures var end, start := RequestEnd(f, offset, length), offset / BLOCK_SIZE;
            var last := (end - 1) / BLOCK_SIZE;
            && 0 <= last < NumBlocks(f)
            && start * BLOCK_SIZE <= offset
            && end <= Min((last + 1) * BLOCK_SIZE, |f|)
            && (start > last ==> offset >= |f| == end)
            && (start <= last ==> start * BLOCK_SIZE <= |f|)
  {
  }

  /**
   * Offline, a read of a non-empty file succeeds exactly when every block that
   * overlaps the request is cached, and then returns the requested slice, which
   * is empty past the end.
   */
  lemma OfflineReadIsExact(st: Store, link: string, rev: string, f: Bytes, offset: nat, length: nat)
    requires Sound(st, link, rev, f) && f != [] && offset + length <= MAX_INT64
    ensures var r := CachedRead(st, link, rev, |f|, offset, length);
            var last := (RequestEnd(f, offset, length) - 1) / BLOCK_SIZE;
            && (r.Ok? <==> AllCached(st, link, rev, offset / BLOCK_SIZE, last))
            && r == if r.Ok? then Ok(Requested(f, offset, length)) else Fail(Offline)
  {
    var start := offset / BLOCK_SIZE;
    var last := (RequestEnd(f, offset, length) - 1) / BLOCK_SIZE;
    LastBlock(f, offset, length);
    EndByteInRange(f, offset, length);
    if start <= last {
      GatherFromStart(st, link, rev, f, start, last);
      SliceOfBlocks(f, offset, length, Min((last + 1) * BLOCK_SIZE, |f|));
    }
  }

  lemma EndByteInRange(f: Bytes, offset: nat, length: nat)
    requires f != [] && offset + length <= MAX_INT64
    ensures EndByte(|f|, offset, length) == RequestEnd(f, offset, length)
    ensures TruncDiv(RequestEnd(f, offset, length) - 1, BLOCK_SIZE) == (RequestEnd(f, offset, length) - 1) / BLOCK_SIZE
  {
  }

  lemma GatherFromStart(st: Store, link: string, rev: string, f: Bytes, start: nat, last: int)
    requires Sound(st, link, rev, f) && start <= last < NumBlocks(f) && start * BLOCK_SIZE <= |f|
    ensures Gather(st, link, rev, start, last, [])
         == if AllCached(st, link, rev, start, last)
             then Some(f[start * BLOCK_SIZE..Min((last + 1) * BLOCK_SIZE, |f|)]) else None
  {
    assert f[start * BLOCK_SIZE..Min(start * BLOCK_SIZE, |f|)] == [];
    GatherBlocks(st, link, rev, f, start, start, last);
  }

  /** When offset + length leaves the 64-bit range, the offline read returns nothing at all. */
  lemma OverflowingOfflineReadIsEmpty(st: Store, link: string, rev: string, f: Bytes, offset: nat, length: nat)
    requires offset <= |f| <= MAX_INT64 && length <= MAX_INT64 && offset + length > MAX_INT64
    ensures CachedRead(st, link, rev, |f|, offset, length) == Ok([])
    ensures Requested(f, offset, length) == [] <==> offset == |f|
  {
  }

  /** An empty file has no block to cache, yet the offline read looks for block 0. */
  lemma {:induction false} EmptyFileIsNeverReadOffline(st: Store, link: string, rev: string, length: nat)
    requires Sound(st, link, rev, []) && length <= MAX_INT64
    ensures CachedRead(st, link, rev, 0, 0, length) == Fail(Offline)
  {
    assert Key(link, rev, 0) !in st;
    assert EndByte(0, 0, length) == 0;
    assert TruncDiv(-1, BLOCK_SIZE) == 0;
  }

  // ----- ReadFileContent -----

  ghost predicate SoundFor(blocks: BlockCache?, link: string, rev: string, f: Bytes)
    reads blocks
  {
    blocks != null ==> blocks.Valid() && Sound(blocks.store, link, rev, f)
  }

  /** Faults of the disk and the clock while one read runs. */
  datatype Disk = Disk(now: nat, touches: bool, writes: int -> bool, removable: Key -> bool)

  lemma SoundAfterPut(st: Store, st': Store, k: Key, b: Block, f: Bytes, disk: Disk, maxSize: nat, target: nat)
    requires Sound(st, k.link, k.rev, f) && 0 <= k.index < NumBlocks(f) && b.data == BlockOf(f, k.index)
    requires Evicts(st[k := b], st', maxSize, target, disk.removable)
    ensures Sound(st', k.link, k.rev, f)
  {
  }

  lemma SoundSameData(st: Store, st': Store, link: string, rev: string, f: Bytes)
    requires SameData(st, st') && Sound(st, link, rev, f)
    ensures Sound(st', link, rev, f)
  {
  }

  function KeyOf(link: string, rev: string, ref: BlockRef): Key {
    Key(link, rev, ref.index - 1)
  }

  /** The store once a downloaded block has been written, before any eviction. */
  function Stored(st: Store, k: Key, body: Bytes, disk: Disk): Store {
    st[k := Block(body, disk.now)]
  }

  /**
   * What reading one listed block does to the cache: a hit is touched, a block
   * that is downloaded is stored, which may evict others.
   */
  ghost predicate ReadStep(st: Store, ref: BlockRef, st': Store, link: string, rev: string, disk: Disk,
      maxSize: nat, target: nat)
  {
    var k := KeyOf(link, rev, ref);
    if k in st then st' == if disk.touches then Touch(st, k, disk.now) else st
    else if ref.body.Ok? && disk.writes(k.index) then
      Evicts(Stored(st, k, ref.body.value, disk), st', maxSize, target, disk.removable)
    else st' == st
  }

  /** The stores before, between and after the listed blocks that are read. */
  ghost predicate ReadChain(states: seq<Store>, refs: seq<BlockRef>, link: string, rev: string, disk: Disk,
      maxSize: nat, target: nat)
  {
    && 1 <= |states| <= |refs| + 1
    && forall j | 0 <= j < |states| - 1 :: ReadStep(states[j], refs[j], states[j + 1], link, rev, disk, maxSize, target)
  }

  /** One listed block: from the cache if it is there, else downloaded and stored. */
  method ReadBlock(blocks: BlockCache?, link: string, rev: string, block: BlockRef, disk: Disk, ghost f: Bytes)
    returns (r: Result<Bytes>)
    requires 1 <= block.index <= NumBlocks(f) && SoundFor(blocks, link, rev, f)
    requires block.body.Ok? ==> block.body.value == BlockOf(f, block.index - 1)
    modifies blocks
    ensures SoundFor(blocks, link, rev, f)
    ensures r.Ok? ==> r.value == BlockOf(f, block.index - 1)
    ensures r.Fail? ==> block.body == r
    ensures r.Fail? ==> blocks != null ==> KeyOf(link, rev, block) !in old(blocks.store)
    ensures blocks != null ==>
      ReadStep(old(blocks.store), block, blocks.store, link, rev, disk, blocks.maxSize, blocks.target)
  {
    var k := Key(link, rev, block.index - 1);
    if blocks != null {
      var cached := blocks.GetBlock(k, disk.now, disk.touches);
      if cached.Some? {
        return Ok(cached.value);
      }
    }
    if block.body.Fail? {
      return block.body;
    }
    var plain := block.body.value;
    if blocks != null {
      ghost var before := blocks.store;
      var _ := blocks.PutBlock(k, plain, disk.now, disk.writes(k.index), disk.removable);
      if disk.writes(k.index) {
        SoundAfterPut(before, blocks.store, k, Block(plain, disk.now), f, disk, blocks.maxSize, blocks.target);
      }
    }
    return Ok(plain);
  }

  /** The stores a read went through: past every listed block, or up to the one that failed. */
  ghost predicate LeavesStates(before: Store, blocks: BlockCache, link: string, rev: string, refs: seq<BlockRef>,
      disk: Disk, r: Result<Bytes>, states: seq<Store>)
    reads blocks
  {
    && ReadChain(states, refs, link, rev, disk, blocks.maxSize, blocks.target)
    && states[0] == before && states[|states| - 1] == blocks.store
    && (r.Ok? ==> |states| == |refs| + 1)
    && (r.Fail? ==> |states| > 1 && refs[|states| - 2].body == r
                    && KeyOf(link, rev, refs[|states| - 2]) !in states[|states| - 2])
  }

  /** The loop over the listed blocks, of which the first is block `start`. */
  method ReadListed(blocks: BlockCache?, link: string, rev: string, refs: seq<BlockRef>, start: nat, disk: Disk,
                    ghost f: Bytes)
    returns (r: Result<Bytes>, ghost states: seq<Store>)
    requires SoundFor(blocks, link, rev, f) && ServesPage(f, start + 1, refs)
    modifies blocks
    ensures SoundFor(blocks, link, rev, f)
    ensures r.Ok? && refs != [] ==>
      start * BLOCK_SIZE <= |f| && r.value == f[start * BLOCK_SIZE..Min((start + |refs|) * BLOCK_SIZE, |f|)]
    ensures r.Ok? && refs == [] ==> r.value == []
    ensures r.Fail? ==> exists j :: 0 <= j < |refs| && refs[j].body == r
    ensures blocks != null ==> LeavesStates(old(blocks.store), blocks, link, rev, refs, disk, r, states)
  {
    hide BlockOf, ReadStep, Sound;
    states := if blocks == null then [] else [blocks.store];
    var buf: Bytes := [];
    for j := 0 to |refs|
      invariant SoundFor(blocks, link, rev, f)
      invariant j > 0 ==> start * BLOCK_SIZE <= |f|
      invariant buf == if j == 0 then [] else f[start * BLOCK_SIZE..Min((start + j) * BLOCK_SIZE, |f|)]
      invariant blocks != null ==>
        && ReadChain(states, refs, link, rev, disk, blocks.maxSize, blocks.target)
        && |states| == j + 1 && states[0] == old(blocks.store) && states[j] == blocks.store
    {
      var data := ReadBlock(blocks, link, rev, refs[j], disk, f);
      if blocks != null {
        states := states + [blocks.store];
      }
      if data.Fail? {
        r := data;
        return;
      }
      BlockAppends(f, start, start + j);
      assert f[start * BLOCK_SIZE..start * BLOCK_SIZE] == [];
      buf := buf + data.value;
    }
    r := Ok(buf);
  }

  /**
   * `page` answers the revision request, `f` is the plaintext of the revision.
   * Whatever blocks the cache happens to hold, a read that succeeds online
   * returns the requested slice, cut short only by the page.
   */
  method ReadFileContent(blocks: BlockCache?, link: string, rev: string, size: int, offset: nat, length: nat,
                         page: Result<seq<BlockRef>>, disk: Disk, ghost f: Bytes)
    returns (r: Result<Bytes>, ghost states: seq<Store>)
    requires SoundFor(blocks, link, rev, f) && size == |f|
    requires page.Ok? ==> ServesPage(f, offset / BLOCK_SIZE + 1, page.value)
    modifies blocks
    ensures SoundFor(blocks, link, rev, f)
    ensures page.Ok? && r.Ok? ==> r.value == OnlineRange(f, offset, length)
    ensures page.Ok? && r.Fail? ==> exists j :: 0 <= j < |page.value| && page.value[j].body == r
    ensures page.Fail? && page.error != Offline ==> r == Fail(page.error)
    ensures page.Fail? && page.error == Offline ==>
      r == if blocks == null then Fail(Offline) else CachedRead(old(blocks.store), link, rev, |f|, offset, length)
    ensures page.Ok? && blocks != null ==>
      LeavesStates(old(blocks.store), blocks, link, rev, page.value, disk, r, states)
    ensures page.Ok? && blocks != null && AllSucceed(page.value, link, rev, disk) ==>
      && r.Ok?
      && (TotalSize(old(blocks.store)) + ListedSize(page.value) <= blocks.maxSize ==>
            && Holds(old(blocks.store), blocks.store)
            && forall j | 0 <= j < |page.value| :: KeyOf(link, rev, page.value[j]) in blocks.store)
  {
    hide OnlineRange, BlockOf, SliceRange, CachedRead, ReadStep, Sound, TotalSize, ListedSize, Holds;
    var start := TruncDiv(offset, BLOCK_SIZE);
    states := [];
    if page.Fail? {
      if page.error != Offline {
        r := Fail(page.error);
        return;
      }
      ghost var before := if blocks == null then map[] else blocks.store;
      r := ReadFromCache(blocks, link, rev, size, offset, length, disk.now, disk.touches);
      if blocks != null {
        SoundSameData(before, blocks.store, link, rev, f);
      }
      return;
    }
    var refs := page.value;
    var buf;
    buf, states := ReadListed(blocks, link, rev, refs, start, disk, f);
    if blocks != null && AllSucceed(refs, link, rev, disk)
      && TotalSize(old(blocks.store)) + ListedSize(refs) <= blocks.maxSize {
      ReadFillsCache(states, refs, link, rev, disk, blocks.maxSize, blocks.target);
    }
    if buf.Fail? {
      r := buf;
      return;
    }
    PageSlice(f, offset, length, |refs|);
    r := Ok(SliceRange(buf.value, start, offset, length));
  }

  lemma PageSlice(f: Bytes, offset: nat, length: nat, n: nat)
    requires var start := offset / BLOCK_SIZE;
             n == Min(PAGE_BLOCKS, if start < NumBlocks(f) then NumBlocks(f) - start else 0)
    ensures var start := offset / BLOCK_SIZE;
            && (n > 0 ==> start * BLOCK_SIZE <= |f|)
            && SliceRange(if n == 0 then [] else f[start * BLOCK_SIZE..Min((start + n) * BLOCK_SIZE, |f|)],
                          start, offset, length)
            == OnlineRange(f, offset, length)
  {
    var start := offset / BLOCK_SIZE;
    if n > 0 {
      var end := Min((start + n) * BLOCK_SIZE, |f|);
      PageEnd(f, start, n);
      SliceOfBlocks(f, offset, length, end);
    }
  }

  lemma PageEnd(f: Bytes, start: nat, n: nat)
    requires 0 < n == Min(PAGE_BLOCKS, NumBlocks(f) - start)
    ensures start * BLOCK_SIZE <= Min((start + n) * BLOCK_SIZE, |f|) == Min((start + PAGE_BLOCKS) * BLOCK_SIZE, |f|)
  {
  }

  /** Short requests are not cut by the page: online and offline agree with the plain slice. */
  lemma OnlineRangeIsRequested(f: Bytes, offset: nat, length: nat)
    requires 0 < length <= 499 * BLOCK_SIZE
    ensures OnlineRange(f, offset, length) == Requested(f, offset, length)
  {
  }

  lemma OnlineAndOfflineAgree(st: Store, link: string, rev: string, f: Bytes, offset: nat, length: nat)
    requires Sound(st, link, rev, f) && f != []
    requires 0 < length <= 499 * BLOCK_SIZE && offset + length <= MAX_INT64
    requires CachedRead(st, link, rev, |f|, offset, length).Ok?
    ensures CachedRead(st, link, rev, |f|, offset, length) == Ok(OnlineRange(f, offset, length))
  {
    OfflineReadIsExact(st, link, rev, f, offset, length);
    OnlineRangeIsRequested(f, offset, length);
  }

  // ----- what a read leaves in the cache -----

  function ListedSize(refs: seq<BlockRef>): nat
    decreases |refs|
  {
    if refs == [] then 0
    else
      var last := refs[|refs| - 1];
      ListedSize(refs[..|refs| - 1]) + if last.body.Ok? then |last.body.value| else 0
  }

  /** Every download and every write succeeds. */
  ghost predicate AllSucceed(refs: seq<BlockRef>, link: string, rev: string, disk: Disk) {
    forall j | 0 <= j < |refs| :: refs[j].body.Ok? && disk.writes(KeyOf(link, rev, refs[j]).index)
  }

  /** What a read finds for a key: the cached bytes, or else the downloaded ones. */
  function HeldOr(st: Store, k: Key, body: Bytes): Bytes {
    if k in st then st[k].data else body
  }

  predicate HasData(st: Store, k: Key, data: Bytes) {
    k in st && st[k].data == data
  }

  ghost predicate Holds(st: Store, st': Store) {
    forall k | k in st :: k in st' && st'[k].data == st[k].data
  }

  lemma StepFills(st: Store, ref: BlockRef, st': Store, link: string, rev: string, disk: Disk, maxSize: nat,
      target: nat)
    requires ReadStep(st, ref, st', link, rev, disk, maxSize, target)
    requires ref.body.Ok? && disk.writes(KeyOf(link, rev, ref).index) && TotalSize(st) + |ref.body.value| <= maxSize
    ensures Holds(st, st') && TotalSize(st') <= TotalSize(st) + |ref.body.value|
    ensures HasData(st', KeyOf(link, rev, ref), HeldOr(st, KeyOf(link, rev, ref), ref.body.value))
  {
    var k := KeyOf(link, rev, ref);
    if k in st {
      TouchKeepsTotal(st, k, disk.now);
    } else {
      var more := Stored(st, k, ref.body.value, disk);
      TotalWithout(more, k);
      assert more - {k} == st;
    }
  }

  /**
   * A read whose downloads and writes succeed, within the cache's limit, leaves
   * every listed block in the cache, as it was cached or as it was downloaded,
   * and takes none out.
   */
  lemma {:induction false} ReadFillsCache(states: seq<Store>, refs: seq<BlockRef>, link: string, rev: string,
      disk: Disk, maxSize: nat, target: nat)
    requires ReadChain(states, refs, link, rev, disk, maxSize, target) && |states| == |refs| + 1
    requires AllSucceed(refs, link, rev, disk) && TotalSize(states[0]) + ListedSize(refs) <= maxSize
    ensures Holds(states[0], states[|refs|])
    ensures forall j | 0 <= j < |refs| ::
      var k := KeyOf(link, rev, refs[j]);
      HasData(states[|refs|], k, HeldOr(states[j], k, refs[j].body.value))
    ensures TotalSize(states[|refs|]) <= TotalSize(states[0]) + ListedSize(refs)
    decreases |refs|
  {
    hide ReadStep, TotalSize;
    if refs != [] {
      var n := |refs| - 1;
      ReadFillsCache(states[..n + 1], refs[..n], link, rev, disk, maxSize, target);
      StepFills(states[n], refs[n], states[n + 1], link, rev, disk, maxSize, target);
      assert forall j | 0 <= j < n :: refs[..n][j] == refs[j] && states[..n + 1][j] == states[j];
    }
  }

  /**
   * The same range can then be read offline, with the same bytes, if the page
   * covered the request.
   */
  lemma {:induction false} OfflineAfterOnline(states: seq<Store>, refs: seq<BlockRef>, link: string, rev: string,
      f: Bytes, offset: nat, length: nat, disk: Disk, maxSize: nat, target: nat)
    requires ReadChain(states, refs, link, rev, disk, maxSize, target) && |states| == |refs| + 1
    requires ServesPage(f, offset / BLOCK_SIZE + 1, refs) && Sound(states[|refs|], link, rev, f)
    requires AllSucceed(refs, link, rev, disk) && TotalSize(states[0]) + ListedSize(refs) <= maxSize
    requires f != [] && offset + length <= MAX_INT64
    requires RequestEnd(f, offset, length) <= (offset / BLOCK_SIZE + PAGE_BLOCKS) * BLOCK_SIZE
    ensures CachedRead(states[|refs|], link, rev, |f|, offset, length) == Ok(OnlineRange(f, offset, length))
  {
    hide CachedRead, SliceRange, BlockOf, ReadChain, Sound;
    var st, start := states[|refs|], offset / BLOCK_SIZE;
    var last := (RequestEnd(f, offset, length) - 1) / BLOCK_SIZE;
    ReadFillsCache(states, refs, link, rev, disk, maxSize, target);
    LastBlock(f, offset, length);
    LastIsListed(f, offset, length);
    forall i | start <= i <= last
      ensures Key(link, rev, i) in st
    {
      assert HasData(st, KeyOf(link, rev, refs[i - start]),
                     HeldOr(states[i - start], KeyOf(link, rev, refs[i - start]), refs[i - start].body.value));
    }
    OfflineReadIsExact(st, link, rev, f, offset, length);
  }

  lemma LastIsListed(f: Bytes, offset: nat, length: nat)
    requires f != []
    requires RequestEnd(f, offset, length) <= (offset / BLOCK_SIZE + PAGE_BLOCKS) * BLOCK_SIZE
    ensures var start, last := offset / BLOCK_SIZE, (RequestEnd(f, offset, length) - 1) / BLOCK_SIZE;
            && (start <= last ==> last - start < Min(PAGE_BLOCKS, NumBlocks(f) - start))
            && OnlineRange(f, offset, length) == Requested(f, offset, length)
  {
  }

  /** The block `k` was evicted when this listed block was stored, because the cache was over its limit. */
  ghost predicate EvictedBy(k: Key, st: Store, ref: BlockRef, st': Store, link: string, rev: string, disk: Disk,
      maxSize: nat)
    requires ref.body.Ok?
  {
    var more := Stored(st, KeyOf(link, rev, ref), ref.body.value, disk);
    k in more && k !in st' && TotalSize(more) > maxSize && disk.removable(k)
  }

  /**
   * In general a block held before or listed is in the cache afterwards, or was
   * evicted by the storing of one of the listed blocks from its own on.
   */
  lemma {:induction false} MissingWasEvicted(states: seq<Store>, refs: seq<BlockRef>, link: string, rev: string,
      disk: Disk, maxSize: nat, target: nat, k: Key, from: nat)
    requires ReadChain(states, refs, link, rev, disk, maxSize, target) && |states| == |refs| + 1
    requires AllSucceed(refs, link, rev, disk) && from <= |refs|
    requires k in states[from] || (from < |refs| && k == KeyOf(link, rev, refs[from]))
    ensures || k in states[|refs|]
            || exists i ::
                 from <= i < |refs| && EvictedBy(k, states[i], refs[i], states[i + 1], link, rev, disk, maxSize)
    decreases |refs| - from
  {
    hide TotalSize;
    if from < |refs| {
      assert ReadStep(states[from], refs[from], states[from + 1], link, rev, disk, maxSize, target);
      if k in states[from + 1] {
        MissingWasEvicted(states, refs, link, rev, disk, maxSize, target, k, from + 1);
      } else {
        assert EvictedBy(k, states[from], refs[from], states[from + 1], link, rev, disk, maxSize);
      }
    }
  }
}
