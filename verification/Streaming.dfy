/**
 * Sequential reads through an open handle: the helper's reply
 * (helper/main.go), the client's copy (backend/proton-rpc.c) and the handle's
 * offset (backend/gvfsbackendproton.c).
 */
module Streaming {
  import opened Outcome
  import opened BlockStore
  import opened BlockReads

  datatype ReadResult = ReadResult(data: Bytes, eof: bool)

  /** The ReadFile handler's reply to a successful read. */
  function Reply(data: Bytes, length: nat): ReadResult {
    ReadResult(data, length == 0 || |data| < length)
  }

  /**
   * The handler's eof is honest exactly when one page of blocks covers the
   * request; past that it reports eof in the middle of the file.
   */
  lemma EofIsHonestIffPageCovers(f: Bytes, offset: nat, length: nat)
    requires offset <= |f|
    ensures var r := Reply(OnlineRange(f, offset, length), length);
            (r.eof ==> offset + |r.data| == |f|)
            <==> RequestEnd(f, offset, length) <= (offset / BLOCK_SIZE + PAGE_BLOCKS) * BLOCK_SIZE
  {
    assert offset < (offset / BLOCK_SIZE + 1) * BLOCK_SIZE;
  }

  /**
   * And it is reported: a read that names its length reports eof exactly when it
   * delivers less than that, so in particular when it is empty; one that asks
   * for everything always does.
   */
  lemma EofIffShort(f: Bytes, offset: nat, length: nat)
    ensures var r := Reply(OnlineRange(f, offset, length), length);
            && r.data == OnlineRange(f, offset, length)
            && (r.eof <==> length == 0 || |OnlineRange(f, offset, length)| != length)
            && (offset >= |f| ==> r.data == [] && r.eof)
            && (0 < length <= 499 * BLOCK_SIZE && offset <= |f| ==> (r.eof <==> offset + length > |f|))
  {
    if 0 < length <= 499 * BLOCK_SIZE {
      OnlineRangeIsRequested(f, offset, length);
    }
  }

  /** An open file; the path is fixed and the offset moves. */
  class Handle {
    var offset: nat

    constructor ()
      ensures offset == 0
    {
      offset := 0;
    }

    /** Copy at most `length` bytes of the reply; -1 on an error. */
    method ReadFile(reply: Result<ReadResult>, length: nat, buffer: array<byte>) returns (n: int)
      requires length <= buffer.Length
      modifies buffer
      ensures reply.Fail? ==> n == -1 && buffer[..] == old(buffer[..])
      ensures reply.Ok? ==>
        && n == Min(|reply.value.data|, length)
        && buffer[..n] == reply.value.data[..n]
        && buffer[n..] == old(buffer[n..])
    {
      if reply.Fail? {
        return -1;
      }
      var data := reply.value.data;
      n := Min(|data|, length);
      forall i | 0 <= i < n {
        buffer[i] := data[i];
      }
    }

    method Read(reply: Result<ReadResult>, requested: nat, buffer: array<byte>) returns (n: int)
      requires requested <= buffer.Length
      modifies this, buffer
      ensures reply.Fail? ==> n == -1 && offset == old(offset)
      ensures reply.Ok? ==>
        && n == Min(|reply.value.data|, requested)
        && buffer[..n] == reply.value.data[..n]
        && offset == old(offset) + n
    {
      n := ReadFile(reply, requested, buffer);
      if n < 0 {
        return;
      }
      offset := offset + n;
    }
  }

  /** The bytes one successful read delivers. */
  function Delivered(f: Bytes, offset: nat, size: nat): Bytes {
    var data := Reply(OnlineRange(f, offset, size), size).data;
    data[..Min(|data|, size)]
  }

  predicate GoodSize(size: nat) {
    0 < size <= 499 * BLOCK_SIZE
  }

  lemma EofIsHonestForShortReads(f: Bytes, offset: nat, size: nat)
    requires offset <= |f| && GoodSize(size)
    ensures var r := Reply(OnlineRange(f, offset, size), size);
            r.eof ==> offset + |r.data| == |f|
  {
    EofIsHonestIffPageCovers(f, offset, size);
  }

  lemma DeliveredIsNext(f: Bytes, offset: nat, size: nat)
    requires offset <= |f| && GoodSize(size)
    ensures var d := Delivered(f, offset, size);
            && offset + |d| <= |f| && d == f[offset..offset + |d|]
            && (d == [] <==> offset == |f|)
  {
    OnlineRangeIsRequested(f, offset, size);
  }

  /** Bytes delivered by a sequence of reads, and the offset afterwards. */
  function Stream(f: Bytes, offset: nat, sizes: seq<nat>): (Bytes, nat)
    decreases |sizes|
  {
    if sizes == [] then ([], offset)
    else
      var d := Delivered(f, offset, sizes[0]);
      var (rest, end) := Stream(f, offset + |d|, sizes[1..]);
      (d + rest, end)
  }

  /** Whatever the request sizes, the stream is the file up to the handle's offset. */
  lemma {:induction false} StreamIsPrefix(f: Bytes, offset: nat, sizes: seq<nat>)
    requires offset <= |f| && forall i | 0 <= i < |sizes| :: GoodSize(sizes[i])
    ensures var (bytes, end) := Stream(f, offset, sizes);
            offset <= end <= |f| && bytes == f[offset..end]
    decreases |sizes|
  {
    hide Delivered;
    if sizes != [] {
      DeliveredIsNext(f, offset, sizes[0]);
      StreamIsPrefix(f, offset + |Delivered(f, offset, sizes[0])|, sizes[1..]);
    }
  }

  /** Read until a read delivers nothing; `sizes(i)` is the size of the i-th request. */
  ghost function UntilEmpty(f: Bytes, offset: nat, sizes: nat -> nat, i: nat): (bytes: Bytes)
    requires offset <= |f| && forall j :: GoodSize(sizes(j))
    ensures bytes == f[offset..]
    decreases |f| - offset
  {
    DeliveredIsNext(f, offset, sizes(i));
    var d := Delivered(f, offset, sizes(i));
    if d == [] then [] else d + UntilEmpty(f, offset + |d|, sizes, i + 1)
  }
}
