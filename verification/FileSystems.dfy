/** Inodes on disk, written block by block with journaling and delayed allocation. */
module FileSystems {
  import opened FileSpec

  datatype JournalData = Writeback | Ordered | Journal

  datatype FsInfo = FsInfo(blockSize: nat, maxFileSize: nat, delalloc: bool, journalData: JournalData) {
    predicate Valid() { blockSize > 0 }
  }

  /** The disk once all writes issued so far have reached it, in the order they were issued, and the size in memory. */
  datatype Snapshot = Snapshot(isize: int, idisksize: int, data: Bytes)

  function Min(a: int, b: int): int { if a < b then a else b }

  // ----- the early update of the size on disk -----

  /** The end of the block a file of this size ends in. */
  function BlockEnd(fs: FsInfo, size: nat): (be: nat)
    requires fs.Valid()
    ensures size < be <= size + fs.blockSize && be % fs.blockSize == 0
  {
    NextBoundary(size, fs.blockSize);
    size + (fs.blockSize - size % fs.blockSize)
  }

  lemma NextBoundary(size: nat, b: nat)
    requires b > 0
    ensures size + (b - size % b) == (size / b + 1) * b && (size + (b - size % b)) % b == 0
  {
    DivMod(size, b);
    assert (size / b + 1) * b == (size / b) * b + b;
    DivUnique((size / b + 1) * b, b, size / b + 1, 0);
  }

  lemma DivMod(n: nat, b: nat)
    requires b > 0
    ensures n == (n / b) * b + n % b
  {}

  lemma MulMonotone(p: nat, q: nat, b: nat)
    requires p <= q
    ensures p * b <= q * b
  {
    assert q * b == p * b + (q - p) * b;
  }

  lemma MulSucc(p: nat, b: nat)
    ensures (p + 1) * b == p * b + b
  {}

  /** Quotient and remainder are unique. */
  lemma DivUnique(n: nat, b: nat, q: nat, r: nat)
    requires b > 0 && n == q * b + r && r < b
    ensures n / b == q && n % b == r
  {
    var p := n / b;
    DivMod(n, b);
    MulSucc(p, b);
    MulSucc(q, b);
    if p < q {
      MulMonotone(p + 1, q, b);
    } else if q < p {
      MulMonotone(q + 1, p, b);
    }
  }

  /** A write that touches the unused rest of the file's last block takes the size on disk along at once, up to
      its own end or that of the block. */
  function DisksizeUpdate(fs: FsInfo, size: nat, offset: nat, count: nat): (update: (bool, int))
    requires fs.Valid() && count > 0
    ensures update.0 <==> size % fs.blockSize > 0 && offset < BlockEnd(fs, size) && size < offset + count
    ensures update.0 ==> size < update.1 == Min(BlockEnd(fs, size), offset + count)
  {
    var be := BlockEnd(fs, size);
    var should := ((offset <= size && size < offset + count) ||
                   (offset < be && be <= offset + count) ||
                   (size <= offset && offset + count <= be)) && size % fs.blockSize > 0;
    (should, Min(be, offset + count))
  }

  // ----- chunks -----

  /** How much the next chunk writes: at most a block, and not past the end of the block it starts in. */
  function ChunkSize(fs: FsInfo, inodeOffset: nat, dataCount: nat): (bytes: nat)
    requires fs.Valid() && dataCount > 0
    ensures 1 <= bytes <= dataCount
    ensures inodeOffset + bytes <= BlockEnd(fs, inodeOffset)
    ensures bytes == dataCount || inodeOffset + bytes == BlockEnd(fs, inodeOffset)
  {
    var bytes := Min(fs.blockSize, dataCount);
    var blockIndex := inodeOffset % fs.blockSize;
    var blockRem := fs.blockSize - blockIndex;
    if blockIndex != 0 && bytes > blockRem then blockRem else bytes
  }

  /** A boundary above a size is at or above the end of the block the size lies in. */
  lemma BoundaryAbove(fs: FsInfo, size: nat, x: nat)
    requires fs.Valid() && size < x && x % fs.blockSize == 0
    ensures BlockEnd(fs, size) <= x
  {
    var b := fs.blockSize;
    var q, r := size / b, x / b;
    DivMod(size, b);
    DivMod(x, b);
    NextBoundary(size, b);
    if r <= q { MulMonotone(r, q, b); } else { MulMonotone(q + 1, r, b); }
  }

  /** No chunk crosses a block boundary. */
  lemma ChunkInOneBlock(fs: FsInfo, inodeOffset: nat, dataCount: nat, i: nat)
    requires fs.Valid() && dataCount > 0 && i < ChunkSize(fs, inodeOffset, dataCount)
    ensures (inodeOffset + i) / fs.blockSize == inodeOffset / fs.blockSize
  {
    var b := fs.blockSize;
    SameBlock(inodeOffset, inodeOffset + i, b);
  }

  lemma SameBlock(x: nat, y: nat, b: nat)
    requires b > 0 && x <= y < x + (b - x % b)
    ensures y / b == x / b
  {
    DivMod(x, b);
    DivUnique(y, b, x / b, y - (x / b) * b);
  }

  // ----- what a write may leave on disk at any moment -----

  /** The first m bytes of b are in place: below the size on disk there are old bytes, new bytes, and zeros. */
  ghost predicate Partway(was: Snapshot, offset: nat, b: Bytes, m: nat, s: Snapshot) {
    && m <= |b| && |s.data| == |was.data| && was.isize <= s.isize <= s.idisksize <= |s.data|
    && forall i :: 0 <= i < s.idisksize ==>
                     s.data[i] == if offset <= i < offset + m then b[i - offset]
                                  else if i < was.isize && i < |was.data| then was.data[i] else 0
  }

  ghost predicate Consistent(was: Snapshot, offset: nat, b: Bytes, s: Snapshot) {
    exists m: nat :: Partway(was, offset, b, m, s)
  }

  /** The size on disk never shrinks along the steps. */
  ghost predicate Rising(steps: seq<Snapshot>) {
    forall j, k :: 0 <= j <= k < |steps| ==> steps[j].idisksize <= steps[k].idisksize
  }

  /** Every step of a write is consistent, and the size on disk rises to `top` at most. */
  ghost predicate GoodSteps(was: Snapshot, offset: nat, b: Bytes, steps: seq<Snapshot>, top: int) {
    && Rising(steps)
    && forall k :: 0 <= k < |steps| ==> Consistent(was, offset, b, steps[k]) && steps[k].idisksize <= top
  }

  lemma GoodStepsJoin(was: Snapshot, offset: nat, b: Bytes, steps: seq<Snapshot>, top: int, more: seq<Snapshot>,
                      top': int)
    requires GoodSteps(was, offset, b, steps, top) && GoodSteps(was, offset, b, more, top') && top <= top'
    requires forall k :: 0 <= k < |more| ==> more[k].idisksize >= top
    ensures GoodSteps(was, offset, b, steps + more, top')
  {
    hide Consistent;
  }

  function Overlay(d: Bytes, at: nat, b: Bytes): Bytes
    requires at + |b| <= |d|
  {
    d[..at] + b + d[at + |b|..]
  }

  lemma OverlayNone(d: Bytes, at: nat)
    requires at <= |d|
    ensures Overlay(d, at, []) == d
  {}

  lemma OverlayMore(d: Bytes, at: nat, b: Bytes, v: int)
    requires at + |b| < |d|
    ensures |Overlay(d, at, b)| == |d| && Overlay(d, at, b)[at + |b| := v] == Overlay(d, at, b + [v])
  {}

  /** m bytes of b have been written; d is how far the size on disk was taken at the outset. */
  ghost predicate Reached(was: Snapshot, offset: nat, b: Bytes, m: nat, d: int, s: Snapshot) {
    && m <= |b| && |s.data| == |was.data| && offset + |b| <= |s.data| && 0 <= was.isize
    && (d == was.isize || was.isize <= d <= offset + |b|) && d <= |s.data|
    && s.isize == (if m > 0 && offset + m > was.isize then offset + m else was.isize)
    && s.idisksize == (if s.isize > was.isize then s.isize else d) && s.isize <= s.idisksize
    && HalfWritten(was, offset, b, m, d, s.data)
  }

  ghost predicate HalfWritten(was: Snapshot, offset: nat, b: Bytes, m: nat, d: int, data: Bytes)
    requires m <= |b| && |data| == |was.data|
  {
    forall i :: 0 <= i < |data| ==>
                  if offset <= i < offset + m then data[i] == b[i - offset]
                  else if i < was.isize then data[i] == was.data[i]
                  else i < offset || i < d ==> data[i] == 0
  }

  /** More bytes of a chunk on disk, the sizes not yet moved. */
  lemma OverlaidPartway(was: Snapshot, offset: nat, b: Bytes, m: nat, d: int, s: Snapshot, j: nat)
    requires Reached(was, offset, b, m, d, s) && m + j <= |b|
    ensures var data := Overlay(s.data, offset + m, b[m..m + j]);
            && HalfWritten(was, offset, b, m + j, d, data)
            && Partway(was, offset, b, m + j, Snapshot(s.isize, s.idisksize, data))
  {
    var data := Overlay(s.data, offset + m, b[m..m + j]);
    forall i | 0 <= i < |data|
      ensures data[i] == if offset + m <= i < offset + m + j then b[i - offset] else s.data[i]
    {}
  }

  /** The sizes moved past the bytes in place, first on disk, then in memory. */
  lemma GrownPartway(was: Snapshot, offset: nat, b: Bytes, m: nat, d: int, data: Bytes, isize: int, grown: int)
    requires m <= |b| && |data| == |was.data| && HalfWritten(was, offset, b, m, d, data)
    requires 0 <= was.isize <= isize <= grown <= |data| && (grown == offset + m || grown == isize)
    requires grown <= offset + m || grown <= d
    ensures Partway(was, offset, b, m, Snapshot(isize, grown, data))
  {}

  lemma ReachedFits(was: Snapshot, offset: nat, b: Bytes, m: nat, d: int, s: Snapshot)
    requires Reached(was, offset, b, m, d, s)
    ensures m <= |b| && |s.data| == |was.data| && offset + |b| <= |s.data| && s.isize <= s.idisksize
  {}

  lemma StepOverlaid(was: Snapshot, offset: nat, b: Bytes, m: nat, d: int, s: Snapshot, buf: Bytes, j: nat,
                     s': Snapshot)
    requires Reached(was, offset, b, m, d, s) && m + j + 1 <= |b| <= |buf| && b == buf[..|b|]
    requires s' == Snapshot(s.isize, s.idisksize, Overlay(s.data, offset + m, buf[m..m + 1 + j]))
    ensures Consistent(was, offset, b, s')
  {
    OverlaidPartway(was, offset, b, m, d, s, j + 1);
    assert buf[m..m + 1 + j] == b[m..m + (j + 1)];
    hide Partway, HalfWritten, Overlay;
  }

  class Inode {
    const fs: FsInfo
    const data: array<int>
    var isize: int
    var idisksize: int
    var trans: bool
    ghost var steps: seq<Snapshot>

    /** Between operations the two sizes agree and no transaction is open. */
    ghost predicate Valid()
      reads this
    {
      fs.Valid() && data.Length == fs.maxFileSize && 0 <= isize == idisksize <= fs.maxFileSize && !trans
    }

    /** The bytes a reader sees. */
    function Visible(): Bytes
      requires 0 <= isize <= data.Length
      reads this, data
    {
      data[..isize]
    }

    function Now(): Snapshot
      reads this, data
    {
      Snapshot(isize, idisksize, data[..])
    }

    /** A new inode is empty, whatever its blocks held before. */
    constructor (info: FsInfo, blocks: array<int>)
      requires info.Valid() && blocks.Length == info.maxFileSize
      ensures Valid() && fs == info && data == blocks && Visible() == []
    {
      fs, data := info, blocks;
      isize, idisksize, trans := 0, 0, false;
      steps := [];
    }

    // ----- single steps -----

    method DskWrite(i: nat, v: int)
      requires i < data.Length
      modifies data, this`steps
      ensures data[..] == old(data[..])[i := v] && steps == old(steps) + [Now()]
    {
      data[i] := v;
      steps := steps + [Now()];
    }

    method UpdateInodeDisksize(newSize: int)
      modifies this`idisksize, this`steps
      ensures idisksize == newSize && steps == old(steps) + [Now()]
    {
      idisksize := newSize;
      steps := steps + [Now()];
    }

    method UpdateInodeSize(newSize: int)
      modifies this`isize, this`steps
      ensures isize == newSize && steps == old(steps) + [Now()]
    {
      isize := newSize;
      steps := steps + [Now()];
    }

    // ----- ranges -----

    /** Fills [start, end) with zeros. */
    method ZeroDskRange(start: nat, end: nat)
      requires end <= data.Length
      modifies data, this`steps
      ensures forall i :: 0 <= i < data.Length ==> data[i] == if start <= i < end then 0 else old(data[i])
      ensures |steps| >= |old(steps)| && steps[..|old(steps)|] == old(steps)
      ensures forall k :: |old(steps)| <= k < |steps| ==>
                            && steps[k].isize == isize && steps[k].idisksize == idisksize
                            && |steps[k].data| == data.Length
                            && forall i :: 0 <= i < data.Length ==>
                                             steps[k].data[i] == old(data[i]) ||
                                                 (start <= i < end && steps[k].data[i] == 0)
    {
      var i := start;
      while i < end
        invariant start <= i && (i <= end || i == start)
        invariant forall j :: 0 <= j < data.Length ==> data[j] == if start <= j < i then 0 else old(data[j])
        invariant |steps| >= |old(steps)| && steps[..|old(steps)|] == old(steps)
        invariant forall k :: |old(steps)| <= k < |steps| ==>
                                && steps[k].isize == isize && steps[k].idisksize == idisksize
                                && |steps[k].data| == data.Length
                                && forall j :: 0 <= j < data.Length ==>
                                                 steps[k].data[j] == old(data[j]) ||
                                                     (start <= j < end && steps[k].data[j] == 0)
      {
        DskWrite(i, 0);
        i := i + 1;
      }
    }

    /** Copies count bytes of the buffer to the disk, one by one. */
    method WriteDataToDisk(buf: Bytes, bufOffset: nat, inodeOffset: nat, count: nat)
      requires bufOffset + count <= |buf| && inodeOffset + count <= data.Length
      modifies data, this`steps
      ensures data[..] == Overlay(old(data[..]), inodeOffset, buf[bufOffset..bufOffset + count])
      ensures |steps| == |old(steps)| + count && steps[..|old(steps)|] == old(steps)
      ensures forall k :: |old(steps)| <= k < |steps| ==>
                            steps[k] == Snapshot(isize, idisksize,
                                Overlay(old(data[..]), inodeOffset, buf[bufOffset..bufOffset + 1 + k - |old(steps)|]))
    {
      hide Overlay;
      ghost var d := data[..];
      var i := 0;
      OverlayNone(d, inodeOffset);
      assert buf[bufOffset..bufOffset] == [];
      while i < count
        invariant 0 <= i <= count && |data[..]| == |d|
        invariant data[..] == Overlay(d, inodeOffset, buf[bufOffset..bufOffset + i])
        invariant |steps| == |old(steps)| + i && steps[..|old(steps)|] == old(steps)
        invariant forall k :: |old(steps)| <= k < |steps| ==>
                                steps[k] == Snapshot(isize, idisksize,
                                    Overlay(d, inodeOffset, buf[bufOffset..bufOffset + 1 + k - |old(steps)|]))
      {
        OverlayMore(d, inodeOffset, buf[bufOffset..bufOffset + i], buf[bufOffset + i]);
        assert buf[bufOffset..bufOffset + (i + 1)] == buf[bufOffset..bufOffset + i] + [buf[bufOffset + i]];
        DskWrite(inodeOffset + i, buf[bufOffset + i]);
        i := i + 1;
      }
    }

    /** Copies count bytes from the disk to the buffer. */
    method ReadDataFromDisk(inodeOffset: nat, buf: array<int>, bufOffset: nat, count: nat)
      requires buf != data && inodeOffset + count <= data.Length && bufOffset + count <= buf.Length
      modifies buf
      ensures buf[..] == Overlay(old(buf[..]), bufOffset, data[inodeOffset..inodeOffset + count])
    {
      hide Overlay;
      ghost var b := buf[..];
      var i := 0;
      OverlayNone(b, bufOffset);
      assert data[inodeOffset..inodeOffset] == [];
      while i < count
        invariant 0 <= i <= count
        invariant buf[..] == Overlay(b, bufOffset, data[inodeOffset..inodeOffset + i])
      {
        OverlayMore(b, bufOffset, data[inodeOffset..inodeOffset + i], data[inodeOffset + i]);
        assert data[inodeOffset..inodeOffset + (i + 1)] == data[inodeOffset..inodeOffset + i] + [data[inodeOffset + i]];
        ghost var was := buf[..];
        buf[bufOffset + i] := data[inodeOffset + i];
        assert buf[..] == was[bufOffset + i := data[inodeOffset + i]];
        i := i + 1;
      }
    }

    // ----- writing -----

    /** Before the first byte: the tail of the file is zeroed, and the size on disk taken along in the last block. */
    method PrepareTail(wOffset: nat, count: nat, ghost b: Bytes) returns (ghost d: int)
      requires Valid() && count == |b| > 0 && wOffset + count <= fs.maxFileSize
      modifies data, this`idisksize, this`steps
      ensures Reached(old(Now()), wOffset, b, 0, d, Now())
      ensures d == isize || d == Min(BlockEnd(fs, isize), wOffset + count)
      ensures |steps| >= |old(steps)| && steps[..|old(steps)|] == old(steps)
      ensures GoodSteps(old(Now()), wOffset, b, steps[|old(steps)|..], idisksize)
      ensures forall k :: |old(steps)| <= k < |steps| ==> steps[k].idisksize >= old(idisksize)
    {
      ghost var was, n := Now(), |steps|;
      var iSize := isize;
      d := iSize;
      var update := DisksizeUpdate(fs, iSize, wOffset, count);
      if fs.delalloc && update.0 {
        ZeroDskRange(iSize, update.1);
        forall k | n <= k < |steps| ensures Partway(was, wOffset, b, 0, steps[k]) {}
        UpdateInodeDisksize(update.1);
        d := update.1;
        assert Partway(was, wOffset, b, 0, Now());
      }
      ghost var n' := |steps|;
      if wOffset > iSize {
        ghost var mid := Now();
        ZeroDskRange(iSize, wOffset);
        forall k | n' <= k < |steps| ensures Partway(was, wOffset, b, 0, steps[k]) {}
      }
      AllPartway(was, wOffset, b, steps[n..], idisksize);
    }

    lemma AllPartway(was: Snapshot, offset: nat, b: Bytes, part: seq<Snapshot>, top: int)
      requires forall k :: 0 <= k < |part| ==> Partway(was, offset, b, 0, part[k]) && part[k].idisksize <= top
      requires Rising(part)
      ensures GoodSteps(was, offset, b, part, top)
    {}

    /** The bytes of one chunk, the sizes not yet moved. */
    method FillChunk(buf: Bytes, bufOffset: nat, inodeOffset: nat, bytes: nat, ghost was: Snapshot, ghost b: Bytes,
                     ghost d: int)
      requires bytes > 0 && bufOffset + bytes <= |b| <= |buf| && b == buf[..|b|] && inodeOffset >= bufOffset
      requires Reached(was, inodeOffset - bufOffset, b, bufOffset, d, Now())
      modifies data, this`steps
      ensures HalfWritten(was, inodeOffset - bufOffset, b, bufOffset + bytes, d, data[..])
      ensures |steps| >= |old(steps)| && steps[..|old(steps)|] == old(steps)
      ensures GoodSteps(was, inodeOffset - bufOffset, b, steps[|old(steps)|..], idisksize)
      ensures forall k :: |old(steps)| <= k < |steps| ==> steps[k].idisksize == idisksize
    {
      hide HalfWritten, GoodSteps, Overlay, Partway;
      ghost var offset, s, n := inodeOffset - bufOffset, Now(), |steps|;
      ReachedFits(was, offset, b, bufOffset, d, s);
      WriteDataToDisk(buf, bufOffset, inodeOffset, bytes);
      forall k | n <= k < |steps| ensures Consistent(was, offset, b, steps[k]) {
        StepOverlaid(was, offset, b, bufOffset, d, s, buf, k - n, steps[k]);
      }
      assert buf[bufOffset..bufOffset + bytes] == b[bufOffset..bufOffset + bytes];
      OverlaidPartway(was, offset, b, bufOffset, d, s, bytes);
      SameSizeGood(was, offset, b, steps[n..], s.idisksize);
    }

    /** Moves both sizes up, the one on disk first. */
    method GrowSizes(newSize: int, ghost was: Snapshot, ghost offset: nat, ghost b: Bytes, ghost m: nat, ghost d: int,
                     ghost n: nat)
      requires m <= |b| && data.Length == |was.data| && HalfWritten(was, offset, b, m, d, data[..])
      requires 0 <= was.isize <= isize < newSize == offset + m <= data.Length && idisksize <= newSize
      requires n <= |steps| && GoodSteps(was, offset, b, steps[n..], idisksize)
      modifies this`isize, this`idisksize, this`steps
      ensures isize == idisksize == newSize
      ensures |steps| >= |old(steps)| && steps[..|old(steps)|] == old(steps)
      ensures GoodSteps(was, offset, b, steps[n..], idisksize)
      ensures forall k :: |old(steps)| <= k < |steps| ==> steps[k].idisksize == newSize
    {
      hide HalfWritten, GoodSteps;
      ghost var part, size, s0 := steps[n..], idisksize, isize;
      GrownPartway(was, offset, b, m, d, data[..], isize, newSize);
      UpdateInodeDisksize(newSize);
      OneMoreGood(was, offset, b, part, size, Snapshot(s0, newSize, data[..]), m);
      assert steps[n..] == part + [Snapshot(s0, newSize, data[..])];
      GrownPartway(was, offset, b, m, d, data[..], newSize, newSize);
      UpdateInodeSize(newSize);
      OneMoreGood(was, offset, b, part + [Snapshot(s0, newSize, data[..])], newSize,
          Snapshot(newSize, newSize, data[..]), m);
      assert steps[n..] == part + [Snapshot(s0, newSize, data[..])] + [Snapshot(newSize, newSize, data[..])];
    }

    /** Writes one chunk, and takes the sizes along if it grows the file. */
    method WriteChunk(buf: Bytes, bufOffset: nat, inodeOffset: nat, bytes: nat, ghost was: Snapshot, ghost b: Bytes,
                      ghost d: int)
      requires fs.Valid() && bytes > 0 && bufOffset + bytes <= |b| <= |buf| && b == buf[..|b|]
      requires inodeOffset >= bufOffset
      requires Reached(was, inodeOffset - bufOffset, b, bufOffset, d, Now()) && !trans
      requires inodeOffset + bytes > was.isize ==> inodeOffset + bytes >= d
      modifies data, this`isize, this`idisksize, this`trans, this`steps
      ensures Reached(was, inodeOffset - bufOffset, b, bufOffset + bytes, d, Now()) && !trans
      ensures |steps| >= |old(steps)| && steps[..|old(steps)|] == old(steps)
      ensures GoodSteps(was, inodeOffset - bufOffset, b, steps[|old(steps)|..], idisksize)
      ensures idisksize >= old(idisksize)
      ensures forall k :: |old(steps)| <= k < |steps| ==> steps[k].idisksize >= old(idisksize)
    {
      hide HalfWritten, GoodSteps;
      ghost var n := |steps|;
      if fs.journalData == Journal { trans := true; }
      FillChunk(buf, bufOffset, inodeOffset, bytes, was, b, d);
      var newSize := inodeOffset + bytes;
      if newSize > isize {
        GrowSizes(newSize, was, inodeOffset - bufOffset, b, bufOffset + bytes, d, n);
      }
      if fs.journalData == Journal { trans := false; }
    }

    /** Writes count bytes at wOffset, block by block. */
    method ExecuteBufferedWrite(buf: Bytes, wOffset: nat, count: nat) returns (written: int)
      requires Valid() && 0 < count <= |buf| && wOffset + count <= fs.maxFileSize
      modifies data, this`isize, this`idisksize, this`trans, this`steps
      ensures Valid() && written == count
      ensures Visible() == Written(old(Visible()), wOffset, buf[..count])
      ensures |steps| >= |old(steps)| && steps[..|old(steps)|] == old(steps)
      ensures GoodSteps(old(Now()), wOffset, buf[..count], steps[|old(steps)|..], idisksize)
      ensures forall k :: |old(steps)| <= k < |steps| ==> steps[k].idisksize >= old(idisksize)
    {
      hide GoodSteps, HalfWritten;
      ghost var was, n, b := Now(), |steps|, buf[..count];
      ghost var d := PrepareTail(wOffset, count, b);
      var dataCount, bufOffset, inodeOffset := count, 0, wOffset;
      while dataCount > 0
        invariant dataCount + bufOffset == count && inodeOffset == wOffset + bufOffset
        invariant Reached(was, wOffset, b, bufOffset, d, Now()) && !trans
        invariant |steps| >= n && steps[..n] == old(steps) && GoodSteps(was, wOffset, b, steps[n..], idisksize)
        invariant idisksize >= old(idisksize) && forall k :: n <= k < |steps| ==> steps[k].idisksize >= old(idisksize)
      {
        var bytes := ChunkSize(fs, inodeOffset, dataCount);
        if inodeOffset + bytes > was.isize {
          ChunkReaches(fs, was.isize, wOffset, count, bufOffset, d);
        }
        ghost var part, size, n' := steps[n..], idisksize, |steps|;
        WriteChunk(buf, bufOffset, inodeOffset, bytes, was, b, d);
        assert steps[n..] == part + steps[n'..];
        GoodStepsJoin(was, wOffset, b, part, size, steps[n'..], idisksize);
        bufOffset := bufOffset + bytes;
        inodeOffset := inodeOffset + bytes;
        dataCount := dataCount - bytes;
      }
      AllReached(was, wOffset, b, d, Now());
      return count;
    }

    /** How much a write may write and where, or an error. A count that is not positive is passed on. */
    method ExecuteWriteChecks(append: bool, offset: int, count: int) returns (r: int, wOffset: int)
      requires Valid()
      ensures wOffset == if append && count > 0 then isize else offset
      ensures count <= 0 ==> r == count
      ensures count > 0 && wOffset >= fs.maxFileSize ==> r == -1
      ensures count > 0 && wOffset < fs.maxFileSize ==> r == Min(count, fs.maxFileSize - wOffset) > 0
    {
      wOffset := offset;
      if count <= 0 { return count, wOffset; }
      if append { wOffset := isize; }
      if wOffset >= fs.maxFileSize { return -1, wOffset; }
      return Min(count, fs.maxFileSize - wOffset), wOffset;
    }

    /** write(): a file not open for writing is an error; a write that cannot write anything returns 0. */
    method ExecuteWrite(flags: OpenFlags, buf: Bytes, offset: nat, count: int) returns (ret: int)
      requires Valid() && count <= |buf|
      modifies data, this`isize, this`idisksize, this`trans, this`steps
      ensures Valid()
      ensures !flags.write ==> ret == -1 && Now() == old(Now())
      ensures flags.write && count <= 0 ==> ret == 0 && Now() == old(Now())
      ensures flags.write && count > 0 ==>
                var at := if flags.append then old(isize) else offset;
                && ret == (if at >= fs.maxFileSize then 0 else Min(count, fs.maxFileSize - at))
                && Visible() == Applied(old(Visible()), WriteOp(flags.append, offset, buf[..count]), fs.maxFileSize)
    {
      if !flags.write { return -1; }
      ret := 0;
      var wCount, wOffset := ExecuteWriteChecks(flags.append, offset, count);
      if wCount > 0 {
        assert buf[..count][..wCount] == buf[..wCount];
        ret := ExecuteBufferedWrite(buf, wOffset, wCount);
      }
    }

    /** truncate() and ftruncate(). Growing to the size limit itself is refused. */
    method ExecuteTruncate(length: int) returns (ret: int)
      requires Valid()
      modifies data, this`isize, this`idisksize, this`steps
      ensures Valid()
      ensures Visible() == Applied(old(Visible()), TruncateOp(length), fs.maxFileSize)
      ensures ret == if length < 0 || (length > old(isize) && length >= fs.maxFileSize) then -1 else 0
      ensures |steps| >= |old(steps)| && steps[..|old(steps)|] == old(steps)
      ensures forall k :: |old(steps)| <= k < |steps| ==> NothingStale(old(Visible()), steps[k])
    {
      if length < 0 { return -1; }
      ret := 0;
      ghost var c := Visible();
      var oldIsize := isize;
      if length > oldIsize {
        if length >= fs.maxFileSize { return -1; }
        ZeroDskRange(oldIsize, length);
      }
      assert forall i :: 0 <= i < length && i < |c| ==> data[i] == c[i];
      UpdateInodeDisksize(length);
      UpdateInodeSize(length);
      assert Visible() == Truncated(c, length);
    }

    /** read(): the bytes from the offset on that the file has, up to count. */
    method ExecuteRead(flags: OpenFlags, buf: array<int>, offset: nat, count: nat) returns (nr: int)
      requires Valid() && buf != data && count <= buf.Length
      modifies buf
      ensures !flags.read ==> nr == -1 && buf[..] == old(buf[..])
      ensures flags.read ==>
                var got := ReadFrom(Visible(), offset, count);
                nr == |got| && buf[..] == got + old(buf[..])[nr..]
    {
      nr := -1;
      if !flags.read { return nr; }
      if offset >= isize {
        nr := 0;
        return nr;
      }
      nr := isize - offset;
      nr := if nr >= count then count else nr;
      ReadDataFromDisk(offset, buf, 0, nr);
      assert data[offset..offset + nr] == ReadFrom(Visible(), offset, count);
    }

    /** Any sequence of operations on a file is the same sequence on a flat byte sequence. */
    method Perform(ops: seq<Op>)
      requires Valid()
      modifies data, this`isize, this`idisksize, this`trans, this`steps
      ensures Valid()
      ensures Visible() == AppliedAll(old(Visible()), ops, fs.maxFileSize)
    {
      hide Applied;
      var i := 0;
      ghost var c := Visible();
      assert ops[..0] == [];
      while i < |ops|
        invariant 0 <= i <= |ops| && Valid()
        invariant Visible() == AppliedAll(c, ops[..i], fs.maxFileSize)
      {
        AppliedOneMore(c, ops[..i], ops[i], fs.maxFileSize);
        assert ops[..i + 1] == ops[..i] + [ops[i]];
        PerformOne(ops[i]);
        i := i + 1;
      }
      assert ops[..i] == ops;
    }

    method PerformOne(op: Op)
      requires Valid()
      modifies data, this`isize, this`idisksize, this`trans, this`steps
      ensures Valid() && Visible() == Applied(old(Visible()), op, fs.maxFileSize)
    {
      match op
      case WriteOp(append, offset, buf) =>
        assert buf[..|buf|] == buf;
        var _ := ExecuteWrite(OpenFlags(false, true, append), buf, offset, |buf|);
      case TruncateOp(length) => var _ := ExecuteTruncate(length);
      case ReadOp(offset, count) =>
        var buf := new int[count];
        var _ := ExecuteRead(OpenFlags(true, false, false), buf, offset, count);
    }
  }

  datatype OpenFlags = OpenFlags(read: bool, write: bool, append: bool)

  /** Below the size on disk there are the old bytes and zeros only. */
  ghost predicate NothingStale(was: Bytes, s: Snapshot) {
    && 0 <= s.idisksize <= |s.data|
    && forall i :: 0 <= i < s.idisksize ==> s.data[i] == if i < |was| then was[i] else 0
  }

  /** The first chunk that grows the file reaches what the size on disk was taken to at the outset. */
  lemma ChunkReaches(fs: FsInfo, size: int, offset: nat, count: nat, done: nat, d: int)
    requires fs.Valid() && done < count && size >= 0
    requires d == size || d == Min(BlockEnd(fs, size), offset + count)
    requires offset + done + ChunkSize(fs, offset + done, count - done) > size
    ensures offset + done + ChunkSize(fs, offset + done, count - done) >= d
  {
    var at, bytes := offset + done, ChunkSize(fs, offset + done, count - done);
    if bytes < count - done { BoundaryAbove(fs, size, at + bytes); }
  }

  /** Once all bytes are in place the file is the flat one. */
  lemma AllReached(was: Snapshot, offset: nat, b: Bytes, d: int, s: Snapshot)
    requires Reached(was, offset, b, |b|, d, s) && |b| > 0 && was.isize <= |was.data|
    ensures s.isize == s.idisksize && 0 <= s.isize <= |s.data|
    ensures s.data[..s.isize] == Written(was.data[..was.isize], offset, b)
  {
    WrittenAt(was.data[..was.isize], offset, b);
  }

  lemma SameSizeGood(was: Snapshot, offset: nat, b: Bytes, part: seq<Snapshot>, size: int)
    requires forall k :: 0 <= k < |part| ==> Consistent(was, offset, b, part[k]) && part[k].idisksize == size
    ensures GoodSteps(was, offset, b, part, size)
  {}

  lemma OneMoreGood(was: Snapshot, offset: nat, b: Bytes, part: seq<Snapshot>, size: int, s: Snapshot, m: nat)
    requires GoodSteps(was, offset, b, part, size) && Partway(was, offset, b, m, s) && size <= s.idisksize
    ensures GoodSteps(was, offset, b, part + [s], s.idisksize)
  {
    assert Consistent(was, offset, b, s);
    hide Partway;
    GoodStepsJoin(was, offset, b, part, size, [s], s.idisksize);
  }
}
