/** Files as flat byte sequences: what write, truncate and read are to do, block size and journaling aside. */
module FileSpec {

  type Bytes = seq<int>

  function Zeros(n: nat): Bytes { seq(n, _ => 0) }

  /** The old bytes, zero-padded up to the offset, overlaid by the buffer. */
  function Written(c: Bytes, offset: nat, b: Bytes): Bytes {
    var padded := if offset <= |c| then c else c + Zeros(offset - |c|);
    padded[..offset] + b + (if offset + |b| <= |padded| then padded[offset + |b|..] else [])
  }

  function Truncated(c: Bytes, length: nat): Bytes {
    if length <= |c| then c[..length] else c + Zeros(length - |c|)
  }

  function ReadFrom(c: Bytes, offset: nat, count: nat): Bytes {
    if offset >= |c| then [] else if offset + count <= |c| then c[offset..offset + count] else c[offset..]
  }

  // ----- laws of the flat file -----

  lemma WrittenAt(c: Bytes, offset: nat, b: Bytes)
    requires |b| > 0
    ensures |Written(c, offset, b)| == if |c| < offset + |b| then offset + |b| else |c|
    ensures forall i :: 0 <= i < |Written(c, offset, b)| ==>
                          Written(c, offset, b)[i] == if offset <= i < offset + |b| then b[i - offset]
                                                      else if i < |c| then c[i] else 0
  {}

  /** What was written is read back. */
  lemma ReadWritten(c: Bytes, offset: nat, b: Bytes)
    requires |b| > 0
    ensures ReadFrom(Written(c, offset, b), offset, |b|) == b
  {
    WrittenAt(c, offset, b);
  }

  /** A write may be split at any point. */
  lemma WrittenInParts(c: Bytes, offset: nat, b1: Bytes, b2: Bytes)
    requires |b1| > 0 && |b2| > 0
    ensures Written(Written(c, offset, b1), offset + |b1|, b2) == Written(c, offset, b1 + b2)
  {
    WrittenAt(c, offset, b1);
    WrittenAt(Written(c, offset, b1), offset + |b1|, b2);
    WrittenAt(c, offset, b1 + b2);
  }

  /** Writes that do not overlap commute. */
  lemma DisjointWritesCommute(c: Bytes, o1: nat, b1: Bytes, o2: nat, b2: Bytes)
    requires |b1| > 0 && |b2| > 0 && o1 + |b1| <= o2
    ensures Written(Written(c, o1, b1), o2, b2) == Written(Written(c, o2, b2), o1, b1)
  {
    WrittenAt(c, o1, b1);
    WrittenAt(Written(c, o1, b1), o2, b2);
    WrittenAt(c, o2, b2);
    WrittenAt(Written(c, o2, b2), o1, b1);
  }

  /** Bytes cut off by a shrink read as zeros after any later growth. */
  lemma ShrinkForgets(c: Bytes, short: nat, long: nat, i: nat)
    requires short <= i < long && short <= |c|
    ensures i < |Truncated(Truncated(c, short), long)| && Truncated(Truncated(c, short), long)[i] == 0
  {}

  // ----- whole histories -----

  datatype Op =
    | WriteOp(append: bool, offset: nat, buf: Bytes)
    | TruncateOp(length: int)
    | ReadOp(offset: nat, count: nat)

  /** What the operation makes of the file; writes are clipped at the size limit, truncate must stay below it. */
  function Applied(c: Bytes, op: Op, max: nat): Bytes {
    match op
    case WriteOp(append, offset, buf) =>
      var at := if append then |c| else offset;
      if |buf| == 0 || at >= max then c
      else Written(c, at, if at + |buf| <= max then buf else buf[..max - at])
    case TruncateOp(length) =>
      if length < 0 || (length > |c| && length >= max) then c else Truncated(c, length)
    case ReadOp(_, _) => c
  }

  function AppliedAll(c: Bytes, ops: seq<Op>, max: nat): Bytes
    decreases |ops|
  {
    if ops == [] then c else AppliedAll(Applied(c, ops[0], max), ops[1..], max)
  }

  lemma {:induction false} AppliedOneMore(c: Bytes, ops: seq<Op>, op: Op, max: nat)
    ensures AppliedAll(c, ops + [op], max) == Applied(AppliedAll(c, ops, max), op, max)
    decreases |ops|
  {
    if ops == [] {
      assert (ops + [op])[1..] == [];
    } else {
      assert (ops + [op])[1..] == ops[1..] + [op];
      AppliedOneMore(Applied(c, ops[0], max), ops[1..], op, max);
    }
  }

  lemma AppliedBounded(c: Bytes, op: Op, max: nat)
    requires |c| <= max
    ensures |Applied(c, op, max)| <= max
  {
    if op.WriteOp? && |op.buf| > 0 {
      var at := if op.append then |c| else op.offset;
      if at < max { WrittenAt(c, at, if at + |op.buf| <= max then op.buf else op.buf[..max - at]); }
    }
  }

  /** No history takes a file past the size limit. */
  lemma {:induction false} HistoryBounded(c: Bytes, ops: seq<Op>, max: nat)
    requires |c| <= max
    ensures |AppliedAll(c, ops, max)| <= max
    decreases |ops|
  {
    if ops != [] {
      AppliedBounded(c, ops[0], max);
      HistoryBounded(Applied(c, ops[0], max), ops[1..], max);
    }
  }
}
