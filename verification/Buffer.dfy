/**
 The byte queue of muduo/Buffer.h: one resizable array holding a prepend area, the readable bytes
 and the writable bytes.  The class works on the array in place; `Shape` is the arithmetic of its
 three sizes, on which the memory bound over whole runs is proved.
 */
module BufferShape {
  const CHEAP_PREPEND: nat := 8
  const INITIAL_SIZE: nat := 1024

  /** The size of the array and its two indices. */
  datatype Shape = Shape(size: nat, reader: nat, writer: nat) {
    predicate Valid() {
      CHEAP_PREPEND <= reader <= writer <= size
    }

    function Readable(): nat
      requires Valid()
    {
      writer - reader
    }

    function Writable(): nat
      requires Valid()
    {
      size - writer
    }
  }

  const INITIAL_SHAPE := Shape(CHEAP_PREPEND + INITIAL_SIZE, CHEAP_PREPEND, CHEAP_PREPEND)

  /** The shape once `len` bytes are writable: unchanged, grown, or compacted to the front. */
  function Ensured(s: Shape, len: nat): (r: Shape)
    requires s.Valid()
    ensures r.Valid() && r.Readable() == s.Readable() && r.Writable() >= len && r.size >= s.size
  {
    if s.Writable() >= len then s
    else if s.Writable() + s.reader < len + CHEAP_PREPEND then s.(size := s.writer + len)
    else Shape(s.size, CHEAP_PREPEND, CHEAP_PREPEND + s.Readable())
  }

  function Appended(s: Shape, len: nat): (r: Shape)
    requires s.Valid()
    ensures r.Valid() && r.Readable() == s.Readable() + len
  {
    var e := Ensured(s, len);
    e.(writer := e.writer + len)
  }

  /** Filling the writable space first and appending the overflow leaves the sizes one append would. */
  lemma FillThenAppend(s: Shape, len: nat)
    requires s.Valid()
    ensures if len <= s.Writable() then Appended(s, len) == s.(writer := s.writer + len)
            else Appended(s.(writer := s.size), len - s.Writable()) == Appended(s, len)
  {
  }

  function Retrieved(s: Shape, len: nat): (r: Shape)
    requires s.Valid()
    ensures r.Valid() && r.Readable() == if len <= s.Readable() then s.Readable() - len else 0
  {
    if len <= s.Readable() then s.(reader := s.reader + len)
    else Shape(s.size, CHEAP_PREPEND, CHEAP_PREPEND)
  }

  /** Compaction is chosen only when the readable bytes have moved past the prepend area, so the
      destination of the overlapping copy lies strictly before its source. */
  lemma CompactionMovesLeft(s: Shape, len: nat)
    requires s.Valid() && s.Writable() < len
    requires s.Writable() + s.reader >= len + CHEAP_PREPEND
    ensures CHEAP_PREPEND < s.reader && CHEAP_PREPEND + s.Readable() + len <= s.size
  {
  }

  /** Where the indices stand after a retrieve, and after an append in each of its three ways: in place when the
      bytes fit behind the writer, moved to the front when they fit with what has been read, and otherwise in
      an array just large enough. */
  lemma IndicesMove(s: Shape, len: nat)
    requires s.Valid()
    ensures INITIAL_SHAPE == Shape(1032, 8, 8)
    ensures s.reader + len <= s.writer ==> Retrieved(s, len) == s.(reader := s.reader + len)
    ensures s.reader + len > s.writer ==> Retrieved(s, len) == Shape(s.size, 8, 8)
    ensures s.writer + len <= s.size ==> Appended(s, len) == s.(writer := s.writer + len)
    ensures s.size < s.writer + len <= s.size + s.reader - 8 ==>
              Appended(s, len) == Shape(s.size, 8, 8 + (s.writer - s.reader) + len)
    ensures s.writer + len > s.size + s.reader - 8 && s.writer + len > s.size ==>
              Appended(s, len) == Shape(s.writer + len, s.reader, s.writer + len)
  {
  }

  datatype Op = Append(len: nat) | Retrieve(len: nat)

  function Apply(s: Shape, op: Op): (r: Shape)
    requires s.Valid()
    ensures r.Valid()
  {
    match op
    case Append(len) => Appended(s, len)
    case Retrieve(len) => Retrieved(s, len)
  }

  function ApplyAll(s: Shape, ops: seq<Op>): (r: Shape)
    requires s.Valid()
    ensures r.Valid()
    decreases |ops|
  {
    if ops == [] then s else ApplyAll(Apply(s, ops[0]), ops[1..])
  }

  /** At no point of the run do the readable bytes exceed `peak`. */
  predicate PeakWithin(s: Shape, ops: seq<Op>, peak: nat)
    requires s.Valid()
    decreases |ops|
  {
    && s.Readable() <= peak
    && (ops != [] ==> PeakWithin(Apply(s, ops[0]), ops[1..], peak))
  }

  /** The largest array any run needs that never holds more than `peak` readable bytes. */
  function MaxSize(peak: nat): nat {
    if peak <= INITIAL_SIZE then CHEAP_PREPEND + INITIAL_SIZE else 2 * peak + CHEAP_PREPEND - 1
  }

  /** The memory bound, over every run: the array never outgrows `MaxSize(peak)` and never shrinks. */
  lemma {:induction false} MemoryBound(s: Shape, ops: seq<Op>, peak: nat)
    requires s.Valid() && INITIAL_SHAPE.size <= s.size <= MaxSize(peak)
    requires PeakWithin(s, ops, peak)
    ensures s.size <= ApplyAll(s, ops).size <= MaxSize(peak)
    decreases |ops|
  {
    if ops != [] {
      MemoryBound(Apply(s, ops[0]), ops[1..], peak);
    }
  }

  lemma MemoryBoundFromStart(ops: seq<Op>, peak: nat)
    requires PeakWithin(INITIAL_SHAPE, ops, peak)
    ensures INITIAL_SHAPE.size <= ApplyAll(INITIAL_SHAPE, ops).size <= MaxSize(peak)
  {
    MemoryBound(INITIAL_SHAPE, ops, peak);
  }

  /** The bound is the least one: for every peak some run within the peak reaches it. */
  lemma MemoryBoundIsTight(peak: nat)
    ensures exists ops :: PeakWithin(INITIAL_SHAPE, ops, peak)
                       && ApplyAll(INITIAL_SHAPE, ops).size == MaxSize(peak)
  {
    if peak <= INITIAL_SIZE {
      assert PeakWithin(INITIAL_SHAPE, [], peak) && ApplyAll(INITIAL_SHAPE, []).size == MaxSize(peak);
    } else {
      var a, b, c := Append(peak - 1), Retrieve(peak - 1), Append(peak);
      var s1 := Apply(INITIAL_SHAPE, a);
      var s2 := Apply(s1, b);
      var s3 := Apply(s2, c);
      var ops := [a, b, c];
      assert ops[1..] == [b, c] && [b, c][1..] == [c] && [c][1..] == [];
      assert PeakWithin(s3, [], peak) && ApplyAll(s3, []) == s3;
      assert PeakWithin(s2, [c], peak) && ApplyAll(s2, [c]) == s3;
      assert PeakWithin(s1, [b, c], peak) && ApplyAll(s1, [b, c]) == s3;
      assert PeakWithin(INITIAL_SHAPE, ops, peak) && ApplyAll(INITIAL_SHAPE, ops) == s3;
    }
  }
}

module ByteBuffer {
  import opened Common
  import opened BufferShape

  const EXTRA_BUFFER_SIZE: nat := 65536

  /** How many bytes one scatter read over the writable space and the stack buffer may deliver. */
  function ReadCapacity(writable: nat): nat {
    if writable < EXTRA_BUFFER_SIZE then writable + EXTRA_BUFFER_SIZE else writable
  }

  /** Copies `data` into `dst` from index `at` on, element by element. */
  method CopyInto(dst: array<byte>, at: nat, data: Bytes)
    requires at + |data| <= dst.Length
    modifies dst
    ensures dst[..at] == old(dst[..at])
    ensures dst[at..at + |data|] == data
    ensures dst[at + |data|..] == old(dst[at + |data|..])
  {
    for i := 0 to |data|
      invariant forall k :: 0 <= k < i ==> dst[at + k] == data[k]
      invariant forall k :: 0 <= k < dst.Length && !(at <= k < at + i) ==> dst[k] == old(dst[k])
    {
      dst[at + i] := data[i];
    }
  }

  class Buffer {
    var buffer: array<byte>
    var readerIndex: nat
    var writerIndex: nat

    ghost predicate Valid()
      reads this
    {
      CHEAP_PREPEND <= readerIndex <= writerIndex <= buffer.Length
    }

    /** The byte sequence this buffer stands for. */
    ghost function Contents(): Bytes
      reads this, buffer
      requires Valid()
    {
      buffer[readerIndex..writerIndex]
    }

    ghost function Sizes(): Shape
      reads this
      requires Valid()
    {
      Shape(buffer.Length, readerIndex, writerIndex)
    }

    constructor ()
      ensures Valid() && fresh(buffer)
      ensures Contents() == [] && Sizes() == INITIAL_SHAPE
    {
      buffer := new byte[CHEAP_PREPEND + INITIAL_SIZE](_ => 0);
      readerIndex := CHEAP_PREPEND;
      writerIndex := CHEAP_PREPEND;
    }

    function ReadableBytes(): (n: nat)
      reads this, buffer
      requires Valid()
      ensures n == |Contents()|
    {
      writerIndex - readerIndex
    }

    function WritableBytes(): nat
      reads this
      requires Valid()
    {
      buffer.Length - writerIndex
    }

    function PrependableBytes(): nat
      reads this
    {
      readerIndex
    }

    method Peek() returns (data: Bytes)
      requires Valid()
      ensures data == Contents()
    {
      data := buffer[readerIndex..writerIndex];
    }

    method RetrieveAll()
      requires Valid()
      modifies this`readerIndex, this`writerIndex
      ensures Valid() && Contents() == []
      ensures Sizes() == Shape(buffer.Length, CHEAP_PREPEND, CHEAP_PREPEND)
    {
      readerIndex, writerIndex := CHEAP_PREPEND, CHEAP_PREPEND;
    }

    method Retrieve(len: nat)
      requires Valid()
      modifies this`readerIndex, this`writerIndex
      ensures Valid()
      ensures Contents() == old(Contents())[Min(len, |old(Contents())|)..]
      ensures Sizes() == Retrieved(old(Sizes()), len)
    {
      if len <= ReadableBytes() {
        readerIndex := readerIndex + len;
      } else {
        RetrieveAll();
      }
    }

    method RetrieveAsString(len: nat) returns (data: Bytes)
      requires Valid() && len <= ReadableBytes()
      modifies this`readerIndex, this`writerIndex
      ensures Valid()
      ensures old(Contents()) == data + Contents() && |data| == len
      ensures Sizes() == Retrieved(old(Sizes()), len)
    {
      hide Retrieved;
      SlicesJoin(buffer, readerIndex, readerIndex + len, writerIndex);
      data := buffer[readerIndex..readerIndex + len];
      Retrieve(len);
    }

    method RetrieveAllAsString() returns (data: Bytes)
      requires Valid()
      modifies this`readerIndex, this`writerIndex
      ensures Valid()
      ensures data == old(Contents()) && Contents() == []
      ensures Sizes() == Retrieved(old(Sizes()), |data|)
    {
      data := RetrieveAsString(ReadableBytes());
    }

    method EnsureWritableBytes(len: nat)
      requires Valid()
      modifies this, buffer
      ensures Valid() && (buffer == old(buffer) || fresh(buffer))
      ensures Contents() == old(Contents()) && Sizes() == Ensured(old(Sizes()), len)
    {
      if WritableBytes() < len {
        MakeSpace(len);
      }
    }

    method Append(data: Bytes)
      requires Valid()
      modifies this, buffer
      ensures Valid() && (buffer == old(buffer) || fresh(buffer))
      ensures Contents() == old(Contents()) + data
      ensures Sizes() == Appended(old(Sizes()), |data|)
    {
      EnsureWritableBytes(|data|);
      ghost var kept := Contents();
      CopyInto(buffer, writerIndex, data);
      assert Contents() == buffer[..writerIndex][readerIndex..] == kept;
      HasWritten(|data|);
    }

    /** Hands the readable bytes to the socket, which takes a prefix of them (`sent`) or fails. */
    method WriteFd(res: WriteResult) returns (n: int, saveErrno: Option<Errno>, sent: Bytes)
      requires Valid() && res.Fits(ReadableBytes())
      ensures res.Wrote? ==> n == res.n && saveErrno == None && sent == Contents()[..res.n]
      ensures res.WriteFailed? ==> n < 0 && saveErrno == Some(res.errno) && sent == []
    {
      var data := Peek();
      match res
      case Wrote(k) => n, saveErrno, sent := k, None, data[..k];
      case WriteFailed(errno) => n, saveErrno, sent := -1, Some(errno), [];
    }

    /** The kernel's half of a scatter read: the writable space is filled first, then `extra`. */
    method Scatter(received: Bytes, extra: array<byte>)
      requires Valid() && extra != buffer
      requires |received| <= WritableBytes() + extra.Length
      modifies buffer, extra
      ensures var inPlace := Min(|received|, WritableBytes());
              && buffer[readerIndex..writerIndex + inPlace] == old(Contents()) + received[..inPlace]
              && extra[..|received| - inPlace] == received[inPlace..]
    {
      var inPlace := Min(|received|, WritableBytes());
      ghost var kept := Contents();
      CopyInto(buffer, writerIndex, received[..inPlace]);
      CopyInto(extra, 0, received[inPlace..]);
      assert buffer[readerIndex..writerIndex] == buffer[..writerIndex][readerIndex..] == kept;
    }

    /** Reads up to the writable space and 65536 bytes more, of which the overflow is appended; an
        error is saved and changes nothing. */
    method ReadFd(res: ReadResult) returns (n: int, saveErrno: Option<Errno>)
      requires Valid() && (res.Received? ==> |res.data| <= ReadCapacity(WritableBytes()))
      modifies this, buffer
      ensures Valid() && (buffer == old(buffer) || fresh(buffer))
      ensures res.Received? ==> n == |res.data| && saveErrno == None
      ensures res.Received? ==> Contents() == old(Contents()) + res.data
      ensures res.Received? ==> Sizes() == Appended(old(Sizes()), |res.data|)
      ensures res.ReadFailed? ==> n < 0 && saveErrno == Some(res.errno)
      ensures res.ReadFailed? ==> Contents() == old(Contents()) && Sizes() == old(Sizes())
    {
      match res
      case ReadFailed(errno) => n, saveErrno := -1, Some(errno);
      case Received(data) =>
        Receive(data);
        n, saveErrno := |data|, None;
    }

    method Receive(received: Bytes)
      requires Valid() && |received| <= ReadCapacity(WritableBytes())
      modifies this, buffer
      ensures Valid() && (buffer == old(buffer) || fresh(buffer))
      ensures Contents() == old(Contents()) + received
      ensures Sizes() == Appended(old(Sizes()), |received|)
    {
      hide Appended, Ensured;
      var extraBuffer := new byte[EXTRA_BUFFER_SIZE];
      var writable := WritableBytes();
      var n := |received|;
      ghost var kept := Contents();
      FillThenAppend(Sizes(), n);
      Scatter(received, extraBuffer);
      if n <= writable {
        writerIndex := writerIndex + n;
        assert received[..n] == received;
      } else {
        writerIndex := buffer.Length;
        var rest := extraBuffer[..n - writable];
        Append(rest);
        assert rest == received[writable..];
        assert kept + received[..writable] + received[writable..] == kept + received;
      }
    }

    /** The same call as the text has it: `recv` is given the two-element vector itself (`vec`) as its
        destination and the vector's element count as its length, so at most two bytes arrive, and they
        arrive there.  `stack` is whatever the stack buffer happens to hold. */
    method ReadFdAsWritten(received: Bytes, vec: array<byte>, stack: Bytes)
      requires Valid() && vec != buffer && vec.Length == IOVEC_BYTES && |stack| == EXTRA_BUFFER_SIZE
      requires |received| <= if WritableBytes() < EXTRA_BUFFER_SIZE then 2 else 1
      modifies this, buffer, vec
      ensures Valid() && (buffer == old(buffer) || fresh(buffer))
      ensures vec[..|received|] == received
      ensures Contents() == ContentsAsWritten(old(Contents()), old(buffer[writerIndex..]), stack, received)
    {
      hide Appended, Ensured;
      var writable := WritableBytes();
      var n := |received|;
      ghost var kept, stale := Contents(), buffer[writerIndex..];
      CopyInto(vec, 0, received);
      assert vec[..n] == vec[0..0 + n];
      if n <= writable {
        SlicesJoin(buffer, writerIndex, writerIndex + n, buffer.Length);
        HasWritten(n);
      } else {
        HasWritten(writable);
        var rest := stack[..n - writable];
        Append(rest);
        assert kept + stale + rest == kept + (stale + rest);
      }
    }

    /** The next `n` bytes of the writable space become readable. */
    method HasWritten(n: nat)
      requires Valid() && n <= WritableBytes()
      modifies this`writerIndex
      ensures Valid() && writerIndex == old(writerIndex) + n
      ensures Contents() == old(Contents()) + buffer[old(writerIndex)..old(writerIndex) + n]
    {
      SlicesJoin(buffer, readerIndex, writerIndex, writerIndex + n);
      writerIndex := writerIndex + n;
    }

    method MakeSpace(len: nat)
      requires Valid() && WritableBytes() < len
      modifies this, buffer
      ensures Valid() && (buffer == old(buffer) || fresh(buffer))
      ensures Contents() == old(Contents()) && Sizes() == Ensured(old(Sizes()), len)
    {
      if WritableBytes() + PrependableBytes() < len + CHEAP_PREPEND {
        Grow(len);
      } else {
        CompactionMovesLeft(Sizes(), len);
        Compact();
      }
    }

    /** vector::resize: the old bytes move to a larger array, the indices stay. */
    method Grow(len: nat)
      requires Valid() && WritableBytes() < len
      modifies this`buffer
      ensures Valid() && fresh(buffer)
      ensures Contents() == old(Contents()) && Sizes() == old(Sizes()).(size := old(writerIndex) + len)
    {
      ghost var kept := Contents();
      var grown := new byte[writerIndex + len](_ => 0);
      CopyInto(grown, 0, buffer[..writerIndex]);
      assert grown[..writerIndex] == buffer[..writerIndex];
      assert grown[readerIndex..writerIndex] == grown[..writerIndex][readerIndex..];
      buffer := grown;
      assert Contents() == kept;
    }

    /** The overlapping copy to the front, forward, in place. */
    method Compact()
      requires Valid() && CHEAP_PREPEND < readerIndex
      modifies this`readerIndex, this`writerIndex, buffer
      ensures Valid() && Contents() == old(Contents())
      ensures Sizes() == Shape(buffer.Length, CHEAP_PREPEND, CHEAP_PREPEND + old(Sizes()).Readable())
    {
      var readable := ReadableBytes();
      ghost var kept := Contents();
      for i := 0 to readable
        invariant readerIndex == old(readerIndex) && writerIndex == old(writerIndex)
        invariant forall k :: 0 <= k < i ==> buffer[CHEAP_PREPEND + k] == kept[k]
        invariant forall k :: i <= k < readable ==> buffer[readerIndex + k] == kept[k]
      {
        buffer[CHEAP_PREPEND + i] := buffer[readerIndex + i];
      }
      readerIndex := CHEAP_PREPEND;
      writerIndex := readerIndex + readable;
      assert Contents() == kept;
    }
  }

  lemma SlicesJoin(a: array<byte>, i: nat, j: nat, k: nat)
    requires i <= j <= k <= a.Length
    ensures a[i..k][..j - i] == a[i..j] && a[i..k][j - i..] == a[j..k]
    ensures a[i..k] == a[i..j] + a[j..k]
  {
  }

  /** The bytes of the two-element vector on the stack. */
  const IOVEC_BYTES: nat := 32

  /** What the call as written leaves readable: the content, then the stale storage, then the stack. */
  function ContentsAsWritten(contents: Bytes, stale: Bytes, stack: Bytes, received: Bytes): Bytes
    requires |received| <= |stale| + |stack|
  {
    var n := |received|;
    contents + if n <= |stale| then stale[..n] else stale + stack[..n - |stale|]
  }

  /** Of two receptions of the same length, read as written, at most one is delivered: whatever the
      storage and the stack hold, every reception of a length is delivered only when it is zero. */
  lemma ReadAsWrittenDeliversOnlyNothing(contents: Bytes, stale: Bytes, stack: Bytes, n: nat)
    requires n <= |stale| + |stack|
    ensures (forall received: Bytes | |received| == n ::
               ContentsAsWritten(contents, stale, stack, received) == contents + received) <==> n == 0
  {
    if n > 0 {
      var zeros, ones := seq(n, _ => 0 as byte), seq(n, _ => 1 as byte);
      assert zeros[0] != ones[0];
      assert (contents + zeros)[|contents|] != (contents + ones)[|contents|];
      assert ContentsAsWritten(contents, stale, stack, zeros) == ContentsAsWritten(contents, stale, stack, ones);
    }
  }
}
