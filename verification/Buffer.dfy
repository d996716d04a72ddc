/**
 The byte buffer of buffer.cpp: a vector with a read and a write index,
 |  prependable  |  readable  |  writable  |
 that makes room either by moving the readable bytes left or by growing.
 A pointer into the buffer is modelled as an offset from peek().
 */
module Buffers {
  import opened Text

  const CHEAP_PREPEND: nat := 8
  const INITIAL_SIZE: nat := 1024
  const EXTRA_SIZE: nat := 65536

  // ---------------------------------------------------------------- layout arithmetic

  datatype Layout = Layout(size: nat, read: nat, write: nat) {
    ghost predicate Valid() {
      read <= write <= size && CHEAP_PREPEND <= size
    }

    function Readable(): int { write - read }

    function Writable(): int { size - write }
  }

  /** ensureWritableBytes and makeSpace. */
  function MakeRoom(l: Layout, len: nat): Layout
    requires l.Valid()
  {
    if len <= l.Writable() then l
    else if l.Writable() + l.read < len + CHEAP_PREPEND then Layout(l.write + len, l.read, l.write)
    else Layout(l.size, CHEAP_PREPEND, CHEAP_PREPEND + l.Readable())
  }

  function AppendLayout(l: Layout, len: nat): Layout
    requires l.Valid()
  {
    var m := MakeRoom(l, len);
    m.(write := m.write + len)
  }

  function ReadLayout(l: Layout, n: nat): Layout
    requires l.Valid()
  {
    if n <= l.Writable() then l.(write := l.write + n)
    else AppendLayout(l.(write := l.size), n - l.Writable())
  }

  /** Both branches of makeSpace keep every readable byte and leave room; the assertion
      at the left move holds, and growing stays below readable + 2 * len + 8. */
  lemma MakeRoomFits(l: Layout, len: nat)
    requires l.Valid()
    ensures var m := MakeRoom(l, len);
            && m.Valid() && m.Readable() == l.Readable() && len <= m.Writable()
            && l.size <= m.size
            && (m.size == l.size || m.size < l.Readable() + 2 * len + CHEAP_PREPEND)
            && (len > l.Writable() && m.size == l.size ==> CHEAP_PREPEND < l.read)
  {
  }

  datatype Op =
    | Append(len: nat)
    | ReadFd(n: nat)
    | Retrieve(len: nat)
    | RetrieveAll
    | Prepend(len: nat)

  ghost predicate Enabled(l: Layout, op: Op) {
    match op
    case Append(_) => true
    case ReadFd(n) => n <= l.Writable() + EXTRA_SIZE
    case Retrieve(len) => len <= l.Readable()
    case RetrieveAll => true
    case Prepend(len) => len <= l.read
  }

  function Apply(l: Layout, op: Op): Layout
    requires l.Valid() && Enabled(l, op)
  {
    match op
    case Append(len) => AppendLayout(l, len)
    case ReadFd(n) => ReadLayout(l, n)
    case Retrieve(len) => l.(read := l.read + len)
    case RetrieveAll => l.(read := CHEAP_PREPEND, write := CHEAP_PREPEND)
    case Prepend(len) => l.(read := l.read - len)
  }

  /** Every operation of the run is legal and no more than `peak` bytes are readable after any of them. */
  ghost predicate RunsWithin(l: Layout, ops: seq<Op>, peak: nat)
    requires l.Valid()
    decreases |ops|
  {
    ops == [] ||
    (Enabled(l, ops[0]) &&
     var m := Apply(l, ops[0]);
     m.Valid() && m.Readable() <= peak && RunsWithin(m, ops[1..], peak))
  }

  ghost function Run(l: Layout, ops: seq<Op>, peak: nat): Layout
    requires l.Valid() && RunsWithin(l, ops, peak)
    decreases |ops|
  {
    if ops == [] then l else Run(Apply(l, ops[0]), ops[1..], peak)
  }

  lemma ApplyFits(l: Layout, op: Op)
    requires l.Valid() && Enabled(l, op)
    ensures var m := Apply(l, op);
            m.Valid() && (m.size == l.size || m.size <= 2 * m.Readable() + CHEAP_PREPEND)
  {
    match op
    case Append(len) => MakeRoomFits(l, len);
    case ReadFd(n) =>
      if n > l.Writable() { MakeRoomFits(l.(write := l.size), n - l.Writable()); }
    case _ =>
  }

  /** However long a buffer lives, its storage is at most twice the most it ever held, plus the prefix. */
  lemma {:induction false} CapacityBounded(l: Layout, ops: seq<Op>, peak: nat)
    requires l.Valid() && RunsWithin(l, ops, peak)
    ensures Run(l, ops, peak).Valid()
    ensures Run(l, ops, peak).size <= l.size || Run(l, ops, peak).size <= 2 * peak + CHEAP_PREPEND
    decreases |ops|
  {
    if ops != [] {
      ApplyFits(l, ops[0]);
      CapacityBounded(Apply(l, ops[0]), ops[1..], peak);
    }
  }

  /** Room for a prefix of eight bytes is there from the start, and is never given up to the contents. */
  lemma {:induction false} PrependRoom(l: Layout, ops: seq<Op>, peak: nat)
    requires l.Valid() && RunsWithin(l, ops, peak) && CHEAP_PREPEND <= l.read
    requires forall op :: op in ops ==> !op.Prepend?
    ensures CHEAP_PREPEND <= Run(l, ops, peak).read
    decreases |ops|
  {
    if ops != [] {
      assert ops[0] in ops;
      PrependRoom(Apply(l, ops[0]), ops[1..], peak);
    }
  }

  /** Reading into two segments leaves the buffer laid out exactly as appending the bytes would. */
  lemma ReadIsAppend(l: Layout, n: nat)
    requires l.Valid()
    ensures ReadLayout(l, n) == AppendLayout(l, n)
  {
  }

  /** A prefix put in front of what is left takes the place of what was retrieved. */
  lemma PrependUndoesRetrieve(l: Layout, len: nat)
    requires l.Valid() && len <= l.Readable()
    ensures Enabled(Apply(l, Op.Retrieve(len)), Op.Prepend(len))
    ensures Apply(Apply(l, Op.Retrieve(len)), Op.Prepend(len)) == l
  {
  }

  /** Room is made without growing whenever the storage in front of the prefix and behind the contents is enough. */
  lemma GrowsIff(l: Layout, len: nat)
    requires l.Valid()
    ensures MakeRoom(l, len).size > l.size <==> len > l.Writable() && l.Readable() + len + CHEAP_PREPEND > l.size
  {
  }

  // ---------------------------------------------------------------- the class

  lemma Join(s: string, i: nat, j: nat, k: nat)
    requires i <= j <= k <= |s|
    ensures s[i..k] == s[i..j] + s[j..k]
  {
  }

  /** The outcome of readv: an error, or the bytes it delivered. */
  datatype ReadResult = ReadError | ReadBytes(bytes: string)

  class Buffer {
    var data: array<char>
    var readIndex: nat
    var writeIndex: nat

    ghost predicate Valid()
      reads this
    {
      readIndex <= writeIndex <= data.Length && CHEAP_PREPEND <= data.Length
    }

    ghost function Shape(): Layout
      reads this
    {
      Layout(data.Length, readIndex, writeIndex)
    }

    ghost function Contents(): string
      reads this, data
      requires Valid()
    {
      data[readIndex..writeIndex]
    }

    constructor ()
      ensures Valid() && fresh(data)
      ensures Contents() == ""
      ensures Shape() == Layout(1032, 8, 8)
    {
      data := new char[CHEAP_PREPEND + INITIAL_SIZE](_ => '\0');
      readIndex := CHEAP_PREPEND;
      writeIndex := CHEAP_PREPEND;
    }

    method Swap(rhs: Buffer)
      requires Valid() && rhs.Valid() && rhs != this
      modifies this, rhs
      ensures Valid() && rhs.Valid()
      ensures data == old(rhs.data) && rhs.data == old(data)
      ensures Shape() == old(rhs.Shape()) && rhs.Shape() == old(Shape())
      ensures Contents() == old(rhs.Contents()) && rhs.Contents() == old(Contents())
    {
      data, rhs.data := rhs.data, data;
      readIndex, rhs.readIndex := rhs.readIndex, readIndex;
      writeIndex, rhs.writeIndex := rhs.writeIndex, writeIndex;
    }

    method ReadableBytes() returns (n: nat)
      requires Valid()
      ensures n == |Contents()|
    {
      n := writeIndex - readIndex;
    }

    method Retrieve(len: nat)
      requires Valid() && len <= |Contents()|
      modifies this`readIndex
      ensures Valid() && Contents() == old(Contents())[len..]
      ensures Shape() == old(Shape()).(read := old(readIndex) + len)
    {
      readIndex := readIndex + len;
    }

    method RetrieveAll()
      requires Valid()
      modifies this`readIndex, this`writeIndex
      ensures Valid() && Contents() == ""
      ensures Shape() == Apply(old(Shape()), Op.RetrieveAll)
    {
      readIndex := CHEAP_PREPEND;
      writeIndex := CHEAP_PREPEND;
    }

    method RetrieveAsString() returns (s: string)
      requires Valid()
      modifies this`readIndex, this`writeIndex
      ensures Valid() && s == old(Contents()) && Contents() == ""
    {
      s := data[readIndex..writeIndex];
      RetrieveAll();
    }

    method MakeSpace(len: nat)
      requires Valid() && len > data.Length - writeIndex
      modifies this, data
      ensures Valid() && Contents() == old(Contents())
      ensures Shape() == MakeRoom(old(Shape()), len)
      ensures data == old(data) || fresh(data)
    {
      if data.Length - writeIndex + readIndex < len + CHEAP_PREPEND {
        var was := data;
        var grown := new char[writeIndex + len](_ => '\0');
        forall i | 0 <= i < was.Length {
          grown[i] := was[i];
        }
        data := grown;
        assert forall i :: readIndex <= i < writeIndex ==> data[i] == old(data[i]);
      } else {
        assert CHEAP_PREPEND < readIndex;
        var readable := writeIndex - readIndex;
        var i := 0;
        while i < readable
          invariant 0 <= i <= readable
          invariant readIndex == old(readIndex) && writeIndex == old(writeIndex) && data == old(data)
          invariant data[CHEAP_PREPEND..CHEAP_PREPEND + i] == old(Contents())[..i]
          invariant forall k :: readIndex + i <= k < writeIndex ==> data[k] == old(data[k])
        {
          assert data[readIndex + i] == old(Contents())[i];
          data[CHEAP_PREPEND + i] := data[readIndex + i];
          i := i + 1;
        }
        readIndex := CHEAP_PREPEND;
        writeIndex := readIndex + readable;
      }
    }

    method EnsureWritableBytes(len: nat)
      requires Valid()
      modifies this, data
      ensures Valid() && Contents() == old(Contents())
      ensures Shape() == MakeRoom(old(Shape()), len)
      ensures data == old(data) || fresh(data)
    {
      if data.Length - writeIndex < len {
        MakeSpace(len);
      }
      assert len <= data.Length - writeIndex by { MakeRoomFits(old(Shape()), len); }
    }

    /** std::copy to beginWrite(), then hasWriten. */
    method Fill(s: string)
      requires Valid() && |s| <= data.Length - writeIndex
      modifies this`writeIndex, data
      ensures Valid() && Contents() == old(Contents()) + s
      ensures Shape() == old(Shape()).(write := old(writeIndex) + |s|)
    {
      forall i | 0 <= i < |s| {
        data[writeIndex + i] := s[i];
      }
      assert data[readIndex..writeIndex] == old(Contents());
      assert data[writeIndex..writeIndex + |s|] == s;
      Join(data[..], readIndex, writeIndex, writeIndex + |s|);
      writeIndex := writeIndex + |s|;
    }

    method Append(s: string)
      requires Valid()
      modifies this, data
      ensures Valid() && Contents() == old(Contents()) + s
      ensures Shape() == AppendLayout(old(Shape()), |s|)
      ensures data == old(data) || fresh(data)
    {
      EnsureWritableBytes(|s|);
      MakeRoomFits(old(Shape()), |s|);
      Fill(s);
    }

    method Prepend(s: string)
      requires Valid() && |s| <= readIndex
      modifies this`readIndex, data
      ensures Valid() && Contents() == s + old(Contents())
      ensures Shape() == old(Shape()).(read := old(readIndex) - |s|)
    {
      readIndex := readIndex - |s|;
      forall i | 0 <= i < |s| {
        data[readIndex + i] := s[i];
      }
      assert data[readIndex + |s|..writeIndex] == old(Contents());
      assert Contents() == s + old(Contents());
    }

    /** readv into the writable part and a 64 KiB stack area; what spilled over is appended. */
    method ReadFd(result: ReadResult) returns (n: int)
      requires Valid()
      requires result.ReadBytes? ==> |result.bytes| <= data.Length - writeIndex + EXTRA_SIZE
      modifies this, data
      ensures Valid() && (data == old(data) || fresh(data))
      ensures result.ReadError? ==> n < 0 && Shape() == old(Shape()) && Contents() == old(Contents())
      ensures result.ReadBytes? ==>
                && n == |result.bytes| && Contents() == old(Contents()) + result.bytes
                && Shape() == ReadLayout(old(Shape()), n)
    {
      if result.ReadError? {
        return -1;
      }
      var writable := data.Length - writeIndex;
      n := |result.bytes|;
      if n <= writable {
        Fill(result.bytes);
      } else {
        Fill(result.bytes[..writable]);
        Append(result.bytes[writable..]);
        assert result.bytes == result.bytes[..writable] + result.bytes[writable..];
      }
    }

    /** Offset of the first CR LF from peek(), or -1 where the source returns NULL. */
    method FindCRLF() returns (r: int)
      requires Valid()
      ensures r == FindCrlf(Contents())
    {
      var i := readIndex;
      while i + 1 < writeIndex
        invariant readIndex <= i <= writeIndex
        invariant forall k :: CrlfAt(Contents(), k) ==> i - readIndex <= k
      {
        if data[i] == '\r' && data[i + 1] == '\n' {
          assert CrlfAt(Contents(), i - readIndex);
          FindCrlfIs(Contents(), i - readIndex);
          return i - readIndex;
        }
        i := i + 1;
      }
      FindCrlfIs(Contents(), -1);
      return -1;
    }
  }
}
