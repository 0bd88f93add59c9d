/**
 What TecBuffer (tecc_buffer.c:71-196) is for a user: a file in memory, bytes and a position. Lemmas
 show how the operations undo and preserve one another, and what the growth rule of the code gives.
 */
module BufferModel {
  import opened Arithmetic
  import opened Bytes

  datatype File = File(bytes: seq<Byte>, pos: nat) {
    predicate Ok() {
      pos <= |bytes|
    }
  }

  datatype Origin = Cur | Set | End

  const EMPTY := File([], 0)

  function Min(a: nat, b: nat): nat {
    if a <= b then a else b
  }

  /** The bytes from the position on are overwritten, and the file extended where it is too short. */
  function Write(f: File, src: seq<Byte>): File
    requires f.Ok()
  {
    var end := f.pos + |src|;
    File(f.bytes[..f.pos] + src + f.bytes[Min(end, |f.bytes|)..], end)
  }

  function Read(f: File, len: nat): (File, seq<Byte>)
    requires f.Ok()
  {
    var end := f.pos + Min(len, |f.bytes| - f.pos);
    (f.(pos := end), f.bytes[f.pos..end])
  }

  lemma ReadIs(f: File, len: nat, n: nat)
    requires f.Ok() && n == Min(len, |f.bytes| - f.pos)
    ensures Read(f, len) == (f.(pos := f.pos + n), f.bytes[f.pos..f.pos + n])
  {
  }

  function Target(f: File, offset: int, origin: Origin): int {
    match origin
    case Set => offset
    case Cur => f.pos + offset
    case End => |f.bytes| + offset
  }

  predicate CanSeek(f: File, offset: int, origin: Origin) {
    0 <= Target(f, offset, origin) <= |f.bytes|
  }

  function Seek(f: File, offset: int, origin: Origin): File {
    if CanSeek(f, offset, origin) then f.(pos := Target(f, offset, origin)) else f
  }

  /** A NUL before the position is dropped, and the file made one byte shorter. */
  function DropNul(f: File): File
    requires f.Ok()
  {
    if f.pos > 0 && f.bytes[f.pos - 1] == 0 then File(f.bytes[..|f.bytes| - 1], f.pos - 1) else f
  }

  function Puts(f: File, str: seq<Byte>): File
    requires f.Ok()
  {
    if str == [] then f else Write(DropNul(f), str + [0])
  }

  // ----- Reading and writing

  /** What was written is read back from where it was written, and nothing else changed. */
  lemma WriteSeekRead(f: File, src: seq<Byte>)
    requires f.Ok()
    ensures var w := Write(f, src);
      && w.Ok() && w.pos == f.pos + |src| && |w.bytes| == (if w.pos > |f.bytes| then w.pos else |f.bytes|)
      && CanSeek(w, f.pos, Set) && CanSeek(w, -|src|, Cur)
      && Seek(w, f.pos, Set) == Seek(w, -|src|, Cur)
      && Read(Seek(w, f.pos, Set), |src|) == (w, src)
      && forall i :: 0 <= i < |f.bytes| && !(f.pos <= i < w.pos) ==> w.bytes[i] == f.bytes[i]
  {
    var w := Write(f, src);
    assert w.bytes[f.pos..w.pos] == src;
  }

  /** Writing what is already there changes no byte. */
  lemma ReadSeekWrite(f: File, len: nat)
    requires f.Ok()
    ensures var (r, got) := Read(f, len); Seek(r, f.pos, Set) == f && Write(f, got) == r
  {
    var (r, got) := Read(f, len);
    assert f.bytes == f.bytes[..f.pos] + got + f.bytes[r.pos..];
  }

  /** Seeking `k` bytes back from the end leaves exactly the last `k` bytes to read. */
  lemma SeekBackFromEnd(f: File, k: int)
    requires 0 <= k <= |f.bytes|
    ensures CanSeek(f, -k, End) && Seek(f, -k, End) == File(f.bytes, |f.bytes| - k)
    ensures Read(Seek(f, -k, End), |f.bytes|) == (File(f.bytes, |f.bytes|), f.bytes[|f.bytes| - k..])
  {
    assert f.bytes[|f.bytes| - k..|f.bytes|] == f.bytes[|f.bytes| - k..];
  }

  /** Seeking from the position is seeking to the position plus the offset; past an end it fails and nothing moves. */
  lemma SeekAnywhere(f: File, offset: int)
    requires f.Ok()
    ensures CanSeek(f, offset, Set) <==> 0 <= offset <= |f.bytes|
    ensures CanSeek(f, offset, Set) ==> Seek(f, offset, Set) == File(f.bytes, offset)
    ensures CanSeek(f, offset, Cur) <==> CanSeek(f, f.pos + offset, Set)
    ensures Seek(f, offset, Cur) == Seek(f, f.pos + offset, Set)
    ensures CanSeek(f, offset, End) <==> -|f.bytes| <= offset <= 0
    ensures forall o :: !CanSeek(f, offset, o) ==> Seek(f, offset, o) == f
  {
  }

  /** Two writes in a row are one write of both. */
  lemma WriteWrite(f: File, a: seq<Byte>, b: seq<Byte>)
    requires f.Ok()
    ensures Write(Write(f, a), b) == Write(f, a + b)
  {
    assert Write(Write(f, a), b).bytes == Write(f, a + b).bytes;
  }

  /** A write into a block of memory, of which the first `size` bytes are in use. */
  lemma Stored(before: seq<Byte>, after: seq<Byte>, pos: nat, size: nat, src: seq<Byte>)
    requires |before| == |after| && pos <= size <= |before| && pos + |src| <= |before|
    requires after[..pos] == before[..pos] && after[pos..pos + |src|] == src
    requires after[pos + |src|..] == before[pos + |src|..]
    ensures var end := pos + |src|;
      after[..if end > size then end else size] == Write(File(before[..size], pos), src).bytes
  {
    var end := pos + |src|;
    assert before[..size][..pos] == before[..pos];
    if end < size {
      assert after[end..size] == after[end..][..size - end] == before[end..][..size - end] == before[..size][end..];
      assert after[..size] == after[..end] + after[end..size];
    }
    assert after[..end] == after[..pos] + after[pos..end];
  }

  /** Behind a byte that is not NUL, or at the start, a put is a write of the string and its NUL and drops nothing. */
  lemma PutsBehindText(f: File, str: seq<Byte>)
    requires f.Ok() && str != [] && (f.pos == 0 || f.bytes[f.pos - 1] != 0)
    ensures Puts(f, str) == Write(f, str + [0])
  {
  }

  /**
   Behind a NUL it starts one byte earlier. The code also makes the file one byte shorter, whatever that
   byte is: when the string ends inside the file it is the last byte that is lost, and the file holds
   less than before exactly then.
   */
  lemma PutsBehindNul(f: File, str: seq<Byte>)
    requires f.Ok() && str != [] && f.pos > 0 && f.bytes[f.pos - 1] == 0
    ensures var w := Puts(f, str);
      && w.pos == f.pos + |str|
      && w.bytes[..w.pos] == f.bytes[..f.pos - 1] + str + [0]
      && w.bytes[w.pos..] == (if w.pos < |f.bytes| then f.bytes[w.pos..|f.bytes| - 1] else [])
      && (|w.bytes| < |f.bytes| <==> f.pos + |str| < |f.bytes|)
  {
    var w := Puts(f, str);
    assert |w.bytes| == if w.pos < |f.bytes| then |f.bytes| - 1 else w.pos;
    assert f.bytes[..|f.bytes| - 1][..f.pos - 1] == f.bytes[..f.pos - 1];
    if w.pos < |f.bytes| {
      assert f.bytes[..|f.bytes| - 1][w.pos..] == f.bytes[w.pos..|f.bytes| - 1];
    }
  }

  // ----- A series of puts

  function PutAll(f: File, strs: seq<seq<Byte>>): File
    requires f.Ok()
    ensures PutAll(f, strs).Ok()
  {
    if strs == [] then f else Puts(PutAll(f, strs[..|strs| - 1]), strs[|strs| - 1])
  }

  function Concat(strs: seq<seq<Byte>>): seq<Byte> {
    if strs == [] then [] else Concat(strs[..|strs| - 1]) + strs[|strs| - 1]
  }

  /** The file that holds the string `text`: its bytes and one NUL, or nothing at all. */
  function Holding(text: seq<Byte>): File {
    if text == [] then EMPTY else File(text + [0], |text| + 1)
  }

  /** A write at the end appends. */
  lemma WriteAtEnd(text: seq<Byte>, src: seq<Byte>)
    ensures Write(File(text, |text|), src) == File(text + src, |text| + |src|)
  {
    assert text[..|text|] + src + text[|text|..] == text + src;
  }

  lemma PutsAppends(text: seq<Byte>, str: seq<Byte>)
    ensures Holding(text).Ok() && Puts(Holding(text), str) == Holding(text + str)
  {
    if str == [] {
      assert text + str == text;
    } else {
      assert DropNul(Holding(text)) == File(text, |text|);
      WriteAtEnd(text, str + [0]);
      assert text + (str + [0]) == text + str + [0];
    }
  }

  /** Any series of puts into an empty buffer leaves the concatenation with a single NUL behind it. */
  lemma {:induction false} PutsConcatenate(strs: seq<seq<Byte>>)
    ensures PutAll(EMPTY, strs) == Holding(Concat(strs))
  {
    if strs != [] {
      var n := |strs| - 1;
      PutsConcatenate(strs[..n]);
      PutsAppends(Concat(strs[..n]), strs[n]);
    }
  }

  // ----- Growth

  /** The capacity after a request for `need` bytes in all. */
  function Grown(capacity: nat, blockSize: nat, need: nat): nat
    requires blockSize > 0
  {
    if need <= capacity then capacity
    else if capacity == 0 then blockSize
    else capacity + need / blockSize * blockSize
  }

  lemma Blocks(n: nat, blockSize: nat)
    requires blockSize > 0
    ensures n / blockSize * blockSize <= n < n / blockSize * blockSize + blockSize
    ensures n / blockSize * blockSize % blockSize == 0
  {
    var k := n / blockSize;
    Below(n, blockSize);
    MultipleMod(blockSize, k);
    assert k * blockSize == blockSize * k;
  }

  /** Multiples of the block size that differ do so by at least a block. */
  lemma MultiplesApart(a: nat, b: nat, m: nat)
    requires m > 0 && a % m == 0 && b % m == 0
    ensures a < b ==> a + m <= b
    ensures (a + b) % m == 0
  {
    var i, j := a / m, b / m;
    Below(a, m);
    Below(b, m);
    Distribute(m, j, i);
    Distribute(m, i, j);
    MulBound(m, j - i);
    MultipleMod(m, i + j);
    assert a + b == m * (i + j);
  }

  /**
   The capacity stays a number of whole blocks. A buffer that has grown before at least doubles, covers
   the request and stays below twice the request; an empty one gets one block.
   */
  lemma GrowthRule(capacity: nat, blockSize: nat, need: nat)
    requires blockSize > 0 && capacity % blockSize == 0 && need > capacity
    ensures var c := Grown(capacity, blockSize, need);
      && c % blockSize == 0 && c > capacity
      && (capacity > 0 ==> 2 * capacity <= c < 2 * need && need <= c)
  {
    if capacity > 0 {
      var whole := need / blockSize * blockSize;
      Blocks(need, blockSize);
      MultiplesApart(0, capacity, blockSize);
      MultiplesApart(whole, capacity, blockSize);
    } else {
      MultipleMod(blockSize, 1);
    }
  }

  /** A buffer that has a block grows by the largest number of whole blocks not above the request, an empty one to one block. */
  lemma GrowsBy(capacity: nat, blockSize: nat, need: nat)
    requires blockSize > 0 && need > capacity
    ensures var more := Grown(capacity, blockSize, need) - capacity;
      && (capacity == 0 ==> more == blockSize)
      && (capacity > 0 ==> more % blockSize == 0 && 0 <= more <= need < more + blockSize)
    ensures Grown(need, blockSize, need) == need && Grown(need + capacity, blockSize, need) == need + capacity
  {
    Blocks(need, blockSize);
  }

  /** The request fits afterwards exactly when the buffer had a block or the request is at most one. */
  lemma GrowthSufficesIff(capacity: nat, blockSize: nat, need: nat)
    requires blockSize > 0 && capacity % blockSize == 0
    ensures need <= Grown(capacity, blockSize, need) <==> capacity > 0 || need <= blockSize
  {
    if need > capacity {
      GrowthRule(capacity, blockSize, need);
    }
  }

  /** The capacity after a put, which makes its request twice. */
  function GrownByPuts(capacity: nat, blockSize: nat, f: File, str: seq<Byte>): nat
    requires blockSize > 0 && f.Ok()
  {
    if str == [] then capacity
    else Grown(Grown(capacity, blockSize, f.pos + |str| + 1), blockSize, DropNul(f).pos + |str| + 1)
  }

  /** A request made once more always fits, and grows again exactly if it is a first one for more than a block. */
  lemma GrownTwice(capacity: nat, blockSize: nat, need: nat)
    requires blockSize > 0 && capacity % blockSize == 0 && need > 0
    ensures var once := Grown(capacity, blockSize, need);
      && once > 0 && once % blockSize == 0 && need <= Grown(once, blockSize, need)
      && (Grown(once, blockSize, need) == once <==> capacity > 0 || need <= blockSize)
  {
    var once := Grown(capacity, blockSize, need);
    if need > capacity {
      GrowthRule(capacity, blockSize, need);
    }
    if need > once {
      GrowthRule(once, blockSize, need);
    }
  }

  /** An empty buffer asked for more than a block gets one block, which is too small. */
  lemma FirstRequestTooLarge(blockSize: nat, need: nat)
    requires 0 < blockSize < need
    ensures Grown(0, blockSize, need) == blockSize && Grown(0, blockSize, need) < need
  {
  }
}

/** TecBuffer on its memory. */
module Buffer {
  import opened Bytes
  import opened Options
  import M = BufferModel

  const DEFAULT_BLOCK_SIZE: nat := 80

  class TecBuffer {
    var data: array?<Byte>
    var pos: nat
    var size: nat
    var capacity: nat
    var blockSize: nat
    ghost var copied: nat

    ghost predicate Shaped()
      reads this
    {
      && pos <= size <= capacity
      && (data == null <==> capacity == 0) && (data != null ==> data.Length == capacity)
    }

    /** Whole blocks; `copied` counts the bytes that regrowth ever copied: never more than the capacity. */
    ghost predicate Valid()
      reads this
    {
      Shaped() && blockSize > 0 && capacity % blockSize == 0 && copied <= capacity
    }

    ghost function Contents(): (f: M.File)
      requires Shaped()
      reads this, data
      ensures f.Ok()
    {
      M.File(if data == null then [] else data[..size], pos)
    }

    /** `need` bytes fit, now or after growing. */
    ghost predicate CanHold(need: nat)
      reads this
    {
      capacity > 0 || need <= blockSize
    }

    constructor (initialSize: nat, blockSize: nat)
      ensures Valid() && Contents() == M.EMPTY && (data == null || fresh(data))
      ensures this.blockSize == if blockSize == 0 then 80 else blockSize
      ensures capacity == if initialSize == 0 then 0 else this.blockSize
    {
      data, pos, size, capacity, copied := null, 0, 0, 0, 0;
      this.blockSize := if blockSize == 0 then DEFAULT_BLOCK_SIZE else blockSize;
      new;
      if initialSize > 0 {
        EnsureCapacity(0, initialSize);
      }
    }

    /** `calloc`, copy the bytes in use, free the old block. */
    method Realloc(newCapacity: nat)
      requires Shaped()
      modifies this`data, this`capacity, this`copied
      ensures Shaped() && Contents() == old(Contents())
      ensures copied == old(copied) + if newCapacity > old(capacity) then size else 0
      ensures capacity == if newCapacity <= old(capacity) then old(capacity) else newCapacity
      ensures data == old(data) || fresh(data)
    {
      if newCapacity <= capacity {
        return;
      }
      var newData := new Byte[newCapacity](_ => 0);
      var oldData := data;
      if oldData != null {
        forall i | 0 <= i < size {
          newData[i] := oldData[i];
        }
        copied := copied + size;
      }
      capacity, data := newCapacity, newData;
      assert old(data) != null ==> newData[..size] == old(data[..size]);
    }

    method EnsureCapacity(pos: nat, len: nat)
      requires Valid()
      modifies this`data, this`capacity, this`copied
      ensures Valid() && Contents() == old(Contents())
      ensures capacity == M.Grown(old(capacity), blockSize, pos + len)
      ensures data == old(data) || fresh(data)
    {
      if pos + len <= capacity {
        return;
      }
      M.GrowthRule(capacity, blockSize, pos + len);
      var newCapacity := if capacity > 0 then capacity else blockSize;
      if capacity > 0 {
        newCapacity := newCapacity + (pos + len) / blockSize * blockSize;
      }
      Realloc(newCapacity);
    }

    /** `memcpy` to the position and moving it. */
    method Store(src: seq<Byte>)
      requires Valid() && pos + |src| <= capacity && data != null
      modifies this`pos, this`size, data
      ensures Valid() && Contents() == M.Write(old(Contents()), src)
    {
      forall i | 0 <= i < |src| {
        data[pos + i] := src[i];
      }
      ghost var end := pos + |src|;
      assert data[..pos] == old(data[..pos]) && data[pos..end] == src && data[end..] == old(data[end..]);
      M.Stored(old(data[..]), data[..], pos, size, src);
      assert old(data[..])[..size] == old(data[..size]);
      pos := pos + |src|;
      if pos > size {
        size := pos;
      }
      assert data[..][..size] == data[..size];
    }

    /** None: the block is still too small, and the copy would leave it; there the behaviour of C is undefined. */
    method Write(src: seq<Byte>) returns (n: Option<nat>)
      requires Valid()
      modifies this, data
      ensures Valid() && blockSize == old(blockSize) && (data == old(data) || fresh(data))
      ensures n.Some? <==> src == [] || old(CanHold(pos + |src|))
      ensures n.Some? ==> Contents() == M.Write(old(Contents()), src) && n.value == |src|
      ensures n.None? ==> Contents() == old(Contents())
      ensures capacity == M.Grown(old(capacity), blockSize, old(pos) + |src|)
    {
      if |src| == 0 {
        assert Contents() == M.Write(Contents(), src);
        return Some(0);
      }
      M.GrowthSufficesIff(capacity, blockSize, pos + |src|);
      EnsureCapacity(pos, |src|);
      if pos + |src| > capacity {
        return None;
      }
      Store(src);
      n := Some(|src|);
    }

    /** `memcpy` from the position. */
    method CopyOut(dst: array<Byte>, n: nat)
      requires Valid() && 0 < n <= dst.Length && pos + n <= size && dst != data
      modifies dst
      ensures Contents() == old(Contents()) && dst[..] == Contents().bytes[pos..pos + n] + old(dst[n..])
    {
      forall i | 0 <= i < n {
        dst[i] := data[pos + i];
      }
      assert dst[..n] == data[pos..pos + n];
      assert dst[n..] == old(dst[n..]);
      assert dst[..] == dst[..n] + dst[n..];
      assert data[pos..pos + n] == data[..size][pos..pos + n];
    }

    method Read(dst: array<Byte>, len: nat) returns (n: nat)
      requires Valid() && M.Min(len, size - pos) <= dst.Length && dst != data
      modifies this`pos, dst
      ensures Valid() && Contents() == M.Read(old(Contents()), len).0
      ensures n == M.Min(len, size - old(pos))
      ensures dst[..] == M.Read(old(Contents()), len).1 + old(dst[n..])
    {
      hide M.Read;
      n := len;
      if len > 0 && pos + len > size {
        n := size - pos;
      }
      M.ReadIs(Contents(), len, n);
      if n == 0 {
        assert dst[..] == [] + dst[0..];
        return;
      }
      CopyOut(dst, n);
      pos := pos + n;
    }

    /** False for the end-of-buffer code. */
    method Seek(offset: int, origin: M.Origin) returns (ok: bool)
      requires Valid()
      modifies this`pos
      ensures Valid() && Contents() == M.Seek(old(Contents()), offset, origin)
      ensures ok == M.CanSeek(old(Contents()), offset, origin)
    {
      var newPos := offset;
      if origin == M.Set {
        newPos := offset;
      } else if origin == M.Cur {
        newPos := pos + offset;
      } else {
        newPos := size + offset;
      }
      if newPos < 0 || newPos > size {
        return false;
      }
      pos := newPos;
      ok := true;
    }

    /**
     The string None is the NULL pointer. The request is made twice, here and in Write, and the second
     one finds a block: it makes up for a first block that is too small.
     */
    method Puts(str: Option<seq<Byte>>) returns (n: nat)
      requires Valid()
      modifies this, data
      ensures Valid() && blockSize == old(blockSize) && (data == old(data) || fresh(data))
      ensures str == None ==> n == 0 && Contents() == old(Contents()) && capacity == old(capacity)
      ensures str.Some? ==>
        && n == (if str.value == [] then 0 else |str.value| + 1)
        && Contents() == M.Puts(old(Contents()), str.value)
        && capacity == M.GrownByPuts(old(capacity), blockSize, old(Contents()), str.value)
    {
      hide M.Write, M.Grown;
      if str == None {
        return 0;
      }
      var len := |str.value|;
      if len == 0 {
        return 0;
      }
      M.GrownTwice(capacity, blockSize, pos + len + 1);
      EnsureCapacity(pos, len + 1);
      var p := pos;
      if p > 0 && data[p - 1] == 0 {
        p := p - 1;
        if size > 0 {
          size := size - 1;
        }
      }
      pos := p;
      assert Contents() == M.DropNul(old(Contents()));
      var written := Write(str.value + [0]);
      n := written.value;
    }
  }

  /** Any series of puts into a fresh buffer, whatever its block size, stores the concatenation and one NUL. */
  method PutSeries(strs: seq<seq<Byte>>, initialSize: nat, blockSize: nat) returns (buf: TecBuffer)
    ensures fresh(buf) && buf.Valid() && buf.Contents() == M.Holding(M.Concat(strs))
  {
    buf := new TecBuffer(initialSize, blockSize);
    for i := 0 to |strs|
      invariant fresh(buf) && buf.Valid() && (buf.data == null || fresh(buf.data))
      invariant buf.Contents() == M.PutAll(M.EMPTY, strs[..i])
    {
      assert strs[..i + 1][..i] == strs[..i];
      var n := buf.Puts(Some(strs[i]));
    }
    assert strs[..|strs|] == strs;
    M.PutsConcatenate(strs);
  }
}
