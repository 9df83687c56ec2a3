/** The file-object wrappers around an object store's streaming body
    (`WrappedStreamingBody` and `WrappedStreamingBodyPartition` in
    `pywren_ibm_cloud/utils.py`). The wrapped body is modelled as the object's bytes and
    a read cursor; the wrappers keep their own position `pos`, which `seek` moves
    without touching the wrapped body. */
module Streams {
  import opened Wrappers
  import opened PyStr

  const Newline: byte := 10

  /** Why a wrapper call raised: `EOFError`, or the `Exception("Unsupported")` of `seek`. */
  datatype StreamError = EndOfStream | Unsupported

  // ---------------------------------------------------------------------------
  // The wrapped streaming body

  /** `body.read(n)` at `cursor`: the next `n` bytes, or all that remain when `n` is
      `None` or more than remain. */
  function ReadAt(data: seq<byte>, cursor: nat, n: Option<nat>): (r: seq<byte>)
    requires cursor <= |data|
    ensures cursor + |r| <= |data| && r == data[cursor..cursor + |r|]
    ensures n.None? ==> cursor + |r| == |data|
    ensures n.Some? ==> |r| == Min(n.value, |data| - cursor)
  {
    if n.None? || cursor + n.value > |data| then data[cursor..] else data[cursor..cursor + n.value]
  }

  /** The length of the first line of `s`: up to and including its first newline, or
      all of `s` when it has none (what `readline()` returns and `tell()` then reports). */
  function LineLength(s: seq<byte>): (r: nat)
    ensures r <= |s|
    ensures forall i :: 0 <= i < r - 1 ==> s[i] != Newline
    ensures r < |s| ==> 0 < r && s[r - 1] == Newline
    ensures r == |s| && 0 < r ==> s[r - 1] == Newline || Newline !in s
  {
    match Find(s, [Newline])
    case Some(k) =>
      forall i | 0 <= i < k ensures s[i] != Newline {
        OccursAtChar(s, Newline, i);
      }
      OccursAtChar(s, Newline, k);
      k + 1
    case None =>
      forall i | 0 <= i < |s| ensures s[i] != Newline {
        OccursAtChar(s, Newline, i);
      }
      |s|
  }

  /** `body.readline()` at `cursor`. */
  function ReadLineAt(data: seq<byte>, cursor: nat): (r: seq<byte>)
    requires cursor <= |data|
    ensures cursor + |r| <= |data| && r == data[cursor..cursor + |r|]
    ensures forall i :: 0 <= i < |r| - 1 ==> r[i] != Newline
    ensures cursor + |r| < |data| ==> 0 < |r| && r[|r| - 1] == Newline
  {
    data[cursor..cursor + LineLength(data[cursor..])]
  }

  /** Lines 274-292, `seek(offset, whence)`: the position it moves to, or the error it
      raises. Whence 2 only accepts offset 0 and moves to the end; whence 1 is relative
      to `pos` and stops at the end; any other whence (the default 0 included) stays at
      `pos`. */
  function SeekTarget(pos: int, size: nat, offset: int, whence: int): (r: Result<int, StreamError>)
    ensures r.Err? <==> whence == 2 && offset != 0
    ensures r.Err? ==> r.error == Unsupported
    ensures whence == 2 && offset == 0 ==> r == Ok(size)
    ensures whence == 1 ==> r == Ok(Min(pos + offset, size)) && r.value <= size
    ensures whence != 1 && whence != 2 ==> r == Ok(pos)
  {
    if whence == 2 then
      if offset == 0 then Ok(size) else Err(Unsupported)
    else if whence == 1 then
      var target := pos + offset;
      if target > size then Ok(size) else Ok(target)
    else Ok(pos)
  }

  /** Lines 239-292. */
  class WrappedStreamingBody {
    /** The wrapped body: the object's bytes and how far it has been read. */
    const data: seq<byte>
    var cursor: nat
    /** The position the wrapper reports, and the object size it was given. */
    var pos: int
    const size: nat

    ghost predicate Valid()
      reads this
    {
      cursor <= |data|
    }

    constructor (data: seq<byte>, size: nat)
      ensures Valid() && this.data == data && this.size == size
      ensures cursor == 0 && pos == 0
    {
      this.data := data;
      this.size := size;
      cursor := 0;
      pos := 0;
    }

    /** Lines 259-264, `read(n)`: read from the body and advance `pos` by what was read.
        The emptiness test at line 261 compares the bytes read with a `str`, which is
        never equal, so reading at the end returns an empty chunk instead of raising. */
    method Read(n: Option<nat>) returns (r: seq<byte>)
      requires Valid()
      modifies this
      ensures Valid()
      ensures r == ReadAt(data, old(cursor), n)
      ensures cursor == old(cursor) + |r| && pos == old(pos) + |r|
    {
      r := ReadAt(data, cursor, n);
      cursor := cursor + |r|;
      pos := pos + |r|;
    }

    /** Lines 266-272, `readline()`: read one line and advance `pos` by its length. */
    method ReadLine() returns (r: seq<byte>)
      requires Valid()
      modifies this
      ensures Valid()
      ensures r == ReadLineAt(data, old(cursor))
      ensures cursor == old(cursor) + |r| && pos == old(pos) + |r|
    {
      r := ReadLineAt(data, cursor);
      cursor := cursor + |r|;
      pos := pos + |r|;
    }

    /** Lines 274-292, `seek(offset, whence)`: move `pos` (and only `pos`). */
    method Seek(offset: int, whence: int) returns (r: Result<int, StreamError>)
      modifies this
      ensures r == SeekTarget(old(pos), size, offset, whence)
      ensures pos == (if r.Ok? then r.value else old(pos))
      ensures cursor == old(cursor)
    {
      r := SeekTarget(pos, size, offset, whence);
      if r.Ok? {
        pos := r.value;
      }
    }
  }

  // ---------------------------------------------------------------------------
  // The partition wrapper

  /** Line 321: a partition that does not start the object carries one extra leading
      byte, the last byte of the partition before it. */
  function PlusBytes(range: Option<(int, int)>): (p: nat)
    ensures p <= 1
    ensures p == 0 <==> range.None? || range.value.0 == 0
  {
    if range.None? || range.value.0 == 0 then 0 else 1
  }

  /** Python's `s[i:j]` for a start `i >= 0` and any stop `j` (a negative stop counts
      from the end). */
  function SliceTo(s: seq<byte>, i: nat, j: int): (r: seq<byte>)
    ensures 0 <= j ==> r == Slice(s, i, j)
    ensures j < 0 ==> r == Slice(s, i, Max(0, |s| + j))
  {
    if j < 0 then Slice(s, i, Max(0, |s| + j)) else Slice(s, i, j)
  }

  /** Lines 340-345: where the rows kept from `chunk` start. When the leading byte read
      before it is not a newline the first row is cut, and everything up to and
      including the first newline is dropped (`find` returning -1 keeps everything). */
  function FirstRowStart(chunk: seq<byte>, lead: seq<byte>, plusbytes: nat): nat {
    if lead != [Newline] && plusbytes != 0 then
      match Find(chunk, [Newline])
      case Some(k) => k + 1
      case None => 0
    else 0
  }

  /** Lines 347-353: where the rows kept from `chunk` end. Once `pos` passes `size`, the
      end is just after the first newline at or after index `size` of `chunk`. */
  function LastRowEnd(chunk: seq<byte>, pos: int, size: nat): int {
    if pos > size then size + LineLength(Slice(chunk, size, |chunk|)) else pos
  }

  /** Line 355: the rows `read` returns from `chunk`. */
  function KeptRows(chunk: seq<byte>, lead: seq<byte>, plusbytes: nat, pos: int, size: nat): seq<byte> {
    SliceTo(chunk, FirstRowStart(chunk, lead, plusbytes), LastRowEnd(chunk, pos, size))
  }

  /** Lines 314-355. */
  class WrappedStreamingBodyPartition {
    const data: seq<byte>
    var cursor: nat
    var pos: int
    const size: nat
    const range: Option<(int, int)>
    const plusbytes: nat
    /** The leading byte read before the last chunk (`None` until the first read). */
    var firstByte: Option<seq<byte>>
    var eof: bool

    ghost predicate Valid()
      reads this
    {
      cursor <= |data|
    }

    /** Lines 316-325. */
    constructor (data: seq<byte>, size: nat, range: Option<(int, int)>)
      ensures Valid() && this.data == data && this.size == size && this.range == range
      ensures plusbytes == PlusBytes(range)
      ensures cursor == 0 && pos == 0 && firstByte.None? && !eof
    {
      this.data := data;
      this.size := size;
      this.range := range;
      plusbytes := PlusBytes(range);
      cursor := 0;
      pos := 0;
      firstByte := None;
      eof := false;
    }

    /** Lines 327-355, `read(n)`: after the end has been reached, raise; otherwise read
        the leading byte(s) and then a chunk, advance `pos` by the chunk, and return the
        rows of the chunk that belong to this partition, setting `eof` once `pos` has
        passed `size`. As at line 261, an empty chunk does not raise. */
    method Read(n: Option<nat>) returns (r: Result<seq<byte>, StreamError>)
      requires Valid()
      modifies this
      ensures Valid()
      ensures old(eof) ==> r == Err(EndOfStream) && eof && cursor == old(cursor) &&
                           pos == old(pos) && firstByte == old(firstByte)
      ensures !old(eof) ==>
                var lead := ReadAt(data, old(cursor), Some(plusbytes));
                var chunk := ReadAt(data, old(cursor) + |lead|, n);
                firstByte == Some(lead) &&
                cursor == old(cursor) + |lead| + |chunk| &&
                pos == old(pos) + |chunk| &&
                eof == (pos > size) &&
                r == Ok(KeptRows(chunk, lead, plusbytes, pos, size))
    {
      if eof {
        return Err(EndOfStream);
      }
      var lead := ReadAt(data, cursor, Some(plusbytes));
      firstByte := Some(lead);
      cursor := cursor + |lead|;
      var chunk := ReadAt(data, cursor, n);
      cursor := cursor + |chunk|;
      pos := pos + |chunk|;
      if pos > size {
        eof := true;
      }
      r := Ok(KeptRows(chunk, lead, plusbytes, pos, size));
    }

    /** The inherited `seek` (lines 274-292). */
    method Seek(offset: int, whence: int) returns (r: Result<int, StreamError>)
      modifies this
      ensures r == SeekTarget(old(pos), size, offset, whence)
      ensures pos == (if r.Ok? then r.value else old(pos))
      ensures cursor == old(cursor) && eof == old(eof) && firstByte == old(firstByte)
    {
      r := SeekTarget(pos, size, offset, whence);
      if r.Ok? {
        pos := r.value;
      }
    }
  }

  // ---------------------------------------------------------------------------
  // What a partition read keeps

  /** The rows kept start at the front of the chunk when there is no leading byte or
      it is a newline; otherwise they start just after the chunk's first newline (or at
      the front when it has none). */
  lemma FirstRowKept(chunk: seq<byte>, lead: seq<byte>, plusbytes: nat)
    ensures plusbytes == 0 || lead == [Newline] ==> FirstRowStart(chunk, lead, plusbytes) == 0
    ensures plusbytes != 0 && lead != [Newline] && Newline !in chunk ==>
              FirstRowStart(chunk, lead, plusbytes) == 0
    ensures plusbytes != 0 && lead != [Newline] && Newline in chunk ==>
              var s := FirstRowStart(chunk, lead, plusbytes);
              0 < s <= |chunk| && chunk[s - 1] == Newline &&
              forall i :: 0 <= i < s - 1 ==> chunk[i] != Newline
  {
    if plusbytes != 0 && lead != [Newline] {
      match Find(chunk, [Newline])
      case Some(k) =>
        OccursAtChar(chunk, Newline, k);
        forall i | 0 <= i < k ensures chunk[i] != Newline {
          OccursAtChar(chunk, Newline, i);
        }
      case None =>
        if Newline in chunk {
          var j :| 0 <= j < |chunk| && chunk[j] == Newline;
          OccursAtChar(chunk, Newline, j);
        }
    }
  }

  /** A single read of a whole partition (from position 0) that passes `size` keeps rows
      up to just after the first newline at or after index `size`, or to the end of the
      chunk when there is none: the row that straddles `size` is finished, and nothing
      after it is kept. */
  lemma LastRowFinished(chunk: seq<byte>, size: nat)
    requires size < |chunk|
    ensures var e := LastRowEnd(chunk, |chunk|, size);
            size < e <= |chunk| &&
            (forall i :: size <= i < e - 1 ==> chunk[i] != Newline) &&
            (e < |chunk| ==> chunk[e - 1] == Newline)
  {
    var tail := Slice(chunk, size, |chunk|);
    assert tail == chunk[size..];
    var len := LineLength(tail);
    forall i | size <= i < size + len - 1 ensures chunk[i] != Newline {
      assert tail[i - size] == chunk[i];
    }
    if size + len < |chunk| {
      assert tail[len - 1] == chunk[size + len - 1];
    }
  }

  /** A read that stays within `size` keeps rows up to the end of the chunk. */
  lemma WithinSizeKeepsAll(chunk: seq<byte>, lead: seq<byte>, plusbytes: nat, size: nat)
    requires |chunk| <= size
    ensures KeptRows(chunk, lead, plusbytes, |chunk|, size) ==
            chunk[FirstRowStart(chunk, lead, plusbytes)..]
  {
    FirstRowKept(chunk, lead, plusbytes);
  }
}
