/** Byte-level building blocks shared by the parameter-file codec, the WAV
    writer, the audio stream encoder and the TGA reader: little-endian
    integer encodings as Go's encoding/binary writes them, Go's float-to-int
    truncation, and a file modelled as a byte sequence with a cursor. */
module Bytes {

  datatype Option<T> = None | Some(value: T)

  type byte = x: int | 0 <= x < 0x100
  type u16 = x: int | 0 <= x < 0x1_0000
  type u32 = x: int | 0 <= x < 0x1_0000_0000

  /** The ASCII bytes of a four-character chunk tag such as "RIFF". */
  function Tag(s: string): (r: seq<byte>)
    requires |s| == 4 && forall i :: 0 <= i < 4 ==> s[i] as int < 0x100
    ensures |r| == 4 && forall i :: 0 <= i < 4 ==> r[i] == s[i] as int
  {
    [s[0] as int, s[1] as int, s[2] as int, s[3] as int]
  }

  // ---------------------------------------------------------------------
  // Little-endian unsigned and two's-complement integers

  function U16LE(x: u16): (r: seq<byte>)
    ensures |r| == 2
  {
    [x % 0x100, x / 0x100]
  }

  function U32LE(x: u32): (r: seq<byte>)
    ensures |r| == 4
  {
    [x % 0x100, (x / 0x100) % 0x100, (x / 0x1_0000) % 0x100, x / 0x100_0000]
  }

  function ReadU16LE(s: seq<byte>, off: nat): u16
    requires off + 2 <= |s|
  {
    s[off] as int + 0x100 * (s[off + 1] as int)
  }

  function ReadU32LE(s: seq<byte>, off: nat): u32
    requires off + 4 <= |s|
  {
    s[off] as int + 0x100 * (s[off + 1] as int) + 0x1_0000 * (s[off + 2] as int) + 0x100_0000 * (s[off + 3] as int)
  }

  /** Go's int32(x): the value of x wrapped into [-2^31, 2^31). */
  function Wrap32(x: int): (r: int)
    ensures -0x8000_0000 <= r < 0x8000_0000
    ensures (r - x) % 0x1_0000_0000 == 0
    ensures -0x8000_0000 <= x < 0x8000_0000 ==> r == x
  {
    (x + 0x8000_0000) % 0x1_0000_0000 - 0x8000_0000
  }

  /** binary.Write of int32(x): the two's-complement bit pattern, little-endian. */
  function I32LE(x: int): (r: seq<byte>)
    ensures |r| == 4
  {
    U32LE(x % 0x1_0000_0000)
  }

  /** binary.Read into an int32. */
  function ReadI32LE(s: seq<byte>, off: nat): (r: int)
    requires off + 4 <= |s|
    ensures -0x8000_0000 <= r < 0x8000_0000
  {
    var u := ReadU32LE(s, off);
    if u >= 0x8000_0000 then u - 0x1_0000_0000 else u
  }

  /** binary.Write of an int16: its two's-complement bit pattern, little-endian. */
  function I16LE(x: int): (r: seq<byte>)
    ensures |r| == 2
  {
    U16LE(x % 0x1_0000)
  }

  /** Reads back a little-endian two's-complement int16. */
  function ReadI16LE(s: seq<byte>, off: nat): (r: int)
    requires off + 2 <= |s|
    ensures -0x8000 <= r < 0x8000
  {
    var u := ReadU16LE(s, off);
    if u >= 0x8000 then u - 0x1_0000 else u
  }

  lemma I16RoundTrip(x: int)
    requires -0x8000 <= x < 0x8000
    ensures ReadI16LE(I16LE(x), 0) == x
  {
  }

  lemma U16RoundTrip(x: u16)
    ensures ReadU16LE(U16LE(x), 0) == x
  {
  }

  lemma {:induction false} U32RoundTrip(x: u32)
    ensures ReadU32LE(U32LE(x), 0) == x
  {
    var b := U32LE(x);
    var q1 := x / 0x100;
    var q2 := x / 0x1_0000;
    assert x == b[0] as int + 0x100 * q1;
    assert q1 == b[1] as int + 0x100 * q2 by {
      assert q2 == q1 / 0x100;
    }
    assert q2 == b[2] as int + 0x100 * (b[3] as int) by {
      assert b[3] == q2 / 0x100;
    }
  }

  /** Reading an int32 back from its encoding gives Go's int32(x). */
  lemma I32RoundTrip(x: int)
    ensures ReadI32LE(I32LE(x), 0) == Wrap32(x)
  {
    U32RoundTrip(x % 0x1_0000_0000);
  }

  /** Decoding the bytes at an offset and encoding them again gives the same bytes. */
  lemma {:induction false} U32ReadWrite(s: seq<byte>, off: nat)
    requires off + 4 <= |s|
    ensures U32LE(ReadU32LE(s, off)) == s[off..off + 4]
  {
    var x := ReadU32LE(s, off);
    var r := U32LE(x);
    assert x / 0x100 == s[off + 1] as int + 0x100 * (s[off + 2] as int) + 0x1_0000 * (s[off + 3] as int);
    assert x / 0x1_0000 == s[off + 2] as int + 0x100 * (s[off + 3] as int);
    assert r == [s[off], s[off + 1], s[off + 2], s[off + 3]];
  }

  // ---------------------------------------------------------------------
  // Go's conversion of a float to an integer type truncates toward zero.

  function Trunc(x: real): (r: int)
    ensures 0.0 <= x ==> 0 <= r && r as real <= x < r as real + 1.0
    ensures x < 0.0 ==> r <= 0 && r as real - 1.0 < x <= r as real
  {
    if x >= 0.0 then x.Floor else -((-x).Floor)
  }

  /** Truncation is monotone. */
  lemma TruncMonotone(x: real, y: real)
    requires x <= y
    ensures Trunc(x) <= Trunc(y)
  {
  }

  // ---------------------------------------------------------------------
  // A file as a byte sequence with a read/write offset (an os.File).

  function Zeros(n: nat): (r: seq<byte>)
    ensures |r| == n && forall i :: 0 <= i < n ==> r[i] == 0
  {
    seq(n, _ => 0)
  }

  /** The contents after storing one byte at offset pos: a gap past the end
      reads as zeros. */
  function Put(c: seq<byte>, pos: nat, x: byte): (r: seq<byte>)
    ensures |r| == (if pos < |c| then |c| else pos + 1)
  {
    if pos < |c| then c[pos := x] else c + Zeros(pos - |c|) + [x]
  }

  /** The contents after writing b at offset pos, byte by byte. */
  function WriteAt(c: seq<byte>, pos: nat, b: seq<byte>): (r: seq<byte>)
    ensures |r| == (if b == [] || pos + |b| < |c| then |c| else pos + |b|)
    decreases |b|
  {
    if b == [] then c else WriteAt(Put(c, pos, b[0]), pos + 1, b[1..])
  }

  /** The byte a write leaves at each offset. */
  function Written(c: seq<byte>, pos: nat, b: seq<byte>, i: nat): byte
  {
    if pos <= i < pos + |b| then b[i - pos]
    else if i < |c| then c[i]
    else 0
  }

  /** A write, offset by offset: the file grows to the end of the write if
      it was shorter, b replaces what was at pos, every other byte is kept,
      and a gap past the old end reads as zeros. */
  lemma {:induction false} WriteAtPointwise(c: seq<byte>, pos: nat, b: seq<byte>)
    ensures forall i :: 0 <= i < |WriteAt(c, pos, b)| ==> WriteAt(c, pos, b)[i] == Written(c, pos, b, i)
    decreases |b|
  {
    if b != [] {
      var c1 := Put(c, pos, b[0]);
      WriteAtPointwise(c1, pos + 1, b[1..]);
      var r := WriteAt(c, pos, b);
      forall i | 0 <= i < |r|
        ensures r[i] == Written(c, pos, b, i)
      {
        assert r[i] == Written(c1, pos + 1, b[1..], i);
        if i == pos {
          assert c1[i] == b[0];
        } else if i < pos {
          assert c1[i] == if i < |c| then c[i] else 0;
        } else if i >= pos + |b| && i < |c| {
          assert c1[i] == c[i];
        }
      }
    }
  }

  lemma AppendAssoc(a: seq<byte>, b: seq<byte>, c: seq<byte>)
    ensures a + (b + c) == (a + b) + c
  {
  }

  /** Writing at the end of the contents appends. */
  lemma WriteAtEnd(c: seq<byte>, b: seq<byte>)
    ensures WriteAt(c, |c|, b) == c + b
  {
    WriteAtPointwise(c, |c|, b);
    var r := WriteAt(c, |c|, b);
    assert forall i :: 0 <= i < |r| ==> r[i] == (c + b)[i];
  }

  /** Two consecutive writes are one write of their concatenation. */
  lemma WriteAtTwice(c: seq<byte>, pos: nat, a: seq<byte>, b: seq<byte>)
    ensures WriteAt(WriteAt(c, pos, a), pos + |a|, b) == WriteAt(c, pos, a + b)
  {
    if a == [] {
      assert a + b == b;
    } else if b == [] {
      assert a + b == a;
    } else {
      var c1 := WriteAt(c, pos, a);
      WriteAtPointwise(c, pos, a);
      WriteAtPointwise(c1, pos + |a|, b);
      WriteAtPointwise(c, pos, a + b);
      var r := WriteAt(c1, pos + |a|, b);
      var t := WriteAt(c, pos, a + b);
      assert |r| == |t|;
      forall i | 0 <= i < |r|
        ensures r[i] == t[i]
      {
        assert r[i] == Written(c1, pos + |a|, b, i);
        assert t[i] == Written(c, pos, a + b, i);
      }
    }
  }

  /** Overwriting a field with one of the same length leaves what surrounds
      it alone. */
  lemma WriteOver(a: seq<byte>, x: seq<byte>, b: seq<byte>, y: seq<byte>)
    requires |x| == |y|
    ensures WriteAt(a + x + b, |a|, y) == a + y + b
  {
    WriteAtPointwise(a + x + b, |a|, y);
    var r := WriteAt(a + x + b, |a|, y);
    assert forall i :: 0 <= i < |r| ==> r[i] == (a + y + b)[i];
  }

  class ByteFile {
    var contents: seq<byte>
    var pos: nat

    /** os.Create: a new, empty file. */
    constructor ()
      ensures contents == [] && pos == 0
    {
      contents := [];
      pos := 0;
    }

    /** Write: b lands at the current offset, which then moves past it. */
    method Write(b: seq<byte>)
      modifies this
      ensures old(pos) == |old(contents)| ==> contents == old(contents) + b
      ensures old(pos) != |old(contents)| ==> contents == WriteAt(old(contents), old(pos), b)
      ensures pos == old(pos) + |b|
    {
      if pos == |contents| {
        WriteAtEnd(contents, b);
      }
      contents := WriteAt(contents, pos, b);
      pos := pos + |b|;
    }

    /** Write at the end of the file, where a file that is only written
        to always is: the bytes are appended. */
    method Append(b: seq<byte>)
      requires pos == |contents|
      modifies this
      ensures contents == old(contents) + b && pos == |contents|
    {
      Write(b);
    }

    /** io.ReadFull of n bytes, as binary.Read does it: either all n bytes,
        or, when fewer remain, an error and the offset left at the end of
        the file (a read at or past the end moves nothing). */
    method Read(n: nat) returns (r: Option<seq<byte>>)
      modifies this`pos
      ensures old(pos) + n <= |contents| ==>
        r == Some(contents[old(pos)..old(pos) + n]) && pos == old(pos) + n
      ensures old(pos) + n > |contents| ==>
        r == None && pos == (if old(pos) < |contents| then |contents| else old(pos))
    {
      if pos + n <= |contents| {
        r := Some(contents[pos..pos + n]);
        pos := pos + n;
      } else {
        r := None;
        if pos < |contents| {
          pos := |contents|;
        }
      }
    }

    /** Seek(0, 1): the current offset. */
    method Tell() returns (r: nat)
      ensures r == pos
    {
      r := pos;
    }

    /** Seek(offset, 0): move to an offset from the start of the file. */
    method Seek(offset: nat) returns (r: nat)
      modifies this`pos
      ensures pos == offset && r == offset
    {
      pos := offset;
      r := offset;
    }
  }
}
