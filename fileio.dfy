/**
 * The file adapter the driver hands to the library (the readAt and size
 * callbacks of EAS_FILE): Read seeks to an offset and reads, Size seeks to
 * the end and reports the position.  A FILE is modelled as its bytes, whether
 * it can seek at all (a pipe cannot), and a current position.
 */
module FileIo {

  type Byte = b: int | 0 <= b < 256

  /** A C `int`. */
  type Int32 = x: int | -0x8000_0000 <= x < 0x8000_0000

  /**
   * The conversion of a wider integer to a C `int` on a two's-complement
   * target: the value modulo 2^32, read as signed.
   */
  function ToInt32(x: int): (r: Int32)
    ensures (r - x) % 0x1_0000_0000 == 0
    ensures -0x8000_0000 <= x < 0x8000_0000 ==> r == x
  {
    (x + 0x8000_0000) % 0x1_0000_0000 - 0x8000_0000
  }

  datatype Whence = SeekSet | SeekEnd

  /** The number of bytes fread can deliver from `position` when asked for `count`. */
  function Available(length: nat, position: nat, count: nat): (n: nat)
    ensures n <= count
    ensures position + n <= length || n == 0
    ensures n < count ==> position + n >= length
  {
    if position >= length then 0
    else if count <= length - position then count
    else length - position
  }

  class HostFile {
    const contents: seq<Byte>
    const seekable: bool
    var position: nat

    constructor (contents: seq<Byte>, seekable: bool)
      ensures this.contents == contents && this.seekable == seekable && position == 0
    {
      this.contents := contents;
      this.seekable := seekable;
      position := 0;
    }

    /**
     * fseek: moves to `offset` from the start or from the end and returns 0,
     * or returns -1 and stays put when the stream cannot seek or the target
     * lies before the start of the file.
     */
    method Seek(offset: int, whence: Whence) returns (ret: int)
      modifies this
      ensures var target := if whence == SeekSet then offset else |contents| + offset;
        if seekable && 0 <= target then ret == 0 && position == target
        else ret == -1 && position == old(position)
    {
      var target := if whence == SeekSet then offset else |contents| + offset;
      if seekable && 0 <= target {
        position := target;
        ret := 0;
      } else {
        ret := -1;
      }
    }

    /** ftell. */
    method Tell() returns (p: int)
      ensures p == position
    {
      p := position;
    }

    /** fread(buf, 1, count, file): copies what is there from the position and moves past it. */
    method ReadInto(buf: array<Byte>, count: nat) returns (n: nat)
      requires count <= buf.Length
      modifies this, buf
      ensures n == Available(|contents|, old(position), count)
      ensures old(position) + n <= |contents| || n == 0
      ensures n > 0 ==> buf[..n] == contents[old(position)..old(position) + n]
      ensures buf[n..] == old(buf[n..])
      ensures position == old(position) + n
    {
      n := 0;
      while n < count && position + n < |contents|
        invariant n <= count
        invariant position == old(position)
        invariant position + n <= |contents| || n == 0
        invariant n > 0 ==> buf[..n] == contents[position..position + n]
        invariant buf[n..] == old(buf[n..])
        decreases count - n
      {
        buf[n] := contents[position + n];
        n := n + 1;
      }
      position := position + n;
    }
  }

  /**
   * The readAt callback: 0 when the seek to `offset` fails, otherwise the
   * number of bytes read there, at most `size`, with those bytes in buf.
   */
  method Read(file: HostFile, buf: array<Byte>, offset: Int32, size: Int32) returns (n: int)
    requires 0 <= size <= buf.Length
    modifies file, buf
    ensures if file.seekable && 0 <= offset then
        && n == Available(|file.contents|, offset, size)
        && (n > 0 ==> buf[..n] == file.contents[offset..offset + n])
        && buf[n..] == old(buf[n..])
        && file.position == offset + n
      else
        n == 0 && buf[..] == old(buf[..]) && file.position == old(file.position)
  {
    var ret := file.Seek(offset, SeekSet);
    if ret < 0 {
      return 0;
    }
    n := file.ReadInto(buf, size);
  }

  /**
   * The size callback: the negative result of a failed seek to the end, or
   * else the position there, the length of the file, cut to a C `int`.
   */
  method Size(file: HostFile) returns (r: int)
    modifies file
    ensures if file.seekable then r == ToInt32(|file.contents|) && file.position == |file.contents|
      else r == -1 && file.position == old(file.position)
  {
    var ret := file.Seek(0, SeekEnd);
    if ret < 0 {
      return ret;
    }
    var p := file.Tell();
    r := ToInt32(p);
  }
}
