/** The arithmetic of `Cmd.Tail` (cmd/main.go:118-135): which part of the
    capture file a tail read returns.

    The capture file is a byte sequence and the write offset an integer; a
    read copies whatever bytes exist from the window's start into a fixed
    buffer of `WindowSize` zero bytes, so bytes past the end of the file stay
    zero. */
module LogTail {

  type byte = bv8

  /** Length of the buffer `Tail` allocates. */
  const WindowSize: nat := 4096

  /** First byte of the window: the offset minus the window size, clamped at 0. */
  function WindowStart(offset: int): (start: nat)
    ensures offset <= WindowSize ==> start == 0
    ensures offset > WindowSize ==> start + WindowSize == offset
  {
    var start := offset - WindowSize;
    if start <= 0 then 0 else start
  }

  /** The byte a positioned read sees at `pos`: the file's byte, or the
      untouched zero of the buffer past the end of the file. */
  function ByteAt(file: seq<byte>, pos: nat): byte
  {
    if pos < |file| then file[pos] else 0
  }

  function Zeros(n: nat): (z: seq<byte>)
    ensures |z| == n && forall i :: 0 <= i < n ==> z[i] == 0
  {
    seq(n, _ => 0)
  }

  /** The buffer a successful tail read returns: the bytes that exist in
      `[start, start + WindowSize)`, followed by zero padding. */
  function Window(file: seq<byte>, offset: int): (r: seq<byte>)
    ensures |r| == WindowSize
    ensures forall i :: 0 <= i < WindowSize ==> r[i] == ByteAt(file, WindowStart(offset) + i)
  {
    var start := WindowStart(offset);
    var avail := if start < |file| then file[start..if start + WindowSize <= |file| then start + WindowSize else |file|] else [];
    avail + Zeros(WindowSize - |avail|)
  }

  /** Every byte written before the offset that lies in the window is in the
      buffer: the buffer begins with `file[start..offset]`, which is the last
      `min(offset, WindowSize)` bytes written. */
  lemma WindowHoldsLatest(file: seq<byte>, offset: int)
    requires 0 < offset <= |file|
    ensures var start := WindowStart(offset);
            && offset - start == (if offset < WindowSize then offset else WindowSize)
            && Window(file, offset)[..offset - start] == file[start..offset]
  {
  }

  /** Once at least a window's worth has been written and the file ends at the
      offset, the buffer is exactly the file's last `WindowSize` bytes. */
  lemma FullWindowIsSuffix(file: seq<byte>)
    requires |file| >= WindowSize
    ensures Window(file, |file|) == file[|file| - WindowSize..]
  {
  }

  /** Before a window's worth has been written, the buffer is the whole file
      followed by zeros. */
  lemma ShortFileIsPadded(file: seq<byte>)
    requires |file| < WindowSize
    ensures Window(file, |file|) == file + Zeros(WindowSize - |file|)
  {
  }

  /** Go's `string(b)` keeps every byte: here each byte becomes the character
      with the same code. */
  function BytesText(b: seq<byte>): (s: string)
    ensures |s| == |b| && forall i :: 0 <= i < |b| ==> s[i] as int == b[i] as int
  {
    seq(|b|, i requires 0 <= i < |b| => (b[i] as int) as char)
  }
}
