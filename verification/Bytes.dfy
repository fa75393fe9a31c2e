/** Bytes and 16-bit words as they lie on the wire. */
module Bytes {

  type byte = x: int | 0 <= x < 0x100
  type u16 = x: int | 0 <= x < 0x1_0000

  datatype Option<+T> = None | Some(value: T)

  function Min(a: int, b: int): int { if a <= b then a else b }

  function Max(a: int, b: int): int { if a <= b then b else a }

  /** The conversion to uint16_t: whatever does not fit is cut off. */
  function ToU16(x: nat): u16 { x % 0x1_0000 }

  /** A uint16_t stored least significant byte first. */
  function Le16(x: u16): (b: seq<byte>)
    ensures |b| == 2
  {
    [x % 0x100, x / 0x100]
  }

  /** The uint16_t read back from offset `off`. */
  function Word(b: seq<byte>, off: nat): u16
    requires off + 2 <= |b|
  {
    b[off] as int + 0x100 * (b[off + 1] as int)
  }

  /** Storing and reading a word undo each other, wherever the word lies. */
  lemma WordOfLe16(before: seq<byte>, x: u16, after: seq<byte>)
    ensures Word(before + Le16(x) + after, |before|) == x
  {
    var s := before + Le16(x) + after;
    assert s[|before|] == x % 0x100;
    assert s[|before| + 1] == x / 0x100;
  }

  /** The first byte is the low one. */
  lemma LeastByteFirst(b: seq<byte>, off: nat)
    requires off + 2 <= |b|
    ensures Word(b, off) % 0x100 == b[off] && Word(b, off) / 0x100 == b[off + 1]
  {
  }

  function Concat<T>(parts: seq<seq<T>>): seq<T> {
    if parts == [] then [] else parts[0] + Concat(parts[1..])
  }

  lemma {:induction false} ConcatAppend<T>(parts: seq<seq<T>>, last: seq<T>)
    ensures Concat(parts + [last]) == Concat(parts) + last
  {
    if parts == [] {
      assert parts + [last] == [last];
      assert Concat([last]) == last + Concat([]);
    } else {
      ConcatAppend(parts[1..], last);
      assert (parts + [last])[1..] == parts[1..] + [last];
    }
  }

  /** memcpy into a buffer. */
  method CopyInto(buf: array<byte>, off: nat, bytes: seq<byte>)
    requires off + |bytes| <= buf.Length
    modifies buf
    ensures buf[..off + |bytes|] == old(buf[..off]) + bytes
    ensures buf[off + |bytes|..] == old(buf[off + |bytes|..])
  {
    var i := 0;
    while i < |bytes|
      invariant 0 <= i <= |bytes|
      invariant buf[..off + i] == old(buf[..off]) + bytes[..i]
      invariant buf[off + i..] == old(buf[off + i..])
    {
      buf[off + i] := bytes[i];
      i := i + 1;
      assert buf[..off + i] == buf[..off + i - 1] + [bytes[i - 1]];
      assert bytes[..i] == bytes[..i - 1] + [bytes[i - 1]];
      assert buf[off + i..] == buf[off + i - 1..][1..];
    }
    assert bytes[..i] == bytes;
  }
}
