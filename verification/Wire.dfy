/** What frames are written with and read from: packages/protocol/src/bytes.ts. */
module Wire {
  import opened Common

  /**
   * UTF-8 as the platform does it, fatal on what is not: texts and their bytes name each other
   * (section 3 of RFC 3629).
   */
  datatype Utf8 = Utf8(encode: string -> bytes, decode: bytes -> Option<string>)

  ghost predicate IsUtf8(u: Utf8)
  {
    && (forall s :: u.decode(u.encode(s)) == Some(s))
    && (forall b {:trigger u.decode(b)} :: u.decode(b).Some? ==> u.encode(u.decode(b).value) == b)
  }

  const MAX_TEXT_BYTES: nat := 255
  const TWO_32: nat := 0x1_0000_0000

  /** The lowest octet of a number. */
  function Octet(v: nat): byte { v % 256 }

  function U8(v: nat): bytes { [Octet(v)] }

  /** Four octets, the highest first; a larger number wraps. */
  function U32(v: nat): bytes
  {
    [Octet(v / 0x100_0000), Octet(v / 0x1_0000), Octet(v / 0x100), Octet(v)]
  }

  /** The number four octets spell. */
  function Spelled(a: int, b: int, c: int, d: int): nat
    requires a >= 0 && b >= 0 && c >= 0 && d >= 0
  {
    a * 0x100_0000 + b * 0x1_0000 + c * 0x100 + d
  }

  /** Its length, then the bytes. */
  function Block(b: bytes): bytes { U32(|b|) + b }

  /** A text longer than its length byte can say is refused. */
  function Text(u: Utf8, s: string): Option<bytes>
  {
    var b := u.encode(s);
    if |b| > MAX_TEXT_BYTES then None else Some(U8(|b|) + b)
  }

  /** What was read and what is left, or a truncated or malformed frame. */
  datatype Got<T> = Got(value: T, rest: bytes) | Short

  function ReadU8(s: bytes): Got<byte>
  {
    if s == [] then Short else Got(s[0], s[1..])
  }

  function ReadU32(s: bytes): Got<nat>
  {
    if |s| < 4 then Short else Got(Spelled(s[0], s[1], s[2], s[3]), s[4..])
  }

  function ReadTake(s: bytes, n: nat): Got<bytes>
  {
    if n > |s| then Short else Got(s[..n], s[n..])
  }

  function ReadBlock(s: bytes): Got<bytes>
  {
    match ReadU32(s)
    case Short => Short
    case Got(n, rest) => ReadTake(rest, n)
  }

  function ReadText(u: Utf8, s: bytes): Got<string>
  {
    match ReadU8(s)
    case Short => Short
    case Got(n, rest) =>
      match ReadTake(rest, n)
      case Short => Short
      case Got(b, left) => if u.decode(b).None? then Short else Got(u.decode(b).value, left)
  }

  lemma {:induction false} U32Reads(v: nat, rest: bytes)
    requires v < TWO_32
    ensures |U32(v)| == 4 && ReadU32(U32(v) + rest) == Got(v, rest)
  {
    var s := U32(v) + rest;
    assert s[4..] == rest;
    assert v / 0x100_0000 < 256;
    assert v == v / 0x100_0000 * 0x100_0000 + v / 0x1_0000 % 256 * 0x1_0000 + v / 0x100 % 256 * 0x100 + v % 256 by { Octets(v); }
  }

  /** A number is what its octets spell. */
  lemma {:induction false} Octets(v: nat)
    ensures v == v / 0x100_0000 * 0x100_0000 + v / 0x1_0000 % 256 * 0x1_0000 + v / 0x100 % 256 * 0x100 + v % 256
  {
    assert v / 0x1_0000 == v / 0x100 / 256;
    assert v / 0x100_0000 == v / 0x1_0000 / 256;
  }

  lemma {:induction false} TakeReads(b: bytes, rest: bytes)
    ensures ReadTake(b + rest, |b|) == Got(b, rest)
  {
  }

  lemma {:induction false} BlockReads(b: bytes, rest: bytes)
    requires |b| < TWO_32
    ensures ReadBlock(Block(b) + rest) == Got(b, rest)
  {
    assert Block(b) + rest == U32(|b|) + (b + rest);
    U32Reads(|b|, b + rest);
    TakeReads(b, rest);
  }

  lemma {:induction false} TextReads(u: Utf8, s: string, rest: bytes)
    requires IsUtf8(u) && Text(u, s).Some?
    ensures ReadText(u, Text(u, s).value + rest) == Got(s, rest)
  {
    var b := u.encode(s);
    var t := Text(u, s).value + rest;
    assert t[1..] == b + rest && t[0] == |b|;
    TakeReads(b, rest);
  }

  /** Reading backwards: what was read is what those bytes are written as. */
  lemma {:induction false} U32Written(s: bytes)
    requires ReadU32(s).Got?
    ensures ReadU32(s).value < TWO_32 && s == U32(ReadU32(s).value) + ReadU32(s).rest
  {
    var a: nat, b: nat, c: nat, d: nat := s[0], s[1], s[2], s[3];
    OctetsSpelled(a, b, c, d);
    assert s == s[..4] + s[4..];
    assert s[..4] == [s[0], s[1], s[2], s[3]];
  }

  lemma {:induction false} OctetsSpelled(a: nat, b: nat, c: nat, d: nat)
    requires a < 256 && b < 256 && c < 256 && d < 256
    ensures Spelled(a, b, c, d) < TWO_32 && U32(Spelled(a, b, c, d)) == [Octet(a), Octet(b), Octet(c), Octet(d)]
    ensures Octet(a) == a && Octet(b) == b && Octet(c) == c && Octet(d) == d
  {
    var v := Spelled(a, b, c, d);
    assert v / 0x100 == a * 0x1_0000 + b * 0x100 + c && v % 256 == d;
    assert v / 0x1_0000 == a * 0x100 + b;
    assert v / 0x100_0000 == a;
    assert v / 0x1_0000 % 256 == b;
    assert v / 0x100 % 256 == c by { assert v / 0x100 == 256 * (a * 0x100 + b) + c; }
  }

  lemma {:induction false} TakeWritten(s: bytes, n: nat)
    requires ReadTake(s, n).Got?
    ensures |ReadTake(s, n).value| == n && s == ReadTake(s, n).value + ReadTake(s, n).rest
  {
  }

  lemma {:induction false} BlockWritten(s: bytes)
    requires ReadBlock(s).Got?
    ensures |ReadBlock(s).value| < TWO_32 && s == Block(ReadBlock(s).value) + ReadBlock(s).rest
  {
    U32Written(s);
    var n, left := ReadU32(s).value, ReadU32(s).rest;
    TakeWritten(left, n);
    var b := ReadTake(left, n);
    Regroup(U32(n), b.value, b.rest);
  }

  lemma {:induction false} TextWritten(u: Utf8, s: bytes)
    requires IsUtf8(u) && ReadText(u, s).Got?
    ensures Text(u, ReadText(u, s).value).Some?
    ensures s == Text(u, ReadText(u, s).value).value + ReadText(u, s).rest
  {
    var n := s[0];
    var b := s[1..][..n];
    assert u.decode(b).Some?;
    assert u.encode(u.decode(b).value) == b && |b| == n;
    assert s == [s[0]] + (b + s[1..][n..]);
  }

  function Joined(parts: seq<bytes>): bytes
  {
    if parts == [] then [] else Joined(parts[..|parts| - 1]) + parts[|parts| - 1]
  }

  lemma {:induction false} JoinedPrefix(parts: seq<bytes>, k: nat)
    requires k <= |parts|
    ensures |Joined(parts[..k])| <= |Joined(parts)|
    decreases |parts| - k
  {
    if k < |parts| {
      assert parts[..k + 1][..k] == parts[..k];
      JoinedPrefix(parts, k + 1);
    } else {
      assert parts[..k] == parts;
    }
  }

  /** Collects the parts of a frame; `length` is that of all of them. */
  class Writer {
    var parts: seq<bytes>
    var length: nat

    ghost predicate Valid()
      reads this
    {
      length == |Contents()|
    }

    ghost function Contents(): bytes
      reads this
    {
      Joined(parts)
    }

    constructor ()
      ensures Valid() && Contents() == []
    {
      parts, length := [], 0;
    }

    method Bytes(value: bytes)
      requires Valid()
      modifies this
      ensures Valid() && Contents() == old(Contents()) + value
    {
      parts := parts + [value];
      length := length + |value|;
      assert parts[..|parts| - 1] == old(parts);
    }

    method PutU8(value: nat)
      requires Valid()
      modifies this
      ensures Valid() && Contents() == old(Contents()) + U8(value)
    {
      Bytes(U8(value));
    }

    method PutU32(value: nat)
      requires Valid()
      modifies this
      ensures Valid() && Contents() == old(Contents()) + U32(value)
    {
      Bytes(U32(value));
    }

    method PutBlock(value: bytes)
      requires Valid()
      modifies this
      ensures Valid() && Contents() == old(Contents()) + Block(value)
    {
      PutU32(|value|);
      Bytes(value);
    }

    method PutText(u: Utf8, value: string) returns (ok: bool)
      requires Valid()
      modifies this
      ensures Valid() && ok == Text(u, value).Some?
      ensures Contents() == if ok then old(Contents()) + Text(u, value).value else old(Contents())
    {
      var b := u.encode(value);
      if |b| > MAX_TEXT_BYTES { return false; }
      PutU8(|b|);
      Bytes(b);
      ok := true;
    }

    /** All parts in one buffer. */
    method Finish() returns (out: array<byte>)
      requires Valid()
      ensures fresh(out) && out[..] == Contents()
    {
      out := new byte[length](_ => 0);
      var at := 0;
      for k := 0 to |parts|
        invariant at == |Joined(parts[..k])| <= out.Length && out[..at] == Joined(parts[..k])
      {
        assert parts[..k + 1][..k] == parts[..k];
        JoinedPrefix(parts, k + 1);
        forall j | 0 <= j < |parts[k]| { out[at + j] := parts[k][j]; }
        assert out[..at + |parts[k]|] == out[..at] + parts[k];
        at := at + |parts[k]|;
      }
      assert parts[..|parts|] == parts;
    }
  }

  /** Reads a frame from its start, never past its end. */
  class Reader {
    const source: bytes
    var at: nat

    ghost predicate Valid()
      reads this
    {
      at <= |source|
    }

    ghost function Rest(): bytes
      requires Valid()
      reads this
    {
      source[at..]
    }

    constructor (source: bytes)
      ensures Valid() && this.source == source && Rest() == source
    {
      this.source := source;
      at := 0;
    }

    method TakeU8() returns (got: Option<byte>)
      requires Valid()
      modifies this`at
      ensures Valid() && Agrees(ReadU8(old(Rest())), got, Rest())
    {
      if at == |source| { return None; }
      at := at + 1;
      got := Some(source[at - 1]);
    }

    method TakeU32() returns (got: Option<nat>)
      requires Valid()
      modifies this`at
      ensures Valid() && Agrees(ReadU32(old(Rest())), got, Rest())
    {
      if at + 4 > |source| { return None; }
      at := at + 4;
      got := Some(Spelled(source[at - 4], source[at - 3], source[at - 2], source[at - 1]));
    }

    method Take(length: nat) returns (got: Option<bytes>)
      requires Valid()
      modifies this`at
      ensures Valid() && Agrees(ReadTake(old(Rest()), length), got, Rest())
    {
      if at + length > |source| { return None; }
      ghost var was := Rest();
      got := Some(source[at..at + length]);
      at := at + length;
      assert was[..length] == got.value && was[length..] == Rest();
    }

    method TakeBlock() returns (got: Option<bytes>)
      requires Valid()
      modifies this`at
      ensures Valid() && Agrees(ReadBlock(old(Rest())), got, Rest())
    {
      var n := TakeU32();
      if n.None? { return None; }
      got := Take(n.value);
    }

    method TakeText(u: Utf8) returns (got: Option<string>)
      requires Valid()
      modifies this`at
      ensures Valid() && Agrees(ReadText(u, old(Rest())), got, Rest())
    {
      var n := TakeU8();
      if n.None? { return None; }
      var b := Take(n.value);
      if b.None? { return None; }
      got := u.decode(b.value);
    }

    method TakeRest() returns (got: bytes)
      requires Valid()
      modifies this`at
      ensures Valid() && got == old(Rest()) && Rest() == []
    {
      got := source[at..];
      at := |source|;
    }

    /** True while a byte is unread. */
    method More() returns (more: bool)
      requires Valid()
      ensures more == (Rest() != [])
    {
      more := at < |source|;
    }
  }

  /** A read got the value, and left the rest; a failed one says nothing of where it stands. */
  ghost predicate Agrees<T(!new)>(read: Got<T>, got: Option<T>, rest: bytes)
  {
    match read
    case Short => got.None?
    case Got(value, left) => got == Some(value) && rest == left
  }
}
