/** Types every part of the model shares. */
module Common {
  datatype Option<+T> = None | Some(value: T)

  /** One octet on the wire. */
  type byte = b: int | 0 <= b < 256
  type bytes = seq<byte>

  /** A half-open range of lines. */
  datatype Range = Range(from: nat, upto: nat)

  function Min(a: int, b: int): int { if a <= b then a else b }

  function Max(a: int, b: int): int { if a >= b then a else b }

  /** s[from..upto], or nothing where that is no range of it. */
  function Slice<T>(s: seq<T>, from: nat, upto: nat): seq<T>
  {
    if from <= upto <= |s| then s[from..upto] else []
  }

  lemma {:induction false} Regroup<T>(a: seq<T>, b: seq<T>, c: seq<T>)
    ensures (a + b) + c == a + (b + c)
  {
  }
}
