/** The key the store's pointer cache files a document under: no two documents share one. */
module CacheKeys {
  datatype Key = Key(channel: string, doc: string)

  /** A digit of a number written out in decimal. */
  function Digit(d: nat): char
    requires d < 10
  {
    ['0', '1', '2', '3', '4', '5', '6', '7', '8', '9'][d]
  }

  function Decimal(n: nat): string
  {
    if n < 10 then [Digit(n)] else Decimal(n / 10) + [Digit(n % 10)]
  }

  function CacheKey(k: Key): string { Decimal(|k.channel|) + ":" + k.channel + k.doc }

  function ValueOf(d: char): nat { if '0' <= d <= '9' then (d - '0') as nat else 0 }

  function Parsed(s: string): nat
  {
    if s == "" then 0 else 10 * Parsed(s[..|s| - 1]) + ValueOf(s[|s| - 1])
  }

  lemma {:induction false} DecimalParses(n: nat)
    ensures Parsed(Decimal(n)) == n
    ensures forall i :: 0 <= i < |Decimal(n)| ==> Decimal(n)[i] != ':'
  {
    if n >= 10 {
      DecimalParses(n / 10);
      assert Decimal(n)[..|Decimal(n)| - 1] == Decimal(n / 10);
    } else {
      assert Decimal(n)[..0] == "";
    }
  }

  function FirstColon(s: string): nat
  {
    if s == "" || s[0] == ':' then 0 else 1 + FirstColon(s[1..])
  }

  lemma {:induction false} ColonAfter(a: string, x: string)
    requires forall i :: 0 <= i < |a| ==> a[i] != ':'
    ensures FirstColon(a + ":" + x) == |a|
  {
    if a != "" {
      ColonAfter(a[1..], x);
      assert (a + ":" + x)[1..] == a[1..] + ":" + x;
    }
  }

  /** What stands before the first colon, and after it. */
  lemma {:induction false} ColonSplits(a: string, x: string, b: string, y: string)
    requires a + ":" + x == b + ":" + y
    requires forall i :: 0 <= i < |a| ==> a[i] != ':'
    requires forall i :: 0 <= i < |b| ==> b[i] != ':'
    ensures a == b && x == y
  {
    ColonAfter(a, x);
    ColonAfter(b, y);
    assert a == (a + ":" + x)[..|a|] && b == (b + ":" + y)[..|a|];
    assert x == (a + ":" + x)[|a| + 1..] && y == (b + ":" + y)[|a| + 1..];
  }

  lemma {:induction false} CacheKeyInjective(j: Key, k: Key)
    requires CacheKey(j) == CacheKey(k)
    ensures j == k
  {
    DecimalParses(|j.channel|);
    DecimalParses(|k.channel|);
    assert CacheKey(j) == Decimal(|j.channel|) + ":" + (j.channel + j.doc);
    assert CacheKey(k) == Decimal(|k.channel|) + ":" + (k.channel + k.doc);
    ColonSplits(Decimal(|j.channel|), j.channel + j.doc, Decimal(|k.channel|), k.channel + k.doc);
    assert j.channel == (j.channel + j.doc)[..|j.channel|] && j.doc == (j.channel + j.doc)[|j.channel|..];
    assert k.channel == (k.channel + k.doc)[..|k.channel|] && k.doc == (k.channel + k.doc)[|k.channel|..];
  }
}
