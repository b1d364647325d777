/** Bytes, optional values and the few sequence facts that several components share. */
module Bytes {

  type byte = x: int | 0 <= x < 256

  datatype Option<+T> = None | Some(value: T)

  /** Little-endian encodings of 16 and 32 bit unsigned integers. */
  function Le16(n: nat): (s: seq<byte>)
    requires n < 0x1_0000
    ensures |s| == 2
  {
    [n % 256, n / 256]
  }

  function Le32(n: nat): (s: seq<byte>)
    requires n < 0x1_0000_0000
    ensures |s| == 4
  {
    Le16(n % 0x1_0000) + Le16(n / 0x1_0000)
  }

  function ReadLe16(s: seq<byte>): (n: nat)
    requires |s| == 2
    ensures n < 0x1_0000
  {
    var lo: int, hi: int := s[0], s[1];
    lo + 256 * hi
  }

  function ReadLe32(s: seq<byte>): (n: nat)
    requires |s| == 4
    ensures n < 0x1_0000_0000
  {
    ReadLe16(s[..2]) + 0x1_0000 * ReadLe16(s[2..])
  }

  /** Big-endian encoding of a 32 bit unsigned integer. */
  function Be32(n: nat): (s: seq<byte>)
    requires n < 0x1_0000_0000
    ensures |s| == 4
  {
    [n / 0x1_0000 / 256, n / 0x1_0000 % 256, n % 0x1_0000 / 256, n % 0x1_0000 % 256]
  }

  function ReadBe32(s: seq<byte>): (n: nat)
    requires |s| == 4
    ensures n < 0x1_0000_0000
  {
    ReadLe16([s[1], s[0]]) * 0x1_0000 + ReadLe16([s[3], s[2]])
  }

  lemma Le16RoundTrip(n: nat, s: seq<byte>)
    requires n < 0x1_0000 && |s| == 2
    ensures ReadLe16(Le16(n)) == n
    ensures Le16(ReadLe16(s)) == s
  {
    var lo: int, hi: int := s[0], s[1];
    assert (lo + 256 * hi) % 256 == lo;
  }

  lemma Le32RoundTrip(n: nat, s: seq<byte>)
    requires n < 0x1_0000_0000 && |s| == 4
    ensures ReadLe32(Le32(n)) == n
    ensures Le32(ReadLe32(s)) == s
  {
    Le16RoundTrip(n % 0x1_0000, s[..2]);
    Le16RoundTrip(n / 0x1_0000, s[2..]);
    var lo, hi := ReadLe16(s[..2]), ReadLe16(s[2..]);
    assert (lo + 0x1_0000 * hi) % 0x1_0000 == lo;
    assert s == s[..2] + s[2..];
  }

  lemma Be32RoundTrip(n: nat, s: seq<byte>)
    requires n < 0x1_0000_0000 && |s| == 4
    ensures ReadBe32(Be32(n)) == n
    ensures Be32(ReadBe32(s)) == s
  {
    var low, high := [s[3], s[2]], [s[1], s[0]];
    Le16RoundTrip(n % 0x1_0000, low);
    Le16RoundTrip(n / 0x1_0000, high);
    var lo, hi := ReadLe16(low), ReadLe16(high);
    assert (hi * 0x1_0000 + lo) % 0x1_0000 == lo;
    assert Be32(ReadBe32(s)) == [Le16(hi)[1], Le16(hi)[0], Le16(lo)[1], Le16(lo)[0]];
    var m, k := n % 0x1_0000, n / 0x1_0000;
    assert [Be32(n)[3], Be32(n)[2]] == Le16(m) && [Be32(n)[1], Be32(n)[0]] == Le16(k);
  }

  lemma SliceOfSlice<T>(s: seq<T>, from: nat, to: nat, a: nat, b: nat)
    requires from <= to <= |s| && a <= b <= to - from
    ensures s[from..to][a..b] == s[from + a..from + b]
  {
    var inner, outer := s[from..to][a..b], s[from + a..from + b];
    assert |inner| == |outer|;
    assert forall k :: 0 <= k < |inner| ==> inner[k] == s[from..to][a + k] == outer[k];
  }

  lemma FourParts<T>(a: seq<T>, b: seq<T>, c: seq<T>, d: seq<T>)
    ensures var s := a + b + c + d; var n := |a| + |b|;
      && s[0..|a|] == a && s[|a|..n] == b && s[n..n + |c|] == c && s[n + |c|..n + |c| + |d|] == d
  {
  }

  lemma TwoParts<T>(a: seq<T>, b: seq<T>)
    ensures var s := a + b; s[0..|a|] == a && s[|a|..|a| + |b|] == b
  {
  }

  lemma ThreeParts<T>(a: seq<T>, b: seq<T>, c: seq<T>)
    ensures var s := a + b + c; var n := |a| + |b|; s[0..|a|] == a && s[|a|..n] == b && s[n..n + |c|] == c
  {
  }

  lemma Associates<T>(a: seq<T>, b: seq<T>, c: seq<T>)
    ensures a + (b + c) == (a + b) + c
  {
  }

  lemma Rejoin<T>(s: seq<T>, a: nat, b: nat, c: nat, d: nat, e: nat)
    requires a <= b <= c <= d <= e <= |s|
    ensures s[a..b] + s[b..c] + s[c..d] + s[d..e] == s[a..e]
  {
  }

  lemma RejoinTwo<T>(s: seq<T>, a: nat, b: nat, c: nat)
    requires a <= b <= c <= |s|
    ensures s[a..b] + s[b..c] == s[a..c]
  {
  }

  lemma RejoinThree<T>(s: seq<T>, a: nat, b: nat, c: nat, d: nat)
    requires a <= b <= c <= d <= |s|
    ensures s[a..b] + s[b..c] + s[c..d] == s[a..d]
  {
  }

  // ----- Numbers as text -----

  function Digit(d: nat): char
    requires d < 10
  {
    "0123456789"[d]
  }

  function Decimal(n: nat): (s: string)
    ensures |s| > 0
  {
    if n < 10 then [Digit(n)] else Decimal(n / 10) + [Digit(n % 10)]
  }

  /** The order of texts, character by character. */
  predicate NotAfter(s: string, t: string) {
    s == [] || (t != [] && (s[0] < t[0] || (s[0] == t[0] && NotAfter(s[1..], t[1..]))))
  }

  lemma {:induction false} TextsCompare(s: string, t: string)
    ensures NotAfter(s, t) || NotAfter(t, s)
  {
    if s != [] && t != [] && s[0] == t[0] {
      TextsCompare(s[1..], t[1..]);
    }
  }

  lemma {:induction false} TextsChain(s: string, t: string, u: string)
    requires NotAfter(s, t) && NotAfter(t, u)
    ensures NotAfter(s, u)
  {
    if s != [] && s[0] == t[0] == u[0] {
      TextsChain(s[1..], t[1..], u[1..]);
    }
  }
}
