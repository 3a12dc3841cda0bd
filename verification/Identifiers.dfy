/**
 The byte and hexadecimal forms of a 128-bit identifier, which the source keeps as two
 64-bit words and converts word by word.
 */
module Identifiers {
  import opened Basics
  import opened Wire

  function High(id: Id): U64 {
    id / TWO_64
  }

  function Low(id: Id): U64 {
    id % TWO_64
  }

  function Join(hi: U64, lo: U64): (id: Id)
    ensures High(id) == hi && Low(id) == lo
  {
    hi * TWO_64 + lo
  }

  // ----- bytes -----

  /** A number cut into two words is written as the two words. */
  lemma {:induction false} WordsInOrder(hi: nat, lo: nat, v: nat, w: nat)
    requires lo < Pow256(w)
    ensures BigEndian(hi * Pow256(w) + lo, v + w) == BigEndian(hi, v) + BigEndian(lo, w)
    decreases w
  {
    if w == 0 {
      assert hi * Pow256(w) + lo == hi;
    } else {
      var n, p := hi * Pow256(w) + lo, Pow256(w - 1);
      assert n == 256 * (hi * p) + lo;
      assert n / 256 == hi * p + lo / 256 && n % 256 == lo % 256;
      WordsInOrder(hi, lo / 256, v, w - 1);
    }
  }

  lemma {:induction false} WordsBack(s: Bytes, t: Bytes)
    ensures FromBigEndian(s + t) == FromBigEndian(s) * Pow256(|t|) + FromBigEndian(t)
    decreases |t|
  {
    if t == [] {
      assert s + t == s;
    } else {
      var k := |t| - 1;
      assert (s + t)[..|s| + k] == s + t[..k];
      WordsBack(s, t[..k]);
      Regroup(FromBigEndian(s), Pow256(k), FromBigEndian(t[..k]), t[k]);
    }
  }

  lemma Regroup(a: nat, p: nat, b: nat, c: nat)
    ensures (a * p + b) * 256 + c == a * (256 * p) + (b * 256 + c)
  {
    assert (a * p + b) * 256 == a * p * 256 + b * 256;
    assert a * p * 256 == a * (256 * p);
  }

  function ByteAt(n: U64, i: nat): Byte
    requires i < 8
  {
    n / Pow256(7 - i) % 256
  }

  lemma {:induction false} ByteAtIs(n: nat, w: nat, i: nat)
    requires i < w
    ensures BigEndian(n, w)[i] == n / Pow256(w - 1 - i) % 256
    decreases w
  {
    if i < w - 1 {
      ByteAtIs(n / 256, w - 1, i);
      var p := Pow256(w - 2 - i);
      DivideTwice(n, p);
    } else {
      assert n / Pow256(0) == n;
    }
  }

  lemma DivideTwice(n: nat, p: nat)
    requires p > 0
    ensures n / 256 / p == n / (256 * p)
  {
    var q := n / 256 / p;
    var r := n / 256 - q * p;
    assert 0 <= r < p;
    var x := n - 256 * (n / 256);
    assert n == q * (256 * p) + (256 * r + x);
    assert 0 <= 256 * r + x < 256 * p;
    Quotient(n, 256 * p, q, 256 * r + x);
  }

  lemma Quotient(n: nat, m: nat, q: nat, r: nat)
    requires m > 0 && n == q * m + r && r < m
    ensures n / m == q
  {
    var d := n / m - q;
    assert n == (n / m) * m + n % m;
    assert d * m == r - n % m;
    Multiple(d, m);
  }

  lemma Multiple(d: int, m: int)
    requires m > 0
    ensures d == 0 || d * m >= m || d * m <= -m
  {
  }

  /** Both words at once, into the caller's buffer. */
  method ToBytes(id: Id, out: array<Byte>)
    requires out.Length == 16
    modifies out
    ensures out[..] == BigEndian(id, 16)
  {
    for i := 0 to 8
      invariant forall k :: 0 <= k < i ==> out[k] == ByteAt(High(id), k)
      invariant forall k :: 8 <= k < 8 + i ==> out[k] == ByteAt(Low(id), k - 8)
    {
      out[i] := ByteAt(High(id), i);
      out[8 + i] := ByteAt(Low(id), i);
    }
    forall k | 0 <= k < 8
      ensures out[k] == BigEndian(High(id), 8)[k] && out[8 + k] == BigEndian(Low(id), 8)[k]
    {
      ByteAtIs(High(id), 8, k);
      ByteAtIs(Low(id), 8, k);
    }
    Widths();
    WordsInOrder(High(id), Low(id), 8, 8);
    assert out[..] == BigEndian(High(id), 8) + BigEndian(Low(id), 8);
  }

  method FromBytes(s: array<Byte>) returns (id: Id)
    requires s.Length == 16
    ensures id == FromBigEndian(s[..])
  {
    Widths();
    var hi: nat, lo: nat := 0, 0;
    for i := 0 to 8
      invariant hi == FromBigEndian(s[..i]) && lo == FromBigEndian(s[8..8 + i])
    {
      assert s[..i + 1][..i] == s[..i] && s[8..8 + (i + 1)][..i] == s[8..8 + i];
      hi, lo := hi * 256 + s[i], lo * 256 + s[8 + i];
    }
    WordsBack(s[..8], s[8..16]);
    assert s[..] == s[..8] + s[8..16];
    return Join(hi, lo);
  }

  /** An identifier comes back from its bytes, and sixteen bytes from their identifier. */
  lemma BytesRoundTrip(id: Id, s: Bytes)
    requires |s| == 16
    ensures FromBigEndian(BigEndian(id, 16)) == id
    ensures FromBigEndian(s) < TWO_128 && BigEndian(FromBigEndian(s), 16) == s
  {
    Widths();
    BigEndianRoundTrip(id, 16);
    BigEndianRoundTrip(FromBigEndian(s), 16);
    FromBigEndianInjective(BigEndian(FromBigEndian(s), 16), s);
  }

  // ----- hexadecimal -----

  type Nibble = n: nat | n < 16

  function Pow16(k: nat): (p: nat)
    ensures p > 0
  {
    if k == 0 then 1 else 16 * Pow16(k - 1)
  }

  function Nibbles(n: nat, k: nat): (s: seq<Nibble>)
    ensures |s| == k
  {
    if k == 0 then [] else Nibbles(n / 16, k - 1) + [n % 16]
  }

  function Number(s: seq<Nibble>): (n: nat)
    ensures n < Pow16(|s|)
  {
    if s == [] then 0 else Number(s[..|s| - 1]) * 16 + s[|s| - 1]
  }

  lemma {:induction false} NibblesBack(n: nat, k: nat)
    requires n < Pow16(k)
    ensures Number(Nibbles(n, k)) == n
  {
    if k > 0 {
      assert Nibbles(n, k)[..k - 1] == Nibbles(n / 16, k - 1);
      NibblesBack(n / 16, k - 1);
    }
  }

  lemma {:induction false} NumberBack(s: seq<Nibble>)
    ensures Nibbles(Number(s), |s|) == s
  {
    if s != [] {
      NumberBack(s[..|s| - 1]);
    }
  }

  lemma {:induction false} NumberJoined(s: seq<Nibble>, t: seq<Nibble>)
    ensures Number(s + t) == Number(s) * Pow16(|t|) + Number(t)
    decreases |t|
  {
    if t == [] {
      assert s + t == s;
    } else {
      var k := |t| - 1;
      assert (s + t)[..|s| + k] == s + t[..k];
      NumberJoined(s, t[..k]);
      RegroupHex(Number(s), Pow16(k), Number(t[..k]), t[k]);
    }
  }

  lemma RegroupHex(a: nat, p: nat, b: nat, c: nat)
    ensures (a * p + b) * 16 + c == a * (16 * p) + (b * 16 + c)
  {
    assert (a * p + b) * 16 == a * p * 16 + b * 16;
    assert a * p * 16 == a * (16 * p);
  }

  lemma HexWidths()
    ensures Pow16(16) == TWO_64 && Pow16(32) == TWO_128
  {
    assert Pow16(8) == TWO_32;
    assert Pow16(12) == 0x1_0000_0000_0000;
    assert Pow16(16) == TWO_64;
    assert Pow16(20) == 0x1_0000 * TWO_64;
    assert Pow16(24) == TWO_32 * TWO_64;
    assert Pow16(28) == 0x1_0000_0000_0000 * TWO_64;
  }

  function Digit(d: Nibble): char {
    "0123456789abcdef"[d]
  }

  /** The value of a hexadecimal character of either case, or -1. */
  function Nib(c: char): (d: int)
    ensures -1 <= d < 16
  {
    if '0' <= c <= '9' then c as int - '0' as int
    else if 'a' <= c <= 'f' then c as int - 'a' as int + 10
    else if 'A' <= c <= 'F' then c as int - 'A' as int + 10
    else -1
  }

  function Lower(c: char): char {
    if 'A' <= c <= 'F' then Digit(Nib(c)) else c
  }

  lemma DigitBack(d: Nibble)
    ensures Nib(Digit(d)) == d
  {
  }

  lemma NibBack(c: char)
    requires Nib(c) >= 0
    ensures Digit(Nib(c)) == Lower(c)
  {
  }

  function Spell(ds: seq<Nibble>): (s: string)
    ensures |s| == |ds| && forall i :: 0 <= i < |s| ==> s[i] == Digit(ds[i])
  {
    seq(|ds|, i requires 0 <= i < |ds| => Digit(ds[i]))
  }

  predicate AllHex(s: string) {
    forall i :: 0 <= i < |s| ==> Nib(s[i]) >= 0
  }

  function Read(s: string): (ds: seq<Nibble>)
    requires AllHex(s)
    ensures |ds| == |s| && forall i :: 0 <= i < |s| ==> ds[i] == Nib(s[i])
  {
    seq(|s|, i requires 0 <= i < |s| => Nib(s[i]))
  }

  /** Thirty-two lower-case digits: the high word, then the low one. */
  function ToHex(id: Id): string {
    Spell(Nibbles(High(id), 16) + Nibbles(Low(id), 16))
  }

  function HexValue(s: string): nat
    requires AllHex(s)
  {
    Number(Read(s))
  }

  lemma NextDigit(s: string, start: nat, end: nat)
    requires start <= end < |s| && AllHex(s[start..end]) && Nib(s[end]) >= 0
    ensures AllHex(s[start..end + 1]) && HexValue(s[start..end + 1]) == HexValue(s[start..end]) * 16 + Nib(s[end])
  {
    var t := s[start..end + 1];
    assert t[..|t| - 1] == s[start..end];
    assert AllHex(t);
    assert Read(t)[..|t| - 1] == Read(s[start..end]);
  }

  lemma BadDigit(s: string, i: nat)
    requires i < |s| && Nib(s[i]) < 0
    ensures !AllHex(s)
  {
  }

  lemma NoDigits(s: string, i: nat)
    requires i <= |s|
    ensures AllHex(s[i..i]) && HexValue(s[i..i]) == 0
  {
  }

  lemma Halves(s: string)
    requires |s| == 32 && AllHex(s[0..16]) && AllHex(s[16..32])
    ensures AllHex(s) && HexValue(s) == HexValue(s[0..16]) * TWO_64 + HexValue(s[16..32])
    ensures HexValue(s[0..16]) < TWO_64 && HexValue(s[16..32]) < TWO_64
  {
    assert s == s[0..16] + s[16..32];
    assert Read(s) == Read(s[0..16]) + Read(s[16..32]);
    NumberJoined(Read(s[0..16]), Read(s[16..32]));
    HexWidths();
  }

  /** Both words at once. Exactly the texts of thirty-two hexadecimal digits are read. */
  method FromHex(s: string) returns (r: Option<Id>)
    ensures r.Some? <==> |s| == 32 && AllHex(s)
    ensures r.Some? ==> r.value == HexValue(s)
  {
    hide AllHex, HexValue, Nib;
    if |s| != 32 {
      return None;
    }
    var hi: nat, lo: nat := 0, 0;
    NoDigits(s, 0);
    NoDigits(s, 16);
    for i := 0 to 16
      invariant AllHex(s[0..i]) && AllHex(s[16..16 + i])
      invariant hi == HexValue(s[0..i]) && lo == HexValue(s[16..16 + i])
    {
      var a, b := Nib(s[i]), Nib(s[16 + i]);
      if a < 0 || b < 0 {
        BadDigit(s, if a < 0 then i else 16 + i);
        return None;
      }
      NextDigit(s, 0, i);
      NextDigit(s, 16, 16 + i);
      hi, lo := hi * 16 + a, lo * 16 + b;
    }
    Halves(s);
    return Some(Join(hi, lo));
  }

  /** The printed form of an identifier reads back as that identifier. */
  lemma HexRoundTrip(id: Id)
    ensures |ToHex(id)| == 32 && AllHex(ToHex(id)) && HexValue(ToHex(id)) == id
  {
    var hi, lo := Nibbles(High(id), 16), Nibbles(Low(id), 16);
    hide Nibbles, Number, Nib, Digit, Pow16;
    HexWidths();
    NibblesBack(High(id), 16);
    NibblesBack(Low(id), 16);
    NumberJoined(hi, lo);
    SpelledBack(hi + lo);
  }

  lemma SpelledBack(ds: seq<Nibble>)
    ensures AllHex(Spell(ds)) && Read(Spell(ds)) == ds
  {
    hide Nib, Digit;
    forall i | 0 <= i < |ds|
      ensures Nib(Spell(ds)[i]) == ds[i]
    {
      DigitBack(ds[i]);
    }
  }

  /** What was read prints as the same text in lower case. */
  lemma HexCanonical(s: string)
    requires |s| == 32 && AllHex(s)
    ensures HexValue(s) < TWO_128
    ensures var t := ToHex(HexValue(s));
            |t| == 32 && forall i :: 0 <= i < 32 ==> t[i] == Lower(s[i])
  {
    hide Nibbles, Number, Nib, Digit, Lower, AllHex, Spell;
    NumberInWords(Read(s));
    SpelledLower(s);
  }

  /** Sixteen digits of each word are the digits of the number. */
  lemma NumberInWords(ds: seq<Nibble>)
    requires |ds| == 32
    ensures Number(ds) < TWO_128 && Nibbles(High(Number(ds)), 16) + Nibbles(Low(Number(ds)), 16) == ds
  {
    var hi, lo := ds[..16], ds[16..];
    assert ds == hi + lo;
    hide Nibbles, Number, Pow16, High, Low;
    HexWidths();
    NumberJoined(hi, lo);
    NumberBack(hi);
    NumberBack(lo);
    WordsOf(Number(hi), Number(lo));
  }

  lemma SpelledLower(s: string)
    requires AllHex(s)
    ensures |Spell(Read(s))| == |s| && forall i :: 0 <= i < |s| ==> Spell(Read(s))[i] == Lower(s[i])
  {
    hide Nib, Digit, Lower;
    forall i | 0 <= i < |s|
      ensures Digit(Read(s)[i]) == Lower(s[i])
    {
      NibBack(s[i]);
    }
  }

  lemma WordsOf(hi: nat, lo: nat)
    requires hi < TWO_64 && lo < TWO_64
    ensures hi * TWO_64 + lo < TWO_128 && High(hi * TWO_64 + lo) == hi && Low(hi * TWO_64 + lo) == lo
  {
  }
}
