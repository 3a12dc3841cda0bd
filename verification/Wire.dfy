/**
 The big-endian wire format. A record layout is a value of type `Format`; the writer and
 the reader are proved against `Encode` and `Decode`, and the laws of the codec are
 proved once for every layout.
 */
module Wire {
  import opened Basics

  // ----- big-endian numbers -----

  function Pow256(w: nat): (p: nat)
    ensures p > 0
  {
    if w == 0 then 1 else 256 * Pow256(w - 1)
  }

  /** The `w` low-order bytes of `n`, most significant first. */
  function BigEndian(n: nat, w: nat): (s: Bytes)
    ensures |s| == w
  {
    if w == 0 then [] else BigEndian(n / 256, w - 1) + [n % 256]
  }

  function FromBigEndian(s: Bytes): (n: nat)
    ensures n < Pow256(|s|)
    decreases |s|
  {
    if s == [] then 0 else
    var k := |s| - 1;
    FromBigEndian(s[..k]) * 256 + s[k]
  }

  lemma {:induction false} BigEndianRoundTrip(n: nat, w: nat)
    requires n < Pow256(w)
    ensures FromBigEndian(BigEndian(n, w)) == n
    decreases w
  {
    if w > 0 {
      var s := BigEndian(n, w);
      assert s[..w - 1] == BigEndian(n / 256, w - 1);
      BigEndianRoundTrip(n / 256, w - 1);
    }
  }

  /** A string is fixed by its length and the number it stands for. */
  lemma {:induction false} FromBigEndianInjective(s: Bytes, t: Bytes)
    requires |s| == |t| && FromBigEndian(s) == FromBigEndian(t)
    ensures s == t
    decreases |s|
  {
    if s != [] {
      var k := |s| - 1;
      FromBigEndianInjective(s[..k], t[..k]);
      assert s == s[..k] + [s[k]] && t == t[..k] + [t[k]];
    }
  }

  lemma Widths()
    ensures Pow256(1) == 0x100 && Pow256(4) == TWO_32 && Pow256(8) == TWO_64 && Pow256(16) == TWO_128
  {
    assert Pow256(4) == TWO_32;
    assert Pow256(6) == 0x1_0000_0000_0000;
    assert Pow256(8) == TWO_64;
    assert Pow256(10) == 0x1_0000 * TWO_64;
    assert Pow256(12) == TWO_32 * TWO_64;
    assert Pow256(14) == 0x1_0000_0000_0000 * TWO_64;
  }

  // ----- formats and values -----

  datatype Format =
    | Num(width: nat)
    | Flag
    | Text(limit: nat)
    | Opt(inner: Format)
    | Many(limit: nat, item: Format)
    | Both(first: Format, second: Format)

  datatype Value =
    | N(n: nat)
    | B(b: bool)
    | T(text: Bytes)
    | O(o: Option<Value>)
    | L(l: seq<Value>)
    | P(x: Value, y: Value)

  /** `v` has the shape of `f`, whatever its lengths and magnitudes. */
  ghost predicate Shaped(f: Format, v: Value)
    decreases f
  {
    match f
    case Num(_) => v.N?
    case Flag => v.B?
    case Text(_) => v.T?
    case Opt(g) => v.O? && (v.o.Some? ==> Shaped(g, v.o.value))
    case Many(_, g) => v.L? && forall i :: 0 <= i < |v.l| ==> Shaped(g, v.l[i])
    case Both(g, h) => v.P? && Shaped(g, v.x) && Shaped(h, v.y)
  }

  /** `v` is within the widths and length limits of `f`. */
  ghost predicate Fits(f: Format, v: Value)
    decreases f
  {
    match f
    case Num(w) => v.N? && v.n < Pow256(w)
    case Flag => v.B?
    case Text(limit) => v.T? && |v.text| <= limit && |v.text| < TWO_32
    case Opt(g) => v.O? && (v.o.Some? ==> Fits(g, v.o.value))
    case Many(limit, g) => v.L? && |v.l| <= limit && |v.l| < TWO_32 && forall i :: 0 <= i < |v.l| ==> Fits(g, v.l[i])
    case Both(g, h) => v.P? && Fits(g, v.x) && Fits(h, v.y)
  }

  lemma {:induction false} FitsIsShaped(f: Format, v: Value)
    requires Fits(f, v)
    ensures Shaped(f, v)
    decreases f
  {
    match f
    case Opt(g) => if v.o.Some? { FitsIsShaped(g, v.o.value); }
    case Many(_, g) => forall i | 0 <= i < |v.l| ensures Shaped(g, v.l[i]) { FitsIsShaped(g, v.l[i]); }
    case Both(g, h) =>
      FitsIsShaped(g, v.x);
      FitsIsShaped(h, v.y);
    case _ =>
  }

  // ----- encoding -----

  ghost function Encode(f: Format, v: Value): Bytes
    requires Shaped(f, v)
    decreases f, 0
  {
    match f
    case Num(w) => BigEndian(v.n, w)
    case Flag => [if v.b then 1 else 0]
    case Text(_) => BigEndian(|v.text|, 4) + v.text
    case Opt(g) => if v.o.Some? then [1] + Encode(g, v.o.value) else [0]
    case Many(_, g) => BigEndian(|v.l|, 4) + EncodeItems(g, v.l)
    case Both(g, h) => Encode(g, v.x) + Encode(h, v.y)
  }

  ghost function EncodeItems(g: Format, l: seq<Value>): Bytes
    requires forall i :: 0 <= i < |l| ==> Shaped(g, l[i])
    decreases g, |l|
  {
    if l == [] then [] else Encode(g, l[0]) + EncodeItems(g, l[1..])
  }

  // ----- decoding -----

  /** A decoded value and the bytes after it. */
  datatype Parsed<+X> = Parsed(value: X, rest: Bytes)

  function Decode(f: Format, s: Bytes): Option<Parsed<Value>>
    decreases f, 0
  {
    match f
    case Num(w) => if |s| < w then None else Some(Parsed(N(FromBigEndian(s[..w])), s[w..]))
    case Flag => if |s| < 1 then None else Some(Parsed(B(s[0] != 0), s[1..]))
    case Text(limit) =>
      if |s| < 4 then None else
      var n := FromBigEndian(s[..4]);
      if n > limit || |s| - 4 < n then None else Some(Parsed(T(s[4..4 + n]), s[4 + n..]))
    case Opt(g) =>
      if |s| < 1 then None else
      if s[0] == 0 then Some(Parsed(O(None), s[1..])) else
      var p := Decode(g, s[1..]);
      if p == None then None else Some(Parsed(O(Some(p.value.value)), p.value.rest))
    case Many(limit, g) =>
      if |s| < 4 then None else
      var n := FromBigEndian(s[..4]);
      if n > limit then None else
      var p := DecodeItems(g, n, s[4..]);
      if p == None then None else Some(Parsed(L(p.value.value), p.value.rest))
    case Both(g, h) =>
      var p := Decode(g, s);
      if p == None then None else
      var q := Decode(h, p.value.rest);
      if q == None then None else Some(Parsed(P(p.value.value, q.value.value), q.value.rest))
  }

  function DecodeItems(g: Format, n: nat, s: Bytes): Option<Parsed<seq<Value>>>
    decreases g, n
  {
    if n == 0 then Some(Parsed([], s)) else
    var p := Decode(g, s);
    if p == None then None else
    var q := DecodeItems(g, n - 1, p.value.rest);
    if q == None then None else Some(Parsed([p.value.value] + q.value.value, q.value.rest))
  }

  // ----- the laws -----

  /** Decoding what was encoded gives it back and leaves what follows untouched. */
  lemma {:induction false} RoundTrip(f: Format, v: Value, rest: Bytes)
    requires Fits(f, v) && Shaped(f, v)
    ensures Decode(f, Encode(f, v) + rest) == Some(Parsed(v, rest))
    decreases f, 0
  {
    hide Decode, BigEndian, Pow256;
    match f
    case Num(w) => NumRoundTrip(v.n, w, rest);
    case Flag => FlagRoundTrip(v.b, rest);
    case Text(limit) => TextRoundTrip(limit, v.text, rest);
    case Opt(g) =>
      if v.o.Some? {
        RoundTrip(g, v.o.value, rest);
        OptRoundTrip(g, v.o.value, Encode(g, v.o.value), rest);
      } else {
        NoneRoundTrip(g, rest);
      }
    case Many(limit, g) =>
      ItemsRoundTrip(g, v.l, rest);
      ManyRoundTrip(limit, g, v.l, rest);
    case Both(g, h) =>
      RoundTrip(g, v.x, Encode(h, v.y) + rest);
      RoundTrip(h, v.y, rest);
      BothRoundTrip(g, h, v.x, v.y, Encode(g, v.x), Encode(h, v.y), rest);
  }

  lemma FlagRoundTrip(b: bool, rest: Bytes)
    ensures Decode(Flag, [if b then 1 else 0] + rest) == Some(Parsed(B(b), rest))
  {
    assert ([if b then 1 else 0] + rest)[1..] == rest;
  }

  lemma NoneRoundTrip(g: Format, rest: Bytes)
    ensures Decode(Opt(g), [0] + rest) == Some(Parsed(O(None), rest))
  {
    assert ([0] + rest)[1..] == rest;
  }

  lemma OptRoundTrip(g: Format, x: Value, a: Bytes, rest: Bytes)
    requires Decode(g, a + rest) == Some(Parsed(x, rest))
    ensures Decode(Opt(g), [1] + a + rest) == Some(Parsed(O(Some(x)), rest))
  {
    hide FromBigEndian, DecodeItems;
    assert [1] + a + rest == [1] + (a + rest);
  }

  lemma DecodeBoth(g: Format, h: Format, s: Bytes)
    requires Decode(g, s).Some? && Decode(h, Decode(g, s).value.rest).Some?
    ensures var p := Decode(g, s).value;
            var q := Decode(h, p.rest).value;
            Decode(Both(g, h), s) == Some(Parsed(P(p.value, q.value), q.rest))
  {
    hide FromBigEndian, DecodeItems;
  }

  lemma BothRoundTrip(g: Format, h: Format, x: Value, y: Value, a: Bytes, b: Bytes, rest: Bytes)
    requires Decode(g, a + (b + rest)) == Some(Parsed(x, b + rest))
    requires Decode(h, b + rest) == Some(Parsed(y, rest))
    ensures Decode(Both(g, h), a + b + rest) == Some(Parsed(P(x, y), rest))
  {
    hide Decode;
    assert a + b + rest == a + (b + rest);
    DecodeBoth(g, h, a + (b + rest));
  }

  lemma NumRoundTrip(n: nat, w: nat, rest: Bytes)
    requires n < Pow256(w)
    ensures Decode(Num(w), BigEndian(n, w) + rest) == Some(Parsed(N(n), rest))
  {
    BigEndianRoundTrip(n, w);
    var s := BigEndian(n, w) + rest;
    assert s[..w] == BigEndian(n, w) && s[w..] == rest;
  }

  lemma ManyRoundTrip(limit: nat, g: Format, l: seq<Value>, rest: Bytes)
    requires forall i :: 0 <= i < |l| ==> Shaped(g, l[i])
    requires |l| <= limit && |l| < TWO_32
    requires DecodeItems(g, |l|, EncodeItems(g, l) + rest) == Some(Parsed(l, rest))
    ensures Decode(Many(limit, g), BigEndian(|l|, 4) + EncodeItems(g, l) + rest) == Some(Parsed(L(l), rest))
  {
    hide Shaped, EncodeItems, DecodeItems;
    var s := BigEndian(|l|, 4) + EncodeItems(g, l) + rest;
    CountRoundTrip(|l|, EncodeItems(g, l) + rest);
    assert s == BigEndian(|l|, 4) + (EncodeItems(g, l) + rest);
  }

  lemma CountRoundTrip(n: nat, rest: Bytes)
    requires n < TWO_32
    ensures var s := BigEndian(n, 4) + rest;
            |s| >= 4 && FromBigEndian(s[..4]) == n && s[4..] == rest
  {
    var s := BigEndian(n, 4) + rest;
    assert s[..4] == BigEndian(n, 4);
    BigEndianRoundTrip(n, 4);
    Widths();
  }

  lemma TextRoundTrip(limit: nat, text: Bytes, rest: Bytes)
    requires |text| <= limit && |text| < TWO_32
    ensures Decode(Text(limit), BigEndian(|text|, 4) + text + rest) == Some(Parsed(T(text), rest))
  {
    var s := BigEndian(|text|, 4) + text + rest;
    CountRoundTrip(|text|, text + rest);
    assert s == BigEndian(|text|, 4) + (text + rest);
    assert s[4..4 + |text|] == text && s[4 + |text|..] == rest;
  }

  lemma HeadAndTail<X>(l: seq<X>)
    requires l != []
    ensures [l[0]] + l[1..] == l
  {
  }

  lemma {:induction false} ItemsRoundTrip(g: Format, l: seq<Value>, rest: Bytes)
    requires forall i :: 0 <= i < |l| ==> Fits(g, l[i]) && Shaped(g, l[i])
    ensures DecodeItems(g, |l|, EncodeItems(g, l) + rest) == Some(Parsed(l, rest))
    decreases g, |l| + 1
  {
    hide Fits, Shaped, Encode, Decode;
    if l == [] {
      assert EncodeItems(g, l) + rest == rest;
    } else {
      var tail := EncodeItems(g, l[1..]) + rest;
      RoundTrip(g, l[0], tail);
      ItemsRoundTrip(g, l[1..], rest);
      assert EncodeItems(g, l) + rest == Encode(g, l[0]) + tail;
      HeadAndTail(l);
    }
  }

  /** Whatever is decoded is within the limits. */
  lemma {:induction false} DecodedFits(f: Format, s: Bytes)
    requires Decode(f, s).Some?
    ensures Fits(f, Decode(f, s).value.value)
    decreases f, 0
  {
    Widths();
    match f
    case Opt(g) => if s[0] != 0 { DecodedFits(g, s[1..]); }
    case Many(_, g) => DecodedItemsFit(g, FromBigEndian(s[..4]), s[4..]);
    case Both(g, h) =>
      DecodedFits(g, s);
      DecodedFits(h, Decode(g, s).value.rest);
    case Text(_) => assert |s[..4]| == 4;
    case Num(w) => assert |s[..w]| == w;
    case _ =>
  }

  lemma {:induction false} DecodedItemsFit(g: Format, n: nat, s: Bytes)
    requires DecodeItems(g, n, s).Some?
    ensures var l := DecodeItems(g, n, s).value.value;
            |l| == n && forall i :: 0 <= i < |l| ==> Fits(g, l[i])
    decreases g, n + 1
  {
    if n > 0 {
      DecodedFits(g, s);
      DecodedItemsFit(g, n - 1, Decode(g, s).value.rest);
    }
  }

  /** Bytes appended after a decodable string change neither the value nor where it ends. */
  lemma {:induction false} DecodeExtends(f: Format, s: Bytes, t: Bytes)
    requires Decode(f, s).Some?
    ensures Decode(f, s + t) == Some(Parsed(Decode(f, s).value.value, Decode(f, s).value.rest + t))
    decreases f, 1
  {
    match f
    case Num(w) =>
      hide FromBigEndian, DecodeItems;
      assert (s + t)[..w] == s[..w] && (s + t)[w..] == s[w..] + t;
    case Flag =>
      hide FromBigEndian, DecodeItems;
      assert (s + t)[1..] == s[1..] + t;
    case Text(limit) => TextExtends(limit, s, t);
    case Opt(g) =>
      hide FromBigEndian, DecodeItems;
      assert (s + t)[1..] == s[1..] + t;
      if s[0] != 0 { DecodeExtends(g, s[1..], t); }
    case Many(_, g) =>
      hide FromBigEndian;
      assert (s + t)[..4] == s[..4] && (s + t)[4..] == s[4..] + t;
      ItemsExtend(g, FromBigEndian(s[..4]), s[4..], t);
    case Both(g, h) => BothExtend(g, h, s, t);
  }

  lemma {:induction false} BothExtend(g: Format, h: Format, s: Bytes, t: Bytes)
    requires Decode(Both(g, h), s).Some?
    ensures Decode(Both(g, h), s + t)
            == Some(Parsed(Decode(Both(g, h), s).value.value, Decode(Both(g, h), s).value.rest + t))
    decreases Both(g, h), 0
  {
    BothDecoded(g, h, s);
    hide Decode;
    DecodeBoth(g, h, s);
    DecodeExtends(g, s, t);
    DecodeExtends(h, Decode(g, s).value.rest, t);
    DecodeBoth(g, h, s + t);
  }

  lemma BothDecoded(g: Format, h: Format, s: Bytes)
    requires Decode(Both(g, h), s).Some?
    ensures Decode(g, s).Some? && Decode(h, Decode(g, s).value.rest).Some?
  {
    hide FromBigEndian, DecodeItems;
  }

  lemma TextExtends(limit: nat, s: Bytes, t: Bytes)
    requires Decode(Text(limit), s).Some?
    ensures Decode(Text(limit), s + t)
            == Some(Parsed(Decode(Text(limit), s).value.value, Decode(Text(limit), s).value.rest + t))
  {
    hide FromBigEndian, DecodeItems;
    assert (s + t)[..4] == s[..4];
    var n := FromBigEndian(s[..4]);
    assert (s + t)[4..4 + n] == s[4..4 + n] && (s + t)[4 + n..] == s[4 + n..] + t;
  }

  lemma {:induction false} ItemsExtend(g: Format, n: nat, s: Bytes, t: Bytes)
    requires DecodeItems(g, n, s).Some?
    ensures DecodeItems(g, n, s + t)
            == Some(Parsed(DecodeItems(g, n, s).value.value, DecodeItems(g, n, s).value.rest + t))
    decreases g, n + 1
  {
    if n > 0 {
      DecodeExtends(g, s, t);
      ItemsExtend(g, n - 1, Decode(g, s).value.rest, t);
    }
  }

  /** No strict prefix of an encoding decodes. */
  lemma PrefixFails(f: Format, v: Value, k: nat)
    requires Fits(f, v)
    ensures Shaped(f, v) && (k < |Encode(f, v)| ==> Decode(f, Encode(f, v)[..k]) == None)
  {
    FitsIsShaped(f, v);
    hide Fits, Shaped, Encode, Decode;
    RoundTrip(f, v, []);
    var s := Encode(f, v);
    assert s + [] == s;
    if k < |s| {
      assert s[..k] + s[k..] == s;
      if Decode(f, s[..k]).Some? {
        DecodeExtends(f, s[..k], s[k..]);
      }
    }
  }

  /** The round trip holds exactly within the limits. */
  lemma RoundTripIff(f: Format, v: Value, rest: Bytes)
    requires Shaped(f, v)
    ensures Decode(f, Encode(f, v) + rest) == Some(Parsed(v, rest)) <==> Fits(f, v)
  {
    if Fits(f, v) {
      RoundTrip(f, v, rest);
    } else if Decode(f, Encode(f, v) + rest).Some? {
      DecodedFits(f, Encode(f, v) + rest);
    }
  }

  // ----- the writer -----

  class BinaryWriter {
    var buf: Bytes

    constructor ()
      ensures buf == []
    {
      buf := [];
    }

    /** The `width` low-order bytes of `n`, from the top byte down. */
    method PutUnsigned(n: nat, width: nat)
      modifies this
      ensures buf == old(buf) + BigEndian(n, width)
    {
      var i := width;
      ghost var start := buf;
      while i > 0
        invariant 0 <= i <= width
        invariant buf == start + BigEndian(Shift(n, i), width - i)
      {
        i := i - 1;
        ShiftNext(n, i);
        buf := buf + [Shift(n, i) % 256];
      }
    }

    method PutBool(b: bool)
      modifies this
      ensures buf == old(buf) + [if b then 1 else 0]
    {
      buf := buf + [if b then 1 else 0];
    }

    method PutBytes(data: Bytes)
      modifies this
      ensures buf == old(buf) + data
    {
      buf := buf + data;
    }

    method PutString(text: Bytes)
      modifies this
      ensures buf == old(buf) + (BigEndian(|text|, 4) + text)
    {
      PutUnsigned(|text|, 4);
      PutBytes(text);
    }
  }

  /** `n` shifted right by `i` bytes. */
  function Shift(n: nat, i: nat): nat {
    if i == 0 then n else Shift(n / 256, i - 1)
  }

  lemma {:induction false} ShiftNext(n: nat, i: nat)
    ensures Shift(n, i + 1) == Shift(n, i) / 256
    decreases i
  {
    if i > 0 {
      ShiftNext(n / 256, i - 1);
    }
  }

  /** Write a value field by field and item by item. */
  method Serialize(w: BinaryWriter, f: Format, v: Value)
    requires Shaped(f, v)
    modifies w
    ensures w.buf == old(w.buf) + Encode(f, v)
    decreases f, 0
  {
    hide BigEndian, EncodeItems;
    match f {
      case Num(width) => w.PutUnsigned(v.n, width);
      case Flag => w.PutBool(v.b);
      case Text(_) => w.PutString(v.text);
      case Opt(g) =>
        w.PutBool(v.o.Some?);
        if v.o.Some? {
          Serialize(w, g, v.o.value);
        }
      case Many(_, g) =>
        w.PutUnsigned(|v.l|, 4);
        SerializeItems(w, g, v.l);
      case Both(g, h) =>
        Serialize(w, g, v.x);
        Serialize(w, h, v.y);
    }
  }

  method SerializeItems(w: BinaryWriter, g: Format, l: seq<Value>)
    requires forall i :: 0 <= i < |l| ==> Shaped(g, l[i])
    modifies w
    ensures w.buf == old(w.buf) + EncodeItems(g, l)
    decreases g, 1
  {
    hide Encode, EncodeItems, Shaped;
    NoItems(g, l);
    for i := 0 to |l|
      invariant w.buf + EncodeItems(g, l[i..]) == old(w.buf) + EncodeItems(g, l)
    {
      NextItem(w.buf, g, l, i);
      Serialize(w, g, l[i]);
    }
  }

  lemma NoItems(g: Format, l: seq<Value>)
    requires forall i :: 0 <= i < |l| ==> Shaped(g, l[i])
    ensures l[0..] == l && EncodeItems(g, l[|l|..]) == []
  {
    hide Shaped, Encode;
  }

  lemma NextItem(buf: Bytes, g: Format, l: seq<Value>, i: nat)
    requires i < |l| && forall i :: 0 <= i < |l| ==> Shaped(g, l[i])
    ensures buf + EncodeItems(g, l[i..]) == (buf + Encode(g, l[i])) + EncodeItems(g, l[i + 1..])
  {
    hide Shaped, Encode;
    assert l[i..][0] == l[i] && l[i..][1..] == l[i + 1..];
  }

  // ----- the reader -----

  class BinaryReader {
    const data: Bytes
    var pos: nat

    ghost predicate Valid() reads this {
      pos <= |data|
    }

    function Rest(): Bytes
      requires Valid()
      reads this
    {
      data[pos..]
    }

    constructor (bytes: Bytes)
      ensures Valid() && Rest() == bytes
    {
      data, pos := bytes, 0;
    }

    method ReadUnsigned(width: nat) returns (r: Option<nat>)
      requires Valid()
      modifies this`pos
      ensures Valid()
      ensures r == None <==> |old(Rest())| < width
      ensures r == None ==> pos == old(pos)
      ensures r.Some? ==> r.value == FromBigEndian(old(Rest())[..width]) && Rest() == old(Rest())[width..]
    {
      if pos + width > |data| {
        return None;
      }
      ghost var s := Rest();
      var v: nat := 0;
      for i := 0 to width
        invariant v == FromBigEndian(s[..i])
      {
        assert s[..i + 1][..i] == s[..i] && s[i] == data[pos + i];
        v := v * 256 + data[pos + i];
      }
      pos := pos + width;
      return Some(v);
    }

    method ReadString(limit: nat) returns (r: Option<Bytes>)
      requires Valid()
      modifies this`pos
      ensures Valid()
      ensures match Decode(Text(limit), old(Rest()))
              case None => r == None
              case Some(p) => r == Some(p.value.text) && Rest() == p.rest
    {
      ghost var s := Rest();
      var n := ReadUnsigned(4);
      if n == None || n.value > limit || pos + n.value > |data| {
        return None;
      }
      var text := data[pos..pos + n.value];
      assert data[pos..][..n.value] == text && data[pos..][n.value..] == data[pos + n.value..];
      assert s[4..][..n.value] == s[4..4 + n.value] && s[4..][n.value..] == s[4 + n.value..];
      pos := pos + n.value;
      return Some(text);
    }
  }

  /** Read a value; on failure the reader may have moved. */
  method Deserialize(r: BinaryReader, f: Format) returns (v: Option<Value>)
    requires r.Valid()
    modifies r`pos
    ensures r.Valid()
    ensures match Decode(f, old(r.Rest()))
            case None => v == None
            case Some(p) => v == Some(p.value) && r.Rest() == p.rest
    decreases f, 0
  {
    v := None;
    match f {
      case Num(width) =>
        var n := r.ReadUnsigned(width);
        if n.Some? { v := Some(N(n.value)); }
      case Flag =>
        var b := r.ReadUnsigned(1);
        if b.Some? { v := Some(B(b.value != 0)); }
      case Text(limit) =>
        var text := r.ReadString(limit);
        if text.Some? { v := Some(T(text.value)); }
      case Opt(g) =>
        var present := r.ReadUnsigned(1);
        if present.Some? {
          if present.value != 0 {
            var x := Deserialize(r, g);
            if x.Some? { v := Some(O(x)); }
          } else {
            v := Some(O(None));
          }
        }
      case Many(limit, g) =>
        var n := r.ReadUnsigned(4);
        if n.Some? && n.value <= limit {
          var l := DeserializeItems(r, g, n.value);
          if l.Some? { v := Some(L(l.value)); }
        }
      case Both(g, h) =>
        var x := Deserialize(r, g);
        if x.Some? {
          var y := Deserialize(r, h);
          if y.Some? { v := Some(P(x.value, y.value)); }
        }
    }
  }

  method DeserializeItems(r: BinaryReader, g: Format, n: nat) returns (l: Option<seq<Value>>)
    requires r.Valid()
    modifies r`pos
    ensures r.Valid()
    ensures match DecodeItems(g, n, old(r.Rest()))
            case None => l == None
            case Some(p) => l == Some(p.value) && r.Rest() == p.rest
    decreases g, 1
  {
    var out: seq<Value> := [];
    ghost var s := r.Rest();
    PrependNone(DecodeItems(g, n, s));
    for i := 0 to n
      invariant r.Valid()
      invariant DecodeItems(g, n, s) == Prepend(out, DecodeItems(g, n - i, r.Rest()))
    {
      ghost var before := r.Rest();
      PrependOne(g, n - i, before, out);
      var x := Deserialize(r, g);
      if x == None {
        return None;
      }
      out := out + [x.value];
    }
    assert out + [] == out;
    return Some(out);
  }

  /** A parse with values already read put in front. */
  function Prepend(l: seq<Value>, p: Option<Parsed<seq<Value>>>): Option<Parsed<seq<Value>>> {
    if p == None then None else Some(Parsed(l + p.value.value, p.value.rest))
  }

  lemma PrependNone(p: Option<Parsed<seq<Value>>>)
    ensures Prepend([], p) == p
  {
    if p.Some? { assert [] + p.value.value == p.value.value; }
  }

  lemma PrependOne(g: Format, n: nat, s: Bytes, l: seq<Value>)
    requires n > 0
    ensures Prepend(l, DecodeItems(g, n, s))
            == if Decode(g, s) == None then None
               else Prepend(l + [Decode(g, s).value.value], DecodeItems(g, n - 1, Decode(g, s).value.rest))
  {
    if Decode(g, s).Some? {
      var x, q := Decode(g, s).value.value, DecodeItems(g, n - 1, Decode(g, s).value.rest);
      if q.Some? { assert l + ([x] + q.value.value) == l + [x] + q.value.value; }
    }
  }
}
