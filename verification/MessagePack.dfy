/** The formats of a telemetry record, written and read back (MessagePack specification, section "Formats"). */
module MessagePack {
  import opened Protocol
  import opened Schema

  datatype IntFormat = Fixint | Width1 | Width2 | Width4 | Width8
  datatype Wire = WBool(b: bool) | WInt(format: IntFormat, signed: bool, v: int)
                | WFloat32(bits: nat) | WFloat64(bits: nat) | WText(text: seq<byte>)

  function Width(f: IntFormat): nat {
    match f case Fixint => 0 case Width1 => 1 case Width2 => 2 case Width4 => 4 case Width8 => 8
  }

  // 256 to the n.
  function Span(n: nat): (r: int)
    ensures r > 0
  {
    if n == 0 then 1 else 256 * Span(n - 1)
  }

  // The n low-order bytes of v, most significant first, and back.
  function BigEndian(v: int, n: nat): (r: seq<byte>)
    ensures |r| == n
    decreases n
  {
    if n == 0 then [] else BigEndian(v / 256, n - 1) + [(v % 256) as byte]
  }

  function FromBytes(s: seq<byte>): nat {
    if s == [] then 0 else 256 * FromBytes(s[..|s| - 1]) + s[|s| - 1] as nat
  }

  lemma {:induction false} BytesBack(v: int, n: nat)
    ensures FromBytes(BigEndian(v, n)) == v % Span(n)
    decreases n
  {
    if n > 0 {
      BytesBack(v / 256, n - 1);
      var s := BigEndian(v, n);
      assert s[..|s| - 1] == BigEndian(v / 256, n - 1);
      Nested(v, Span(n - 1));
    }
  }

  lemma Nested(v: int, m: nat)
    requires m > 0
    ensures 256 * m > 0 && 256 * ((v / 256) % m) + v % 256 == v % (256 * m)
  {
    var q, r := (v / 256) / m, (v / 256) % m;
    assert v == 256 * (q * m + r) + v % 256;
    assert v == q * (256 * m) + (256 * r + v % 256);
    assert 0 <= 256 * r + v % 256 < 256 * m;
    Unique(v, 256 * m, q, 256 * r + v % 256);
  }

  lemma Unique(v: int, m: nat, q: int, r: int)
    requires m > 0 && v == q * m + r && 0 <= r < m
    ensures v % m == r
  {
    var d := v / m - q;
    assert v % m == r - d * m;
    if d != 0 { Apart(d, m); }
  }

  lemma Apart(d: int, m: int)
    requires d != 0 && m > 0
    ensures d * m >= m || d * m <= -m
  {
    if d > 0 { assert (d - 1) * m >= 0; } else { assert (-d - 1) * m >= 0; }
  }

  // ---- Writing ----------------------------------------------------------------------------------

  function EncodeText(s: seq<byte>): seq<byte> {
    if |s| <= 31 then [(0xa0 + |s|) as byte] + s
    else if |s| <= 255 then [0xd9, |s| as byte] + s
    else [0xda] + BigEndian(|s|, 2) + s
  }

  function IntMarker(f: IntFormat, signed: bool): byte
    requires f != Fixint
  {
    match f
    case Width1 => if signed then 0xd0 else 0xcc case Width2 => if signed then 0xd1 else 0xcd
    case Width4 => if signed then 0xd2 else 0xce case Width8 => if signed then 0xd3 else 0xcf
  }

  function Encode(w: Wire): seq<byte> {
    match w
    case WBool(b) => [if b then 0xc3 else 0xc2]
    case WInt(Fixint, _, v) => [(v % 256) as byte]
    case WInt(f, signed, v) => [IntMarker(f, signed)] + BigEndian(v, Width(f))
    case WFloat32(bits) => [0xca] + BigEndian(bits, 4)
    case WFloat64(bits) => [0xcb] + BigEndian(bits, 8)
    case WText(s) => EncodeText(s)
  }

  // ---- Reading ----------------------------------------------------------------------------------

  function TwoTo(k: int): real
    decreases if k < 0 then -k else k
  {
    if k == 0 then 1.0 else if k > 0 then 2.0 * TwoTo(k - 1) else TwoTo(k + 1) / 2.0
  }

  // IEEE 754 with e exponent bits and m fraction bits; infinities and NaN are not numbers here.
  function Ieee(bits: nat, e: int, m: int): Value {
    var sign := if bits / Pow2(e + m) % 2 == 1 then -1.0 else 1.0;
    var exponent, fraction := bits / Pow2(m) % Pow2(e), bits % Pow2(m);
    if exponent == Pow2(e) - 1 then Other
    else if exponent == 0 then Real(sign * fraction as real * TwoTo(2 - Pow2(e - 1) - m))
    else Real(sign * (Pow2(m) + fraction) as real * TwoTo(exponent - (Pow2(e - 1) - 1) - m))
  }

  function Pow2(k: int): (r: int)
    ensures r > 0
    decreases k
  {
    if k <= 0 then 1 else 2 * Pow2(k - 1)
  }

  function Chars(s: seq<byte>): string { seq(|s|, i requires 0 <= i < |s| => s[i] as char) }

  // What the wire stands for.
  function ValueOf(w: Wire): Value {
    match w
    case WBool(b) => Bool(b)
    case WInt(f, signed, v) => if signed || f == Fixint then Signed(v) else Unsigned(v)
    case WFloat32(bits) => Ieee(bits, 8, 23)
    case WFloat64(bits) => Ieee(bits, 11, 52)
    case WText(s) => Str(Chars(s))
  }

  // Numbers a format can hold, text short enough for it.
  predicate Proper(w: Wire) {
    match w
    case WBool(_) => true
    case WInt(Fixint, _, v) => -32 <= v <= 127
    case WInt(f, signed, v) =>
      if signed then -Span(Width(f)) / 2 <= v < Span(Width(f)) / 2 else 0 <= v < Span(Width(f))
    case WFloat32(bits) => bits < Span(4)
    case WFloat64(bits) => bits < Span(8)
    case WText(s) => |s| < 65536
  }

  function Signedness(raw: nat, n: nat): int { if raw >= Span(n) / 2 then raw - Span(n) else raw }

  // The first value of the bytes and what follows it.
  function Read(s: seq<byte>): Option<(Value, seq<byte>)> {
    if s == [] then None
    else
      var m := s[0] as int;
      if m < 0x80 then Some((Signed(m), s[1..]))
      else if m >= 0xe0 then Some((Signed(m - 256), s[1..]))
      else if 0xa0 <= m < 0xc0 then ReadText(s, 1, m - 0xa0)
      else if m == 0xc2 then Some((Bool(false), s[1..]))
      else if m == 0xc3 then Some((Bool(true), s[1..]))
      else if m == 0xca then ReadNumber(s, 4, (n: nat) => Ieee(n, 8, 23))
      else if m == 0xcb then ReadNumber(s, 8, (n: nat) => Ieee(n, 11, 52))
      else if m == 0xcc then ReadNumber(s, 1, (n: nat) => Unsigned(n))
      else if m == 0xcd then ReadNumber(s, 2, (n: nat) => Unsigned(n))
      else if m == 0xce then ReadNumber(s, 4, (n: nat) => Unsigned(n))
      else if m == 0xcf then ReadNumber(s, 8, (n: nat) => Unsigned(n))
      else if m == 0xd0 then ReadNumber(s, 1, (n: nat) => Signed(Signedness(n, 1)))
      else if m == 0xd1 then ReadNumber(s, 2, (n: nat) => Signed(Signedness(n, 2)))
      else if m == 0xd2 then ReadNumber(s, 4, (n: nat) => Signed(Signedness(n, 4)))
      else if m == 0xd3 then ReadNumber(s, 8, (n: nat) => Signed(Signedness(n, 8)))
      else if m == 0xd9 && |s| >= 2 then ReadText(s, 2, s[1] as nat)
      else if m == 0xda && |s| >= 3 then ReadText(s, 3, FromBytes(s[1..3]))
      else None
  }

  function ReadNumber(s: seq<byte>, n: nat, value: nat -> Value): Option<(Value, seq<byte>)>
    requires |s| > 0
  {
    if |s| < 1 + n then None else Some((value(FromBytes(s[1..1 + n])), s[1 + n..]))
  }

  function ReadText(s: seq<byte>, start: nat, n: nat): Option<(Value, seq<byte>)>
    requires start <= |s|
  {
    if |s| < start + n then None else Some((Str(Chars(s[start..start + n])), s[start + n..]))
  }

  /** A value written in any of its formats reads back as itself, whatever follows. */
  lemma ReadBack(w: Wire, rest: seq<byte>)
    requires Proper(w)
    ensures Read(Encode(w) + rest) == Some((ValueOf(w), rest))
  {
    hide Read, Ieee, BigEndian, Chars, IntMarker;
    match w
    case WBool(_) => ShortBack(w, rest);
    case WInt(Fixint, _, v) => ShortBack(w, rest);
    case WInt(f, signed, v) => IntBack(f, signed, v, rest);
    case WFloat32(bits) => FloatBack(w, rest);
    case WFloat64(bits) => FloatBack(w, rest);
    case WText(s) => TextBack(s, rest);
  }

  lemma ShortBack(w: Wire, rest: seq<byte>)
    requires (w.WBool? || (w.WInt? && w.format == Fixint)) && Proper(w)
    ensures Read(Encode(w) + rest) == Some((ValueOf(w), rest))
  {
    hide ReadNumber, ReadText, Ieee, BigEndian, FromBytes, Chars;
    assert (Encode(w) + rest)[1..] == rest;
  }

  lemma FloatBack(w: Wire, rest: seq<byte>)
    requires (w.WFloat32? || w.WFloat64?) && Proper(w)
    ensures Read(Encode(w) + rest) == Some((ValueOf(w), rest))
  {
    hide Span, BigEndian, FromBytes, Ieee, ReadText;
    var n := if w.WFloat32? then 4 else 8;
    NumberBack(if w.WFloat32? then 0xca else 0xcb, w.bits, n, rest);
    Unique(w.bits, Span(n), 0, w.bits);
  }

  lemma NumberBack(marker: byte, v: int, n: nat, rest: seq<byte>)
    ensures var s := [marker] + BigEndian(v, n) + rest;
      |s| >= 1 + n && s[0] == marker && FromBytes(s[1..1 + n]) == v % Span(n) && s[1 + n..] == rest
  {
    var s := [marker] + BigEndian(v, n) + rest;
    assert s[1..1 + n] == BigEndian(v, n);
    BytesBack(v, n);
  }

  lemma Spans()
    ensures Span(1) == 0x100 && Span(2) == 0x1_0000 && Span(4) == 0x1_0000_0000 && Span(8) == 0x1_0000_0000_0000_0000
  {
    assert Span(1) == 256 * Span(0);
    assert Span(2) == 256 * Span(1);
    assert Span(3) == 256 * Span(2);
    assert Span(4) == 256 * Span(3);
    assert Span(5) == 256 * Span(4);
    assert Span(6) == 256 * Span(5);
    assert Span(7) == 256 * Span(6);
  }

  lemma IntBack(f: IntFormat, signed: bool, v: int, rest: seq<byte>)
    requires f != Fixint && Proper(WInt(f, signed, v))
    ensures Read(Encode(WInt(f, signed, v)) + rest) == Some((if signed then Signed(v) else Unsigned(v), rest))
  {
    hide Span, BigEndian, FromBytes;
    Spans();
    var marker, n := IntMarker(f, signed), Width(f);
    NumberBack(marker, v, n, rest);
    if signed {
      if v < 0 { Unique(v, Span(n), -1, v + Span(n)); } else { Unique(v, Span(n), 0, v); }
      assert Signedness(v % Span(n), n) == v;
    } else {
      Unique(v, Span(n), 0, v);
    }
  }

  lemma TextBack(t: seq<byte>, rest: seq<byte>)
    requires |t| < 65536
    ensures Read(EncodeText(t) + rest) == Some((Str(Chars(t)), rest))
  {
    hide Chars, FromBytes, Span, BigEndian, ReadNumber;
    var s := EncodeText(t) + rest;
    if |t| <= 31 {
      assert s[1..1 + |t|] == t && s[1 + |t|..] == rest;
    } else if |t| <= 255 {
      assert s[2..2 + |t|] == t && s[2 + |t|..] == rest;
    } else {
      LongTextBack(t, rest);
    }
  }

  lemma LongTextBack(t: seq<byte>, rest: seq<byte>)
    requires 255 < |t| < 65536
    ensures Read(EncodeText(t) + rest) == Some((Str(Chars(t)), rest))
  {
    hide Chars, FromBytes, Span, BigEndian, ReadNumber;
    var s := EncodeText(t) + rest;
    BytesBack(|t|, 2);
    Spans();
    Unique(|t|, Span(2), 0, |t|);
    assert s[1..3] == BigEndian(|t|, 2);
    assert s[3..3 + |t|] == t && s[3 + |t|..] == rest;
  }
}
