/** UTF-8 as TextDecoder reads it (WHATWG Encoding Standard, section 8.1.1): byte by byte, with
    the bytes of an unfinished character kept between calls, in fatal mode.  A text is a
    sequence of Unicode scalar values. */
module Utf8 {
  import opened Common

  newtype byte = b: int | 0 <= b < 256

  const BYTE_ORDER_MARK: char := '\U{FEFF}'

  function CharLength(c: char): (n: nat)
    ensures 1 <= n <= 4
  {
    if c as int < 0x80 then 1 else if c as int < 0x800 then 2 else if c as int < 0x10000 then 3 else 4
  }

  function EncodeChar(c: char): (r: seq<byte>)
    ensures |r| == CharLength(c)
  {
    var n := c as int;
    if n < 0x80 then [n as byte]
    else if n < 0x800 then [(0xC0 + n / 64) as byte, (0x80 + n % 64) as byte]
    else if n < 0x10000 then [(0xE0 + n / 4096) as byte, (0x80 + n / 64 % 64) as byte, (0x80 + n % 64) as byte]
    else [(0xF0 + n / 262144) as byte, (0x80 + n / 4096 % 64) as byte, (0x80 + n / 64 % 64) as byte, (0x80 + n % 64) as byte]
  }

  /** The first byte says how many bytes there are; the number is the rest of it, followed by six bits
      from every other byte, the most significant first; and no shorter form would do. */
  lemma EncodingMeans(c: char)
    ensures var n, r := c as int, EncodeChar(c);
      && (|r| == 1 ==> r[0] as int == n < 0x80)
      && (|r| == 2 ==> n == (r[0] as int - 0xC0) * 64 + (r[1] as int - 0x80) && 0x80 <= n < 0x800)
      && (|r| == 3 ==> n == (r[0] as int - 0xE0) * 4096 + (r[1] as int - 0x80) * 64 + (r[2] as int - 0x80) && 0x800 <= n < 0x1_0000)
      && (|r| == 4 ==> n == (r[0] as int - 0xF0) * 262144 + (r[1] as int - 0x80) * 4096 + (r[2] as int - 0x80) * 64
                            + (r[3] as int - 0x80) && 0x1_0000 <= n)
      && (forall i :: 0 < i < |r| ==> 0x80 <= r[i] < 0xC0)
  {
    var n := c as int;
    if 0x800 <= n < 0x10000 {
      Split3(n);
    }
    if 0x10000 <= n {
      Split4(n);
    }
  }

  function Encode(text: string): seq<byte> {
    if text == "" then [] else EncodeChar(text[0]) + Encode(text[1..])
  }

  function ByteLength(text: string): nat {
    if text == "" then 0 else CharLength(text[0]) + ByteLength(text[1..])
  }

  lemma {:induction false} EncodeLength(text: string)
    ensures |Encode(text)| == ByteLength(text)
  {
    if text != "" {
      EncodeLength(text[1..]);
    }
  }

  lemma {:induction false} EncodeConcat(a: string, b: string)
    ensures Encode(a + b) == Encode(a) + Encode(b)
  {
    if a == "" {
      assert a + b == b;
    } else {
      assert (a + b)[1..] == a[1..] + b;
      EncodeConcat(a[1..], b);
      assert EncodeChar(a[0]) + (Encode(a[1..]) + Encode(b)) == (EncodeChar(a[0]) + Encode(a[1..])) + Encode(b);
    }
  }

  lemma {:induction false} ByteLengthConcat(a: string, b: string)
    ensures ByteLength(a + b) == ByteLength(a) + ByteLength(b)
  {
    if a == "" {
      assert a + b == b;
    } else {
      assert (a + b)[1..] == a[1..] + b;
      ByteLengthConcat(a[1..], b);
    }
  }

  /** A decoder between two bytes: how many bytes the character still needs, its value so
      far, the range of the next byte, and whether the start of the text is behind. */
  datatype Decoder = Decoder(needed: nat, value: nat, lower: byte, upper: byte, begun: bool)

  const START := Decoder(0, 0, 0x80, 0xBF, false)

  /** One byte: the decoder afterwards and the character it completes, if any; or an error. */
  function Next(d: Decoder, b: byte): Result<(Decoder, Option<char>), Error> {
    if d.needed == 0 then
      if b < 0x80 then Ok((d, Some(b as char)))
      else if 0xC2 <= b <= 0xDF then Ok((d.(needed := 1, value := b as nat - 0xC0), None))
      else if 0xE0 <= b <= 0xEF then
        Ok((d.(needed := 2, value := b as nat - 0xE0, lower := if b == 0xE0 then 0xA0 else 0x80,
               upper := if b == 0xED then 0x9F else 0xBF), None))
      else if 0xF0 <= b <= 0xF4 then
        Ok((d.(needed := 3, value := b as nat - 0xF0, lower := if b == 0xF0 then 0x90 else 0x80,
               upper := if b == 0xF4 then 0x8F else 0xBF), None))
      else Err(Foreign(0))
    else if b < d.lower || b > d.upper then Err(Foreign(0))
    else
      var value := d.value * 64 + b as nat % 64;
      var e := d.(needed := d.needed - 1, value := value, lower := 0x80, upper := 0xBF);
      if d.needed > 1 then Ok((e, None))
      else if 0 <= value < 0xD800 || 0xE000 <= value < 0x11_0000 then Ok((e.(value := 0), Some(value as char)))
      else Err(Foreign(0))
  }

  /** A byte order mark at the very start is not part of the text. */
  function Emit(d: Decoder, c: Option<char>): (Decoder, string) {
    match c
    case None => (d, "")
    case Some(x) => (d.(begun := true), if !d.begun && x == BYTE_ORDER_MARK then "" else [x])
  }

  datatype Decoded = Text(text: string, rest: Decoder) | Malformed

  /** One call of decode with `stream: true`. */
  function Decode(d: Decoder, bytes: seq<byte>): Decoded
    decreases |bytes|
  {
    if bytes == [] then Text("", d)
    else
      match Next(d, bytes[0])
      case Err(_) => Malformed
      case Ok((e, c)) =>
        var (f, head) := Emit(e, c);
        match Decode(f, bytes[1..])
        case Malformed => Malformed
        case Text(tail, rest) => Text(head + tail, rest)
  }

  /** Where a chunk ends does not matter. */
  lemma {:induction false} DecodeConcat(d: Decoder, a: seq<byte>, b: seq<byte>)
    ensures Decode(d, a + b) ==
            match Decode(d, a)
            case Malformed => Malformed
            case Text(x, e) =>
              match Decode(e, b)
              case Malformed => Malformed
              case Text(y, f) => Text(x + y, f)
    decreases |a|
  {
    if a == [] {
      assert a + b == b;
    } else {
      assert (a + b)[1..] == a[1..] + b;
      var n := Next(d, a[0]);
      if n.Ok? {
        var (f, head) := Emit(n.value.0, n.value.1);
        DecodeConcat(f, a[1..], b);
        if Decode(f, a[1..]).Text? && Decode(Decode(f, a[1..]).rest, b).Text? {
          var x, y := Decode(f, a[1..]).text, Decode(Decode(f, a[1..]).rest, b).text;
          assert head + (x + y) == (head + x) + y;
        }
      }
    }
  }

  predicate Clean(d: Decoder) {
    d.needed == 0
  }

  /** A byte in the middle of a character. */
  lemma DecodeInner(d: Decoder, bytes: seq<byte>, e: Decoder)
    requires bytes != [] && Next(d, bytes[0]) == Ok((e, None))
    ensures Decode(d, bytes) == Decode(e, bytes[1..])
  {
    var rest := Decode(e, bytes[1..]);
    if rest.Text? {
      assert "" + rest.text == rest.text;
    }
  }

  /** The last byte of a character. */
  lemma DecodeLast(d: Decoder, b: byte, e: Decoder, c: char)
    requires Next(d, b) == Ok((e, Some(c)))
    ensures Decode(d, [b]) == Text(Emit(e, Some(c)).1, e.(begun := true))
  {
    assert [b][1..] == [];
    assert Decode(e.(begun := true), []) == Text("", e.(begun := true));
  }

  /** One encoded character is read back as itself. */
  lemma DecodeChar(d: Decoder, c: char)
    requires d == START.(begun := d.begun)
    ensures Decode(d, EncodeChar(c)) == Text(Emit(d, Some(c)).1, START.(begun := true))
  {
    var n := c as int;
    if n < 0x80 {
      DecodeLast(d, n as byte, d, c);
    } else if n < 0x800 {
      DecodeTwo(d, c);
    } else if n < 0x10000 {
      DecodeThree(d, c);
    } else {
      DecodeFour(d, c);
    }
  }

  lemma DecodeTwo(d: Decoder, c: char)
    requires d == START.(begun := d.begun) && CharLength(c) == 2
    ensures Decode(d, EncodeChar(c)) == Text(Emit(d, Some(c)).1, START.(begun := true))
  {
    var n, r := c as int, EncodeChar(c);
    var e := d.(needed := 1, value := n / 64);
    hide Decode;
    DecodeInner(d, r, e);
    assert r[1..] == [r[1]];
    DecodeLast(e, r[1], d, c);
  }

  lemma DecodeThree(d: Decoder, c: char)
    requires d == START.(begun := d.begun) && CharLength(c) == 3
    ensures Decode(d, EncodeChar(c)) == Text(Emit(d, Some(c)).1, START.(begun := true))
  {
    var r := EncodeChar(c);
    var e, f := ThreeBytes(d, c);
    hide Decode, Emit, Next, EncodeChar;
    DecodeInner(d, r, e);
    assert r[1..] == [r[1], r[2]] && r[1..][1..] == [r[2]];
    DecodeInner(e, r[1..], f);
    DecodeLast(f, r[2], d, c);
  }

  lemma ThreeBytes(d: Decoder, c: char) returns (e: Decoder, f: Decoder)
    requires d == START.(begun := d.begun) && CharLength(c) == 3
    ensures var r := EncodeChar(c);
      |r| == 3 && Next(d, r[0]) == Ok((e, None)) && Next(e, r[1]) == Ok((f, None)) && Next(f, r[2]) == Ok((d, Some(c)))
  {
    var n, r := c as int, EncodeChar(c);
    Split3(n);
    var q0, q1, q2 := n / 4096, n / 64 % 64, n % 64;
    assert r == [(0xE0 + q0) as byte, (0x80 + q1) as byte, (0x80 + q2) as byte];
    hide EncodeChar, Next;
    e := d.(needed := 2, value := q0, lower := if q0 == 0 then 0xA0 else 0x80, upper := if q0 == 13 then 0x9F else 0xBF);
    f := d.(needed := 1, value := q0 * 64 + q1);
    NextOfThree(d, q0);
    NextInner(e, q1);
    NextLast(f, q2, c);
  }

  lemma NextOfThree(d: Decoder, q: nat)
    requires d.needed == 0 && q < 16
    ensures Next(d, (0xE0 + q) as byte) == Ok((d.(needed := 2, value := q, lower := if q == 0 then 0xA0 else 0x80,
                                                  upper := if q == 13 then 0x9F else 0xBF), None))
  {
  }

  lemma DecodeFour(d: Decoder, c: char)
    requires d == START.(begun := d.begun) && CharLength(c) == 4
    ensures Decode(d, EncodeChar(c)) == Text(Emit(d, Some(c)).1, START.(begun := true))
  {
    var r := EncodeChar(c);
    var e, f, g := FourBytes(d, c);
    hide Decode, Emit, Next, EncodeChar;
    DecodeInner(d, r, e);
    assert r[1..] == [r[1], r[2], r[3]] && r[1..][1..] == [r[2], r[3]] && r[1..][1..][1..] == [r[3]];
    DecodeInner(e, r[1..], f);
    DecodeInner(f, r[1..][1..], g);
    DecodeLast(g, r[3], d, c);
  }

  lemma FourBytes(d: Decoder, c: char) returns (e: Decoder, f: Decoder, g: Decoder)
    requires d == START.(begun := d.begun) && CharLength(c) == 4
    ensures var r := EncodeChar(c);
      && |r| == 4 && Next(d, r[0]) == Ok((e, None)) && Next(e, r[1]) == Ok((f, None)) && Next(f, r[2]) == Ok((g, None))
      && Next(g, r[3]) == Ok((d, Some(c)))
  {
    var q0, q1, q2, q3 := FourParts(c);
    hide EncodeChar, Next;
    e := d.(needed := 3, value := q0, lower := if q0 == 0 then 0x90 else 0x80, upper := if q0 == 4 then 0x8F else 0xBF);
    f := d.(needed := 2, value := q0 * 64 + q1);
    g := d.(needed := 1, value := (q0 * 64 + q1) * 64 + q2);
    NextOfFour(d, q0);
    NextInner(e, q1);
    NextInner(f, q2);
    NextLast(g, q3, c);
  }

  /** The parts of the number of a character of four bytes. */
  lemma FourParts(c: char) returns (q0: nat, q1: nat, q2: nat, q3: nat)
    requires CharLength(c) == 4
    ensures q0 <= 4 && q1 < 64 && q2 < 64 && q3 < 64 && c as int == ((q0 * 64 + q1) * 64 + q2) * 64 + q3
    ensures (q0 == 0 ==> q1 >= 0x10) && (q0 == 4 ==> q1 <= 0x0F)
    ensures EncodeChar(c) == [(0xF0 + q0) as byte, (0x80 + q1) as byte, (0x80 + q2) as byte, (0x80 + q3) as byte]
  {
    var n := c as int;
    Split4(n);
    q0, q1, q2, q3 := n / 262144, n / 4096 % 64, n / 64 % 64, n % 64;
  }

  lemma NextOfFour(d: Decoder, q: nat)
    requires d.needed == 0 && q <= 4
    ensures Next(d, (0xF0 + q) as byte) == Ok((d.(needed := 3, value := q, lower := if q == 0 then 0x90 else 0x80,
                                                  upper := if q == 4 then 0x8F else 0xBF), None))
  {
  }

  lemma NextInner(d: Decoder, q: nat)
    requires d.needed > 1 && q < 64 && d.lower as int <= 0x80 + q <= d.upper as int
    ensures Next(d, (0x80 + q) as byte)
         == Ok((d.(needed := d.needed - 1, value := d.value * 64 + q, lower := 0x80, upper := 0xBF), None))
  {
  }

  lemma NextLast(d: Decoder, q: nat, c: char)
    requires d.needed == 1 && q < 64 && d.lower as int <= 0x80 + q <= d.upper as int && d.value * 64 + q == c as int
    ensures Next(d, (0x80 + q) as byte) == Ok((d.(needed := 0, value := 0, lower := 0x80, upper := 0xBF), Some(c)))
  {
  }

  lemma Split3(n: int)
    requires 0x800 <= n < 0x10000
    ensures (n / 4096 * 64 + n / 64 % 64) * 64 + n % 64 == n
    ensures n / 4096 == 0 ==> n / 64 % 64 >= 0x20
    ensures n / 4096 == 13 && (n < 0xD800) ==> n / 64 % 64 <= 0x1F
  {
  }

  lemma Split4(n: int)
    requires 0x10000 <= n < 0x11_0000
    ensures ((n / 262144 * 64 + n / 4096 % 64) * 64 + n / 64 % 64) * 64 + n % 64 == n
    ensures n / 262144 <= 4
    ensures n / 262144 == 0 ==> n / 4096 % 64 >= 0x10
    ensures n / 262144 == 4 ==> n / 4096 % 64 <= 0x0F
  {
  }

  /** Encoded text is read back, wherever the bytes are cut. */
  lemma {:induction false} DecodeEncode(d: Decoder, text: string)
    requires d == START.(begun := d.begun)
    requires d.begun || text == "" || text[0] != BYTE_ORDER_MARK
    ensures Decode(d, Encode(text)) == Text(text, START.(begun := d.begun || text != ""))
    decreases |text|
  {
    if text != "" {
      DecodeChar(d, text[0]);
      DecodeEncode(START.(begun := true), text[1..]);
      DecodeConcat(d, EncodeChar(text[0]), Encode(text[1..]));
    }
  }

  /** One mark at the very start is dropped; any other is text. */
  lemma MarkIsDropped(text: string)
    ensures Decode(START, Encode([BYTE_ORDER_MARK] + text)) == Text(text, START.(begun := true))
  {
    var marked := [BYTE_ORDER_MARK] + text;
    assert marked[0] == BYTE_ORDER_MARK && marked[1..] == text;
    DecodeChar(START, BYTE_ORDER_MARK);
    DecodeEncode(START.(begun := true), text);
    DecodeConcat(START, EncodeChar(BYTE_ORDER_MARK), Encode(text));
    hide Decode, EncodeChar;
    assert "" + text == text;
  }

  // ---------------------------------------------------------------- only encodings are accepted

  lemma SomethingLeft(d: Decoder, bytes: seq<byte>)
    requires d.needed > 0 && Decode(d, bytes).Text? && Clean(Decode(d, bytes).rest)
    ensures bytes != []
  {
  }

  /** A byte in the middle of a character that goes on. */
  lemma GoesOn(d: Decoder, bytes: seq<byte>, e: Decoder)
    requires bytes != [] && Next(d, bytes[0]) == Ok((e, None)) && e.needed > 0
    requires Decode(d, bytes).Text? && Clean(Decode(d, bytes).rest)
    ensures |bytes| > 1 && Decode(e, bytes[1..]) == Decode(d, bytes) && Next(e, bytes[1]).Ok?
  {
    DecodeInner(d, bytes, e);
    SomethingLeft(e, bytes[1..]);
  }

  /** The bytes up to the end of the first character are the encoding of that character. */
  lemma FirstChar(d: Decoder, bytes: seq<byte>) returns (n: nat, c: char)
    requires d == START.(begun := true) && bytes != [] && Decode(d, bytes).Text? && Clean(Decode(d, bytes).rest)
    ensures 1 <= n <= |bytes| && EncodeChar(c) == bytes[..n]
  {
    var b := bytes[0];
    if b < 0x80 {
      n, c := 1, b as char;
    } else {
      var e := Next(d, b).value.0;
      hide Decode;
      GoesOn(d, bytes, e);
      if b <= 0xDF {
        n, c := 2, Next(e, bytes[1]).value.1.value;
      } else {
        n, c := LongChar(d, bytes, e);
      }
    }
  }

  lemma LongChar(d: Decoder, bytes: seq<byte>, e: Decoder) returns (n: nat, c: char)
    requires d == START.(begun := true) && |bytes| > 1 && bytes[0] >= 0xE0 && Next(d, bytes[0]) == Ok((e, None))
    requires Decode(e, bytes[1..]).Text? && Clean(Decode(e, bytes[1..]).rest) && Next(e, bytes[1]).Ok?
    ensures 1 <= n <= |bytes| && EncodeChar(c) == bytes[..n]
  {
    var f := Next(e, bytes[1]).value.0;
    hide Decode;
    assert bytes[1..][0] == bytes[1];
    GoesOn(e, bytes[1..], f);
    assert bytes[1..][1] == bytes[2] && bytes[1..][1..] == bytes[2..];
    if bytes[0] <= 0xEF {
      n, c := 3, Next(f, bytes[2]).value.1.value;
      Joins3(bytes[0], bytes[1], bytes[2], c);
    } else {
      var g := Next(f, bytes[2]).value.0;
      assert bytes[2..][0] == bytes[2];
      GoesOn(f, bytes[2..], g);
      assert bytes[2..][1] == bytes[3];
      n, c := 4, Next(g, bytes[3]).value.1.value;
      Joins4(bytes[0], bytes[1], bytes[2], bytes[3], c);
    }
  }

  lemma Joins3(a: byte, b: byte, x: byte, c: char)
    requires 0xE0 <= a <= 0xEF && 0x80 <= b <= 0xBF && 0x80 <= x <= 0xBF && (a == 0xE0 ==> b >= 0xA0)
    requires c as int == ((a as int - 0xE0) * 64 + b as int % 64) * 64 + x as int % 64
    ensures EncodeChar(c) == [a, b, x]
  {
    var n, p, q, r := c as int, a as int - 0xE0, b as int - 0x80, x as int - 0x80;
    assert b as int % 64 == q && x as int % 64 == r;
    assert n == p * 4096 + q * 64 + r && n >= 0x800 && n < 0x10000;
    assert n / 4096 == p && n / 64 % 64 == q && n % 64 == r;
  }

  lemma Joins4(a: byte, b: byte, x: byte, y: byte, c: char)
    requires 0xF0 <= a <= 0xF4 && 0x80 <= b <= 0xBF && 0x80 <= x <= 0xBF && 0x80 <= y <= 0xBF && (a == 0xF0 ==> b >= 0x90)
    requires c as int == (((a as int - 0xF0) * 64 + b as int % 64) * 64 + x as int % 64) * 64 + y as int % 64
    ensures EncodeChar(c) == [a, b, x, y]
  {
    var n, p, q, r, s := c as int, a as int - 0xF0, b as int - 0x80, x as int - 0x80, y as int - 0x80;
    assert b as int % 64 == q && x as int % 64 == r && y as int % 64 == s;
    assert n == ((p * 64 + q) * 64 + r) * 64 + s && n >= 0x10000;
    JoinedParts(p, q, r, s);
  }

  lemma JoinedParts(p: nat, q: nat, r: nat, s: nat)
    requires q < 64 && r < 64 && s < 64
    ensures var n := ((p * 64 + q) * 64 + r) * 64 + s;
      n / 262144 == p && n / 4096 % 64 == q && n / 64 % 64 == r && n % 64 == s
  {
    var n := ((p * 64 + q) * 64 + r) * 64 + s;
    assert n == ((p * 64 + q) * 64 + r) * 64 + s;
    assert n == (p * 64 + q) * 4096 + (r * 64 + s) && r * 64 + s < 4096;
    assert n == p * 262144 + (q * 4096 + r * 64 + s) && q * 4096 + r * 64 + s < 262144;
    assert n / 64 == (p * 64 + q) * 64 + r;
    assert n / 4096 == p * 64 + q;
  }

  /** Whatever is decoded completely, the mark at the start apart, is the encoding of the text it gives:
      overlong forms, surrogates, stray and missing bytes are all rejected. */
  lemma {:induction false} EncodeDecode(d: Decoder, bytes: seq<byte>)
    requires d == START.(begun := true) && Decode(d, bytes).Text? && Clean(Decode(d, bytes).rest)
    ensures Encode(Decode(d, bytes).text) == bytes
    decreases |bytes|
  {
    if bytes != [] {
      var n, c := FirstChar(d, bytes);
      var head, tail := bytes[..n], bytes[n..];
      assert bytes == head + tail;
      DecodeConcat(d, head, tail);
      DecodeChar(d, c);
      hide Decode, EncodeChar;
      EncodeDecode(d, tail);
      assert ([c] + Decode(d, tail).text)[1..] == Decode(d, tail).text;
    }
  }
}
