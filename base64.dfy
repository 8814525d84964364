/**
 * Base64 as defined in section 4 of RFC 4648: the alphabet A-Z a-z 0-9 + /,
 * three bytes to four characters, and '=' padding in the final quantum.
 * This is the codec that `Buffer.from(text, "base64")` and
 * `buffer.toString("base64")` stand for in the hooks.
 */
module Base64 {
  import opened Wrappers

  type byte = x: int | 0 <= x < 256
  type sextet = x: int | 0 <= x < 64

  /** The 64 characters of the base64 alphabet (section 4 of RFC 4648, Table 1). */
  predicate IsAlphabetChar(c: char) {
    ('A' <= c <= 'Z') || ('a' <= c <= 'z') || ('0' <= c <= '9') || c == '+' || c == '/'
  }

  /** The character that encodes a 6-bit value. */
  function CharOf(v: sextet): (c: char)
    ensures IsAlphabetChar(c)
  {
    if v < 26 then ('A' as int + v) as char
    else if v < 52 then ('a' as int + (v - 26)) as char
    else if v < 62 then ('0' as int + (v - 52)) as char
    else if v == 62 then '+'
    else '/'
  }

  /** The 6-bit value an alphabet character encodes. */
  function ValueOf(c: char): (v: sextet)
    requires IsAlphabetChar(c)
    ensures CharOf(v) == c
  {
    if 'A' <= c <= 'Z' then c as int - 'A' as int
    else if 'a' <= c <= 'z' then c as int - 'a' as int + 26
    else if '0' <= c <= '9' then c as int - '0' as int + 52
    else if c == '+' then 62
    else 63
  }

  /** The alphabet is a bijection between 6-bit values and its 64 characters. */
  lemma ValueOfCharOf(v: sextet)
    ensures ValueOf(CharOf(v)) == v
  {
  }

  // ---------------------------------------------------------------------------
  // Encoding

  /** A full 24-bit group: three bytes become four characters. */
  function EncodeTriple(b0: byte, b1: byte, b2: byte): string {
    [CharOf(b0 / 4), CharOf((b0 % 4) * 16 + b1 / 16), CharOf((b1 % 16) * 4 + b2 / 64), CharOf(b2 % 64)]
  }

  /** A final group of two bytes: three characters and one '='. */
  function EncodeDouble(b0: byte, b1: byte): string {
    [CharOf(b0 / 4), CharOf((b0 % 4) * 16 + b1 / 16), CharOf((b1 % 16) * 4), '=']
  }

  /** A final group of one byte: two characters and "==". */
  function EncodeSingle(b0: byte): string {
    [CharOf(b0 / 4), CharOf((b0 % 4) * 16), '=', '=']
  }

  /** Base64 encoding of a byte string, padded. */
  function Encode(b: seq<byte>): (s: string)
    ensures |s| == 4 * ((|b| + 2) / 3)
    decreases |b|
  {
    if |b| == 0 then ""
    else if |b| == 1 then EncodeSingle(b[0])
    else if |b| == 2 then EncodeDouble(b[0], b[1])
    else EncodeTriple(b[0], b[1], b[2]) + Encode(b[3..])
  }

  // ---------------------------------------------------------------------------
  // Decoding

  /** Four alphabet characters back to three bytes. */
  function DecodeFull(q: string): Option<seq<byte>>
    requires |q| == 4
  {
    if IsAlphabetChar(q[0]) && IsAlphabetChar(q[1]) && IsAlphabetChar(q[2]) && IsAlphabetChar(q[3]) then
      var c0, c1, c2, c3 := ValueOf(q[0]), ValueOf(q[1]), ValueOf(q[2]), ValueOf(q[3]);
      Some([c0 * 4 + c1 / 16, (c1 % 16) * 16 + c2 / 4, (c2 % 4) * 64 + c3])
    else None
  }

  /**
   * The last quantum of an encoding, which may carry padding. Unused low bits
   * of the last data character are ignored, as the lenient decoders do.
   */
  function DecodeFinal(q: string): Option<seq<byte>>
    requires |q| == 4
  {
    if q[2] == '=' && q[3] == '=' then
      if IsAlphabetChar(q[0]) && IsAlphabetChar(q[1]) then
        Some([ValueOf(q[0]) * 4 + ValueOf(q[1]) / 16])
      else None
    else if q[3] == '=' then
      if IsAlphabetChar(q[0]) && IsAlphabetChar(q[1]) && IsAlphabetChar(q[2]) then
        var c0, c1, c2 := ValueOf(q[0]), ValueOf(q[1]), ValueOf(q[2]);
        Some([c0 * 4 + c1 / 16, (c1 % 16) * 16 + c2 / 4])
      else None
    else DecodeFull(q)
  }

  /**
   * Decoding of a padded base64 string; None for anything that is not one
   * (a length that is not a multiple of four, a character outside the
   * alphabet, padding before the last quantum).
   */
  function Decode(s: string): (r: Option<seq<byte>>)
    ensures |s| % 4 != 0 ==> r.None?
    ensures r.Some? ==> 3 * (|s| / 4) - 2 <= |r.value| <= 3 * (|s| / 4)
    decreases |s|
  {
    if |s| == 0 then Some([])
    else if |s| < 4 then None
    else if |s| == 4 then DecodeFinal(s)
    else
      match DecodeFull(s[..4])
      case None => None
      case Some(head) =>
        match Decode(s[4..])
        case None => None
        case Some(tail) => Some(head + tail)
  }

  /** Strings that are valid base64 in the sense of section 4 of RFC 4648. */
  predicate IsBase64(s: string) {
    Decode(s).Some?
  }

  // ---------------------------------------------------------------------------
  // Round trip

  /** Splitting a number into its quotient and remainder by 16 or by 4. */
  lemma Split16(a: nat, q: nat)
    requires q < 16
    ensures (a * 16 + q) / 16 == a && (a * 16 + q) % 16 == q
  {
  }

  lemma Split4(a: nat, q: nat)
    requires q < 4
    ensures (a * 4 + q) / 4 == a && (a * 4 + q) % 4 == q
  {
  }

  /** The bit arithmetic of one 24-bit group: the decoder reassembles the encoder's sextets. */
  lemma TripleArithmetic(b0: byte, b1: byte, b2: byte)
    ensures (b0 / 4) * 4 + ((b0 % 4) * 16 + b1 / 16) / 16 == b0
    ensures (((b0 % 4) * 16 + b1 / 16) % 16) * 16 + ((b1 % 16) * 4 + b2 / 64) / 4 == b1
    ensures (((b1 % 16) * 4 + b2 / 64) % 4) * 64 + b2 % 64 == b2
  {
    Split16(b0 % 4, b1 / 16);
    Split4(b1 % 16, b2 / 64);
  }

  lemma TripleRoundTrip(b0: byte, b1: byte, b2: byte)
    ensures DecodeFull(EncodeTriple(b0, b1, b2)) == Some([b0, b1, b2])
    ensures DecodeFinal(EncodeTriple(b0, b1, b2)) == Some([b0, b1, b2])
  {
    var v0, v1, v2, v3 := b0 / 4, (b0 % 4) * 16 + b1 / 16, (b1 % 16) * 4 + b2 / 64, b2 % 64;
    var q := EncodeTriple(b0, b1, b2);
    assert q == [CharOf(v0), CharOf(v1), CharOf(v2), CharOf(v3)];
    ValueOfCharOf(v0);
    ValueOfCharOf(v1);
    ValueOfCharOf(v2);
    ValueOfCharOf(v3);
    TripleArithmetic(b0, b1, b2);
    assert q[2] != '=' && q[3] != '=';
  }

  lemma DoubleRoundTrip(b0: byte, b1: byte)
    ensures DecodeFinal(EncodeDouble(b0, b1)) == Some([b0, b1])
  {
    var v0, v1, v2 := b0 / 4, (b0 % 4) * 16 + b1 / 16, (b1 % 16) * 4;
    var q := EncodeDouble(b0, b1);
    assert q == [CharOf(v0), CharOf(v1), CharOf(v2), '='];
    ValueOfCharOf(v0);
    ValueOfCharOf(v1);
    ValueOfCharOf(v2);
    TripleArithmetic(b0, b1, 0);
    assert q[2] != '=';
  }

  lemma SingleRoundTrip(b0: byte)
    ensures DecodeFinal(EncodeSingle(b0)) == Some([b0])
  {
    var v0, v1 := b0 / 4, (b0 % 4) * 16;
    assert EncodeSingle(b0) == [CharOf(v0), CharOf(v1), '=', '='];
    ValueOfCharOf(v0);
    ValueOfCharOf(v1);
    TripleArithmetic(b0, 0, 0);
  }

  /** Decoding a full quantum followed by more input. */
  lemma DecodeCons(h: string, t: string, x: seq<byte>, y: seq<byte>)
    requires |h| == 4 && |t| > 0
    requires DecodeFull(h) == Some(x) && Decode(t) == Some(y)
    ensures Decode(h + t) == Some(x + y)
  {
    var s := h + t;
    assert s[..4] == h;
    assert s[4..] == t;
  }

  /** A final group of one byte decodes back to it. */
  lemma DecodeEncodeSingle(b0: byte)
    ensures Decode(EncodeSingle(b0)) == Some([b0])
  {
    SingleRoundTrip(b0);
    assert |EncodeSingle(b0)| == 4;
  }

  /** A final group of two bytes decodes back to them. */
  lemma DecodeEncodeDouble(b0: byte, b1: byte)
    ensures Decode(EncodeDouble(b0, b1)) == Some([b0, b1])
  {
    DoubleRoundTrip(b0, b1);
    assert |EncodeDouble(b0, b1)| == 4;
  }

  /** The final group of an encoding decodes back to its one or two bytes. */
  lemma DecodeEncodeShort(b: seq<byte>)
    requires 1 <= |b| <= 2
    ensures Decode(Encode(b)) == Some(b)
  {
    if |b| == 1 {
      assert Encode(b) == EncodeSingle(b[0]);
      DecodeEncodeSingle(b[0]);
      assert [b[0]] == b;
    } else {
      assert Encode(b) == EncodeDouble(b[0], b[1]);
      DecodeEncodeDouble(b[0], b[1]);
      assert [b[0], b[1]] == b;
    }
  }

  /** Decoding undoes encoding, for every byte string. */
  lemma {:induction false} DecodeEncode(b: seq<byte>)
    ensures Decode(Encode(b)) == Some(b)
    decreases |b|
  {
    if |b| == 0 {
    } else if |b| <= 2 {
      DecodeEncodeShort(b);
    } else {
      var head := EncodeTriple(b[0], b[1], b[2]);
      TripleRoundTrip(b[0], b[1], b[2]);
      assert [b[0], b[1], b[2]] + b[3..] == b;
      assert Encode(b) == head + Encode(b[3..]);
      if |b| == 3 {
        assert Encode(b) == head;
        assert [b[0], b[1], b[2]] == b;
        assert Decode(head) == DecodeFinal(head);
      } else {
        DecodeEncode(b[3..]);
        DecodeCons(head, Encode(b[3..]), [b[0], b[1], b[2]], b[3..]);
      }
    }
  }

  /** Every encoding is valid base64. */
  lemma EncodeIsBase64(b: seq<byte>)
    ensures IsBase64(Encode(b))
  {
    DecodeEncode(b);
  }

  /** Encoding distributes over concatenation when the left part fills whole 24-bit groups. */
  lemma {:induction false} EncodeAppend(x: seq<byte>, y: seq<byte>)
    requires |x| % 3 == 0
    ensures Encode(x + y) == Encode(x) + Encode(y)
    decreases |x|
  {
    if |x| == 0 {
      assert x + y == y;
    } else {
      var xy := x + y;
      assert |xy| >= 3;
      assert xy[0] == x[0] && xy[1] == x[1] && xy[2] == x[2];
      assert xy[3..] == x[3..] + y;
      EncodeAppend(x[3..], y);
      calc {
        Encode(xy);
        EncodeTriple(x[0], x[1], x[2]) + Encode(x[3..] + y);
        EncodeTriple(x[0], x[1], x[2]) + (Encode(x[3..]) + Encode(y));
        (EncodeTriple(x[0], x[1], x[2]) + Encode(x[3..])) + Encode(y);
        { assert |x| >= 3; }
        Encode(x) + Encode(y);
      }
    }
  }
}
