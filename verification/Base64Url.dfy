/** Unpadded base64url (section 5 of RFC 4648) as `Buffer` writes and reads it, for ASCII text. */
module Base64Url {
  import opened Wrappers

  type Byte = n: nat | n < 256
  type Sextet = n: nat | n < 64

  function SextetChar(v: Sextet): char {
    if v < 26 then ('A' as int + v) as char
    else if v < 52 then ('a' as int + (v - 26)) as char
    else if v < 62 then ('0' as int + (v - 52)) as char
    else if v == 62 then '-' else '_'
  }

  /** Reading accepts the alphabet of plain base64 as well. */
  function CharSextet(c: char): Option<Sextet> {
    if 'A' <= c <= 'Z' then Some(c as int - 'A' as int)
    else if 'a' <= c <= 'z' then Some(c as int - 'a' as int + 26)
    else if '0' <= c <= '9' then Some(c as int - '0' as int + 52)
    else if c == '-' || c == '+' then Some(62)
    else if c == '_' || c == '/' then Some(63)
    else None
  }

  /** Three bytes are four sextets; a tail of one or two bytes is filled up with zero bits. */
  function Regroup(b: seq<Byte>): seq<Sextet> {
    match |b|
    case 0 => []
    case 1 => [b[0] / 4, b[0] % 4 * 16]
    case 2 => [b[0] / 4, b[0] % 4 * 16 + b[1] / 16, b[1] % 16 * 4]
    case _ =>
      [b[0] / 4, b[0] % 4 * 16 + b[1] / 16, b[1] % 16 * 4 + b[2] / 64, b[2] % 64] + Regroup(b[3..])
  }

  /** Four sextets are three bytes; bits of the tail that fill no byte are dropped. */
  function Ungroup(v: seq<Sextet>): seq<Byte> {
    if |v| < 2 then []
    else
      var x: nat, y: nat := v[0], v[1];
      if |v| == 2 then [x * 4 + y / 16]
      else
        var z: nat := v[2];
        if |v| == 3 then [x * 4 + y / 16, y % 16 * 16 + z / 4]
        else [x * 4 + y / 16, y % 16 * 16 + z / 4, z % 4 * 64 + v[3]] + Ungroup(v[4..])
  }

  function Write(v: seq<Sextet>): string {
    if v == [] then "" else [SextetChar(v[0])] + Write(v[1..])
  }

  /** Characters of neither alphabet are skipped. */
  function Read(s: string): seq<Sextet> {
    if s == "" then []
    else match CharSextet(s[0])
      case Some(v) => [v] + Read(s[1..])
      case None => Read(s[1..])
  }

  function Encode(b: seq<Byte>): string { Write(Regroup(b)) }

  function Decode(s: string): seq<Byte> { Ungroup(Read(s)) }

  lemma {:induction false} UngroupInvertsRegroup(b: seq<Byte>)
    ensures Ungroup(Regroup(b)) == b
  {
    if |b| >= 3 {
      UngroupInvertsRegroup(b[3..]);
      assert Regroup(b)[4..] == Regroup(b[3..]);
      assert b == [b[0], b[1], b[2]] + b[3..];
    }
  }

  lemma {:induction false} ReadInvertsWrite(v: seq<Sextet>)
    ensures Read(Write(v)) == v
  {
    if v != [] {
      ReadInvertsWrite(v[1..]);
      assert Write(v)[1..] == Write(v[1..]) && CharSextet(SextetChar(v[0])) == Some(v[0]);
    }
  }

  /** The alphabet of table 2 of RFC 4648, by character code. */
  lemma AlphabetIsUrlSafe(v: Sextet)
    ensures v < 26 ==> SextetChar(v) as int == 65 + v
    ensures 26 <= v < 52 ==> SextetChar(v) as int == 97 + (v - 26)
    ensures 52 <= v < 62 ==> SextetChar(v) as int == 48 + (v - 52)
    ensures v >= 62 ==> SextetChar(v) as int == if v == 62 then 45 else 95
  {
  }

  /** The binary number that a sequence of digits to a base makes. */
  function Number(digits: seq<nat>, base: nat): nat {
    if digits == [] then 0 else Number(digits[..|digits| - 1], base) * base + digits[|digits| - 1]
  }

  /** Bits keep their order: a group of bytes and its sextets are the same binary number, padded with
      zero bits at the end. */
  lemma GroupKeepsBits(b: seq<Byte>)
    ensures |b| == 1 ==> |Regroup(b)| == 2 && Number(Regroup(b), 64) == Number(b, 256) * 16
    ensures |b| == 2 ==> |Regroup(b)| == 3 && Number(Regroup(b), 64) == Number(b, 256) * 4
    ensures |b| >= 3 ==> |Regroup(b)| >= 4 && Regroup(b)[4..] == Regroup(b[3..])
    ensures |b| >= 3 ==> Number(Regroup(b)[..4], 64) == Number(b[..3], 256)
  {
    var v := Regroup(b);
    if |b| == 1 {
      NumberOfUpTo4(v, 64);
      NumberOfUpTo4(b, 256);
    } else if |b| == 2 {
      NumberOfUpTo4(v, 64);
      NumberOfUpTo4(b, 256);
    } else if |b| >= 3 {
      NumberOfUpTo4(v[..4], 64);
      NumberOfUpTo4(b[..3], 256);
    }
  }

  lemma NumberOfUpTo4(d: seq<nat>, base: nat)
    ensures |d| == 1 ==> Number(d, base) == d[0]
    ensures |d| == 2 ==> Number(d, base) == d[0] * base + d[1]
    ensures |d| == 3 ==> Number(d, base) == (d[0] * base + d[1]) * base + d[2]
    ensures |d| == 4 ==> Number(d, base) == ((d[0] * base + d[1]) * base + d[2]) * base + d[3]
  {
    if |d| > 1 {
      NumberOfUpTo4(d[..|d| - 1], base);
    } else if |d| == 1 {
      assert d[..0] == [];
    }
  }

  /** Every byte sequence comes back, and only the empty one is written as the empty text. */
  lemma DecodeInvertsEncode(b: seq<Byte>)
    ensures Decode(Encode(b)) == b
    ensures Encode(b) == "" <==> b == []
  {
    UngroupInvertsRegroup(b);
    ReadInvertsWrite(Regroup(b));
  }

  lemma {:induction false} ReadConcat(a: string, b: string)
    ensures Read(a + b) == Read(a) + Read(b)
  {
    if a == "" {
      assert a + b == b;
    } else {
      assert (a + b)[1..] == a[1..] + b;
      ReadConcat(a[1..], b);
    }
  }

  /** Letters, digits and the four signs of the two alphabets. */
  predicate InAlphabets(c: char) {
    'A' <= c <= 'Z' || 'a' <= c <= 'z' || '0' <= c <= '9' || c in {'-', '_', '+', '/'}
  }

  lemma ReadAround(a: string, c: char, b: string)
    ensures Read(a + [c] + b) == Read(a) + (match CharSextet(c) case Some(v) => [v] case None => []) + Read(b)
  {
    ReadConcat(a + [c], b);
    ReadConcat(a, [c]);
    assert [c][1..] == "";
  }

  /** Decoding ignores characters of neither alphabet and reads both alphabets alike. */
  lemma DecodeIsLenient(a: string, c: char, b: string)
    ensures !InAlphabets(c) ==> Decode(a + [c] + b) == Decode(a + b)
    ensures Decode(a + ['-'] + b) == Decode(a + ['+'] + b) && Decode(a + ['_'] + b) == Decode(a + ['/'] + b)
  {
    ReadAround(a, c, b);
    ReadConcat(a, b);
    assert !InAlphabets(c) ==> Read(a + [c] + b) == Read(a + b);
    ReadAround(a, '-', b);
    ReadAround(a, '+', b);
    ReadAround(a, '_', b);
    ReadAround(a, '/', b);
  }

  /** The UTF-8 bytes of ASCII text. */
  function TextBytes(s: string): (b: seq<Byte>)
    requires forall i :: 0 <= i < |s| ==> s[i] as int < 128
    ensures |b| == |s|
  {
    seq(|s|, i requires 0 <= i < |s| => s[i] as int)
  }

  /** Bytes beyond ASCII read as the replacement character. */
  function BytesText(b: seq<Byte>): (s: string)
    ensures |s| == |b|
  {
    seq(|b|, i requires 0 <= i < |b| => if b[i] < 128 then b[i] as char else '\U{fffd}')
  }

  /** ASCII bytes read as themselves, all others as no digit, sign or space. */
  lemma BytesTextReading(b: seq<Byte>, i: nat)
    requires i < |b|
    ensures b[i] < 128 ==> BytesText(b)[i] as int == b[i]
    ensures b[i] >= 128 ==> BytesText(b)[i] == '\U{fffd}'
  {
  }

  lemma TextRoundTrip(s: string)
    requires forall i :: 0 <= i < |s| ==> s[i] as int < 128
    ensures BytesText(TextBytes(s)) == s
  {
  }
}
