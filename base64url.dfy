/**
 * Base64 with the URL- and filename-safe alphabet (section 5 of RFC 4648),
 * as Python's `base64.urlsafe_b64encode` produces it, and the removal of the
 * trailing `=` padding that `bytes.rstrip(b"=")` performs.
 *
 * Encoding is split in two stages: octets to 6-bit values (`Sextets`), and
 * 6-bit values to alphabet characters (`Digit`).  The padded encoding is the
 * significant digits (`EncodeUnpadded`) followed by the padding (`Padding`),
 * so that what stripping leaves behind can be stated exactly.
 * `DecodeUnpadded` is the inverse that shows no information is lost.
 */
module Base64Url {
  import opened Wrappers

  /** An octet, as held by a Python `bytes` object. */
  type Byte = x: int | 0 <= x < 256

  /** A 6-bit value, the unit one base64 character carries. */
  type Sextet = x: int | 0 <= x < 64

  /** The characters of the URL-safe base64 alphabet: `[A-Za-z0-9-_]`. */
  predicate IsUrlSafeDigit(c: char) {
    ('A' <= c <= 'Z') || ('a' <= c <= 'z') || ('0' <= c <= '9') || c == '-' || c == '_'
  }

  /** True when every character of `s` is a URL-safe base64 digit. */
  predicate AllUrlSafe(s: string) {
    forall i :: 0 <= i < |s| ==> IsUrlSafeDigit(s[i])
  }

  /** The digit for a 6-bit value (table 2 of RFC 4648). */
  function Digit(v: Sextet): (c: char)
    ensures IsUrlSafeDigit(c)
  {
    if v < 26 then ('A' as int + v) as char
    else if v < 52 then ('a' as int + (v - 26)) as char
    else if v < 62 then ('0' as int + (v - 52)) as char
    else if v == 62 then '-'
    else '_'
  }

  /** The 6-bit value of a digit, or None for a character outside the alphabet. */
  function Value(c: char): (r: Option<Sextet>)
    ensures r.Some? <==> IsUrlSafeDigit(c)
  {
    if 'A' <= c <= 'Z' then Some(c as int - 'A' as int)
    else if 'a' <= c <= 'z' then Some(c as int - 'a' as int + 26)
    else if '0' <= c <= '9' then Some(c as int - '0' as int + 52)
    else if c == '-' then Some(62)
    else if c == '_' then Some(63)
    else None
  }

  lemma ValueOfDigit(v: Sextet)
    ensures Value(Digit(v)) == Some(v)
  {
  }

  // The four 6-bit values of a group of three octets x, y, z (missing octets count as zero).
  function First(x: Byte): Sextet { x / 4 }
  function Second(x: Byte, y: Byte): Sextet { x % 4 * 16 + y / 16 }
  function Third(y: Byte, z: Byte): Sextet { y % 16 * 4 + z / 64 }
  function Fourth(z: Byte): Sextet { z % 64 }

  // The three octets of a group of four 6-bit values a, b, c, d.
  function Upper(a: Sextet, b: Sextet): Byte { a as int * 4 + b as int / 16 }
  function Middle(b: Sextet, c: Sextet): Byte { b as int % 16 * 16 + c as int / 4 }
  function Lower(c: Sextet, d: Sextet): Byte { c as int % 4 * 64 + d as int }

  /**
   * Octets to 6-bit values: every full group of three octets gives four
   * values, a final group of one octet gives two and a final group of two
   * gives three, the leftover bits being zero (section 4 of RFC 4648).
   */
  function Sextets(b: seq<Byte>): (v: seq<Sextet>)
    ensures |v| == (4 * |b| + 2) / 3
    decreases |b|
  {
    if |b| == 0 then []
    else if |b| == 1 then [First(b[0]), Second(b[0], 0)]
    else if |b| == 2 then [First(b[0]), Second(b[0], b[1]), Third(b[1], 0)]
    else [First(b[0]), Second(b[0], b[1]), Third(b[1], b[2]), Fourth(b[2])] + Sextets(b[3..])
  }

  /** 6-bit values back to octets; a lone value in the last group carries no whole octet. */
  function Octets(v: seq<Sextet>): (r: Option<seq<Byte>>)
    decreases |v|
  {
    if |v| == 0 then Some([])
    else if |v| == 1 then None
    else if |v| == 2 then Some([Upper(v[0], v[1])])
    else if |v| == 3 then Some([Upper(v[0], v[1]), Middle(v[1], v[2])])
    else
      match Octets(v[4..])
      case None => None
      case Some(rest) => Some([Upper(v[0], v[1]), Middle(v[1], v[2]), Lower(v[2], v[3])] + rest)
  }

  /** The arithmetic behind one group: the values' bits reassemble the octets. */
  lemma Regroup(x: Byte, y: Byte, z: Byte)
    ensures Upper(First(x), Second(x, y)) == x
    ensures Middle(Second(x, y), Third(y, z)) == y
    ensures Lower(Third(y, z), Fourth(z)) == z
  {
  }

  /** Regrouping the 6-bit values gives back the octets. */
  lemma {:induction false} OctetsOfSextets(b: seq<Byte>)
    ensures Octets(Sextets(b)) == Some(b)
    decreases |b|
  {
    if |b| == 1 {
      assert b == [b[0]];
      Regroup(b[0], 0, 0);
    } else if |b| == 2 {
      assert b == [b[0], b[1]];
      Regroup(b[0], b[1], 0);
    } else if |b| >= 3 {
      var v := Sextets(b);
      OctetsOfSextets(b[3..]);
      Regroup(b[0], b[1], b[2]);
      assert v[4..] == Sextets(b[3..]);
      assert b == [b[0], b[1], b[2]] + b[3..];
    }
  }

  /** The characters for a sequence of 6-bit values. */
  function DigitsOf(v: seq<Sextet>): (s: string)
    ensures |s| == |v| && AllUrlSafe(s)
  {
    seq(|v|, i requires 0 <= i < |v| => Digit(v[i]))
  }

  /** The 6-bit values of a string, or None if a character is outside the alphabet. */
  function ValuesOf(s: string): (r: Option<seq<Sextet>>)
    ensures r.Some? <==> AllUrlSafe(s)
    ensures r.Some? ==> |r.value| == |s|
  {
    if AllUrlSafe(s) then Some(seq(|s|, i requires 0 <= i < |s| => Value(s[i]).value)) else None
  }

  lemma ValuesOfDigits(v: seq<Sextet>)
    ensures ValuesOf(DigitsOf(v)) == Some(v)
  {
    var s := DigitsOf(v);
    forall i | 0 <= i < |v| ensures Value(s[i]) == Some(v[i]) {
      ValueOfDigit(v[i]);
    }
    assert ValuesOf(s).value == v;
  }

  /**
   * The significant digits of the encoding: `(4 * |b| + 2) / 3` URL-safe
   * characters.
   */
  function EncodeUnpadded(b: seq<Byte>): (r: string)
    ensures |r| == (4 * |b| + 2) / 3 && AllUrlSafe(r)
  {
    DigitsOf(Sextets(b))
  }

  /** The `=` characters that complete the last quantum of `n` octets. */
  function Padding(n: nat): (r: string)
    ensures |r| == (if n % 3 == 0 then 0 else 3 - n % 3)
    ensures forall i :: 0 <= i < |r| ==> r[i] == '='
  {
    if n % 3 == 1 then "==" else if n % 3 == 2 then "=" else ""
  }

  /** `base64.urlsafe_b64encode`: the digits followed by the padding, a whole number of quanta. */
  function Encode(b: seq<Byte>): (r: string)
    ensures |r| == 4 * ((|b| + 2) / 3)
  {
    EncodeUnpadded(b) + Padding(|b|)
  }

  /** `rstrip("=")`: removes every trailing `=` and nothing else. */
  function StripPadding(s: string): (r: string)
    ensures |r| <= |s| && r == s[..|r|]
    ensures r == [] || r[|r| - 1] != '='
    ensures forall i :: |r| <= i < |s| ==> s[i] == '='
  {
    if |s| > 0 && s[|s| - 1] == '=' then StripPadding(s[..|s| - 1]) else s
  }

  /** Decoding of unpadded URL-safe base64 (lenient about the leftover bits). */
  function DecodeUnpadded(s: string): (r: Option<seq<Byte>>)
  {
    match ValuesOf(s)
    case None => None
    case Some(v) => Octets(v)
  }

  /** Decoding the digits gives back the octets: the encoding loses nothing. */
  lemma DecodeEncode(b: seq<Byte>)
    ensures DecodeUnpadded(EncodeUnpadded(b)) == Some(b)
  {
    ValuesOfDigits(Sextets(b));
    OctetsOfSextets(b);
  }

  /** Removing a run of `=` from the end of a string that does not end in `=`. */
  lemma {:induction false} StripPaddingAfter(s: string, pad: string)
    requires s == [] || s[|s| - 1] != '='
    requires forall i :: 0 <= i < |pad| ==> pad[i] == '='
    ensures StripPadding(s + pad) == s
    decreases |pad|
  {
    if |pad| > 0 {
      assert (s + pad)[..|s + pad| - 1] == s + pad[..|pad| - 1];
      StripPaddingAfter(s, pad[..|pad| - 1]);
    } else {
      assert s + pad == s;
    }
  }

  /**
   * `urlsafe_b64encode(b).rstrip(b"=")` is exactly the significant digits:
   * `(4 * |b| + 2) / 3` URL-safe characters, none of them `=`.
   */
  lemma StrippedEncoding(b: seq<Byte>)
    ensures StripPadding(Encode(b)) == EncodeUnpadded(b)
    ensures |StripPadding(Encode(b))| == (4 * |b| + 2) / 3
    ensures AllUrlSafe(StripPadding(Encode(b)))
    ensures '=' !in StripPadding(Encode(b))
  {
    var e := EncodeUnpadded(b);
    assert e == [] || IsUrlSafeDigit(e[|e| - 1]);
    StripPaddingAfter(e, Padding(|b|));
  }
}
