/** Go's `base64.RawURLEncoding`: the URL- and filename-safe alphabet of
    section 5 of RFC 4648, without the `=` padding of its section 3.2. */
module Base64Url {
  import opened Wrappers
  import opened Bytes

  /** A character of the alphabet: `A`-`Z`, `a`-`z`, `0`-`9`, `-` and `_`. */
  predicate IsUrlSafe(c: char) {
    'A' <= c <= 'Z' || 'a' <= c <= 'z' || '0' <= c <= '9' || c == '-' || c == '_'
  }

  /** The character for the 6-bit value `v` (RFC 4648, Table 2). */
  function Letter(v: int): (c: char)
    requires 0 <= v < 64
    ensures IsUrlSafe(c)
  {
    if v < 26 then ('A' as int + v) as char
    else if v < 52 then ('a' as int + (v - 26)) as char
    else if v < 62 then ('0' as int + (v - 52)) as char
    else if v == 62 then '-'
    else '_'
  }

  /** The 6-bit value of a character, if it belongs to the alphabet. */
  function Value(c: char): (r: Option<int>)
    ensures r.Some? <==> IsUrlSafe(c)
    ensures r.Some? ==> 0 <= r.value < 64 && Letter(r.value) == c
  {
    if 'A' <= c <= 'Z' then Some(c as int - 'A' as int)
    else if 'a' <= c <= 'z' then Some(c as int - 'a' as int + 26)
    else if '0' <= c <= '9' then Some(c as int - '0' as int + 52)
    else if c == '-' then Some(62)
    else if c == '_' then Some(63)
    else None
  }

  /** Every letter decodes back to the value it encodes. */
  lemma ValueOfLetter(v: int)
    requires 0 <= v < 64
    ensures Value(Letter(v)) == Some(v)
  {
  }

  predicate IsSextets(c: seq<int>) {
    forall i :: 0 <= i < |c| ==> 0 <= c[i] < 64
  }

  /** The four 6-bit groups of three bytes, most significant first. */
  function Sextets(b0: byte, b1: byte, b2: byte): (c: seq<int>)
    ensures |c| == 4 && IsSextets(c)
  {
    [b0 / 4, b0 % 4 * 16 + b1 / 16, b1 % 16 * 4 + b2 / 64, b2 % 64]
  }

  /** The three bytes carried by four 6-bit groups. */
  function Octets(c: seq<int>): (b: seq<byte>)
    requires |c| == 4 && IsSextets(c)
    ensures |b| == 3
  {
    [c[0] * 4 + c[1] / 16, c[1] % 16 * 16 + c[2] / 4, c[2] % 4 * 64 + c[3]]
  }

  /** Splitting a byte across two 6-bit groups and joining it back. */
  lemma HighLow(hi: int, lo: int, k: int)
    requires k == 4 || k == 16 || k == 64
    requires 0 <= hi && 0 <= lo < k
    ensures (hi * k + lo) / k == hi && (hi * k + lo) % k == lo
  {
  }

  /** Regrouping three bytes into sextets and back is the identity. */
  lemma OctetsOfSextets(b0: byte, b1: byte, b2: byte)
    ensures Octets(Sextets(b0, b1, b2)) == [b0, b1, b2]
  {
    HighLow(b0 % 4, b1 / 16, 16);
    HighLow(b1 % 16, b2 / 64, 4);
  }

  /** The letters for a sequence of 6-bit values. */
  function Letters(c: seq<int>): (s: string)
    requires IsSextets(c)
    ensures |s| == |c|
    ensures forall i :: 0 <= i < |s| ==> IsUrlSafe(s[i]) && Value(s[i]) == Some(c[i])
  {
    seq(|c|, i requires 0 <= i < |c| => Letter(c[i]))
  }

  /** The 6-bit values of a string, if every character is in the alphabet. */
  function Values(s: string): (r: Option<seq<int>>)
    ensures r.Some? <==> forall i :: 0 <= i < |s| ==> IsUrlSafe(s[i])
    ensures r.Some? ==> |r.value| == |s| && IsSextets(r.value)
    ensures r.Some? ==> forall i :: 0 <= i < |s| ==> Value(s[i]) == Some(r.value[i])
  {
    if forall i :: 0 <= i < |s| ==> IsUrlSafe(s[i])
    then Some(seq(|s|, i requires 0 <= i < |s| => Value(s[i]).value))
    else None
  }

  /** A final group of two or three 6-bit values, filled up to four with zeros. */
  function ZeroFilled(c: seq<int>): (r: seq<int>)
    requires 2 <= |c| <= 3 && IsSextets(c)
    ensures |r| == 4 && IsSextets(r) && r[..|c|] == c
  {
    if |c| == 2 then c + [0, 0] else c + [0]
  }

  /** Length of the unpadded encoding of `n` bytes: 4 characters per 3 bytes,
      and 2 or 3 characters for a final group of 1 or 2 bytes. */
  function EncodedLength(n: nat): nat {
    (4 * n + 2) / 3
  }

  /** `RawURLEncoding.EncodeToString`: each group of three bytes becomes four
      letters; a final group of one or two bytes, zero-filled, becomes two or
      three letters. */
  function Encode(b: seq<byte>): (s: string)
    ensures |s| == EncodedLength(|b|)
    ensures forall i :: 0 <= i < |s| ==> IsUrlSafe(s[i])
  {
    if |b| == 0 then ""
    else if |b| < 3 then
      Letters(Sextets(b[0], if |b| == 2 then b[1] else 0, 0)[..|b| + 1])
    else
      Letters(Sextets(b[0], b[1], b[2])) + Encode(b[3..])
  }

  /** The inverse of `Encode` this model uses, close to
      `RawURLEncoding.DecodeString`: None for a character outside the alphabet
      or a final group of one character, and unused low bits of a final group
      are ignored. Unlike Go's decoder it rejects `\r` and `\n` rather than
      skipping them. */
  function Decode(s: string): (r: Option<seq<byte>>)
  {
    if |s| == 0 then Some([])
    else if |s| == 1 then None
    else if |s| < 4 then
      match Values(s)
      case None => None
      case Some(c) => Some(Octets(ZeroFilled(c))[..|s| - 1])
    else
      match (Values(s[..4]), Decode(s[4..]))
      case (Some(c), Some(rest)) => Some(Octets(c) + rest)
      case _ => None
  }

  /** The letters of a group give back its 6-bit values. */
  lemma ValuesOfLetters(c: seq<int>)
    requires IsSextets(c)
    ensures Values(Letters(c)) == Some(c)
  {
    var s := Letters(c);
    assert Values(s).Some?;
    var v := Values(s).value;
    assert forall i :: 0 <= i < |c| ==> v[i] == c[i];
    assert v == c;
  }

  /** A final group of one byte: two letters, decoded back to that byte. */
  lemma DecodeOneByteGroup(b0: byte)
    ensures Decode(Encode([b0])) == Some([b0])
  {
    var c := Sextets(b0, 0, 0);
    assert Encode([b0]) == Letters(c[..2]);
    ValuesOfLetters(c[..2]);
    assert ZeroFilled(c[..2]) == c;
    var s := Encode([b0]);
    assert Values(s) == Some(c[..2]);
    assert Decode(s) == Some(Octets(c)[..1]);
    OctetsOfSextets(b0, 0, 0);
    assert Octets(c)[..1] == [b0];
  }

  /** A final group of two bytes: three letters, decoded back to those bytes. */
  lemma DecodeTwoByteGroup(b0: byte, b1: byte)
    ensures Decode(Encode([b0, b1])) == Some([b0, b1])
  {
    var c := Sextets(b0, b1, 0);
    assert Encode([b0, b1]) == Letters(c[..3]);
    ValuesOfLetters(c[..3]);
    assert ZeroFilled(c[..3]) == c;
    var s := Encode([b0, b1]);
    assert Values(s) == Some(c[..3]);
    assert Decode(s) == Some(Octets(c)[..2]);
    OctetsOfSextets(b0, b1, 0);
    assert Octets(c)[..2] == [b0, b1];
  }

  /** Decoding inverts encoding, so the encoded string determines the bytes. */
  lemma {:induction false} DecodeEncode(b: seq<byte>)
    ensures Decode(Encode(b)) == Some(b)
  {
    if |b| == 1 {
      assert b == [b[0]];
      DecodeOneByteGroup(b[0]);
    } else if |b| == 2 {
      assert b == [b[0], b[1]];
      DecodeTwoByteGroup(b[0], b[1]);
    } else if |b| >= 3 {
      var s := Encode(b);
      var c := Sextets(b[0], b[1], b[2]);
      assert s[..4] == Letters(c) && s[4..] == Encode(b[3..]);
      ValuesOfLetters(c);
      OctetsOfSextets(b[0], b[1], b[2]);
      DecodeEncode(b[3..]);
      assert b == [b[0], b[1], b[2]] + b[3..];
    }
  }

  /** Distinct byte strings have distinct encodings. */
  lemma EncodeInjective(a: seq<byte>, b: seq<byte>)
    requires Encode(a) == Encode(b)
    ensures a == b
  {
    DecodeEncode(a);
    DecodeEncode(b);
  }
}
