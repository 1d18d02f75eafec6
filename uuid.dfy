/** The 16-byte identifiers of `github.com/google/uuid` and their canonical
    text form (`UUID.String`): 36 characters, lower-case hex digits in groups
    of 8, 4, 4, 4 and 12 separated by `-`. */
module Uuids {
  import opened Wrappers
  import opened Bytes
  import Hex

  type Uuid = b: seq<byte> | |b| == 16 witness seq(16, _ => 0)

  /** `UUID.String`. */
  function UuidString(u: Uuid): (s: string)
    ensures |s| == 36
    ensures forall i :: 0 <= i < |s| ==> Hex.IsLowerHex(s[i]) || s[i] == '-'
  {
    Hex.Encode(u[..4]) + "-" + Hex.Encode(u[4..6]) + "-" + Hex.Encode(u[6..8]) + "-"
      + Hex.Encode(u[8..10]) + "-" + Hex.Encode(u[10..])
  }

  /** Reads a canonical text form back: the hyphens at positions 8, 13, 18
      and 23 and 32 lower-case hex digits around them. */
  function ParseCanonical(s: string): (r: Option<Uuid>)
  {
    if |s| != 36 || s[8] != '-' || s[13] != '-' || s[18] != '-' || s[23] != '-' then None
    else
      match Hex.Decode(s[..8] + s[9..13] + s[14..18] + s[19..23] + s[24..])
      case Some(b) => if |b| == 16 then Some(b) else None
      case None => None
  }

  /** The canonical text form determines the identifier. */
  lemma ParseString(u: Uuid)
    ensures ParseCanonical(UuidString(u)) == Some(u)
  {
    var s := UuidString(u);
    var g0, g1, g2, g3, g4 := u[..4], u[4..6], u[6..8], u[8..10], u[10..];
    assert s[..8] == Hex.Encode(g0);
    assert s[9..13] == Hex.Encode(g1);
    assert s[14..18] == Hex.Encode(g2);
    assert s[19..23] == Hex.Encode(g3);
    assert s[24..] == Hex.Encode(g4);
    Hex.EncodeAppend(g0, g1);
    Hex.EncodeAppend(g0 + g1, g2);
    Hex.EncodeAppend(g0 + g1 + g2, g3);
    Hex.EncodeAppend(g0 + g1 + g2 + g3, g4);
    assert g0 + g1 + g2 + g3 + g4 == u;
    Hex.DecodeEncode(u);
  }

  /** Distinct identifiers have distinct text forms. */
  lemma StringInjective(u: Uuid, v: Uuid)
    requires UuidString(u) == UuidString(v)
    ensures u == v
  {
    ParseString(u);
    ParseString(v);
  }
}
