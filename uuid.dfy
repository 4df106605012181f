// A UUID value and its canonical text, as `str(uuid.UUID)` prints it: 32
// lower-case hex digits grouped 8-4-4-4-12 by hyphens. Parsing arbitrary
// user text into a UUID is not modelled here (it is a parameter where it is
// needed); `ParseUuidText` only reads back the canonical form.

module Uuids {
  import opened Common

  predicate IsLowerHex(c: char) {
    ('0' <= c <= '9') || ('a' <= c <= 'f')
  }

  predicate AllLowerHex(s: string) {
    forall i | 0 <= i < |s| :: IsLowerHex(s[i])
  }

  /** The 128 bits of a UUID as its 32 lower-case hex digits. */
  type Uuid = s: string | |s| == 32 && AllLowerHex(s)
    witness "00000000000000000000000000000000"

  /** `str(u)`: the digits grouped 8-4-4-4-12. */
  function UuidText(u: Uuid): (r: string)
    ensures |r| == 36
    ensures r[8] == '-' && r[13] == '-' && r[18] == '-' && r[23] == '-'
    ensures ':' !in r
  {
    u[..8] + "-" + u[8..12] + "-" + u[12..16] + "-" + u[16..20] + "-" + u[20..]
  }

  /** The digits of a canonical UUID text, in order. */
  function Digits(s: string): (r: string)
    requires |s| == 36
    ensures |r| == 32
  {
    s[..8] + s[9..13] + s[14..18] + s[19..23] + s[24..]
  }

  predicate IsCanonical(s: string) {
    |s| == 36 && s[8] == '-' && s[13] == '-' && s[18] == '-' && s[23] == '-' && AllLowerHex(Digits(s))
  }

  /** Reads back a canonical UUID text; anything else is `None`. */
  function ParseUuidText(s: string): (r: Option<Uuid>)
    ensures r.Some? <==> IsCanonical(s)
  {
    if IsCanonical(s) then Some(Digits(s)) else None
  }

  /** The canonical text of a UUID reads back as that UUID. */
  lemma UuidTextRoundTrip(u: Uuid)
    ensures ParseUuidText(UuidText(u)) == Some(u)
  {
    var t := UuidText(u);
    assert t[..8] == u[..8];
    assert t[9..13] == u[8..12];
    assert t[14..18] == u[12..16];
    assert t[19..23] == u[16..20];
    assert t[24..] == u[20..];
    assert u == u[..8] + u[8..12] + u[12..16] + u[16..20] + u[20..];
    assert AllLowerHex(Digits(t));
  }

  /** Every canonical text is the text of the UUID it denotes. */
  lemma ParseUuidTextRoundTrip(s: string)
    requires IsCanonical(s)
    ensures UuidText(ParseUuidText(s).value) == s
  {
    var u := ParseUuidText(s).value;
    assert UuidText(u) == s;
  }

  /** Distinct UUIDs print differently. */
  lemma UuidTextInjective(u: Uuid, v: Uuid)
    requires UuidText(u) == UuidText(v)
    ensures u == v
  {
    UuidTextRoundTrip(u);
    UuidTextRoundTrip(v);
  }
}
