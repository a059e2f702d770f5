/** Identifiers: 128-bit UUIDs, their canonical text, and the version-4 shape of section 5.4 of RFC 9562. */
module Uuids {
  const UUID_LIMIT := 0x1_0000_0000_0000_0000_0000_0000_0000_0000

  type Uuid = u: int | 0 <= u < UUID_LIMIT

  const NIL: Uuid := 0

  function Pow16(n: nat): (r: int)
    ensures r > 0
  {
    if n == 0 then 1 else 16 * Pow16(n - 1)
  }

  /** The i-th hexadecimal digit, counted from the most significant one. */
  function Nibble(u: Uuid, i: nat): (d: nat)
    requires i < 32
    ensures d < 16
  {
    u / Pow16(31 - i) % 16
  }

  /** Version nibble 4 and variant bits 10. */
  predicate IsV4(u: Uuid) {
    Nibble(u, 12) == 4 && 8 <= Nibble(u, 16) < 12
  }

  const HEX := "0123456789abcdef"

  predicate HyphenAt(i: int) {
    i == 8 || i == 13 || i == 18 || i == 23
  }

  /** Which hexadecimal digit stands at text position i. */
  function DigitAt(i: nat): (n: nat)
    requires i < 36 && !HyphenAt(i)
    ensures n < 32
  {
    if i < 8 then i else if i < 13 then i - 1 else if i < 18 then i - 2 else if i < 23 then i - 3 else i - 4
  }

  function TextAt(u: Uuid, i: nat): char
    requires i < 36
  {
    if HyphenAt(i) then '-' else HEX[Nibble(u, DigitAt(i))]
  }

  /** The lower-case hyphenated text of a UUID. */
  function UuidText(u: Uuid): (t: string)
    ensures |t| == 36
  {
    seq(36, i requires 0 <= i < 36 => TextAt(u, i))
  }

  /** The pattern that stops a join from creating a channel named like an id; it is anchored at the start only. */
  predicate LooksLikeV4(s: string) {
    && |s| >= 36
    && (forall i :: 0 <= i < 36 ==> if HyphenAt(i) then s[i] == '-' else s[i] in HEX)
    && s[14] == '4'
    && s[19] in "89ab"
  }

  lemma {:induction false} TextLooksLikeV4(u: Uuid)
    ensures LooksLikeV4(UuidText(u)) <==> IsV4(u)
  {
    var t := UuidText(u);
    assert t[14] == HEX[Nibble(u, 12)];
    assert t[19] == HEX[Nibble(u, 16)];
    assert forall i :: 0 <= i < 36 ==> t[i] == TextAt(u, i);
  }
}
