/**
 * `java.util.UUID` as its 128 bits, held as 32 hexadecimal nibbles, with the
 * canonical text form `xxxxxxxx-xxxx-xxxx-xxxx-xxxxxxxxxxxx` that
 * `UUID.toString` writes and `UUID.fromString` reads.
 */
module Uuids {
  import opened Wrappers

  type Nibble = x: int | 0 <= x < 16

  /** The 128 bits of a UUID, most significant nibble first. */
  type Uuid = s: seq<Nibble> | |s| == 32 witness seq(32, _ => 0)

  const TextLength: nat := 36

  predicate IsHexDigit(c: char) {
    '0' <= c <= '9' || 'a' <= c <= 'f' || 'A' <= c <= 'F'
  }

  function HexValue(c: char): Nibble
    requires IsHexDigit(c)
  {
    if '0' <= c <= '9' then (c as int) - ('0' as int)
    else if 'a' <= c <= 'f' then (c as int) - ('a' as int) + 10
    else (c as int) - ('A' as int) + 10
  }

  /** The lower-case digit `UUID.toString` writes for a nibble. */
  function HexChar(n: Nibble): (c: char)
    ensures IsHexDigit(c) && HexValue(c) == n
  {
    if n < 10 then (('0' as int) + n) as char else (('a' as int) + n - 10) as char
  }

  /** The four separators of the 8-4-4-4-12 grouping. */
  predicate IsDashPosition(i: int) {
    i == 8 || i == 13 || i == 18 || i == 23
  }

  /** Where the k-th nibble is written in the text. */
  function CharPosition(k: nat): (i: nat)
    requires k < 32
    ensures i < TextLength && !IsDashPosition(i)
  {
    if k < 8 then k else if k < 12 then k + 1 else if k < 16 then k + 2 else if k < 20 then k + 3 else k + 4
  }

  /** Which nibble a non-separator position of the text holds. */
  function NibbleIndex(i: nat): (k: nat)
    requires i < TextLength && !IsDashPosition(i)
    ensures k < 32 && CharPosition(k) == i
  {
    if i < 8 then i else if i < 13 then i - 1 else if i < 18 then i - 2 else if i < 23 then i - 3 else i - 4
  }

  /** Text in the canonical form, in either letter case. */
  predicate IsCanonical(s: string) {
    |s| == TextLength &&
    forall i :: 0 <= i < |s| ==> if IsDashPosition(i) then s[i] == '-' else IsHexDigit(s[i])
  }

  /** `UUID.fromString` on canonical text; any other text (empty included) is rejected. */
  function FromString(s: string): (r: Option<Uuid>)
    ensures r.Some? <==> IsCanonical(s)
  {
    if IsCanonical(s) then
      Some(seq(32, k requires 0 <= k < 32 => HexValue(s[CharPosition(k)])))
    else
      None
  }

  /** `UUID.toString`: lower-case hexadecimal in 8-4-4-4-12 groups. */
  function ToString(u: Uuid): (s: string)
    ensures IsCanonical(s)
  {
    seq(TextLength, i requires 0 <= i < TextLength =>
      if IsDashPosition(i) then '-' else HexChar(u[NibbleIndex(i)]))
  }

  function ToLower(c: char): char {
    if 'A' <= c <= 'F' then ((c as int) - ('A' as int) + ('a' as int)) as char else c
  }

  /** Parsing the text a UUID prints gives that UUID back. */
  lemma FromStringToString(u: Uuid)
    ensures FromString(ToString(u)) == Some(u)
  {
    var s := ToString(u);
    var v := FromString(s).value;
    forall k | 0 <= k < 32 ensures v[k] == u[k] {
      assert NibbleIndex(CharPosition(k)) == k;
      assert s[CharPosition(k)] == HexChar(u[k]);
    }
    assert v == u;
  }

  /** A parsed UUID prints as the parsed text, lower-cased. */
  lemma ToStringFromString(s: string)
    requires FromString(s).Some?
    ensures ToString(FromString(s).value) == seq(|s|, i requires 0 <= i < |s| => ToLower(s[i]))
  {
  }
}
