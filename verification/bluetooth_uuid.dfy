/**
 Bluetooth UUIDs in their textual form, and the expansion of a 16-bit alias into
 a full 128-bit UUID under the Bluetooth Base UUID
 00000000-0000-1000-8000-00805F9B34FB (Bluetooth Core Specification v4.2,
 Vol 3, Part B, section 2.5.1: the 128-bit value is alias * 2^96 + base).
 Because the base has zero in its top 32 bits, the expansion in text is the
 base with its first eight hex digits replaced by "0000" and the alias's four
 digits. The text is the lower-case form the Web Bluetooth tests use: 32 hex
 digits grouped 8-4-4-4-12 with hyphens.
 */
module BluetoothUuid {
  import opened Wrappers

  /** A 16-bit UUID alias, such as 0x180d for the heart rate service. */
  type Alias = a: nat | a < 0x1_0000

  /** 16 to the power `k`. */
  function Pow16(k: nat): (p: nat)
    ensures p > 0
  {
    if k == 0 then 1 else 16 * Pow16(k - 1)
  }

  /** True for the characters of lower-case hexadecimal. */
  predicate IsLowerHex(c: char) {
    '0' <= c <= '9' || 'a' <= c <= 'f'
  }

  /** The lower-case hex digit for `d`. */
  function HexDigit(d: nat): (c: char)
    requires d < 16
    ensures IsLowerHex(c)
  {
    if d < 10 then (48 + d) as char else (97 + d - 10) as char
  }

  /** The value of a lower-case hex digit, None for any other character. */
  function HexValue(c: char): (r: Option<nat>)
    ensures r.Some? <==> IsLowerHex(c)
    ensures r.Some? ==> r.value < 16 && HexDigit(r.value) == c
  {
    if '0' <= c <= '9' then Some(c as nat - 48)
    else if 'a' <= c <= 'f' then Some(c as nat - 97 + 10)
    else None
  }

  /** The digit value of `HexDigit(d)` is `d` again. */
  lemma HexValueOfDigit(d: nat)
    requires d < 16
    ensures HexValue(HexDigit(d)) == Some(d)
  {
  }

  /** `n` written as exactly `width` lower-case hex digits, most significant first (higher digits dropped). */
  function HexDigits(n: nat, width: nat): (s: string)
    ensures |s| == width
  {
    if width == 0 then [] else HexDigits(n / 16, width - 1) + [HexDigit(n % 16)]
  }

  /** The value of a string of lower-case hex digits, None if any character is not one. */
  function ParseHex(s: string): (r: Option<nat>)
    ensures r.Some? <==> forall i :: 0 <= i < |s| ==> IsLowerHex(s[i])
    ensures r.Some? ==> r.value < Pow16(|s|)
  {
    if s == [] then Some(0)
    else
      var init := s[..|s| - 1];
      assert forall i :: 0 <= i < |init| ==> init[i] == s[i];
      match (ParseHex(init), HexValue(s[|s| - 1]))
      case (Some(v), Some(d)) => Some(v * 16 + d)
      case _ => None
  }

  /** Division by 16 is determined by quotient and remainder. */
  lemma DivMod16(n: nat, q: nat, r: nat)
    requires r < 16 && n == q * 16 + r
    ensures n / 16 == q && n % 16 == r
  {
  }

  /** Reading back the digits of a number that fits in `width` digits gives the number. */
  lemma {:induction false} ParseHexDigits(n: nat, width: nat)
    requires n < Pow16(width)
    ensures ParseHex(HexDigits(n, width)) == Some(n)
  {
    if width > 0 {
      var s := HexDigits(n, width);
      assert s[..|s| - 1] == HexDigits(n / 16, width - 1);
      assert s[|s| - 1] == HexDigit(n % 16);
      ParseHexDigits(n / 16, width - 1);
      HexValueOfDigit(n % 16);
    }
  }

  /** Writing back the value of a hex string at its own width gives the string. */
  lemma {:induction false} HexDigitsOfParse(s: string, n: nat)
    requires ParseHex(s) == Some(n)
    ensures HexDigits(n, |s|) == s
  {
    if s != [] {
      var init := s[..|s| - 1];
      var v := ParseHex(init).value;
      var d := HexValue(s[|s| - 1]).value;
      assert n == v * 16 + d;
      DivMod16(n, v, d);
      HexDigitsOfParse(init, v);
      assert s == init + [s[|s| - 1]];
    }
  }

  /** What every alias expansion ends with: the low 96 bits of the Base UUID, in text form. */
  const BaseSuffix: string := "-0000-1000-8000-00805f9b34fb"

  /** The four hex digits of an alias, most significant first. */
  function AliasHex(a: Alias): string {
    [HexDigit(a / 0x1000), HexDigit(a / 0x100 % 16), HexDigit(a / 0x10 % 16), HexDigit(a % 16)]
  }

  /** The explicit four digits are the general digit expansion at width four. */
  lemma AliasHexIsHexDigits(a: Alias)
    ensures AliasHex(a) == HexDigits(a, 4)
  {
    var q1 := a / 16;
    var q2 := q1 / 16;
    var q3 := q2 / 16;
    assert q2 == a / 0x100;
    assert q3 == a / 0x1000;
    assert q3 / 16 == 0 && q3 % 16 == q3;
    assert HexDigits(a, 4) == HexDigits(q1, 3) + [HexDigit(a % 16)];
    assert HexDigits(q1, 3) == HexDigits(q2, 2) + [HexDigit(q1 % 16)];
    assert HexDigits(q2, 2) == HexDigits(q3, 1) + [HexDigit(q2 % 16)];
    assert HexDigits(q3, 1) == [HexDigit(q3)];
  }

  /** The full UUID for a 16-bit alias: its four hex digits placed in the Base UUID template. */
  function AliasToUuid(a: Alias): (u: string)
    ensures |u| == 36
  {
    "0000" + AliasHex(a) + BaseSuffix
  }

  /** The expansion is the template with the alias's value in hex at positions 4 to 8. */
  lemma AliasToUuidShape(a: Alias)
    ensures AliasToUuid(a)[..4] == "0000" && AliasToUuid(a)[8..] == BaseSuffix
    ensures ParseHex(AliasToUuid(a)[4..8]) == Some(a as nat)
  {
    var u := AliasToUuid(a);
    AliasHexIsHexDigits(a);
    ParseHexDigits(a, 4);
    assert u[4..8] == AliasHex(a);
  }

  /** The alias that a full UUID is the expansion of, None when it is not in the template. */
  function UuidToAlias(u: string): (r: Option<Alias>)
    ensures r.Some? ==> |u| == 36 && u[..4] == "0000" && u[8..] == BaseSuffix
  {
    if |u| == 36 && u[..4] == "0000" && u[8..] == BaseSuffix then
      match ParseHex(u[4..8])
      case Some(n) => Some(n)
      case None => None
    else None
  }

  /** Shortening the expansion of an alias gives the alias back. */
  lemma UuidToAliasOfAlias(a: Alias)
    ensures UuidToAlias(AliasToUuid(a)) == Some(a)
  {
    AliasToUuidShape(a);
  }

  /** A UUID that shortens to an alias is exactly that alias's expansion. */
  lemma AliasToUuidOfShortened(u: string, a: Alias)
    requires UuidToAlias(u) == Some(a)
    ensures AliasToUuid(a) == u
  {
    HexDigitsOfParse(u[4..8], a);
    AliasHexIsHexDigits(a);
    assert u == u[..4] + u[4..8] + u[8..];
  }

  /** Distinct aliases expand to distinct UUIDs. */
  lemma AliasToUuidInjective(a: Alias, b: Alias)
    requires AliasToUuid(a) == AliasToUuid(b)
    ensures a == b
  {
    UuidToAliasOfAlias(a);
    UuidToAliasOfAlias(b);
  }
}
