/** Content limits shared with the backend (internal/constants/limits.go): the size cap on a
  * memory, the token estimate, and the short number format used when printing counts. */
module Limits {
  import opened GoText

  const MaxMemoryChars: nat := 3_000_000
  const MaxAIInputChars: nat := 3_200_000
  const CharsPerToken: nat := 4

  /** EstimateTokens: one token per four bytes, rounded down. */
  function EstimateTokens(text: string): (n: nat)
    ensures n * CharsPerToken <= ByteLen(text) < (n + 1) * CharsPerToken
  {
    ByteLen(text) / CharsPerToken
  }

  /** IsWithinMemoryLimit: at most three million bytes, which is the ~750K tokens the limit
    * is documented as. */
  function IsWithinMemoryLimit(content: string): (ok: bool)
    ensures ok <==> ByteLen(content) <= MaxMemoryChars
    ensures ok ==> EstimateTokens(content) <= 750_000
  {
    ByteLen(content) <= MaxMemoryChars
  }

  // ----- formatInt, as written -----

  /** Go's `i / 10` on int: the quotient truncated toward zero. */
  function Quo10(a: int): (q: int)
    ensures a >= 0 ==> 0 <= a - 10 * q < 10
    ensures a < 0 ==> -10 < a - 10 * q <= 0
  {
    if a >= 0 then a / 10 else -((-a) / 10)
  }

  /** Go's `i % 10` on int: the remainder takes the sign of the dividend. */
  function Rem10(a: int): (r: int)
    ensures a == 10 * Quo10(a) + r
  {
    a - 10 * Quo10(a)
  }

  /** string(rune(x)): the code point x, or U+FFFD when x is not a Unicode scalar value. */
  function RuneString(x: int): (s: string)
    ensures |s| == 1
    ensures (0 <= x < 0xD800 || 0xE000 <= x < 0x11_0000) ==> s[0] as int == x
    ensures !(0 <= x < 0xD800 || 0xE000 <= x < 0x11_0000) ==> s[0] == '\U{FFFD}'
  {
    if 0 <= x < 0xD800 || 0xE000 <= x < 0x11_0000 then [x as char] else ['\U{FFFD}']
  }

  /** formatInt: the tens and the units of i, each shifted from '0' as a rune. */
  function FormatInt(i: int): (s: string)
    ensures |s| == 2
    ensures 0 <= i < 100 ==> AllDigits(s) && DigitsValue(s) == i
  {
    var s := RuneString('0' as int + Quo10(i)) + RuneString('0' as int + Rem10(i));
    if 0 <= i < 100 then
      assert s[..1][..0] == [];
      assert DigitsValue(s[..1]) == i / 10;
      s
    else s
  }

  /** FormatNumber below one thousand, where it calls formatInt directly. */
  function FormatNumber(num: int): (s: string)
    requires num < 1_000
    ensures |s| == 2
    ensures 0 <= num < 100 ==> AllDigits(s) && DigitsValue(s) == num
  {
    FormatInt(num)
  }

  /** Three-digit and negative counts come out as two characters that are not their digits:
    * 150 prints "?0" (ASCII 48 + 15 is '?'), and -5 prints "0+" (48 - 5 is '+'). */
  lemma FormatNumberMisprints()
    ensures FormatNumber(150) == "?0" && !AllDigits(FormatNumber(150))
    ensures FormatNumber(-5) == "0+"
  {
    assert FormatNumber(150)[0] == '?';
  }

  // ----- the evident intent -----

  /** The count's decimal digits, padded with a zero to at least two (what formatInt gives
    * for 0 to 99), with a minus sign in front of a negative count. */
  function FormatCount(num: int): (s: string)
    requires num < 1_000
    ensures num >= 0 ==> |s| >= 2 && AllDigits(s) && DigitsValue(s) == num
    ensures num < 0 ==> |s| >= 2 && s[0] == '-' && AllDigits(s[1..]) && DigitsValue(s[1..]) == -num
  {
    if 0 <= num < 10 then
      var s := "0" + NatToString(num);
      assert s[..1] == "0" && s[..1][..0] == [];
      assert DigitsValue(s) == DigitsValue(s[..1]) * 10 + (s[1] as int - '0' as int);
      s
    else if num >= 10 then
      NatToStringValue(num);
      assert NatToString(num) == NatToString(num / 10) + [DigitChar(num % 10)];
      NatToString(num)
    else
      NatToStringValue(-num);
      var s := IntToString(num);
      assert s[1..] == NatToString(-num);
      s
  }

  /** On the counts formatInt handles, 0 to 99, the corrected format prints the same text. */
  lemma FormatCountAgrees(num: int)
    requires 0 <= num < 100
    ensures FormatCount(num) == FormatNumber(num)
  {
    if num >= 10 {
      assert NatToString(num) == NatToString(num / 10) + [DigitChar(num % 10)];
      assert NatToString(num / 10) == [DigitChar(num / 10)];
    }
  }
}
