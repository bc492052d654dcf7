/** The parts of Go's `strings`, `unicode` and `strconv` packages the modelled code relies on,
  * over strings as sequences of Unicode code points (Go strings are UTF-8 bytes; where the
  * code measures bytes, `ByteLen` gives the UTF-8 length). */
module GoText {

  /** unicode.IsSpace: the Latin-1 spaces and the other Unicode White_Space code points. */
  predicate IsSpace(c: char) {
    c == ' ' || c == '\t' || c == '\n' || c == '\U{000B}' || c == '\U{000C}' || c == '\r'
    || c == '\U{0085}' || c == '\U{00A0}' || c == '\U{1680}'
    || ('\U{2000}' <= c <= '\U{200A}')
    || c == '\U{2028}' || c == '\U{2029}' || c == '\U{202F}' || c == '\U{205F}' || c == '\U{3000}'
  }

  predicate AllSpace(s: string) {
    forall i :: 0 <= i < |s| ==> IsSpace(s[i])
  }

  predicate NoSpace(s: string) {
    forall i :: 0 <= i < |s| ==> !IsSpace(s[i])
  }

  /** strings.TrimLeftFunc(s, unicode.IsSpace) */
  function TrimLeft(s: string): string {
    if s != [] && IsSpace(s[0]) then TrimLeft(s[1..]) else s
  }

  /** strings.TrimRightFunc(s, unicode.IsSpace) */
  function TrimRight(s: string): string {
    if s != [] && IsSpace(s[|s| - 1]) then TrimRight(s[..|s| - 1]) else s
  }

  /** TrimLeft drops the leading white space and nothing else. */
  lemma {:induction false} TrimLeftDropsLeadingSpace(s: string)
    ensures var r := TrimLeft(s);
      |r| <= |s| && r == s[|s| - |r|..] && AllSpace(s[..|s| - |r|]) && (r == [] || !IsSpace(r[0]))
  {
    if s != [] && IsSpace(s[0]) {
      TrimLeftDropsLeadingSpace(s[1..]);
    }
  }

  /** TrimRight drops the trailing white space and nothing else. */
  lemma {:induction false} TrimRightDropsTrailingSpace(s: string)
    ensures var r := TrimRight(s);
      |r| <= |s| && r == s[..|r|] && AllSpace(s[|r|..]) && (r == [] || !IsSpace(r[|r| - 1]))
      && (r == [] ==> AllSpace(s))
  {
    if s != [] && IsSpace(s[|s| - 1]) {
      TrimRightDropsTrailingSpace(s[..|s| - 1]);
    }
  }

  /** strings.TrimSpace: blank strings become empty, others keep everything between their
    * first and last non-space character. */
  function TrimSpace(s: string): (r: string)
    ensures |r| <= |s|
    ensures r == [] <==> AllSpace(s)
    ensures r != [] ==> !IsSpace(r[0]) && !IsSpace(r[|r| - 1])
    ensures exists a, b :: 0 <= a <= b <= |s| && r == s[a..b] && AllSpace(s[..a]) && AllSpace(s[b..])
  {
    var l := TrimLeft(s);
    TrimLeftDropsLeadingSpace(s);
    TrimRightDropsTrailingSpace(l);
    var r := TrimRight(l);
    assert l == [] ==> s == s[..|s| - |l|];
    assert l != [] ==> !IsSpace(s[|s| - |l|]) && !AllSpace(l);
    var a, b := |s| - |l|, |s| - |l| + |r|;
    assert r == s[a..b];
    assert s[b..] == l[|r|..];
    r
  }

  /** A string whose ends are not white space is its own trimmed form. */
  lemma TrimSpaceOfTrimmed(s: string)
    requires s == [] || (!IsSpace(s[0]) && !IsSpace(s[|s| - 1]))
    ensures TrimSpace(s) == s
  {
  }

  /** Trimming twice trims no more than trimming once. */
  lemma TrimSpaceIdempotent(s: string)
    ensures TrimSpace(TrimSpace(s)) == TrimSpace(s)
  {
    TrimSpaceOfTrimmed(TrimSpace(s));
  }

  // ----- case mapping -----

  /** unicode.ToUpper restricted to what the modelled code compares against: ASCII letters,
    * and the two non-ASCII letters whose upper case is ASCII (dotless i and long s). */
  function UpperChar(c: char): char {
    if 'a' <= c <= 'z' then (c as int - 32) as char
    else if c == '\U{0131}' then 'I'
    else if c == '\U{017F}' then 'S'
    else c
  }

  /** unicode.ToLower restricted likewise: ASCII letters, and the two non-ASCII letters whose
    * lower case is ASCII (Kelvin sign and dotted capital I). */
  function LowerChar(c: char): char {
    if 'A' <= c <= 'Z' then (c as int + 32) as char
    else if c == '\U{212A}' then 'k'
    else if c == '\U{0130}' then 'i'
    else c
  }

  /** strings.ToUpper, code point by code point. */
  function Upper(s: string): (r: string)
    ensures |r| == |s| && forall i :: 0 <= i < |s| ==> r[i] == UpperChar(s[i])
  {
    seq(|s|, i requires 0 <= i < |s| => UpperChar(s[i]))
  }

  /** strings.ToLower, code point by code point. */
  function Lower(s: string): (r: string)
    ensures |r| == |s| && forall i :: 0 <= i < |s| ==> r[i] == LowerChar(s[i])
  {
    seq(|s|, i requires 0 <= i < |s| => LowerChar(s[i]))
  }

  // ----- searching -----

  /** strings.HasPrefix */
  predicate HasPrefix(s: string, p: string) {
    |p| <= |s| && s[..|p|] == p
  }

  /** `sub` occurs in `s` starting at position `i`. */
  predicate OccursAt(s: string, sub: string, i: nat) {
    i + |sub| <= |s| && s[i..i + |sub|] == sub
  }

  /** strings.Contains, as a scan over the start positions. */
  predicate Contains(s: string, sub: string) {
    HasPrefix(s, sub) || (s != [] && Contains(s[1..], sub))
  }

  /** The scan finds an occurrence exactly when one exists. */
  lemma {:induction false} ContainsIffOccurs(s: string, sub: string)
    ensures Contains(s, sub) <==> exists i: nat :: OccursAt(s, sub, i)
  {
    if s == [] {
      if sub == [] {
        assert OccursAt(s, sub, 0);
      } else {
        assert forall i: nat :: !OccursAt(s, sub, i);
      }
    } else {
      ContainsIffOccurs(s[1..], sub);
      if Contains(s, sub) {
        if HasPrefix(s, sub) {
          assert OccursAt(s, sub, 0);
        } else {
          var i: nat :| OccursAt(s[1..], sub, i);
          assert s[1..][i..i + |sub|] == s[i + 1..i + 1 + |sub|];
          assert OccursAt(s, sub, i + 1);
        }
      }
      if exists i: nat :: OccursAt(s, sub, i) {
        var i: nat :| OccursAt(s, sub, i);
        if i > 0 {
          assert s[1..][i - 1..i - 1 + |sub|] == s[i..i + |sub|];
          assert OccursAt(s[1..], sub, i - 1);
        } else {
          assert s[..|sub|] == s[0..|sub|];
        }
      }
    }
  }

  /** Every string contains the empty string. */
  lemma ContainsEmpty(s: string)
    ensures Contains(s, "")
  {
  }

  // ----- fields -----

  /** A list of words: non-empty strings without white space. */
  predicate WordList(ws: seq<string>) {
    forall k :: 0 <= k < |ws| ==> ws[k] != [] && NoSpace(ws[k])
  }

  /** The scan behind strings.Fields: `cur` is the word being read. */
  function FieldsFrom(s: string, cur: string): seq<string> {
    if s == [] then
      (if cur == [] then [] else [cur])
    else if IsSpace(s[0]) then
      (if cur == [] then FieldsFrom(s[1..], []) else [cur] + FieldsFrom(s[1..], []))
    else
      FieldsFrom(s[1..], cur + [s[0]])
  }

  /** strings.Fields: the maximal runs of non-space characters, in order. */
  function Fields(s: string): (ws: seq<string>)
    ensures WordList(ws)
    ensures ws == [] <==> AllSpace(s)
  {
    FieldsFromWords(s, []);
    FieldsFrom(s, [])
  }

  lemma {:induction false} FieldsFromWords(s: string, cur: string)
    requires NoSpace(cur)
    ensures WordList(FieldsFrom(s, cur))
    ensures FieldsFrom(s, cur) == [] <==> cur == [] && AllSpace(s)
  {
    if s != [] {
      if IsSpace(s[0]) {
        FieldsFromWords(s[1..], []);
        var rest := FieldsFrom(s[1..], []);
        if cur != [] {
          var ws := [cur] + rest;
          assert forall k :: 0 < k < |ws| ==> ws[k] == rest[k - 1];
        }
      } else {
        FieldsFromWords(s[1..], cur + [s[0]]);
      }
    }
  }

  /** Leading white space starts no field. */
  lemma {:induction false} FieldsFromSkipSpace(lead: string, s: string)
    requires AllSpace(lead)
    ensures FieldsFrom(lead + s, []) == FieldsFrom(s, [])
  {
    if lead == [] {
      assert lead + s == s;
    } else {
      assert (lead + s)[0] == lead[0] && IsSpace(lead[0]);
      assert (lead + s)[1..] == lead[1..] + s;
      FieldsFromSkipSpace(lead[1..], s);
    }
  }

  /** Characters other than white space extend the word being read. */
  lemma {:induction false} FieldsFromReadWord(w: string, rest: string, cur: string)
    requires NoSpace(w)
    ensures FieldsFrom(w + rest, cur) == FieldsFrom(rest, cur + w)
  {
    if w == [] {
      assert w + rest == rest && cur + w == cur;
    } else {
      assert (w + rest)[0] == w[0] && !IsSpace(w[0]);
      assert (w + rest)[1..] == w[1..] + rest;
      assert cur + [w[0]] + w[1..] == cur + w;
      FieldsFromReadWord(w[1..], rest, cur + [w[0]]);
    }
  }

  /** A field is a whole run of non-space characters: after any leading white space, a word
    * ending at white space or at the end of the text is the first field, and the fields of
    * what follows come after it. A single word is its own only field. */
  lemma FieldsOfLeadingWord(lead: string, w: string, rest: string)
    requires AllSpace(lead) && w != [] && NoSpace(w)
    requires rest == [] || IsSpace(rest[0])
    ensures Fields(lead + w + rest) == [w] + Fields(rest)
    ensures lead == [] && rest == [] ==> Fields(w) == [w]
  {
    assert lead + w + rest == lead + (w + rest);
    FieldsFromSkipSpace(lead, w + rest);
    FieldsFromReadWord(w, rest, []);
    assert [] + w == w;
    if lead == [] && rest == [] {
      assert lead + w + rest == w;
    }
  }

  /** The non-space characters of `s`, in order. */
  function Ink(s: string): (r: string)
    ensures NoSpace(r)
  {
    if s == [] then [] else if IsSpace(s[0]) then Ink(s[1..]) else [s[0]] + Ink(s[1..])
  }

  /** Concatenation of a list of strings. */
  function Concat(ws: seq<string>): string {
    if ws == [] then [] else ws[0] + Concat(ws[1..])
  }

  lemma {:induction false} FieldsFromKeepInk(s: string, cur: string)
    ensures Concat(FieldsFrom(s, cur)) == cur + Ink(s)
  {
    if s == [] {
    } else if IsSpace(s[0]) {
      FieldsFromKeepInk(s[1..], []);
      if cur != [] {
        assert ([cur] + FieldsFrom(s[1..], []))[1..] == FieldsFrom(s[1..], []);
      }
    } else {
      FieldsFromKeepInk(s[1..], cur + [s[0]]);
    }
  }

  /** Splitting into fields loses exactly the white space: the fields laid end to end are the
    * non-space characters of the input. */
  lemma FieldsKeepInk(s: string)
    ensures Concat(Fields(s)) == Ink(s)
  {
    FieldsFromKeepInk(s, []);
  }

  // ----- byte lengths -----

  /** Number of bytes UTF-8 spends on one code point. */
  function Utf8Width(c: char): (n: nat)
    ensures 1 <= n <= 4
    ensures n == 1 <==> c as int < 0x80
  {
    if c as int < 0x80 then 1 else if c as int < 0x800 then 2 else if c as int < 0x10000 then 3 else 4
  }

  /** Go's `len(s)`: the UTF-8 length of the string in bytes. */
  function ByteLen(s: string): (n: nat)
    ensures |s| <= n <= 4 * |s|
  {
    if s == [] then 0 else Utf8Width(s[0]) + ByteLen(s[1..])
  }

  lemma {:induction false} ByteLenAppend(a: string, b: string)
    ensures ByteLen(a + b) == ByteLen(a) + ByteLen(b)
  {
    if a == [] {
      assert a + b == b;
    } else {
      assert (a + b)[1..] == a[1..] + b;
      ByteLenAppend(a[1..], b);
    }
  }

  predicate IsAscii(s: string) {
    forall i :: 0 <= i < |s| ==> s[i] as int < 0x80
  }

  /** An ASCII string is as many bytes long as it has characters. */
  lemma {:induction false} ByteLenAscii(s: string)
    requires IsAscii(s)
    ensures ByteLen(s) == |s|
  {
    if s != [] {
      ByteLenAscii(s[1..]);
    }
  }

  // ----- decimal numbers -----

  /** The range of Go's int on a 64-bit platform. */
  const MinInt64: int := -0x8000_0000_0000_0000
  const MaxInt64: int := 0x7FFF_FFFF_FFFF_FFFF

  predicate IsDigit(c: char) {
    '0' <= c <= '9'
  }

  predicate AllDigits(s: string) {
    forall i :: 0 <= i < |s| ==> IsDigit(s[i])
  }

  function DigitChar(d: nat): (c: char)
    requires d < 10
    ensures IsDigit(c) && c as int - '0' as int == d
  {
    ('0' as int + d) as char
  }

  /** The number a run of decimal digits denotes (most significant digit first). */
  function DigitsValue(s: string): nat
    requires AllDigits(s)
  {
    if s == [] then 0 else DigitsValue(s[..|s| - 1]) * 10 + (s[|s| - 1] as int - '0' as int)
  }

  /** strconv.Itoa on a non-negative number: its decimal digits without leading zeros. */
  function NatToString(n: nat): (s: string)
    ensures s != [] && AllDigits(s)
    ensures s[0] == '0' ==> n == 0 && |s| == 1
  {
    if n < 10 then [DigitChar(n)] else NatToString(n / 10) + [DigitChar(n % 10)]
  }

  /** Reading the digits back gives the number. */
  lemma {:induction false} NatToStringValue(n: nat)
    ensures DigitsValue(NatToString(n)) == n
  {
    if n >= 10 {
      var s := NatToString(n);
      assert s[..|s| - 1] == NatToString(n / 10);
      NatToStringValue(n / 10);
    }
  }

  /** strconv.Itoa */
  function IntToString(i: int): (s: string)
    ensures s != []
    ensures i < 0 <==> s[0] == '-'
  {
    if i < 0 then "-" + NatToString(-i) else NatToString(i)
  }

  /** strings.Repeat of a one-character string. */
  function Repeat(c: char, n: nat): (r: string)
    ensures |r| == n && forall i :: 0 <= i < n ==> r[i] == c
  {
    if n == 0 then [] else [c] + Repeat(c, n - 1)
  }
}
