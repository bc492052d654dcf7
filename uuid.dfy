/** uuid.Parse of github.com/google/uuid, as far as the modelled code relies on it: which
  * strings it accepts, and the canonical form (lower-case, dashed) of the UUID it returns. */
module GoUuid {
  import opened Wrappers
  import opened GoText

  predicate IsHexDigit(c: char) {
    '0' <= c <= '9' || 'a' <= c <= 'f' || 'A' <= c <= 'F'
  }

  predicate IsLowerHexDigit(c: char) {
    '0' <= c <= '9' || 'a' <= c <= 'f'
  }

  predicate IsDashPosition(i: int) {
    i == 8 || i == 13 || i == 18 || i == 23
  }

  /** xxxxxxxx-xxxx-xxxx-xxxx-xxxxxxxxxxxx in hex digits of either case. */
  predicate IsDashed(s: string) {
    |s| == 36 && forall i :: 0 <= i < 36 ==> if IsDashPosition(i) then s[i] == '-' else IsHexDigit(s[i])
  }

  /** The form UUID.String() prints: dashed, lower-case hex digits. */
  predicate IsCanonical(s: string) {
    |s| == 36 && forall i :: 0 <= i < 36 ==> if IsDashPosition(i) then s[i] == '-' else IsLowerHexDigit(s[i])
  }

  predicate AllHex(s: string) {
    forall i :: 0 <= i < |s| ==> IsHexDigit(s[i])
  }

  /** Lower-casing a dashed string gives the canonical form. */
  lemma LowerOfDashed(s: string)
    requires IsDashed(s)
    ensures IsCanonical(Lower(s))
  {
  }

  /** The 32 hex digits with the four dashes put in. */
  function Dashes(hex: string): (s: string)
    requires |hex| == 32 && AllHex(hex)
    ensures IsDashed(s)
  {
    var s := hex[..8] + "-" + hex[8..12] + "-" + hex[12..16] + "-" + hex[16..20] + "-" + hex[20..];
    assert forall i :: 0 <= i < 8 ==> s[i] == hex[i];
    assert forall i :: 9 <= i < 13 ==> s[i] == hex[i - 1];
    assert forall i :: 14 <= i < 18 ==> s[i] == hex[i - 2];
    assert forall i :: 19 <= i < 23 ==> s[i] == hex[i - 3];
    assert forall i :: 24 <= i < 36 ==> s[i] == hex[i - 4];
    s
  }

  /** uuid.Parse: the canonical form of the parsed UUID, or None when Parse reports an error.
    * Four lengths are accepted (Go measures bytes; a non-ASCII character never parses):
    * 36, the dashed form; 38, the dashed form between any two characters (the braces are not
    * checked); 45, the dashed form after "urn:uuid:" in any case; 32, bare hex digits. */
  function Parse(s: string): (r: Option<string>)
    ensures r.Some? ==> IsCanonical(r.value)
    ensures r.Some? ==> IsAscii(s) && |s| in {32, 36, 38, 45}
    ensures IsDashed(s) ==> r == Some(Lower(s))
    ensures |s| == 38 && IsAscii(s) && IsDashed(s[1..37]) ==> r == Some(Lower(s[1..37]))
    ensures |s| == 45 && IsAscii(s) && Lower(s[..9]) == "urn:uuid:" && IsDashed(s[9..]) ==>
      r == Some(Lower(s[9..]))
    ensures |s| == 32 && AllHex(s) ==> r == Some(Lower(Dashes(s)))
    ensures r.Some? ==>
      IsDashed(s) || (|s| == 38 && IsDashed(s[1..37])) || (|s| == 45 && IsDashed(s[9..]))
      || (|s| == 32 && AllHex(s))
  {
    if !IsAscii(s) then None
    else if |s| == 36 && IsDashed(s) then
      LowerOfDashed(s);
      Some(Lower(s))
    else if |s| == 38 && IsDashed(s[1..37]) then
      LowerOfDashed(s[1..37]);
      Some(Lower(s[1..37]))
    else if |s| == 45 && Lower(s[..9]) == "urn:uuid:" && IsDashed(s[9..]) then
      LowerOfDashed(s[9..]);
      Some(Lower(s[9..]))
    else if |s| == 32 && AllHex(s) then
      LowerOfDashed(Dashes(s));
      Some(Lower(Dashes(s)))
    else None
  }

  predicate IsUuid(s: string) {
    Parse(s).Some?
  }

  /** The canonical form parses to itself. */
  lemma ParseCanonical(s: string)
    requires IsCanonical(s)
    ensures Parse(s) == Some(s)
  {
    assert IsDashed(s);
    assert Lower(s) == s;
  }

  /** Parsing is idempotent: what Parse returns parses to itself. */
  lemma ParseIdempotent(s: string)
    requires IsUuid(s)
    ensures Parse(Parse(s).value) == Parse(s)
  {
    ParseCanonical(Parse(s).value);
  }

  /** The 38-character form accepts any characters around the dashed form, not only braces. */
  lemma WrapperCharactersUnchecked(s: string, open: char, close: char)
    requires IsCanonical(s) && open as int < 0x80 && close as int < 0x80
    ensures Parse([open] + s + [close]) == Some(s)
  {
    var w := [open] + s + [close];
    assert w[1..37] == s;
    assert Lower(s) == s;
  }

  /** A string that is neither 32, 36, 38 nor 45 characters long is never a UUID. */
  lemma OtherLengthsRejected(s: string)
    requires |s| !in {32, 36, 38, 45}
    ensures !IsUuid(s)
  {
  }
}
