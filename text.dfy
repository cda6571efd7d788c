/** Text helpers the k-file writer relies on: Python's `str.rjust`, `str(n)` for
    a non-negative int, and the inverse reading a positional parser applies to a
    right-justified integer field. */
module Text {

  datatype Option<T> = None | Some(value: T)

  /** A run of `n` blanks. */
  function Spaces(n: nat): (r: string)
    ensures |r| == n
  {
    if n == 0 then "" else Spaces(n - 1) + " "
  }

  lemma {:induction false} SpacesBlank(n: nat)
    ensures forall i :: 0 <= i < n ==> Spaces(n)[i] == ' '
  {
    if n > 0 {
      SpacesBlank(n - 1);
    }
  }

  /** `s.rjust(width)`: pads on the left with blanks up to `width` characters;
      a string already `width` long or longer comes back unchanged, never cut. */
  function RJust(s: string, width: nat): string {
    if |s| < width then Spaces(width - |s|) + s else s
  }

  /** What `rjust` promises: the result is `width` long, or as long as `s`
      when `s` is longer; it ends with `s` unchanged; everything before `s` is
      a blank. */
  lemma RJustSpec(s: string, width: nat)
    ensures var r := RJust(s, width);
      && |r| == (if |s| < width then width else |s|)
      && r[|r| - |s|..] == s
      && (forall i :: 0 <= i < |r| - |s| ==> r[i] == ' ')
  {
    if |s| < width {
      SpacesBlank(width - |s|);
    }
  }

  /** The position of the first character at or after `i` that is not a
      blank, or `|s|` when there is none. */
  function LeadingBlanks(s: string, i: nat): (n: nat)
    requires i <= |s|
    ensures i <= n <= |s|
    ensures forall j :: i <= j < n ==> s[j] == ' '
    ensures n == |s| || s[n] != ' '
    decreases |s| - i
  {
    if i < |s| && s[i] == ' ' then LeadingBlanks(s, i + 1) else i
  }

  /** Drops the leading blanks of a field, as a positional reader does. */
  function TrimLeft(s: string): (r: string)
    ensures |r| <= |s| && r == s[|s| - |r|..]
    ensures |r| == 0 || r[0] != ' '
    ensures forall i :: 0 <= i < |s| - |r| ==> s[i] == ' '
  {
    s[LeadingBlanks(s, 0)..]
  }

  /** Right-justifying and then trimming gives the text back, provided the text
      does not itself begin with a blank. */
  lemma TrimLeftRJust(s: string, width: nat)
    requires |s| == 0 || s[0] != ' '
    ensures TrimLeft(RJust(s, width)) == s
  {
    RJustSpec(s, width);
  }

  predicate IsDigit(c: char) {
    '0' <= c <= '9'
  }

  predicate AllDigits(s: string) {
    forall i :: 0 <= i < |s| ==> IsDigit(s[i])
  }

  function DigitChar(d: nat): (c: char)
    requires d < 10
    ensures IsDigit(c)
  {
    ('0' as int + d) as char
  }

  function DigitValue(c: char): (d: nat)
    requires IsDigit(c)
    ensures d < 10 && DigitChar(d) == c
  {
    c as int - '0' as int
  }

  /** `str(n)` for a non-negative Python int: its decimal digits, no sign,
      no leading zeros. */
  function NatToString(n: nat): (r: string)
    ensures |r| > 0 && AllDigits(r)
    ensures |r| > 1 ==> r[0] != '0'
    decreases n
  {
    if n < 10 then [DigitChar(n)] else NatToString(n / 10) + [DigitChar(n % 10)]
  }

  /** The value of a string of decimal digits, most significant first. */
  function ParseDigits(s: string): nat
    requires AllDigits(s)
  {
    if |s| == 0 then 0 else ParseDigits(s[..|s| - 1]) * 10 + DigitValue(s[|s| - 1])
  }

  lemma {:induction false} ParseNatToString(n: nat)
    ensures ParseDigits(NatToString(n)) == n
    decreases n
  {
    var r := NatToString(n);
    if n >= 10 {
      ParseNatToString(n / 10);
      assert r[..|r| - 1] == NatToString(n / 10);
    }
  }

  function Pow10(k: nat): (p: nat)
    ensures p >= 1
  {
    if k == 0 then 1 else 10 * Pow10(k - 1)
  }

  /** A number below 10^k prints in at most k characters. */
  lemma {:induction false} NatToStringLength(n: nat, k: nat)
    requires 0 < k && n < Pow10(k)
    ensures |NatToString(n)| <= k
    decreases n
  {
    if n >= 10 {
      assert k > 1;
      assert n / 10 < Pow10(k - 1);
      NatToStringLength(n / 10, k - 1);
    }
  }

  /** How a positional reader takes an integer out of a fixed-width field:
      blanks on the left, then one or more digits. */
  function ParseField(field: string): (r: Option<nat>)
    ensures r.Some? <==> |TrimLeft(field)| > 0 && AllDigits(TrimLeft(field))
  {
    var t := TrimLeft(field);
    if |t| > 0 && AllDigits(t) then Some(ParseDigits(t)) else None
  }

  /** A right-justified `str(n)` reads back as `n`, whatever the width. */
  lemma ParseFieldRJust(n: nat, width: nat)
    ensures ParseField(RJust(NatToString(n), width)) == Some(n)
  {
    TrimLeftRJust(NatToString(n), width);
    ParseNatToString(n);
  }
}
