/** The string operations the pipeline performs on its labels and counts:
    lower-casing a tier label, rendering a count in decimal inside an
    f-string, and joining token symbols with a separator. */
module Text {

  /** Lower-cases an ASCII capital letter and leaves every other character. */
  function LowerChar(c: char): char {
    if 'A' <= c <= 'Z' then (c as int + 32) as char else c
  }

  predicate IsLowerFree(s: string) {
    forall i :: 0 <= i < |s| ==> !('A' <= s[i] <= 'Z')
  }

  /** Python's `str.lower()` on ASCII text: same length, each letter lowered. */
  function ToLower(s: string): (r: string)
    ensures |r| == |s|
    ensures forall i :: 0 <= i < |s| ==> r[i] == LowerChar(s[i])
    ensures IsLowerFree(r)
  {
    if s == [] then [] else [LowerChar(s[0])] + ToLower(s[1..])
  }

  /** Lower-casing twice is lower-casing once. */
  lemma ToLowerIdempotent(s: string)
    ensures ToLower(ToLower(s)) == ToLower(s)
  {
  }

  predicate IsDigits(s: string) {
    forall i :: 0 <= i < |s| ==> '0' <= s[i] <= '9'
  }

  function DigitChar(d: nat): (c: char)
    requires d < 10
    ensures '0' <= c <= '9' && c as int - '0' as int == d
  {
    ('0' as int + d) as char
  }

  /** Python's `f"{n}"` for a non-negative int: decimal digits, no sign, no
      separators, and no leading zero except for zero itself. */
  function Decimal(n: nat): (s: string)
    ensures |s| >= 1 && IsDigits(s)
    ensures s[0] == '0' ==> n == 0
  {
    if n < 10 then [DigitChar(n)] else Decimal(n / 10) + [DigitChar(n % 10)]
  }

  /** Reads a string of decimal digits back as a number. */
  function DecimalValue(s: string): nat
    requires IsDigits(s)
  {
    if s == [] then 0
    else 10 * DecimalValue(s[..|s| - 1]) + (s[|s| - 1] as int - '0' as int)
  }

  /** Rendering a count and reading it back gives the count: the decimal text
      names the number exactly. */
  lemma {:induction false} DecimalRoundTrip(n: nat)
    ensures DecimalValue(Decimal(n)) == n
  {
    if n >= 10 {
      DecimalRoundTrip(n / 10);
      var s := Decimal(n);
      assert s[..|s| - 1] == Decimal(n / 10);
    }
  }

  /** `sep.join(parts)`. */
  function Join(parts: seq<string>, sep: string): (r: string)
    ensures parts == [] ==> r == ""
    ensures |parts| > 0 && parts[0] != [] ==> |r| > 0 && r[0] == parts[0][0]
  {
    if |parts| == 0 then ""
    else if |parts| == 1 then parts[0]
    else parts[0] + sep + Join(parts[1..], sep)
  }

  /** The total length of the parts. */
  function SumLengths(parts: seq<string>): nat {
    if parts == [] then 0 else |parts[0]| + SumLengths(parts[1..])
  }

  /** Where part `k` starts in the joined text: after the `k` parts before
      it, each followed by one separator. */
  function Offset(parts: seq<string>, sep: string, k: nat): nat
    requires k < |parts|
  {
    if k == 0 then 0 else |parts[0]| + |sep| + Offset(parts[1..], sep, k - 1)
  }

  /** The joined text is exactly as long as the parts plus one separator
      between each two neighbours. */
  lemma {:induction false} JoinLength(parts: seq<string>, sep: string)
    requires |parts| > 0
    ensures |Join(parts, sep)| == SumLengths(parts) + (|parts| - 1) * |sep|
  {
    if |parts| > 1 {
      JoinLength(parts[1..], sep);
    }
  }

  /** A slice of the right operand of a concatenation, read in the whole. */
  lemma SliceOfSuffix(a: string, b: string, i: nat, j: nat)
    requires i <= j <= |b|
    ensures |a| + j <= |a + b|
    ensures (a + b)[|a| + i..|a| + j] == b[i..j]
  {
  }

  /** Every part appears in the joined text at its offset, in order. */
  lemma {:induction false} JoinPlacesPart(parts: seq<string>, sep: string, k: nat)
    requires k < |parts|
    ensures var o := Offset(parts, sep, k);
            && o + |parts[k]| <= |Join(parts, sep)|
            && Join(parts, sep)[o..o + |parts[k]|] == parts[k]
  {
    if k == 0 {
      if |parts| > 1 {
        assert Join(parts, sep) == parts[0] + (sep + Join(parts[1..], sep));
      }
    } else {
      var tail := parts[1..];
      JoinPlacesPart(tail, sep, k - 1);
      var o' := Offset(tail, sep, k - 1);
      assert tail[k - 1] == parts[k];
      assert Join(parts, sep) == (parts[0] + sep) + Join(tail, sep);
      SliceOfSuffix(parts[0] + sep, Join(tail, sep), o', o' + |parts[k]|);
    }
  }

  /** Between each part and the next sits exactly one separator, and the next
      part starts right after it. */
  lemma {:induction false} JoinSeparates(parts: seq<string>, sep: string, k: nat)
    requires k + 1 < |parts|
    ensures var o := Offset(parts, sep, k) + |parts[k]|;
            && o + |sep| <= |Join(parts, sep)|
            && Join(parts, sep)[o..o + |sep|] == sep
            && Offset(parts, sep, k + 1) == o + |sep|
  {
    var tail := parts[1..];
    if k == 0 {
      assert Join(parts, sep) == parts[0] + (sep + Join(tail, sep));
      SliceOfSuffix(parts[0], sep + Join(tail, sep), 0, |sep|);
    } else {
      JoinSeparates(tail, sep, k - 1);
      var o' := Offset(tail, sep, k - 1) + |tail[k - 1]|;
      assert tail[k - 1] == parts[k];
      assert Join(parts, sep) == (parts[0] + sep) + Join(tail, sep);
      SliceOfSuffix(parts[0] + sep, Join(tail, sep), o', o' + |sep|);
    }
  }
}
