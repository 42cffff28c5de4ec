/**
 * The few JavaScript string operations the application relies on, over `seq<char>`:
 * ASCII case mapping, `Number.prototype.toString` for non-negative integers and its
 * inverse, `padStart`, `trim`, `indexOf`, `replace` with a string pattern (first
 * occurrence only) and character counting.
 */
module Strings {
  import opened Optional

  // ---------------------------------------------------------------------------
  // Case mapping (ASCII only)

  function Upper(c: char): char {
    if 'a' <= c <= 'z' then (c as int - 32) as char else c
  }

  function Lower(c: char): char {
    if 'A' <= c <= 'Z' then (c as int + 32) as char else c
  }

  function LowerAll(s: string): (r: string)
    ensures |r| == |s|
  {
    seq(|s|, i requires 0 <= i < |s| => Lower(s[i]))
  }

  // ---------------------------------------------------------------------------
  // Decimal digits

  predicate IsDigit(c: char) {
    '0' <= c <= '9'
  }

  predicate AllDigits(s: string) {
    forall i :: 0 <= i < |s| ==> IsDigit(s[i])
  }

  function DigitChar(d: nat): (c: char)
    requires d < 10
    ensures IsDigit(c) && c as int - '0' as int == d
  {
    ('0' as int + d) as char
  }

  /** The value of a string of decimal digits, most significant first. */
  function DigitsValue(s: string): nat
    requires AllDigits(s)
    decreases |s|
  {
    if s == [] then 0
    else DigitsValue(s[..|s| - 1]) * 10 + (s[|s| - 1] as int - '0' as int)
  }

  /** `n.toString()` for a non-negative integer: decimal, no leading zeros. */
  function NatToString(n: nat): string
    decreases n
  {
    if n < 10 then [DigitChar(n)] else NatToString(n / 10) + [DigitChar(n % 10)]
  }

  lemma {:induction false} NatToStringDigits(n: nat)
    ensures AllDigits(NatToString(n)) && |NatToString(n)| >= 1
    ensures DigitsValue(NatToString(n)) == n
    ensures (n < 10 <==> |NatToString(n)| == 1) && (n < 100 <==> |NatToString(n)| <= 2)
    decreases n
  {
    if n >= 10 {
      NatToStringDigits(n / 10);
      var s := NatToString(n);
      assert s[..|s| - 1] == NatToString(n / 10);
    }
  }

  lemma {:induction false} ZerosValue(z: string)
    requires forall i :: 0 <= i < |z| ==> z[i] == '0'
    ensures AllDigits(z) && DigitsValue(z) == 0
    decreases |z|
  {
    if z != [] {
      ZerosValue(z[..|z| - 1]);
    }
  }

  /** Leading zeros do not change the value of a digit string. */
  lemma {:induction false} LeadingZerosValue(z: string, s: string)
    requires forall i :: 0 <= i < |z| ==> z[i] == '0'
    requires AllDigits(s)
    ensures AllDigits(z + s) && DigitsValue(z + s) == DigitsValue(s)
    decreases |s|
  {
    ZerosValue(z);
    if s == [] {
      assert z + s == z;
    } else {
      var t := z + s;
      assert t[..|t| - 1] == z + s[..|s| - 1];
      LeadingZerosValue(z, s[..|s| - 1]);
    }
  }

  // ---------------------------------------------------------------------------
  // padStart with a one-character fill

  /** `s.padStart(width, fill)`: never truncates, pads on the left up to `width`. */
  function PadStart(s: string, width: nat, fill: char): (r: string)
    ensures |r| == if |s| >= width then |s| else width
    ensures r[|r| - |s|..] == s
    ensures forall i :: 0 <= i < |r| - |s| ==> r[i] == fill
  {
    if |s| >= width then s else seq(width - |s|, _ => fill) + s
  }

  /** Zero-padding a string of digits keeps it a string of digits with the same value. */
  lemma PadZeroValue(s: string, width: nat)
    requires AllDigits(s)
    ensures AllDigits(PadStart(s, width, '0'))
    ensures DigitsValue(PadStart(s, width, '0')) == DigitsValue(s)
  {
    var r := PadStart(s, width, '0');
    var z := r[..|r| - |s|];
    assert r == z + s;
    LeadingZerosValue(z, s);
  }

  /** `n.toString().padStart(2, '0')`. */
  function Pad2(n: nat): string {
    PadStart(NatToString(n), 2, '0')
  }

  /** The padded numeral is all digits, reads back as `n`, and is two long exactly below 100. */
  lemma Pad2Digits(n: nat)
    ensures AllDigits(Pad2(n)) && DigitsValue(Pad2(n)) == n
    ensures |Pad2(n)| >= 2 && (n < 100 <==> |Pad2(n)| == 2)
  {
    NatToStringDigits(n);
    PadZeroValue(NatToString(n), 2);
  }

  // ---------------------------------------------------------------------------
  // trim

  /** The characters `String.prototype.trim` removes (WhiteSpace and LineTerminator). */
  predicate IsWhitespace(c: char) {
    || c == '\t' || c == '\n' || c == '\U{000B}' || c == '\U{000C}' || c == '\r'
    || c == ' ' || c == '\U{00A0}' || c == '\U{1680}' || ('\U{2000}' <= c <= '\U{200A}')
    || c == '\U{2028}' || c == '\U{2029}' || c == '\U{202F}' || c == '\U{205F}'
    || c == '\U{3000}' || c == '\U{FEFF}'
  }

  function TrimStart(s: string): (r: string)
    ensures |r| <= |s| && r == s[|s| - |r|..]
    ensures r == [] || !IsWhitespace(r[0])
    ensures forall i :: 0 <= i < |s| - |r| ==> IsWhitespace(s[i])
    decreases |s|
  {
    if s != [] && IsWhitespace(s[0]) then TrimStart(s[1..]) else s
  }

  function TrimEnd(s: string): (r: string)
    ensures |r| <= |s| && r == s[..|r|]
    ensures r == [] || !IsWhitespace(r[|r| - 1])
    ensures forall i :: |r| <= i < |s| ==> IsWhitespace(s[i])
    decreases |s|
  {
    if s != [] && IsWhitespace(s[|s| - 1]) then TrimEnd(s[..|s| - 1]) else s
  }

  function Trim(s: string): string {
    TrimEnd(TrimStart(s))
  }

  /** A string trims to the empty string exactly when it is made of whitespace only. */
  lemma TrimEmptyIff(s: string)
    ensures Trim(s) == [] <==> forall i :: 0 <= i < |s| ==> IsWhitespace(s[i])
  {
  }

  // ---------------------------------------------------------------------------
  // parseFloat over decimal literals

  /** The length of the run of decimal digits at the front of `s`. */
  function LeadingDigits(s: string): (n: nat)
    ensures n <= |s| && AllDigits(s[..n])
    ensures n < |s| ==> !IsDigit(s[n])
    decreases |s|
  {
    if s != [] && IsDigit(s[0]) then
      var n := 1 + LeadingDigits(s[1..]);
      assert s[..n] == [s[0]] + s[1..][..n - 1];
      n
    else 0
  }

  function Pow10(k: nat): (p: real)
    ensures p >= 1.0
  {
    if k == 0 then 1.0 else 10.0 * Pow10(k - 1)
  }

  /** The factor an exponent part `e[+-]digits` at the front of `s` stands for; 1 when there is none. */
  function ExponentScale(s: string): (x: real)
    ensures x > 0.0
  {
    if s == [] || (s[0] != 'e' && s[0] != 'E') then 1.0
    else
      var t := s[1..];
      var neg := t != [] && t[0] == '-';
      var u := if t != [] && (t[0] == '-' || t[0] == '+') then t[1..] else t;
      var n := LeadingDigits(u);
      if n == 0 then 1.0
      else if neg then 1.0 / Pow10(DigitsValue(u[..n]))
      else Pow10(DigitsValue(u[..n]))
  }

  /** The text after an optional leading sign. */
  function Unsigned(t: string): (u: string)
    ensures |u| <= |t|
  {
    if t != [] && (t[0] == '-' || t[0] == '+') then t[1..] else t
  }

  /** The value of a literal with integer digits, fraction digits and what follows them. */
  function LiteralValue(intDigits: string, fracDigits: string, after: string): real
    requires AllDigits(intDigits) && AllDigits(fracDigits)
  {
    (DigitsValue(intDigits) as real + DigitsValue(fracDigits) as real / Pow10(|fracDigits|))
      * ExponentScale(after)
  }

  /** A literal without fraction or exponent has the value of its digits. */
  lemma IntegerLiteralValue(d: string, after: string)
    requires AllDigits(d)
    requires after == [] || (after[0] != 'e' && after[0] != 'E')
    ensures LiteralValue(d, [], after) == DigitsValue(d) as real
  {
    assert ExponentScale(after) == 1.0;
  }

  /**
   * The value of the longest unsigned decimal literal (digits, fraction, exponent) at the
   * front of `u`; `None` when there is no digit before the exponent.
   */
  function UnsignedFloat(u: string): Option<real> {
    var n := LeadingDigits(u);
    var afterInt := u[n..];
    var dot := afterInt != [] && afterInt[0] == '.';
    var f := if dot then LeadingDigits(afterInt[1..]) else 0;
    if n == 0 && f == 0 then None
    else if dot then Some(LiteralValue(u[..n], afterInt[1..][..f], afterInt[1 + f..]))
    else Some(LiteralValue(u[..n], [], afterInt))
  }

  /**
   * `parseFloat(s)`: after leading whitespace and an optional sign, the longest prefix that
   * is a decimal literal is read; `None` stands for `NaN`.
   */
  function ParseFloat(s: string): Option<real> {
    var t := TrimStart(s);
    match UnsignedFloat(Unsigned(t))
    case None => None
    case Some(m) => Some(if t != [] && t[0] == '-' then -m else m)
  }

  /** Digits followed by anything that cannot continue a literal read as their value. */
  lemma UnsignedFloatDigits(d: string, rest: string)
    requires d != [] && AllDigits(d)
    requires rest == [] || (!IsDigit(rest[0]) && rest[0] != '.' && rest[0] != 'e' && rest[0] != 'E')
    ensures UnsignedFloat(d + rest) == Some(DigitsValue(d) as real)
  {
    var s := d + rest;
    LeadingDigitsOf(d, rest);
    assert s[..|d|] == d && s[|d|..] == rest;
    assert !(rest != [] && rest[0] == '.');
    IntegerLiteralValue(d, rest);
  }

  /** A run of digits followed by anything that cannot continue a literal reads as its value. */
  lemma ParseFloatDigits(d: string, rest: string)
    requires d != [] && AllDigits(d)
    requires rest == [] || (!IsDigit(rest[0]) && rest[0] != '.' && rest[0] != 'e' && rest[0] != 'E')
    ensures ParseFloat(d + rest) == Some(DigitsValue(d) as real)
  {
    var s := d + rest;
    assert s[0] == d[0] && IsDigit(s[0]);
    var t := TrimStart(s);
    assert t == s;
    assert Unsigned(t) == s && t[0] != '-';
    UnsignedFloatDigits(d, rest);
    assert UnsignedFloat(Unsigned(t)) == Some(DigitsValue(d) as real);
  }

  lemma {:induction false} LeadingDigitsOf(d: string, rest: string)
    requires AllDigits(d)
    requires rest == [] || !IsDigit(rest[0])
    ensures LeadingDigits(d + rest) == |d|
    decreases |d|
  {
    if d != [] {
      assert (d + rest)[1..] == d[1..] + rest;
      LeadingDigitsOf(d[1..], rest);
    } else {
      assert d + rest == rest;
    }
  }

  /** `parseFloat(n.toString())` gives `n` back. */
  lemma ParseFloatOfNat(n: nat)
    ensures ParseFloat(NatToString(n)) == Some(n as real)
  {
    NatToStringDigits(n);
    ParseFloatDigits(NatToString(n), "");
    assert NatToString(n) + "" == NatToString(n);
  }

  /** Text with no digit at all is `NaN`. */
  predicate NoDigit(s: string) {
    forall i :: 0 <= i < |s| ==> !IsDigit(s[i])
  }

  lemma NoDigitSuffix(s: string, k: nat)
    requires NoDigit(s) && k <= |s|
    ensures NoDigit(s[k..])
  {
    assert forall i :: 0 <= i < |s| - k ==> s[k..][i] == s[k + i];
  }

  lemma UnsignedFloatNoDigits(u: string)
    requires NoDigit(u)
    ensures UnsignedFloat(u) == None
  {
    assert LeadingDigits(u) == 0;
    if u != [] && u[0] == '.' {
      NoDigitSuffix(u, 1);
      assert LeadingDigits(u[1..]) == 0;
    }
  }

  lemma ParseFloatNoDigits(s: string)
    requires NoDigit(s)
    ensures ParseFloat(s) == None
  {
    var t := TrimStart(s);
    NoDigitSuffix(s, |s| - |t|);
    var u := Unsigned(t);
    NoDigitSuffix(t, |t| - |u|);
    UnsignedFloatNoDigits(u);
  }

  // ---------------------------------------------------------------------------
  // indexOf and replace with a string pattern

  predicate OccursAt(s: string, pat: string, k: nat) {
    k + |pat| <= |s| && s[k..k + |pat|] == pat
  }

  /** `s.indexOf(pat, from)`: the first occurrence at or after `from`. */
  function IndexFrom(s: string, pat: string, from: nat): (r: Option<nat>)
    requires from <= |s|
    ensures r.Some? ==> from <= r.value && OccursAt(s, pat, r.value)
    ensures r.Some? ==> forall j :: from <= j < r.value ==> !OccursAt(s, pat, j)
    ensures r.None? ==> forall j :: from <= j <= |s| ==> !OccursAt(s, pat, j)
    decreases |s| - from
  {
    if OccursAt(s, pat, from) then Some(from)
    else if from == |s| then None
    else IndexFrom(s, pat, from + 1)
  }

  function IndexOf(s: string, pat: string): Option<nat> {
    IndexFrom(s, pat, 0)
  }

  /** `s.replace(pat, rep)` with a string pattern: only the first occurrence is replaced. */
  function ReplaceFirst(s: string, pat: string, rep: string): string {
    match IndexOf(s, pat)
    case None => s
    case Some(k) => s[..k] + rep + s[k + |pat|..]
  }

  /** When `pat` first occurs at `k`, `replace` rewrites exactly that occurrence. */
  lemma ReplaceAtFirst(s: string, pat: string, rep: string, k: nat)
    requires OccursAt(s, pat, k)
    requires forall j :: 0 <= j < k ==> !OccursAt(s, pat, j)
    ensures ReplaceFirst(s, pat, rep) == s[..k] + rep + s[k + |pat|..]
  {
  }

  /** A string that starts with `pat` has it replaced at the front. */
  lemma ReplacePrefix(pat: string, rest: string, rep: string)
    ensures ReplaceFirst(pat + rest, pat, rep) == rep + rest
  {
    var s := pat + rest;
    assert s[0..|pat|] == pat;
    ReplaceAtFirst(s, pat, rep, 0);
    assert s[|pat|..] == rest;
  }

  /** When the first occurrence of `pat` is the final one, `replace` rewrites the end. */
  lemma ReplaceAtEnd(p: string, pat: string, rep: string)
    requires IndexOf(p + pat, pat) == Some(|p|)
    ensures ReplaceFirst(p + pat, pat, rep) == p + rep
  {
    var s := p + pat;
    assert s[..|p|] == p;
    assert s[|p| + |pat|..] == [];
  }

  /** No proper prefix of `pat` is also a suffix of it, so occurrences cannot overlap. */
  predicate Unbordered(pat: string) {
    forall b :: 0 < b < |pat| ==> pat[..b] != pat[|pat| - b..]
  }

  /**
   * When `pat` does not occur inside `p` and cannot overlap itself, the first occurrence
   * of `pat` in `p + pat` is the final one.
   */
  lemma FirstOccurrenceAtEnd(p: string, pat: string)
    requires Unbordered(pat)
    requires forall k :: 0 <= k && k + |pat| <= |p| ==> !OccursAt(p, pat, k)
    ensures IndexOf(p + pat, pat) == Some(|p|)
  {
    var s := p + pat;
    assert s[|p|..|p| + |pat|] == pat;
    forall k | 0 <= k < |p|
      ensures !OccursAt(s, pat, k)
    {
      if k + |pat| <= |p| {
        assert !OccursAt(p, pat, k);
        assert s[k..k + |pat|] == p[k..k + |pat|];
      } else {
        var d := |p| - k;
        var b := |pat| - d;
        assert s[k..k + |pat|][d..] == pat[..b];
        assert pat[d..] == pat[|pat| - b..];
        assert pat[..b] != pat[|pat| - b..];
      }
    }
    assert OccursAt(s, pat, |p|);
  }

  /** The two-character sequence `c1 c2` does not appear in `s`. */
  predicate NoPair(s: string, c1: char, c2: char) {
    forall i :: 0 <= i < |s| - 1 ==> !(s[i] == c1 && s[i + 1] == c2)
  }

  /** Joining two strings without the pair creates none when one side lacks its letter. */
  lemma NoPairConcat(a: string, b: string, c1: char, c2: char)
    requires NoPair(a, c1, c2) && NoPair(b, c1, c2)
    requires c1 !in a || c2 !in b
    ensures NoPair(a + b, c1, c2)
  {
    var s := a + b;
    forall i | 0 <= i < |s| - 1
      ensures !(s[i] == c1 && s[i + 1] == c2)
    {
      if i + 1 < |a| {
        assert s[i] == a[i] && s[i + 1] == a[i + 1];
      } else if i >= |a| {
        assert s[i] == b[i - |a|] && s[i + 1] == b[i - |a| + 1];
      } else {
        assert s[i] == a[i] && s[i + 1] == b[0];
        assert a[i] in a && b[0] in b;
      }
    }
  }

  /** A pattern holding the pair `c1 c2` at `j` does not occur in a string without it. */
  lemma NoPairNoOccurrence(p: string, pat: string, j: nat, c1: char, c2: char)
    requires j + 1 < |pat| && pat[j] == c1 && pat[j + 1] == c2
    requires NoPair(p, c1, c2)
    ensures forall k :: 0 <= k && k + |pat| <= |p| ==> !OccursAt(p, pat, k)
  {
    forall k | 0 <= k && k + |pat| <= |p|
      ensures !OccursAt(p, pat, k)
    {
      assert !(p[k + j] == c1 && p[k + j + 1] == c2);
      assert p[k..k + |pat|][j] == p[k + j] && p[k..k + |pat|][j + 1] == p[k + j + 1];
    }
  }

  // ---------------------------------------------------------------------------
  // Counting characters

  /** The number of occurrences of `c` in `s`. */
  function CountChar(s: string, c: char): nat {
    multiset(s)[c]
  }

  lemma CountCharConcat(a: string, b: string, c: char)
    ensures CountChar(a + b, c) == CountChar(a, c) + CountChar(b, c)
  {
  }

  lemma NotInCount(s: string, c: char)
    requires c !in s
    ensures CountChar(s, c) == 0
  {
  }

  lemma NotInNoPair(s: string, c1: char, c2: char)
    requires c1 !in s || c2 !in s
    ensures NoPair(s, c1, c2)
  {
    assert forall i :: 0 <= i < |s| ==> s[i] in s;
  }
}
