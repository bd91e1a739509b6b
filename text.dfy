/**
 * The pieces of Go's strings, strconv and fmt packages that the core relies on, written out
 * so that their behaviour at the edges (empty input, separators, signs, 64-bit range) is explicit.
 */
module Text {
  import opened Wrappers

  /** unicode.IsSpace: the white space that strings.TrimSpace removes and fmt's scanner skips. */
  predicate IsSpace(c: char)
  {
    ('\t' <= c <= '\r') || c == ' ' || c == '\U{85}' || c == '\U{A0}' || c == '\U{1680}'
    || ('\U{2000}' <= c <= '\U{200A}') || c == '\U{2028}' || c == '\U{2029}'
    || c == '\U{202F}' || c == '\U{205F}' || c == '\U{3000}'
  }

  predicate IsDigit(c: char)
  {
    '0' <= c <= '9'
  }

  predicate HasDigit(s: string)
  {
    exists i :: 0 <= i < |s| && IsDigit(s[i])
  }

  predicate AllDigits(s: string)
  {
    forall i :: 0 <= i < |s| ==> IsDigit(s[i])
  }

  // ---------------------------------------------------------------------------------------------
  // strings.HasPrefix / strings.TrimPrefix / strings.TrimSpace
  // ---------------------------------------------------------------------------------------------

  /** strings.TrimPrefix: drops one leading copy of `prefix` when it is there, else returns `s`. */
  function TrimPrefix(s: string, prefix: string): (r: string)
    ensures prefix <= s ==> prefix + r == s
    ensures !(prefix <= s) ==> r == s
  {
    if prefix <= s then s[|prefix|..] else s
  }

  /** Leading white space removed: `r` is the longest suffix of `s` not starting with a space. */
  function TrimLeftSpace(s: string): (r: string)
    ensures |r| <= |s| && r == s[|s| - |r|..]
    ensures forall i :: 0 <= i < |s| - |r| ==> IsSpace(s[i])
    ensures r == [] || !IsSpace(r[0])
  {
    if |s| > 0 && IsSpace(s[0]) then TrimLeftSpace(s[1..]) else s
  }

  /** Trailing white space removed: `r` is the longest prefix of `s` not ending with a space. */
  function TrimRightSpace(s: string): (r: string)
    ensures |r| <= |s| && r == s[..|r|]
    ensures forall i :: |r| <= i < |s| ==> IsSpace(s[i])
    ensures r == [] || !IsSpace(r[|r| - 1])
  {
    if |s| > 0 && IsSpace(s[|s| - 1]) then TrimRightSpace(s[..|s| - 1]) else s
  }

  /** `s[i..j]` is what is left of `s` once white space is cut from both ends: all that is cut is space. */
  predicate CutsOnlySpace(s: string, i: int, j: int)
  {
    0 <= i <= j <= |s| &&
    (forall k :: 0 <= k < i ==> IsSpace(s[k])) &&
    (forall k :: j <= k < |s| ==> IsSpace(s[k]))
  }

  /** strings.TrimSpace: the infix of `s` left after removing white space at both ends. */
  function TrimSpace(s: string): (r: string)
    ensures |r| <= |s|
    ensures r == [] || (!IsSpace(r[0]) && !IsSpace(r[|r| - 1]))
    ensures (s == [] || (!IsSpace(s[0]) && !IsSpace(s[|s| - 1]))) ==> r == s
    ensures exists i, j :: CutsOnlySpace(s, i, j) && r == s[i..j]
  {
    var left := TrimLeftSpace(s);
    var r := TrimRightSpace(left);
    assert r != [] ==> r[0] == left[0];
    TrimBothCutsOnlySpace(s, left, r);
    r
  }

  /** Cutting a space-only head off `s`, then a space-only tail off the rest, leaves an infix cut only of space. */
  lemma TrimBothCutsOnlySpace(s: string, left: string, r: string)
    requires |left| <= |s| && left == s[|s| - |left|..]
    requires forall k :: 0 <= k < |s| - |left| ==> IsSpace(s[k])
    requires |r| <= |left| && r == left[..|r|]
    requires forall k :: |r| <= k < |left| ==> IsSpace(left[k])
    ensures CutsOnlySpace(s, |s| - |left|, |s| - |left| + |r|)
    ensures r == s[|s| - |left|..|s| - |left| + |r|]
  {
    var i := |s| - |left|;
    forall k | i + |r| <= k < |s|
      ensures IsSpace(s[k])
    {
      assert s[k] == left[k - i];
    }
  }

  // ---------------------------------------------------------------------------------------------
  // strings.Split with a one-character separator, and its inverse strings.Join
  // ---------------------------------------------------------------------------------------------

  /** The number of occurrences of `c` in `s`. */
  function Count(s: string, c: char): nat
  {
    if |s| == 0 then 0 else (if s[0] == c then 1 else 0) + Count(s[1..], c)
  }

  /**
   * strings.Split(s, string(sep)): the maximal separator-free segments of `s`, in order.
   * Empty segments are kept, and the empty string splits into one empty segment.
   */
  function Split(s: string, sep: char): (parts: seq<string>)
    ensures |parts| == Count(s, sep) + 1
    ensures forall i :: 0 <= i < |parts| ==> sep !in parts[i]
  {
    if |s| == 0 then [""]
    else
      var rest := Split(s[1..], sep);
      if s[0] == sep then [""] + rest
      else [[s[0]] + rest[0]] + rest[1..]
  }

  /** strings.Join(parts, string(sep)). */
  function Join(parts: seq<string>, sep: char): string
    requires |parts| >= 1
  {
    if |parts| == 1 then parts[0] else parts[0] + [sep] + Join(parts[1..], sep)
  }

  /** Joining the segments of a split with the same separator gives back the original string. */
  lemma {:induction false} JoinSplit(s: string, sep: char)
    ensures Join(Split(s, sep), sep) == s
  {
    if |s| > 0 {
      var rest := Split(s[1..], sep);
      JoinSplit(s[1..], sep);
      if s[0] == sep {
        assert Split(s, sep) == [""] + rest;
        assert ([""] + rest)[1..] == rest;
      } else if |rest| == 1 {
        assert Split(s, sep) == [[s[0]] + rest[0]];
      } else {
        var parts := Split(s, sep);
        assert parts == [[s[0]] + rest[0]] + rest[1..];
        assert parts[1..] == rest[1..];
        assert Join(rest, sep) == rest[0] + [sep] + Join(rest[1..], sep);
      }
    }
  }

  /** Splitting a segment without separators glued to a string extends that string's first segment. */
  lemma {:induction false} SplitSegmentPrefix(a: string, b: string, sep: char)
    requires sep !in a
    ensures Split(a + b, sep) == [a + Split(b, sep)[0]] + Split(b, sep)[1..]
  {
    if |a| > 0 {
      SplitSegmentPrefix(a[1..], b, sep);
      assert (a + b)[1..] == a[1..] + b;
      assert (a + b)[0] == a[0];
      assert [a[0]] + (a[1..] + Split(b, sep)[0]) == a + Split(b, sep)[0];
    } else {
      var parts := Split(b, sep);
      assert a + b == b;
      assert parts == [parts[0]] + parts[1..];
      assert a + parts[0] == parts[0];
    }
  }

  /** Splitting a join of separator-free segments gives back exactly those segments. */
  lemma {:induction false} SplitJoin(parts: seq<string>, sep: char)
    requires |parts| >= 1
    requires forall i :: 0 <= i < |parts| ==> sep !in parts[i]
    ensures Split(Join(parts, sep), sep) == parts
  {
    if |parts| == 1 {
      SplitSegmentPrefix(parts[0], "", sep);
      assert parts[0] + "" == parts[0];
    } else {
      var tail := Join(parts[1..], sep);
      SplitJoin(parts[1..], sep);
      assert ([sep] + tail)[1..] == tail;
      var after := Split([sep] + tail, sep);
      assert after == [""] + parts[1..];
      assert after[0] == "" && after[1..] == parts[1..];
      assert Join(parts, sep) == parts[0] + ([sep] + tail);
      SplitSegmentPrefix(parts[0], [sep] + tail, sep);
      assert parts[0] + after[0] == parts[0];
      assert [parts[0]] + parts[1..] == parts;
    }
  }

  // ---------------------------------------------------------------------------------------------
  // Decimal integers: fmt's %d when printing, and fmt.Sscanf(s, "%d", &v) into a 64-bit int
  // ---------------------------------------------------------------------------------------------

  const Int64Min: int := -0x8000_0000_0000_0000
  const Int64Max: int := 0x7FFF_FFFF_FFFF_FFFF

  /** Two's-complement wrap-around of an int64 result, as Go's integer arithmetic does it. */
  function WrapInt64(x: int): (r: int)
    ensures Int64Min <= r <= Int64Max
    ensures (x - r) % 0x1_0000_0000_0000_0000 == 0
    ensures Int64Min <= x <= Int64Max ==> r == x
  {
    (x - Int64Min) % 0x1_0000_0000_0000_0000 + Int64Min
  }

  function DigitChar(d: int): (c: char)
    requires 0 <= d < 10
    ensures IsDigit(c) && c as int - '0' as int == d
  {
    (d + '0' as int) as char
  }

  /** The decimal digits of `n` without leading zeros. */
  function FormatNat(n: nat): (s: string)
    ensures |s| >= 1 && AllDigits(s)
  {
    if n < 10 then [DigitChar(n)] else FormatNat(n / 10) + [DigitChar(n % 10)]
  }

  /** %d: an optional minus sign followed by the decimal digits. */
  function FormatInt(n: int): string
  {
    if n < 0 then "-" + FormatNat(-n) else FormatNat(n)
  }

  /** The value of a string of decimal digits (the empty string counts 0). */
  function DigitsValue(s: string): nat
    requires AllDigits(s)
  {
    if |s| == 0 then 0 else DigitsValue(s[..|s| - 1]) * 10 + (s[|s| - 1] as int - '0' as int)
  }

  lemma {:induction false} DigitsValueOfFormat(n: nat)
    ensures DigitsValue(FormatNat(n)) == n
  {
    if n >= 10 {
      var s := FormatNat(n);
      DigitsValueOfFormat(n / 10);
      assert s[..|s| - 1] == FormatNat(n / 10);
    }
  }

  /** The length of the longest all-digit prefix of `s`. */
  function DigitPrefixLength(s: string): (k: nat)
    ensures k <= |s| && AllDigits(s[..k])
    ensures k < |s| ==> !IsDigit(s[k])
  {
    if |s| > 0 && IsDigit(s[0]) then
      var k := 1 + DigitPrefixLength(s[1..]);
      assert s[..k] == [s[0]] + s[1..][..k - 1];
      k
    else 0
  }

  /**
   * The white space fmt's scanner skips before a %d: any unicode space, except that a newline
   * in the input is an error ("unexpected newline"). None stands for that error.
   */
  function SkipScanSpace(s: string): (r: Option<string>)
    ensures r.Some? ==> |r.value| <= |s| && r.value == s[|s| - |r.value|..]
    ensures r.Some? ==> r.value == [] || !IsSpace(r.value[0])
  {
    if |s| == 0 then Some(s)
    else if s[0] == '\n' then None
    else if IsSpace(s[0]) then SkipScanSpace(s[1..])
    else Some(s)
  }

  /**
   * fmt.Sscanf(s, "%d", &v) with v a 64-bit int: leading white space, an optional sign, then the
   * longest run of decimal digits; whatever follows the digits is left unread and is not an error.
   * None is a non-nil error: a newline before the number, no digits, or a value outside int64.
   */
  function ScanInt(s: string): (r: Option<int>)
    ensures r.Some? ==> Int64Min <= r.value <= Int64Max
    ensures r.Some? ==> HasDigit(s)
  {
    match SkipScanSpace(s)
    case None => None
    case Some(t) =>
      var r := ScanSigned(t);
      assert r.Some? ==> IsDigit(s[|s| - |t| + (if IsDigit(t[0]) then 0 else 1)]);
      r
  }

  /** The number at the very start of `t`: an optional '+' or '-', then at least one digit. */
  function ScanSigned(t: string): (r: Option<int>)
    ensures r.Some? ==> Int64Min <= r.value <= Int64Max
    ensures r.Some? ==> |t| > 0 && (IsDigit(t[0]) || (|t| > 1 && IsDigit(t[1])))
  {
    if |t| == 0 then None
    else if t[0] == '+' || t[0] == '-' then ScanDigits(t[1..], t[0] == '-')
    else ScanDigits(t, false)
  }

  /** The longest run of digits at the start of `t`, negated when `negative`, if it fits in an int64. */
  function ScanDigits(t: string, negative: bool): (r: Option<int>)
    ensures r.Some? ==> Int64Min <= r.value <= Int64Max
    ensures r.Some? ==> |t| > 0 && IsDigit(t[0])
  {
    var k := DigitPrefixLength(t);
    if k == 0 then None
    else
      var magnitude: int := DigitsValue(t[..k]);
      var v := if negative then -magnitude else magnitude;
      if Int64Min <= v <= Int64Max then Some(v) else None
  }

  /** The digit prefix ends exactly where the first non-digit (or the end of the string) is. */
  lemma {:induction false} DigitPrefixLengthIs(t: string, m: nat)
    requires m <= |t| && AllDigits(t[..m])
    requires m < |t| ==> !IsDigit(t[m])
    ensures DigitPrefixLength(t) == m
  {
    if m > 0 {
      assert IsDigit(t[..m][0]);
      assert t[1..][..m - 1] == t[..m][1..];
      DigitPrefixLengthIs(t[1..], m - 1);
    }
  }

  /** A run of digits followed by text that does not continue it scans to the digits' value. */
  lemma {:induction false} ScanDigitsThen(digits: string, rest: string, negative: bool)
    requires |digits| >= 1 && AllDigits(digits)
    requires rest == [] || !IsDigit(rest[0])
    requires var v: int := DigitsValue(digits); Int64Min <= (if negative then -v else v) <= Int64Max
    ensures var v: int := DigitsValue(digits); ScanDigits(digits + rest, negative) == Some(if negative then -v else v)
  {
    var t := digits + rest;
    assert t[..|digits|] == digits;
    assert |digits| < |t| ==> t[|digits|] == rest[0];
    DigitPrefixLengthIs(t, |digits|);
    assert DigitsValue(t[..DigitPrefixLength(t)]) == DigitsValue(digits);
  }

  /** Every int64 printed with %d scans back with %d to itself. */
  lemma {:induction false} ScanFormatRoundTrip(n: int)
    requires Int64Min <= n <= Int64Max
    ensures ScanInt(FormatInt(n)) == Some(n)
  {
    var m: nat := if n < 0 then -n else n;
    var digits := FormatNat(m);
    DigitsValueOfFormat(m);
    ScanDigitsThen(digits, "", n < 0);
    assert digits + "" == digits;
    var s := FormatInt(n);
    assert s[0] != '\n' && !IsSpace(s[0]);
    assert SkipScanSpace(s) == Some(s);
    if n < 0 {
      assert s[1..] == digits;
    }
  }

  /** A number followed by other text still scans: Sscanf stops at the first non-digit. */
  lemma {:induction false} ScanStopsAtFirstNonDigit(n: nat, rest: string)
    requires n <= Int64Max
    requires rest == [] || !IsDigit(rest[0])
    ensures ScanInt(FormatNat(n) + rest) == Some(n)
  {
    var digits := FormatNat(n);
    DigitsValueOfFormat(n);
    ScanDigitsThen(digits, rest, false);
    var s := digits + rest;
    assert s[0] == digits[0];
    assert s[0] != '\n' && !IsSpace(s[0]) && s[0] != '+' && s[0] != '-';
    assert SkipScanSpace(s) == Some(s);
    assert ScanSigned(s) == ScanDigits(s, false);
  }

  // ---------------------------------------------------------------------------------------------
  // fmt's %-5s: left-justified in a field of at least `width` characters
  // ---------------------------------------------------------------------------------------------

  function Spaces(n: nat): (r: string)
    ensures |r| == n && forall i :: 0 <= i < n ==> r[i] == ' '
  {
    if n == 0 then "" else " " + Spaces(n - 1)
  }

  function PadRight(s: string, width: nat): (r: string)
    ensures s <= r
    ensures |r| == if |s| >= width then |s| else width
    ensures forall i :: |s| <= i < |r| ==> r[i] == ' '
  {
    if |s| >= width then s else s + Spaces(width - |s|)
  }
}
