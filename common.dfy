/** Small value types and string helpers shared by the whole model: an Option
    type, the JavaScript white-space class, trimming, lower-casing, decimal
    text and the `parseInt` subset the screens rely on. */
module Common {

  datatype Option<T> = None | Some(value: T)

  /** JavaScript's `\s` (and the set `String.prototype.trim` strips):
      WhiteSpace plus LineTerminator code points. The set is finite. */
  predicate IsSpace(c: char) {
    c == ' ' || c == '\t' || c == '\n' || c == '\r' ||
    c as int == 0x0B || c as int == 0x0C || c as int == 0xA0 ||
    c as int == 0x1680 || (0x2000 <= c as int <= 0x200A) ||
    c as int == 0x2028 || c as int == 0x2029 || c as int == 0x202F ||
    c as int == 0x205F || c as int == 0x3000 || c as int == 0xFEFF
  }

  predicate AllSpace(s: string) {
    forall i :: 0 <= i < |s| ==> IsSpace(s[i])
  }

  predicate IsDigit(c: char) {
    '0' <= c <= '9'
  }

  predicate IsAsciiLetter(c: char) {
    ('A' <= c <= 'Z') || ('a' <= c <= 'z')
  }

  /** Number of leading white-space characters. */
  function LeadingSpace(s: string): (i: nat)
    ensures i <= |s|
    ensures AllSpace(s[..i])
    ensures i < |s| ==> !IsSpace(s[i])
  {
    if |s| == 0 || !IsSpace(s[0]) then 0
    else
      var k := LeadingSpace(s[1..]);
      assert s[1..][..k] == s[1..k + 1];
      k + 1
  }

  /** Length of `s` once trailing white space is cut off. */
  function TrailingCut(s: string): (j: nat)
    ensures j <= |s|
    ensures AllSpace(s[j..])
    ensures j > 0 ==> !IsSpace(s[j - 1])
  {
    if |s| == 0 || !IsSpace(s[|s| - 1]) then |s|
    else
      var k := TrailingCut(s[..|s| - 1]);
      assert s[k..] == s[..|s| - 1][k..] + [s[|s| - 1]];
      k
  }

  /** `String.prototype.trim`: the infix left after cutting white space at
      both ends. */
  function Trim(s: string): (r: string)
    ensures |r| <= |s|
    ensures r != [] ==> !IsSpace(r[0]) && !IsSpace(r[|r| - 1])
  {
    var i := LeadingSpace(s);
    var j := TrailingCut(s);
    if i <= j then s[i..j] else []
  }

  /** A string trims to the empty string exactly when it is all white space:
      the `!x.trim()` blank checks of the screens. */
  lemma TrimEmptyIffAllSpace(s: string)
    ensures Trim(s) == [] <==> AllSpace(s)
  {
    var i := LeadingSpace(s);
    var j := TrailingCut(s);
    if !AllSpace(s) {
      var k :| 0 <= k < |s| && !IsSpace(s[k]);
      assert forall m :: 0 <= m < i ==> s[..i][m] == s[m];
      assert forall m :: j <= m < |s| ==> s[j..][m - j] == s[m];
      assert i <= k < j;
    }
  }

  /** Every character of the trimmed string is a character of the input. */
  lemma TrimIsInfix(s: string)
    ensures exists i, j :: 0 <= i <= j <= |s| && Trim(s) == s[i..j] && AllSpace(s[..i]) && AllSpace(s[j..])
  {
    var i := LeadingSpace(s);
    var j := TrailingCut(s);
    if i <= j {
      assert Trim(s) == s[i..j];
    } else {
      assert AllSpace(s[..j]) by {
        forall k | 0 <= k < j ensures IsSpace(s[..j][k]) { assert s[..j][k] == s[..i][k]; }
      }
      assert Trim(s) == s[j..j];
    }
  }

  /** `toLowerCase` on the characters that the model distinguishes: ASCII
      and the Latin-1 capitals U+00C0..U+00DE (except U+00D7). */
  function LowerChar(c: char): (d: char)
    ensures IsSpace(d) == IsSpace(c)
    ensures (d == '@') == (c == '@') && (d == '.') == (c == '.')
  {
    if 'A' <= c <= 'Z' then (c as int + 32) as char
    else if 0xC0 <= c as int <= 0xDE && c as int != 0xD7 then (c as int + 32) as char
    else c
  }

  function ToLower(s: string): (r: string)
    ensures |r| == |s|
    ensures forall i :: 0 <= i < |s| ==> r[i] == LowerChar(s[i])
  {
    seq(|s|, i requires 0 <= i < |s| => LowerChar(s[i]))
  }

  function DigitChar(d: nat): (c: char)
    requires d < 10
    ensures IsDigit(c)
  {
    ('0' as int + d) as char
  }

  function DigitValue(c: char): (d: nat)
    requires IsDigit(c)
    ensures d < 10 && DigitChar(d) == c
  {
    c as int - '0' as int
  }

  /** Decimal text of a natural number, without leading zeros. */
  function NatToString(n: nat): (s: string)
    ensures |s| >= 1
    ensures forall i :: 0 <= i < |s| ==> IsDigit(s[i])
    ensures |s| > 1 ==> s[0] != '0'
  {
    if n < 10 then [DigitChar(n)] else NatToString(n / 10) + [DigitChar(n % 10)]
  }

  /** `Number.prototype.toString` on an integer. */
  function IntToString(n: int): (s: string)
    ensures n >= 0 ==> s == NatToString(n)
    ensures n < 0 ==> s == "-" + NatToString(-n)
  {
    if n >= 0 then NatToString(n) else "-" + NatToString(-n)
  }

  /** Value of a string of decimal digits, read left to right. */
  function DigitsValue(s: string): nat
    requires forall i :: 0 <= i < |s| ==> IsDigit(s[i])
  {
    if |s| == 0 then 0 else DigitsValue(s[..|s| - 1]) * 10 + DigitValue(s[|s| - 1])
  }

  /** Strict decimal reading: a non-empty run of digits and nothing else. */
  function ParseNat(s: string): (r: Option<nat>)
    ensures r.Some? <==> (|s| > 0 && forall i :: 0 <= i < |s| ==> IsDigit(s[i]))
  {
    if |s| > 0 && forall i :: 0 <= i < |s| ==> IsDigit(s[i]) then Some(DigitsValue(s)) else None
  }

  lemma {:induction false} DigitsValueOfNat(n: nat)
    ensures DigitsValue(NatToString(n)) == n
  {
    var s := NatToString(n);
    if n >= 10 {
      DigitsValueOfNat(n / 10);
      assert s[..|s| - 1] == NatToString(n / 10);
    }
  }

  /** Decimal text reads back as the number it was printed from. */
  lemma NatToStringRoundTrip(n: nat)
    ensures ParseNat(NatToString(n)) == Some(n)
  {
    DigitsValueOfNat(n);
  }

  /** Leading zeros do not change the value of a digit string. */
  lemma {:induction false} DigitsValueLeadingZeros(k: nat, s: string)
    requires forall i :: 0 <= i < |s| ==> IsDigit(s[i])
    ensures forall i :: 0 <= i < |Zeros(k) + s| ==> IsDigit((Zeros(k) + s)[i])
    ensures DigitsValue(Zeros(k) + s) == DigitsValue(s)
  {
    var z := Zeros(k) + s;
    assert forall i :: 0 <= i < |z| ==> IsDigit(z[i]) by {
      forall i | 0 <= i < |z| ensures IsDigit(z[i]) {
        if i < k { assert z[i] == Zeros(k)[i]; } else { assert z[i] == s[i - k]; }
      }
    }
    if |s| == 0 {
      assert z == Zeros(k);
      ZerosValue(k);
    } else {
      assert z[..|z| - 1] == Zeros(k) + s[..|s| - 1];
      DigitsValueLeadingZeros(k, s[..|s| - 1]);
    }
  }

  function Zeros(k: nat): (z: string)
    ensures |z| == k && forall i :: 0 <= i < k ==> z[i] == '0'
  {
    if k == 0 then [] else Zeros(k - 1) + ['0']
  }

  lemma {:induction false} ZerosValue(k: nat)
    ensures forall i :: 0 <= i < k ==> IsDigit(Zeros(k)[i])
    ensures DigitsValue(Zeros(k)) == 0
  {
    if k > 0 {
      assert Zeros(k)[..k - 1] == Zeros(k - 1);
      ZerosValue(k - 1);
    }
  }

  /** `String.prototype.padStart(n, "0")`. */
  function PadZeros(s: string, n: nat): (r: string)
    ensures |s| >= n ==> r == s
    ensures |s| < n ==> r == Zeros(n - |s|) + s
    ensures |r| == if |s| >= n then |s| else n
  {
    if |s| >= n then s else Zeros(n - |s|) + s
  }

  /** Decimal text padded to at least `n` digits still reads back as `v`. */
  lemma PadZerosRoundTrip(v: nat, n: nat)
    ensures ParseNat(PadZeros(NatToString(v), n)) == Some(v)
  {
    var s := NatToString(v);
    DigitsValueOfNat(v);
    if |s| < n {
      DigitsValueLeadingZeros(n - |s|, s);
    }
  }

  // ---------------------------------------------------------------------
  // parseInt

  predicate IsHexDigit(c: char) {
    IsDigit(c) || ('a' <= c <= 'f') || ('A' <= c <= 'F')
  }

  function HexValue(c: char): (d: nat)
    requires IsHexDigit(c)
    ensures d < 16
  {
    if IsDigit(c) then DigitValue(c)
    else if 'a' <= c <= 'f' then c as int - 'a' as int + 10
    else c as int - 'A' as int + 10
  }

  predicate IsRadixDigit(c: char, hex: bool) {
    if hex then IsHexDigit(c) else IsDigit(c)
  }

  function RadixValue(c: char, hex: bool): nat
    requires IsRadixDigit(c, hex)
  {
    if hex then HexValue(c) else DigitValue(c)
  }

  /** First index at or after `i` that is not white space. */
  function SkipSpace(s: string, i: nat): (j: nat)
    requires i <= |s|
    ensures i <= j <= |s|
    ensures j < |s| ==> !IsSpace(s[j])
    decreases |s| - i
  {
    if i == |s| || !IsSpace(s[i]) then i else SkipSpace(s, i + 1)
  }

  /** End of the run of digits of the radix that starts at `i`. */
  function DigitEnd(s: string, i: nat, hex: bool): (e: nat)
    requires i <= |s|
    ensures i <= e <= |s|
    ensures forall k :: i <= k < e ==> IsRadixDigit(s[k], hex)
    ensures e < |s| ==> !IsRadixDigit(s[e], hex)
    decreases |s| - i
  {
    if i == |s| || !IsRadixDigit(s[i], hex) then i else DigitEnd(s, i + 1, hex)
  }

  /** Value of `s[start..end]` read as digits of the radix. */
  function RunValue(s: string, start: nat, end: nat, hex: bool): nat
    requires start <= end <= |s|
    requires forall k :: start <= k < end ==> IsRadixDigit(s[k], hex)
    decreases end
  {
    if end == start then 0
    else RunValue(s, start, end - 1, hex) * (if hex then 16 else 10) + RadixValue(s[end - 1], hex)
  }

  /** JavaScript `parseInt(s)` with no radix, on a string: skip leading
      white space, read an optional sign, then the longest run of digits
      (hexadecimal after a `0x`/`0X` prefix); None stands for NaN. A number
      needs a decimal digit somewhere (the hexadecimal prefix has one). */
  function ParseInt(s: string): (r: Option<int>)
    ensures r.Some? ==> exists k :: 0 <= k < |s| && IsDigit(s[k])
  {
    var i := SkipSpace(s, 0);
    var neg := i < |s| && s[i] == '-';
    var j := if i < |s| && (s[i] == '-' || s[i] == '+') then i + 1 else i;
    var hex := j + 1 < |s| && s[j] == '0' && (s[j + 1] == 'x' || s[j + 1] == 'X');
    var start := if hex then j + 2 else j;
    var end := DigitEnd(s, start, hex);
    if end == start then None
    else
      assert hex ==> IsDigit(s[j]);
      assert !hex ==> IsDigit(s[start]);
      var v: int := RunValue(s, start, end, hex);
      Some(if neg then -v else v)
  }

  /** `parseInt` reads an optional sign, a decimal number written with any
      number of leading zeros, and stops at the first character that cannot
      continue it; only a lone `0` followed by `x` or `X` would be read as a
      hexadecimal prefix instead. */
  lemma ParseIntReads(s: string, sign: string, z: nat, n: nat, rest: string)
    requires sign == "" || sign == "-" || sign == "+"
    requires rest == [] || !IsDigit(rest[0])
    requires z == 0 && n == 0 && rest != [] ==> rest[0] != 'x' && rest[0] != 'X'
    requires s == sign + (Zeros(z) + NatToString(n)) + rest
    ensures ParseInt(s) == Some(if sign == "-" then -(n as int) else n)
  {
    var d := Zeros(z) + NatToString(n);
    DigitsValueLeadingZeros(z, NatToString(n));
    DigitsValueOfNat(n);
    if d == "0" {
      assert z == 0 && NatToString(n) == "0";
      assert DigitsValue("0") == 0;
    }
    ParseIntReadsDigits(s, sign, d, rest);
  }

  /** The same, for any non-empty run of decimal digits. */
  lemma ParseIntReadsDigits(s: string, sign: string, d: string, rest: string)
    requires sign == "" || sign == "-" || sign == "+"
    requires |d| >= 1 && forall k :: 0 <= k < |d| ==> IsDigit(d[k])
    requires rest == [] || !IsDigit(rest[0])
    requires d == "0" && rest != [] ==> rest[0] != 'x' && rest[0] != 'X'
    requires s == sign + d + rest
    ensures ParseInt(s) == Some(if sign == "-" then -(DigitsValue(d) as int) else DigitsValue(d))
  {
    DigitRunAt(s, sign, d, rest);
    ParseIntDigitsAt(s, |sign|, |sign| + |d|);
  }

  /** In `sign + d + rest` the digits of `d` form a run that stops at `rest`
      and is no hexadecimal prefix. */
  lemma DigitRunAt(s: string, sign: string, d: string, rest: string)
    requires sign == "" || sign == "-" || sign == "+"
    requires |d| >= 1 && forall k :: 0 <= k < |d| ==> IsDigit(d[k])
    requires rest == [] || !IsDigit(rest[0])
    requires d == "0" && rest != [] ==> rest[0] != 'x' && rest[0] != 'X'
    requires s == sign + d + rest
    ensures |sign| + |d| <= |s| && s[|sign|..|sign| + |d|] == d
    ensures |sign| == 0 || (|sign| == 1 && (s[0] == '-' || s[0] == '+'))
    ensures forall k :: |sign| <= k < |sign| + |d| ==> IsDigit(s[k])
    ensures |sign| + |d| == |s| || !IsDigit(s[|sign| + |d|])
    ensures !(s[|sign|] == '0' && |sign| + 1 < |s| && (s[|sign| + 1] == 'x' || s[|sign| + 1] == 'X'))
  {
    var j := |sign|;
    Middle(s, sign, d, rest);
    if |d| >= 2 { assert IsDigit(s[j + 1]); }
  }

  /** Where the parts of `a + m + b` sit. */
  lemma Middle<T>(s: seq<T>, a: seq<T>, m: seq<T>, b: seq<T>)
    requires s == a + m + b
    ensures |s| == |a| + |m| + |b|
    ensures s[|a|..|a| + |m|] == m
    ensures forall k :: |a| <= k < |a| + |m| ==> s[k] == m[k - |a|]
    ensures |a| > 0 ==> s[0] == a[0]
    ensures |b| > 0 ==> s[|a| + |m|] == b[0]
    ensures |m| == 1 && |b| > 0 ==> s[|a| + 1] == b[0]
  {
  }

  /** `parseInt` on text whose sign (if any) is followed by a run of decimal
      digits that is not a hexadecimal prefix. */
  lemma ParseIntDigitsAt(s: string, j: nat, e: nat)
    requires j < e <= |s|
    requires j == 0 || (j == 1 && (s[0] == '-' || s[0] == '+'))
    requires forall k :: j <= k < e ==> IsDigit(s[k])
    requires e == |s| || !IsDigit(s[e])
    requires !(s[j] == '0' && j + 1 < |s| && (s[j + 1] == 'x' || s[j + 1] == 'X'))
    ensures ParseInt(s) == Some(if j == 1 && s[0] == '-' then -(DigitsValue(s[j..e]) as int) else DigitsValue(s[j..e]))
  {
    assert !IsSpace(s[0]) by {
      if j == 0 { assert IsDigit(s[0]); }
    }
    assert SkipSpace(s, 0) == 0;
    DigitEndAt(s, j, e);
    RunValueIsDigitsValue(s, j, e);
  }

  /** A run of decimal digits, read by `parseInt`, gives its value. */
  lemma ParseIntOfNat(n: nat)
    ensures ParseInt(NatToString(n)) == Some(n)
  {
    ParseIntReads(NatToString(n), "", 0, n, "");
  }

  /** `parseInt` reads back the text of every integer, negative ones
      included. */
  lemma ParseIntOfInt(n: int)
    ensures ParseInt(IntToString(n)) == Some(n)
  {
    if n >= 0 {
      ParseIntOfNat(n);
    } else {
      ParseIntReads(IntToString(n), "-", 0, -n, "");
    }
  }

  lemma {:induction false} DigitEndAt(s: string, i: nat, e: nat)
    requires i <= e <= |s|
    requires forall k :: i <= k < e ==> IsDigit(s[k])
    requires e == |s| || !IsDigit(s[e])
    ensures DigitEnd(s, i, false) == e
    decreases e - i
  {
    if i < e { DigitEndAt(s, i + 1, e); }
  }

  lemma {:induction false} RunValueIsDigitsValue(s: string, start: nat, k: nat)
    requires start <= k <= |s|
    requires forall i :: start <= i < k ==> IsDigit(s[i])
    ensures RunValue(s, start, k, false) == DigitsValue(s[start..k])
    decreases k
  {
    if k > start {
      RunValueIsDigitsValue(s, start, k - 1);
      assert s[start..k][..k - 1 - start] == s[start..k - 1];
    }
  }

  // ---------------------------------------------------------------------
  // Clock text ("m:ss")

  /** JavaScript's `%` on integers: the remainder takes the sign of the
      dividend (truncating division), unlike Dafny's Euclidean `%`. */
  function JsRem(a: int, b: int): (r: int)
    requires b > 0
    ensures a >= 0 ==> 0 <= r < b
    ensures a < 0 ==> -b < r <= 0
    ensures a >= 0 ==> r == a % b
  {
    if a >= 0 then a % b else -((-a) % b)
  }

  /** Index of the first occurrence of `c` in `t`, or `|t|` when absent. */
  function IndexOf(t: string, c: char): (i: nat)
    ensures i <= |t|
    ensures forall k :: 0 <= k < i ==> t[k] != c
    ensures i < |t| ==> t[i] == c
  {
    if |t| == 0 then 0 else if t[0] == c then 0 else 1 + IndexOf(t[1..], c)
  }

  /** Reads clock text back into seconds: a minutes field of at least
      `width` digits, a colon, and exactly two digits below 60. */
  function ReadClock(t: string, width: nat): (r: Option<nat>)
    ensures r.Some? ==> IndexOf(t, ':') < |t|
  {
    var i := IndexOf(t, ':');
    if i == |t| then None
    else
      var m := ParseNat(t[..i]);
      var s := ParseNat(t[i + 1..]);
      if m.None? || s.None? || i < width || |t| - i - 1 != 2 || s.value >= 60 then None
      else Some(m.value * 60 + s.value)
  }

  lemma SmallNatLength(n: nat)
    requires n < 100
    ensures |NatToString(n)| <= 2
  {
    if n >= 10 { assert NatToString(n / 10) == [DigitChar(n / 10)]; }
  }

  lemma IndexOfAfterDigits(a: string, b: string)
    requires forall k :: 0 <= k < |a| ==> IsDigit(a[k])
    ensures IndexOf(a + ":" + b, ':') == |a|
  {
    var t := a + ":" + b;
    assert forall k :: 0 <= k < |a| ==> t[k] == a[k];
    assert forall k :: 0 <= k < |a| ==> t[k] != ':';
    assert t[|a|] == ':';
  }

  lemma ReadClockOf(a: string, b: string, width: nat, m: nat, s: nat)
    requires ParseNat(a) == Some(m) && ParseNat(b) == Some(s)
    requires |a| >= width && |b| == 2 && s < 60
    ensures ReadClock(a + ":" + b, width) == Some(m * 60 + s)
  {
    var t := a + ":" + b;
    IndexOfAfterDigits(a, b);
    assert t[..|a|] == a;
    assert t[|a| + 1..] == b;
  }

  /** Minutes printed with at least `width` digits and seconds with exactly
      two read back as the number of seconds they were printed from. */
  lemma ClockRoundTrip(m: nat, s: nat, width: nat)
    requires s < 60 && width >= 1
    ensures |PadZeros(NatToString(s), 2)| == 2
    ensures ReadClock(PadZeros(NatToString(m), width) + ":" + PadZeros(NatToString(s), 2), width)
            == Some(m * 60 + s)
  {
    SmallNatLength(s);
    PadZerosRoundTrip(m, width);
    PadZerosRoundTrip(s, 2);
    ReadClockOf(PadZeros(NatToString(m), width), PadZeros(NatToString(s), 2), width, m, s);
  }
}
