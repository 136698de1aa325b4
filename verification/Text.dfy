/** Decimal text as the C library prints and reads it: "%d", "%0<w>d" and strtol base 10. */
module Text {

  const LONG_MAX: int := 0x7FFF_FFFF
  const LONG_MIN: int := -0x8000_0000

  predicate IsDigit(c: char) {
    '0' <= c <= '9'
  }

  predicate IsSpace(c: char) {
    c == ' ' || '\t' <= c <= '\r'
  }

  function DigitValue(c: char): (d: nat)
    requires IsDigit(c)
    ensures d < 10
  {
    c as int - '0' as int
  }

  function DigitChar(d: nat): (c: char)
    requires d < 10
    ensures IsDigit(c) && DigitValue(c) == d
  {
    '0' + d as char
  }

  ghost predicate AllDigits(s: string) {
    forall i :: 0 <= i < |s| ==> IsDigit(s[i])
  }

  // ----- Printing -----

  function Decimal(n: nat): (s: string)
    ensures s != [] && AllDigits(s)
  {
    if n < 10 then [DigitChar(n)] else Decimal(n / 10) + [DigitChar(n % 10)]
  }

  /** "%0<width>d" of a non-negative number. */
  function Padded(n: nat, width: nat): (s: string)
    ensures s != [] && AllDigits(s) && |s| >= width
  {
    var s := Decimal(n);
    if |s| < width then seq(width - |s|, i => '0') + s else s
  }

  function Tens(k: nat): nat {
    if k == 0 then 1 else 10 * Tens(k - 1)
  }

  lemma {:induction false} DecimalLength(n: nat, k: nat)
    requires 0 < k && n < Tens(k)
    ensures |Decimal(n)| <= k
  {
    if n >= 10 {
      DecimalLength(n / 10, k - 1);
    }
  }

  // ----- Reading -----

  /** The value of a string of digits. */
  function Value(s: string): nat
    requires AllDigits(s)
  {
    if s == [] then 0 else 10 * Value(s[..|s| - 1]) + DigitValue(s[|s| - 1])
  }

  function SkipSpaces(s: string, i: nat): (j: nat)
    requires i <= |s|
    ensures i <= j <= |s|
    ensures j < |s| ==> !IsSpace(s[j])
    ensures i < |s| && !IsSpace(s[i]) ==> j == i
    decreases |s| - i
  {
    if i < |s| && IsSpace(s[i]) then SkipSpaces(s, i + 1) else i
  }

  function SkipDigits(s: string, i: nat): (j: nat)
    requires i <= |s|
    ensures i <= j <= |s| && AllDigits(s[i..j])
    ensures j < |s| ==> !IsDigit(s[j])
    decreases |s| - i
  {
    if i < |s| && IsDigit(s[i]) then
      var j := SkipDigits(s, i + 1);
      assert s[i..j] == [s[i]] + s[i + 1..j];
      j
    else i
  }

  function Saturate(v: int): (r: int)
    ensures LONG_MIN <= r <= LONG_MAX
    ensures LONG_MIN <= v <= LONG_MAX ==> r == v
  {
    if v > LONG_MAX then LONG_MAX else if v < LONG_MIN then LONG_MIN else v
  }

  /** The number read and the position of the first unread character; the position is `i`
      itself when there is no number. */
  datatype Scan = Scan(value: int, end: nat)

  function StrToL(s: string, i: nat): (r: Scan)
    requires i <= |s|
    ensures i <= r.end <= |s|
  {
    var start := SkipSpaces(s, i);
    var signed := start < |s| && (s[start] == '-' || s[start] == '+');
    var first := if signed then start + 1 else start;
    var end := SkipDigits(s, first);
    if end == first then Scan(0, i)
    else
      var magnitude: int := Value(s[first..end]);
      Scan(Saturate(if signed && s[start] == '-' then -magnitude else magnitude), end)
  }

  // ----- Reading undoes printing -----

  lemma {:induction false} ValueOfDecimal(n: nat)
    ensures Value(Decimal(n)) == n
  {
    if n >= 10 {
      ValueOfDecimal(n / 10);
      var s := Decimal(n);
      assert s[..|s| - 1] == Decimal(n / 10);
    }
  }

  lemma {:induction false} ValueOfZeros(k: nat, s: string)
    requires AllDigits(s)
    ensures AllDigits(seq(k, i => '0') + s)
    ensures Value(seq(k, i => '0') + s) == Value(s)
    decreases |s|, k
  {
    var t := seq(k, i => '0') + s;
    if s == [] {
      if k > 0 {
        assert t[..|t| - 1] == seq(k - 1, i => '0') + s;
        ValueOfZeros(k - 1, s);
      }
    } else {
      assert t[..|t| - 1] == seq(k, i => '0') + s[..|s| - 1];
      ValueOfZeros(k, s[..|s| - 1]);
    }
  }

  lemma {:induction false} ValueOfPadded(n: nat, width: nat)
    ensures Value(Padded(n, width)) == n
  {
    ValueOfDecimal(n);
    var s := Decimal(n);
    if |s| < width {
      ValueOfZeros(width - |s|, s);
    }
  }

  /** The scan of digits stops exactly where the digits do. */
  lemma {:induction false} SkipDigitsStops(s: string, i: nat, j: nat)
    requires i <= j <= |s| && AllDigits(s[i..j])
    requires j < |s| ==> !IsDigit(s[j])
    ensures SkipDigits(s, i) == j
    decreases j - i
  {
    if i < j {
      assert s[i..j][0] == s[i];
      assert s[i + 1..j] == s[i..j][1..];
      SkipDigitsStops(s, i + 1, j);
    }
  }

  lemma FirstDigit(s: string, i: nat, digits: string)
    requires i + |digits| <= |s| && s[i..i + |digits|] == digits && digits != [] && AllDigits(digits)
    ensures IsDigit(s[i]) && !IsSpace(s[i]) && s[i] != '-' && s[i] != '+'
    ensures SkipSpaces(s, i) == i
  {
    assert s[i] == digits[0];
  }

  /** strtol reads a run of digits embedded in a string. */
  lemma StrToLDigits(s: string, i: nat, digits: string)
    requires i + |digits| <= |s| && s[i..i + |digits|] == digits
    requires digits != [] && AllDigits(digits) && Value(digits) <= LONG_MAX
    requires i + |digits| < |s| ==> !IsDigit(s[i + |digits|])
    ensures StrToL(s, i) == Scan(Value(digits), i + |digits|)
  {
    hide Value, AllDigits, SkipSpaces, SkipDigits, IsDigit, IsSpace;
    FirstDigit(s, i, digits);
    SkipDigitsStops(s, i, i + |digits|);
  }

  /** strtol inverts "%0<width>d" for every number that fits a long. */
  lemma StrToLPadded(n: nat, width: nat)
    requires n <= LONG_MAX
    ensures StrToL(Padded(n, width), 0) == Scan(n, |Padded(n, width)|)
  {
    ValueOfPadded(n, width);
    StrToLDigits(Padded(n, width), 0, Padded(n, width));
  }

  // ----- What is printed, digit by digit -----

  lemma MultipleIsFar(t: nat, e: int)
    ensures e > 0 ==> t * e >= t
    ensures e < 0 ==> t * e + t <= 0
  {
  }

  lemma Quotient(x: nat, t: nat, q: nat, r: nat)
    requires r < t && x == t * q + r
    ensures x / t == q
  {
    var d := x / t;
    assert t * (d - q) == r - x % t;
    MultipleIsFar(t, d - q);
  }

  lemma DivideTwice(n: nat, t: nat)
    requires t > 0
    ensures n / 10 / t == n / (10 * t)
  {
    var q, r := n / (10 * t), n % (10 * t);
    assert n / 10 == t * q + r / 10 by {
      assert n == 10 * (t * q) + r;
    }
    Quotient(n / 10, t, q, r / 10);
  }

  lemma {:induction false} TensPositive(k: nat)
    ensures Tens(k) > 0
  {
    if k > 0 {
      TensPositive(k - 1);
    }
  }

  /** The digit of the k-th power of ten. */
  lemma {:induction false} DecimalDigits(n: nat, k: nat)
    requires k < |Decimal(n)|
    ensures Tens(k) > 0 && Decimal(n)[|Decimal(n)| - 1 - k] == "0123456789"[n / Tens(k) % 10]
    decreases k
  {
    if k == 0 {
      assert n / Tens(0) == n;
    } else {
      DecimalDigits(n / 10, k - 1);
      DivideTwice(n, Tens(k - 1));
    }
  }

  /** As many digits as the number has, without leading zeros. */
  lemma {:induction false} DecimalIsShortest(n: nat)
    ensures n < Tens(|Decimal(n)|) && (|Decimal(n)| == 1 || Tens(|Decimal(n)| - 1) <= n)
  {
    if n >= 10 {
      DecimalIsShortest(n / 10);
    }
  }

  predicate AllSpaces(s: string) {
    forall k :: 0 <= k < |s| ==> s[k] in " \t\n\U{000B}\U{000C}\r"
  }

  lemma {:induction false} SkipSpacesStops(s: string, i: nat, j: nat)
    requires i <= j <= |s| && AllSpaces(s[i..j])
    requires j < |s| ==> s[j] !in " \t\n\U{000B}\U{000C}\r"
    ensures SkipSpaces(s, i) == j
    decreases j - i
  {
    if i < j {
      assert s[i..j][0] == s[i];
      assert s[i + 1..j] == s[i..j][1..];
      SkipSpacesStops(s, i + 1, j);
    }
  }

  /** Where white space and a sign end. */
  lemma SignBefore(s: string, i: nat, spaces: string, sign: string, rest: string)
    requires i <= |s| && s[i..] == spaces + (sign + rest)
    requires AllSpaces(spaces) && (sign == "" || sign == "+" || sign == "-")
    requires rest == "" || rest[0] !in " \t\n\U{000B}\U{000C}\r+-"
    ensures var start := i + |spaces|;
            && SkipSpaces(s, i) == start && start + |sign| <= |s| && s[start + |sign|..] == rest
            && (sign == "" ==> start == |s| || (s[start] != '-' && s[start] != '+'))
            && (sign != "" ==> s[start] == sign[0])
  {
    hide SkipSpaces;
    Peel(s, i, spaces, sign + rest);
    Peel(s, i + |spaces|, sign, rest);
    if sign != "" {
      PeelChar(s, i + |spaces|, sign[0], rest);
    } else if rest != "" {
      PeelChar(s, i + |spaces|, rest[0], rest[1..]);
    }
    SkipSpacesStops(s, i, i + |spaces|);
  }

  lemma DigitsThen(s: string, i: nat, digits: string, rest: string)
    requires i <= |s| && s[i..] == digits + rest && AllDigits(digits)
    requires rest == "" || rest[0] !in "0123456789"
    ensures i + |digits| == |s| - |rest| && s[i..|s| - |rest|] == digits && SkipDigits(s, i) == |s| - |rest|
  {
    hide SkipDigits, AllDigits;
    Peel(s, i, digits, rest);
    if rest != "" {
      PeelChar(s, i + |digits|, rest[0], rest[1..]);
    }
    SkipDigitsStops(s, i, i + |digits|);
  }

  lemma DigitsFirst(digits: string, rest: string)
    requires digits != "" && AllDigits(digits)
    ensures (digits + rest)[0] !in " \t\n\U{000B}\U{000C}\r+-"
  {
    assert IsDigit(digits[0]);
  }

  /** White space, a sign and a number: strtol reads it, brought into the range of a long. */
  lemma StrToLReads(s: string, i: nat, spaces: string, sign: string, n: nat, width: nat, rest: string)
    requires i <= |s| && s[i..] == spaces + (sign + (Padded(n, width) + rest))
    requires AllSpaces(spaces) && (sign == "" || sign == "+" || sign == "-")
    requires rest == "" || rest[0] !in "0123456789"
    ensures var v := if sign == "-" then 0 - n else n;
            StrToL(s, i) == Scan(if v > 2147483647 then 2147483647 else if v < -2147483648 then -2147483648 else v,
                                 |s| - |rest|)
  {
    var digits := Padded(n, width);
    ValueOfPadded(n, width);
    hide Padded, Value, SkipSpaces, SkipDigits, AllDigits, AllSpaces;
    DigitsFirst(digits, rest);
    SignBefore(s, i, spaces, sign, digits + rest);
    DigitsThen(s, i + |spaces| + |sign|, digits, rest);
  }

  /** Without a digit behind them nothing is read. */
  lemma StrToLNothing(s: string, i: nat, spaces: string, sign: string, rest: string)
    requires i <= |s| && s[i..] == spaces + (sign + rest)
    requires AllSpaces(spaces) && (sign == "" || sign == "+" || sign == "-")
    requires rest == "" || rest[0] !in "0123456789 \t\n\U{000B}\U{000C}\r+-"
    ensures StrToL(s, i) == Scan(0, i)
  {
    assert AllDigits("");
    hide SkipSpaces, SkipDigits, AllSpaces, AllDigits, Value, IsSpace, IsDigit, Saturate;
    SignBefore(s, i, spaces, sign, rest);
    DigitsThen(s, i + |spaces| + |sign|, "", rest);
  }

  // ----- What strtol reads depends on what it reads only -----

  /** The same characters stand from `i` on in `s` and from `j` on in `t`. */
  predicate SameText(s: string, i: nat, e: nat, t: string, j: nat) {
    i <= e <= |s| && j + (e - i) <= |t| && s[i..e] == t[j..j + (e - i)]
  }

  lemma SameTail(s: string, i: nat, e: nat, t: string, j: nat)
    requires SameText(s, i, e, t, j) && i < e
    ensures s[i] == t[j] && SameText(s, i + 1, e, t, j + 1)
  {
    assert s[i..e][0] == t[j..j + (e - i)][0];
    assert s[i + 1..e] == s[i..e][1..] && t[j + 1..j + (e - i)] == t[j..j + (e - i)][1..];
  }

  lemma {:induction false} SameSpaces(s: string, i: nat, e: nat, t: string, j: nat)
    requires SameText(s, i, e, t, j) && SkipSpaces(s, i) < e
    ensures SkipSpaces(t, j) == j + (SkipSpaces(s, i) - i)
    ensures SameText(s, SkipSpaces(s, i), e, t, SkipSpaces(t, j))
    decreases e - i
  {
    SameTail(s, i, e, t, j);
    if IsSpace(s[i]) {
      hide IsSpace, SameText;
      SameSpaces(s, i + 1, e, t, j + 1);
    }
  }

  lemma {:induction false} SameDigits(s: string, i: nat, e: nat, t: string, j: nat)
    requires SameText(s, i, e, t, j) && SkipDigits(s, i) == e
    requires j + (e - i) == |t| || !IsDigit(t[j + (e - i)])
    ensures SkipDigits(t, j) == j + (e - i)
    decreases e - i
  {
    if i < e {
      SameTail(s, i, e, t, j);
      hide IsDigit, SameText;
      SameDigits(s, i + 1, e, t, j + 1);
    }
  }

  /** White space ends at `start`, the digits go from `first` to `e`. */
  predicate NumberAt(s: string, i: nat, start: nat, first: nat, e: nat) {
    && i <= |s| && start == SkipSpaces(s, i) < |s|
    && first == (if s[start] == '-' || s[start] == '+' then start + 1 else start)
    && first < e == SkipDigits(s, first)
  }

  lemma NumberStarts(s: string, i: nat) returns (start: nat, first: nat)
    requires i <= |s| && StrToL(s, i).end > i
    ensures NumberAt(s, i, start, first, StrToL(s, i).end)
  {
    hide SkipSpaces, SkipDigits, AllDigits, Value, IsSpace, IsDigit;
    start := SkipSpaces(s, i);
    first := if s[start] == '-' || s[start] == '+' then start + 1 else start;
  }

  lemma NumberIs(s: string, i: nat, start: nat, first: nat, e: nat)
    requires NumberAt(s, i, start, first, e)
    ensures i <= start <= first < e <= |s| && start < |s| && AllDigits(s[first..e])
    ensures StrToL(s, i) == Scan(Saturate(if s[start] == '-' then 0 - Value(s[first..e]) else Value(s[first..e])), e)
  {
    hide SkipSpaces, SkipDigits, AllDigits, Value, IsSpace, IsDigit, Saturate;
  }

  /** The number's parts are found at the same places. */
  lemma SameParts(s: string, i: nat, start: nat, first: nat, e: nat, t: string, j: nat)
    requires NumberAt(s, i, start, first, e) && SameText(s, i, e, t, j)
    requires j + (e - i) == |t| || !IsDigit(t[j + (e - i)])
    ensures i <= start <= first < e <= |s| && start < |s| && j + (start - i) < |t|
    ensures NumberAt(t, j, j + (start - i), j + (first - i), j + (e - i))
    ensures s[start] == t[j + (start - i)] && SameText(s, first, e, t, j + (first - i))
  {
    hide SkipSpaces, SkipDigits, SameText, IsDigit, IsSpace, Value, AllDigits;
    SameSpaces(s, i, e, t, j);
    SameTail(s, start, e, t, j + (start - i));
    SameDigits(s, first, e, t, j + (first - i));
  }

  lemma SameNumber(s: string, i: nat, e: nat, t: string, j: nat)
    requires i < e <= |s| && StrToL(s, i).end == e && SameText(s, i, e, t, j)
    requires j + (e - i) == |t| || !IsDigit(t[j + (e - i)])
    ensures StrToL(t, j) == Scan(StrToL(s, i).value, j + (e - i))
  {
    hide *;
    var start, first := NumberStarts(s, i);
    SameParts(s, i, start, first, e, t, j);
    NumberIs(s, i, start, first, e);
    NumberIs(t, j, j + (start - i), j + (first - i), j + (e - i));
    SameSlice(s, first, e, t, j + (first - i));
  }

  lemma SameSlice(s: string, i: nat, e: nat, t: string, j: nat)
    requires SameText(s, i, e, t, j)
    ensures i <= e <= |s| && j + (e - i) <= |t| && s[i..e] == t[j..j + (e - i)]
  {
  }

  /** The whole text is one number, white space and sign in front of it included. */
  predicate Whole(t: string, v: int) {
    t != "" && StrToL(t, 0) == Scan(v, |t|)
  }

  /** A number read somewhere is a text that is one number. */
  lemma ReadIsWhole(s: string, i: nat)
    requires i <= |s| && StrToL(s, i).end > i
    ensures var r := StrToL(s, i); Whole(s[i..r.end], r.value)
  {
    hide StrToL;
    var e := StrToL(s, i).end;
    assert SameText(s, i, e, s[i..e], 0);
    SameNumber(s, i, e, s[i..e], 0);
  }

  /** And the other way round, when no digit follows. */
  lemma WholeIsRead(s: string, i: nat, t: string, v: int)
    requires i + |t| <= |s| && s[i..i + |t|] == t && Whole(t, v)
    requires i + |t| == |s| || !IsDigit(s[i + |t|])
    ensures StrToL(s, i) == Scan(v, i + |t|)
  {
    hide StrToL;
    assert SameText(t, 0, |t|, s, i);
    SameNumber(t, 0, |t|, s, i);
  }

  // ----- Text taken apart from the front -----

  lemma Peel(s: string, i: nat, a: string, b: string)
    requires i <= |s| && s[i..] == a + b
    ensures i + |a| <= |s| && s[i..i + |a|] == a && s[i + |a|..] == b
  {
    assert s[i..][..|a|] == a && s[i..][|a|..] == b;
  }

  lemma PeelChar(s: string, i: nat, c: char, b: string)
    requires i <= |s| && s[i..] == [c] + b
    ensures i < |s| && s[i] == c && s[i + 1..] == b
  {
    Peel(s, i, [c], b);
    assert s[i..i + 1] == [c];
  }
}
