/** Optional values: a field that may be absent, a lookup that may miss. */
module Wrappers {

  datatype Option<+T> = None | Some(value: T) {

    /** The value, or `default` when absent (`x ?? default` / `x || default`). */
    function GetOr(default: T): T {
      match this
      case Some(v) => v
      case None => default
    }
  }
}

/** Text order as `String.prototype.localeCompare` applies it to the keys of the reports,
    and the prefix that `substring(0, n)` takes. */
module Strings {

  /** Lexicographic (code-unit) order: `a` sorts strictly before `b`. */
  predicate Less(a: string, b: string) {
    if a == [] then b != []
    else b != [] && (a[0] < b[0] || (a[0] == b[0] && Less(a[1..], b[1..])))
  }

  /** `a` sorts before `b` or is equal to it. */
  predicate LessOrEqual(a: string, b: string) {
    a == b || Less(a, b)
  }

  /** `s.substring(0, n)`: the first `n` characters, or all of `s` when it is shorter. */
  function Prefix(s: string, n: nat): (r: string)
    ensures |r| <= n && r <= s
    ensures |s| >= n ==> |r| == n
    ensures |s| < n ==> r == s
  {
    if |s| <= n then s else s[..n]
  }

  /** The first `|a|` characters of `a + b` are `a`. */
  lemma PrefixOfConcat(a: string, b: string)
    ensures Prefix(a + b, |a|) == a
  {
    var r := Prefix(a + b, |a|);
    assert r == (a + b)[..|a|];
    assert (a + b)[..|a|] == a;
  }

  lemma {:induction false} LessIrreflexive(a: string)
    ensures !Less(a, a)
  {
    if a != [] {
      LessIrreflexive(a[1..]);
    }
  }

  lemma {:induction false} LessAsymmetric(a: string, b: string)
    requires Less(a, b)
    ensures !Less(b, a)
  {
    if a != [] && b != [] && a[0] == b[0] {
      LessAsymmetric(a[1..], b[1..]);
    }
  }

  lemma {:induction false} LessTransitive(a: string, b: string, c: string)
    requires Less(a, b) && Less(b, c)
    ensures Less(a, c)
  {
    if a != [] && a[0] == b[0] && b[0] == c[0] {
      LessTransitive(a[1..], b[1..], c[1..]);
    }
  }

  lemma {:induction false} LessTotal(a: string, b: string)
    requires a != b
    ensures Less(a, b) || Less(b, a)
  {
    if a != [] && b != [] && a[0] == b[0] {
      assert a == [a[0]] + a[1..] && b == [b[0]] + b[1..];
      LessTotal(a[1..], b[1..]);
    }
  }

  /** Comparing two strings whose first parts have the same length decides on the first
      parts, and on the rest only when the first parts are equal. */
  lemma {:induction false} LessConcat(p: string, q: string, s: string, t: string)
    requires |p| == |q|
    ensures Less(p + s, q + t) <==> Less(p, q) || (p == q && Less(s, t))
  {
    if p != [] {
      assert (p + s)[1..] == p[1..] + s && (q + t)[1..] == q[1..] + t;
      LessConcat(p[1..], q[1..], s, t);
      assert p == [p[0]] + p[1..] && q == [q[0]] + q[1..];
    } else {
      assert p + s == s && q + t == t;
    }
  }
}

/** Decimal text for numbers: `Number.prototype.toString()` on integers, and the part of
    `parseFloat` that reads an integer back. Money is held in integer cents. */
module Numerals {
  import opened Wrappers
  import Strings

  predicate IsDigit(c: char) {
    '0' <= c <= '9'
  }

  predicate AllDigits(s: string) {
    forall i :: 0 <= i < |s| ==> IsDigit(s[i])
  }

  function DigitChar(d: nat): (c: char)
    requires d < 10
    ensures IsDigit(c)
  {
    '0' + d as char
  }

  function DigitValue(c: char): (d: nat)
    requires IsDigit(c)
    ensures d < 10
  {
    (c - '0') as nat
  }

  /** The decimal digits of `n`, most significant first, without leading zeros. */
  function NatToString(n: nat): (s: string)
    ensures |s| >= 1 && AllDigits(s)
    ensures n >= 10 <==> s[0] != '0' && |s| >= 2
  {
    if n < 10 then [DigitChar(n)] else NatToString(n / 10) + [DigitChar(n % 10)]
  }

  /** `n.toString()`: a minus sign before the digits of a negative number. */
  function IntToString(n: int): (s: string)
    ensures |s| >= 1
    ensures n < 0 <==> s[0] == '-'
    ensures n >= 0 ==> AllDigits(s)
  {
    if n < 0 then "-" + NatToString(-n) else NatToString(n)
  }

  /** The number a run of decimal digits denotes. */
  function DigitsValue(s: string): nat
    requires AllDigits(s)
  {
    if s == [] then 0 else DigitsValue(s[..|s| - 1]) * 10 + DigitValue(s[|s| - 1])
  }

  /** The length of the run of digits at the start of `s`. */
  function DigitRun(s: string): (k: nat)
    ensures k <= |s| && AllDigits(s[..k])
    ensures k < |s| ==> !IsDigit(s[k])
  {
    if s == [] || !IsDigit(s[0]) then 0
    else
      var k := 1 + DigitRun(s[1..]);
      assert s[..k] == [s[0]] + s[1..][..k - 1];
      k
  }

  /** `parseFloat(s)` on integer numerals: an optional minus sign, then the longest run of
      digits; `None` stands for `NaN`, the result when no digit follows. */
  function ParseInt(s: string): Option<int> {
    if |s| > 0 && s[0] == '-' then
      var k := DigitRun(s[1..]);
      if k == 0 then None else Some(-(DigitsValue(s[1..][..k]) as int))
    else
      var k := DigitRun(s);
      if k == 0 then None else Some(DigitsValue(s[..k]) as int)
  }

  lemma {:induction false} DigitsValueOfNatToString(n: nat)
    ensures DigitsValue(NatToString(n)) == n
  {
    var s := NatToString(n);
    if n >= 10 {
      DigitsValueOfNatToString(n / 10);
      assert s[..|s| - 1] == NatToString(n / 10);
    }
  }

  lemma DigitRunAll(s: string)
    requires AllDigits(s)
    ensures DigitRun(s) == |s|
  {
  }

  /** Reading back the text of an integer gives the integer: the edit form shows
      `valor_original.toString()` and submitting it parses the same number. */
  lemma {:induction false} ParseIntToString(n: int)
    ensures ParseInt(IntToString(n)) == Some(n)
  {
    var s := IntToString(n);
    if n < 0 {
      assert s[1..] == NatToString(-n);
      DigitRunAll(s[1..]);
      assert s[1..][..|s[1..]|] == s[1..];
      DigitsValueOfNatToString(-n);
    } else {
      DigitRunAll(s);
      assert s[..|s|] == s;
      DigitsValueOfNatToString(n);
    }
  }

  /** `s.padStart(2, '0')`. */
  function PadStart2(s: string): (r: string)
    ensures |r| == if |s| >= 2 then |s| else 2
    ensures r[|r| - |s|..] == s
    ensures forall i :: 0 <= i < |r| - |s| ==> r[i] == '0'
  {
    if |s| >= 2 then s else seq(2 - |s|, _ => '0') + s
  }

  /** The `w` lowest decimal digits of `n`, zero-padded to exactly `w` characters. */
  function FixedDigits(n: nat, w: nat): (s: string)
    ensures |s| == w && AllDigits(s)
  {
    if w == 0 then [] else FixedDigits(n / 10, w - 1) + [DigitChar(n % 10)]
  }

  function Pow10(w: nat): (p: nat)
    ensures p >= 1
  {
    if w == 0 then 1 else 10 * Pow10(w - 1)
  }

  /** Fixed-width digit strings sort as the numbers they denote. */
  lemma {:induction false} FixedDigitsOrder(a: nat, b: nat, w: nat)
    requires a < Pow10(w) && b < Pow10(w)
    ensures Strings.Less(FixedDigits(a, w), FixedDigits(b, w)) <==> a < b
  {
    if w == 0 {
      assert a == 0 && b == 0;
    } else {
      var pa, pb := FixedDigits(a / 10, w - 1), FixedDigits(b / 10, w - 1);
      Strings.LessConcat(pa, pb, [DigitChar(a % 10)], [DigitChar(b % 10)]);
      FixedDigitsOrder(a / 10, b / 10, w - 1);
      FixedDigitsInjective(a / 10, b / 10, w - 1);
    }
  }

  lemma {:induction false} FixedDigitsInjective(a: nat, b: nat, w: nat)
    requires a < Pow10(w) && b < Pow10(w)
    ensures FixedDigits(a, w) == FixedDigits(b, w) <==> a == b
  {
    if w > 0 {
      var sa, sb := FixedDigits(a, w), FixedDigits(b, w);
      if sa == sb {
        assert sa[..w - 1] == FixedDigits(a / 10, w - 1) && sb[..w - 1] == FixedDigits(b / 10, w - 1);
        assert sa[w - 1] == sb[w - 1];
        FixedDigitsInjective(a / 10, b / 10, w - 1);
      }
    }
  }

  /** A number with exactly `w` digits prints as its fixed-width digits. */
  lemma {:induction false} NatToStringFixed(n: nat, w: nat)
    requires w >= 1 && (w == 1 || Pow10(w - 1) <= n) && n < Pow10(w)
    ensures NatToString(n) == FixedDigits(n, w)
  {
    if w > 1 {
      NatToStringFixed(n / 10, w - 1);
    }
  }

  /** A number from 1 to 99 padded with `padStart(2, '0')` is its two-digit form. */
  lemma PadStart2Fixed(n: nat)
    requires 1 <= n <= 99
    ensures PadStart2(NatToString(n)) == FixedDigits(n, 2)
  {
    assert Pow10(1) == 10 && Pow10(2) == 100;
    if n < 10 {
      NatToStringFixed(n, 1);
      assert PadStart2(NatToString(n)) == "0" + NatToString(n);
    } else {
      NatToStringFixed(n, 2);
    }
  }

  /** A four-digit year prints as its four digits. */
  lemma FourDigits(n: int)
    requires 1000 <= n <= 9999
    ensures IntToString(n) == FixedDigits(n, 4)
  {
    assert Pow10(3) == 1000 && Pow10(4) == 10000;
    NatToStringFixed(n, 4);
  }
}

/** Calendar months as the dashboard walks them: `new Date(year, month - i, 1)` rolls
    back across year boundaries, and the label is `YYYY-MM`. */
module Calendar {
  import Numerals
  import Strings

  /** A calendar date (`Date` at day granularity): year, month 1..12, day of month. */
  datatype Date = Date(year: int, month: int, day: int)

  predicate ValidDate(d: Date) {
    1 <= d.month <= 12 && 1 <= d.day <= 31
  }

  /** Chronological order of two dates (`getTime()` order at day granularity). */
  predicate DateLeq(a: Date, b: Date) {
    a.year < b.year || (a.year == b.year && (a.month < b.month || (a.month == b.month && a.day <= b.day)))
  }

  lemma DateLeqTotal(a: Date, b: Date)
    ensures DateLeq(a, b) || DateLeq(b, a)
  {
  }

  lemma DateLeqTransitive(a: Date, b: Date, c: Date)
    requires DateLeq(a, b) && DateLeq(b, c)
    ensures DateLeq(a, c)
  {
  }

  /** A month of a year, month 1..12. */
  datatype YearMonth = YearMonth(year: int, month: int)

  predicate ValidMonth(ym: YearMonth) {
    1 <= ym.month <= 12
  }

  function MonthOf(d: Date): YearMonth {
    YearMonth(d.year, d.month)
  }

  /** Months counted from January of year 0. */
  function MonthIndex(ym: YearMonth): int {
    ym.year * 12 + (ym.month - 1)
  }

  function FromMonthIndex(k: int): (ym: YearMonth)
    ensures ValidMonth(ym) && MonthIndex(ym) == k
  {
    YearMonth(k / 12, k % 12 + 1)
  }

  /** `new Date(year, month0 - i, 1)`: the month `i` months before `ym`, rolling into
      earlier years. */
  function MonthsBefore(ym: YearMonth, i: int): (r: YearMonth)
    ensures ValidMonth(r) && MonthIndex(r) == MonthIndex(ym) - i
  {
    FromMonthIndex(MonthIndex(ym) - i)
  }

  lemma MonthIndexInjective(a: YearMonth, b: YearMonth)
    requires ValidMonth(a) && ValidMonth(b)
    ensures MonthIndex(a) == MonthIndex(b) <==> a == b
  {
  }

  /** Going back one month from January lands on December of the previous year. */
  lemma {:induction false} MonthsBeforeRollover(ym: YearMonth, i: int)
    requires ValidMonth(ym) && 0 <= i < 12
    ensures ym.month > i ==> MonthsBefore(ym, i) == YearMonth(ym.year, ym.month - i)
    ensures ym.month <= i ==> MonthsBefore(ym, i) == YearMonth(ym.year - 1, ym.month - i + 12)
  {
    var r := MonthsBefore(ym, i);
    if ym.month > i {
      MonthIndexInjective(r, YearMonth(ym.year, ym.month - i));
    } else {
      MonthIndexInjective(r, YearMonth(ym.year - 1, ym.month - i + 12));
    }
  }

  /** `${year}-${String(month).padStart(2, '0')}`. */
  function Label(ym: YearMonth): string
    requires ValidMonth(ym)
  {
    Numerals.IntToString(ym.year) + "-" + Numerals.PadStart2(Numerals.NatToString(ym.month))
  }

  predicate FourDigitYear(ym: YearMonth) {
    1000 <= ym.year <= 9999
  }

  /** The label of a month with a four-digit year is the seven characters `YYYY-MM`. */
  lemma {:induction false} LabelShape(ym: YearMonth)
    requires ValidMonth(ym) && FourDigitYear(ym)
    ensures Label(ym) == Numerals.FixedDigits(ym.year, 4) + "-" + Numerals.FixedDigits(ym.month, 2)
    ensures |Label(ym)| == 7 && Label(ym)[4] == '-'
  {
    Numerals.FourDigits(ym.year);
    Numerals.PadStart2Fixed(ym.month);
  }

  /** With a four-digit year the label is seven characters long. */
  lemma LabelLength(ym: YearMonth)
    requires ValidMonth(ym) && FourDigitYear(ym)
    ensures |Label(ym)| == 7
  {
    LabelShape(ym);
  }

  /** Labels of months with four-digit years sort (as text) exactly as the months do in
      time, so sorting by label and sorting chronologically agree. */
  lemma {:induction false} LabelOrder(a: YearMonth, b: YearMonth)
    requires ValidMonth(a) && FourDigitYear(a) && ValidMonth(b) && FourDigitYear(b)
    ensures Strings.Less(Label(a), Label(b)) <==> MonthIndex(a) < MonthIndex(b)
  {
    LabelShape(a);
    LabelShape(b);
    var ya, yb := Numerals.FixedDigits(a.year, 4), Numerals.FixedDigits(b.year, 4);
    var ma, mb := Numerals.FixedDigits(a.month, 2), Numerals.FixedDigits(b.month, 2);
    LabelTextOrder(ya, yb, ma, mb);
    assert Numerals.Pow10(2) == 100 && Numerals.Pow10(4) == 10000;
    Numerals.FixedDigitsOrder(a.year, b.year, 4);
    Numerals.FixedDigitsInjective(a.year, b.year, 4);
    Numerals.FixedDigitsOrder(a.month, b.month, 2);
    MonthIndexOrder(a, b);
  }

  /** Text of the shape `year-month` with fixed-width parts sorts by year, then by month. */
  lemma LabelTextOrder(ya: string, yb: string, ma: string, mb: string)
    requires |ya| == |yb|
    ensures Strings.Less(ya + "-" + ma, yb + "-" + mb) <==> Strings.Less(ya, yb) || (ya == yb && Strings.Less(ma, mb))
  {
    assert ya + "-" + ma == ya + ("-" + ma);
    assert yb + "-" + mb == yb + ("-" + mb);
    Strings.LessConcat(ya, yb, "-" + ma, "-" + mb);
    Strings.LessConcat("-", "-", ma, mb);
    Strings.LessIrreflexive("-");
  }

  /** Months are ordered in time by year, then by month. */
  lemma MonthIndexOrder(a: YearMonth, b: YearMonth)
    requires ValidMonth(a) && ValidMonth(b)
    ensures MonthIndex(a) < MonthIndex(b) <==> a.year < b.year || (a.year == b.year && a.month < b.month)
  {
    if a.year < b.year {
      assert a.year * 12 + 12 <= b.year * 12;
    } else if b.year < a.year {
      assert b.year * 12 + 12 <= a.year * 12;
    }
  }

  /** Distinct months with four-digit years have distinct labels. */
  lemma LabelInjective(a: YearMonth, b: YearMonth)
    requires ValidMonth(a) && FourDigitYear(a) && ValidMonth(b) && FourDigitYear(b)
    requires Label(a) == Label(b)
    ensures a == b
  {
    LabelOrder(a, b);
    LabelOrder(b, a);
    Strings.LessIrreflexive(Label(a));
    MonthIndexInjective(a, b);
  }
}
