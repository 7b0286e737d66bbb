/** The three ways the handlers turn a salary text such as "10.000 - 20.000" into a number. */
module SalaryText {
  import opened Wrappers
  import opened Text
  import opened Numbers

  /** `parseFloat(s.replace(/\./g, "").replace(",", "."))` (statistics and technology
      routes, and each half of a range in the salary-data route): every `.` is a thousands
      separator and is removed, the first `,` becomes the decimal point, and only the
      leading number is read, so a range yields its lower bound. */
  function LocaleNumber(s: string): Option<real>
  {
    ParseFloat(ReplaceFirst(Strip(s, {'.'}), ',', '.'))
  }

  /** The range separator. */
  const RangeSeparator: string := " - "

  /** The salary-data route's per-record salary: with two or more `" - "`-separated parts,
      the midpoint of the first two parts; otherwise the whole text. `NaN` in either half
      makes the result `NaN`. */
  function RangeMidpoint(s: string): Option<real>
  {
    Midpoint(SplitOn(s, RangeSeparator), LocaleNumber)
  }

  /** The midpoint rule of `RangeMidpoint` for parts read by `read`. */
  function Midpoint(parts: seq<string>, read: string -> Option<real>): Option<real>
    requires |parts| > 0
  {
    if |parts| > 1 then
      match (read(parts[0]), read(parts[1]))
      case (Some(lo), Some(hi)) => Some((lo + hi) / 2.0)
      case _ => None
    else read(parts[0])
  }

  lemma {:induction false} MidpointOfTwo(x: string, y: string, read: string -> Option<real>, lo: nat, hi: nat)
    requires read(x) == Some(lo as real) && read(y) == Some(hi as real)
    ensures Midpoint([x, y], read) == Some((lo + hi) as real / 2.0)
  {
  }

  /** Text that splits into two parts read as `u` and `v` gives their midpoint. */
  lemma {:induction false} RangeMidpointOfSplit(s: string, x: string, y: string, lo: nat, hi: nat)
    requires SplitOn(s, RangeSeparator) == [x, y]
    requires LocaleNumber(x) == Some(lo as real) && LocaleNumber(y) == Some(hi as real)
    ensures RangeMidpoint(s) == Some((lo + hi) as real / 2.0)
  {
    MidpointOfTwo(x, y, LocaleNumber, lo, hi);
  }

  /** `parseFloat(s.split(" - ")[0].replace(/[.,]/g, ""))` (position-experience route): the
      text before the first `" - "`, with every `.` and every `,` removed. */
  function FirstComponentDigits(s: string): Option<real>
  {
    ParseFloat(Strip(SplitOn(s, RangeSeparator)[0], {'.', ','}))
  }

  /** Digit strings carry no `.` or `,`, so neither normalisation changes them. */
  lemma {:induction false} DigitsHaveNoSeparators(ds: string)
    requires AllDigits(ds)
    ensures '.' !in ds && ',' !in ds && ' ' !in ds
  {
  }

  /** Text without `.` and `,` is parsed as it stands. */
  lemma {:induction false} LocaleNumberPlain(s: string)
    requires '.' !in s && ',' !in s
    ensures LocaleNumber(s) == ParseFloat(s)
  {
    StripNothing(s, {'.'});
  }

  /** A plain range `lo - hi` is read as its lower bound. */
  lemma {:induction false} LocaleNumberReadsLowerBound(lo: nat, hi: nat)
    ensures LocaleNumber(NatText(lo) + RangeSeparator + NatText(hi)) == Some(lo as real)
  {
    var a, b := NatText(lo), NatText(hi);
    var rest := RangeSeparator + b;
    DigitsHaveNoSeparators(a);
    DigitsHaveNoSeparators(b);
    assert a + RangeSeparator + b == a + rest;
    LocaleNumberPlain(a + rest);
    ParseFloatReadsNatText(lo, rest);
  }

  /** A whole number in plain digits is read as itself. */
  lemma {:induction false} LocaleNumberReadsNat(n: nat)
    ensures LocaleNumber(NatText(n)) == Some(n as real)
  {
    var s := NatText(n);
    DigitsHaveNoSeparators(s);
    LocaleNumberPlain(s);
    ParseFloatReadsNatText(n, []);
    assert s + [] == s;
  }

  /** A plain range `lo - hi` gives the midpoint of its bounds. */
  lemma {:induction false} RangeMidpointOfRange(lo: nat, hi: nat)
    ensures RangeMidpoint(NatText(lo) + RangeSeparator + NatText(hi)) == Some((lo + hi) as real / 2.0)
  {
    var a, b := NatText(lo), NatText(hi);
    DigitsHaveNoSeparators(a);
    DigitsHaveNoSeparators(b);
    StripNothing(a, {'.'});
    StripNothing(b, {'.'});
    RangeMidpointOfParts(a, b, lo, hi);
  }

  /** A single amount is read as itself. */
  lemma {:induction false} RangeMidpointOfSingle(n: nat)
    ensures RangeMidpoint(NatText(n)) == Some(n as real)
  {
    DigitsHaveNoSeparators(NatText(n));
    SplitNone(NatText(n), RangeSeparator);
    LocaleNumberReadsNat(n);
  }

  /** The position-experience parse of a plain range is its lower bound. */
  lemma {:induction false} FirstComponentOfRange(lo: nat, hi: nat)
    ensures FirstComponentDigits(NatText(lo) + RangeSeparator + NatText(hi)) == Some(lo as real)
  {
    var a, b := NatText(lo), NatText(hi);
    DigitsHaveNoSeparators(a);
    SplitHead(a, b, RangeSeparator);
    StripNothing(a, {'.', ','});
    ParseFloatReadsNatText(lo, []);
    assert a + [] == a;
  }

  /** Normalisation only looks at the text left after the `.` are removed. */
  lemma {:induction false} LocaleNumberSameStrip(s: string, t: string)
    requires Strip(s, {'.'}) == Strip(t, {'.'})
    ensures LocaleNumber(s) == LocaleNumber(t)
  {
  }

  lemma {:induction false} ThousandsStripped(a: string, b: string, cs: set<char>)
    requires '.' in cs
    requires forall c :: c in a + b ==> c !in cs
    ensures Strip(a + "." + b, cs) == a + b
  {
    StripAround(a, '.', b, cs);
    StripNothing(a, cs);
    StripNothing(b, cs);
  }

  /** Text that is a whole number once its `.` are removed is read as that number. */
  lemma {:induction false} LocaleNumberOfDigits(s: string, n: nat)
    requires Strip(s, {'.'}) == NatText(n)
    ensures LocaleNumber(s) == Some(n as real)
  {
    var ds := NatText(n);
    DigitsHaveNoSeparators(ds);
    assert ReplaceFirst(ds, ',', '.') == ds;
    ParseFloatReadsDigits(ds, []);
    assert ds + [] == ds;
  }

  /** Text that is a range `lo - hi` once its `.` are removed is read as `lo`. */
  lemma {:induction false} LocaleNumberOfDigitRange(s: string, lo: nat, hi: nat)
    requires Strip(s, {'.'}) == NatText(lo) + RangeSeparator + NatText(hi)
    ensures LocaleNumber(s) == Some(lo as real)
  {
    var rest := RangeSeparator + NatText(hi);
    var x := NatText(lo) + rest;
    assert x == NatText(lo) + RangeSeparator + NatText(hi);
    DigitsHaveNoSeparators(NatText(lo));
    DigitsHaveNoSeparators(NatText(hi));
    assert ',' !in x;
    assert ReplaceFirst(x, ',', '.') == x;
    ParseFloatReadsNatText(lo, rest);
  }

  /** The salary-data route reads `a - b` as the midpoint of the numbers `a` and `b` stand for. */
  lemma {:induction false} RangeMidpointOfParts(a: string, b: string, lo: nat, hi: nat)
    requires ' ' !in a && ' ' !in b
    requires Strip(a, {'.'}) == NatText(lo) && Strip(b, {'.'}) == NatText(hi)
    ensures RangeMidpoint(a + RangeSeparator + b) == Some((lo + hi) as real / 2.0)
  {
    var s := a + RangeSeparator + b;
    assert SplitOn(s, RangeSeparator) == [a, b] by {
      SplitTwo(a, b, RangeSeparator);
    }
    assert LocaleNumber(a) == Some(lo as real) by {
      LocaleNumberOfDigits(a, lo);
    }
    assert LocaleNumber(b) == Some(hi as real) by {
      LocaleNumberOfDigits(b, hi);
    }
    RangeMidpointOfSplit(s, a, b, lo, hi);
  }

  /** The position-experience route reads `a - b` as the number `a` stands for once its
      `.` and `,` are removed. */
  lemma {:induction false} FirstComponentOfParts(a: string, b: string, n: nat)
    requires ' ' !in a
    requires Strip(a, {'.', ','}) == NatText(n)
    ensures FirstComponentDigits(a + RangeSeparator + b) == Some(n as real)
  {
    SplitHead(a, b, RangeSeparator);
    ParseFloatReadsNatText(n, []);
    assert NatText(n) + [] == NatText(n);
  }

  /** The position-experience route reads text without a range separator as the number
      it stands for once its `.` and `,` are removed. */
  lemma {:induction false} FirstComponentOfSingle(a: string, n: nat)
    requires ' ' !in a
    requires Strip(a, {'.', ','}) == NatText(n)
    ensures FirstComponentDigits(a) == Some(n as real)
  {
    SplitNone(a, RangeSeparator);
    ParseFloatReadsNatText(n, []);
    assert NatText(n) + [] == NatText(n);
  }

  /** A `.` between digit groups is a thousands separator for the statistics routes:
      `a.b` reads as the number whose digits are `a` followed by `b`. */
  lemma {:induction false} ThousandsLocaleNumber(a: string, b: string, n: nat)
    requires a + b == NatText(n)
    ensures LocaleNumber(a + "." + b) == Some(n as real)
  {
    DigitsHaveNoSeparators(a + b);
    assert forall c :: c in a + b ==> c in a + b;
    ThousandsStripped(a, b, {'.'});
    LocaleNumberOfDigits(a + "." + b, n);
  }

  /** Digits with one `.` among them lose it to the statistics routes' normalisation. */
  lemma {:induction false} ThousandsDigits(a: string, b: string, n: nat)
    requires a + b == NatText(n)
    ensures ' ' !in a + "." + b && Strip(a + "." + b, {'.'}) == NatText(n)
  {
    DigitsHaveNoSeparators(a + b);
    ThousandsStripped(a, b, {'.'});
  }

  lemma {:induction false} RegroupRange(a: string, b: string, c: string, d: string)
    ensures (a + "." + b) + RangeSeparator + (c + "." + d) == a + "." + b + RangeSeparator + c + "." + d
  {
  }

  /** The salary-data route reads `a.b - c.d` as the midpoint of the two numbers. */
  lemma {:induction false} ThousandsRangeMidpoint(a: string, b: string, c: string, d: string, lo: nat, hi: nat)
    requires a + b == NatText(lo) && c + d == NatText(hi)
    ensures RangeMidpoint(a + "." + b + RangeSeparator + c + "." + d) == Some((lo + hi) as real / 2.0)
  {
    var x, y := a + "." + b, c + "." + d;
    ThousandsDigits(a, b, lo);
    ThousandsDigits(c, d, hi);
    RangeMidpointOfParts(x, y, lo, hi);
    RegroupRange(a, b, c, d);
  }

  /** The position-experience route reads `a.b - c` as the number `a.b` stands for. */
  lemma {:induction false} ThousandsFirstComponent(a: string, b: string, c: string, n: nat)
    requires a + b == NatText(n)
    ensures FirstComponentDigits(a + "." + b + RangeSeparator + c) == Some(n as real)
  {
    DigitsHaveNoSeparators(a + b);
    ThousandsStripped(a, b, {'.', ','});
    var x := a + "." + b;
    assert ' ' !in x;
    assert x + RangeSeparator + c == a + "." + b + RangeSeparator + c;
    FirstComponentOfParts(x, c, n);
  }

  /** The position-experience route drops a decimal comma as well: `a,b` reads as the
      number whose digits are `a` followed by `b`, not as a fraction. */
  lemma {:induction false} DecimalCommaFirstComponent(a: string, b: string, n: nat)
    requires a + b == NatText(n)
    ensures FirstComponentDigits(a + "," + b) == Some(n as real)
  {
    DigitsHaveNoSeparators(a + b);
    var cs := {'.', ','};
    StripAround(a, ',', b, cs);
    assert a + "," + b == a + [','] + b;
    StripNothing(a, cs);
    StripNothing(b, cs);
    var x := a + "," + b;
    assert ' ' !in x;
    FirstComponentOfSingle(x, n);
  }

  /** Both separators together: `a.b,c` reads as the number whose digits are `a`, `b`
      and `c` in turn (so "1.234,56" reads as 123456). */
  lemma {:induction false} GroupedDecimalFirstComponent(a: string, b: string, c: string, n: nat)
    requires a + b + c == NatText(n)
    ensures FirstComponentDigits(a + "." + b + "," + c) == Some(n as real)
  {
    var cs := {'.', ','};
    DigitsHaveNoSeparators(a + b + c);
    assert forall ch :: ch in a + b ==> ch in a + b + c;
    assert forall ch :: ch in c ==> ch in a + b + c;
    ThousandsStripped(a, b, cs);
    StripAround(a + "." + b, ',', c, cs);
    assert a + "." + b + "," + c == (a + "." + b) + [','] + c;
    StripNothing(c, cs);
    var x := a + "." + b + "," + c;
    assert ' ' !in x;
    FirstComponentOfSingle(x, n);
  }
}
