/** ECMAScript number parsing and rounding over `real`: `parseFloat` (section 19.2.4
    of ECMA-262) restricted to decimal literals without an exponent, and `Math.round`
    (section 21.3.2.28 of ECMA-262). Sums, minima, maxima and means of salaries. */
module Numbers {
  import opened Wrappers
  import opened Text

  predicate AllDigits(s: string)
  {
    forall i :: 0 <= i < |s| ==> IsDigit(s[i])
  }

  function DigitValue(c: char): nat
    requires IsDigit(c)
  {
    c as int - '0' as int
  }

  /** The longest prefix of `s` made of decimal digits. */
  function DigitPrefix(s: string): (ds: string)
    ensures |ds| <= |s| && ds == s[..|ds|]
    ensures AllDigits(ds)
    ensures |ds| == |s| || !IsDigit(s[|ds|])
  {
    if |s| > 0 && IsDigit(s[0]) then [s[0]] + DigitPrefix(s[1..]) else []
  }

  /** The value of a digit string read in base ten. */
  function DigitsValue(ds: string): nat
    requires AllDigits(ds)
  {
    if |ds| == 0 then 0 else 10 * DigitsValue(ds[..|ds| - 1]) + DigitValue(ds[|ds| - 1])
  }

  /** The value of the digits after a decimal point. */
  function Fraction(ds: string): (f: real)
    requires AllDigits(ds)
    ensures 0.0 <= f < 1.0
  {
    if |ds| == 0 then 0.0 else (DigitValue(ds[0]) as real + Fraction(ds[1..])) / 10.0
  }

  /** The decimal text of a natural number, without leading zeros. */
  function NatText(n: nat): (s: string)
    ensures |s| > 0 && AllDigits(s)
    ensures DigitsValue(s) == n
  {
    var d := ['0' + ((n % 10) as char)];
    if n < 10 then d
    else
      var s := NatText(n / 10) + d;
      assert s[..|s| - 1] == NatText(n / 10);
      s
  }

  /** `parseFloat`: skip leading white space, then read the number that starts there;
      the rest of the string is ignored. */
  function ParseFloat(s: string): (r: Option<real>)
    decreases |s|
  {
    if |s| > 0 && IsWhitespace(s[0]) then ParseFloat(s[1..]) else ParseSigned(s)
  }

  /** An optional sign, digits, and an optional `.` with more digits; the rest of the
      string is ignored. No digits at all gives `NaN`, here `None`. */
  function ParseSigned(t: string): (r: Option<real>)
  {
    var signed := |t| > 0 && (t[0] == '-' || t[0] == '+');
    var u := if signed then t[1..] else t;
    var whole := DigitPrefix(u);
    var rest := u[|whole|..];
    var frac := if |rest| > 0 && rest[0] == '.' then DigitPrefix(rest[1..]) else [];
    if |whole| == 0 && |frac| == 0 then None
    else
      var magnitude := DigitsValue(whole) as real + Fraction(frac);
      Some(if signed && t[0] == '-' then -magnitude else magnitude)
  }

  /** A number is read only where there is a digit. */
  lemma {:induction false} ParseSignedNeedsDigits(t: string)
    requires ParseSigned(t).Some?
    ensures exists i :: 0 <= i < |t| && IsDigit(t[i])
  {
    var signed := |t| > 0 && (t[0] == '-' || t[0] == '+');
    var u := if signed then t[1..] else t;
    var whole := DigitPrefix(u);
    var k := |t| - |u|;
    if |whole| > 0 {
      assert IsDigit(t[k]);
    } else {
      assert IsDigit(t[k + 1]);
    }
  }

  /** `parseFloat` gives a number only when the text holds a digit. */
  lemma {:induction false} ParseFloatNeedsDigits(s: string)
    requires ParseFloat(s).Some?
    ensures exists i :: 0 <= i < |s| && IsDigit(s[i])
    decreases |s|
  {
    if |s| > 0 && IsWhitespace(s[0]) {
      ParseFloatNeedsDigits(s[1..]);
      var i :| 0 <= i < |s[1..]| && IsDigit(s[1..][i]);
      assert IsDigit(s[i + 1]);
    } else {
      ParseSignedNeedsDigits(s);
    }
  }

  /** The digit prefix of a digit string followed by a non-digit is that digit string. */
  lemma {:induction false} DigitPrefixOf(ds: string, rest: string)
    requires AllDigits(ds)
    requires |rest| == 0 || !IsDigit(rest[0])
    ensures DigitPrefix(ds + rest) == ds
  {
    if |ds| > 0 {
      assert (ds + rest)[1..] == ds[1..] + rest;
      DigitPrefixOf(ds[1..], rest);
    }
  }

  /** `parseFloat` reads a run of digits as its base-ten value, whatever follows it,
      provided the text does not continue with a decimal point. */
  lemma {:induction false} ParseFloatReadsDigits(ds: string, rest: string)
    requires |ds| > 0 && AllDigits(ds)
    requires |rest| == 0 || (!IsDigit(rest[0]) && rest[0] != '.')
    ensures ParseFloat(ds + rest) == Some(DigitsValue(ds) as real)
  {
    var s := ds + rest;
    assert s[0] == ds[0];
    assert ParseFloat(s) == ParseSigned(s);
    DigitPrefixOf(ds, rest);
    assert s[|ds|..] == rest;
    assert Fraction([]) == 0.0;
  }

  /** `parseFloat` reads a whole number back from its decimal text. */
  lemma {:induction false} ParseFloatReadsNatText(n: nat, rest: string)
    requires |rest| == 0 || (!IsDigit(rest[0]) && rest[0] != '.')
    ensures ParseFloat(NatText(n) + rest) == Some(n as real)
  {
    ParseFloatReadsDigits(NatText(n), rest);
  }

  /** `Math.round`: the integer closest to `x`, halves rounded towards +infinity. */
  function Round(x: real): (r: int)
    ensures x - 0.5 < r as real <= x + 0.5
  {
    (x + 0.5).Floor
  }

  /** Rounding preserves order. */
  lemma {:induction false} RoundMonotone(x: real, y: real)
    requires x <= y
    ensures Round(x) <= Round(y)
  {
  }

  /** Whole numbers round to themselves. */
  lemma {:induction false} RoundInt(n: int)
    ensures Round(n as real) == n
  {
  }

  function Sum(vs: seq<real>): real
  {
    if |vs| == 0 then 0.0 else Sum(vs[..|vs| - 1]) + vs[|vs| - 1]
  }

  lemma {:induction false} SumAppend(a: seq<real>, b: seq<real>)
    ensures Sum(a + b) == Sum(a) + Sum(b)
    decreases |b|
  {
    if |b| > 0 {
      assert (a + b)[..|a + b| - 1] == a + b[..|b| - 1];
      SumAppend(a, b[..|b| - 1]);
    } else {
      assert a + b == a;
    }
  }

  /** The values of a sequence of possibly-`NaN` numbers, or `None` when one of them is
      `NaN`: what a running total that turns `NaN` for good sees. */
  function AllSome(xs: seq<Option<real>>): (r: Option<seq<real>>)
    ensures r.Some? ==> |r.value| == |xs|
  {
    if |xs| == 0 then Some([])
    else match (AllSome(xs[..|xs| - 1]), xs[|xs| - 1])
      case (Some(vs), Some(v)) => Some(vs + [v])
      case _ => None
  }

  /** `AllSome` gives the values in order, and fails exactly when some value is missing. */
  lemma {:induction false} AllSomeIff(xs: seq<Option<real>>)
    ensures AllSome(xs).Some? ==> forall i :: 0 <= i < |xs| ==> xs[i] == Some(AllSome(xs).value[i])
    ensures AllSome(xs).None? <==> exists i :: 0 <= i < |xs| && xs[i].None?
  {
    if |xs| > 0 {
      var init := xs[..|xs| - 1];
      AllSomeIff(init);
      if AllSome(init).None? {
        var i :| 0 <= i < |init| && init[i].None?;
        assert xs[i] == init[i];
      }
    }
  }

  /** `total + x` where either may be `NaN` (`None`). */
  function AddOrNaN(total: Option<real>, x: Option<real>): (r: Option<real>)
    ensures r.Some? <==> total.Some? && x.Some?
  {
    if total.Some? && x.Some? then Some(total.value + x.value) else None
  }

  /** A running total kept with `AddOrNaN` is the sum of `AllSome` of what it has seen. */
  lemma {:induction false} RunningTotalStep(xs: seq<Option<real>>, i: nat, total: Option<real>)
    requires i < |xs|
    requires total.Some? <==> AllSome(xs[..i]).Some?
    requires total.Some? ==> total.value == Sum(AllSome(xs[..i]).value)
    ensures AddOrNaN(total, xs[i]).Some? <==> AllSome(xs[..i + 1]).Some?
    ensures AddOrNaN(total, xs[i]).Some? ==> AddOrNaN(total, xs[i]).value == Sum(AllSome(xs[..i + 1]).value)
  {
    assert xs[..i + 1][..i] == xs[..i];
    assert xs[..i + 1][i] == xs[i];
    if AllSome(xs[..i + 1]).Some? {
      var vs := AllSome(xs[..i + 1]).value;
      assert vs[..|vs| - 1] == AllSome(xs[..i]).value;
    }
  }

  /** The smallest element. */
  function Min(vs: seq<real>): (m: real)
    requires |vs| > 0
    ensures m in vs
    ensures forall i :: 0 <= i < |vs| ==> m <= vs[i]
  {
    if |vs| == 1 then vs[0]
    else
      var m := Min(vs[..|vs| - 1]);
      if vs[|vs| - 1] < m then vs[|vs| - 1] else m
  }

  /** The largest element. */
  function Max(vs: seq<real>): (m: real)
    requires |vs| > 0
    ensures m in vs
    ensures forall i :: 0 <= i < |vs| ==> vs[i] <= m
  {
    if |vs| == 1 then vs[0]
    else
      var m := Max(vs[..|vs| - 1]);
      if vs[|vs| - 1] > m then vs[|vs| - 1] else m
  }

  function Mean(vs: seq<real>): real
    requires |vs| > 0
  {
    Sum(vs) / (|vs| as real)
  }

  /** The mean of one value is that value. */
  lemma {:induction false} MeanOfOne(m: real)
    ensures AllSome([Some(m)]) == Some([m])
    ensures Mean([m]) == m
  {
    var none: seq<Option<real>> := [];
    var empty: seq<real> := [];
    assert [Some(m)][..0] == none;
    assert AllSome(none) == Some(empty);
    assert empty + [m] == [m];
    assert [m][..0] == empty;
    assert Sum([m]) == m;
    assert Mean([m]) == Sum([m]) / 1.0;
  }

  /** A sum of values lies between the count times a lower bound and the count times an upper bound. */
  lemma {:induction false} SumBetween(vs: seq<real>, lo: real, hi: real)
    requires forall i :: 0 <= i < |vs| ==> lo <= vs[i] <= hi
    ensures (|vs| as real) * lo <= Sum(vs) <= (|vs| as real) * hi
  {
    if |vs| > 0 {
      SumBetween(vs[..|vs| - 1], lo, hi);
    }
  }

  /** Dividing bounds by a positive count. */
  lemma {:induction false} DivideBounds(s: real, n: real, lo: real, hi: real)
    requires n > 0.0
    requires n * lo <= s <= n * hi
    ensures lo <= s / n <= hi
  {
    var q := s / n;
    assert s == q * n;
    assert n * (q - lo) >= 0.0;
    assert n * (hi - q) >= 0.0;
  }

  /** A mean respects every bound that all the values respect. */
  lemma {:induction false} MeanWithin(vs: seq<real>, lo: real, hi: real)
    requires |vs| > 0
    requires forall i :: 0 <= i < |vs| ==> lo <= vs[i] <= hi
    ensures lo <= Mean(vs) <= hi
  {
    var n, s := |vs| as real, Sum(vs);
    SumBetween(vs, lo, hi);
    DivideBounds(s, n, lo, hi);
  }

  /** The mean lies between the minimum and the maximum. */
  lemma {:induction false} MeanBetween(vs: seq<real>)
    requires |vs| > 0
    ensures Min(vs) <= Mean(vs) <= Max(vs)
  {
    MeanWithin(vs, Min(vs), Max(vs));
  }

  /** The rounded mean lies between the rounded minimum and the rounded maximum. */
  lemma {:induction false} RoundedMeanBetween(vs: seq<real>)
    requires |vs| > 0
    ensures Round(Min(vs)) <= Round(Mean(vs)) <= Round(Max(vs))
  {
    MeanBetween(vs);
    RoundMonotone(Min(vs), Mean(vs));
    RoundMonotone(Mean(vs), Max(vs));
  }

  /** `Math.round(total / n)` over `n` possibly-`NaN` amounts, with 0 for no amounts:
      `NaN` (`None`) as soon as one amount is `NaN`. */
  function MeanOrNaN(xs: seq<Option<real>>): (r: Option<int>)
    ensures |xs| == 0 ==> r == Some(0)
  {
    if |xs| == 0 then Some(0)
    else match AllSome(xs)
      case None => None
      case Some(vs) => Some(Round(Mean(vs)))
  }

  /** The mean is `NaN` exactly when one of the amounts is. */
  lemma {:induction false} MeanOrNaNIsNaN(xs: seq<Option<real>>)
    ensures MeanOrNaN(xs).None? <==> exists i :: 0 <= i < |xs| && xs[i].None?
  {
    AllSomeIff(xs);
  }

  /** Amounts between two bounds give a mean between the rounded bounds. */
  lemma {:induction false} MeanOrNaNBetween(xs: seq<Option<real>>, lo: real, hi: real)
    requires |xs| > 0
    requires forall i :: 0 <= i < |xs| ==> xs[i].Some? && lo <= xs[i].value <= hi
    ensures MeanOrNaN(xs).Some?
    ensures Round(lo) <= MeanOrNaN(xs).value <= Round(hi)
  {
    AllSomeIff(xs);
    var vs := AllSome(xs).value;
    assert forall i :: 0 <= i < |vs| ==> lo <= vs[i] <= hi by {
      forall i | 0 <= i < |vs| ensures lo <= vs[i] <= hi {
        assert xs[i] == Some(vs[i]);
      }
    }
    MeanWithin(vs, lo, hi);
    RoundMonotone(lo, Mean(vs));
    RoundMonotone(Mean(vs), hi);
  }

  /** Equal amounts average to themselves, rounded. */
  lemma {:induction false} MeanOrNaNOfEqual(xs: seq<Option<real>>, m: real)
    requires |xs| > 0
    requires forall i :: 0 <= i < |xs| ==> xs[i] == Some(m)
    ensures MeanOrNaN(xs) == Some(Round(m))
  {
    MeanOrNaNBetween(xs, m, m);
  }
}
