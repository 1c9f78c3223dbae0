/** JSON number literals, the numbers they denote, and canonical texts for them. */
module Numbers {
  import opened Options
  import opened ReportLabels

  // ---- Digits ----

  predicate IsDigit(c: char) {
    '0' <= c <= '9'
  }

  predicate AllDigits(s: string) {
    forall i :: 0 <= i < |s| ==> IsDigit(s[i])
  }

  function Value(s: string): nat
    requires AllDigits(s)
  {
    if s == "" then 0 else 10 * Value(s[..|s| - 1]) + (s[|s| - 1] - '0') as nat
  }

  function Pow10(k: nat): (p: nat)
    ensures p > 0
  {
    if k == 0 then 1 else 10 * Pow10(k - 1)
  }

  function Scale(m: int, k: nat): int {
    m * Pow10(k)
  }

  /** Without its leading zeros. */
  function TrimLeft(s: string): string {
    if s != "" && s[0] == '0' then TrimLeft(s[1..]) else s
  }

  /** Without its trailing zeros. */
  function TrimRight(s: string): string {
    if s != "" && s[|s| - 1] == '0' then TrimRight(s[..|s| - 1]) else s
  }

  lemma {:induction false} TrimLeftIs(s: string) returns (zeros: string)
    ensures s == zeros + TrimLeft(s) && (TrimLeft(s) != "" ==> TrimLeft(s)[0] != '0')
    ensures forall i :: 0 <= i < |zeros| ==> zeros[i] == '0'
  {
    if s != "" && s[0] == '0' {
      var rest := TrimLeftIs(s[1..]);
      zeros := "0" + rest;
      assert s == "0" + s[1..];
    } else {
      zeros := "";
    }
  }

  lemma {:induction false} TrimRightIs(s: string) returns (zeros: string)
    ensures s == TrimRight(s) + zeros && (TrimRight(s) != "" ==> TrimRight(s)[|TrimRight(s)| - 1] != '0')
    ensures forall i :: 0 <= i < |zeros| ==> zeros[i] == '0'
  {
    if s != "" && s[|s| - 1] == '0' {
      var rest := TrimRightIs(s[..|s| - 1]);
      zeros := rest + "0";
      assert s == s[..|s| - 1] + "0";
    } else {
      zeros := "";
    }
  }

  lemma {:induction false} PowSum(a: nat, b: nat)
    ensures Pow10(a + b) == Pow10(a) * Pow10(b)
  {
    if a > 0 {
      PowSum(a - 1, b);
      assert Pow10(a + b) == 10 * Pow10(a - 1 + b) && Pow10(a) == 10 * Pow10(a - 1);
      hide Pow10;
      TenTimes(Pow10(a - 1), Pow10(b));
    }
  }

  lemma {:induction false} TenTimes(p: int, q: int)
    ensures 10 * (p * q) == (10 * p) * q
  {
  }

  lemma {:induction false} ValueSnoc(s: string, c: char)
    requires AllDigits(s) && IsDigit(c)
    ensures AllDigits(s + [c]) && Value(s + [c]) == 10 * Value(s) + (c - '0') as nat
  {
    assert (s + [c])[..|s|] == s;
  }

  lemma {:induction false} ShiftLeft(v: int, p: int, w: int, d: int)
    ensures 10 * (v * p + w) + d == v * (10 * p) + (10 * w + d)
  {
  }

  lemma {:induction false} ValueConcat(s: string, t: string)
    requires AllDigits(s) && AllDigits(t)
    ensures AllDigits(s + t) && Value(s + t) == Scale(Value(s), |t|) + Value(t)
  {
    if t == "" {
      assert s + t == s;
    } else {
      var front, c := t[..|t| - 1], t[|t| - 1];
      ValueConcat(s, front);
      ValueSnoc(front, c);
      ValueSnoc(s + front, c);
      assert front + [c] == t && s + front + [c] == s + t;
      ShiftLeft(Value(s), Pow10(|front|), Value(front), (c - '0') as nat);
      assert Pow10(|t|) == 10 * Pow10(|front|);
      hide Value, Pow10;
    }
  }

  lemma {:induction false} ZeroValue(s: string)
    requires forall i :: 0 <= i < |s| ==> s[i] == '0'
    ensures AllDigits(s) && Value(s) == 0
  {
    if s != "" { ZeroValue(s[..|s| - 1]); }
  }

  lemma {:induction false} TrimLeftValue(s: string)
    requires AllDigits(s)
    ensures AllDigits(TrimLeft(s)) && Value(TrimLeft(s)) == Value(s) && (TrimLeft(s) != "" ==> TrimLeft(s)[0] != '0')
    ensures TrimLeft(s) == "" <==> Value(s) == 0
  {
    var t := TrimLeft(s);
    var zeros := TrimLeftIs(s);
    hide TrimLeft;
    assert forall i :: 0 <= i < |t| ==> t[i] == s[|zeros| + i];
    ZeroValue(zeros);
    ValueConcat(zeros, t);
    if t != "" { Positive(t); }
  }

  lemma {:induction false} Positive(s: string)
    requires AllDigits(s) && s != "" && s[0] != '0'
    ensures Value(s) >= Pow10(|s| - 1)
  {
    if |s| > 1 {
      Positive(s[..|s| - 1]);
    } else {
      assert s[..0] == "";
    }
  }

  lemma {:induction false} TrimRightValue(s: string)
    requires AllDigits(s)
    ensures var t := TrimRight(s); |t| <= |s| && AllDigits(t) && Value(s) == Scale(Value(t), |s| - |t|)
  {
    var t := TrimRight(s);
    var zeros := TrimRightIs(s);
    hide TrimRight;
    assert forall i :: 0 <= i < |t| ==> t[i] == s[i];
    ZeroValue(zeros);
    ValueConcat(t, zeros);
  }

  lemma {:induction false} LastDigit(s: string)
    requires AllDigits(s) && s != "" && s[|s| - 1] != '0'
    ensures Value(s) % 10 != 0
  {
  }

  /** Digits without leading zeros are known by their value. */
  lemma {:induction false} ValueInjective(s: string, t: string)
    requires AllDigits(s) && AllDigits(t) && Value(s) == Value(t)
    requires (s != "" ==> s[0] != '0') && (t != "" ==> t[0] != '0')
    ensures s == t
  {
    if s == "" || t == "" {
      if s != "" { Positive(s); }
      if t != "" { Positive(t); }
    } else {
      var a, b := s[..|s| - 1], t[..|t| - 1];
      assert (s[|s| - 1] - '0') as nat == Value(s) % 10 && (t[|t| - 1] - '0') as nat == Value(t) % 10;
      ValueInjective(a, b);
      assert s == a + [s[|s| - 1]] && t == b + [t[|t| - 1]];
    }
  }

  // ---- Literals, and what they denote ----

  /** The part of a literal after its e. */
  datatype ExponentPart = ExponentPart(upper: bool, sign: string, digits: string)

  datatype Literal = Literal(negative: bool, whole: string, fraction: Option<string>, exponent: Option<ExponentPart>)

  /** The grammar of section 6 of RFC 8259. */
  ghost predicate Valid(l: Literal) {
    && AllDigits(l.whole) && l.whole != "" && (l.whole[0] == '0' ==> |l.whole| == 1)
    && (l.fraction.Some? ==> AllDigits(l.fraction.value) && l.fraction.value != "")
    && (l.exponent.Some? ==>
          && l.exponent.value.sign in {"", "+", "-"}
          && AllDigits(l.exponent.value.digits) && l.exponent.value.digits != "")
  }

  function PowerText(e: Option<ExponentPart>): string {
    match e
    case None => ""
    case Some(x) => x.sign + x.digits
  }

  function ExponentText(e: Option<ExponentPart>): string {
    match e
    case None => ""
    case Some(x) => [if x.upper then 'E' else 'e'] + PowerText(e)
  }

  function FractionText(f: Option<string>): string {
    match f
    case None => ""
    case Some(digits) => "." + digits
  }

  /** A literal without its sign and its exponent. */
  function Unsigned(l: Literal): string {
    l.whole + FractionText(l.fraction)
  }

  function SignText(negative: bool): string {
    if negative then "-" else ""
  }

  function Text(l: Literal): string {
    SignText(l.negative) + (Unsigned(l) + ExponentText(l.exponent))
  }

  function FractionDigits(l: Literal): string {
    match l.fraction
    case None => ""
    case Some(digits) => digits
  }

  ghost function Power(l: Literal): int
    requires Valid(l)
  {
    match l.exponent
    case None => 0
    case Some(x) => if x.sign == "-" then -(Value(x.digits) as int) else Value(x.digits)
  }

  /** Not a multiple of ten. */
  predicate Trimmed(m: int) {
    m % 10 != 0
  }

  function Signed(negative: bool, v: nat): int {
    if negative then -(v as int) else v
  }

  /** A sign before something that does not begin with one. */
  lemma {:induction false} SignRead(negative: bool, rest: string)
    requires rest != "" && rest[0] != '-' && rest[0] != '+'
    ensures var t := SignText(negative) + rest;
            t != "" && (t[0] == '-' <==> negative) && t[0] != '+' && t[if negative then 1 else 0..] == rest
  {
  }

  /** mantissa times ten to the exponent. */
  datatype Number = Number(mantissa: int, exponent: int)

  ghost function Denoted(l: Literal): Number
    requires Valid(l)
  {
    var m := Value(l.whole + FractionDigits(l));
    Number(Signed(l.negative, m), Power(l) - |FractionDigits(l)|)
  }

  /** The same rational number: the mantissas agree once both are scaled to the
      smaller exponent. */
  ghost predicate SameNumber(a: Number, b: Number) {
    if a.exponent <= b.exponent then a.mantissa == Scale(b.mantissa, b.exponent - a.exponent)
    else Scale(a.mantissa, a.exponent - b.exponent) == b.mantissa
  }

  // ---- Canonical texts ----

  function IntText(i: int): string {
    if i < 0 then "-" + Decimal(-i) else Decimal(i)
  }

  /** Its significant digits and exponent; zero, however written, is 0. */
  ghost function Canonical(l: Literal): string
    requires Valid(l)
  {
    var digits := TrimLeft(l.whole + FractionDigits(l));
    if digits == "" then "0"
    else
      var trimmed := TrimRight(digits);
      CanonicalText(l.negative, trimmed, Power(l) - |FractionDigits(l)| + (|digits| - |trimmed|))
  }

  function CanonicalText(negative: bool, digits: string, exponent: int): string {
    SignText(negative) + (digits + "e" + IntText(exponent))
  }

  /** Significant digits: no zero at either end. */
  ghost predicate Significant(s: string) {
    AllDigits(s) && s != "" && s[0] != '0' && s[|s| - 1] != '0'
  }

  lemma {:induction false} SplitAtFirst(a: string, u: string, b: string, v: string, sep: char)
    requires a + [sep] + u == b + [sep] + v && sep !in a && sep !in b
    ensures a == b && u == v
  {
    var s, t := a + [sep] + u, b + [sep] + v;
    assert s[|a|] == sep && t[|b|] == sep;
    forall k | 0 <= k < |a| ensures s[k] != sep { assert s[k] == a[k]; }
    forall k | 0 <= k < |b| ensures t[k] != sep { assert t[k] == b[k]; }
    assert |a| == |b|;
    assert s[..|a|] == a && t[..|b|] == b && s[|a| + 1..] == u && t[|b| + 1..] == v;
  }

  lemma {:induction false} DecimalDigits(n: nat)
    ensures AllDigits(Decimal(n)) && Decimal(n) != "" && Value(Decimal(n)) == n
    ensures n > 0 ==> Decimal(n)[0] != '0'
  {
    DigitsAre();
    if n >= 10 {
      DecimalDigits(n / 10);
      assert Decimal(n)[..|Decimal(n)| - 1] == Decimal(n / 10);
    } else {
      assert Decimal(n)[..0] == "";
    }
  }

  lemma {:induction false} DigitsAre()
    ensures forall d: nat :: d < 10 ==> IsDigit(Digit(d)) && (Digit(d) - '0') as nat == d
  {
    var digits := "0123456789";
    assert digits[0] == '0' && digits[1] == '1' && digits[2] == '2' && digits[3] == '3' && digits[4] == '4';
    assert digits[5] == '5' && digits[6] == '6' && digits[7] == '7' && digits[8] == '8' && digits[9] == '9';
  }

  lemma {:induction false} IntTextInjective(i: int, j: int)
    requires IntText(i) == IntText(j)
    ensures i == j
  {
    DecimalDigits(if i < 0 then -i else i);
    DecimalDigits(if j < 0 then -j else j);
    assert i < 0 <==> IntText(i)[0] == '-';
    assert j < 0 <==> IntText(j)[0] == '-';
    hide Decimal;
    if i < 0 {
      assert IntText(i)[1..] == Decimal(-i) && IntText(j)[1..] == Decimal(-j);
    }
  }

  /** Canonical texts differ for different signs, digits or exponents. */
  lemma {:induction false} CanonicalTextInjective(n: bool, s: string, i: int, m: bool, t: string, j: int)
    requires Significant(s) && Significant(t) && CanonicalText(n, s, i) == CanonicalText(m, t, j)
    ensures n == m && s == t && i == j
  {
    var x, y := s + ['e'] + IntText(i), t + ['e'] + IntText(j);
    assert x[0] == s[0] && y[0] == t[0];
    SignRead(n, x);
    SignRead(m, y);
    DigitsHave(s, 'e');
    DigitsHave(t, 'e');
    hide IntText;
    assert x == y;
    SplitAtFirst(s, IntText(i), t, IntText(j), 'e');
    IntTextInjective(i, j);
  }

  lemma {:induction false} DigitsHave(s: string, c: char)
    requires AllDigits(s) && !IsDigit(c)
    ensures c !in s
  {
  }

  lemma {:induction false} ScaledByTen(a: int, k: nat)
    requires k > 0
    ensures Scale(a, k) % 10 == 0
  {
    var p := Pow10(k - 1);
    assert a * (10 * p) == 10 * (a * p);
  }

  /** A number has one way to be written without trailing zeros. */
  lemma {:induction false} OneScale(a: int, i: int, b: int, j: int)
    requires Trimmed(a) && Trimmed(b)
    ensures SameNumber(Number(a, i), Number(b, j)) <==> a == b && i == j
  {
    if i < j { ScaledByTen(b, j - i); }
    if j < i { ScaledByTen(a, i - j); }
    assert Scale(b, 0) == b;
    hide Scale;
  }

  /** Moving zeros between the mantissa and the exponent changes nothing. */
  lemma {:induction false} Rescaled(a: int, i: int, k: nat, b: Number)
    ensures SameNumber(Number(Scale(a, k), i), b) <==> SameNumber(Number(a, i + k), b)
  {
    hide Scale;
    if b.exponent <= i {
      Scaled(a, k, i - b.exponent);
      Scaled(a, 0, i + k - b.exponent);
      Unscaled(Scale(a, k));
      Unscaled(a);
      Unscaled(b.mantissa);
    } else if b.exponent <= i + k {
      var d := b.exponent - i;
      Scaled(a, k - d, d);
      Cancel(Scale(a, k - d), b.mantissa, d);
      Unscaled(a);
      Unscaled(b.mantissa);
    } else {
      var d := b.exponent - i - k;
      Scaled(b.mantissa, d, k);
      Cancel(a, Scale(b.mantissa, d), k);
    }
  }

  lemma {:induction false} Unscaled(a: int)
    ensures Scale(a, 0) == a
  {
  }

  lemma {:induction false} Scaled(a: int, k: nat, d: nat)
    ensures Scale(Scale(a, k), d) == Scale(a, k + d)
  {
    PowSum(k, d);
    Associates(a, Pow10(k), Pow10(d));
  }

  lemma {:induction false} Associates(a: int, b: int, c: int)
    ensures a * b * c == a * (b * c)
  {
  }

  lemma {:induction false} Cancel(a: int, b: int, k: nat)
    ensures Scale(a, k) == Scale(b, k) <==> a == b
  {
    Cancels(a, b, Pow10(k));
  }

  lemma {:induction false} Cancels(a: int, b: int, p: int)
    requires p > 0
    ensures a * p == b * p <==> a == b
  {
    if a < b { assert (b - a) * p > 0; }
    if b < a { assert (a - b) * p > 0; }
  }

  lemma {:induction false} Symmetric(a: Number, b: Number)
    ensures SameNumber(a, b) <==> SameNumber(b, a)
  {
    Unscaled(a.mantissa);
    Unscaled(b.mantissa);
    hide Scale;
  }

  lemma {:induction false} ZeroOnly(a: Number, b: Number)
    requires a.mantissa == 0
    ensures SameNumber(a, b) <==> b.mantissa == 0
  {
    var k: nat := if a.exponent <= b.exponent then b.exponent - a.exponent else a.exponent - b.exponent;
    Cancel(b.mantissa, 0, k);
    assert Scale(0, k) == 0;
    hide Scale;
  }

  // ---- A canonical text stands for one number ----

  lemma {:induction false} CanonicalIs(l: Literal, all: string)
    requires Valid(l) && all == l.whole + FractionDigits(l) && AllDigits(all)
    ensures var d := TrimLeft(all);
            Canonical(l) == if d == "" then "0"
              else CanonicalText(l.negative, TrimRight(d), Power(l) - |FractionDigits(l)| + (|d| - |TrimRight(d)|))
  {
    hide TrimLeft, TrimRight, CanonicalText, Power, FractionDigits;
  }

  /** The digits of a literal, their significant part, and the zeros between. */
  lemma {:induction false} DigitsOf(l: Literal) returns (all: string, digits: string, zeros: nat)
    requires Valid(l)
    ensures all == l.whole + FractionDigits(l) && AllDigits(all) && (digits == "" <==> Value(all) == 0)
    ensures digits == "" ==> Canonical(l) == "0"
    ensures digits != "" ==> Significant(digits) && Value(all) == Scale(Value(digits), zeros)
    ensures digits != "" ==>
              Canonical(l) == CanonicalText(l.negative, digits, Power(l) - |FractionDigits(l)| + zeros)
  {
    all := l.whole + FractionDigits(l);
    assert AllDigits(all);
    hide *;
    CanonicalIs(l, all);
    var d := TrimLeft(all);
    TrimLeftValue(all);
    TrimRightValue(d);
    digits, zeros := TrimRight(d), |d| - |TrimRight(d)|;
    if d != "" {
      NotAllZeros(d);
      SignificantFacts(digits);
    }
  }

  lemma {:induction false} SignificantFacts(s: string)
    requires Significant(s)
    ensures AllDigits(s) && s != "" && s[|s| - 1] != '0' && Value(s) > 0 && Trimmed(Value(s))
  {
    LastDigit(s);
    Positive(s);
  }

  lemma {:induction false} NotAllZeros(d: string)
    requires AllDigits(d) && d != "" && d[0] != '0'
    ensures Significant(TrimRight(d))
  {
    var zeros := TrimRightIs(d);
    hide TrimRight;
    var t := TrimRight(d);
    assert t != "" && t[0] == d[0] by { assert d == t + zeros; }
    assert forall i :: 0 <= i < |t| ==> t[i] == d[i];
  }

  lemma {:induction false} LongerThanZero(negative: bool, digits: string, exponent: int)
    requires digits != ""
    ensures CanonicalText(negative, digits, exponent) != "0"
  {
    assert |CanonicalText(negative, digits, exponent)| >= 2;
  }

  lemma {:induction false} SignedScale(negative: bool, v: nat, k: nat)
    ensures Scale(v, k) >= 0 && Signed(negative, Scale(v, k)) == Scale(Signed(negative, v), k)
    ensures Trimmed(v) ==> Trimmed(Signed(negative, v))
    ensures Signed(negative, v) == 0 <==> v == 0
    ensures v > 0 ==> Scale(v, k) > 0
  {
    Negates(v, Pow10(k));
  }

  lemma {:induction false} Negates(v: nat, p: nat)
    ensures -((v * p) as int) == (-(v as int)) * p && v * p >= 0 && (v > 0 && p > 0 ==> v * p > 0)
  {
  }

  /** A literal's significant digits, and the power of ten they stand for. */
  lemma {:induction false} Parts(l: Literal) returns (digits: string, zeros: nat)
    requires Valid(l)
    ensures Denoted(l).mantissa == 0 <==> Canonical(l) == "0"
    ensures Denoted(l).mantissa != 0 ==>
              && Significant(digits) && Trimmed(Signed(l.negative, Value(digits)))
              && Canonical(l) == CanonicalText(l.negative, digits, Denoted(l).exponent + zeros)
              && Denoted(l).mantissa == Scale(Signed(l.negative, Value(digits)), zeros)
  {
    var all: string;
    all, digits, zeros := DigitsOf(l);
    assert Denoted(l) == Number(Signed(l.negative, Value(all)), Power(l) - |FractionDigits(l)|);
    SignedScale(l.negative, Value(all), 0);
    if digits != "" {
      SignificantFacts(digits);
      SignedScale(l.negative, Value(digits), zeros);
      LongerThanZero(l.negative, digits, Power(l) - |FractionDigits(l)| + zeros);
    }
    hide *;
  }

  lemma {:induction false} SameParts(x: Number, m: int, k: nat, y: Number, n: int, h: nat)
    requires x.mantissa == Scale(m, k) && y.mantissa == Scale(n, h) && Trimmed(m) && Trimmed(n)
    ensures SameNumber(x, y) <==> m == n && x.exponent + k == y.exponent + h
  {
    hide *;
    var i, j := x.exponent + k, y.exponent + h;
    assert x == Number(Scale(m, k), x.exponent) && y == Number(Scale(n, h), y.exponent);
    Rescaled(m, x.exponent, k, y);
    Symmetric(Number(m, i), y);
    Rescaled(n, y.exponent, h, Number(m, i));
    Symmetric(Number(n, j), Number(m, i));
    OneScale(m, i, n, j);
  }

  /** Two literals have one canonical text exactly when they denote the same
      rational number, whatever the size of their exponents. */
  lemma {:induction false} CanonicalIffSame(a: Literal, b: Literal)
    requires Valid(a) && Valid(b)
    ensures Canonical(a) == Canonical(b) <==> SameNumber(Denoted(a), Denoted(b))
  {
    hide *;
    var s, k := Parts(a);
    var t, h := Parts(b);
    var x, y := Denoted(a), Denoted(b);
    if x.mantissa == 0 {
      ZeroOnly(x, y);
    } else if y.mantissa == 0 {
      ZeroOnly(y, x);
      Symmetric(x, y);
    } else {
      SignificantFacts(s);
      SignificantFacts(t);
      var i, j, m, n := x.exponent + k, y.exponent + h, Signed(a.negative, Value(s)), Signed(b.negative, Value(t));
      SameParts(x, m, k, y, n, h);
      SameText(a.negative, s, i, b.negative, t, j);
    }
  }

  lemma {:induction false} SameText(n: bool, s: string, i: int, m: bool, t: string, j: int)
    requires Significant(s) && Significant(t)
    ensures AllDigits(s) && AllDigits(t)
    ensures CanonicalText(n, s, i) == CanonicalText(m, t, j) <==> Signed(n, Value(s)) == Signed(m, Value(t)) && i == j
  {
    SignificantFacts(s);
    SignificantFacts(t);
    hide *;
    if CanonicalText(n, s, i) == CanonicalText(m, t, j) { CanonicalTextInjective(n, s, i, m, t, j); }
    if Signed(n, Value(s)) == Signed(m, Value(t)) { SignedDigits(n, s, m, t); }
  }

  lemma {:induction false} SignedDigits(n: bool, s: string, m: bool, t: string)
    requires Significant(s) && Significant(t)
    requires Signed(n, Value(s)) == Signed(m, Value(t))
    ensures n == m && s == t
  {
    Positive(s);
    Positive(t);
    ValueInjective(s, t);
  }
}
