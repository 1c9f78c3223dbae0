/** The two canonicalizers of number literals: the one of the JSON matchers,
    whose exponents are unbounded, and the one of the snapshots, which leaves a
    literal alone when its exponent does not fit 32 bits. */
module NumberTexts {
  import opened Options
  import opened ReportLabels
  import opened Numbers
  import Sequences

  // ---- Strings ----

  /** The first place of c, or the length. */
  function IndexOf(s: string, c: char): (i: nat)
    ensures i <= |s|
  {
    if s == "" || s[0] == c then 0 else 1 + IndexOf(s[1..], c)
  }

  function Before(s: string, c: char): string {
    s[..IndexOf(s, c)]
  }

  function After(s: string, c: char): string {
    if IndexOf(s, c) < |s| then s[IndexOf(s, c) + 1..] else ""
  }

  function Lower(c: char): char {
    if 'A' <= c <= 'Z' then ((c as int) + 32) as char else c
  }

  function ToLower(s: string): string {
    seq(|s|, i requires 0 <= i < |s| => Lower(s[i]))
  }

  /** An integer with an optional sign. */
  function IntegerOf(s: string): Option<int> {
    var unsigned := if s != "" && (s[0] == '-' || s[0] == '+') then s[1..] else s;
    if unsigned == "" || !AllDigits(unsigned) then None
    else if s[0] == '-' then Some(-(Value(unsigned) as int))
    else Some(Value(unsigned))
  }

  lemma {:induction false} IndexIs(s: string, c: char, p: nat)
    requires p <= |s| && (p < |s| ==> s[p] == c) && forall k :: 0 <= k < p ==> s[k] != c
    ensures IndexOf(s, c) == p
  {
    if p > 0 { IndexIs(s[1..], c, p - 1); }
  }

  lemma {:induction false} CutsAt(a: string, c: char, b: string)
    requires c !in a
    ensures Before(a + [c] + b, c) == a && After(a + [c] + b, c) == b
    ensures Before(a, c) == a && After(a, c) == ""
  {
    IndexIs(a + [c] + b, c, |a|);
    IndexIs(a, c, |a|);
    hide IndexOf;
  }

  // ---- The parts of a literal ----

  lemma {:induction false} LowerDigits(s: string)
    requires forall i :: 0 <= i < |s| ==> IsDigit(s[i]) || s[i] == '.' || s[i] == '+' || s[i] == '-'
    ensures ToLower(s) == s
  {
  }

  lemma {:induction false} LowerConcat(a: string, b: string)
    ensures ToLower(a + b) == ToLower(a) + ToLower(b)
  {
  }

  lemma {:induction false} TextIs(l: Literal)
    requires Valid(l)
    ensures Text(l) != "" && (Text(l)[0] == '-' <==> l.negative) && Text(l)[0] != '+'
    ensures Text(l)[if l.negative then 1 else 0..] == Unsigned(l) + ExponentText(l.exponent)
  {
    var rest := Unsigned(l) + ExponentText(l.exponent);
    assert rest[0] == l.whole[0];
    hide Unsigned, ExponentText;
    SignRead(l.negative, rest);
  }

  function Mark(l: Literal): string {
    if l.exponent.Some? && l.exponent.value.upper then "E" else "e"
  }

  lemma {:induction false} ExponentIs(l: Literal)
    ensures l.exponent.Some? ==> ExponentText(l.exponent) == Mark(l) + PowerText(l.exponent)
    ensures l.exponent.None? ==> ExponentText(l.exponent) == "" && PowerText(l.exponent) == ""
  {
  }

  lemma {:induction false} UnsignedChars(l: Literal)
    requires Valid(l)
    ensures 'e' !in Unsigned(l) && 'E' !in Unsigned(l) && ToLower(Unsigned(l)) == Unsigned(l)
    ensures Before(Unsigned(l), '.') == l.whole && After(Unsigned(l), '.') == FractionDigits(l)
  {
    DigitsHave(l.whole, '.');
    LowerDigits(Unsigned(l));
    CutsAt(l.whole, '.', FractionDigits(l));
    if l.fraction.Some? { assert Unsigned(l) == l.whole + ['.'] + FractionDigits(l); }
    if l.fraction.None? { assert Unsigned(l) == l.whole; }
    hide Before, After;
  }

  lemma {:induction false} PowerChars(l: Literal)
    requires Valid(l)
    ensures 'e' !in PowerText(l.exponent) && 'E' !in PowerText(l.exponent)
    ensures ToLower(PowerText(l.exponent)) == PowerText(l.exponent)
    ensures l.exponent.Some? ==> PowerText(l.exponent) != ""
  {
    if l.exponent.Some? {
      var x := l.exponent.value;
      assert forall i :: 0 <= i < |x.sign| ==> x.sign[i] == '+' || x.sign[i] == '-';
    }
    LowerDigits(PowerText(l.exponent));
  }

  lemma {:induction false} PowerParsed(l: Literal)
    requires Valid(l) && l.exponent.Some?
    ensures IntegerOf(PowerText(l.exponent)) == Some(Power(l))
    ensures var t := PowerText(l.exponent); t != "" && IntegerOf(if t[0] == '+' then t[1..] else t) == Some(Power(l))
  {
    var x := l.exponent.value;
    assert AllDigits(x.digits) && x.sign in {"", "+", "-"} && PowerText(l.exponent) == x.sign + x.digits;
    hide Valid, PowerText, Value, IntegerOf, AllDigits;
    DigitsParsed(x.digits);
    PowerWithSign('+', x.digits);
    PowerWithSign('-', x.digits);
    if x.sign == "" { Sequences.NothingAdded(x.digits); }
  }

  lemma {:induction false} DigitsParsed(d: string)
    requires AllDigits(d) && d != ""
    ensures IntegerOf(d) == Some(Value(d)) && d[0] != '+' && d[0] != '-'
  {
    hide Value;
    assert IsDigit(d[0]);
  }

  lemma {:induction false} PowerWithSign(sign: char, d: string)
    requires AllDigits(d) && d != "" && (sign == '+' || sign == '-')
    ensures IntegerOf([sign] + d) == Some(if sign == '-' then -(Value(d) as int) else Value(d))
    ensures ([sign] + d)[0] == sign && ([sign] + d)[1..] == d
  {
    hide Value;
    assert ([sign] + d)[1..] == d;
  }

  /** Lower-cased and cut at its e. */
  lemma {:induction false} LowerCut(l: Literal)
    requires Valid(l)
    ensures var s := ToLower(Unsigned(l) + ExponentText(l.exponent));
            Before(s, 'e') == Unsigned(l) && After(s, 'e') == PowerText(l.exponent)
  {
    UnsignedChars(l);
    PowerChars(l);
    ExponentIs(l);
    var a, mark, power := Unsigned(l), Mark(l), PowerText(l.exponent);
    assert ToLower(mark) == "e" && ToLower("") == "";
    hide *;
    CutsAt(a, 'e', power);
    LowerConcat(a, ExponentText(l.exponent));
    if l.exponent.Some? {
      LowerConcat(mark, power);
      Sequences.Grouped(a, ['e'], power);
    } else {
      Sequences.NothingAdded(a);
    }
  }

  // ---- The canonicalizer of the JSON matchers ----

  method ReadLiteral(lit: string, ghost l: Literal) returns (negative: bool, whole: string, fraction: string,
      power: string)
    requires Valid(l) && lit == Text(l)
    ensures negative == l.negative && whole == l.whole && fraction == FractionDigits(l)
    ensures power == PowerText(l.exponent)
  {
    TextIs(l);
    LowerCut(l);
    UnsignedChars(l);
    hide *;
    negative := |lit| > 0 && lit[0] == '-';
    var unsigned := if negative then lit[1..] else lit[0..];
    var lower := ToLower(unsigned);
    var mantissa := Before(lower, 'e');
    power := After(lower, 'e');
    whole, fraction := Before(mantissa, '.'), After(mantissa, '.');
  }

  method ReadPower(power: string, ghost l: Literal) returns (exponent: int)
    requires Valid(l) && power == PowerText(l.exponent)
    ensures exponent == Power(l)
  {
    if l.exponent.Some? { PowerParsed(l); }
    PowerIs(l);
    hide *;
    exponent := 0;
    if power != "" {
      var parsed := IntegerOf(if power[0] == '+' then power[1..] else power);
      if parsed.Some? { exponent := parsed.value; }
    }
  }

  /** The canonical text of a literal of any size. */
  method CanonicalJSONNumber(lit: string, ghost l: Literal) returns (r: string)
    requires Valid(l) && lit == Text(l)
    ensures r == Canonical(l)
  {
    PowerIs(l);
    CanonicalIs(l, l.whole + FractionDigits(l));
    hide *;
    var negative, whole, fraction, power := ReadLiteral(lit, l);
    var digits := TrimLeft(whole + fraction);
    if digits == "" { return "0"; }
    var exponent := ReadPower(power, l);
    exponent := exponent - |fraction|;
    var trimmed := TrimRight(digits);
    exponent := exponent + (|digits| - |trimmed|);
    r := CanonicalText(negative, trimmed, exponent);
  }

  lemma {:induction false} PowerIs(l: Literal)
    requires Valid(l)
    ensures l.exponent.None? ==> Power(l) == 0 && PowerText(l.exponent) == ""
    ensures AllDigits(l.whole + FractionDigits(l)) && l.whole != ""
  {
  }

  // ---- The canonicalizer of the snapshots ----

  /** The exponent fits 32 bits. */
  ghost predicate Fits(l: Literal)
    requires Valid(l)
  {
    -0x8000_0000 <= Power(l) < 0x8000_0000
  }

  ghost function Snapshot(l: Literal): string
    requires Valid(l)
  {
    if Fits(l) then Canonical(l) else Text(l)
  }

  function IndexAny(s: string): (i: nat)
    ensures i <= |s|
  {
    if s == "" || s[0] == 'e' || s[0] == 'E' then 0 else 1 + IndexAny(s[1..])
  }

  lemma {:induction false} IndexAnyIs(s: string, p: nat)
    requires p <= |s| && (p < |s| ==> s[p] == 'e' || s[p] == 'E')
    requires forall k :: 0 <= k < p ==> s[k] != 'e' && s[k] != 'E'
    ensures IndexAny(s) == p
  {
    if p > 0 { IndexAnyIs(s[1..], p - 1); }
  }

  lemma {:induction false} CutsAny(a: string, b: string, s: string)
    requires s == a + b && 'e' !in a && 'E' !in a && (b != "" ==> b[0] == 'e' || b[0] == 'E')
    ensures IndexAny(s) == |a| && s[..|a|] == a && (|a| < |s| <==> b != "") && (b != "" ==> s[|a| + 1..] == b[1..])
  {
    IndexAnyIs(s, |a|);
    hide IndexAny;
  }

  lemma {:induction false} OffFirst(mark: string, power: string)
    requires |mark| == 1
    ensures (mark + power)[0] == mark[0] && (mark + power)[1..] == power && mark + power != ""
  {
  }

  lemma {:induction false} CutsAtAny(l: Literal, s: string)
    requires Valid(l) && s == Unsigned(l) + ExponentText(l.exponent)
    ensures var i := IndexAny(s);
            && s[..i] == Unsigned(l) && (i < |s| <==> l.exponent.Some?) && (i < |s| ==>
                s[i + 1..] == PowerText(l.exponent))
  {
    ExponentIs(l);
    UnsignedChars(l);
    var a, b, mark, power := Unsigned(l), ExponentText(l.exponent), Mark(l), PowerText(l.exponent);
    assert mark == "e" || mark == "E";
    hide *;
    CutsAny(a, b, s);
    OffFirst(mark, power);
  }

  /** Drops leading zeros, but not the last digit. */
  method DropLeading(s: string) returns (t: string)
    requires s != ""
    ensures t == if TrimLeft(s) == "" then s[|s| - 1..] else TrimLeft(s)
    ensures t != ""
  {
    var n := 0;
    while n < |s| - 1 && s[n] == '0'
      invariant 0 <= n <= |s| - 1 && TrimLeft(s[n..]) == TrimLeft(s)
    {
      assert s[n..][1..] == s[n + 1..];
      n := n + 1;
    }
    t := s[n..];
    assert t[1..] == s[n + 1..];
  }

  /** Drops trailing zeros, but not the first digit, counting them. */
  method DropTrailing(s: string, exponent: int) returns (t: string, e: int)
    requires s != ""
    ensures s[0] != '0' ==> t == TrimRight(s)
    ensures |s| == 1 ==> t == s
    ensures |t| <= |s| && e == exponent + (|s| - |t|)
    ensures t != "" && t[0] == s[0] && (t == "0" ==> s[0] == '0')
  {
    t, e := s, exponent;
    while |t| > 1 && t[|t| - 1] == '0'
      invariant 1 <= |t| <= |s| && t[0] == s[0] && e == exponent + (|s| - |t|) && TrimRight(t) == TrimRight(s)
      decreases |t|
    {
      t := t[..|t| - 1];
      e := e + 1;
    }
  }

  method ReadSign(literal: string, ghost l: Literal) returns (negative: bool, s: string)
    requires Valid(l) && literal == Text(l)
    ensures negative == l.negative && s == Unsigned(l) + ExponentText(l.exponent)
  {
    TextIs(l);
    hide *;
    s, negative := literal, false;
    if |s| > 0 && (s[0] == '-' || s[0] == '+') {
      negative := s[0] == '-';
      s := s[1..];
    } else {
      assert s[0..] == s;
    }
  }

  /** The digits and the power, unless that does not fit. */
  method ReadParts(s: string, ghost l: Literal) returns (fits: bool, mantissa: string, exponent: int)
    requires Valid(l) && s == Unsigned(l) + ExponentText(l.exponent)
    ensures fits <==> -0x8000_0000 <= Power(l) < 0x8000_0000
    ensures fits ==> mantissa == Unsigned(l) && exponent == Power(l)
  {
    hide *;
    CutsAtAny(l, s);
    var i := IndexAny(s);
    mantissa, fits, exponent := s[..i], true, 0;
    if i < |s| {
      fits, exponent := ParsePower(s[i + 1..], l);
    } else {
      PowerIs(l);
    }
  }

  method ParsePower(power: string, ghost l: Literal) returns (fits: bool, exponent: int)
    requires Valid(l) && l.exponent.Some? && power == PowerText(l.exponent)
    ensures fits <==> -0x8000_0000 <= Power(l) < 0x8000_0000
    ensures fits ==> exponent == Power(l)
  {
    PowerParsed(l);
    hide *;
    fits, exponent := false, 0;
    var parsed := IntegerOf(power);
    if parsed.Some? && -0x8000_0000 <= parsed.value < 0x8000_0000 { fits, exponent := true, parsed.value; }
  }

  /** The canonical text of a literal whose exponent fits 32 bits; any other
      literal unchanged. */
  method CanonicalizeNumber(literal: string, ghost l: Literal) returns (r: string)
    requires Valid(l) && literal == Text(l)
    ensures r == Snapshot(l)
  {
    ghost var all := l.whole + FractionDigits(l);
    PowerIs(l);
    CanonicalIs(l, all);
    SnapshotIs(l);
    hide *;
    var negative, s := ReadSign(literal, l);
    var fits, mantissa, exponent := ReadParts(s, l);
    if !fits { return literal; }
    var digits, places := ReadDigits(mantissa, l);
    if digits == "" || !AllDigits(digits) { return literal; }
    r := TrimNumber(negative, digits, exponent - places);
  }

  method ReadDigits(mantissa: string, ghost l: Literal) returns (digits: string, places: nat)
    requires Valid(l) && mantissa == Unsigned(l)
    ensures digits == l.whole + FractionDigits(l) && digits != "" && places == |FractionDigits(l)|
  {
    UnsignedChars(l);
    PowerIs(l);
    hide *;
    var whole, fraction := Before(mantissa, '.'), After(mantissa, '.');
    digits, places := whole + fraction, |fraction|;
  }

  /** The digits without zeros at either end; zero has one form. */
  method TrimNumber(negative: bool, digits: string, exponent: int) returns (r: string)
    requires digits != "" && AllDigits(digits)
    ensures var d := TrimLeft(digits);
            r == if d == "" then "0" else CanonicalText(negative, TrimRight(d), exponent + (|d| - |TrimRight(d)|))
  {
    LeadingZero(digits);
    NoLeadingZero(digits);
    hide *;
    var d := DropLeading(digits);
    var t, e := DropTrailing(d, exponent);
    if t == "0" { return "0"; }
    r := CanonicalText(negative, t, e);
  }

  lemma {:induction false} SnapshotIs(l: Literal)
    requires Valid(l)
    ensures Snapshot(l) == if -0x8000_0000 <= Power(l) < 0x8000_0000 then Canonical(l) else Text(l)
  {
  }

  lemma {:induction false} LeadingZero(all: string)
    ensures TrimLeft(all) != "" ==> TrimLeft(all)[0] != '0'
  {
    var zeros := TrimLeftIs(all);
  }

  lemma {:induction false} NoLeadingZero(all: string)
    requires all != "" && AllDigits(all)
    ensures TrimLeft(all) == "" ==> all[|all| - 1..] == "0"
  {
    var zeros := TrimLeftIs(all);
    if TrimLeft(all) == "" { assert zeros == all; }
  }

  /** A text can be read in one way. */
  lemma {:induction false} TextDenotes(a: Literal, b: Literal)
    requires Valid(a) && Valid(b) && Text(a) == Text(b)
    ensures Denoted(a) == Denoted(b)
  {
    TextIs(a);
    TextIs(b);
    DenotedParts(a);
    DenotedParts(b);
    hide *;
    SameUnsigned(a, b, Unsigned(a) + ExponentText(a.exponent));
  }

  lemma {:induction false} SameUnsigned(a: Literal, b: Literal, s: string)
    requires Valid(a) && Valid(b)
    requires s == Unsigned(a) + ExponentText(a.exponent) && s == Unsigned(b) + ExponentText(b.exponent)
    ensures a.whole == b.whole && FractionDigits(a) == FractionDigits(b) && Power(a) == Power(b)
  {
    hide *;
    CutsAtAny(a, s);
    CutsAtAny(b, s);
    UnsignedChars(a);
    UnsignedChars(b);
    PowerIs(a);
    PowerIs(b);
    if a.exponent.Some? {
      PowerParsed(a);
      PowerParsed(b);
    }
  }

  lemma {:induction false} LittleE(l: Literal)
    requires Valid(l)
    ensures 'e' in Unsigned(l) + ExponentText(l.exponent) ==> l.exponent.Some? && !l.exponent.value.upper
  {
    ExponentIs(l);
    UnsignedChars(l);
    PowerChars(l);
    hide Unsigned, PowerText, ExponentText;
  }

  lemma {:induction false} IntTextParsed(i: int)
    ensures IntegerOf(IntText(i)) == Some(i)
  {
    var n: nat := if i < 0 then -i else i;
    var d := Decimal(n);
    DecimalDigits(n);
    assert IntText(i) == if i < 0 then "-" + d else d;
    hide Decimal, Value, IntText;
    SignedParsed(i < 0, d);
  }

  lemma {:induction false} SignedParsed(negative: bool, d: string)
    requires AllDigits(d) && d != ""
    ensures IntegerOf(if negative then "-" + d else d) == Some(if negative then -(Value(d) as int) else Value(d))
  {
    assert ("-" + d)[1..] == d;
    hide Value;
  }

  lemma {:induction false} PointShows(l: Literal)
    requires Valid(l)
    ensures '.' !in Unsigned(l) ==> l.fraction == None && l.whole == Unsigned(l) && FractionDigits(l) == ""
  {
    if l.fraction.Some? { assert Unsigned(l)[|l.whole|] == '.'; }
  }

  lemma {:induction false} CanonicalTextIs(n: bool, s: string, e: int)
    requires Significant(s)
    ensures var t := CanonicalText(n, s, e);
            t != "" && (t[0] == '-' <==> n) && t[if n then 1 else 0..] == s + ['e'] + IntText(e)
  {
    hide IntText;
    var rest := s + ['e'] + IntText(e);
    assert rest[0] == s[0];
    SignRead(n, rest);
  }

  /** A literal that looks like a canonical text has its parts. */
  lemma {:induction false} PartsOfCanonical(l: Literal, n: bool, s: string, e: int)
    requires Valid(l) && Significant(s) && Text(l) == CanonicalText(n, s, e)
    ensures l.negative == n && l.fraction == None && l.whole == s && FractionDigits(l) == ""
    ensures l.exponent.Some? && !l.exponent.value.upper && PowerText(l.exponent) == IntText(e) && Power(l) == e
  {
    TextIs(l);
    ExponentIs(l);
    CanonicalTextIs(n, s, e);
    LittleE(l);
    UnsignedChars(l);
    DigitsHave(s, 'e');
    DigitsHave(s, '.');
    IntTextParsed(e);
    hide *;
    var rest := s + ['e'] + IntText(e);
    assert rest[|s|] == 'e';
    Sequences.Grouped(Unsigned(l), ['e'], PowerText(l.exponent));
    SplitAtFirst(Unsigned(l), PowerText(l.exponent), s, IntText(e), 'e');
    PowerParsed(l);
    PointShows(l);
  }

  /** It denotes what that stands for. */
  lemma {:induction false} ReadCanonical(l: Literal, n: bool, s: string, e: int)
    requires Valid(l) && Significant(s) && Text(l) == CanonicalText(n, s, e)
    ensures Denoted(l) == Number(Signed(n, Value(s)), e)
  {
    PartsOfCanonical(l, n, s, e);
    DenotedParts(l);
    hide *;
    Sequences.NothingAdded(s);
  }

  lemma {:induction false} DenotedParts(l: Literal)
    requires Valid(l)
    ensures AllDigits(l.whole + FractionDigits(l))
    ensures Denoted(l) == Number(Signed(l.negative, Value(l.whole + FractionDigits(l))), Power(l) - |FractionDigits(l)|)
  {
  }

  lemma {:induction false} ZeroFits(l: Literal)
    requires Valid(l) && Text(l) == "0"
    ensures Fits(l)
  {
    TextIs(l);
    assert Text(l)[0..] == Text(l);
    assert |Unsigned(l)| + |ExponentText(l.exponent)| == 1 && |Unsigned(l)| >= 1;
  }

  // ---- Where the two agree ----

  /** Without leading zeros; only 0 itself begins with one. */
  predicate ShortDigits(s: string) {
    s != "" && (s[0] != '0' || s == "0")
  }

  /** The literal is written as canonical texts are: 0, or significant digits, a
      small e and an exponent without a plus or leading zeros. */
  predicate SpelledCanonically(l: Literal) {
    || l == Literal(false, "0", None, None)
    || (&& l.whole != "" && l.whole[0] != '0' && l.whole[|l.whole| - 1] != '0' && l.fraction.None? && l.exponent.Some?
        && !l.exponent.value.upper && l.exponent.value.sign != "+" && ShortDigits(l.exponent.value.digits)
        && (l.exponent.value.digits == "0" ==> l.exponent.value.sign == ""))
  }

  /** Both canonicalizers give the literal one text: its exponent fits 32 bits,
      or it is canonical as it stands. */
  ghost predicate Plain(l: Literal)
    requires Valid(l)
  {
    Fits(l) || SpelledCanonically(l)
  }

  lemma {:induction false} ShortIsDecimal(s: string)
    requires AllDigits(s) && ShortDigits(s)
    ensures Decimal(Value(s)) == s
  {
    var n := Value(s);
    DecimalDigits(n);
    if s[0] != '0' {
      Positive(s);
      ValueInjective(Decimal(n), s);
    } else {
      assert s[..0] == "" && n == 0;
      assert Decimal(0) == "0";
    }
  }

  lemma {:induction false} DecimalIsShort(n: nat)
    ensures ShortDigits(Decimal(n)) && (Decimal(n) == "0" <==> n == 0)
  {
    DecimalDigits(n);
    if n == 0 { assert Decimal(0) == "0"; }
    if Decimal(n) == "0" { ZeroValue("0"); }
  }

  /** Sign and digits of an exponent spelled as IntText spells it. */
  lemma {:induction false} PowerSpelled(x: ExponentPart, e: int)
    requires x.sign in {"", "+", "-"} && AllDigits(x.digits) && x.digits != ""
    requires e == if x.sign == "-" then -(Value(x.digits) as int) else Value(x.digits)
    ensures IntText(e) == x.sign + x.digits <==>
              x.sign != "+" && ShortDigits(x.digits) && (x.digits == "0" ==> x.sign == "")
  {
    var n := Value(x.digits);
    DecimalDigits(n);
    DecimalIsShort(n);
    DigitsParsed(x.digits);
    DigitsParsed(Decimal(n));
    if ShortDigits(x.digits) { ShortIsDecimal(x.digits); }
    hide Value, Decimal, AllDigits;
    assert x.sign == "" ==> x.sign + x.digits == x.digits;
    assert x.sign == "-" ==> (x.sign + x.digits)[0] == '-' && (x.sign + x.digits)[1..] == x.digits;
    assert x.sign == "+" ==> (x.sign + x.digits)[0] == '+';
    assert ("-" + Decimal(n))[0] == '-' && ("-" + Decimal(n))[1..] == Decimal(n);
  }

  lemma {:induction false} NothingTrimmed(s: string)
    requires s != "" && s[0] != '0' && s[|s| - 1] != '0'
    ensures TrimLeft(s) == s && TrimRight(s) == s
  {
  }

  /** The text of a literal without a fraction, with a small e. */
  lemma {:induction false} TextWithE(l: Literal)
    requires Valid(l) && l.fraction.None? && l.exponent.Some? && !l.exponent.value.upper
    ensures Text(l) == SignText(l.negative) + (l.whole + "e" + PowerText(l.exponent))
    ensures FractionDigits(l) == "" && l.whole + FractionDigits(l) == l.whole
  {
    assert l.whole + FractionText(l.fraction) == l.whole;
    Sequences.Grouped(l.whole, "e", PowerText(l.exponent));
  }

  lemma {:induction false} SpelledIsCanonical(l: Literal)
    requires Valid(l) && SpelledCanonically(l)
    ensures Text(l) == Canonical(l)
  {
    if l == Literal(false, "0", None, None) {
      assert l.whole + FractionDigits(l) == "0" && TrimLeft("0") == TrimLeft("");
      assert Text(l) == "0";
    } else {
      var x := l.exponent.value;
      TextWithE(l);
      PowerSpelled(x, Power(l));
      NothingTrimmed(l.whole);
      CanonicalIs(l, l.whole);
      hide Canonical, Text, IntText, TrimLeft, TrimRight, ShortDigits;
    }
  }

  lemma {:induction false} ZeroIsSpelled(l: Literal)
    requires Valid(l) && Text(l) == "0"
    ensures l == Literal(false, "0", None, None)
  {
    TextIs(l);
    assert Text(l)[0..] == Text(l);
    assert |Unsigned(l)| + |ExponentText(l.exponent)| == 1 && |Unsigned(l)| >= 1;
    assert Unsigned(l) + ExponentText(l.exponent) == "0";
    assert l.exponent.None? && l.fraction.None?;
    assert l.whole == Unsigned(l) == "0";
  }

  /** Where a literal's text is canonical, so are its parts. */
  lemma {:induction false} CanonicalIsSpelled(l: Literal)
    requires Valid(l) && Text(l) == Canonical(l)
    ensures SpelledCanonically(l)
  {
    var s, k := Parts(l);
    if Canonical(l) == "0" {
      ZeroIsSpelled(l);
    } else {
      var e := Denoted(l).exponent + k;
      PartsOfCanonical(l, l.negative, s, e);
      PowerOf(l);
      PowerSpelled(l.exponent.value, Power(l));
    }
    hide Canonical, Text, Denoted, IntText, Power;
  }

  lemma {:induction false} PowerOf(l: Literal)
    requires Valid(l) && l.exponent.Some?
    ensures var x := l.exponent.value;
            && Power(l) == (if x.sign == "-" then -(Value(x.digits) as int) else Value(x.digits))
            && x.sign in {"", "+", "-"} && AllDigits(x.digits) && x.digits != ""
  {
  }

  /** A literal's text is canonical exactly when it is spelled so. */
  lemma {:induction false} SpelledIffCanonical(l: Literal)
    requires Valid(l)
    ensures SpelledCanonically(l) <==> Text(l) == Canonical(l)
  {
    if SpelledCanonically(l) { SpelledIsCanonical(l); }
    if Text(l) == Canonical(l) { CanonicalIsSpelled(l); }
    hide Canonical, Text;
  }

  /** Both canonicalizers on one literal: they give one text exactly when the
      exponent fits 32 bits or the literal is spelled canonically. */
  method CanonicalizeBothWays(literal: string, ghost l: Literal) returns (same: bool)
    requires Valid(l) && literal == Text(l)
    ensures same <==> Fits(l) || SpelledCanonically(l)
  {
    SpelledIffCanonical(l);
    hide Canonical, Text, Power, SpelledCanonically;
    var json := CanonicalJSONNumber(literal, l);
    var snapshot := CanonicalizeNumber(literal, l);
    same := json == snapshot;
  }

  lemma {:induction false} CanonicalizersAgree(l: Literal)
    requires Valid(l)
    ensures Snapshot(l) == if Plain(l) then Canonical(l) else Text(l)
    ensures Plain(l) <==> Snapshot(l) == Canonical(l)
  {
    SpelledIffCanonical(l);
    hide Canonical, Text, Power, SpelledCanonically;
  }

  /** A literal that is not plain has a text no canonical one equals. */
  lemma {:induction false} NeverCanonical(a: Literal, b: Literal)
    requires Valid(a) && Valid(b) && !Plain(b)
    ensures Canonical(a) != Text(b)
  {
    CanonicalizersAgree(b);
    SpelledIffCanonical(b);
    assert !Fits(b) && Text(b) != Canonical(b);
    hide Plain, SpelledCanonically, Snapshot, Text, Canonical, Fits;
    if Canonical(a) == Text(b) { CanonicalTwice(a, b); }
  }

  /** A literal that looks like another's canonical text has that text itself. */
  lemma {:induction false} CanonicalTwice(a: Literal, b: Literal)
    requires Valid(a) && Valid(b) && Canonical(a) == Text(b)
    ensures Canonical(b) == Text(b) || Fits(b)
  {
    var s, k := Parts(a);
    if Denoted(a).mantissa == 0 {
      ZeroFits(b);
    } else {
      var x := Denoted(a);
      ReadCanonical(b, a.negative, s, x.exponent + k);
      SignificantFacts(s);
      var m := Signed(a.negative, Value(s));
      SameParts(x, m, k, Denoted(b), m, 0);
      Unscaled(m);
      CanonicalIffSame(a, b);
    }
    hide *;
  }

  /** Snapshot texts are equal when both literals are plain and denote the same
      number, or neither is and they are the same literal. */
  lemma {:induction false} SnapshotIffSame(a: Literal, b: Literal)
    requires Valid(a) && Valid(b)
    ensures Snapshot(a) == Snapshot(b) <==>
              if Plain(a) && Plain(b) then SameNumber(Denoted(a), Denoted(b))
                else !Plain(a) && !Plain(b) && Text(a) == Text(b)
    ensures Snapshot(a) == Snapshot(b) ==> SameNumber(Denoted(a), Denoted(b))
  {
    CanonicalIffSame(a, b);
    CanonicalizersAgree(a);
    CanonicalizersAgree(b);
    hide Plain, Snapshot, Canonical, Text, Denoted, Power, Scale;
    if !Plain(b) { NeverCanonical(a, b); }
    if !Plain(a) { NeverCanonical(b, a); }
    if Text(a) == Text(b) { TextDenotes(a, b); }
    Unscaled(Denoted(b).mantissa);
  }

  /** Two spellings of one number that snapshots hold to be different. */
  lemma {:induction false} HugeExponents() returns (a: Literal, b: Literal)
    ensures Valid(a) && Valid(b) && Text(a) == "1e10000000000" && Text(b) == "1E10000000000"
    ensures SameNumber(Denoted(a), Denoted(b)) && Snapshot(a) != Snapshot(b)
  {
    var power := "10000000000";
    a := Literal(false, "1", None, Some(ExponentPart(false, "", power)));
    b := a.(exponent := Some(ExponentPart(true, "", power)));
    assert Valid(a) && Valid(b);
    DenotedParts(a);
    DenotedParts(b);
    HugePower(a, power);
    HugePower(b, power);
    Spelled(a, b);
    Unscaled(Denoted(a).mantissa);
    hide Value, Canonical, Denoted, Power, Scale, Text;
  }

  lemma {:induction false} Spelled(a: Literal, b: Literal)
    requires a == Literal(false, "1", None, Some(ExponentPart(false, "", "10000000000")))
    requires b == a.(exponent := Some(ExponentPart(true, "", "10000000000")))
    ensures Text(a) == "1e10000000000" && Text(b) == "1E10000000000" && Text(a) != Text(b)
  {
    assert Text(a) == "1e10000000000" && Text(b) == "1E10000000000";
    assert Text(a)[1] != Text(b)[1];
  }

  lemma {:induction false} HugePower(l: Literal, power: string)
    requires Valid(l) && l.exponent.Some? && l.exponent.value.sign == "" && l.exponent.value.digits == power
    requires AllDigits(power) && |power| == 11 && power[0] != '0'
    ensures Power(l) == Value(power) && !Fits(l)
  {
    HugeValue(power);
    hide Value;
  }

  lemma {:induction false} HugeValue(s: string)
    requires AllDigits(s) && |s| == 11 && s[0] != '0'
    ensures Value(s) >= 10_000_000_000
  {
    Positive(s);
    PowSum(5, 5);
    assert Pow10(5) == 10 * Pow10(4) && Pow10(4) == 10 * Pow10(3) && Pow10(3) == 10 * Pow10(2) &&
              Pow10(2) == 10 * Pow10(1);
    hide Value;
  }
}
