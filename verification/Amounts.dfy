/**
 Printing minor units as the decimal text that Cashfree gets, and the two parsers that read
 such text back: the service's, with decimal arithmetic of 28 digits, and the gateway's.
 */
module Amounts {
  import opened Identifiers
  import opened Monetary
  import opened Digits

  /** The default decimal context keeps 28 digits. */
  const PRECISION: nat := 28

  const PHP_MAX: nat := 0x7fff_ffff_ffff_ffff

  /** `str(Decimal(n) / Decimal(100))`, exact below 28 digits: trailing zeros are dropped. */
  function PrintAmount(n: nat): string {
    if n % 100 == 0 then Show(n / 100)
    else if n % 10 == 0 then Show(n / 100) + "." + [DigitChar(n / 10 % 10)]
    else Show(n / 100) + "." + [DigitChar(n / 10 % 10), DigitChar(n % 10)]
  }

  // ---------------------------------------------------------------- the service's parser

  /** Plain decimal notation: the sign, and the digits before and after the point. */
  datatype Notation = Notation(negative: bool, whole: string, fraction: Option<string>)

  function PointAt(s: string): (i: nat)
    ensures i <= |s| && (i < |s| ==> s[i] == '.') && forall j :: 0 <= j < i ==> s[j] != '.'
  {
    if s == "" || s[0] == '.' then 0 else 1 + PointAt(s[1..])
  }

  function Fraction(s: string): Option<string> {
    if PointAt(s) < |s| then Some(s[PointAt(s) + 1..]) else None
  }

  function FractionDigits(f: Option<string>): string { if f.Some? then f.value else "" }

  predicate Signed(s: string) { s != "" && (s[0] == '-' || s[0] == '+') }

  function Unsigned(s: string): string { if Signed(s) then s[1..] else s }

  function ReadPlain(s: string): (r: Option<Notation>)
    ensures r.Some? ==> AllDigits(r.value.whole) && AllDigits(FractionDigits(r.value.fraction))
  {
    var t := Strip(s);
    var u := Unsigned(t);
    var whole, fraction := u[..PointAt(u)], Fraction(u);
    if AllDigits(whole) && AllDigits(FractionDigits(fraction)) && |whole + FractionDigits(fraction)| > 0
    then Some(Notation(t != "" && t[0] == '-', whole, fraction)) else None
  }

  function Coefficient(p: Notation): nat
    requires AllDigits(p.whole) && AllDigits(FractionDigits(p.fraction))
  {
    assert AllDigits(p.whole + FractionDigits(p.fraction));
    Value(p.whole + FractionDigits(p.fraction))
  }

  /** `x / unit`, a half rounded up. */
  function HalfUp(x: nat, unit: nat): nat
    requires unit > 0
  {
    (2 * x + unit) / (2 * unit)
  }

  /** A hundred times `c / 10^k`, with a half rounded up. */
  function MinorUnits(c: nat, k: nat): nat {
    if k == 0 then 100 * c else if k == 1 then 10 * c else if k == 2 then c else HalfUp(c, Pow10(k - 2))
  }

  /** `Beyond` marks texts whose digits exceed the 28 that decimal arithmetic keeps. */
  datatype Parsed = Minor(n: nat) | Invalid | Beyond

  function ToMinor(p: Notation): Parsed
    requires AllDigits(p.whole) && AllDigits(FractionDigits(p.fraction))
  {
    var c := Coefficient(p);
    if c >= Pow10(PRECISION) then Beyond
    else if MinorUnits(c, |FractionDigits(p.fraction)|) >= Pow10(PRECISION) then Invalid
    else Minor(MinorUnits(c, |FractionDigits(p.fraction)|))
  }

  /** A webhook's amount: a negative one is refused before it is rounded. */
  function ParseWebhookAmount(s: string): Parsed {
    match ReadPlain(s)
    case None => Invalid
    case Some(p) => if p.negative && Coefficient(p) > 0 then Invalid else ToMinor(p)
  }

  /** A fetched order's amount: rounded first, then refused if negative. */
  function ParseOrderAmount(s: string): Parsed {
    match ReadPlain(s)
    case None => Invalid
    case Some(p) =>
      var parsed := ToMinor(p);
      if p.negative && parsed.Minor? && parsed.n > 0 then Invalid else parsed
  }

  // ---------------------------------------------------------------- the gateway's parser

  /** What PHP's `trim` removes: NUL as well, but no form feed and no separators. */
  predicate PhpBlank(c: char) { c as int == 0 || 9 <= c as int <= 11 || c as int == 13 || c as int == 32 }

  function PhpTrimLeft(s: string): string {
    if s != [] && PhpBlank(s[0]) then PhpTrimLeft(s[1..]) else s
  }

  function PhpTrimRight(s: string): string {
    if s != [] && PhpBlank(s[|s| - 1]) then PhpTrimRight(s[..|s| - 1]) else s
  }

  function PhpTrim(s: string): string { PhpTrimRight(PhpTrimLeft(s)) }

  /** `str_pad($fraction, 2, '0')`. */
  function PadRight(s: string): string
    decreases 2 - |s|
  {
    if |s| >= 2 then s else PadRight(s + "0")
  }

  /** `^(\d+)(?:\.(\d{1,2}))?$` */
  predicate PhpShape(t: string) {
    var fraction := Fraction(t);
    && PointAt(t) > 0 && AllDigits(t[..PointAt(t)])
    && (fraction.Some? ==> 1 <= |fraction.value| <= 2 && AllDigits(fraction.value))
  }

  lemma {:induction false} PadKeepsDigits(s: string)
    requires AllDigits(s)
    ensures AllDigits(PadRight(s)) && (|s| <= 2 ==> |PadRight(s)| == 2)
    decreases 2 - |s|
  {
    if |s| < 2 {
      PadKeepsDigits(s + "0");
    }
  }

  /** `decimalToMinor`; beyond the largest integer the arithmetic leaves the integers. */
  function ParsePhp(s: string): Parsed {
    var t := PhpTrim(s);
    if !PhpShape(t) then Invalid
    else
      var fraction := FractionDigits(Fraction(t));
      PadKeepsDigits(fraction);
      var n := Value(t[..PointAt(t)]) * 100 + Value(PadRight(fraction));
      if n > PHP_MAX then Beyond else Minor(n)
  }

  // ---------------------------------------------------------------- printing, then parsing

  lemma {:induction false} ValueOfDigit(c: char)
    requires IsDigit(c)
    ensures AllDigits([c]) && Value([c]) == DigitValue(c)
  {
    assert [c][..0] == [];
  }

  lemma ValueOfTwo(a: char, b: char)
    requires IsDigit(a) && IsDigit(b)
    ensures AllDigits([a, b]) && Value([a, b]) == 10 * DigitValue(a) + DigitValue(b)
  {
    assert [a, b][..1] == [a];
    ValueOfDigit(a);
  }

  lemma {:induction false} NoPoint(s: string, rest: string)
    requires AllDigits(s) && (rest == "" || rest[0] == '.')
    ensures PointAt(s + rest) == |s|
  {
    if s != "" {
      assert (s + rest)[1..] == s[1..] + rest;
      assert IsDigit(s[0]);
      NoPoint(s[1..], rest);
    } else {
      assert s + rest == rest;
    }
  }

  lemma PlainStaysPlain(s: string)
    requires s != "" && !IsBlank(s[0]) && !IsBlank(s[|s| - 1])
    ensures Strip(s) == s
  {
    assert StripLeft(s) == s;
  }

  lemma PlainStaysTrimmed(s: string)
    requires s != "" && !PhpBlank(s[0]) && !PhpBlank(s[|s| - 1])
    ensures PhpTrim(s) == s
  {
    assert PhpTrimLeft(s) == s;
  }

  /** Text of digits, or of digits, a point and digits, reads back as these digits. */
  lemma ReadsDigits(whole: string, fraction: Option<string>)
    requires whole != "" && AllDigits(whole) && (fraction.Some? ==> fraction.value != "" && AllDigits(fraction.value))
    ensures ReadPlain(whole + if fraction.Some? then "." + fraction.value else "") == Some(Notation(false, whole, fraction))
  {
    hide ReadPlain, AllDigits, PointAt;
    var rest := if fraction.Some? then "." + fraction.value else "";
    var s := whole + rest;
    DigitsAtBothEnds(whole);
    NoPoint(whole, rest);
    assert s[..|whole|] == whole;
    if fraction.Some? {
      DigitsAtBothEnds(fraction.value);
      assert s[|s| - 1] == fraction.value[|fraction.value| - 1];
      assert s[|whole| + 1..] == fraction.value;
    } else {
      assert s == whole;
      NoughtsAreZero();
    }
    ReadsUnsigned(s);
  }

  lemma DigitsAtBothEnds(s: string)
    requires s != "" && AllDigits(s)
    ensures IsDigit(s[0]) && IsDigit(s[|s| - 1])
  {
  }

  lemma ReadsUnsigned(s: string)
    requires s != "" && IsDigit(s[0]) && IsDigit(s[|s| - 1])
    requires PointAt(s) > 0 && AllDigits(s[..PointAt(s)]) && AllDigits(FractionDigits(Fraction(s)))
    ensures ReadPlain(s) == Some(Notation(false, s[..PointAt(s)], Fraction(s)))
  {
    hide Strip, AllDigits, PointAt, Fraction;
    PlainStaysPlain(s);
  }

  lemma ConcatValue(whole: string, fraction: string)
    requires AllDigits(whole) && AllDigits(fraction)
    ensures AllDigits(whole + fraction) && Value(whole + fraction) == Value(whole) * Pow10(|fraction|) + Value(fraction)
  {
    ValueConcat(whole, fraction);
  }

  lemma SmallPowers()
    ensures Pow10(0) == 1 && Pow10(1) == 10 && Pow10(2) == 100
  {
  }

  /** Digits, or digits and one or two more after a point, are read as their hundredths. */
  lemma ReadsAmount(text: string, whole: string, fraction: Option<string>, n: nat)
    requires whole != "" && AllDigits(whole) && (fraction.Some? ==> 1 <= |fraction.value| <= 2 && AllDigits(fraction.value))
    requires text == whole + if fraction.Some? then "." + fraction.value else ""
    requires n == MinorUnits(Value(whole) * Pow10(|FractionDigits(fraction)|) + Value(FractionDigits(fraction)), |FractionDigits(fraction)|)
    requires n < Pow10(PRECISION)
    ensures ParseWebhookAmount(text) == Minor(n) && ParseOrderAmount(text) == Minor(n)
  {
    hide ReadPlain, Value, Pow10, HalfUp, DigitValue;
    ReadsDigits(whole, fraction);
    ConcatValue(whole, FractionDigits(fraction));
  }

  /** Parsing the printed order amount gives the same minor units, for every amount in precision. */
  lemma PrintThenParse(n: nat)
    requires n < Pow10(PRECISION)
    ensures ParseWebhookAmount(PrintAmount(n)) == Minor(n) && ParseOrderAmount(PrintAmount(n)) == Minor(n)
  {
    hide ParseWebhookAmount, ParseOrderAmount, Value, Show, Pow10, DigitValue, HalfUp;
    var q, d, e := n / 100, n / 10 % 10, n % 10;
    Hundredths(n);
    ShowThenValue(q);
    SmallPowers();
    if e == 0 && d == 0 {
      NoDigits();
      assert Show(q) + "" == Show(q);
      ReadsAmount(PrintAmount(n), Show(q), None, n);
    } else if e == 0 {
      ValueOfDigit(DigitChar(d));
      ReadsAmount(PrintAmount(n), Show(q), Some([DigitChar(d)]), n);
    } else {
      ValueOfTwo(DigitChar(d), DigitChar(e));
      ReadsAmount(PrintAmount(n), Show(q), Some([DigitChar(d), DigitChar(e)]), n);
    }
  }

  lemma Hundredths(n: nat)
    ensures n == 100 * (n / 100) + 10 * (n / 10 % 10) + n % 10
    ensures n % 100 == 0 <==> n / 10 % 10 == 0 && n % 10 == 0
  {
  }

  lemma NoDigits()
    ensures Value("") == 0
  {
  }

  // ---------------------------------------------------------------- the two languages

  /** The characters of a number: no blanks in either language. */
  predicate Solid(c: char) { IsDigit(c) || c == '.' || c == '+' || c == '-' }

  lemma {:induction false} SameLeft(s: string)
    requires StripLeft(s) != [] && Solid(StripLeft(s)[0]) && PhpTrimLeft(s) != [] && Solid(PhpTrimLeft(s)[0])
    ensures StripLeft(s) == PhpTrimLeft(s)
  {
    if s != [] && IsBlank(s[0]) {
      SameLeft(s[1..]);
    }
  }

  lemma {:induction false} SameRight(s: string)
    requires StripRight(s) != [] && Solid(StripRight(s)[|StripRight(s)| - 1])
    requires PhpTrimRight(s) != [] && Solid(PhpTrimRight(s)[|PhpTrimRight(s)| - 1])
    ensures StripRight(s) == PhpTrimRight(s)
  {
    if s != [] && IsBlank(s[|s| - 1]) {
      SameRight(s[..|s| - 1]);
    }
  }

  lemma {:induction false} RightKeepsFirst(s: string)
    ensures StripRight(s) == [] || (s != [] && StripRight(s)[0] == s[0])
    ensures PhpTrimRight(s) == [] || (s != [] && PhpTrimRight(s)[0] == s[0])
  {
    if s != [] {
      RightKeepsFirst(s[..|s| - 1]);
    }
  }

  /** Text that is a number to both languages is trimmed to the same text by both. */
  lemma SameTrim(s: string)
    requires Strip(s) != [] && Solid(Strip(s)[0]) && Solid(Strip(s)[|Strip(s)| - 1])
    requires PhpTrim(s) != [] && Solid(PhpTrim(s)[0]) && Solid(PhpTrim(s)[|PhpTrim(s)| - 1])
    ensures Strip(s) == PhpTrim(s)
  {
    RightKeepsFirst(StripLeft(s));
    RightKeepsFirst(PhpTrimLeft(s));
    SameLeft(s);
    SameRight(StripLeft(s));
  }

  lemma ShapeIsSolid(t: string)
    requires PhpShape(t)
    ensures t != [] && Solid(t[0]) && Solid(t[|t| - 1])
  {
    assert t[0] == t[..PointAt(t)][0];
    if Fraction(t).Some? {
      var f := Fraction(t).value;
      assert t[|t| - 1] == f[|f| - 1];
    } else {
      assert t[|t| - 1] == t[..PointAt(t)][|t| - 1];
    }
  }

  lemma ReadIsSolid(s: string)
    requires ReadPlain(s).Some?
    ensures Strip(s) != [] && Solid(Strip(s)[0]) && Solid(Strip(s)[|Strip(s)| - 1])
  {
    hide Strip;
    var t := Strip(s);
    var u := Unsigned(t);
    var p := ReadPlain(s).value;
    if u != [] {
      UnsignedIsSolid(u);
    }
    assert |t| >= |u| && (u != [] ==> t[|t| - 1] == u[|u| - 1]);
  }

  lemma PointIsSolid()
    ensures Solid('.')
  {
  }

  lemma DigitsAreSolid(s: string)
    requires AllDigits(s)
    ensures forall i :: 0 <= i < |s| ==> Solid(s[i])
  {
  }

  lemma UnsignedIsSolid(u: string)
    requires u != [] && AllDigits(u[..PointAt(u)]) && AllDigits(FractionDigits(Fraction(u)))
    ensures Solid(u[0]) && Solid(u[|u| - 1])
  {
    hide AllDigits, Solid, PointAt;
    var i := PointAt(u);
    SolidAround(u, i);
  }

  lemma SolidAround(u: string, i: nat)
    requires u != [] && i <= |u| && AllDigits(u[..i])
    requires i < |u| ==> u[i] == '.' && AllDigits(u[i + 1..])
    ensures Solid(u[0]) && Solid(u[|u| - 1])
  {
    hide AllDigits, Solid;
    PointIsSolid();
    DigitsAreSolid(u[..i]);
    assert i > 0 ==> u[0] == u[..i][0];
    if i == |u| {
      assert u[|u| - 1] == u[..i][i - 1];
    } else {
      DigitsAreSolid(u[i + 1..]);
      assert i < |u| - 1 ==> u[|u| - 1] == u[i + 1..][|u| - i - 2];
    }
  }

  /** What the gateway reads, the service reads as the same amount, if both trim it to the same text. */
  lemma PhpIsPython(s: string)
    requires PhpShape(PhpTrim(s)) && Strip(s) == PhpTrim(s)
    ensures
      var t := PhpTrim(s);
      var p := Notation(false, t[..PointAt(t)], Fraction(t));
      && ReadPlain(s) == Some(p)
      && MinorUnits(Coefficient(p), |FractionDigits(p.fraction)|)
         == Value(p.whole) * 100 + (PadKeepsDigits(FractionDigits(p.fraction)); Value(PadRight(FractionDigits(p.fraction))))
  {
    hide Value, Pow10, Strip, PhpTrim;
    var t := PhpTrim(s);
    assert IsDigit(t[0]);
    var whole, f := t[..PointAt(t)], FractionDigits(Fraction(t));
    PadKeepsDigits(f);
    ConcatValue(whole, f);
    SmallPowers();
    PaddedValue(f);
    if |f| == 1 {
      assert (Value(whole) * 10 + Value(f)) * 10 == Value(whole) * 100 + Value(f) * 10;
    } else if |f| == 0 {
      assert whole + f == whole;
    }
  }

  lemma PaddedValue(f: string)
    requires AllDigits(f) && |f| <= 2
    ensures AllDigits(PadRight(f)) && Value(PadRight(f)) == Value(f) * Pow10(2 - |f|)
  {
    hide Pow10, Value, AllDigits;
    PadKeepsDigits(f);
    SmallPowers();
    if |f| == 1 {
      assert PadRight(f) == f + "0";
      AppendedZero(f);
    } else if |f| == 0 {
      assert f == "";
      assert PadRight("") == PadRight("0") == "00";
      NoughtsAreZero();
    }
  }

  lemma AppendedZero(f: string)
    requires AllDigits(f)
    ensures AllDigits(f + "0") && Value(f + "0") == Value(f) * 10
  {
    assert (f + "0")[..|f|] == f;
  }

  lemma NoughtsAreZero()
    ensures AllDigits("00") && Value("00") == 0 && AllDigits("") && Value("") == 0
  {
    ValueOfTwo('0', '0');
    assert ['0', '0'] == "00";
  }

  /**
   The parsers agree exactly on the gateway's shape: digits, and at most two after a point, with
   the blanks around it that the gateway trims.  Other text that the service accepts, the gateway
   refuses.
   */
  lemma ParsersAgreeIffPhpShape(s: string)
    requires ParseWebhookAmount(s).Minor? && ParseWebhookAmount(s).n <= PHP_MAX
    ensures ParsePhp(s) == ParseWebhookAmount(s) <==> PhpShape(PhpTrim(s))
  {
    hide Value, Pow10, PhpShape, MinorUnits, Strip, PhpTrim;
    if PhpShape(PhpTrim(s)) {
      ShapeIsSolid(PhpTrim(s));
      ReadIsSolid(s);
      SameTrim(s);
      PhpIsPython(s);
    }
  }

  /** Texts on which they differ: more than two fraction digits, no whole part, a sign. */
  lemma ParsersDisagree()
    ensures ParseWebhookAmount("1.005") == Minor(101) && ParsePhp("1.005") == Invalid
    ensures ParseWebhookAmount(".5") == Minor(50) && ParsePhp(".5") == Invalid
    ensures ParseWebhookAmount("+1") == Minor(100) && ParsePhp("+1") == Invalid
    ensures ParseWebhookAmount(['1', 0 as char]) == Invalid && ParsePhp(['1', 0 as char]) == Minor(100)
  {
    ThreeDigits();
    NoWholePart();
    WithSign();
    WithNul();
  }

  lemma WithNul()
    ensures ParseWebhookAmount(['1', 0 as char]) == Invalid && ParsePhp(['1', 0 as char]) == Minor(100)
  {
    hide Value;
    var s := ['1', 0 as char];
    PlainStaysPlain(s);
    assert PointAt(s[1..]) == 1 && PointAt(s) == 2 && s[..2] == s && !IsDigit(s[1]);
    TrimsNul();
    assert PointAt("1") == 1 && "1"[..1] == "1";
    SmallValues();
    assert PadRight("") == PadRight("0") == "00";
    assert AllDigits("00");
    ValueOfTwo('0', '0');
    assert ['0', '0'] == "00";
  }

  lemma TrimsNul()
    ensures PhpTrim(['1', 0 as char]) == "1"
  {
    var s := ['1', 0 as char];
    assert PhpTrimLeft(s) == s;
    assert s[..1] == "1";
    assert PhpTrimRight("1") == "1";
    assert PhpTrimRight(s) == PhpTrimRight(s[..1]);
  }

  lemma SmallValues()
    ensures AllDigits("1") && Value("1") == 1 && AllDigits("5") && Value("5") == 5
    ensures AllDigits("1005") && Value("1005") == 1005
  {
    ValueOfDigit('1');
    ValueOfDigit('5');
    assert "1005"[..3] == "100" && "100"[..2] == "10" && "10"[..1] == "1";
  }

  lemma ThreeDigits()
    ensures ParseWebhookAmount("1.005") == Minor(101) && ParsePhp("1.005") == Invalid
  {
    hide ParseWebhookAmount, ReadPlain, Value, Pow10;
    assert "1" + ("." + "005") == "1.005" && "1" + "005" == "1005";
    assert AllDigits("1") && AllDigits("005");
    ReadsDigits("1", Some("005"));
    SmallValues();
    ThousandRounds();
    ReadAs("1.005", Notation(false, "1", Some("005")), 1005, 3, 101);
    NoShapeWithThree();
  }

  lemma ThousandRounds()
    ensures MinorUnits(1005, 3) == 101
  {
    hide Pow10;
    SmallPowers();
    assert HalfUp(1005, 10) == 101;
  }

  lemma NoShapeWithThree()
    ensures !PhpShape(PhpTrim("1.005"))
  {
    PlainStaysTrimmed("1.005");
    assert "1" + ".005" == "1.005";
    NoPoint("1", ".005");
    assert "1.005"[2..] == "005";
  }

  lemma NoWholePart()
    ensures ParseWebhookAmount(".5") == Minor(50) && ParsePhp(".5") == Invalid
  {
    hide Value, Pow10;
    PlainStaysPlain(".5");
    PlainStaysTrimmed(".5");
    assert PointAt(".5") == 0 && ".5"[1..] == "5" && ".5"[..0] == "";
    assert AllDigits("") && AllDigits("5") && "" + "5" == "5";
    SmallValues();
    assert ReadPlain(".5") == Some(Notation(false, "", Some("5")));
    ReadAs(".5", Notation(false, "", Some("5")), 5, 1, 50);
  }

  lemma WithSign()
    ensures ParseWebhookAmount("+1") == Minor(100) && ParsePhp("+1") == Invalid
  {
    hide Value, Pow10;
    PlainStaysPlain("+1");
    PlainStaysTrimmed("+1");
    assert "+1"[1..] == "1" && PointAt("1") == 1 && "1"[..1] == "1";
    assert AllDigits("1") && "1" + "" == "1";
    SmallValues();
    assert ReadPlain("+1") == Some(Notation(false, "1", None));
    ReadAs("+1", Notation(false, "1", None), 1, 0, 100);
    assert PointAt("+1") == 2 && "+1"[..2] == "+1" && !IsDigit("+1"[0]);
  }

  lemma ReadAs(s: string, p: Notation, c: nat, k: nat, n: nat)
    requires ReadPlain(s) == Some(p) && !p.negative && k == |FractionDigits(p.fraction)| && k <= 3
    requires AllDigits(p.whole) && AllDigits(FractionDigits(p.fraction))
    requires Coefficient(p) == c && c < 10000 && n == MinorUnits(c, k)
    ensures ParseWebhookAmount(s) == Minor(n)
  {
    hide ReadPlain, Value, Pow10, MinorUnits, Coefficient;
    LargePower();
    SmallAmount(c, k);
  }

  lemma SmallAmount(c: nat, k: nat)
    requires k <= 3
    ensures MinorUnits(c, k) <= 100 * c
  {
    hide Pow10;
    SmallPowers();
  }

  /**
   Text that the gateway reads the service reads exactly when both trim it to the same text, which
   a NUL around it prevents; it is then the same amount, if it is in precision.
   */
  lemma PhpAmountIsPythonAmount(s: string)
    requires ParsePhp(s).Minor?
    ensures ParseWebhookAmount(s) == ParsePhp(s) || ParseWebhookAmount(s) == Beyond || ParseWebhookAmount(s) == Invalid
    ensures ReadPlain(s).Some? <==> Strip(s) == PhpTrim(s)
    ensures ReadPlain(s).Some? && Coefficient(ReadPlain(s).value) < Pow10(PRECISION) ==> ParseWebhookAmount(s) == ParsePhp(s)
  {
    hide Value, PhpShape, MinorUnits, Strip, PhpTrim, ReadPlain, Pow10, Coefficient;
    LargePower();
    ReadIffSameTrim(s);
    if Strip(s) == PhpTrim(s) {
      PhpIsPython(s);
    }
  }

  lemma ReadIffSameTrim(s: string)
    requires PhpShape(PhpTrim(s))
    ensures ReadPlain(s).Some? <==> Strip(s) == PhpTrim(s)
  {
    hide PhpShape, Strip, PhpTrim, ReadPlain;
    if ReadPlain(s).Some? {
      ShapeIsSolid(PhpTrim(s));
      ReadIsSolid(s);
      SameTrim(s);
    }
    if Strip(s) == PhpTrim(s) {
      PhpIsPython(s);
    }
  }

  lemma LargePower()
    ensures Pow10(PRECISION) > PHP_MAX
  {
    SmallPowers();
    assert Pow10(4) == 10000 && Pow10(8) == 1_0000_0000 && Pow10(12) == 1_0000_0000_0000;
    assert Pow10(16) == 1_0000_0000_0000_0000 && Pow10(20) == 1_0000_0000_0000_0000_0000;
    PowersGrow(20, 28);
  }

  lemma {:induction false} PowersGrow(j: nat, k: nat)
    requires j <= k
    ensures Pow10(j) <= Pow10(k)
  {
    if j < k {
      PowersGrow(j, k - 1);
    }
  }

  /** The service's own two parsers differ only on negative amounts that round to zero. */
  lemma OwnParsersDifferOnVanishingNegatives(s: string)
    ensures ParseWebhookAmount(s) != ParseOrderAmount(s) <==>
      var p := ReadPlain(s);
      p.Some? && p.value.negative && Coefficient(p.value) > 0 && (ToMinor(p.value) == Minor(0) || ToMinor(p.value) == Beyond)
  {
    hide ReadPlain, MinorUnits, Pow10;
    var p := ReadPlain(s);
    if p.Some? {
      ZeroStaysZero(|FractionDigits(p.value.fraction)|);
    }
  }

  lemma ZeroStaysZero(k: nat)
    ensures MinorUnits(0, k) == 0
  {
    hide Pow10;
    if k > 2 {
      HalfOfUnit(Pow10(k - 2));
    }
  }

  lemma HalfOfUnit(unit: nat)
    requires unit > 0
    ensures HalfUp(0, unit) == 0
  {
  }

  /** Rounding a half up: the result is within half a unit, the half itself going up. */
  lemma RoundsHalfUp(c: nat, k: nat)
    requires k > 2
    ensures
      var n, unit := MinorUnits(c, k), Pow10(k - 2);
      2 * c < (2 * n + 1) * unit && (2 * n - 1) * unit <= 2 * c
  {
    var unit := Pow10(k - 2);
    var n := (2 * c + unit) / (2 * unit);
    assert n * (2 * unit) <= 2 * c + unit < (n + 1) * (2 * unit);
    assert (2 * n + 1) * unit == n * (2 * unit) + unit;
    assert (2 * n - 1) * unit == n * (2 * unit) - unit;
    assert (n + 1) * (2 * unit) == n * (2 * unit) + 2 * unit;
  }
}
