/** Parsing of the decimal strings the order API uses for prices
    (`str::parse::<f64>` at rust/src/main.rs:94 and :105), read as exact reals. */
module Decimal {
  import opened Orders

  predicate IsDigit(c: char) { '0' <= c <= '9' }

  predicate AllDigits(s: string) { forall i :: 0 <= i < |s| ==> IsDigit(s[i]) }

  function DigitOf(c: char): nat
    requires IsDigit(c)
  {
    c as int - '0' as int
  }

  function Pow10(k: nat): (r: nat)
    ensures r >= 1
  {
    if k == 0 then 1 else 10 * Pow10(k - 1)
  }

  /** The number a string of decimal digits denotes, most significant first. */
  function DigitsValue(s: string): nat
    requires AllDigits(s)
  {
    if s == [] then 0 else 10 * DigitsValue(s[..|s| - 1]) + DigitOf(s[|s| - 1])
  }

  /** `m` times ten to the power `k`. */
  function Scale(m: real, k: int): real
    decreases if k >= 0 then k else -k
  {
    if k == 0 then m else if k > 0 then 10.0 * Scale(m, k - 1) else Scale(m, k + 1) / 10.0
  }

  /** How much of a number has been read, left to right. Rust's syntax for a finite `f64` is
      `[+-]? (D+ | D+ '.' D* | D* '.' D+) ([eE] [+-]? D+)?`. */
  datatype Phase =
    | Start
    | Signed(neg: bool)
      /** digits before any point; `whole` is their value */
    | Whole(neg: bool, whole: nat)
      /** after the point: `whole` digits were read before it (`digitsBefore` says whether
          there were any) and `places` digits after it, whose value is `frac` */
    | Fraction(neg: bool, whole: nat, digitsBefore: bool, frac: nat, places: nat)
    | Exponent(neg: bool, mantissa: real)
    | ExponentSigned(neg: bool, mantissa: real, negExp: bool)
    | ExponentDigits(neg: bool, mantissa: real, negExp: bool, exp: nat)

  function Mantissa(whole: nat, frac: nat, places: nat): real
  {
    whole as real + frac as real / Pow10(places) as real
  }

  function ApplySign(neg: bool, v: real): real { if neg then -v else v }

  /** One character more. `None` is a syntax error. */
  function Step(p: Phase, c: char): Option<Phase>
  {
    match p
    case Start =>
      if c == '+' || c == '-' then Some(Signed(c == '-'))
      else if IsDigit(c) then Some(Whole(false, DigitOf(c)))
      else if c == '.' then Some(Fraction(false, 0, false, 0, 0))
      else None
    case Signed(neg) =>
      if IsDigit(c) then Some(Whole(neg, DigitOf(c)))
      else if c == '.' then Some(Fraction(neg, 0, false, 0, 0))
      else None
    case Whole(neg, w) =>
      if IsDigit(c) then Some(Whole(neg, 10 * w + DigitOf(c)))
      else if c == '.' then Some(Fraction(neg, w, true, 0, 0))
      else if c == 'e' || c == 'E' then Some(Exponent(neg, w as real))
      else None
    case Fraction(neg, w, before, f, n) =>
      if IsDigit(c) then Some(Fraction(neg, w, before, 10 * f + DigitOf(c), n + 1))
      else if (c == 'e' || c == 'E') && (before || n > 0) then Some(Exponent(neg, Mantissa(w, f, n)))
      else None
    case Exponent(neg, m) =>
      if c == '+' || c == '-' then Some(ExponentSigned(neg, m, c == '-'))
      else if IsDigit(c) then Some(ExponentDigits(neg, m, false, DigitOf(c)))
      else None
    case ExponentSigned(neg, m, negExp) =>
      if IsDigit(c) then Some(ExponentDigits(neg, m, negExp, DigitOf(c))) else None
    case ExponentDigits(neg, m, negExp, e) =>
      if IsDigit(c) then Some(ExponentDigits(neg, m, negExp, 10 * e + DigitOf(c))) else None
  }

  /** The value once the input is used up, if the input so far is a whole number. */
  function Finish(p: Phase): Option<real>
  {
    match p
    case Whole(neg, w) => Some(ApplySign(neg, w as real))
    case Fraction(neg, w, before, f, n) =>
      if before || n > 0 then Some(ApplySign(neg, Mantissa(w, f, n))) else None
    case ExponentDigits(neg, m, negExp, e) => Some(ApplySign(neg, Scale(m, if negExp then -(e as int) else e)))
    case _ => None
  }

  function Scan(s: string, p: Phase): Option<real>
  {
    if s == [] then Finish(p)
    else match Step(p, s[0])
      case None => None
      case Some(p') => Scan(s[1..], p')
  }

  /** The characters a finite number can be written with. */
  predicate IsNumberChar(c: char)
  {
    IsDigit(c) || c in "+-.eE"
  }

  /** A character that cannot occur in a number is a syntax error wherever it appears. */
  lemma {:induction false} ScanRejectsForeign(s: string, p: Phase, i: nat)
    requires i < |s| && !IsNumberChar(s[i])
    ensures Scan(s, p).None?
    decreases i
  {
    if i > 0 && Step(p, s[0]).Some? {
      ScanRejectsForeign(s[1..], Step(p, s[0]).value, i - 1);
    }
  }

  /** The exact value of a decimal number in Rust's `f64` syntax; `None` stands for the
      parse error that the source unwraps. */
  function ParseFloat(s: string): (r: Option<real>)
    ensures s == [] ==> r.None?
  {
    Scan(s, Start)
  }

  /** A non-empty run of digits parses to its decimal value. */
  lemma DigitsAccepted(s: string)
    requires |s| > 0 && AllDigits(s)
    ensures ParseFloat(s) == Some(DigitsValue(s) as real)
  {
    ScanDigitsOnly(s, Start, false);
  }

  lemma ScanSign(sign: char, s: string)
    requires sign == '+' || sign == '-'
    ensures Scan([sign] + s, Start) == Scan(s, Signed(sign == '-'))
  {
    assert ([sign] + s)[0] == sign && ([sign] + s)[1..] == s;
  }

  /** A run of digits and nothing after it, read from `p`, gives their value. */
  lemma ScanDigitsOnly(s: string, p: Phase, neg: bool)
    requires |s| > 0 && AllDigits(s)
    requires (p == Start && !neg) || p == Signed(neg)
    ensures Scan(s, p) == Some(ApplySign(neg, DigitsValue(s) as real))
  {
    assert s + [] == s;
    ScanLeadingDigits(s, [], p, neg);
  }

  /** A sign, then a non-empty run of digits, parses to the signed value. */
  lemma SignedDigitsAccepted(sign: char, s: string)
    requires sign == '+' || sign == '-'
    requires |s| > 0 && AllDigits(s)
    ensures ParseFloat([sign] + s) == Some(ApplySign(sign == '-', DigitsValue(s) as real))
  {
    ScanSign(sign, s);
    ScanDigitsOnly(s, Signed(sign == '-'), sign == '-');
  }

  /** A string holding a character that cannot occur in a number does not parse. */
  lemma ForeignCharRejected(s: string, i: nat)
    requires i < |s| && !IsNumberChar(s[i])
    ensures ParseFloat(s).None?
  {
    ScanRejectsForeign(s, Start, i);
  }

  /** A second point is a syntax error, though every character is a number character. */
  lemma SecondPointRejected()
    ensures ParseFloat("1.2.3").None?
  {
    // "1" is the whole part and ".2" the fraction; the second '.' has no step from `Fraction`.
  }

  /** An exponent without digits is not a number, nor is an exponent without a mantissa. */
  lemma ExponentWithoutDigitsRejected()
    ensures ParseFloat("1e").None? && ParseFloat("1e+").None? && ParseFloat("e5").None?
  {
    assert Scan("e+", Whole(false, 1)) == Scan("+", Exponent(false, 1.0));
  }

  /** A point without digits and a sign alone are not numbers. */
  lemma PointOrSignAloneRejected()
    ensures ParseFloat(".").None? && ParseFloat("-.").None? && ParseFloat("-").None?
  {
  }

  /** Reading a run of digits after the point accumulates their value and their count. */
  lemma {:induction false} ScanFractionDigits(ds: string, rest: string, neg: bool, w: nat, before: bool)
    requires AllDigits(ds)
    ensures Scan(ds + rest, Fraction(neg, w, before, 0, 0))
         == Scan(rest, Fraction(neg, w, before, DigitsValue(ds), |ds|))
    decreases |ds|
  {
    if ds == [] {
      assert ds + rest == rest;
    } else {
      var last := ds[|ds| - 1];
      var init := ds[..|ds| - 1];
      assert ds + rest == init + ([last] + rest);
      ScanFractionDigits(init, [last] + rest, neg, w, before);
      assert ([last] + rest)[1..] == rest;
    }
  }

  /** Reading a run of exponent digits, after the 'e' and its optional sign, accumulates
      their value. */
  lemma {:induction false} ScanExponentDigits(ds: string, rest: string, p: Phase, neg: bool, m: real, negExp: bool)
    requires |ds| > 0 && AllDigits(ds)
    requires (p == Exponent(neg, m) && !negExp) || p == ExponentSigned(neg, m, negExp)
    ensures Scan(ds + rest, p) == Scan(rest, ExponentDigits(neg, m, negExp, DigitsValue(ds)))
    decreases |ds|
  {
    var last := ds[|ds| - 1];
    var init := ds[..|ds| - 1];
    if |init| == 0 {
      assert ds + rest == [last] + rest;
      assert ([last] + rest)[1..] == rest;
    } else {
      assert ds + rest == init + ([last] + rest);
      ScanExponentDigits(init, [last] + rest, p, neg, m, negExp);
      assert ([last] + rest)[1..] == rest;
    }
  }

  /** A point followed by digits, with none before it, is a fraction of that many places. */
  lemma FractionAccepted(ds: string)
    requires |ds| > 0 && AllDigits(ds)
    ensures ParseFloat("." + ds) == Some(DigitsValue(ds) as real / Pow10(|ds|) as real)
  {
    assert ("." + ds)[1..] == ds && ds + [] == ds;
    ScanFractionDigits(ds, [], false, 0, false);
  }

  /** Digits, an 'e' or "e-", and digits parse to the first number scaled by ten to the
      second, or to its negation. */
  lemma ExponentAccepted(m: nat, k: nat, negExp: bool)
    ensures ParseFloat(NatDigits(m) + (if negExp then "e-" else "e") + NatDigits(k))
         == Some(Scale(m as real, if negExp then -(k as int) else k as int))
  {
    var marker := if negExp then "e-" else "e";
    var exp := marker + NatDigits(k);
    assert NatDigits(m) + marker + NatDigits(k) == NatDigits(m) + exp;
    ScanLeadingDigits(NatDigits(m), exp, Start, false);
    NatDigitsValue(m);
    NatDigitsValue(k);
    assert NatDigits(k) + [] == NatDigits(k);
    var p := if negExp then ExponentSigned(false, m as real, true) else Exponent(false, m as real);
    ScanExponentDigits(NatDigits(k), [], p, false, m as real, negExp);
    if negExp {
      assert exp[1..][1..] == NatDigits(k);
    } else {
      assert exp[1..] == NatDigits(k);
    }
  }

  function DigitChar(d: nat): (c: char)
    requires d < 10
    ensures IsDigit(c) && DigitOf(c) == d
  {
    ('0' as int + d) as char
  }

  /** The decimal digits of `n`, without leading zeros. */
  function NatDigits(n: nat): (s: string)
    ensures |s| > 0 && AllDigits(s)
  {
    if n < 10 then [DigitChar(n)] else NatDigits(n / 10) + [DigitChar(n % 10)]
  }

  /** `q` units and `rem` hundredths written with two decimals, "q.rr". */
  function TwoDecimals(q: nat, rem: nat): string
    requires rem < 100
  {
    NatDigits(q) + "." + [DigitChar(rem / 10), DigitChar(rem % 10)]
  }

  /** An amount of `cents` written the way the API writes money: "-12.05", "0.00", "150.00". */
  function FormatAmount(cents: int): string
  {
    var a := if cents < 0 then -cents else cents;
    (if cents < 0 then "-" else "") + TwoDecimals(a / 100, a % 100)
  }

  lemma {:induction false} NatDigitsValue(n: nat)
    ensures DigitsValue(NatDigits(n)) == n
  {
    if n >= 10 {
      var s := NatDigits(n);
      assert s[..|s| - 1] == NatDigits(n / 10);
      NatDigitsValue(n / 10);
    }
  }

  /** Reading a run of digits at the start of a number leaves their value in `Whole`. */
  lemma {:induction false} ScanLeadingDigits(ds: string, rest: string, p: Phase, neg: bool)
    requires |ds| > 0 && AllDigits(ds)
    requires (p == Start && !neg) || p == Signed(neg)
    ensures Scan(ds + rest, p) == Scan(rest, Whole(neg, DigitsValue(ds)))
    decreases |ds|
  {
    var last := ds[|ds| - 1];
    var init := ds[..|ds| - 1];
    if |init| == 0 {
      assert ds + rest == [last] + rest;
      assert ([last] + rest)[1..] == rest;
    } else {
      assert ds + rest == init + ([last] + rest);
      ScanLeadingDigits(init, [last] + rest, p, neg);
      assert ([last] + rest)[1..] == rest;
    }
  }

  /** The point and two decimals after the units. */
  lemma ScanTwoDecimals(neg: bool, q: nat, rem: nat)
    requires rem < 100
    ensures Scan("." + [DigitChar(rem / 10), DigitChar(rem % 10)], Whole(neg, q))
         == Some(ApplySign(neg, q as real + rem as real / 100.0))
  {
    var d1, d2 := DigitChar(rem / 10), DigitChar(rem % 10);
    var tail := "." + [d1, d2];
    assert tail[1..] == [d1, d2] && [d1, d2][1..] == [d2] && [d2][1..] == [];
    calc {
      Scan(tail, Whole(neg, q));
      Scan([d1, d2], Fraction(neg, q, true, 0, 0));
      Scan([d2], Fraction(neg, q, true, rem / 10, 1));
      Scan([], Fraction(neg, q, true, 10 * (rem / 10) + rem % 10, 2));
      { assert 10 * (rem / 10) + rem % 10 == rem; }
      Finish(Fraction(neg, q, true, rem, 2));
      Some(ApplySign(neg, Mantissa(q, rem, 2)));
      Some(ApplySign(neg, q as real + rem as real / Pow10(2) as real));
      { assert Pow10(2) == 100; }
      Some(ApplySign(neg, q as real + rem as real / 100.0));
    }
  }

  /** After an optional '-', a formatted amount is its units' digits, then the rest. */
  lemma ScanFormatted(cents: int, a: nat)
    requires a == if cents < 0 then -cents else cents
    ensures Scan(FormatAmount(cents), Start) ==
      Scan(NatDigits(a / 100) + ("." + [DigitChar(a % 100 / 10), DigitChar(a % 100 % 10)]),
           if cents < 0 then Signed(true) else Start)
  {
    var body := NatDigits(a / 100) + ("." + [DigitChar(a % 100 / 10), DigitChar(a % 100 % 10)]);
    assert TwoDecimals(a / 100, a % 100) == body;
    if cents < 0 {
      assert FormatAmount(cents) == "-" + body;
      assert FormatAmount(cents)[1..] == body;
    } else {
      assert FormatAmount(cents) == body;
    }
  }

  /** Units and hundredths of a magnitude, with the sign put back, give the amount. */
  lemma SignedHundredths(cents: int, a: nat)
    requires a == if cents < 0 then -cents else cents
    ensures ApplySign(cents < 0, (a / 100) as real + (a % 100) as real / 100.0) == cents as real / 100.0
  {
    assert a == 100 * (a / 100) + a % 100;
    assert (a / 100) as real + (a % 100) as real / 100.0 == a as real / 100.0;
  }

  /** Units and two decimals, after an optional sign, read as units plus hundredths. */
  lemma ScanUnitsAndHundredths(neg: bool, q: nat, rem: nat, p: Phase)
    requires rem < 100
    requires (p == Start && !neg) || p == Signed(neg)
    ensures Scan(NatDigits(q) + ("." + [DigitChar(rem / 10), DigitChar(rem % 10)]), p)
         == Some(ApplySign(neg, q as real + rem as real / 100.0))
  {
    ScanLeadingDigits(NatDigits(q), "." + [DigitChar(rem / 10), DigitChar(rem % 10)], p, neg);
    NatDigitsValue(q);
    ScanTwoDecimals(neg, q, rem);
  }

  /** Every amount written with two decimals parses back to exactly that many hundredths. */
  lemma ParseFormattedAmount(cents: int)
    ensures ParseFloat(FormatAmount(cents)) == Some(cents as real / 100.0)
  {
    var a: nat := if cents < 0 then -cents else cents;
    ScanFormatted(cents, a);
    ScanUnitsAndHundredths(cents < 0, a / 100, a % 100, if cents < 0 then Signed(true) else Start);
    SignedHundredths(cents, a);
  }
}
