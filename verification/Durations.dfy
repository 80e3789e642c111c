// internal/model/duration.go: HumanDuration and ParseDuration.
//
// A duration is an integer number of nanoseconds. The two places where the
// source goes through float64 (a fractional number of units, and "%.1f" of a
// number of seconds) are modelled on exact rationals.
module Durations {
  import opened Prelude
  import opened Text
  import opened Numerals
  import Slugs

  lemma MulAtLeast(k: int, m: int)
    requires k >= 1 && m >= 1
    ensures k * m >= m
  {
  }

  lemma DivModUnique(d: int, q: int, r: int, m: int)
    requires m > 0 && 0 <= r < m && d == q * m + r
    ensures d / m == q && d % m == r
  {
    var q0, r0 := d / m, d % m;
    assert d == q0 * m + r0 by { assert d == m * q0 + r0; }
    assert (q - q0) * m == r0 - r by { assert q * m - q0 * m == (q - q0) * m; }
    if q > q0 {
      MulAtLeast(q - q0, m);
    } else if q < q0 {
      MulAtLeast(q0 - q, m);
    }
  }

  const MIN_INT64 := -0x8000_0000_0000_0000

  // ----- printing -----

  /** d nanoseconds as tenths of a second, to nearest with ties to even. */
  function Tenths(d: nat): (t: nat)
    ensures -50 * MILLISECOND <= d - t * 100 * MILLISECOND <= 50 * MILLISECOND
    ensures d % (100 * MILLISECOND) == 0 ==> t * 100 * MILLISECOND == d
  {
    var q, r := d / (100 * MILLISECOND), d % (100 * MILLISECOND);
    if r > 50 * MILLISECOND || (r == 50 * MILLISECOND && q % 2 == 1) then q + 1 else q
  }

  /** "%.1f" of a number of tenths, with a trailing ".0" dropped. */
  function OneDecimal(tenths: nat): string {
    if tenths % 10 == 0 then Decimal(tenths / 10)
    else Decimal(tenths / 10) + "." + Decimal(tenths % 10)
  }

  /** One unit, or two when the second is not zero. */
  function TwoUnits(d: nat, big: Dur, bigName: char, small: Dur, smallName: char): string
    requires 0 < small < big
  {
    var a, b := d / big, (d % big) / small;
    if b == 0 then Decimal(a) + [bigName]
    else Decimal(a) + [bigName] + " " + Decimal(b) + [smallName]
  }

  function HumanNonNegative(d: nat): string {
    if d == 0 then "0s"
    else if d < SECOND then Decimal(d / MILLISECOND) + "ms"
    else if d < MINUTE then
      if d % SECOND == 0 then Decimal(d / SECOND) + "s" else OneDecimal(Tenths(d)) + "s"
    else if d < HOUR then TwoUnits(d, MINUTE, 'm', SECOND, 's')
    else if d < DAY then TwoUnits(d, HOUR, 'h', MINUTE, 'm')
    else TwoUnits(d, DAY, 'd', HOUR, 'h')
  }

  function HumanDuration(d: Dur): string {
    if d == MIN_INT64 then "a very long time"
    else if d < 0 then "-" + HumanNonNegative(-d)
    else HumanNonNegative(d)
  }

  // ----- parsing -----

  predicate Starts(s: string, a: char) { s != "" && s[0] == a }

  predicate StartsTwo(s: string, a: char, b: char) { |s| >= 2 && s[0] == a && s[1] == b }

  /** The unit a text starts with, and the length of its name. */
  function UnitAt(s: string): (u: Option<(nat, nat)>)
    ensures u.Some? ==> u.value.0 > 0 && 0 < u.value.1 <= |s|
  {
    if StartsTwo(s, 'm', 's') then Some((MILLISECOND, 2))
    else if StartsTwo(s, 'u', 's') then Some((1000, 2))
    else if StartsTwo(s, 'n', 's') then Some((1, 2))
    else if Starts(s, 'w') then Some((7 * DAY, 1))
    else if Starts(s, 'd') then Some((DAY, 1))
    else if Starts(s, 'h') then Some((HOUR, 1))
    else if Starts(s, 'm') then Some((MINUTE, 1))
    else if Starts(s, 's') then Some((SECOND, 1))
    else None
  }

  predicate NumberRune(c: char) { Digit(c) || c == '.' }

  function NumberLength(s: string): (n: nat)
    ensures n <= |s| && (forall i :: 0 <= i < n ==> NumberRune(s[i]))
    ensures n < |s| ==> !NumberRune(s[n])
  {
    if s == "" || !NumberRune(s[0]) then 0 else 1 + NumberLength(s[1..])
  }

  predicate AllDigits(s: string)
    ensures AllDigits(s) <==> Digits(s)
  {
    s == "" || (Digit(s[0]) && AllDigits(s[1..]))
  }

  /** strconv.ParseFloat on digits and dots: num / 10^scale, or nothing when
      there is a second dot or no digit at all. */
  function Fraction(s: string): Option<(nat, nat)> {
    var dot := IndexOf(s, c => c == '.');
    var whole, frac := s[..dot], if dot < |s| then s[dot + 1..] else "";
    if AllDigits(whole) && AllDigits(frac) && whole + frac != "" then
      Some((Value(whole + frac), |frac|))
    else None
  }

  /** num / 10^scale units, truncated to nanoseconds: dividing by ten scale
      times truncates to the same integer as dividing once by 10^scale. */
  function Scaled(num: nat, scale: nat, unit: nat): nat {
    if scale == 0 then num * unit else Scaled(num, scale - 1, unit) / 10
  }

  lemma ScaledTenths(tenths: nat)
    ensures Scaled(tenths, 1, SECOND) == tenths * 100 * MILLISECOND
  {
    assert Scaled(tenths, 0, SECOND) == tenths * SECOND;
  }

  /** One number-and-unit term: its nanoseconds, and how many runes it takes. */
  function Term(s: string): (t: Option<(nat, nat)>)
    ensures t.Some? ==> 0 < t.value.1 <= |s|
  {
    var n := NumberLength(s);
    if n == 0 then None
    else
      match (Fraction(s[..n]), UnitAt(s[n..]))
      case (Some((num, scale)), Some((unit, len))) =>
        Some((Scaled(num, scale, unit), n + len))
      case _ => None
  }

  /** The sum of the terms that make up a whole text. */
  function Terms(s: string): Option<nat>
    decreases |s|
  {
    if s == "" then Some(0)
    else
      match Term(s)
      case None => None
      case Some((ns, len)) =>
        match Terms(s[len..])
        case None => None
        case Some(rest) => Some(ns + rest)
  }

  function LowerRune(c: char): char {
    if 'A' <= c <= 'Z' then 'a' + (c - 'A') else c
  }

  /** Lower case, with all spaces dropped. */
  function Normalized(s: string): string {
    if s == "" then ""
    else (if IsSpace(s[0]) then "" else [LowerRune(s[0])]) + Normalized(s[1..])
  }

  /** What a text denotes: a sign and a non-empty sum of terms. */
  function Denotes(s: string): Result<Dur> {
    var t := Normalized(s);
    var neg := Starts(t, '-');
    var body := if neg || Starts(t, '+') then t[1..] else t;
    if body == "" then Failure
    else
      match Terms(body)
      case None => Failure
      case Some(total) => Success(if neg then -(total as int) else total)
  }

  method ParseDuration(text: string) returns (r: Result<Dur>)
    ensures r == Denotes(text)
  {
    hide Term, Normalized;
    var s := Normalized(text);
    if s == "" { return Failure; }
    var neg := Starts(s, '-');
    if neg || Starts(s, '+') { s := s[1..]; }
    ghost var body := s;
    var total: nat, matched := 0, false;
    while s != ""
      invariant matched <==> s != body
      invariant |s| <= |body|
      invariant Terms(body) == match Terms(s) case None => None case Some(rest) => Some(total + rest)
      decreases |s|
    {
      match Term(s) {
        case None => return Failure;
        case Some((ns, len)) =>
          TermsStep(s, ns, len, s[len..]);
          total, s, matched := total + ns, s[len..], true;
      }
    }
    if !matched { return Failure; }
    return Success(if neg then -(total as int) else total);
  }

  // ----- the printed value -----

  /** The value HumanDuration shows: d cut down to the smallest unit printed,
      or rounded to a tenth of a second below one minute. */
  function Shown(d: Dur): Dur {
    if d < 0 then -(ShownNonNegative(-d) as int) else ShownNonNegative(d)
  }

  function ShownNonNegative(d: nat): nat {
    if d < SECOND then d - d % MILLISECOND
    else if d < MINUTE then Tenths(d) * 100 * MILLISECOND
    else if d < HOUR then d - d % SECOND
    else if d < DAY then d - d % MINUTE
    else d - d % HOUR
  }

  /** The smallest unit HumanDuration prints for d. */
  function Resolution(d: Dur): (u: Dur)
    ensures u > 0
  {
    var m := if d < 0 then -d else d;
    if m < SECOND then MILLISECOND
    else if m < MINUTE then 100 * MILLISECOND
    else if m < HOUR then SECOND
    else if m < DAY then MINUTE
    else HOUR
  }

  // ----- the round trip -----

  lemma {:induction false} NumberLengthOf(num: string, rest: string)
    requires forall i :: 0 <= i < |num| ==> NumberRune(num[i])
    requires rest != "" && !NumberRune(rest[0])
    ensures NumberLength(num + rest) == |num|
  {
    if num == "" {
      assert num + rest == rest;
    } else {
      assert (num + rest)[1..] == num[1..] + rest;
      NumberLengthOf(num[1..], rest);
    }
  }

  lemma NoDot(s: string)
    requires Digits(s)
    ensures IndexOf(s, c => c == '.') == |s|
  {
  }

  lemma FractionOfDecimal(n: nat)
    ensures Fraction(Decimal(n)) == Some((n, 0))
  {
    var s := Decimal(n);
    NoDot(s);
    ValueOfDecimal(n);
    assert s[..|s|] == s && s + "" == s;
  }

  lemma TermOf(num: string, tail: string)
    requires num != "" && forall i :: 0 <= i < |num| ==> NumberRune(num[i])
    requires Fraction(num).Some? && UnitAt(tail).Some?
    ensures Term(num + tail) ==
      Some((Scaled(Fraction(num).value.0, Fraction(num).value.1, UnitAt(tail).value.0),
            |num| + UnitAt(tail).value.1))
  {
    NumberLengthOf(num, tail);
    assert (num + tail)[..|num|] == num && (num + tail)[|num|..] == tail;
  }

  lemma TermsStep(s: string, ns: nat, len: nat, rest: string)
    requires s != "" && Term(s) == Some((ns, len)) && s[len..] == rest
    ensures Terms(s) == match Terms(rest) case None => None case Some(v) => Some(ns + v)
  {
    hide Term;
  }

  /** A whole number of units at the head of a text parses to its value. */
  lemma WholeTerm(n: nat, name: string, unit: nat, rest: string)
    requires UnitAt(name + rest) == Some((unit, |name|))
    ensures Terms(Decimal(n) + (name + rest)) ==
      match Terms(rest) case None => None case Some(v) => Some(n * unit + v)
  {
    hide Terms, Term, UnitAt, Fraction, Value, Decimal;
    var num := Decimal(n);
    FractionOfDecimal(n);
    TermOf(num, name + rest);
    var s := num + (name + rest);
    assert s[|num| + |name|..] == rest;
    TermsStep(s, n * unit, |num| + |name|, rest);
  }

  lemma TermsOfNone()
    ensures Terms("") == Some(0)
  {
  }

  lemma TenthsTerm(tenths: nat)
    ensures Terms(OneDecimal(tenths) + "s") == Some(tenths * 100 * MILLISECOND)
  {
    hide Terms, Term, Fraction, Value, Decimal, Scaled;
    TermsOfNone();
    var num := OneDecimal(tenths);
    if tenths % 10 == 0 {
      assert "s" + "" == "s";
      WholeTerm(tenths / 10, "s", SECOND, "");
    } else {
      DecimalFraction(tenths);
      TermOf(num, "s");
      ScaledTenths(tenths);
      assert (num + "s")[|num| + 1..] == "";
      TermsStep(num + "s", tenths * 100 * MILLISECOND, |num| + 1, "");
    }
  }

  /** A dot after digits is where the fraction starts. */
  lemma DotAfter(whole: string, frac: string)
    requires Digits(whole)
    ensures var num := whole + "." + frac;
      IndexOf(num, c => c == '.') == |whole| < |num| && num[..|whole|] == whole && num[|whole| + 1..] == frac
  {
    hide IndexOf;
    var num := whole + "." + frac;
    assert num[|whole|] == '.';
    assert forall i :: 0 <= i < |whole| ==> num[i] == whole[i];
  }

  lemma TenthsValue(tenths: nat)
    ensures Value(Decimal(tenths / 10) + Decimal(tenths % 10)) == tenths
    ensures |Decimal(tenths % 10)| == 1
  {
    var frac := Decimal(tenths % 10);
    ValueAppend(Decimal(tenths / 10), frac[0]);
    ValueOfDecimal(tenths / 10);
    assert frac == [frac[0]];
  }

  lemma DigitsAreAll(s: string)
    requires Digits(s)
    ensures AllDigits(s)
  {
  }

  lemma DecimalFraction(tenths: nat)
    ensures Fraction(Decimal(tenths / 10) + "." + Decimal(tenths % 10)) == Some((tenths, 1))
  {
    hide Decimal, Value, IndexOf, AllDigits;
    DotAfter(Decimal(tenths / 10), Decimal(tenths % 10));
    DigitsAreAll(Decimal(tenths / 10));
    DigitsAreAll(Decimal(tenths % 10));
    TenthsValue(tenths);
  }

  // ----- what one term is worth -----

  /** The units there are, in nanoseconds. */
  function UnitNanos(name: string): Option<nat> {
    match name
    case "ns" => Some(1)
    case "us" => Some(1_000)
    case "ms" => Some(1_000_000)
    case "s" => Some(1_000_000_000)
    case "m" => Some(60_000_000_000)
    case "h" => Some(3_600_000_000_000)
    case "d" => Some(86_400_000_000_000)
    case "w" => Some(604_800_000_000_000)
    case _ => None
  }

  function Pow10(k: nat): (p: nat)
    ensures p > 0
  {
    if k == 0 then 1 else 10 * Pow10(k - 1)
  }

  lemma UnitAtStart(name: string, rest: string)
    requires UnitNanos(name).Some? && (rest == "" || NumberRune(rest[0]))
    ensures UnitAt(name + rest) == Some((UnitNanos(name).value, |name|))
  {
    var s := name + rest;
    assert s[0] == name[0];
    if |name| == 2 { assert s[1] == name[1]; }
    if |name| == 1 && rest != "" { assert s[1] == rest[0]; }
  }

  lemma FractionOf(a: string, b: string)
    requires Digits(a) && Digits(b) && a + b != ""
    ensures Fraction(a + "." + b) == Some((Value(a + b), |b|))
  {
    hide Value, IndexOf, AllDigits;
    DotAfter(a, b);
    DigitsAreAll(a);
    DigitsAreAll(b);
  }

  /** num units and scale decimals, truncated to a nanosecond. */
  lemma {:induction false} ScaledIs(num: nat, scale: nat, unit: nat)
    ensures var v := Scaled(num, scale, unit); v * Pow10(scale) <= num * unit < (v + 1) * Pow10(scale)
  {
    if scale > 0 {
      ScaledIs(num, scale - 1, unit);
      TenthOf(Scaled(num, scale - 1, unit), Pow10(scale - 1), num * unit);
    }
  }

  lemma TenthOf(w: nat, p: nat, x: nat)
    requires w * p <= x < (w + 1) * p
    ensures (w / 10) * (10 * p) <= x < (w / 10 + 1) * (10 * p)
  {
    var v := w / 10;
    MulBoth(10 * v, w, p);
    MulBoth(w + 1, 10 * v + 10, p);
    assert v * (10 * p) == (10 * v) * p && (v + 1) * (10 * p) == (10 * v + 10) * p;
  }

  lemma MulBoth(a: int, b: int, p: nat)
    requires a <= b
    ensures a * p <= b * p
  {
    assert (b - a) * p >= 0;
  }

  /** A term of any of the eight units, with any number of decimals and something
      that is no letter after it, is worth its number times the unit, truncated to
      a nanosecond, on top of what follows. */
  lemma TermIsWorth(a: string, b: string, name: string, rest: string) returns (v: nat)
    requires Digits(a) && Digits(b) && a + b != ""
    requires UnitNanos(name).Some? && (rest == "" || NumberRune(rest[0]))
    ensures v * Pow10(|b|) <= Value(a + b) * UnitNanos(name).value < (v + 1) * Pow10(|b|)
    ensures Terms(a + "." + b + (name + rest)) ==
            match Terms(rest) case None => None case Some(more) => Some(v + more)
  {
    hide Terms, Term, UnitAt, Fraction, Value, Scaled, UnitNanos, Pow10;
    var num := a + "." + b;
    FractionOf(a, b);
    UnitAtStart(name, rest);
    v := Scaled(Value(a + b), |b|, UnitNanos(name).value);
    ScaledIs(Value(a + b), |b|, UnitNanos(name).value);
    TermOf(num, name + rest);
    var s := num + (name + rest);
    assert s[|num| + |name|..] == rest;
    TermsStep(s, v, |num| + |name|, rest);
  }

  lemma {:induction false} NormalizedAppend(a: string, b: string)
    ensures Normalized(a + b) == Normalized(a) + Normalized(b)
  {
    if a == "" {
      assert a + b == b;
    } else {
      assert (a + b)[1..] == a[1..] + b;
      NormalizedAppend(a[1..], b);
    }
  }

  predicate Plain(c: char) { NumberRune(c) || Slugs.Lower(c) || c == '-' }

  lemma {:induction false} NormalizedPlain(s: string)
    requires All(s, Plain)
    ensures Normalized(s) == s
  {
    if s != "" {
      NormalizedPlain(s[1..]);
      assert [s[0]] + s[1..] == s;
    }
  }

  lemma NormalizedSpaced(a: string, b: string)
    requires All(a, Plain) && All(b, Plain)
    ensures Normalized(a + " " + b) == a + b
  {
    assert Normalized(" ") == "";
    hide Normalized, Plain;
    NormalizedPlain(a);
    NormalizedPlain(b);
    NormalizedAppend(a + " ", b);
    NormalizedAppend(a, " ");
    assert a + "" == a;
  }

  /** The text between the sign and the end parses to the value shown. */
  ghost predicate Reads(text: string, value: nat) {
    && Normalized(text) != ""
    && Digit(Normalized(text)[0])
    && Normalized("-" + text) == "-" + Normalized(text)
    && Terms(Normalized(text)) == Some(value)
  }

  lemma PlainReads(text: string, value: nat)
    requires text != "" && Digit(text[0]) && All(text, Plain)
    requires Terms(text) == Some(value)
    ensures Reads(text, value)
  {
    NormalizedPlain(text);
    NormalizedPlain("-" + text);
  }

  lemma OneUnitReads(n: nat, name: string, unit: nat)
    requires UnitAt(name) == Some((unit, |name|)) && All(name, Slugs.Lower)
    ensures Reads(Decimal(n) + name, n * unit)
  {
    hide Terms, UnitAt, Decimal, Reads;
    assert name + "" == name;
    WholeTerm(n, name, unit, "");
    TermsOfNone();
    PlainReads(Decimal(n) + name, n * unit);
  }

  lemma TwoTerms(a: nat, bigName: char, b: nat, smallName: char)
    requires UnitAt([bigName]).Some? && UnitAt([smallName]).Some?
    ensures Terms(Decimal(a) + ([bigName] + (Decimal(b) + [smallName]))) ==
      Some(a * UnitAt([bigName]).value.0 + b * UnitAt([smallName]).value.0)
  {
    hide Terms, UnitAt, Decimal;
    var y := Decimal(b) + [smallName];
    UnitBefore(bigName, y);
    WholeTerm(a, [bigName], UnitAt([bigName]).value.0, y);
    assert [smallName] + "" == [smallName];
    WholeTerm(b, [smallName], UnitAt([smallName]).value.0, "");
    TermsOfNone();
  }

  lemma SpacedReads(x: string, y: string, value: nat)
    requires x != "" && Digit(x[0]) && All(x, Plain) && All(y, Plain)
    requires Terms(x + y) == Some(value)
    ensures Reads(x + " " + y, value)
  {
    hide Normalized, Terms;
    NormalizedSpaced(x, y);
    NormalizedSpaced("-" + x, y);
    assert "-" + (x + " " + y) == ("-" + x) + " " + y;
    assert ("-" + x) + y == "-" + (x + y);
  }

  lemma TwoUnitsReads(d: nat, big: Dur, bigName: char, small: Dur, smallName: char)
    requires 0 < small < big && big % small == 0
    requires Slugs.Lower(bigName) && Slugs.Lower(smallName)
    requires UnitAt([bigName]) == Some((big, 1)) && UnitAt([smallName]) == Some((small, 1))
    ensures Reads(TwoUnits(d, big, bigName, small, smallName), d - d % small)
  {
    hide Terms, UnitAt, Decimal, Reads;
    var a, b := d / big, (d % big) / small;
    DivideTwice(d, big, small);
    if b == 0 {
      OneUnitReads(a, [bigName], big);
    } else {
      BothUnitsRead(a, bigName, b, smallName);
    }
  }

  lemma BothUnitsRead(a: nat, bigName: char, b: nat, smallName: char)
    requires Slugs.Lower(bigName) && Slugs.Lower(smallName)
    requires UnitAt([bigName]).Some? && UnitAt([smallName]).Some?
    ensures Reads(Decimal(a) + [bigName] + " " + Decimal(b) + [smallName],
      a * UnitAt([bigName]).value.0 + b * UnitAt([smallName]).value.0)
  {
    hide Terms, UnitAt, Decimal, Reads;
    var x, y := Decimal(a) + [bigName], Decimal(b) + [smallName];
    assert x + y == Decimal(a) + ([bigName] + y);
    TwoTerms(a, bigName, b, smallName);
    SpacedReads(x, y, a * UnitAt([bigName]).value.0 + b * UnitAt([smallName]).value.0);
    assert Decimal(a) + [bigName] + " " + Decimal(b) + [smallName] == x + " " + y;
  }

  /** A one-rune unit is still read as itself when a digit follows it. */
  lemma UnitBefore(name: char, rest: string)
    requires rest != "" && Digit(rest[0]) && UnitAt([name]).Some?
    ensures UnitAt([name] + rest) == UnitAt([name])
  {
    var s := [name] + rest;
    assert s[1] == rest[0];
  }

  lemma DivideTwice(d: nat, big: Dur, small: Dur)
    requires 0 < small < big && big % small == 0
    ensures d - d % small == (d / big) * big + ((d % big) / small) * small
  {
    var k, q, r := big / small, d / big, d % big;
    var b, e := r / small, r % small;
    assert q * big == (q * k) * small by { assert big == k * small; }
    assert d == (q * k + b) * small + e by {
      assert d == q * big + r;
      assert r == b * small + e;
      assert (q * k) * small + b * small == (q * k + b) * small;
    }
    DivModUnique(d, q * k + b, e, small);
  }

  lemma OneDecimalPlain(tenths: nat)
    ensures OneDecimal(tenths) != "" && Digit(OneDecimal(tenths)[0]) && All(OneDecimal(tenths) + "s", Plain)
  {
    hide Decimal;
  }

  lemma SecondsReads(d: nat)
    requires SECOND <= d < MINUTE
    ensures Reads(HumanNonNegative(d), ShownNonNegative(d))
  {
    hide Terms, UnitAt, Decimal, Reads, Tenths, OneDecimal;
    UnitNames();
    if d % SECOND == 0 {
      assert d % (100 * MILLISECOND) == 0;
      OneUnitReads(d / SECOND, "s", SECOND);
    } else {
      TenthsTerm(Tenths(d));
      OneDecimalPlain(Tenths(d));
      PlainReads(OneDecimal(Tenths(d)) + "s", Tenths(d) * 100 * MILLISECOND);
    }
  }

  lemma UnitNames()
    ensures UnitAt("ms") == Some((MILLISECOND, 2)) && UnitAt("s") == Some((SECOND, 1))
    ensures UnitAt("m") == Some((MINUTE, 1)) && UnitAt("h") == Some((HOUR, 1))
    ensures UnitAt("d") == Some((DAY, 1))
  {
  }

  lemma HumanReads(d: nat)
    ensures Reads(HumanNonNegative(d), ShownNonNegative(d))
  {
    hide Terms, UnitAt, Decimal, Reads, Tenths, TwoUnits;
    UnitNames();
    if d == 0 {
      DecimalZero();
      OneUnitReads(0, "s", SECOND);
    } else if d < SECOND {
      OneUnitReads(d / MILLISECOND, "ms", MILLISECOND);
    } else if d < MINUTE {
      SecondsReads(d);
    } else if d < HOUR {
      TwoUnitsReads(d, MINUTE, 'm', SECOND, 's');
    } else if d < DAY {
      TwoUnitsReads(d, HOUR, 'h', MINUTE, 'm');
    } else {
      TwoUnitsReads(d, DAY, 'd', HOUR, 'h');
    }
  }

  lemma DecimalZero()
    ensures Decimal(0) + "s" == "0s"
  {
    assert Decimal(0) == "0";
  }

  /** Parsing what was printed gives the value shown, for every duration but
      the most negative one. */
  lemma ParseHuman(d: Dur)
    requires d != MIN_INT64
    ensures Denotes(HumanDuration(d)) == Success(Shown(d))
  {
    hide HumanNonNegative, ShownNonNegative, Normalized, Terms;
    var m := if d < 0 then -d else d;
    HumanReads(m);
    var text := HumanNonNegative(m);
    if d < 0 {
      assert ("-" + Normalized(text))[1..] == Normalized(text);
    }
  }

  lemma WordIsNoTerms(s: string)
    requires s != "" && Slugs.Lower(s[0])
    ensures Terms(s) == None
  {
  }

  lemma ParseHumanMin()
    ensures Denotes(HumanDuration(MIN_INT64)) == Failure
  {
    hide Normalized, HumanNonNegative, Terms, Term;
    var rest := " very long time";
    assert "a very long time" == "a" + rest;
    NormalizedAppend("a", rest);
    NormalizedPlain("a");
    WordIsNoTerms(Normalized("a" + rest));
  }

  lemma ShownIsWholeUnits(d: Dur)
    ensures Shown(d) == d <==> d % Resolution(d) == 0
  {
    hide Tenths;
    NegatedRemainder(d, Resolution(d));
    var m := if d < 0 then -d else d;
    if SECOND <= m < MINUTE && Tenths(m) * (100 * MILLISECOND) == m {
      DivModUnique(m, Tenths(m), 0, 100 * MILLISECOND);
    }
  }

  /** ParseDuration inverts HumanDuration on exactly the durations that are a
      whole number of the smallest unit printed for them. */
  lemma RoundTripIff(d: Dur)
    ensures Denotes(HumanDuration(d)) == Success(d) <==> d != MIN_INT64 && d % Resolution(d) == 0
  {
    hide HumanDuration, Denotes, Shown, Resolution;
    if d == MIN_INT64 {
      ParseHumanMin();
    } else {
      ParseHuman(d);
      ShownIsWholeUnits(d);
    }
  }

  lemma NegatedRemainder(d: int, m: int)
    requires m > 0
    ensures d % m == 0 <==> (-d) % m == 0
  {
    if d % m == 0 {
      assert -d == (-(d / m)) * m + 0;
      DivModUnique(-d, -(d / m), 0, m);
    }
    if (-d) % m == 0 {
      assert d == (-((-d) / m)) * m + 0;
      DivModUnique(d, -((-d) / m), 0, m);
    }
  }

  /** What a round trip loses: less than one smallest printed unit, always
      towards zero, except that below one minute it is at most half a tenth. */
  lemma RoundTripLoss(d: Dur)
    requires d != MIN_INT64
    ensures Denotes(HumanDuration(d)).Success?
    ensures
      var lost := d - Denotes(HumanDuration(d)).value;
      if SECOND <= d < MINUTE || SECOND <= -d < MINUTE then
        -50 * MILLISECOND <= lost <= 50 * MILLISECOND
      else if d >= 0 then 0 <= lost < Resolution(d)
      else -Resolution(d) < lost <= 0
  {
    hide HumanDuration, Denotes;
    ParseHuman(d);
  }
}
