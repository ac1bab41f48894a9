/** Calendar dates written `YYYY-MM-DD`, the extended calendar-date format of section
    4.1.2.2 of ISO 8601:2004, as `toISOString().split('T')[0]` produces them. The contact
    tracker compares such dates as plain strings; this module proves that, for well-formed
    dates, string order is calendar order. */
module IsoDates {
  import opened Strings

  predicate IsDigit(c: char)
  {
    '0' <= c <= '9'
  }

  predicate AllDigits(s: string)
  {
    forall k :: 0 <= k < |s| ==> IsDigit(s[k])
  }

  function Pow10(n: nat): (r: nat)
    ensures r >= 1
  {
    if n == 0 then 1 else 10 * Pow10(n - 1)
  }

  /** The number that the decimal digits `s` denote, most significant digit first. */
  function DigitsValue(s: string): nat
    requires AllDigits(s)
  {
    if s == [] then 0 else (s[0] as int - '0' as int) * Pow10(|s| - 1) + DigitsValue(s[1..])
  }

  /** `n` digits denote a number below 10^n. */
  lemma {:induction false} DigitsValueBound(s: string)
    requires AllDigits(s)
    ensures DigitsValue(s) < Pow10(|s|)
  {
    if s != [] {
      DigitsValueBound(s[1..]);
      var d, p := s[0] as int - '0' as int, Pow10(|s| - 1);
      assert DigitsValue(s) == d * p + DigitsValue(s[1..]);
      assert Pow10(|s|) == 10 * p;
      MulStep(d, 10, p);
    }
  }

  /** On digit strings of one length, string order is numeric order. */
  lemma {:induction false} DigitsOrder(a: string, b: string)
    requires |a| == |b| && AllDigits(a) && AllDigits(b)
    ensures LexLt(a, b) <==> DigitsValue(a) < DigitsValue(b)
  {
    if a != [] {
      var da, db := a[0] as int - '0' as int, b[0] as int - '0' as int;
      var p := Pow10(|a| - 1);
      var ra, rb := DigitsValue(a[1..]), DigitsValue(b[1..]);
      assert DigitsValue(a) == da * p + ra;
      assert DigitsValue(b) == db * p + rb;
      DigitsValueBound(a[1..]);
      DigitsValueBound(b[1..]);
      if da < db {
        MulStep(da, db, p);
        assert LexLt(a, b);
      } else if db < da {
        MulStep(db, da, p);
        assert !LexLt(a, b);
      } else {
        DigitsOrder(a[1..], b[1..]);
      }
    }
  }

  lemma {:induction false} MulStep(x: int, y: int, p: nat)
    requires 0 <= x < y
    ensures x * p + p <= y * p
  {
    if p > 0 {
      MulStep(x, y, p - 1);
      assert x * p == x * (p - 1) + x;
      assert y * p == y * (p - 1) + y;
    }
  }

  /** On digit strings of one length, equal strings and equal numbers coincide. */
  lemma DigitsEqual(a: string, b: string)
    requires |a| == |b| && AllDigits(a) && AllDigits(b)
    ensures a == b <==> DigitsValue(a) == DigitsValue(b)
  {
    DigitsOrder(a, b);
    DigitsOrder(b, a);
    LexLtTrichotomy(a, b);
  }

  /** A date as `toISOString().split('T')[0]` writes it: four digits, a dash, two digits,
      a dash, two digits. */
  predicate WellFormed(s: string)
  {
    |s| == 10 && AllDigits(s[..4]) && s[4] == '-' && AllDigits(s[5..7]) && s[7] == '-'
    && AllDigits(s[8..])
  }

  function Year(s: string): nat
    requires WellFormed(s)
  {
    DigitsValue(s[..4])
  }

  function Month(s: string): nat
    requires WellFormed(s)
  {
    DigitsValue(s[5..7])
  }

  function Day(s: string): nat
    requires WellFormed(s)
  {
    DigitsValue(s[8..])
  }

  /** `a` is an earlier day than `b`: by year, then month, then day. */
  predicate CalendarBefore(a: string, b: string)
    requires WellFormed(a) && WellFormed(b)
  {
    Year(a) < Year(b)
    || (Year(a) == Year(b) && (Month(a) < Month(b) || (Month(a) == Month(b) && Day(a) < Day(b))))
  }

  /** `a` and `b` name the same day. */
  predicate SameDay(a: string, b: string)
    requires WellFormed(a) && WellFormed(b)
  {
    Year(a) == Year(b) && Month(a) == Month(b) && Day(a) == Day(b)
  }

  /** Two well-formed dates are equal strings exactly when they name the same day. */
  lemma SameDayIff(a: string, b: string)
    requires WellFormed(a) && WellFormed(b)
    ensures a == b <==> SameDay(a, b)
  {
    DigitsEqual(a[..4], b[..4]);
    DigitsEqual(a[5..7], b[5..7]);
    DigitsEqual(a[8..], b[8..]);
    if SameDay(a, b) {
      assert a == a[..4] + [a[4]] + a[5..7] + [a[7]] + a[8..];
      assert b == b[..4] + [b[4]] + b[5..7] + [b[7]] + b[8..];
    }
  }

  /** String `<` on well-formed dates is "earlier day". */
  lemma LexLtIsCalendarOrder(a: string, b: string)
    requires WellFormed(a) && WellFormed(b)
    ensures LexLt(a, b) <==> CalendarBefore(a, b)
  {
    DigitsOrder(a[..4], b[..4]);
    DigitsEqual(a[..4], b[..4]);
    assert a == a[..4] + a[4..] && b == b[..4] + b[4..];
    LexLtConcat(a[..4], a[4..], b[..4], b[4..]);
    if a[..4] == b[..4] {
      MonthDayOrder(a, b);
    }
  }

  /** Past equal years, string `<` on the rest of two dates is "earlier month, or same month
      and earlier day". */
  lemma MonthDayOrder(a: string, b: string)
    requires WellFormed(a) && WellFormed(b)
    ensures LexLt(a[4..], b[4..])
            <==> Month(a) < Month(b) || (Month(a) == Month(b) && Day(a) < Day(b))
  {
    DigitsOrder(a[5..7], b[5..7]);
    DigitsEqual(a[5..7], b[5..7]);
    assert a[4..] == [a[4]] + a[5..] && b[4..] == [b[4]] + b[5..];
    LexLtConcat([a[4]], a[5..], [b[4]], b[5..]);
    LexLtIrreflexive([a[4]]);
    assert a[5..] == a[5..7] + a[7..] && b[5..] == b[5..7] + b[7..];
    LexLtConcat(a[5..7], a[7..], b[5..7], b[7..]);
    if a[5..7] == b[5..7] {
      DayOrder(a, b);
    }
  }

  /** Past equal years and months, string `<` on the rest of two dates is "earlier day". */
  lemma DayOrder(a: string, b: string)
    requires WellFormed(a) && WellFormed(b)
    ensures LexLt(a[7..], b[7..]) <==> Day(a) < Day(b)
  {
    DigitsOrder(a[8..], b[8..]);
    assert a[7..] == [a[7]] + a[8..] && b[7..] == [b[7]] + b[8..];
    LexLtConcat([a[7]], a[8..], [b[7]], b[8..]);
    LexLtIrreflexive([a[7]]);
  }

  /** String `<=` on well-formed dates is "same day or earlier". */
  lemma LexLeIsCalendarOrder(a: string, b: string)
    requires WellFormed(a) && WellFormed(b)
    ensures LexLe(a, b) <==> CalendarBefore(a, b) || SameDay(a, b)
  {
    LexLeIff(a, b);
    LexLtIsCalendarOrder(a, b);
    SameDayIff(a, b);
  }
}
