/** Go's strconv.FormatBool and strconv.Itoa, the metric label encoders. */
module Strconv {

  /** strconv.FormatBool. */
  function FormatBool(b: bool): (s: string)
    ensures s == "true" || s == "false"
    ensures s == "true" <==> b
  {
    if b then "true" else "false"
  }

  predicate IsDigit(c: char)
  {
    '0' <= c <= '9'
  }

  predicate AllDigits(s: string)
  {
    forall i :: 0 <= i < |s| ==> IsDigit(s[i])
  }

  function DigitChar(d: nat): (c: char)
    requires d < 10
    ensures IsDigit(c) && c as int - '0' as int == d
  {
    ('0' as int + d) as char
  }

  /** The decimal digits of `n`, most significant first, without leading zeros. */
  function DecimalDigits(n: nat): (s: string)
    ensures |s| >= 1 && AllDigits(s)
    ensures s[0] == '0' ==> n == 0
    decreases n
  {
    if n < 10 then [DigitChar(n)] else DecimalDigits(n / 10) + [DigitChar(n % 10)]
  }

  /** strconv.Itoa: decimal, with a leading '-' for negative numbers and no leading zeros. */
  function Itoa(i: int): (s: string)
    ensures s != [] && (s[0] == '-' <==> i < 0)
    ensures i >= 0 ==> s == "0" || s[0] != '0'
    ensures i < 0 ==> |s| >= 2 && s[1] != '0'
  {
    if i < 0 then "-" + DecimalDigits(-i)
    else
      var d := DecimalDigits(i);
      assert IsDigit(d[0]);
      d
  }

  /** The value of a string of decimal digits: the reference reading of Itoa's output. */
  function DigitsValue(s: string): nat
    requires AllDigits(s)
    decreases |s|
  {
    if s == [] then 0 else DigitsValue(s[..|s| - 1]) * 10 + (s[|s| - 1] as int - '0' as int)
  }

  function Atoi(s: string): int
    requires s != [] && (s[0] == '-' ==> AllDigits(s[1..])) && (s[0] != '-' ==> AllDigits(s))
  {
    if s[0] == '-' then 0 - DigitsValue(s[1..]) as int else DigitsValue(s)
  }

  lemma {:induction false} DigitsRoundTrip(n: nat)
    ensures DigitsValue(DecimalDigits(n)) == n
    decreases n
  {
    if n >= 10 {
      DigitsRoundTrip(n / 10);
      var s := DecimalDigits(n / 10) + [DigitChar(n % 10)];
      assert s[..|s| - 1] == DecimalDigits(n / 10);
    }
  }

  /** Reading Itoa's output back gives the number: no information is lost in the label. */
  lemma ItoaRoundTrip(i: int)
    ensures var s := Itoa(i); s != [] && (s[0] == '-' ==> AllDigits(s[1..])) && (s[0] != '-' ==> AllDigits(s)) && Atoi(s) == i
  {
    if i < 0 {
      var d := DecimalDigits(-i);
      DigitsRoundTrip(-i);
      var s := "-" + d;
      assert s[0] == '-' && s[1..] == d;
      assert Itoa(i) == s;
    } else {
      var d := DecimalDigits(i);
      DigitsRoundTrip(i);
      assert IsDigit(d[0]);
      assert Itoa(i) == d;
    }
  }

  /** Distinct exit codes get distinct label values. */
  lemma ItoaInjective(a: int, b: int)
    requires Itoa(a) == Itoa(b)
    ensures a == b
  {
    ItoaRoundTrip(a);
    ItoaRoundTrip(b);
  }

  /** A digit string that does not start with '0' has a positive value. */
  lemma {:induction false} LeadingDigitPositive(s: string)
    requires s != [] && AllDigits(s) && s[0] != '0'
    ensures DigitsValue(s) >= 1
    decreases |s|
  {
    if |s| > 1 {
      var init := s[..|s| - 1];
      assert init[0] == s[0];
      assert AllDigits(init) by { assert forall j :: 0 <= j < |init| ==> init[j] == s[j]; }
      LeadingDigitPositive(init);
    }
  }

  /** A digit string without leading zeros is the one DecimalDigits gives for its value. */
  lemma {:induction false} CanonicalDigits(s: string)
    requires s != [] && AllDigits(s) && (s[0] == '0' ==> |s| == 1)
    ensures s == DecimalDigits(DigitsValue(s))
    decreases |s|
  {
    var n := DigitsValue(s);
    var last := s[|s| - 1] as int - '0' as int;
    if |s| == 1 {
      assert s[..|s| - 1] == [];
      assert n == DigitsValue(s[..|s| - 1]) * 10 + last;
      assert DigitChar(n) == s[0];
    } else {
      var init := s[..|s| - 1];
      assert init[0] == s[0];
      assert AllDigits(init) by { assert forall j :: 0 <= j < |init| ==> init[j] == s[j]; }
      LeadingDigitPositive(init);
      CanonicalDigits(init);
      assert n == DigitsValue(init) * 10 + last;
      assert n / 10 == DigitsValue(init) && n % 10 == last;
      assert DigitChar(last) == s[|s| - 1];
      assert s == init + [s[|s| - 1]];
    }
  }

  /**
   * The exit-code label is fully determined: a decimal numeral with an
   * optional '-' and no leading zeros that reads back as `i` is Itoa(i).
   */
  lemma ItoaUnique(i: int, s: string)
    requires s != []
    requires s[0] == '-' ==> |s| >= 2 && AllDigits(s[1..]) && s[1] != '0'
    requires s[0] != '-' ==> AllDigits(s) && (s[0] == '0' ==> |s| == 1)
    requires Atoi(s) == i
    ensures s == Itoa(i)
  {
    if s[0] == '-' {
      var d := s[1..];
      LeadingDigitPositive(d);
      CanonicalDigits(d);
      assert s == "-" + d;
    } else {
      CanonicalDigits(s);
      assert IsDigit(s[0]);
    }
  }
}
