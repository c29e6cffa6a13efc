/** JavaScript's string-to-number conversions, `Number(s)` (and the
    `isNaN(s)` test built on it), `parseFloat(s)` and `parseInt(s)`, for
    decimal notation, and the decimal rendering of a natural number. A
    result of `None` stands for `NaN`. */
module Numbers {
  import opened Opt

  predicate IsDigit(c: char)
  {
    '0' <= c <= '9'
  }

  predicate AllDigits(s: string)
  {
    forall i :: 0 <= i < |s| ==> IsDigit(s[i])
  }

  /** The value of a string of decimal digits, most significant first. */
  function DigitsValue(ds: string): (v: nat)
    requires AllDigits(ds)
  {
    if ds == [] then 0
    else DigitsValue(ds[..|ds| - 1]) * 10 + (ds[|ds| - 1] as int - '0' as int)
  }

  /** Length of the run of digits at the start of `s`. */
  function DigitRun(s: string): (n: nat)
    ensures n <= |s|
    ensures AllDigits(s[..n])
    ensures n < |s| ==> !IsDigit(s[n])
  {
    if s != [] && IsDigit(s[0]) then
      var m := DigitRun(s[1..]);
      assert s[..1 + m] == [s[0]] + s[1..][..m];
      1 + m
    else 0
  }

  /** The longest prefix of a string that reads as `[+-]digits[.digits]`,
      split into its parts; `length` is how many characters it spans. */
  datatype Decimal = Decimal(negative: bool, whole: string, fraction: string, length: nat)
  {
    predicate HasDigits()
    {
      |whole| + |fraction| > 0
    }
  }

  /** 1 when `s` opens with a sign, else 0. */
  function SignLength(s: string): (n: nat)
    ensures n <= |s|
  {
    if s != [] && (s[0] == '-' || s[0] == '+') then 1 else 0
  }

  function Scan(s: string): (d: Decimal)
    ensures AllDigits(d.whole) && AllDigits(d.fraction)
    ensures d.length <= |s|
  {
    var start := SignLength(s);
    var signed := start == 1;
    var run := DigitRun(s[start..]);
    var afterWhole := start + run;
    assert s[start..afterWhole] == s[start..][..run];
    if afterWhole < |s| && s[afterWhole] == '.' then
      var frun := DigitRun(s[afterWhole + 1..]);
      var end := afterWhole + 1 + frun;
      assert s[afterWhole + 1..end] == s[afterWhole + 1..][..frun];
      Decimal(signed && s[0] == '-', s[start..afterWhole], s[afterWhole + 1..end], end)
    else
      Decimal(signed && s[0] == '-', s[start..afterWhole], "", afterWhole)
  }

  /** The value of the digits after a decimal point: ".25" is 0.25. Each
      digit contributes a tenth of the one before, so the total stays
      below one. */
  function FractionValue(fraction: string): (v: real)
    requires AllDigits(fraction)
    ensures 0.0 <= v < 1.0
  {
    if fraction == [] then 0.0
    else ((fraction[0] as int - '0' as int) as real + FractionValue(fraction[1..])) / 10.0
  }

  function Value(d: Decimal): real
    requires AllDigits(d.whole) && AllDigits(d.fraction)
  {
    var magnitude := DigitsValue(d.whole) as real + FractionValue(d.fraction);
    if d.negative then -magnitude else magnitude
  }

  /** `Number(s)`: the whole string must be a number; the empty string is 0. */
  function Number(s: string): Option<real>
  {
    if s == [] then Some(0.0)
    else
      var d := Scan(s);
      if d.HasDigits() && d.length == |s| then Some(Value(d)) else None
  }

  /** `parseFloat(s)`: the longest numeric prefix. */
  function ParseFloat(s: string): Option<real>
  {
    var d := Scan(s);
    if d.HasDigits() then Some(Value(d)) else None
  }

  /** `parseInt(s)` (radix 10): the sign and the digits before any point. */
  function ParseInt(s: string): Option<int>
  {
    var d := Scan(s);
    if |d.whole| > 0 then Some(if d.negative then -(DigitsValue(d.whole) as int) else DigitsValue(d.whole))
    else None
  }

  /** A non-empty string that `Number` accepts reads the same under `parseFloat`. */
  lemma NumberAgreesWithParseFloat(s: string)
    requires s != [] && Number(s).Some?
    ensures ParseFloat(s) == Number(s)
  {
  }

  /** `parseInt` truncates toward zero the value `parseFloat` reads. */
  lemma ParseIntTruncates(s: string)
    requires ParseInt(s).Some?
    ensures ParseFloat(s).Some?
    ensures var v, n := ParseFloat(s).value, ParseInt(s).value;
      (v >= 0.0 ==> n as real <= v < n as real + 1.0) && (v <= 0.0 ==> n as real - 1.0 < v <= n as real)
  {
    var d := Scan(s);
    var w, f := DigitsValue(d.whole) as real, FractionValue(d.fraction);
    assert Value(d) == if d.negative then -(w + f) else w + f;
  }

  /** Where `parseFloat` reads a number, `parseInt` gives `NaN` exactly
      when a decimal point comes first after the optional sign (".5",
      "-.0"); the number read then lies strictly between -1 and 1, which
      truncation would have turned into 0. */
  lemma ParseIntNeedsWholeDigits(s: string)
    requires ParseFloat(s).Some?
    ensures SignLength(s) < |s|
    ensures ParseInt(s).None? <==> s[SignLength(s)] == '.'
    ensures ParseInt(s).None? ==> -1.0 < ParseFloat(s).value < 1.0
  {
    var d := Scan(s);
    var start := SignLength(s);
    assert d.whole == s[start..][..DigitRun(s[start..])];
    if d.whole == [] {
      assert start < |s| && s[start] == '.';
      assert DigitsValue(d.whole) == 0;
    } else {
      assert s[start] == d.whole[0];
    }
  }

  /** ".5" reads 0.5 under `parseFloat` but `NaN` under `parseInt`. */
  lemma ParseIntOfFraction()
    ensures ParseFloat(".5") == Some(0.5) && ParseInt(".5") == None
  {
    ParseIntNeedsWholeDigits(".5");
    var d := Scan(".5");
    assert d.fraction == "5";
    assert FractionValue("5") == 0.5 by {
      assert "5"[1..] == [];
    }
  }

  /** Decimal digits of `n`, as `String(n)` renders a non-negative integer. */
  function Show(n: nat): (s: string)
    ensures s != [] && AllDigits(s)
  {
    var digit := ('0' as int + n % 10) as char;
    if n < 10 then [digit] else Show(n / 10) + [digit]
  }

  lemma {:induction false} ShowValue(n: nat)
    ensures DigitsValue(Show(n)) == n
  {
    var s := Show(n);
    assert s[..|s| - 1] == if n < 10 then [] else Show(n / 10);
    if n >= 10 {
      ShowValue(n / 10);
    }
  }

  /** Rendering a natural number and reading it back gives the number. */
  lemma {:induction false} NumberShow(n: nat)
    ensures Number(Show(n)) == Some(n as real)
    ensures ParseInt(Show(n)) == Some(n)
  {
    var s := Show(n);
    assert s[0..] == s;
    ShowValue(n);
    assert s[..|s|] == s;
  }
}
