/** Exact decimal amounts: the parser and the printer, over any number of decimals. */
module DecimalMoney {
  import opened DecimalDigits
  import opened JsText

  datatype Parsed = Units(value: int) | Invalid | PrecisionExceeded

  const MONEY_SCALE: nat := 2

  function Pow10(n: nat): (p: nat)
    ensures 0 < p
  {
    if n == 0 then 1 else 10 * Pow10(n - 1)
  }

  function Zeros(n: nat): (s: string)
    ensures |s| == n && AllDigits(s)
  {
    seq(n, _ => '0')
  }

  function IndexOf(s: string, c: char): (i: nat)
    ensures i <= |s| && (i < |s| ==> s[i] == c) && forall k :: 0 <= k < i ==> s[k] != c
  {
    if s == "" || s[0] == c then 0 else 1 + IndexOf(s[1..], c)
  }

  /** An integer without superfluous zeros. */
  predicate IsWhole(s: string) {
    s != "" && AllDigits(s) && (s[0] == '0' ==> |s| == 1)
  }

  predicate IsUnsigned(s: string) {
    var dot := IndexOf(s, '.');
    IsWhole(s[..dot]) && (dot < |s| ==> dot + 1 < |s| && AllDigits(s[dot + 1..]))
  }

  function Unsigned(s: string): string {
    if s != "" && s[0] == '-' then s[1..] else s
  }

  function ParseUnsigned(s: string, scale: nat): Parsed
    requires IsUnsigned(s)
  {
    var dot := IndexOf(s, '.');
    var fraction := if dot < |s| then s[dot + 1..] else "";
    if |fraction| > scale then PrecisionExceeded
    else Units(Value(s[..dot]) * Pow10(scale) + Value(fraction + Zeros(scale - |fraction|)))
  }

  function ParseDecimal(value: string, scale: nat): Parsed {
    var normalized := Trim(value);
    var unsigned := Unsigned(normalized);
    if !IsUnsigned(unsigned) then Invalid
    else
      var parsed := ParseUnsigned(unsigned, scale);
      if unsigned != normalized && parsed.Units? then Units(-parsed.value) else parsed
  }

  function PadStart(s: string, n: nat): string {
    if |s| < n then Zeros(n - |s|) + s else s
  }

  function Quotient(a: nat, d: nat): (q: nat)
    requires 0 < d
  {
    a / d
  }

  function Remainder(a: nat, d: nat): (r: nat)
    requires 0 < d
    ensures r < d
  {
    a % d
  }

  function FormatUnsigned(value: nat, scale: nat): string {
    var divisor := Pow10(scale);
    Digits(Quotient(value, divisor)) + (if scale == 0 then "" else "." + PadStart(Digits(Remainder(value, divisor)), scale))
  }

  function FormatDecimal(value: int, scale: nat): string {
    if value < 0 then "-" + FormatUnsigned(-value, scale) else FormatUnsigned(value, scale)
  }

  function MoneyToCents(value: string): Parsed { ParseDecimal(value, MONEY_SCALE) }

  // ---------------------------------------------------------------- round trip

  lemma {:induction false} ValueOfDigits(n: nat)
    ensures Value(Digits(n)) == n
  {
    if 10 <= n {
      ValueOfDigits(n / 10);
      assert Digits(n)[..|Digits(n)| - 1] == Digits(n / 10);
    }
  }

  lemma {:induction false} ValueOfPadded(k: nat, s: string)
    requires AllDigits(s)
    ensures AllDigits(Zeros(k) + s) && Value(Zeros(k) + s) == Value(s)
  {
    if s != "" {
      assert (Zeros(k) + s)[..k + |s| - 1] == Zeros(k) + s[..|s| - 1];
      ValueOfPadded(k, s[..|s| - 1]);
    } else if k != 0 {
      assert (Zeros(k) + s)[..k - 1] == Zeros(k - 1) + "";
      ValueOfPadded(k - 1, "");
    }
  }

  lemma {:induction false} FewDigits(n: nat, scale: nat)
    requires n < Pow10(scale) && 0 < scale
    ensures |Digits(n)| <= scale
  {
    assert Pow10(1) == 10 * Pow10(0) == 10;
    if 10 <= n {
      FewDigits(n / 10, scale - 1);
    }
  }

  /** The printed fraction has exactly `scale` digits and the value it was printed from. */
  lemma {:induction false} FractionIsExact(n: nat, scale: nat)
    requires n < Pow10(scale) && 0 < scale
    ensures var f := PadStart(Digits(n), scale); |f| == scale && AllDigits(f) && Value(f) == n
  {
    FewDigits(n, scale);
    ValueOfDigits(n);
    ValueOfPadded(scale - |Digits(n)|, Digits(n));
  }

  lemma {:induction false} DotIsFound(whole: string, fraction: string)
    requires AllDigits(whole)
    ensures IndexOf(whole + "." + fraction, '.') == |whole|
    ensures IndexOf(whole, '.') == |whole|
  {
    var s := whole + "." + fraction;
    assert s[|whole|] == '.';
    assert forall k :: 0 <= k < |whole| ==> s[k] == whole[k];
  }

  /** An integer part and as many decimals as the scale has. */
  lemma {:induction false} ParseParts(whole: string, fraction: string, scale: nat)
    requires IsWhole(whole) && AllDigits(fraction) && |fraction| == scale != 0
    ensures IsUnsigned(whole + "." + fraction)
    ensures ParseUnsigned(whole + "." + fraction, scale) == Units(Value(whole) * Pow10(scale) + Value(fraction))
  {
    var s := whole + "." + fraction;
    DotIsFound(whole, fraction);
    assert s[..|whole|] == whole && s[|whole| + 1..] == fraction;
    assert fraction + Zeros(0) == fraction;
  }

  lemma {:induction false} ParseInteger(whole: string)
    requires IsWhole(whole)
    ensures IsUnsigned(whole) && ParseUnsigned(whole, 0) == Units(Value(whole))
  {
    DotIsFound(whole, "");
    assert whole[..|whole|] == whole && Zeros(0) == "" && Pow10(0) == 1;
  }

  /** A printed number: unsigned, visible at both ends, and read back as `value`. */
  ghost predicate Prints(s: string, value: nat, scale: nat) {
    && IsUnsigned(s) && ParseUnsigned(s, scale) == Units(value)
    && s != "" && IsDigit(s[0]) && IsDigit(s[|s| - 1])
  }

  lemma {:induction false} PartsArePrinted(w: nat, r: nat, scale: nat)
    requires r < Pow10(scale) && 0 < scale
    ensures Prints(Digits(w) + "." + PadStart(Digits(r), scale), w * Pow10(scale) + r, scale)
  {
    ValueOfDigits(w);
    FractionIsExact(r, scale);
    ParseParts(Digits(w), PadStart(Digits(r), scale), scale);
  }

  lemma {:induction false} DivisionIsExact(a: nat, d: nat)
    requires 0 < d
    ensures a == Quotient(a, d) * d + Remainder(a, d)
  {
  }

  lemma {:induction false} IntegerIsPrinted(value: nat)
    ensures FormatUnsigned(value, 0) == Digits(value)
  {
    assert Pow10(0) == 1;
    DivisionIsExact(value, 1);
    assert Quotient(value, 1) == value;
    assert FormatUnsigned(value, 0) == Digits(value) + "";
  }

  lemma {:induction false} UnsignedRoundTrip(value: nat, scale: nat)
    ensures Prints(FormatUnsigned(value, scale), value, scale)
  {
    if scale == 0 {
      IntegerIsPrinted(value);
      ValueOfDigits(value);
      ParseInteger(Digits(value));
    } else {
      var w, r := Quotient(value, Pow10(scale)), Remainder(value, Pow10(scale));
      DivisionIsExact(value, Pow10(scale));
      PartsArePrinted(w, r, scale);
      assert Digits(w) + ("." + PadStart(Digits(r), scale)) == Digits(w) + "." + PadStart(Digits(r), scale);
    }
  }

  lemma {:induction false} TrimKeepsVisible(s: string)
    requires s != "" && !IsSpace(s[0]) && !IsSpace(s[|s| - 1])
    ensures Trim(s) == s
  {
    assert TrimStart(s) == s;
  }

  lemma {:induction false} PositiveIsRead(u: string, n: nat, scale: nat)
    requires Prints(u, n, scale)
    ensures ParseDecimal(u, scale) == Units(n)
  {
    TrimKeepsVisible(u);
  }

  lemma {:induction false} NegativeIsRead(u: string, n: int, scale: nat)
    requires 0 <= n && Prints(u, n, scale)
    ensures ParseDecimal("-" + u, scale) == Units(-n)
  {
    var s := "-" + u;
    TrimKeepsVisible(s);
    assert s[1..] == u;
  }

  /** Printing an amount and reading it back is exact, for every amount and every number of decimals. */
  lemma {:induction false} DecimalRoundTrip(value: int, scale: nat)
    ensures ParseDecimal(FormatDecimal(value, scale), scale) == Units(value)
  {
    var n: nat := if value < 0 then -value else value;
    UnsignedRoundTrip(n, scale);
    if value < 0 { NegativeIsRead(FormatUnsigned(n, scale), n, scale); }
    else { PositiveIsRead(FormatUnsigned(n, scale), n, scale); }
  }
}
