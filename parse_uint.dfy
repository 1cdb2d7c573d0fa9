/** The decimal parser the socket arguments go through: Go's
    `strconv.ParseUint(value, 10, 64)`. Only base 10 and a 64-bit result are
    modelled, since those are the only arguments the tool passes. */
module ParseUint {
  import opened Errors

  /** 2^64 - 1, the largest value a 64-bit result can hold. */
  const MaxUint64: nat := 0xFFFF_FFFF_FFFF_FFFF

  predicate IsDigit(c: char) {
    '0' <= c <= '9'
  }

  predicate AllDigits(s: string) {
    forall i | 0 <= i < |s| :: IsDigit(s[i])
  }

  function DigitValue(c: char): (d: nat)
    requires IsDigit(c)
    ensures d < 10
  {
    c as int - '0' as int
  }

  /** Reference meaning of a digit string: its value in base 10, most
      significant digit first. */
  function DecimalValue(s: string): nat
    requires AllDigits(s)
  {
    if s == [] then 0 else DecimalValue(s[..|s| - 1]) * 10 + DigitValue(s[|s| - 1])
  }

  /** What `ParseUint(s, 10, 64)` does: the empty string is a syntax error;
      otherwise the digits are read left to right and the first problem ends
      the scan. */
  function Parse(s: string): Result<nat> {
    if s == [] then Err(NumError(s, Syntax)) else Scan(s, 0, 0)
  }

  /** One step of the digit loop with `n` the value of `s[..i]`. A character
      outside '0'..'9' (a sign, an underscore, a letter) is a syntax error. The
      library's two overflow tests (`n >= cutoff`, then `n*10 + d` wrapping or
      exceeding the maximum) together reject exactly the steps at which
      `n*10 + d` would pass 2^64 - 1; that is a range error. */
  function Scan(s: string, i: nat, n: nat): Result<nat>
    requires i <= |s|
    decreases |s| - i
  {
    if i == |s| then Ok(n)
    else if !IsDigit(s[i]) then Err(NumError(s, Syntax))
    else if n * 10 + DigitValue(s[i]) > MaxUint64 then Err(NumError(s, Range))
    else Scan(s, i + 1, n * 10 + DigitValue(s[i]))
  }

  lemma DecimalValueStep(s: string, i: nat)
    requires i < |s| && AllDigits(s[..i + 1])
    ensures AllDigits(s[..i]) && DecimalValue(s[..i + 1]) == DecimalValue(s[..i]) * 10 + DigitValue(s[i])
  {
    assert s[..i + 1][..i] == s[..i];
  }

  /** A prefix of a digit string is worth no more than the whole string. */
  lemma {:induction false} PrefixValueBounded(s: string, j: nat)
    requires AllDigits(s) && j <= |s|
    ensures AllDigits(s[..j]) && DecimalValue(s[..j]) <= DecimalValue(s)
    decreases |s| - j
  {
    if j < |s| {
      PrefixValueBounded(s, j + 1);
      DecimalValueStep(s, j);
    } else {
      assert s[..j] == s;
    }
  }

  lemma {:induction false} ScanMeaning(s: string, i: nat, n: nat)
    requires i <= |s| && AllDigits(s[..i]) && n == DecimalValue(s[..i]) && n <= MaxUint64
    ensures Scan(s, i, n).Ok? <==> AllDigits(s) && DecimalValue(s) <= MaxUint64
    ensures Scan(s, i, n).Ok? ==> Scan(s, i, n).value == DecimalValue(s)
    ensures Scan(s, i, n).Err? ==> Scan(s, i, n).error.NumError? && Scan(s, i, n).error.num == s
    decreases |s| - i
  {
    if i == |s| {
      assert s[..i] == s;
    } else if !IsDigit(s[i]) {
    } else {
      assert s[..i + 1] == s[..i] + [s[i]];
      DecimalValueStep(s, i);
      if n * 10 + DigitValue(s[i]) > MaxUint64 {
        if AllDigits(s) {
          PrefixValueBounded(s, i + 1);
        }
      } else {
        ScanMeaning(s, i + 1, n * 10 + DigitValue(s[i]));
      }
    }
  }

  /** ParseUint accepts exactly the non-empty strings of decimal digits whose
      value fits in 64 bits, and then yields that value; every rejection is a
      NumError carrying the input. */
  lemma ParseMeaning(s: string)
    ensures Parse(s).Ok? <==> s != [] && AllDigits(s) && DecimalValue(s) <= MaxUint64
    ensures Parse(s).Ok? ==> Parse(s).value == DecimalValue(s)
    ensures Parse(s).Err? ==> Parse(s).error.NumError? && Parse(s).error.num == s
  {
    if s != [] {
      assert s[..0] == [];
      ScanMeaning(s, 0, 0);
    }
  }

  lemma {:induction false} ScanStopsAtNonDigit(s: string, i: nat, n: nat, k: nat)
    requires i <= k < |s| && AllDigits(s[..k]) && !IsDigit(s[k]) && DecimalValue(s[..k]) <= MaxUint64
    requires AllDigits(s[..i]) && n == DecimalValue(s[..i])
    ensures Scan(s, i, n) == Err(NumError(s, Syntax))
    decreases k - i
  {
    if i < k {
      assert AllDigits(s[..i + 1]) by { assert forall j | 0 <= j < i + 1 :: s[..i + 1][j] == s[..k][j]; }
      DecimalValueStep(s, i);
      assert s[..k][..i + 1] == s[..i + 1];
      PrefixValueBounded(s[..k], i + 1);
      ScanStopsAtNonDigit(s, i + 1, n * 10 + DigitValue(s[i]), k);
    }
  }

  /** The first character outside '0'..'9' is a syntax error, provided the
      digits before it still fit in 64 bits: this covers a leading sign, an
      underscore and any letter. */
  lemma ParseSyntaxError(s: string, k: nat)
    requires k < |s| && AllDigits(s[..k]) && !IsDigit(s[k]) && DecimalValue(s[..k]) <= MaxUint64
    ensures Parse(s) == Err(NumError(s, Syntax))
  {
    assert s[..0] == [];
    ScanStopsAtNonDigit(s, 0, 0, k);
  }

  lemma {:induction false} ScanStopsAtOverflow(s: string, i: nat, n: nat, k: nat)
    requires i < k <= |s| && AllDigits(s[..k]) && DecimalValue(s[..k]) > MaxUint64
    requires AllDigits(s[..i]) && n == DecimalValue(s[..i]) && n <= MaxUint64
    ensures Scan(s, i, n) == Err(NumError(s, Range))
    decreases k - i
  {
    assert AllDigits(s[..i + 1]) by { assert forall j | 0 <= j < i + 1 :: s[..i + 1][j] == s[..k][j]; }
    DecimalValueStep(s, i);
    if n * 10 + DigitValue(s[i]) <= MaxUint64 {
      if i + 1 == k {
      } else {
        ScanStopsAtOverflow(s, i + 1, n * 10 + DigitValue(s[i]), k);
      }
    }
  }

  /** Digits whose value passes 2^64 - 1 are a range error, even when a
      non-digit follows them: the scan stops at the overflow. */
  lemma ParseRangeError(s: string, k: nat)
    requires k <= |s| && AllDigits(s[..k]) && DecimalValue(s[..k]) > MaxUint64
    ensures Parse(s) == Err(NumError(s, Range))
  {
    assert s[..0] == [];
    ScanStopsAtOverflow(s, 0, 0, k);
  }
}
