/** Token amounts in attos, read from and written as decimal text. */
module TokenAmount {
  import opened Decimals
  import opened Wrappers

  const TOKEN_TO_RAW_CONVERSION: nat := 1_000_000_000_000_000_000
  const TENTH_OF_A_TOKEN: nat := 100_000_000_000_000_000
  const TOKEN_TO_RAW_POWER_OF_10_CONVERSION: nat := 18

  datatype EvmError = CantParseUnits | CantParseRemainder | ExcessiveValue | LossOfPrecision
  datatype Result<T> = Ok(value: T) | Err(error: EvmError)

  // ---- decimal notation ----

  function Pow10(k: nat): (p: nat)
    ensures p > 0
  {
    if k == 0 then 1 else 10 * Pow10(k - 1)
  }

  /** `n` times ten to the power of `k`. */
  function Scaled(n: nat, k: nat): nat
  {
    if k == 0 then n else 10 * Scaled(n, k - 1)
  }

  /** The number a string of digits writes; the empty string writes zero. */
  function Value(s: string): nat
    requires Digits(s)
  {
    if s == "" then 0 else 10 * Value(s[..|s| - 1]) + (s[|s| - 1] - '0') as nat
  }

  function Zeros(k: nat): (s: string)
    ensures |s| == k && Digits(s)
  {
    if k == 0 then "" else Zeros(k - 1) + "0"
  }

  /** Pad with zeros on the left to a width. */
  function Padded(s: string, width: nat): string
  {
    if |s| < width then Zeros(width - |s|) + s else s
  }

  function TrimEndZeros(s: string): string
  {
    if s != "" && s[|s| - 1] == '0' then TrimEndZeros(s[..|s| - 1]) else s
  }

  /** A number of 256 bits in decimal. */
  function ParseAmount(s: string): Option<nat>
  {
    if Digits(s) && Value(s) < U256_LIMIT then Some(Value(s)) else None
  }

  /** Addition of 256-bit numbers. */
  function WrappingAdd(a: nat, b: nat): nat
  {
    if a + b < U256_LIMIT then a + b else a + b - U256_LIMIT
  }

  // ---- reading and writing ----

  function Dot(s: string): (i: nat)
    ensures i <= |s| && (forall j | 0 <= j < i :: s[j] != '.') && (i < |s| ==> s[i] == '.')
  {
    if s == "" || s[0] == '.' then 0 else 1 + Dot(s[1..])
  }

  function Remainder(text: string): Result<nat>
  {
    var s := TrimEndZeros(text);
    if s == "" then Ok(0)
    else
      var parsed := ParseAmount(s);
      if parsed.None? then Err(CantParseRemainder)
      else if |s| > TOKEN_TO_RAW_POWER_OF_10_CONVERSION then Err(LossOfPrecision)
      else Ok(Scaled(parsed.value, TOKEN_TO_RAW_POWER_OF_10_CONVERSION - |s|)) // always below one token
  }

  function FromStr(s: string): Result<nat>
  {
    var i := Dot(s);
    var units := ParseAmount(s[..i]);
    if units.None? then Err(CantParseUnits)
    else if units.value * TOKEN_TO_RAW_CONVERSION >= U256_LIMIT then Err(ExcessiveValue)
    else
      var remainder := Remainder(if i < |s| then s[i + 1..] else "");
      if remainder.Err? then remainder
      else Ok(WrappingAdd(units.value * TOKEN_TO_RAW_CONVERSION, remainder.value))
  }

  function ToStr(amount: nat): string
  {
    Decimal(amount / TOKEN_TO_RAW_CONVERSION) + "." + Padded(Decimal(amount % TOKEN_TO_RAW_CONVERSION), 9)
  }

  // ---- facts about decimals ----

  lemma {:induction false} PowerAdds(a: nat, b: nat)
    ensures Pow10(a + b) == Pow10(a) * Pow10(b)
  {
    if a > 0 {
      PowerAdds(a - 1, b);
      assert Pow10(a) * Pow10(b) == 10 * (Pow10(a - 1) * Pow10(b));
    }
  }

  lemma {:induction false} ScaledIsProduct(n: nat, k: nat)
    ensures Scaled(n, k) == n * Pow10(k)
  {
    if k > 0 {
      ScaledIsProduct(n, k - 1);
      assert n * Pow10(k) == 10 * (n * Pow10(k - 1));
    }
  }

  lemma OneToken()
    ensures Pow10(18) == TOKEN_TO_RAW_CONVERSION
  {
    assert Pow10(6) == 1_000_000;
    PowerAdds(6, 6);
    PowerAdds(6, 12);
  }

  lemma Shift(x: nat, p: nat, v: nat, d: nat)
    ensures 10 * (x * p + v) + d == x * (10 * p) + (10 * v + d)
  {
  }

  lemma {:induction false} ValueOfConcat(a: string, b: string)
    requires Digits(a) && Digits(b)
    ensures Digits(a + b) && Value(a + b) == Value(a) * Pow10(|b|) + Value(b)
    decreases |b|
  {
    if b == "" {
      assert a + b == a;
    } else {
      var n := |b| - 1;
      ValueOfConcat(a, b[..n]);
      assert (a + b)[..|a + b| - 1] == a + b[..n];
      assert (a + b)[|a + b| - 1] == b[n];
      Shift(Value(a), Pow10(n), Value(b[..n]), (b[n] - '0') as nat);
    }
  }

  lemma {:induction false} ValueIsBelow(s: string)
    requires Digits(s)
    ensures Value(s) < Pow10(|s|)
    decreases |s|
  {
    if s != "" {
      ValueIsBelow(s[..|s| - 1]);
    }
  }

  lemma {:induction false} ZerosAreZero(k: nat)
    ensures Value(Zeros(k)) == 0
  {
    if k > 0 {
      ZerosAreZero(k - 1);
      assert Zeros(k)[..k - 1] == Zeros(k - 1);
    }
  }

  lemma {:induction false} DecimalIsExact(n: nat)
    ensures Value(Decimal(n)) == n && n < Pow10(|Decimal(n)|) && (n > 0 ==> Pow10(|Decimal(n)| - 1) <= n)
  {
    if n >= 10 {
      DecimalIsExact(n / 10);
      var s := Decimal(n);
      assert s[..|s| - 1] == Decimal(n / 10);
    } else {
      assert Decimal(n)[..0] == "";
      assert Pow10(0) == 1 && Pow10(1) == 10;
    }
  }

  lemma {:induction false} TrimmedPart(s: string) returns (k: nat)
    ensures s == TrimEndZeros(s) + Zeros(k)
    ensures TrimEndZeros(s) != "" ==> TrimEndZeros(s)[|TrimEndZeros(s)| - 1] != '0'
    decreases |s|
  {
    if s != "" && s[|s| - 1] == '0' {
      k := TrimmedPart(s[..|s| - 1]);
      k := k + 1;
      assert s == s[..|s| - 1] + "0";
    } else {
      k := 0;
    }
  }

  lemma TrimmedValue(s: string) returns (k: nat)
    requires Digits(s)
    ensures Digits(TrimEndZeros(s)) && |s| == |TrimEndZeros(s)| + k
    ensures Value(s) == Value(TrimEndZeros(s)) * Pow10(k)
  {
    k := TrimmedPart(s);
    var t := TrimEndZeros(s);
    forall i | 0 <= i < |t| ensures IsDigit(t[i]) {
      assert t[i] == s[i];
    }
    ValueOfConcat(t, Zeros(k));
    ZerosAreZero(k);
  }

  // ---- what is read ----

  /** The attos written by at most eighteen digits after the dot. */
  function Attos(digits: string): nat
    requires Digits(digits) && |digits| <= 18
  {
    Scaled(Value(digits), 18 - |digits|)
  }

  lemma ScaledBelow(v: nat, q: nat, p: nat)
    requires v < q && p > 0
    ensures v * p < q * p && v <= v * p
  {
  }

  lemma AttosAreBelow(digits: string)
    requires Digits(digits) && |digits| <= 18
    ensures Value(digits) <= Attos(digits) < TOKEN_TO_RAW_CONVERSION
  {
    OneToken();
    ValueIsBelow(digits);
    PowerAdds(|digits|, 18 - |digits|);
    ScaledBelow(Value(digits), Pow10(|digits|), Pow10(18 - |digits|));
    ScaledIsProduct(Value(digits), 18 - |digits|);
  }

  lemma RemainderIs(f: string)
    requires Digits(f) && |TrimEndZeros(f)| <= 18
    ensures Digits(TrimEndZeros(f)) && Remainder(f) == Ok(Attos(TrimEndZeros(f)))
  {
    var k := TrimmedValue(f);
    AttosAreBelow(TrimEndZeros(f));
    ScaledIsSameIff(0, 18);
  }

  lemma Regroup(v: nat, p: nat, q: nat, z: nat)
    ensures v * p * (q * z) == v * z * (q * p)
  {
  }

  /** The digits after the dot are read exactly: as attos they are the fraction of a token they write. */
  lemma RemainderIsExact(f: string)
    requires Digits(f) && |TrimEndZeros(f)| <= 18
    ensures Remainder(f).Ok? && Remainder(f).value < TOKEN_TO_RAW_CONVERSION
    ensures Remainder(f).value * Pow10(|f|) == Value(f) * TOKEN_TO_RAW_CONVERSION
  {
    var t := TrimEndZeros(f);
    RemainderIs(f);
    AttosAreBelow(t);
    var k := TrimmedValue(f);
    OneToken();
    PowerAdds(|t|, 18 - |t|);
    PowerAdds(|t|, k);
    ScaledIsProduct(Value(t), 18 - |t|);
    Regroup(Value(t), Pow10(18 - |t|), Pow10(|t|), Pow10(k));
  }

  lemma {:induction false} DotAfter(u: string, f: string)
    requires Digits(u)
    ensures Dot(u + "." + f) == |u|
  {
    var i := Dot(u + "." + f);
    assert (u + "." + f)[|u|] == '.';
    assert forall j | 0 <= j < |u| :: (u + "." + f)[j] == u[j];
  }

  lemma ReadParts(u: string, f: string)
    requires Digits(u) && Digits(f) && Value(u) * TOKEN_TO_RAW_CONVERSION < U256_LIMIT
    ensures FromStr(u + "." + f) == if Remainder(f).Err? then Remainder(f)
                                    else Ok(WrappingAdd(Value(u) * TOKEN_TO_RAW_CONVERSION, Remainder(f).value))
  {
    DotAfter(u, f);
    var s := u + "." + f;
    assert s[..|u|] == u && s[|u| + 1..] == f;
  }

  /** Text that is read is worth what it writes: scaled by the digits after the dot, both are the same number of
      attos (up to the wrap-around of the last addition). */
  lemma ReadIsExact(u: string, f: string) returns (fraction: nat)
    requires Digits(u) && Digits(f) && Value(u) * TOKEN_TO_RAW_CONVERSION < U256_LIMIT && |TrimEndZeros(f)| <= 18
    ensures FromStr(u + "." + f) == Ok(WrappingAdd(Value(u) * TOKEN_TO_RAW_CONVERSION, fraction))
    ensures fraction < TOKEN_TO_RAW_CONVERSION
    ensures Digits(u + f)
    ensures (Value(u) * TOKEN_TO_RAW_CONVERSION + fraction) * Pow10(|f|) == Value(u + f) * TOKEN_TO_RAW_CONVERSION
  {
    ReadParts(u, f);
    RemainderIsExact(f);
    fraction := Remainder(f).value;
    ValueOfConcat(u, f);
    Distribute(Value(u), TOKEN_TO_RAW_CONVERSION, fraction, Pow10(|f|), Value(f));
  }

  lemma Distribute(u: nat, t: nat, w: nat, p: nat, f: nat)
    requires w * p == f * t
    ensures (u * t + w) * p == (u * p + f) * t
  {
  }

  // ---- what is refused ----

  lemma {:induction false} LastDigit(s: string)
    requires Digits(s) && s != ""
    ensures Value(s) % 10 == (s[|s| - 1] - '0') as nat
  {
  }

  lemma Cancel(a: nat, b: nat, p: nat)
    requires p > 0 && a * p == b * p
    ensures a == b
  {
  }

  lemma Reorder(m: nat, a: nat, b: nat)
    ensures m * (a * b) == m * b * a && m * (a * b) == m * a * b
  {
  }

  lemma TenTimes(m: nat, p: nat)
    ensures m * (10 * p) == 10 * (m * p)
  {
  }

  lemma MultipleOfTen(v: nat, m: nat, j: nat)
    requires v * Pow10(18) == m * Pow10(18 + j) && j > 0
    ensures v % 10 == 0
  {
    PowerAdds(18, j);
    Reorder(m, Pow10(18), Pow10(j));
    Cancel(v, m * Pow10(j), Pow10(18));
    TenTimes(m, Pow10(j - 1));
  }

  /** The digits after the dot write a whole number of attos. */
  ghost predicate WholeAttos(f: string)
    requires Digits(f)
  {
    exists attos: nat :: IsFraction(f, attos)
  }

  ghost predicate IsFraction(f: string, attos: nat)
    requires Digits(f)
  {
    attos * Pow10(|f|) == Value(f) * TOKEN_TO_RAW_CONVERSION
  }

  lemma LongIsNotWhole(f: string, attos: nat)
    requires Digits(f) && |TrimEndZeros(f)| > 18
    ensures !IsFraction(f, attos)
  {
    if IsFraction(f, attos) {
      var t := TrimEndZeros(f);
      var k := TrimmedValue(f);
      var _ := TrimmedPart(f);
      OneToken();
      PowerAdds(|t|, k);
      Reorder(attos, Pow10(|t|), Pow10(k));
      assert attos * Pow10(|t|) * Pow10(k) == Value(t) * Pow10(18) * Pow10(k) by {
        Reorder(Value(t), Pow10(18), Pow10(k));
      }
      Cancel(attos * Pow10(|t|), Value(t) * Pow10(18), Pow10(k));
      MultipleOfTen(Value(t), attos, |t| - 18);
      LastDigit(t);
    }
  }

  /** No representable amount is refused and no other accepted: digits after the dot are read if and only if they
      write a whole number of attos. */
  lemma ReadIffWhole(u: string, f: string)
    requires Digits(u) && Digits(f) && Value(u) * TOKEN_TO_RAW_CONVERSION < U256_LIMIT
    ensures FromStr(u + "." + f).Ok? <==> WholeAttos(f)
  {
    ReadParts(u, f);
    if |TrimEndZeros(f)| <= 18 {
      RemainderIsExact(f);
      assert IsFraction(f, Remainder(f).value);
    } else {
      forall attos: nat ensures !IsFraction(f, attos) {
        LongIsNotWhole(f, attos);
      }
    }
  }

  /** Zeros at the end of the digits after the dot change nothing. */
  lemma TrailingZero(u: string, f: string)
    requires Digits(u)
    ensures FromStr(u + "." + f + "0") == FromStr(u + "." + f)
  {
    DotAfter(u, f);
    DotAfter(u, f + "0");
    var s, z := u + "." + f, u + "." + f + "0";
    assert z == u + "." + (f + "0");
    assert s[..|u|] == z[..|u|] && s[|u| + 1..] == f && z[|u| + 1..] == f + "0";
    assert (f + "0")[..|f + "0"| - 1] == f;
  }

  // ---- writing and reading back ----

  lemma TenthOfAToken()
    ensures Pow10(17) == TENTH_OF_A_TOKEN
  {
    OneToken();
  }

  lemma DecimalLength(r: nat)
    requires r < TOKEN_TO_RAW_CONVERSION
    ensures |Decimal(r)| <= 18 && (|Decimal(r)| == 18 <==> r >= TENTH_OF_A_TOKEN)
  {
    var n := |Decimal(r)|;
    DecimalIsExact(r);
    OneToken();
    TenthOfAToken();
    if n > 18 {
      PowerGrows(18, n - 1);
    } else if n < 18 {
      PowerGrows(n, 17);
    }
  }

  lemma PaddedIs(d: string, width: nat)
    requires Digits(d)
    ensures Digits(Padded(d, width)) && Value(Padded(d, width)) == Value(d)
    ensures |Padded(d, width)| == if |d| < width then width else |d|
  {
    if |d| < width {
      LeadingZeros(width - |d|, d);
    }
  }

  lemma LeadingZeros(k: nat, d: string)
    requires Digits(d)
    ensures Digits(Zeros(k) + d) && Value(Zeros(k) + d) == Value(d)
  {
    ZerosAreZero(k);
    ValueOfConcat(Zeros(k), d);
    assert 0 * Pow10(|d|) == 0;
  }

  lemma {:induction false} PowerGrows(a: nat, b: nat)
    requires a <= b
    ensures Pow10(a) <= Pow10(b)
    decreases b
  {
    if a < b {
      PowerGrows(a, b - 1);
    }
  }

  lemma {:induction false} ShortTrim(s: string)
    ensures |TrimEndZeros(s)| <= |s|
    decreases |s|
  {
    if s != "" && s[|s| - 1] == '0' {
      ShortTrim(s[..|s| - 1]);
    }
  }

  lemma DigitsAreScaled(f: string)
    requires Digits(f) && |f| <= 18
    ensures Remainder(f) == Ok(Attos(f)) && Attos(f) < TOKEN_TO_RAW_CONVERSION
  {
    ShortTrim(f);
    RemainderIs(f);
    AttosAreBelow(f);
    TrimmedAttos(f);
  }

  lemma TrimmedAttos(f: string)
    requires Digits(f) && |f| <= 18
    ensures |TrimEndZeros(f)| <= 18 && Digits(TrimEndZeros(f)) && Attos(TrimEndZeros(f)) == Attos(f)
  {
    var t := TrimEndZeros(f);
    var k := TrimmedValue(f);
    ScaledIsProduct(Value(t), k);
    ScaledTwice(Value(t), k, 18 - |f|);
  }

  lemma {:induction false} ScaledTwice(n: nat, a: nat, b: nat)
    ensures Scaled(Scaled(n, a), b) == Scaled(n, a + b)
  {
    if b > 0 {
      ScaledTwice(n, a, b - 1);
    }
  }

  lemma {:induction false} ScaledIsSameIff(n: nat, k: nat)
    ensures Scaled(n, k) >= n && (Scaled(n, k) == n <==> n == 0 || k == 0)
  {
    if k > 0 {
      ScaledIsSameIff(n, k - 1);
    }
  }

  /** Whole tokens are read as written; the rest comes out scaled by the digits missing to eighteen. */
  lemma ReadIsScaled(u: string, f: string)
    requires Digits(u) && Digits(f) && |f| <= 18 && Value(u) * TOKEN_TO_RAW_CONVERSION < U256_LIMIT
    ensures FromStr(u + "." + f)
            == Ok(WrappingAdd(Value(u) * TOKEN_TO_RAW_CONVERSION, Scaled(Value(f), 18 - |f|)))
  {
    DigitsAreScaled(f);
    ReadParts(u, f);
  }

  lemma WrapsBackIff(base: nat, a: nat, b: nat)
    requires base + a < U256_LIMIT && b < U256_LIMIT && a <= b
    ensures WrappingAdd(base, b) == base + a <==> a == b
  {
  }

  lemma ReadAsAttosIff(result: Result<nat>, amount: nat, digits: nat)
    requires digits <= 18 && amount < U256_LIMIT
    requires var unit, r := amount / TOKEN_TO_RAW_CONVERSION, amount % TOKEN_TO_RAW_CONVERSION;
             && Scaled(r, 18 - digits) < TOKEN_TO_RAW_CONVERSION
             && result == Ok(WrappingAdd(unit * TOKEN_TO_RAW_CONVERSION, Scaled(r, 18 - digits)))
    ensures result == Ok(amount) <==> amount % TOKEN_TO_RAW_CONVERSION == 0 || digits == 18
  {
    var unit, r := amount / TOKEN_TO_RAW_CONVERSION, amount % TOKEN_TO_RAW_CONVERSION;
    ScaledIsSameIff(r, 18 - digits);
    WrapsBackIff(unit * TOKEN_TO_RAW_CONVERSION, r, Scaled(r, 18 - digits));
  }

  lemma WrittenParts(amount: nat)
    ensures var u, f := Decimal(amount / TOKEN_TO_RAW_CONVERSION), Padded(Decimal(amount % TOKEN_TO_RAW_CONVERSION), 9);
            && ToStr(amount) == u + "." + f && Digits(f) && |f| <= 18
            && Value(u) == amount / TOKEN_TO_RAW_CONVERSION && Value(f) == amount % TOKEN_TO_RAW_CONVERSION
            && (|f| == 18 <==> amount % TOKEN_TO_RAW_CONVERSION >= TENTH_OF_A_TOKEN)
  {
    var unit, r := amount / TOKEN_TO_RAW_CONVERSION, amount % TOKEN_TO_RAW_CONVERSION;
    DecimalIsExact(unit);
    DecimalIsExact(r);
    DecimalLength(r);
    PaddedIs(Decimal(r), 9);
  }

  /** Reading back what was written gives the whole tokens, and the rest scaled by the digits missing to eighteen. */
  lemma ReadBack(amount: nat) returns (digits: nat)
    requires amount < U256_LIMIT
    ensures digits <= 18 && (digits == 18 <==> amount % TOKEN_TO_RAW_CONVERSION >= TENTH_OF_A_TOKEN)
    ensures Scaled(amount % TOKEN_TO_RAW_CONVERSION, 18 - digits) < TOKEN_TO_RAW_CONVERSION
    ensures FromStr(ToStr(amount))
            == Ok(WrappingAdd(amount / TOKEN_TO_RAW_CONVERSION * TOKEN_TO_RAW_CONVERSION,
                              Scaled(amount % TOKEN_TO_RAW_CONVERSION, 18 - digits)))
  {
    var unit, r := amount / TOKEN_TO_RAW_CONVERSION, amount % TOKEN_TO_RAW_CONVERSION;
    var u, f := Decimal(unit), Padded(Decimal(r), 9);
    digits := |f|;
    WrittenParts(amount);
    assert FromStr(u + "." + f) == Ok(WrappingAdd(unit * TOKEN_TO_RAW_CONVERSION, Scaled(r, 18 - digits))) by {
      ReadIsScaled(u, f);
    }
    AttosAreBelow(f);
  }

  /** An amount survives writing and reading exactly when its part below one token is nothing or has all eighteen
      digits: nine digits of padding are too few. */
  lemma RoundTripIff(amount: nat)
    requires amount < U256_LIMIT
    ensures FromStr(ToStr(amount)) == Ok(amount)
            <==> || amount % TOKEN_TO_RAW_CONVERSION == 0
                 || amount % TOKEN_TO_RAW_CONVERSION >= TENTH_OF_A_TOKEN
  {
    var digits := ReadBack(amount);
    ReadAsAttosIff(FromStr(ToStr(amount)), amount, digits);
  }

  /** A single atto does not survive. */
  lemma OneAttoIsMisread()
    ensures FromStr(ToStr(1)) != Ok(1)
  {
    RoundTripIff(1);
  }
}
