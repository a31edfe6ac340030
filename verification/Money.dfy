/** packages/core/src/money.ts and `parseUsdCents` of payments-poll.worker.ts: integer money.
    Cents and USDT6 (millionths of a USDT) are mathematical integers. */
module Money {
  import opened Schema

  // ---------------------------------------------------------------- discounts

  /** floor(n/d + 1/2) in integers. */
  function RoundHalfUpDiv(numerator: int, denominator: int): int
    requires denominator > 0
  {
    (2 * numerator + denominator) / (2 * denominator)
  }

  function ApplyPercentDiscount(cents: int, percent: int): Result<int> {
    if cents < 0 || percent < 0 || percent > 100 then Err(OutOfRange)
    else Ok(cents - RoundHalfUpDiv(cents * percent, 100))
  }

  function ApplyFixedDiscount(cents: int, discountCents: int): Result<int> {
    if cents < 0 || discountCents < 0 then Err(OutOfRange)
    else Ok(if cents - discountCents > 0 then cents - discountCents else 0)
  }

  const MAX_SAFE_INTEGER := 9007199254740991

  function MultiplyCents(unitCents: int, qty: int): Result<int> {
    if unitCents < 0 || qty < 1 || unitCents * qty > MAX_SAFE_INTEGER then Err(OutOfRange)
    else Ok(unitCents * qty)
  }

  /** Rounding `n` hundredths to whole units is off by at most half, a half going up. */
  lemma RoundsToNearest(n: nat)
    ensures var d := RoundHalfUpDiv(n, 100);
            -50 <= n - 100 * d < 50
  {
  }

  /** The discounted price is the exact rational price rounded to the nearest cent (a half goes to
      the buyer's discount), so it is off by at most half a cent and stays within [0, cents]. */
  lemma PercentDiscountWithinHalfCent(cents: nat, percent: nat)
    requires percent <= 100
    ensures var r := ApplyPercentDiscount(cents, percent);
            && r.Ok?
            && 0 <= r.value <= cents
            && -50 <= 100 * r.value - cents * (100 - percent) < 50
            && (percent == 0 ==> r.value == cents)
            && (percent == 100 ==> r.value == 0)
  {
    var p, rest := cents * percent, cents * (100 - percent);
    assert p + rest == 100 * cents && p >= 0 && rest >= 0;
    RoundsToNearest(p);
  }

  lemma RoundingGrows(n: nat, n': nat, k: nat)
    requires n' <= n + 100 * k
    ensures RoundHalfUpDiv(n', 100) <= RoundHalfUpDiv(n, 100) + k
  {
  }

  lemma ProductGrows(cents: nat, k: nat, percent: nat, percent': nat)
    requires percent' <= percent <= 100
    ensures (cents + k) * percent' <= cents * percent + 100 * k
  {
    assert (cents + k) * percent' == cents * percent' + k * percent';
    assert cents * percent' <= cents * percent;
    assert k * percent' <= k * 100;
  }

  /** A dearer plan never gets cheaper and a bigger percentage never costs more. */
  lemma PercentDiscountMonotone(cents: nat, cents': nat, percent: nat, percent': nat)
    requires cents <= cents' && percent' <= percent <= 100
    ensures ApplyPercentDiscount(cents, percent).value <= ApplyPercentDiscount(cents', percent').value
  {
    var k := cents' - cents;
    hide RoundHalfUpDiv;
    ProductGrows(cents, k, percent, percent');
    RoundingGrows(cents * percent, cents' * percent', k);
  }

  // ---------------------------------------------------------------- unique amounts

  const CENTS_TO_USDT6 := 10_000
  const TRON_TAG_UNIT_USDT6 := 100
  const TRON_TAG_MAX := 99

  /** Whole cents of a non-negative amount, dust floored away. */
  function UsdCents(amountUsdt6: nat): nat {
    amountUsdt6 / CENTS_TO_USDT6
  }

  function TaggedAmount(cents: int, tag: int): Result<int> {
    if cents < 0 || tag < 1 || tag > TRON_TAG_MAX then Err(OutOfRange)
    else Ok(cents * CENTS_TO_USDT6 + tag * TRON_TAG_UNIT_USDT6)
  }

  function TagOf(amountUsdt6: int): nat {
    var abs := if amountUsdt6 < 0 then -amountUsdt6 else amountUsdt6;
    (abs % CENTS_TO_USDT6) / TRON_TAG_UNIT_USDT6
  }

  /** The tag and the price are both recovered from every tagged amount, so two tagged amounts are
      equal only if both agree; and the tag never moves the price by a whole cent. */
  lemma TaggedAmountDecodes(cents: nat, tag: nat)
    requires 1 <= tag <= TRON_TAG_MAX
    ensures var r := TaggedAmount(cents, tag);
            && r.Ok?
            && TagOf(r.value) == tag
            && UsdCents(r.value) == cents
            && cents * CENTS_TO_USDT6 < r.value < (cents + 1) * CENTS_TO_USDT6
  {
    var amount := cents * CENTS_TO_USDT6 + tag * TRON_TAG_UNIT_USDT6;
    assert amount % CENTS_TO_USDT6 == tag * TRON_TAG_UNIT_USDT6;
  }

  // ---------------------------------------------------------------- decimal strings

  predicate IsDigit(c: char) { '0' <= c <= '9' }

  predicate AllDigits(s: string) { forall i | 0 <= i < |s| :: IsDigit(s[i]) }

  function Digits(n: nat): string {
    if n < 10 then [('0' as int + n) as char] else Digits(n / 10) + [('0' as int + n % 10) as char]
  }

  /** `Number.parseInt` of a string of digits. */
  function ValueOf(s: string): nat
    requires AllDigits(s)
  {
    if s == "" then 0 else 10 * ValueOf(s[..|s| - 1]) + (s[|s| - 1] as int - '0' as int)
  }

  function PadStart(s: string, width: nat): string
    decreases if width > |s| then width - |s| else 0
  {
    if |s| >= width then s else PadStart("0" + s, width)
  }

  function PadEnd(s: string, width: nat): string
    decreases if width > |s| then width - |s| else 0
  {
    if |s| >= width then s else PadEnd(s + "0", width)
  }

  lemma {:induction false} DigitsValue(n: nat)
    ensures |Digits(n)| >= 1 && AllDigits(Digits(n)) && ValueOf(Digits(n)) == n
  {
    if n >= 10 {
      DigitsValue(n / 10);
      assert Digits(n)[..|Digits(n)| - 1] == Digits(n / 10);
    }
  }

  lemma {:induction false} PadStartValue(s: string, width: nat)
    requires AllDigits(s)
    ensures var p := PadStart(s, width);
            AllDigits(p) && ValueOf(p) == ValueOf(s) && |p| == if |s| >= width then |s| else width
    decreases if width > |s| then width - |s| else 0
  {
    if |s| < width {
      LeadingZero(s);
      PadStartValue("0" + s, width);
    }
  }

  lemma {:induction false} LeadingZero(s: string)
    requires AllDigits(s)
    ensures AllDigits("0" + s) && ValueOf("0" + s) == ValueOf(s)
  {
    var z := "0" + s;
    assert forall i | 0 <= i < |z| :: z[i] == if i == 0 then '0' else s[i - 1];
    if s == "" {
      assert z[..0] == "";
    } else {
      LeadingZero(s[..|s| - 1]);
      assert z[..|z| - 1] == "0" + s[..|s| - 1];
    }
  }

  /** Digits needed for at most two places: `n < 100`. */
  lemma TwoDigits(n: nat)
    requires n < 100
    ensures |Digits(n)| <= 2
  {
  }

  function CentsToDisplay(cents: int): string {
    var abs: nat := if cents < 0 then -cents else cents;
    (if cents < 0 then "-" else "") + Digits(abs / 100) + "." + PadStart(Digits(abs % 100), 2)
  }

  /** Length of the longest prefix of digits (`\d+` is greedy). */
  function DigitPrefix(s: string): (n: nat)
    ensures n <= |s| && AllDigits(s[..n]) && (n < |s| ==> !IsDigit(s[n]))
  {
    if s == "" || !IsDigit(s[0]) then 0
    else
      var n := DigitPrefix(s[1..]);
      assert s[..n + 1] == [s[0]] + s[1..][..n];
      n + 1
  }

  /** `\d+(?:\.\d{1,2})?` from start to end, in cents; `None` if the string does not match. */
  function UnsignedCents(s: string): Option<nat> {
    var n := DigitPrefix(s);
    if n == 0 then None
    else if n == |s| then Some(100 * ValueOf(s))
    else
      var frac := s[n + 1..];
      if s[n] != '.' || |frac| == 0 || |frac| > 2 || !AllDigits(frac) then None
      else Some(100 * ValueOf(s[..n]) + ValueOf(if |frac| == 1 then frac + "0" else frac))
  }

  /** White space and line terminators of ECMAScript. */
  predicate IsSpace(c: char) {
    var u := c as int;
    9 <= u <= 13 || u == 32 || u == 0xA0 || u == 0x1680 || 0x2000 <= u <= 0x200A || u == 0x2028 || u == 0x2029
    || u == 0x202F || u == 0x205F || u == 0x3000 || u == 0xFEFF
  }

  function Trim(s: string): string {
    if s != "" && IsSpace(s[0]) then Trim(s[1..])
    else if s != "" && IsSpace(s[|s| - 1]) then Trim(s[..|s| - 1])
    else s
  }

  function DisplayToCents(display: string): Result<int> {
    var trimmed := Trim(display);
    var negative := trimmed != "" && trimmed[0] == '-';
    match UnsignedCents(if negative then trimmed[1..] else trimmed)
    case None => Err(OutOfRange)
    case Some(cents) => Ok((if negative then -1 else 1) * cents)
  }

  function ParseUsdCents(value: string): Option<nat> {
    match UnsignedCents(value)
    case None => None
    case Some(cents) => if cents <= MAX_SAFE_INTEGER then Some(cents) else None
  }

  lemma {:induction false} DigitPrefixStops(d: string, rest: string)
    requires AllDigits(d) && rest != "" && !IsDigit(rest[0])
    ensures DigitPrefix(d + rest) == |d|
  {
    if d == "" {
      assert d + rest == rest;
    } else {
      assert (d + rest)[1..] == d[1..] + rest;
      DigitPrefixStops(d[1..], rest);
    }
  }

  lemma UnsignedRoundTrip(cents: nat)
    ensures UnsignedCents(Digits(cents / 100) + "." + PadStart(Digits(cents % 100), 2)) == Some(cents)
  {
    hide Digits, PadStart;
    var whole, frac := Digits(cents / 100), PadStart(Digits(cents % 100), 2);
    DigitsValue(cents / 100);
    DigitsValue(cents % 100);
    TwoDigits(cents % 100);
    PadStartValue(Digits(cents % 100), 2);
    DigitPrefixStops(whole, "." + frac);
    var s := whole + "." + frac;
    assert s == whole + ("." + frac);
    assert s[..|whole|] == whole && s[|whole| + 1..] == frac;
  }

  lemma UnsignedDisplayEnds(cents: nat)
    ensures var s := Digits(cents / 100) + "." + PadStart(Digits(cents % 100), 2);
            |s| > 0 && IsDigit(s[0]) && IsDigit(s[|s| - 1])
  {
    DigitsValue(cents / 100);
    DigitsValue(cents % 100);
    PadStartValue(Digits(cents % 100), 2);
  }

  lemma TrimKeeps(s: string)
    requires s != "" && !IsSpace(s[0]) && !IsSpace(s[|s| - 1])
    ensures Trim(s) == s
  {
  }

  /** Every amount survives display and parsing. */
  lemma DisplayRoundTrip(cents: int)
    ensures DisplayToCents(CentsToDisplay(cents)) == Ok(cents)
    ensures 0 <= cents <= MAX_SAFE_INTEGER ==> ParseUsdCents(CentsToDisplay(cents)) == Some(cents)
  {
    hide Digits, PadStart, UnsignedCents, Trim;
    var abs: nat := if cents < 0 then -cents else cents;
    var body := Digits(abs / 100) + "." + PadStart(Digits(abs % 100), 2);
    UnsignedRoundTrip(abs);
    UnsignedDisplayEnds(abs);
    var s := CentsToDisplay(cents);
    if cents < 0 {
      assert s == "-" + body && s[1..] == body;
    } else {
      assert s == body;
    }
    TrimKeeps(s);
  }

  // ---------------------------------------------------------------- the string typed into a wallet

  function TrimZeros(s: string): string {
    if s != "" && s[|s| - 1] == '0' then TrimZeros(s[..|s| - 1]) else s
  }

  function Usdt6Frac(abs: nat, minDecimals: nat): string {
    PadEnd(TrimZeros(PadStart(Digits(abs % 1_000_000), 6)), minDecimals)
  }

  function Usdt6ToDisplay(amountUsdt6: int, minDecimals: nat): string {
    var abs: nat := if amountUsdt6 < 0 then -amountUsdt6 else amountUsdt6;
    var frac := Usdt6Frac(abs, minDecimals);
    (if amountUsdt6 < 0 then "-" else "") + Digits(abs / 1_000_000) + if frac != "" then "." + frac else ""
  }

  function Pow10(n: nat): nat {
    if n == 0 then 1 else 10 * Pow10(n - 1)
  }

  /** `0.frac` is exactly `micros` millionths. */
  predicate FractionIs(frac: string, micros: nat) {
    AllDigits(frac) && ValueOf(frac) * 1_000_000 == micros * Pow10(|frac|)
  }

  lemma {:induction false} TrimZerosKeepsFraction(s: string, micros: nat)
    requires FractionIs(s, micros)
    ensures FractionIs(TrimZeros(s), micros)
  {
    if s != "" && s[|s| - 1] == '0' {
      var t := s[..|s| - 1];
      assert micros * Pow10(|s|) == 10 * (micros * Pow10(|t|));
      TrimZerosKeepsFraction(t, micros);
    }
  }

  lemma {:induction false} PadEndKeepsFraction(s: string, width: nat, micros: nat)
    requires FractionIs(s, micros)
    ensures FractionIs(PadEnd(s, width), micros) && |PadEnd(s, width)| >= width
    decreases if width > |s| then width - |s| else 0
  {
    if |s| < width {
      var t := s + "0";
      assert t[..|s|] == s;
      assert micros * Pow10(|t|) == 10 * (micros * Pow10(|s|));
      PadEndKeepsFraction(t, width, micros);
    }
  }

  /** The displayed string denotes the amount exactly, with at least `minDecimals` places: a sign,
      the whole part in decimal, and a fraction worth precisely the remaining millionths. */
  lemma Usdt6DisplayIsExact(amountUsdt6: int, minDecimals: nat)
    ensures exists whole: nat, micros: nat, frac: string ::
      && FractionIs(frac, micros) && |frac| >= minDecimals && micros < 1_000_000
      && amountUsdt6 == (if amountUsdt6 < 0 then -1 else 1) * (whole * 1_000_000 + micros)
      && AllDigits(Digits(whole)) && ValueOf(Digits(whole)) == whole
      && Usdt6ToDisplay(amountUsdt6, minDecimals)
         == (if amountUsdt6 < 0 then "-" else "") + Digits(whole) + if frac != "" then "." + frac else ""
  {
    var abs: nat := if amountUsdt6 < 0 then -amountUsdt6 else amountUsdt6;
    var whole, micros := abs / 1_000_000, abs % 1_000_000;
    DigitsValue(whole);
    DigitsValue(micros);
    var six := PadStart(Digits(micros), 6);
    DigitsLength(micros, 6);
    PadStartValue(Digits(micros), 6);
    assert Pow10(6) == 1_000_000 by {
      assert Pow10(4) == 10_000;
    }
    TrimZerosKeepsFraction(six, micros);
    PadEndKeepsFraction(TrimZeros(six), minDecimals, micros);
    var frac := Usdt6Frac(abs, minDecimals);
    assert FractionIs(frac, micros) && |frac| >= minDecimals;
  }

  lemma {:induction false} DigitsLength(n: nat, k: nat)
    requires k >= 1 && n < Pow10(k)
    ensures |Digits(n)| <= k
  {
    if n >= 10 {
      assert Pow10(1) == 10;
      DigitsLength(n / 10, k - 1);
    }
  }
}
