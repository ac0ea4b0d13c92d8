/** ord's decimal numbers: a value and a scale, their text, and their conversion to whole units. */
module OrdDecimal {
  import opened Wrappers
  import opened Arithmetic
  import opened Numerals
  import opened Amounts

  type U8 = n: nat | n < 256
  type U128 = n: nat | n <= U128_MAX

  datatype Decimal = Decimal(value: U128, scale: U8)

  /** `checked_pow`: the power of ten, if it fits. */
  function CheckedPow(n: nat): Option<U128> {
    if Pow10(n) <= U128_MAX then Some(Pow10(n)) else None
  }

  /** Quotient and remainder. */
  function DivMod(a: nat, p: nat): (r: (nat, nat))
    requires p > 0
    ensures r.1 < p && Times(r.0, p) + r.1 == a && r.0 <= a
  {
    DivisionLaw(a, p);
    (a / p, a % p)
  }

  // ---------- whole units ----------

  function ToInteger(d: Decimal, divisibility: U8): Option<U128> {
    if divisibility < d.scale then None
    else
      match CheckedPow(divisibility - d.scale)
      case None => None
      case Some(p) => if Times(d.value, p) <= U128_MAX then Some(Times(d.value, p)) else None
  }

  /** The conversion is exact or fails, for all inputs: it gives n exactly when n units of 10^-divisibility are the
      decimal, the scale is not finer than the divisibility, and the factor between them fits 128 bits. */
  lemma ToIntegerExact(d: Decimal, divisibility: U8, n: U128)
    ensures ToInteger(d, divisibility) == Some(n) <==>
              && d.scale <= divisibility && Pow10(divisibility - d.scale) <= U128_MAX
              && n * Pow10(d.scale) == d.value * Pow10(divisibility)
  {
    if d.scale <= divisibility {
      Pow10Add(divisibility - d.scale, d.scale);
      ExactProduct(d.value, Pow10(divisibility - d.scale), Pow10(d.scale), n);
    }
  }

  /** For a positive value that is no coarser than the divisibility, being exact is enough. */
  lemma PositiveToInteger(d: Decimal, divisibility: U8, n: U128)
    requires d.value > 0 && d.scale <= divisibility
    ensures ToInteger(d, divisibility) == Some(n) <==> n * Pow10(d.scale) == d.value * Pow10(divisibility)
  {
    ToIntegerExact(d, divisibility, n);
    Pow10Add(divisibility - d.scale, d.scale);
    ExactProduct(d.value, Pow10(divisibility - d.scale), Pow10(d.scale), n);
    MulMonotone(1, d.value, Pow10(divisibility - d.scale));
  }

  /** Both other conditions can fail although the number of units exists: zero with 50 digits, and 1.0 in whole
      units. */
  lemma ExactButRefused()
    ensures ToInteger(Decimal(0, 0), 50) == None && 0 * Pow10(0) == 0 * Pow10(50)
    ensures ToInteger(Decimal(10, 1), 0) == None && 1 * Pow10(1) == 10 * Pow10(0)
  {
    PowerEighteen();
    Pow10Add(18, 18);
    Pow10Add(36, 14);
    MulMonotone(1000, Pow10(14), Pow10(36));
    assert Pow10(3) == 1000;
    Pow10Add(3, 11);
    MulMonotone(1, Pow10(11), Pow10(3));
  }

  lemma ExactProduct(value: nat, p: nat, q: nat, n: nat)
    requires q > 0
    ensures n * q == value * (p * q) <==> n == Times(value, p)
  {
    MulAssociates(value, p, q);
    if n * q == value * (p * q) {
      SameFactor(n, value * p, q);
    }
  }

  lemma SameFactor(a: nat, b: nat, p: nat)
    requires p > 0 && a * p == b * p
    ensures a == b
  {
    if a < b {
      MulMonotone(a + 1, b, p);
      MulDistributes(a, 1, p);
    } else if b < a {
      MulMonotone(b + 1, a, p);
      MulDistributes(b, 1, p);
    }
  }

  // ---------- text ----------

  /** A fraction without its trailing zeros, and how many digits it then has. */
  function Strip(fraction: nat, width: nat): (r: (nat, nat))
    requires 0 < fraction < Pow10(width)
    ensures 0 < r.0 < Pow10(r.1) && r.1 <= width && r.0 % 10 != 0
    decreases width
  {
    if fraction % 10 == 0 then Strip(fraction / 10, width - 1) else (fraction, width)
  }

  lemma {:induction false} StripKeeps(fraction: nat, width: nat)
    requires 0 < fraction < Pow10(width)
    ensures var (f, w) := Strip(fraction, width); w <= width && f * Pow10(width - w) == fraction
    decreases width
  {
    if fraction % 10 == 0 {
      StripKeeps(fraction / 10, width - 1);
      var (f, w) := Strip(fraction / 10, width - 1);
      MulAssociates(f, Pow10(width - 1 - w), 10);
    }
  }

  /** The printed digits of a fraction, padded on the left. */
  function Padded(fraction: nat, width: nat): string {
    var digits := ShowNat(fraction);
    if |digits| < width then Zeros(width - |digits|) + digits else digits
  }

  function Show(d: Decimal): Option<string> {
    match CheckedPow(d.scale)
    case None => None
    case Some(magnitude) =>
      var (integer, fraction) := DivMod(d.value, magnitude);
      if fraction == 0 then Some(ShowNat(integer))
      else
        var (f, w) := Strip(fraction, d.scale);
        Some(ShowNat(integer) + ("." + Padded(f, w)))
  }

  method Fmt(d: Decimal) returns (text: Option<string>)
    ensures text == Show(d)
  {
    if CheckedPow(d.scale).None? {
      return None;
    }
    var magnitude := Pow10(d.scale);
    var (integer, fraction) := DivMod(d.value, magnitude);
    var out := ShowNat(integer);
    if fraction > 0 {
      var f, width := fraction, d.scale as nat;
      while f % 10 == 0
        invariant 0 < f < Pow10(width) && Strip(f, width) == Strip(fraction, d.scale)
        decreases width
      {
        f := f / 10;
        width := width - 1;
      }
      out := out + ("." + Padded(f, width));
    }
    return Some(out);
  }

  /** Reading an unsigned number: digits after an optional plus sign, if it fits. */
  function ReadU128(s: string): Option<U128> {
    var digits := if |s| > 1 && s[0] == '+' then s[1..] else s;
    if digits == "" || !AllDigits(digits) || ParseNat(digits) > U128_MAX then None else Some(ParseNat(digits))
  }

  function TrailingZeros(s: string): (n: nat)
    ensures n <= |s|
  {
    if s != "" && s[|s| - 1] == '0' then 1 + TrailingZeros(s[..|s| - 1]) else 0
  }

  /** The value and digits of the text after the dot. */
  function ReadFraction(s: string): Option<(nat, nat)> {
    if s == "" then Some((0, 0))
    else
      match ReadU128(s)
      case None => None
      case Some(n) =>
        match CheckedPow(TrailingZeros(s))
        case None => None
        case Some(p) => Some((DivMod(n, p).0, |s| - TrailingZeros(s)))
  }

  /** None stands for an error, and for an overflow of the scale or of the combined value. */
  function Read(s: string): Option<Decimal> {
    if FindDot(s) == |s| then
      match ReadU128(s)
      case None => None
      case Some(n) => Some(Decimal(n, 0))
    else
      var whole, rest := Whole(s), Frac(s);
      if whole == "" && rest == "" then None
      else
        match if whole == "" then Some(0) else ReadU128(whole)
        case None => None
        case Some(integer) =>
          match ReadFraction(rest)
          case None => None
          case Some((fraction, digits)) =>
            if digits > 255 || Times(integer, Pow10(digits)) + fraction > U128_MAX then None
            else Some(Decimal(Times(integer, Pow10(digits)) + fraction, digits))
  }

  // ---------- round trip ----------

  /** The same number with no trailing zeros after the point. */
  function NormalScale(d: Decimal): (scale: nat)
    ensures scale <= d.scale
  {
    var fraction := DivMod(d.value, Pow10(d.scale)).1;
    if fraction == 0 then 0 else Strip(fraction, d.scale).1
  }

  function NormalValue(d: Decimal): nat {
    var (integer, fraction) := DivMod(d.value, Pow10(d.scale));
    if fraction == 0 then integer else Times(integer, Pow10(NormalScale(d))) + Strip(fraction, d.scale).0
  }

  /** The normal form denotes the same number, and is the only one without trailing zeros. */
  lemma NormalIsSame(d: Decimal)
    ensures NormalValue(d) * Pow10(d.scale - NormalScale(d)) == d.value
    ensures NormalValue(d) <= d.value
    ensures NormalScale(d) > 0 ==> NormalValue(d) % 10 != 0
  {
    var (integer, fraction) := DivMod(d.value, Pow10(d.scale));
    if fraction != 0 {
      var (f, w) := Strip(fraction, d.scale);
      StripKeeps(fraction, d.scale);
      Pow10Add(w, d.scale - w);
      Rescale(integer, f, Pow10(w), Pow10(d.scale - w));
      TensPlus(integer, w, f);
    } else {
      Rescale(integer, 0, 1, Pow10(d.scale));
    }
  }

  /** Shifting a number with its fraction. */
  lemma Rescale(integer: nat, f: nat, p: nat, q: nat)
    requires q > 0
    ensures (Times(integer, p) + f) * q == Times(integer, p * q) + f * q
    ensures Times(integer, p) + f <= Times(integer, p * q) + f * q
  {
    MulAssociates(integer, p, q);
    MulDistributes(integer * p, f, q);
    MulMonotone(1, q, integer * p + f);
    MulCommutes(q, integer * p + f);
  }

  lemma TensPlus(integer: nat, w: nat, f: nat)
    requires w > 0
    ensures (Times(integer, Pow10(w)) + f) % 10 == f % 10
  {
    var x := Times(integer, Pow10(w - 1));
    TenTimes(integer, Pow10(w - 1));
    assert Times(integer, Pow10(w)) == 10 * x;
    ModuloTen(x, f);
  }

  lemma TenTimes(a: nat, p: nat)
    ensures a * (10 * p) == 10 * (a * p)
  {
  }

  lemma {:induction false} ShowLength(n: nat, k: nat)
    requires k > 0 && n < Pow10(k)
    ensures |ShowNat(n)| <= k
  {
    if n >= 10 {
      ShowLength(n / 10, k - 1);
    }
  }

  lemma ShowLast(n: nat)
    ensures ShowNat(n)[|ShowNat(n)| - 1] == DigitChar(n % 10)
  {
  }

  lemma PaddedReads(f: nat, w: nat)
    requires 0 < f < Pow10(w) && f % 10 != 0
    ensures AllDigits(Padded(f, w)) && |Padded(f, w)| == w > 0
    ensures ParseNat(Padded(f, w)) == f && TrailingZeros(Padded(f, w)) == 0
  {
    var digits := ShowNat(f);
    ShowLength(f, w);
    ShowLast(f);
    ParseShow(f);
    ParseLeadingZeros(w - |digits|, digits);
    assert Padded(f, w)[w - 1] == digits[|digits| - 1];
  }

  lemma ShowReads(n: U128)
    ensures ReadU128(ShowNat(n)) == Some(n)
  {
    ParseShow(n);
    assert IsDigit(ShowNat(n)[0]);
  }

  lemma FractionReads(f: U128, w: nat)
    requires 0 < f < Pow10(w) && f % 10 != 0
    ensures ReadFraction(Padded(f, w)) == Some((f, w))
  {
    var rest := Padded(f, w);
    PaddedReads(f, w);
    assert IsDigit(rest[0]) && ReadU128(rest) == Some(f);
    assert CheckedPow(0) == Some(1) && DivMod(f, 1).0 == f;
  }

  lemma DottedReads(integer: U128, f: U128, w: nat)
    requires 0 < f < Pow10(w) && f % 10 != 0 && w <= 255 && Times(integer, Pow10(w)) + f <= U128_MAX
    ensures Read(ShowNat(integer) + ("." + Padded(f, w))) == Some(Decimal(Times(integer, Pow10(w)) + f, w))
  {
    var whole, rest := ShowNat(integer), Padded(f, w);
    var text := whole + ("." + rest);
    PaddedReads(f, w);
    FractionReads(f, w);
    ShowReads(integer);
    FindDotAfterDigits(whole, "." + rest);
    assert Whole(text) == whole && Frac(text) == rest;
  }

  /** Reading a printed decimal gives its normal form. */
  lemma ReadShow(d: Decimal)
    requires Show(d).Some?
    ensures NormalValue(d) <= U128_MAX
    ensures Read(Show(d).value) == Some(Decimal(NormalValue(d), NormalScale(d)))
  {
    NormalIsSame(d);
    var (integer, fraction) := DivMod(d.value, Pow10(d.scale));
    if fraction == 0 {
      ShowReads(integer);
      assert ShowNat(integer) + "" == ShowNat(integer);
      FindDotAfterDigits(ShowNat(integer), "");
    } else {
      var (f, w) := Strip(fraction, d.scale);
      StripKeeps(fraction, d.scale);
      MulMonotone(1, Pow10(d.scale - w), f);
      DottedReads(integer, f, w);
    }
  }

}
