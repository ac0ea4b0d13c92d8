/** Amounts are written as decimal text and held as integers counting units of 10^-18.
    The grammar and the value below do not mention the scanning loops; those loops are
    methods proved against them. */
module Amounts {
  import opened Wrappers
  import opened Arithmetic
  import opened Numerals

  const MAX_DECIMALS: nat := 18
  type Decimals = d: nat | d <= MAX_DECIMALS
  const MAX_AMOUNT: nat := 18446744073709551615000000000000000000
  const U128_MAX: nat := 0xFFFF_FFFF_FFFF_FFFF_FFFF_FFFF_FFFF_FFFF

  function FindDot(s: string): (k: nat)
    ensures k <= |s|
    ensures forall i :: 0 <= i < k ==> s[i] != '.'
    ensures k < |s| ==> s[k] == '.'
  {
    if s == "" || s[0] == '.' then 0 else 1 + FindDot(s[1..])
  }

  /** The digits before the first dot. */
  function Whole(s: string): string {
    s[..FindDot(s)]
  }

  /** The digits after the first dot; empty when there is no dot. */
  function Frac(s: string): string {
    if FindDot(s) < |s| then s[FindDot(s) + 1..] else ""
  }

  /** One or more digits, optionally followed by a dot and one or more digits. */
  predicate IsDecimal(s: string) {
    && Whole(s) != "" && AllDigits(Whole(s)) && AllDigits(Frac(s))
    && (FindDot(s) < |s| ==> Frac(s) != "")
  }

  function ScaledParts(whole: string, frac: string): nat
    requires AllDigits(whole) && AllDigits(frac) && |frac| <= 18
  {
    Times(ParseNat(whole), Pow10(18)) + Times(ParseNat(frac), Pow10(18 - |frac|))
  }

  /** The text's value in units of 10^-18. */
  function Scaled(s: string): nat
    requires IsDecimal(s) && |Frac(s)| <= 18
  {
    ScaledParts(Whole(s), Frac(s))
  }

  function AmountOf(s: string, decimals: nat, allowZero: bool): Result<nat>
    requires decimals <= MAX_DECIMALS
  {
    if IsDecimal(s) && |Frac(s)| <= decimals && Scaled(s) <= MAX_AMOUNT && (allowZero || Scaled(s) > 0)
    then Ok(Scaled(s)) else Err
  }

  /** The scaled value is the exact rational value: digits / 10^fraction == scaled / 10^18. */
  lemma ScaledIsExact(s: string)
    requires IsDecimal(s) && |Frac(s)| <= 18
    ensures AllDigits(Whole(s) + Frac(s))
    ensures Scaled(s) * Pow10(|Frac(s)|) == ParseNat(Whole(s) + Frac(s)) * Pow10(18)
  {
    var n := |Frac(s)|;
    ScaledByZeros(Whole(s), Frac(s));
    Pow10Add(18 - n, n);
    MulAssociates(ParseNat(Whole(s) + Frac(s)), Pow10(18 - n), Pow10(n));
  }

  /** Appending zeros up to eighteen fraction digits scales the digits exactly. */
  lemma ScaledByZeros(whole: string, frac: string)
    requires AllDigits(whole) && AllDigits(frac) && |frac| <= 18
    ensures AllDigits(whole + frac)
    ensures ScaledParts(whole, frac) == ParseNat(whole + frac) * Pow10(18 - |frac|)
  {
    ParseConcat(whole, frac);
    ScaledProduct(ParseNat(whole), ParseNat(frac), |frac|, 18 - |frac|);
  }

  lemma ScaledProduct(w: nat, f: nat, n: nat, m: nat)
    ensures (w * Pow10(n) + f) * Pow10(m) == w * Pow10(n + m) + f * Pow10(m)
  {
    Pow10Add(n, m);
    MulDistributes(w * Pow10(n), f, Pow10(m));
    MulAssociates(w, Pow10(n), Pow10(m));
  }

  /** A text with at most `decimals` fraction digits denotes a multiple of 10^(18 - decimals). */
  lemma ScaledIsMultiple(s: string, decimals: nat)
    requires IsDecimal(s) && |Frac(s)| <= decimals <= 18
    ensures Scaled(s) % Pow10(18 - decimals) == 0
  {
    var all, n, m := ParseNat(Whole(s) + Frac(s)), |Frac(s)|, 18 - decimals;
    ScaledByZeros(Whole(s), Frac(s));
    Pow10Add(decimals - n, m);
    MultipleOfProduct(all, Pow10(decimals - n), Pow10(m));
  }

  lemma PowerEighteen()
    ensures Pow10(18) == 1000000000000000000
  {
    assert Pow10(6) == 1000000;
    Pow10Add(6, 6);
    Pow10Add(6, 12);
  }

  /** The scanning loop of the BRC-20 indexer accepts exactly the grammar, with at most 18
      fraction digits. */
  method IsPositiveDecimal(number: string) returns (ok: bool)
    ensures ok <==> IsDecimal(number) && |Frac(number)| <= MAX_DECIMALS
  {
    if number == "" {
      return false;
    }
    var hasDot, digitsAfterDot := false, 0;
    var dot := FindDot(number);
    for i := 0 to |number|
      invariant hasDot <==> dot < i
      invariant hasDot ==> 0 < dot < |number| - 1
      invariant digitsAfterDot == if hasDot then i - dot - 1 else 0
      invariant forall k :: 0 <= k < i && k != dot ==> IsDigit(number[k])
    {
      var c := number[i];
      if c == '.' {
        if i == 0 || i == |number| - 1 {
          assert !IsDecimal(number) by {
            if 0 < dot && i != dot { assert Frac(number)[i - dot - 1] == '.'; }
          }
          return false;
        }
        if hasDot {
          assert Frac(number)[i - dot - 1] == '.';
          return false;
        }
        hasDot := true;
      } else if !IsDigit(c) {
        assert if i < dot then Whole(number)[i] == c else Frac(number)[i - dot - 1] == c;
        return false;
      } else {
        if hasDot {
          digitsAfterDot := digitsAfterDot + 1;
        }
      }
    }
    if digitsAfterDot > MAX_DECIMALS {
      return false;
    }
    return true;
  }

  /** The POW-20 scanner accepts the same grammar without a length limit. */
  method IsPositiveNumberWithDot(s: string) returns (ok: bool)
    ensures ok <==> IsDecimal(s)
  {
    var dotFound := false;
    if |s| == 0 {
      return false;
    }
    var dot := FindDot(s);
    if s[0] == '.' {
      return false;
    }
    if s[|s| - 1] == '.' {
      assert dot < |s| - 1 ==> Frac(s)[|s| - dot - 2] == '.';
      return false;
    }
    for i := 0 to |s|
      invariant dotFound <==> dot < i
      invariant forall k :: 0 <= k < i && k != dot ==> IsDigit(s[k])
    {
      if !IsDigit(s[i]) {
        if s[i] != '.' {
          assert if i < dot then Whole(s)[i] == s[i] else Frac(s)[i - dot - 1] == s[i];
          return false;
        }
        if dotFound {
          assert Frac(s)[i - dot - 1] == '.';
          return false;
        }
        dotFound := true;
      }
    }
    return true;
  }

  /** The digits without the dot, unless there are too many after it. */
  method DigitsWithoutDot(text: string, tickerDecimals: nat) returns (digits: Option<string>)
    requires IsDecimal(text)
    ensures digits == if |Frac(text)| <= tickerDecimals then Some(Whole(text) + Frac(text)) else None
  {
    var dotIndex, result := FindDot(text), "";
    if dotIndex < |text| {
      var integerPart, decimalPart := text[..dotIndex], text[dotIndex + 1..];
      if |decimalPart| > tickerDecimals {
        return None;
      }
      result := result + integerPart;
      result := result + decimalPart;
    } else {
      result := result + text;
    }
    assert result == Whole(text) + Frac(text);
    return Some(result);
  }

  /** Zeros are appended one by one. */
  method PadRight(digits: string, zeros: nat) returns (result: string)
    ensures result == digits + Zeros(zeros)
  {
    result := digits;
    assert digits + Zeros(0) == digits;
    for k := 0 to zeros
      invariant result == digits + Zeros(k)
    {
      assert Zeros(k) + "0" == Zeros(k + 1);
      result := result + "0";
    }
  }

  /** The padded digits denote the scaled value. */
  lemma PaddedIsScaled(text: string)
    requires IsDecimal(text) && |Frac(text)| <= 18
    ensures var padded := Whole(text) + Frac(text) + Zeros(18 - |Frac(text)|);
            AllDigits(padded) && ParseNat(padded) == Scaled(text)
  {
    ParseConcat(Whole(text), Frac(text));
    ParseTrailingZeros(Whole(text) + Frac(text), 18 - |Frac(text)|);
    ScaledByZeros(Whole(text), Frac(text));
  }

  /** Accepts exactly the texts that denote an allowed amount, and returns that amount. */
  method GetAmountValue(number: Option<string>, tickerDecimals: nat, defaultValue: Option<nat>,
                        allowZero: bool) returns (r: Result<nat>)
    requires tickerDecimals <= MAX_DECIMALS
    ensures number.None? ==> r == if defaultValue.Some? then Ok(defaultValue.value) else Err
    ensures number.Some? ==> r == AmountOf(number.value, tickerDecimals, allowZero)
  {
    if number.None? {
      if defaultValue.Some? {
        return Ok(defaultValue.value);
      }
      return Err;
    }
    var text := number.value;
    var wellFormed := IsPositiveDecimal(text);
    if !wellFormed {
      return Err;
    }
    var digits := DigitsWithoutDot(text, tickerDecimals);
    if digits.None? {
      return Err;
    }
    var fraction := if FindDot(text) < |text| then |text| - FindDot(text) - 1 else 0;
    var padded := PadRight(digits.value, 18 - fraction);
    PaddedIsScaled(text);
    var uint := ParseNat(padded);
    if uint > U128_MAX || uint > MAX_AMOUNT {
      return Err;
    }
    if uint == 0 && !allowZero {
      return Err;
    }
    return Ok(uint);
  }

  function DropLast(s: string, n: nat): string
    requires n <= |s|
  {
    s[..|s| - n]
  }

  /** The POW-20 reader: pads the fraction with zeros up to eighteen digits. */
  function ExtendTo18(s: string, decimals: nat): Option<nat>
    requires IsDecimal(s) && decimals <= 18
  {
    if FindDot(s) < |s| then
      if |Frac(s)| > decimals || |Frac(s)| == 0 then None
      else
        var decimalsPart := Frac(s)[..|Frac(s)|] + Zeros(18 - |Frac(s)|);
        assert AllDigits(Whole(s) + decimalsPart);
        Some(ParseNat(Whole(s) + decimalsPart))
    else Some(ParseNat(Whole(s)) * 1000000000000000000)
  }

  /** The reader rejects exactly the texts with too many fraction digits, else it is exact. */
  lemma ExtendReads(s: string, decimals: nat)
    requires IsDecimal(s) && decimals <= 18
    ensures ExtendTo18(s, decimals) == if |Frac(s)| <= decimals then Some(Scaled(s)) else None
  {
    PowerEighteen();
    if FindDot(s) < |s| && |Frac(s)| <= decimals {
      var f, pad := Frac(s), Zeros(18 - |Frac(s)|);
      assert f[..|f|] == f;
      ParseConcat(Whole(s), f + pad);
      ParseTrailingZeros(f, 18 - |f|);
    }
  }

  /** The POW-20 printer: a digit string of a scaled amount, cut to `decimals` fraction digits. */
  function FixNumstrDecimals(numStr: string, decimals: nat): string
    requires numStr != "" && decimals <= 18
  {
    var dotted :=
      if |numStr| <= 18 then "0." + (Zeros(18 - |numStr|) + numStr)
      else DropLast(numStr, 18) + "." + numStr[|numStr| - 18..];
    var cut := if decimals < 18 then DropLast(dotted, 18 - decimals) else dotted;
    if cut[|cut| - 1] == '.' then DropLast(cut, 1) else cut
  }

  lemma {:induction false} FindDotAfterDigits(w: string, rest: string)
    requires AllDigits(w)
    requires rest != "" ==> rest[0] == '.'
    ensures FindDot(w + rest) == |w|
  {
    var s := w + rest;
    assert forall i :: 0 <= i < |w| ==> s[i] == w[i] && IsDigit(w[i]);
    if rest != "" {
      assert s[|w|] == '.';
    }
  }

  /** The numeral padded to nineteen or more digits. */
  function Padded(numStr: string): (p: string)
    ensures |p| >= 18 && (numStr != "" ==> |p| >= 19)
  {
    if |numStr| <= 18 then Zeros(19 - |numStr|) + numStr else numStr
  }

  function DotBefore(whole: string, frac: string): string {
    if frac == "" then whole else whole + ("." + frac)
  }

  /** Dropping from the right of a dotted text keeps a prefix of the fraction, or drops the dot with it. */
  lemma CutDotted(w: string, f: string, kept: nat)
    requires w != "" && AllDigits(f) && kept <= |f|
    ensures var cut := DropLast(w + ("." + f), |f| - kept);
            cut == w + ("." + f[..kept])
            && (if cut[|cut| - 1] == '.' then DropLast(cut, 1) else cut) == DotBefore(w, f[..kept])
  {
    var dotted := w + ("." + f);
    var cut := w + ("." + f[..kept]);
    assert DropLast(dotted, |f| - kept) == cut;
    if kept == 0 {
      assert DropLast(cut, 1) == w;
    } else {
      assert cut[|cut| - 1] == f[kept - 1] && IsDigit(f[kept - 1]);
    }
  }

  /** The printer puts a dot eighteen digits from the right and drops the last digits. */
  lemma FixShape(numStr: string, decimals: nat)
    requires numStr != "" && AllDigits(numStr) && decimals <= 18
    ensures var p := Padded(numStr);
            FixNumstrDecimals(numStr, decimals)
              == DotBefore(DropLast(p, 18), p[|p| - 18..][..decimals])
  {
    var p := Padded(numStr);
    var w, f := DropLast(p, 18), p[|p| - 18..];
    FixDotted(numStr);
    CutDotted(w, f, decimals);
  }

  lemma FixDotted(numStr: string)
    requires numStr != ""
    ensures var p := Padded(numStr);
            DropLast(p, 18) + ("." + p[|p| - 18..])
              == if |numStr| <= 18 then "0." + (Zeros(18 - |numStr|) + numStr)
                 else DropLast(numStr, 18) + "." + numStr[|numStr| - 18..]
  {
    var p := Padded(numStr);
    if |numStr| <= 18 {
      assert p[0] == '0' && DropLast(p, 18) == "0";
      assert p[|p| - 18..] == Zeros(18 - |numStr|) + numStr;
    }
  }

  /** Reading a dotted text back. */
  lemma DotBeforeReads(w: string, f: string, decimals: nat)
    requires AllDigits(w) && AllDigits(f) && w != "" && |f| == decimals <= 18
    ensures IsDecimal(DotBefore(w, f))
    ensures ExtendTo18(DotBefore(w, f), decimals) == Some(ScaledParts(w, f))
  {
    var text := DotBefore(w, f);
    if f == "" {
      assert text == w + "";
      FindDotAfterDigits(w, "");
    } else {
      FindDotAfterDigits(w, "." + f);
    }
    assert Whole(text) == w && Frac(text) == f;
    ExtendReads(text, decimals);
  }

  /** Printing an amount of a ticker and reading it back gives the amount, for every amount that
      is a multiple of the ticker's unit 10^(18 - decimals). */
  lemma FixThenExtend(amount: nat, decimals: nat)
    requires decimals <= 18 && amount % Pow10(18 - decimals) == 0
    ensures var text := FixNumstrDecimals(ShowNat(amount), decimals);
            IsDecimal(text) && ExtendTo18(text, decimals) == Some(amount)
  {
    var s := ShowNat(amount);
    ParseShow(amount);
    FixShape(s, decimals);
    PaddedValue(s);
    var p := Padded(s);
    CutDigits(p, decimals);
    DotBeforeReads(DropLast(p, 18), p[|p| - 18..][..decimals], decimals);
  }

  lemma PaddedValue(s: string)
    requires AllDigits(s)
    ensures AllDigits(Padded(s)) && ParseNat(Padded(s)) == ParseNat(s)
  {
    if |s| <= 18 {
      ParseLeadingZeros(19 - |s|, s);
    }
  }

  /** Cutting eighteen fraction digits down to `decimals` keeps the value of such a numeral. */
  lemma CutDigits(p: string, decimals: nat)
    requires AllDigits(p) && |p| >= 19 && decimals <= 18
    requires ParseNat(p) % Pow10(18 - decimals) == 0
    ensures var w, kept := DropLast(p, 18), p[|p| - 18..][..decimals];
            AllDigits(w) && AllDigits(kept) && w != "" && ScaledParts(w, kept) == ParseNat(p)
  {
    var w, kept, lost := DropLast(p, 18), p[|p| - 18..][..decimals], p[|p| - 18..][decimals..];
    assert p == (w + kept) + lost;
    assert AllDigits(w + kept);
    DropZeroDigits(w + kept, lost);
    ScaledByZeros(w, kept);
  }

  /** If a numeral is a multiple of 10^|lost|, its last digits carry no value. */
  lemma DropZeroDigits(head: string, lost: string)
    requires AllDigits(head) && AllDigits(lost) && AllDigits(head + lost)
    requires ParseNat(head + lost) % Pow10(|lost|) == 0
    ensures ParseNat(head + lost) == ParseNat(head) * Pow10(|lost|)
  {
    ParseConcat(head, lost);
    ParseBound(lost);
    QuotientUnique(ParseNat(head + lost), Pow10(|lost|), ParseNat(head), ParseNat(lost));
  }

}
