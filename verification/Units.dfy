/** A ticker with d decimals counts in units of 10^(18-d). */
module Units {
  import opened Arithmetic
  import opened Numerals
  import opened Amounts

  predicate Multiple(x: int, decimals: Decimals) {
    x % Pow10(18 - decimals) == 0
  }

  lemma ShiftedMultiple(x: int, y: int, decimals: Decimals)
    requires Multiple(x, decimals) && Multiple(y, decimals)
    ensures Multiple(x + y, decimals) && Multiple(x - y, decimals)
  {
    SumOfMultiples(x, y, Pow10(18 - decimals));
    DifferenceOfMultiples(x, y, Pow10(18 - decimals));
  }

  lemma ZeroIsMultiple(decimals: Decimals)
    ensures Multiple(0, decimals)
  {
    MultipleModulo(0, Pow10(18 - decimals));
  }

}
