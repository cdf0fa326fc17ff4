/** PAYE income tax on an annual income, `calculatePAYE` of pages/index.tsx
    (2024/2025 tables): an age-banded tax-free threshold, a seven-row
    progressive bracket table, an age-banded rebate, and a floor at zero.
    Amounts are exact reals. */
module Paye {

  /** Income at or below this pays no tax. */
  function TaxThreshold(age: int): real
  {
    if age >= 75 then 165689.0 else if age >= 65 then 148217.0 else 95750.0
  }

  /** Primary rebate, plus the secondary from 65, plus the tertiary from 75. */
  function Rebate(age: int): real
  {
    var rebate := 17235.0;
    if age >= 75 then rebate + (9444.0 + 3145.0) else if age >= 65 then rebate + 9444.0 else rebate
  }

  lemma AgeBands(age: int)
    ensures age < 65 ==> TaxThreshold(age) == 95750.0 && Rebate(age) == 17235.0
    ensures 65 <= age < 75 ==> TaxThreshold(age) == 148217.0 && Rebate(age) == 17235.0 + 9444.0
    ensures age >= 75 ==> TaxThreshold(age) == 165689.0 && Rebate(age) == 17235.0 + 9444.0 + 3145.0
  {
  }

  /** The upper bounds of the first six brackets; the seventh is open. */
  const Uppers: seq<real> := [237100.0, 370500.0, 512800.0, 673000.0, 857900.0, 1817000.0]

  /** Tax already due at the start of each bracket (the first starts at zero). */
  const Bases: seq<real> := [0.0, 25326.0, 60030.0, 104070.0, 161902.0, 234022.0, 626954.0]

  /** Marginal rate of each bracket. */
  const Rates: seq<real> := [0.18, 0.26, 0.31, 0.36, 0.39, 0.41, 0.45]

  /** Where bracket k starts: the threshold for the first, the previous upper bound after. */
  function Lower(k: nat, threshold: real): real
    requires k < 7
  {
    if k == 0 then threshold else Uppers[k - 1]
  }

  /** The tax of bracket k at this income. */
  function RowTax(k: nat, income: real, threshold: real): real
    requires k < 7
  {
    Bases[k] + (income - Lower(k, threshold)) * Rates[k]
  }

  /** Index of the first bracket, from k on, whose upper bound is at least the income. */
  function FirstBracketFrom(income: real, k: nat): (b: nat)
    requires k <= 6
    ensures k <= b <= 6
    ensures b < 6 ==> income <= Uppers[b]
    ensures forall j :: k <= j < b ==> Uppers[j] < income
    decreases 6 - k
  {
    if k == 6 || income <= Uppers[k] then k else FirstBracketFrom(income, k + 1)
  }

  /** The bracket that applies: the first, in ascending order, whose upper bound is at least the income. */
  function BracketOf(income: real): (b: nat)
    ensures b <= 6
    ensures b < 6 ==> income <= Uppers[b]
    ensures forall j :: 0 <= j < b ==> Uppers[j] < income
  {
    FirstBracketFrom(income, 0)
  }

  /** Bracket selection is unique: the bracket whose upper bound is at least
      the income while every earlier one is below it is BracketOf's. */
  lemma BracketUnique(income: real, k: nat)
    requires k <= 6 && (k < 6 ==> income <= Uppers[k])
    requires forall j :: 0 <= j < k ==> Uppers[j] < income
    ensures BracketOf(income) == k
  {
  }

  /** The bracket if-chain of calculatePAYE, before the rebate. */
  function BracketTax(income: real, threshold: real): real
  {
    if income <= 237100.0 then (income - threshold) * 0.18
    else if income <= 370500.0 then 25326.0 + (income - 237100.0) * 0.26
    else if income <= 512800.0 then 60030.0 + (income - 370500.0) * 0.31
    else if income <= 673000.0 then 104070.0 + (income - 512800.0) * 0.36
    else if income <= 857900.0 then 161902.0 + (income - 673000.0) * 0.39
    else if income <= 1817000.0 then 234022.0 + (income - 857900.0) * 0.41
    else 626954.0 + (income - 1817000.0) * 0.45
  }

  /** The if-chain computes the tax of exactly the bracket that applies. */
  lemma BracketTaxIsRowTax(income: real, threshold: real)
    ensures BracketTax(income, threshold) == RowTax(BracketOf(income), income, threshold)
  {
    var b := BracketOf(income);
    if b == 0 {
      assert income <= 237100.0;
    } else if b == 1 {
      assert 237100.0 < income <= 370500.0;
    } else if b == 2 {
      assert 370500.0 < income <= 512800.0;
    } else if b == 3 {
      assert 512800.0 < income <= 673000.0;
    } else if b == 4 {
      assert 673000.0 < income <= 857900.0;
    } else if b == 5 {
      assert 857900.0 < income <= 1817000.0;
    } else {
      assert 1817000.0 < income;
    }
  }

  /** Within one bracket the tax rises strictly with the income. */
  lemma BracketTaxIncreasing(a: real, b: real, threshold: real)
    requires a < b && BracketOf(a) == BracketOf(b)
    ensures BracketTax(a, threshold) < BracketTax(b, threshold)
  {
    BracketTaxIsRowTax(a, threshold);
    BracketTaxIsRowTax(b, threshold);
    var k := BracketOf(a);
    assert Rates[k] > 0.0;
    assert (b - a) * Rates[k] > 0.0;
    assert RowTax(k, b, threshold) - RowTax(k, a, threshold) == (b - a) * Rates[k];
  }

  function Max(a: real, b: real): (m: real)
    ensures m >= a && m >= b && (m == a || m == b)
  {
    if a >= b then a else b
  }

  /** `calculatePAYE(annualIncome, age)`. */
  function CalculatePaye(annualIncome: real, age: int): (tax: real)
    ensures tax >= 0.0
    ensures annualIncome <= TaxThreshold(age) ==> tax == 0.0
    ensures annualIncome > TaxThreshold(age) ==>
      tax == Max(0.0, RowTax(BracketOf(annualIncome), annualIncome, TaxThreshold(age)) - Rebate(age))
  {
    var taxThreshold := TaxThreshold(age);
    if annualIncome <= taxThreshold then 0.0
    else
      var tax := BracketTax(annualIncome, taxThreshold);
      BracketTaxIsRowTax(annualIncome, taxThreshold);
      Max(0.0, tax - Rebate(age))
  }

  /** Below 65 the rebate makes every income up to 191500 tax-free, and no more. */
  lemma TaxFreeBelow65(annualIncome: real, age: int)
    requires age < 65
    ensures CalculatePaye(annualIncome, age) == 0.0 <==> annualIncome <= 191500.0
  {
    if annualIncome > 237100.0 {
      BracketTaxIsRowTax(annualIncome, 95750.0);
      assert BracketTax(annualIncome, 95750.0) > 25326.0;
    }
  }

  /** From 65 to 74 the tax-free level lies in the second bracket, at 237100 + 1353 / 0.26. */
  lemma TaxFreeFrom65(annualIncome: real, age: int)
    requires 65 <= age < 75
    ensures CalculatePaye(annualIncome, age) == 0.0 <==> (annualIncome - 237100.0) * 0.26 <= 1353.0
  {
    if annualIncome > 370500.0 {
      assert BracketTax(annualIncome, 148217.0) > 60030.0;
    }
  }

  /** From 75 every income up to 254400 is tax-free, and no more. */
  lemma TaxFreeFrom75(annualIncome: real, age: int)
    requires age >= 75
    ensures CalculatePaye(annualIncome, age) == 0.0 <==> annualIncome <= 254400.0
  {
    if annualIncome > 370500.0 {
      assert BracketTax(annualIncome, 165689.0) > 60030.0;
    }
  }

  /** The table is not continuous at 237100: the first bracket ends at
      25443 while the second starts at 25326, so one rand more income
      means less tax. */
  lemma NotMonotoneAt237100()
    ensures CalculatePaye(237100.0, 30) == 8208.0
    ensures CalculatePaye(237101.0, 30) == 8091.26
  {
  }

  /** From 65 the first bracket subtracts the larger threshold, so at 237100
      the bracket tax rises instead of falling, and the rebate makes the tax
      0 on both sides. */
  lemma NoDropAt237100From65(age: int)
    requires age >= 65
    ensures BracketTax(237100.0, TaxThreshold(age)) < BracketTax(237101.0, TaxThreshold(age))
    ensures CalculatePaye(237100.0, age) == 0.0 && CalculatePaye(237101.0, age) == 0.0
  {
    AgeBands(age);
  }

  /** The same happens at the start of the fourth bracket: 512800 is taxed
      104143 before the rebate but 512801 only 104070.36. */
  lemma NotMonotoneAt512800()
    ensures CalculatePaye(512800.0, 30) == 86908.0
    ensures CalculatePaye(512801.0, 30) == 86835.36
  {
  }

  /** And at the start of the last bracket: 1817000 is taxed 627253 before
      the rebate but 1817001 only 626954.45. */
  lemma NotMonotoneAt1817000()
    ensures CalculatePaye(1817000.0, 30) == 610018.0
    ensures CalculatePaye(1817001.0, 30) == 609719.45
  {
  }
}
