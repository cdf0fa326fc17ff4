/** The older single-page generator of script.js: its own PAYE table with
    no age bands and no rebate, UIF without a cap, a validator that stops
    at the first problem, and amounts formatted with two decimals and
    commas between thousands. Inputs come from `parseFloat`, so numbers
    may be NaN. */
module Legacy {
  import opened Wrappers
  import opened Text
  import opened Grouping
  import opened Currency
  import Payroll
  import Validation

  /** A JavaScript number as `parseFloat` returns it: NaN or a finite value (an infinite result is not modelled). */
  datatype JsNumber = NaN | Num(value: real)

  /** `x || 0`: NaN (and zero) become zero. */
  function OrZero(x: JsNumber): (r: real)
    ensures x.NaN? ==> r == 0.0
    ensures x.Num? ==> r == x.value
  {
    match x
    case NaN => 0.0
    case Num(v) => if v == 0.0 then 0.0 else v
  }

  /** `calculatePAYE(annualIncome)` of script.js. */
  function LegacyPaye(annualIncome: real): (tax: real)
    ensures tax >= 0.0
    ensures tax == 0.0 <==> annualIncome <= 95750.0
  {
    if annualIncome <= 95750.0 then 0.0
    else if annualIncome <= 365000.0 then (annualIncome - 95750.0) * 0.18
    else if annualIncome <= 550000.0 then 48465.0 + (annualIncome - 365000.0) * 0.26
    else if annualIncome <= 750000.0 then 96564.0 + (annualIncome - 550000.0) * 0.31
    else if annualIncome <= 1000000.0 then 158564.0 + (annualIncome - 750000.0) * 0.36
    else 248564.0 + (annualIncome - 1000000.0) * 0.39
  }

  /** Away from 550000 the table is continuous and rises by at most the top
      rate: on either side of 550000 more income never means less tax, and
      one rand more costs at most 0.39 in tax. This is where the bases 48465,
      158564 and 248564 meet the previous bracket's value at 365000, 750000
      and 1000000. */
  lemma LegacyPayeSteady(a: real, b: real)
    requires a <= b && (b <= 550000.0 || a > 550000.0)
    ensures 0.0 <= LegacyPaye(b) - LegacyPaye(a) <= (b - a) * 0.39
  {
    if b <= 550000.0 {
      LegacyPayeLow(a, b);
    } else {
      LegacyPayeHigh(a, b);
    }
  }

  lemma LegacyPayeLow(a: real, b: real)
    requires a <= b <= 550000.0
    ensures 0.0 <= LegacyPaye(b) - LegacyPaye(a) <= (b - a) * 0.39
  {
    if a <= 365000.0 < b {
      assert LegacyPaye(365000.0) == 48465.0;
    }
  }

  lemma LegacyPayeHigh(a: real, b: real)
    requires 550000.0 < a <= b
    ensures 0.0 <= LegacyPaye(b) - LegacyPaye(a) <= (b - a) * 0.39
  {
    if a <= 750000.0 < b {
      assert LegacyPaye(750000.0) == 158564.0;
    }
    if a <= 1000000.0 < b {
      assert LegacyPaye(1000000.0) == 248564.0;
    }
  }

  /** At 550000 the third bracket reaches 96565 but the fourth starts from
      96564, so one rand more income means less tax. */
  lemma LegacyPayeGapAt550000()
    ensures LegacyPaye(550000.0) == 96565.0
    ensures LegacyPaye(550001.0) == 96564.31
    ensures LegacyPaye(550001.0) < LegacyPaye(550000.0)
  {
  }

  /** The first problem `validateInputs` reports. */
  datatype LegacyError = BadIdNumber | BadAccountNumber | BadNumbers

  /** The alert each problem raises. */
  function AlertMessage(e: LegacyError): string
  {
    match e
    case BadIdNumber => "ID number must be exactly 13 digits."
    case BadAccountNumber => "Bank Account number must be between 9 and 12 digits."
    case BadNumbers => "Normal hours, Overtime hours, Normal rate, and Overtime rate must be valid numbers."
  }

  predicate IdNumberOk(idNumber: string) { |idNumber| == 13 && AllDigits(idNumber) }

  predicate AccountNumberOk(accountNo: string) { 9 <= |accountNo| <= 12 && AllDigits(accountNo) }

  /** `validateInputs` of script.js: the first failing check, in the order
      ID number, account number, numbers, or None when all pass.
      `isNaN(s)` on a string is taken as "not all decimal digits". */
  function ValidateInputs(idNumber: string, accountNo: string, normalHours: JsNumber,
                          overtimeHours: JsNumber, normalRate: JsNumber, overtimeRate: JsNumber)
    : (r: Option<LegacyError>)
    ensures r == Some(BadIdNumber) <==> !IdNumberOk(idNumber)
    ensures r == Some(BadAccountNumber) <==> IdNumberOk(idNumber) && !AccountNumberOk(accountNo)
    ensures r == Some(BadNumbers) <==>
      IdNumberOk(idNumber) && AccountNumberOk(accountNo)
      && (normalHours.NaN? || overtimeHours.NaN? || normalRate.NaN? || overtimeRate.NaN?)
    ensures r == None <==>
      IdNumberOk(idNumber) && AccountNumberOk(accountNo)
      && normalHours.Num? && overtimeHours.Num? && normalRate.Num? && overtimeRate.Num?
  {
    if |idNumber| != 13 || !AllDigits(idNumber) then Some(BadIdNumber)
    else if |accountNo| < 9 || |accountNo| > 12 || !AllDigits(accountNo) then Some(BadAccountNumber)
    else if normalHours.NaN? || overtimeHours.NaN? || normalRate.NaN? || overtimeRate.NaN? then
      Some(BadNumbers)
    else None
  }

  /** Where the current form reports both a bad ID number and a bad account
      number on its second step, the old validator reports only the first. */
  lemma FirstProblemOnly(d: Payroll.PayslipData)
    requires |d.idNumber| == 5 && |d.accountNo| == 5
    ensures ValidateInputs(d.idNumber, d.accountNo, Num(d.normalHours), Num(d.overtimeHours),
                           Num(d.normalRate), Num(d.overtimeRate)) == Some(BadIdNumber)
    ensures Validation.IdNumberLength in Validation.Failing(d, Validation.StepChecks(2))
    ensures Validation.AccountNumberLength in Validation.Failing(d, Validation.StepChecks(2))
  {
    Validation.StepTwoRejectsIdLength(d);
    Validation.StepTwoRejectsAccountLength(d);
  }

  /** What script.js reads from its form before computing. */
  datatype LegacyInputs = LegacyInputs(
    idNumber: string, accountNo: string,
    normalHours: JsNumber, overtimeHours: JsNumber, normalRate: JsNumber, overtimeRate: JsNumber,
    uifEnabled: bool, payeEnabled: bool, loans: JsNumber, advances: JsNumber)

  /** The amounts script.js puts on its payslip. */
  datatype LegacyPay = LegacyPay(normalPay: real, overtimePay: real, grossPay: real,
                                 uifDeduction: real, payeDeduction: real,
                                 totalDeductions: real, netPay: real)

  /** The arithmetic of script.js:39-49. */
  function ComputePay(normalHours: real, overtimeHours: real, normalRate: real, overtimeRate: real,
                      uifEnabled: bool, payeEnabled: bool, loans: real, advances: real)
    : (p: LegacyPay)
    ensures p.normalPay == normalHours * normalRate && p.overtimePay == overtimeHours * overtimeRate
    ensures p.grossPay == p.normalPay + p.overtimePay
    ensures p.uifDeduction == if uifEnabled then p.grossPay * 0.01 else 0.0
    ensures p.payeDeduction == if payeEnabled then LegacyPaye(p.grossPay) else 0.0
    ensures p.totalDeductions == p.uifDeduction + p.payeDeduction + loans + advances
    ensures p.netPay == p.grossPay - p.totalDeductions
    ensures p.payeDeduction >= 0.0
  {
    var normalPay := normalHours * normalRate;
    var overtimePay := overtimeHours * overtimeRate;
    var grossPay := normalPay + overtimePay;
    var uifDeduction := if uifEnabled then grossPay * 0.01 else 0.0;
    var payeDeduction := if payeEnabled then LegacyPaye(grossPay) else 0.0;
    var totalDeductions := uifDeduction + payeDeduction + loans + advances;
    var netPay := grossPay - totalDeductions;
    LegacyPay(normalPay, overtimePay, grossPay, uifDeduction, payeDeduction, totalDeductions, netPay)
  }

  /** `generatePayslip` of script.js: nothing when validation fails,
      otherwise the amounts, with NaN loans and advances read as zero. */
  function GeneratePayslip(inputs: LegacyInputs): (r: Result<LegacyPay, LegacyError>)
    ensures r.Failure? <==> ValidateInputs(inputs.idNumber, inputs.accountNo, inputs.normalHours,
                              inputs.overtimeHours, inputs.normalRate, inputs.overtimeRate).Some?
    ensures r.Success? ==>
      r.value == ComputePay(inputs.normalHours.value, inputs.overtimeHours.value,
                            inputs.normalRate.value, inputs.overtimeRate.value,
                            inputs.uifEnabled, inputs.payeEnabled,
                            OrZero(inputs.loans), OrZero(inputs.advances))
  {
    match ValidateInputs(inputs.idNumber, inputs.accountNo, inputs.normalHours,
                         inputs.overtimeHours, inputs.normalRate, inputs.overtimeRate)
    case Some(e) => Failure(e)
    case None =>
      Success(ComputePay(inputs.normalHours.value, inputs.overtimeHours.value,
                         inputs.normalRate.value, inputs.overtimeRate.value,
                         inputs.uifEnabled, inputs.payeEnabled,
                         OrZero(inputs.loans), OrZero(inputs.advances)))
  }

  /** The two generators treat advances in opposite ways: the current one
      adds them to the gross and does not deduct them, the old one leaves
      them out of the gross and deducts them. With UIF, PAYE and the extra
      deductions off, the old net pay is the current one less twice the advances. */
  lemma AdvancesBothWays(d: Payroll.PayslipData, age: int)
    requires !d.uifEnabled && !d.payeEnabled
    requires d.additionalDeduction1 == 0.0 && d.additionalDeduction2 == 0.0
    ensures ComputePay(d.normalHours, d.overtimeHours, d.normalRate, d.overtimeRate,
                       false, false, d.loans, d.advances).netPay
            == Payroll.ComputePay(d, age).netPay - 2.0 * d.advances
  {
  }

  /** The old UIF has no cap: on a gross above 17712 it exceeds the current cap of 177.12. */
  lemma UifUncapped(normalHours: real, normalRate: real)
    requires normalHours >= 0.0 && normalRate >= 0.0 && normalHours * normalRate > 17712.0
    ensures ComputePay(normalHours, 0.0, normalRate, 0.0, true, false, 0.0, 0.0).uifDeduction
            > Payroll.UifCap
  {
  }

  /** The old PAYE is the annual table applied to the monthly gross: on the
      monthly 17500 of the worked example it is 0, where the current
      generator deducts 277.5. */
  lemma PayeOnMonthlyGross()
    ensures ComputePay(160.0, 10.0, 100.0, 150.0, true, true, 0.0, 0.0).payeDeduction == 0.0
  {
  }

  /** The sign `toFixed` writes: "-" for a negative amount. */
  function Sign(amount: int): string
  {
    if amount < 0 then "-" else ""
  }

  /** `amount.toFixed(2)` for an amount of whole cents: the sign, the
      whole part, a point and two digits. */
  function ToFixed2(amount: int): string
  {
    Sign(amount) + NatToString(Abs(amount) / 100) + "." + DigitPair(Abs(amount) % 100)
  }

  /** `formatCurrency(amount / 100)` of script.js. */
  function LegacyFormatCurrency(amount: int): string
  {
    InsertSeparators(ToFixed2(amount), ',')
  }

  /** The replace leaves a point and the two digits after it alone: no
      position there has three digits after it. */
  lemma ReplaceDecimals(s: string, e: nat)
    requires e + 3 == |s| && s[e] == '.' && IsDigit(s[e + 1]) && IsDigit(s[e + 2])
    ensures ReplaceFrom(s, ',', e, |s|) == s[e..|s|]
  {
    RunLength(s, e + 1, |s|);
    RunLength(s, e + 2, |s|);
    ReplaceUntouched(s, ',', e, |s|);
  }

  /** The replace on a text cut at p and e into a sign, a run of digits,
      and a point with two digits. */
  lemma ReplacePieces(s: string, p: nat, e: nat)
    requires p <= 1 && p < e && e + 3 == |s|
    requires p == 1 ==> s[0] == '-'
    requires forall k :: p <= k < e ==> IsDigit(s[k])
    requires s[e] == '.' && IsDigit(s[e + 1]) && IsDigit(s[e + 2])
    ensures InsertSeparators(s, ',') == s[0..p] + (GroupDigits(s[p..e], ',') + s[e..|s|])
  {
    ReplaceSplit(s, ',', 0, p, |s|);
    ReplaceSplit(s, ',', p, e, |s|);
    ReplaceUntouched(s, ',', 0, p);
    ReplaceDigitRun(s, ',', p, e, e);
    ReplaceDecimals(s, e);
  }

  /** The pattern replace on "sign, digits, point, two digits" groups the
      digits by threes and leaves the rest alone. */
  lemma ReplaceFixed(s: string, sign: string, w: string, c: string)
    requires sign == "" || sign == "-"
    requires AllDigits(w) && w != [] && AllDigits(c) && |c| == 2
    requires s == sign + w + "." + c
    ensures InsertSeparators(s, ',') == sign + GroupDigits(w, ',') + "." + c
  {
    var p := |sign|;
    var e := p + |w|;
    assert s[0..p] == sign && s[p..e] == w && s[e..|s|] == "." + c;
    assert forall k :: p <= k < e ==> IsDigit(s[k]) by {
      forall k | p <= k < e ensures IsDigit(s[k]) {
        assert s[k] == w[k - p];
      }
    }
    assert s[e] == '.' && s[e + 1] == c[0] && s[e + 2] == c[1];
    ReplacePieces(s, p, e);
  }

  /** The output: the sign, the whole part grouped by commas, a point, two digits. */
  lemma LegacyFormatLayout(amount: int)
    ensures LegacyFormatCurrency(amount)
      == Sign(amount) + GroupDigits(NatToString(Abs(amount) / 100), ',') + "." + DigitPair(Abs(amount) % 100)
  {
    DigitPairValue(Abs(amount) % 100);
    ReplaceFixed(ToFixed2(amount), Sign(amount), NatToString(Abs(amount) / 100), DigitPair(Abs(amount) % 100));
  }

  /** Removing the separators from "sign, grouped digits, point, two digits"
      leaves "sign, digits, point, two digits". */
  lemma UngroupFixed(sign: string, w: string, c: string)
    requires sign == "" || sign == "-"
    requires AllDigits(w) && AllDigits(c)
    ensures Remove(sign + GroupDigits(w, ',') + "." + c, ',') == sign + w + "." + c
  {
    var g := GroupDigits(w, ',');
    assert Remove(sign, ',') == sign;
    assert Remove(g, ',') == w by {
      RemoveGroupSeparators(w, ',');
    }
    assert Remove(".", ',') == ".";
    assert Remove(c, ',') == c by {
      RemoveAbsent(c, ',');
    }
    RemoveConcat(sign + g + ".", c, ',');
    RemoveConcat(sign + g, ".", ',');
    RemoveConcat(sign, g, ',');
  }

  /** Removing the commas gives back `toFixed(2)`. */
  lemma LegacyUngroup(amount: int)
    ensures Remove(LegacyFormatCurrency(amount), ',') == ToFixed2(amount)
  {
    DigitPairValue(Abs(amount) % 100);
    LegacyFormatLayout(amount);
    UngroupFixed(Sign(amount), NatToString(Abs(amount) / 100), DigitPair(Abs(amount) % 100));
  }

  /** -1234.56 is written "-1,234.56". */
  lemma LegacyFormatExample()
    ensures LegacyFormatCurrency(-123456) == "-1,234.56"
  {
    assert "-" + "1,234" + "." + "56" == "-1,234.56";
    assert Abs(-123456) / 100 == 1234 && Abs(-123456) % 100 == 56;
    assert NatToString(1234) == "1234" by {
      NatToStringExamples();
    }
    assert GroupDigits("1234", ',') == "1,234" by {
      assert "1234"[..1] == "1" && "1234"[1..] == "234";
    }
    assert DigitPair(56) == "56";
    LegacyFormatLayout(-123456);
  }
}
