/** The form record and the pay arithmetic of `generatePayslip` in
    pages/index.tsx: gross pay, UIF, monthly PAYE, total deductions and
    net pay, with the employee's age read from the ID number. */
module Payroll {
  import opened Wrappers
  import opened Paye
  import opened IdNumber

  /** The fields the user fills in (the `PayslipData` state without the computed amounts). */
  datatype PayslipData = PayslipData(
    companyName: string, companyAddress: string, companyContact: string,
    employeeName: string, idNumber: string, jobTitle: string, bankName: string, accountNo: string,
    payPeriod: string, payDate: string,
    normalHours: real, overtimeHours: real, normalRate: real, overtimeRate: real,
    uifEnabled: bool, payeEnabled: bool,
    loans: real, advances: real, additionalDeduction1: real, additionalDeduction2: real,
    companyEmail: string)

  /** The initial and cleared form. */
  const EmptyPayslipData: PayslipData :=
    PayslipData("", "", "", "", "", "", "", "", "", "", 0.0, 0.0, 0.0, 0.0, false, false,
                0.0, 0.0, 0.0, 0.0, "")

  /** The computed amounts of one payslip. */
  datatype Pay = Pay(normalPay: real, overtimePay: real, grossPay: real,
                     uifDeduction: real, payeDeduction: real, totalDeductions: real, netPay: real)

  /** What `setPayslipContent` receives: the copied fields and the amounts. */
  datatype Payslip = Payslip(
    companyName: string, companyAddress: string, companyContact: string, employeeName: string,
    bankName: string, accountNo: string, payPeriod: string, payDate: string,
    normalHours: real, overtimeHours: real,
    loans: real, advances: real, additionalDeduction1: real, additionalDeduction2: real,
    companyEmail: string, pay: Pay)

  /** The monthly UIF contribution is capped at this amount. */
  const UifCap: real := 177.12

  function Min(a: real, b: real): (m: real)
    ensures m <= a && m <= b && (m == a || m == b)
  {
    if a <= b then a else b
  }

  /** UIF: 1% of gross pay up to the cap, or nothing when switched off. */
  function UifDeduction(grossPay: real, uifEnabled: bool): (u: real)
    ensures !uifEnabled ==> u == 0.0
    ensures uifEnabled ==> u <= UifCap && u <= grossPay * 0.01 && (u == UifCap || u == grossPay * 0.01)
  {
    if uifEnabled then Min(grossPay * 0.01, 177.12) else 0.0
  }

  /** The cap binds from a gross pay of 17712 on. */
  lemma UifCapBoundary(grossPay: real)
    ensures grossPay <= 17712.0 ==> UifDeduction(grossPay, true) == grossPay * 0.01
    ensures grossPay >= 17712.0 ==> UifDeduction(grossPay, true) == UifCap
  {
  }

  /** Monthly PAYE: the annual tax on twelve months of this gross pay, over twelve. */
  function PayeDeduction(grossPay: real, age: int, payeEnabled: bool): (p: real)
    ensures p >= 0.0
    ensures !payeEnabled ==> p == 0.0
    ensures payeEnabled ==> p * 12.0 == CalculatePaye(grossPay * 12.0, age)
  {
    if payeEnabled then CalculatePaye(grossPay * 12.0, age) / 12.0 else 0.0
  }

  /** The arithmetic of pages/index.tsx:279-288 for an employee of this age. */
  function ComputePay(d: PayslipData, age: int): (p: Pay)
    ensures p.normalPay == d.normalHours * d.normalRate
    ensures p.overtimePay == d.overtimeHours * d.overtimeRate
    ensures p.grossPay == p.normalPay + p.overtimePay + d.advances
    ensures p.uifDeduction == UifDeduction(p.grossPay, d.uifEnabled)
    ensures p.payeDeduction == PayeDeduction(p.grossPay, age, d.payeEnabled)
    ensures p.totalDeductions == p.uifDeduction + p.payeDeduction + d.loans
                                 + d.additionalDeduction1 + d.additionalDeduction2
    ensures p.netPay == p.grossPay - p.totalDeductions
    ensures p.grossPay >= 0.0 ==>
      p.netPay <= p.grossPay - d.loans - d.additionalDeduction1 - d.additionalDeduction2
    ensures d.uifEnabled ==> p.uifDeduction <= UifCap
  {
    var normalPay := d.normalHours * d.normalRate;
    var overtimePay := d.overtimeHours * d.overtimeRate;
    var grossPay := normalPay + overtimePay + d.advances;
    var uifDeduction := UifDeduction(grossPay, d.uifEnabled);
    var payeDeduction := PayeDeduction(grossPay, age, d.payeEnabled);
    var totalDeductions := uifDeduction + payeDeduction + d.loans
                           + d.additionalDeduction1 + d.additionalDeduction2;
    var netPay := grossPay - totalDeductions;
    Pay(normalPay, overtimePay, grossPay, uifDeduction, payeDeduction, totalDeductions, netPay)
  }

  /** Advances are paid out with the salary and never deducted: with UIF and
      PAYE off, net pay is the earnings plus the advances less the other
      deductions. */
  lemma AdvancesNotDeducted(d: PayslipData, age: int)
    requires !d.uifEnabled && !d.payeEnabled
    ensures ComputePay(d, age).netPay
      == d.normalHours * d.normalRate + d.overtimeHours * d.overtimeRate + d.advances
         - d.loans - d.additionalDeduction1 - d.additionalDeduction2
  {
  }

  /** Net pay has no floor: deductions larger than the gross give a negative net. */
  lemma NetPayCanBeNegative(age: int)
    ensures ComputePay(EmptyPayslipData.(loans := 100.0), age).netPay == -100.0
  {
    assert UifDeduction(0.0, false) == 0.0 && PayeDeduction(0.0, age, false) == 0.0;
  }

  /** 160 hours at 100 and 10 hours at 150, age 30, UIF and PAYE on. */
  lemma WorkedExample()
    ensures var d := EmptyPayslipData.(normalHours := 160.0, normalRate := 100.0,
                                       overtimeHours := 10.0, overtimeRate := 150.0,
                                       uifEnabled := true, payeEnabled := true);
      ComputePay(d, 30) == Pay(16000.0, 1500.0, 17500.0, 175.0, 277.5, 452.5, 17047.5)
  {
    assert CalculatePaye(210000.0, 30) == 3330.0;
  }

  /** The payslip of `generatePayslip`, or its failure when the ID number
      cannot give an age (the exception that the handler catches). */
  function GeneratePayslip(d: PayslipData, currentYear: int): (r: Result<Payslip, IdError>)
    ensures r.Failure? <==> AgeFromIdNumber(d.idNumber, currentYear).Failure?
    ensures r.Success? ==> r.value.pay == ComputePay(d, AgeFromIdNumber(d.idNumber, currentYear).value)
    ensures r.Success? ==>
      var s := r.value;
      s.companyName == d.companyName && s.companyAddress == d.companyAddress
      && s.companyContact == d.companyContact && s.companyEmail == d.companyEmail
      && s.employeeName == d.employeeName && s.bankName == d.bankName && s.accountNo == d.accountNo
      && s.payPeriod == d.payPeriod && s.payDate == d.payDate
      && s.normalHours == d.normalHours && s.overtimeHours == d.overtimeHours
      && s.loans == d.loans && s.advances == d.advances
      && s.additionalDeduction1 == d.additionalDeduction1
      && s.additionalDeduction2 == d.additionalDeduction2
  {
    match AgeFromIdNumber(d.idNumber, currentYear)
    case Failure(e) => Failure(e)
    case Success(age) =>
      Success(Payslip(d.companyName, d.companyAddress, d.companyContact, d.employeeName,
                      d.bankName, d.accountNo, d.payPeriod, d.payDate,
                      d.normalHours, d.overtimeHours,
                      d.loans, d.advances, d.additionalDeduction1, d.additionalDeduction2,
                      d.companyEmail, ComputePay(d, age)))
  }

  /** The age is read even when PAYE is off, so a bad ID number fails the payslip regardless. */
  lemma BadIdFailsWithoutPaye(d: PayslipData, currentYear: int)
    requires !d.payeEnabled && |d.idNumber| != 13
    ensures GeneratePayslip(d, currentYear).Failure?
  {
  }
}
