/** Per-step form validation, `validateStep` of pages/index.tsx: each step
    of the three-step form runs its checks in a fixed order and reports
    every check that fails, not just the first. */
module Validation {
  import opened Text
  import opened Payroll

  /** One check of validateStep; each has its own message. */
  datatype Check =
    | CompanyNameRequired | CompanyAddressRequired | CompanyContactRequired
    | CompanyEmailRequired | InvalidCompanyEmail
    | EmployeeNameRequired | IdNumberRequired | IdNumberLength | JobTitleRequired
    | BankNameRequired | AccountNumberRequired | AccountNumberLength
    | PayPeriodRequired | PayDateRequired | NormalHoursPositive | OvertimeHoursNonNegative
    | NormalRatePositive | OvertimeRateNonNegative

  function Message(c: Check): string
  {
    match c
    case CompanyNameRequired => "Company Name is required"
    case CompanyAddressRequired => "Company Address is required"
    case CompanyContactRequired => "Company Contact is required"
    case CompanyEmailRequired => "Company Email is required"
    case InvalidCompanyEmail => "Invalid Company Email format"
    case EmployeeNameRequired => "Employee Name is required"
    case IdNumberRequired => "ID Number is required"
    case IdNumberLength => "ID Number must be exactly 13 digits"
    case JobTitleRequired => "Job Title is required"
    case BankNameRequired => "Bank Name is required"
    case AccountNumberRequired => "Account Number is required"
    case AccountNumberLength => "Account Number must be between 9 and 12 digits"
    case PayPeriodRequired => "Pay Period is required"
    case PayDateRequired => "Pay Date is required"
    case NormalHoursPositive => "Normal Hours must be a positive number"
    case OvertimeHoursNonNegative => "Overtime Hours must be a non-negative number"
    case NormalRatePositive => "Normal Rate must be a positive number"
    case OvertimeRateNonNegative => "Overtime Rate must be a non-negative number"
  }

  function Messages(cs: seq<Check>): (ms: seq<string>)
    ensures |ms| == |cs| && forall i :: 0 <= i < |cs| ==> ms[i] == Message(cs[i])
  {
    if cs == [] then [] else [Message(cs[0])] + Messages(cs[1..])
  }

  /** `[^\s@]`: a character that is neither white space nor "@". */
  predicate PlainChar(c: char) { !IsWhitespace(c) && c != '@' }

  /** `/^[^\s@]+@[^\s@]+\.[^\s@]+$/.test(s)`: one "@" with plain characters
      before it, and after it plain characters with a "." that is neither
      the first nor the last of them. */
  predicate EmailShape(s: string)
  {
    exists i :: 0 < i < |s| && s[i] == '@'
      && (forall k :: 0 <= k < |s| && k != i ==> PlainChar(s[k]))
      && (exists j :: i + 1 < j < |s| - 1 && s[j] == '.')
  }

  /** Addresses the email pattern accepts and rejects: one "@", a "." with
      plain characters on both sides after it, and no white space. */
  lemma EmailExamples()
    ensures EmailShape("hr@acme.co.za")
    ensures !EmailShape("hr@acme")
    ensures !EmailShape("@acme.com")
    ensures !EmailShape("hr@.com")
    ensures !EmailShape("h r@acme.com")
    ensures !EmailShape("hr@@acme.com")
  {
    var good := "hr@acme.co.za";
    assert good[2] == '@' && good[7] == '.';
    assert forall k :: 0 <= k < |good| && k != 2 ==> PlainChar(good[k]);
    var spaced := "h r@acme.com";
    assert !PlainChar(spaced[1]) && spaced[1] != '@';
    var doubled := "hr@@acme.com";
    assert !PlainChar(doubled[2]) && !PlainChar(doubled[3]);
  }

  /** The check finds a problem with the form. `isNaN(Number(s))` is taken
      as "not all decimal digits"; the numeric fields are reals, so their
      `isNaN` tests never fire. */
  predicate Fails(d: PayslipData, c: Check)
  {
    match c
    case CompanyNameRequired => Blank(d.companyName)
    case CompanyAddressRequired => Blank(d.companyAddress)
    case CompanyContactRequired => Blank(d.companyContact)
    case CompanyEmailRequired => Blank(d.companyEmail)
    case InvalidCompanyEmail => d.companyEmail != "" && !EmailShape(d.companyEmail)
    case EmployeeNameRequired => Blank(d.employeeName)
    case IdNumberRequired => Blank(d.idNumber)
    case IdNumberLength => |d.idNumber| != 13 || !AllDigits(d.idNumber)
    case JobTitleRequired => Blank(d.jobTitle)
    case BankNameRequired => Blank(d.bankName)
    case AccountNumberRequired => Blank(d.accountNo)
    case AccountNumberLength => |d.accountNo| < 9 || |d.accountNo| > 12 || !AllDigits(d.accountNo)
    case PayPeriodRequired => Blank(d.payPeriod)
    case PayDateRequired => d.payDate == ""
    case NormalHoursPositive => d.normalHours <= 0.0
    case OvertimeHoursNonNegative => d.overtimeHours < 0.0
    case NormalRatePositive => d.normalRate <= 0.0
    case OvertimeRateNonNegative => d.overtimeRate < 0.0
  }

  /** The checks of each step, in the order validateStep runs them; other steps have none. */
  function StepChecks(step: int): seq<Check>
  {
    if step == 1 then
      [CompanyNameRequired, CompanyAddressRequired, CompanyContactRequired,
       CompanyEmailRequired, InvalidCompanyEmail]
    else if step == 2 then
      [EmployeeNameRequired, IdNumberRequired, IdNumberLength, JobTitleRequired,
       BankNameRequired, AccountNumberRequired, AccountNumberLength]
    else if step == 3 then
      [PayPeriodRequired, PayDateRequired, NormalHoursPositive, OvertimeHoursNonNegative,
       NormalRatePositive, OvertimeRateNonNegative]
    else []
  }

  /** The check as a list of errors: itself when it fails, else nothing. */
  function Pick(d: PayslipData, c: Check): seq<Check>
  {
    if Fails(d, c) then [c] else []
  }

  /** The failing checks among cs, in the order of cs. */
  function Failing(d: PayslipData, cs: seq<Check>): seq<Check>
  {
    if cs == [] then [] else Pick(d, cs[0]) + Failing(d, cs[1..])
  }

  lemma FailingCons(d: PayslipData, c: Check, cs: seq<Check>)
    ensures Failing(d, [c] + cs) == Pick(d, c) + Failing(d, cs)
  {
    assert ([c] + cs)[1..] == cs;
  }

  lemma FailingOne(d: PayslipData, c: Check)
    ensures Failing(d, [c]) == Pick(d, c)
  {
    FailingCons(d, c, []);
    assert [c] + [] == [c];
    assert Pick(d, c) + [] == Pick(d, c);
  }

  /** Two checks report each failing one, in order. */
  lemma FailingTwo(d: PayslipData, c1: Check, c2: Check)
    ensures Failing(d, [c1, c2]) == Pick(d, c1) + Pick(d, c2)
  {
    FailingOne(d, c1);
    FailingConcat(d, [c1], [c2]);
    FailingOne(d, c2);
    assert [c1, c2] == [c1] + [c2];
  }

  /** One more check after two. */
  lemma FailingThree(d: PayslipData, c1: Check, c2: Check, c3: Check)
    ensures Failing(d, [c1, c2, c3]) == Pick(d, c1) + Pick(d, c2) + Pick(d, c3)
  {
    FailingTwo(d, c1, c2);
    FailingConcat(d, [c1, c2], [c3]);
    FailingOne(d, c3);
    assert [c1, c2, c3] == [c1, c2] + [c3];
  }

  /** One more check after three. */
  lemma FailingFour(d: PayslipData, c1: Check, c2: Check, c3: Check, c4: Check)
    ensures Failing(d, [c1, c2, c3, c4]) == Pick(d, c1) + Pick(d, c2) + Pick(d, c3) + Pick(d, c4)
  {
    FailingThree(d, c1, c2, c3);
    FailingConcat(d, [c1, c2, c3], [c4]);
    FailingOne(d, c4);
    assert [c1, c2, c3, c4] == [c1, c2, c3] + [c4];
  }

  /** One more check after four. */
  lemma FailingFive(d: PayslipData, c1: Check, c2: Check, c3: Check, c4: Check, c5: Check)
    ensures Failing(d, [c1, c2, c3, c4, c5])
      == Pick(d, c1) + Pick(d, c2) + Pick(d, c3) + Pick(d, c4) + Pick(d, c5)
  {
    FailingFour(d, c1, c2, c3, c4);
    FailingConcat(d, [c1, c2, c3, c4], [c5]);
    FailingOne(d, c5);
    assert [c1, c2, c3, c4, c5] == [c1, c2, c3, c4] + [c5];
  }

  /** One more check after five. */
  lemma FailingSix(d: PayslipData, c1: Check, c2: Check, c3: Check, c4: Check, c5: Check, c6: Check)
    ensures Failing(d, [c1, c2, c3, c4, c5, c6])
      == Pick(d, c1) + Pick(d, c2) + Pick(d, c3) + Pick(d, c4) + Pick(d, c5) + Pick(d, c6)
  {
    FailingFive(d, c1, c2, c3, c4, c5);
    FailingConcat(d, [c1, c2, c3, c4, c5], [c6]);
    FailingOne(d, c6);
    assert [c1, c2, c3, c4, c5, c6] == [c1, c2, c3, c4, c5] + [c6];
  }

  /** One more check after six. */
  lemma FailingSeven(d: PayslipData, c1: Check, c2: Check, c3: Check, c4: Check, c5: Check,
                     c6: Check, c7: Check)
    ensures Failing(d, [c1, c2, c3, c4, c5, c6, c7])
      == Pick(d, c1) + Pick(d, c2) + Pick(d, c3) + Pick(d, c4) + Pick(d, c5) + Pick(d, c6) + Pick(d, c7)
  {
    FailingSix(d, c1, c2, c3, c4, c5, c6);
    FailingConcat(d, [c1, c2, c3, c4, c5, c6], [c7]);
    FailingOne(d, c7);
    assert [c1, c2, c3, c4, c5, c6, c7] == [c1, c2, c3, c4, c5, c6] + [c7];
  }

  /** A check is reported exactly when it is one of those run and it fails. */
  lemma {:induction false} FailingMembers(d: PayslipData, cs: seq<Check>, c: Check)
    ensures c in Failing(d, cs) <==> c in cs && Fails(d, c)
  {
    if cs != [] {
      FailingMembers(d, cs[1..], c);
      assert cs == [cs[0]] + cs[1..];
    }
  }

  /** Running two lists of checks one after the other reports the first's
      failures, then the second's. */
  lemma {:induction false} FailingConcat(d: PayslipData, a: seq<Check>, b: seq<Check>)
    ensures Failing(d, a + b) == Failing(d, a) + Failing(d, b)
  {
    if a == [] {
      assert a + b == b;
    } else {
      FailingConcat(d, a[1..], b);
      assert (a + b)[1..] == a[1..] + b;
    }
  }

  /** Nothing is reported exactly when every check passes. */
  lemma {:induction false} FailingEmpty(d: PayslipData, cs: seq<Check>)
    ensures Failing(d, cs) == [] <==> forall i :: 0 <= i < |cs| ==> !Fails(d, cs[i])
  {
    if cs != [] {
      FailingEmpty(d, cs[1..]);
      assert forall i :: 1 <= i < |cs| ==> cs[i] == cs[1..][i - 1];
    }
  }

  /** validateStep's list of errors. Each assignment is one
      `if (…) newErrors.push(…)` of the source: the check's condition is
      `Fails`, and `Pick` is the message it pushes, if any. */
  method ValidateStep(d: PayslipData, currentStep: int) returns (errors: seq<Check>)
    ensures errors == Failing(d, StepChecks(currentStep))
  {
    errors := [];
    assert forall c :: errors + Pick(d, c) == Pick(d, c);
    if currentStep == 1 {
      FailingFive(d, CompanyNameRequired, CompanyAddressRequired, CompanyContactRequired,
                  CompanyEmailRequired, InvalidCompanyEmail);
      errors := errors + Pick(d, CompanyNameRequired);
      errors := errors + Pick(d, CompanyAddressRequired);
      errors := errors + Pick(d, CompanyContactRequired);
      errors := errors + Pick(d, CompanyEmailRequired);
      errors := errors + Pick(d, InvalidCompanyEmail);
    } else if currentStep == 2 {
      FailingSeven(d, EmployeeNameRequired, IdNumberRequired, IdNumberLength, JobTitleRequired,
                   BankNameRequired, AccountNumberRequired, AccountNumberLength);
      errors := errors + Pick(d, EmployeeNameRequired);
      errors := errors + Pick(d, IdNumberRequired);
      errors := errors + Pick(d, IdNumberLength);
      errors := errors + Pick(d, JobTitleRequired);
      errors := errors + Pick(d, BankNameRequired);
      errors := errors + Pick(d, AccountNumberRequired);
      errors := errors + Pick(d, AccountNumberLength);
    } else if currentStep == 3 {
      FailingSix(d, PayPeriodRequired, PayDateRequired, NormalHoursPositive,
                 OvertimeHoursNonNegative, NormalRatePositive, OvertimeRateNonNegative);
      errors := errors + Pick(d, PayPeriodRequired);
      errors := errors + Pick(d, PayDateRequired);
      errors := errors + Pick(d, NormalHoursPositive);
      errors := errors + Pick(d, OvertimeHoursNonNegative);
      errors := errors + Pick(d, NormalRatePositive);
      errors := errors + Pick(d, OvertimeRateNonNegative);
    }
  }

  /** A step passes exactly when none of its checks fails. */
  lemma StepPasses(d: PayslipData, step: int)
    ensures Failing(d, StepChecks(step)) == [] <==> forall c :: c in StepChecks(step) ==> !Fails(d, c)
  {
    FailingEmpty(d, StepChecks(step));
  }

  /** Step 2 rejects an ID number that is not thirteen characters long. */
  lemma StepTwoRejectsIdLength(d: PayslipData)
    requires |d.idNumber| != 13
    ensures IdNumberLength in Failing(d, StepChecks(2))
  {
    FailingMembers(d, StepChecks(2), IdNumberLength);
  }

  /** Step 2 rejects an account number shorter than 9 or longer than 12. */
  lemma StepTwoRejectsAccountLength(d: PayslipData)
    requires |d.accountNo| < 9 || |d.accountNo| > 12
    ensures AccountNumberLength in Failing(d, StepChecks(2))
  {
    FailingMembers(d, StepChecks(2), AccountNumberLength);
  }

  /** Step 3 passes exactly when the pay period and date are given, the
      normal hours and rate are positive and the overtime ones non-negative. */
  lemma StepThreeRules(d: PayslipData)
    ensures Failing(d, StepChecks(3)) == [] <==>
      !Blank(d.payPeriod) && d.payDate != "" && d.normalHours > 0.0 && d.overtimeHours >= 0.0
      && d.normalRate > 0.0 && d.overtimeRate >= 0.0
  {
    FailingSix(d, PayPeriodRequired, PayDateRequired, NormalHoursPositive,
               OvertimeHoursNonNegative, NormalRatePositive, OvertimeRateNonNegative);
  }

  /** Steps other than 1, 2 and 3 have no checks and always pass. */
  lemma OtherStepsPass(d: PayslipData, step: int)
    requires step != 1 && step != 2 && step != 3
    ensures Failing(d, StepChecks(step)) == []
  {
  }

  /** Every failing check of a step is reported, not only the first: a
      blank name and a short ID number give both errors, in that order. */
  lemma StepTwoCollectsAll(d: PayslipData)
    requires Blank(d.employeeName) && !Blank(d.idNumber) && |d.idNumber| == 5
    requires !Blank(d.jobTitle) && !Blank(d.bankName) && !Blank(d.accountNo) && |d.accountNo| == 10
    requires AllDigits(d.accountNo)
    ensures Failing(d, StepChecks(2)) == [EmployeeNameRequired, IdNumberLength]
  {
    FailingSeven(d, EmployeeNameRequired, IdNumberRequired, IdNumberLength, JobTitleRequired,
                 BankNameRequired, AccountNumberRequired, AccountNumberLength);
  }

  /** The module-level `validateInputs` of pages/index.tsx, read with the
      record as a parameter: the two name checks only. */
  function RequiredNameErrors(d: PayslipData): (errors: seq<Check>)
    ensures errors == [] <==> !Blank(d.companyName) && !Blank(d.employeeName)
    ensures forall c :: c in errors ==> c == CompanyNameRequired || c == EmployeeNameRequired
    ensures errors == (if Blank(d.companyName) then [CompanyNameRequired] else [])
                      + (if Blank(d.employeeName) then [EmployeeNameRequired] else [])
  {
    FailingCons(d, CompanyNameRequired, [EmployeeNameRequired]);
    FailingCons(d, EmployeeNameRequired, []);
    assert [CompanyNameRequired] + [EmployeeNameRequired] == [CompanyNameRequired, EmployeeNameRequired];
    Failing(d, [CompanyNameRequired, EmployeeNameRequired])
  }
}
