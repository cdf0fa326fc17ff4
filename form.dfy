/** The state of the `PayslipGenerator` page of pages/index.tsx: the form
    record, the current step of the three-step form, the error list shown
    to the user, the last payslip produced and whether its preview shows.
    Local storage, the sign-in listener and rendering are not part of it. */
module Form {
  import opened Wrappers
  import opened Payroll
  import Validation

  /** The message `generatePayslip` shows when its computation throws. */
  const GenerationFailed: string := "An error occurred while generating the payslip. Please try again."

  class PayslipForm {
    var data: PayslipData
    var step: int
    var errors: seq<string>
    var payslip: Option<Payslip>
    var showPreview: bool

    /** The page's initial state: an empty form on step 1. */
    constructor()
      ensures data == EmptyPayslipData && step == 1 && errors == []
      ensures payslip == None && !showPreview
    {
      data := EmptyPayslipData;
      step := 1;
      errors := [];
      payslip := None;
      showPreview := false;
    }

    /** `handleInputChange` and `handleCheckboxChange`: the record is replaced, nothing else. */
    method SetData(d: PayslipData)
      modifies this
      ensures data == d
      ensures step == old(step) && errors == old(errors)
      ensures payslip == old(payslip) && showPreview == old(showPreview)
    {
      data := d;
    }

    /** `validateStep(currentStep)`: shows every error of the step and
        answers whether there was none. */
    method ValidateStep(currentStep: int) returns (ok: bool)
      modifies this
      ensures errors == Validation.Messages(Validation.Failing(data, Validation.StepChecks(currentStep)))
      ensures ok <==> Validation.Failing(data, Validation.StepChecks(currentStep)) == []
      ensures data == old(data) && step == old(step)
      ensures payslip == old(payslip) && showPreview == old(showPreview)
    {
      var checks := Validation.ValidateStep(data, currentStep);
      errors := Validation.Messages(checks);
      ok := |checks| == 0;
    }

    /** `nextStep`: moves on only when the current step has no error. */
    method NextStep()
      modifies this
      ensures errors == Validation.Messages(Validation.Failing(data, Validation.StepChecks(old(step))))
      ensures step == if Validation.Failing(data, Validation.StepChecks(old(step))) == []
                      then old(step) + 1 else old(step)
      ensures data == old(data)
      ensures payslip == old(payslip) && showPreview == old(showPreview)
      ensures 1 <= old(step) < 3 ==> 1 <= step <= 3
    {
      var ok := ValidateStep(step);
      if ok {
        step := step + 1;
      }
    }

    /** `prevStep`: one step back, whatever the step is; the page only offers it from step 2 on. */
    method PrevStep()
      modifies this
      ensures step == old(step) - 1
      ensures data == old(data) && errors == old(errors)
      ensures payslip == old(payslip) && showPreview == old(showPreview)
      ensures 1 < old(step) <= 3 ==> 1 <= step <= 3
    {
      step := step - 1;
    }

    /** `clearForm`: an empty record, step 1, no errors and no preview; the
        last payslip itself is kept. */
    method ClearForm()
      modifies this
      ensures data == EmptyPayslipData && step == 1 && errors == [] && !showPreview
      ensures payslip == old(payslip)
    {
      data := EmptyPayslipData;
      step := 1;
      errors := [];
      showPreview := false;
    }

    /** `generatePayslip` in the year `currentYear`: with a company or
        employee name missing only those errors show; otherwise the errors
        clear and either the payslip and its preview appear or, when the ID
        number gives no age, the generic failure message shows. */
    method GeneratePayslip(currentYear: int)
      modifies this
      ensures data == old(data) && step == old(step)
      ensures Validation.RequiredNameErrors(data) != [] ==>
        errors == Validation.Messages(Validation.RequiredNameErrors(data))
        && payslip == old(payslip) && showPreview == old(showPreview)
      ensures Validation.RequiredNameErrors(data) == [] ==>
        match Payroll.GeneratePayslip(data, currentYear)
        case Success(p) => errors == [] && payslip == Some(p) && showPreview
        case Failure(_) =>
          errors == [GenerationFailed] && payslip == old(payslip) && showPreview == old(showPreview)
    {
      var nameErrors := Validation.RequiredNameErrors(data);
      if nameErrors != [] {
        errors := Validation.Messages(nameErrors);
        return;
      }
      errors := [];
      match Payroll.GeneratePayslip(data, currentYear)
      case Success(p) =>
        payslip := Some(p);
        showPreview := true;
      case Failure(_) =>
        errors := [GenerationFailed];
    }
  }
}
