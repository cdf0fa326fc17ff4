# Payslip generator: a Dafny model

This project models the calculating core of a South African payslip generator. It proves properties of that model.

**The current generator** is pages/index.tsx with lib/utils.ts. It covers:
- the PAYE income tax of an annual income, with an age-banded tax-free threshold, a seven-row bracket table, an age-banded rebate and a floor at zero;
- the monthly pay arithmetic: gross pay, UIF capped at 177.12, monthly PAYE, total deductions and net pay;
- the three-step form: per-step validation that reports every failing check, next/previous step, clear and generate;
- the age read from a 13-digit ID number, using a fixed century cutoff;
- rand formatting as `R 1 234,56`.

**The older generator** is script.js. It has:
- its own PAYE table, with no age bands and no rebate;
- UIF without a cap;
- a validator that stops at the first problem;
- formatting as `1,234.56`.

**Representation:**
- Money is an exact `real`.
- The formatters take an amount in whole cents (`int`).
- The calendar year is a parameter wherever the code reads the clock.
- JavaScript's `isNaN(Number(s))` on a string is modelled as "not all decimal digits".
- `s.trim() === ""` is modelled as "all white space".
- The regular expression `\B(?=(\d{3})+(?!\d))` is modelled position by position (`Grouping.SeparatorAt`). It is proved equal to grouping by threes from the right.

**Modules:**

| module | file | what it holds |
|---|---|---|
| Wrappers | `wrappers.dfy` | `Option` and `Result` |
| Text | `text.dfy` | decimal digits, `toString` of a natural number, `padStart`, white space |
| Grouping | `grouping.dfy` | the thousands-separator replace and its reference grouping |
| Currency | `currency.dfy` | `formatCurrency` of lib/utils.ts and a parser that inverts it |
| IdNumber | `idnumber.dfy` | `getAgeFromIDNumber` |
| Paye | `paye.dfy` | `calculatePAYE` of pages/index.tsx |
| Payroll | `payroll.dfy` | the form record, the pay arithmetic and the payslip |
| Validation | `validation.dfy` | `validateStep` and the two name checks of `validateInputs` |
| Form | `form.dfy` | the page state: the `PayslipForm` class |
| Legacy | `legacy.dfy` | script.js |

## Model

| member | source | states |
|---|---|---|
| Text.NatToString | lib/utils.ts:25-26 | `toString()` of a natural number: non-empty, all digits, a leading "0" only for zero, one character exactly below ten |
| Text.DigitsValue | lib/utils.ts:14 | `parseInt` of a digit string, last digit last; its meaning is fixed by `Text.DigitsValueOfNatToString` and `Text.DigitPairValue` |
| Text.Blank | pages/index.tsx:193-215 | `!s.trim()`: every character is white space, as `trim` defines it |
| Text.DigitsValueOfNatToString | lib/utils.ts:25 | reading the digits of `toString()` back gives the number |
| Text.PadStart | lib/utils.ts:26 | `padStart(width, pad)`: the length is the larger of the two, the text sits at the end, and pad characters fill the front |
| Text.TwoDigitCents | lib/utils.ts:26 | cents below 100, padded to two, are their tens digit and their units digit |
| Text.DigitPairValue | lib/utils.ts:26 | the two cent digits read back as the cents |
| Grouping.SeparatorAt | lib/utils.ts:25 | one match of `\B(?=(\d{3})+(?!\d))`: not a word boundary, and the digits from here on come in a positive multiple of three |
| Grouping.ReplaceFrom | lib/utils.ts:25 | the global replace over a range: each character, with a separator before it where `SeparatorAt` holds |
| Grouping.InsertSeparators | lib/utils.ts:25 | the replace over the whole string; its meaning is `Grouping.InsertSeparatorsDigits` |
| Grouping.InsertSeparatorsDigits | lib/utils.ts:25 | on a digit string, the replace inserts a separator exactly between groups of three counted from the right |
| Grouping.ReplaceDigitRun | lib/utils.ts:25 | inside a maximal run of digits that follows no word character, the replace groups the run by threes from its end |
| Grouping.GroupDigitsShape | lib/utils.ts:25 | the grouped whole part is a group of one to three digits, then groups of exactly three, each after one separator |
| Grouping.RemoveGroupSeparators | lib/utils.ts:25 | removing the separators gives back the plain decimal digits |
| Currency.FormatCurrency | lib/utils.ts:20-30 | `formatCurrency` of an amount in cents; its meaning is stated by the lemmas below |
| Currency.FormatCurrencyLayout | lib/utils.ts:20-30 | the output is an optional "-", "R ", the whole rand grouped by spaces, ",", then the two-digit cents |
| Currency.FormatCurrencyGroups | lib/utils.ts:25-28 | the unsigned output starts "R ", has "," before the last two characters, and its middle has the group shape; without spaces the middle is the whole rand |
| Currency.FormatNegative | lib/utils.ts:29 | for x > 0, the format of -x is "-" followed by the format of x |
| Currency.ParseFormatCurrency | lib/utils.ts:20-30 | parsing the formatted text gives back the amount (round trip) |
| Currency.FormatCurrencyInjective | lib/utils.ts:20-30 | different amounts give different texts |
| Currency.FormatThousand | lib/utils.test.ts:5 | 1000 is "R 1 000,00" |
| Currency.FormatWithCents | lib/utils.test.ts:6 | 1234.56 is "R 1 234,56" |
| Currency.FormatZero | lib/utils.test.ts:7 | 0 is "R 0,00" |
| Currency.FormatMinusThousand | lib/utils.test.ts:8 | -1000 is "-R 1 000,00" |
| Currency.FormatMillion | lib/utils.test.ts:9 | 1000000 is "R 1 000 000,00" |
| Currency.FormatOneCent | lib/utils.test.ts:10 | 0.01 is "R 0,01" |
| Currency.FormatNearMillion | lib/utils.test.ts:11 | 999999.99 is "R 999 999,99" |
| IdNumber.AgeFromIdNumber | lib/utils.ts:8-18 | fails exactly when the length is not 13 or a character is not a digit; otherwise the year minus the age is the full birth year of the first two digits |
| IdNumber.FullBirthYear | lib/utils.ts:15 | two-digit years below 22 are 2000s and the rest 1900s: the year lies in 1922..2021 and ends in the given digits |
| IdNumber.FullBirthYearUnique | lib/utils.ts:15 | the cutoff picks the only year in 1922..2021 with those last two digits |
| IdNumber.BirthYearDigits | lib/utils.ts:14 | `parseInt` of the first two digits is the number whose two-digit form they are |
| IdNumber.AgeDependsOnBirthYearDigits | lib/utils.ts:13-17 | two valid ID numbers with the same first two characters give the same age |
| IdNumber.AgeRange | lib/utils.ts:13-17 | a valid ID number gives an age between year − 2021 and year − 1922 |
| IdNumber.TestIdNumberAge | lib/utils.test.ts:16-20 | the test's ID number gives 30 in every year from 1952 to 2051 |
| IdNumber.TestIdNumberAgeIn2052 | lib/utils.test.ts:16-20 | in 2052 the same construction gives 130, because of the cutoff |
| IdNumber.ShortIdRejected | lib/utils.test.ts:22-24 | "123" is rejected |
| Paye.TaxThreshold | pages/index.tsx:50-55 | the age-banded threshold; its values are stated by `Paye.AgeBands` |
| Paye.Rebate | pages/index.tsx:81-86 | the age-banded rebate; its values are stated by `Paye.AgeBands` |
| Paye.AgeBands | pages/index.tsx:50-86 | the threshold is 95750, 148217 or 165689 and the rebate is 17235, +9444, +3145, for ages below 65, from 65 and from 75 |
| Paye.BracketOf | pages/index.tsx:64-78 | the chosen bracket is the first, in ascending order, whose upper bound is at least the income |
| Paye.BracketUnique | pages/index.tsx:64-78 | any bracket meeting that description is the chosen one |
| Paye.BracketTax | pages/index.tsx:63-78 | the bracket if-chain; its meaning is stated by `Paye.BracketTaxIsRowTax` |
| Paye.BracketTaxIsRowTax | pages/index.tsx:64-78 | the if-chain computes the base plus the rate times the excess of exactly the chosen bracket |
| Paye.BracketTaxIncreasing | pages/index.tsx:64-78 | within one bracket the tax rises strictly with the income |
| Paye.CalculatePaye | pages/index.tsx:48-89 | never negative; 0 at or below the age's threshold; above it, the larger of 0 and the bracket tax less the age's rebate |
| Paye.TaxFreeBelow65 | pages/index.tsx:48-89 | below 65, the tax is 0 exactly up to 191500 |
| Paye.TaxFreeFrom65 | pages/index.tsx:48-89 | from 65 to 74, the tax is 0 exactly while (income − 237100) · 0.26 ≤ 1353 |
| Paye.TaxFreeFrom75 | pages/index.tsx:48-89 | from 75, the tax is 0 exactly up to 254400 |
| Paye.NotMonotoneAt237100 | pages/index.tsx:64-67 | at age 30, 237100 is taxed 8208 but 237101 only 8091.26 |
| Paye.NoDropAt237100From65 | pages/index.tsx:50-86 | from 65, the bracket tax rises at 237100, and the tax is 0 at both 237100 and 237101 |
| Paye.NotMonotoneAt512800 | pages/index.tsx:68-71 | at age 30, 512800 is taxed 86908 but 512801 only 86835.36 |
| Paye.NotMonotoneAt1817000 | pages/index.tsx:74-78 | at age 30, 1817000 is taxed 610018 but 1817001 only 609719.45 |
| Payroll.UifDeduction | pages/index.tsx:285 | 0 when UIF is off; otherwise the smaller of 1% of gross and 177.12 |
| Payroll.UifCapBoundary | pages/index.tsx:285 | the cap binds exactly from a gross of 17712 |
| Payroll.PayeDeduction | pages/index.tsx:286 | never negative, 0 when PAYE is off, and twelve times it is the annual tax on twelve times the gross |
| Payroll.ComputePay | pages/index.tsx:279-288 | normal and overtime pay are hours times rate; gross is their sum plus advances; UIF and PAYE are `UifDeduction` and `PayeDeduction` of that gross; total is UIF + PAYE + loans + both extra deductions; net is gross less total; for a non-negative gross, net is at most gross less loans and extra deductions; UIF is never above the cap |
| Payroll.AdvancesNotDeducted | pages/index.tsx:281-287 | with UIF and PAYE off, net pay is earnings plus advances less loans and extra deductions |
| Payroll.NetPayCanBeNegative | pages/index.tsx:288 | an empty form with loans of 100 has net pay −100 (no floor) |
| Payroll.WorkedExample | pages/index.tsx:279-288 | 160 h at 100 plus 10 h at 150, age 30: gross 17500, UIF 175, PAYE 277.5, total 452.5, net 17047.5 |
| Payroll.GeneratePayslip | pages/index.tsx:260-313 | fails exactly when the ID number gives no age; otherwise the amounts are those of ComputePay at that age, and each of the fifteen copied fields equals the form's |
| Payroll.BadIdFailsWithoutPaye | pages/index.tsx:283 | the age is read even with PAYE off, so a bad ID number fails the payslip anyway |
| Validation.EmailShape | pages/index.tsx:197 | `/^[^\s@]+@[^\s@]+\.[^\s@]+$/`: one "@" after at least one plain character, and a "." after it with plain characters on both sides |
| Validation.EmailExamples | pages/index.tsx:197 | "hr@acme.co.za" matches; a missing ".", an empty local part, an empty domain label, white space and a second "@" do not |
| Validation.Fails | pages/index.tsx:193-227 | the failure condition of each check, in the source's terms |
| Validation.StepChecks | pages/index.tsx:191-229 | the checks of steps 1, 2 and 3 in source order, and none for another step; its meaning is stated by `Validation.StepPasses` and `Validation.OtherStepsPass` |
| Validation.Messages | pages/index.tsx:193-227 | one message per reported check, in the same order |
| Validation.FailingMembers | pages/index.tsx:188-229 | a check is reported exactly when it is one of the step's checks and it fails |
| Validation.FailingConcat | pages/index.tsx:188-229 | running two lists of checks in sequence reports the first list's failures, then the second's |
| Validation.FailingEmpty | pages/index.tsx:232-233 | nothing is reported exactly when every check passes |
| Validation.ValidateStep | pages/index.tsx:188-233 | the errors pushed for a step are exactly the failing checks of that step, in the source's order |
| Validation.StepPasses | pages/index.tsx:232-233 | a step passes exactly when none of its checks fails |
| Validation.StepTwoRejectsIdLength | pages/index.tsx:204-206 | an ID number whose length is not 13 is reported on step 2 |
| Validation.StepTwoRejectsAccountLength | pages/index.tsx:210-212 | an account number shorter than 9 or longer than 12 is reported on step 2 |
| Validation.StepThreeRules | pages/index.tsx:214-228 | step 3 passes exactly when the pay period and date are given, normal hours and rate are > 0, and overtime hours and rate are ≥ 0 |
| Validation.OtherStepsPass | pages/index.tsx:191-229 | any step other than 1, 2 and 3 has no checks |
| Validation.StepTwoCollectsAll | pages/index.tsx:201-213 | a blank name and a short ID number are both reported, in that order, and not just the first |
| Validation.RequiredNameErrors | pages/index.tsx:91-100 | the company-name error exactly when that name is blank, then the employee-name error exactly when that name is blank; hence no error exactly when both are given |
| Form.PayslipForm.constructor | pages/index.tsx:103-116 | an empty form on step 1, with no errors, no payslip and no preview |
| Form.PayslipForm.SetData | pages/index.tsx:150-169 | the record is replaced and nothing else changes |
| Form.PayslipForm.ValidateStep | pages/index.tsx:188-234 | the shown errors are the messages of the step's failing checks; the answer is true exactly when there are none |
| Form.PayslipForm.NextStep | pages/index.tsx:236-240 | the step goes up by one exactly when the current step has no error; from steps 1 and 2 it stays within 1..3 |
| Form.PayslipForm.PrevStep | pages/index.tsx:242 | the step goes down by one; from steps 2 and 3 it stays within 1..3 |
| Form.PayslipForm.ClearForm | pages/index.tsx:171-186 | an empty record, step 1, no errors, no preview; the last payslip is kept |
| Form.PayslipForm.GeneratePayslip | pages/index.tsx:244-322 | with a name missing, only the name errors show; otherwise the errors clear, and either the payslip of the data shows or the single failure message does |
| Legacy.OrZero | script.js:30-31 | `x \|\| 0`: NaN becomes 0 and a number stays itself |
| Legacy.LegacyPaye | script.js:138-153 | never negative, and 0 exactly at or below 95750 |
| Legacy.LegacyPayeSteady | script.js:142-151 | on either side of 550000 the tax never falls and rises by at most 0.39 per rand; the bases at 365000, 750000 and 1000000 continue the previous bracket |
| Legacy.LegacyPayeGapAt550000 | script.js:144-147 | 550000 is taxed 96565 but 550001 only 96564.31 |
| Legacy.ValidateInputs | script.js:112-132 | the ID error exactly when the ID is bad; the account error exactly when the ID is good and the account is bad; the numbers error exactly when both are good and a number is NaN; nothing exactly when all pass |
| Legacy.FirstProblemOnly | script.js:112-123 | with a bad ID and a bad account, the old validator reports only the ID, while the current step 2 reports both |
| Legacy.ComputePay | script.js:39-49 | normal and overtime pay are hours times rate; gross is their sum, with no advances; UIF is 1% of gross with no cap (0 when off); PAYE is `LegacyPaye` of the monthly gross (0 when off), never negative; total is UIF + PAYE + loans + advances; net is gross less total |
| Legacy.GeneratePayslip | script.js:24-49 | fails exactly when validation reports a problem; otherwise gives the amounts, with NaN loans and advances read as 0 |
| Legacy.AdvancesBothWays | script.js:41-46 | with UIF, PAYE and extra deductions off, the old net pay is the current one less twice the advances |
| Legacy.UifUncapped | script.js:44 | on a gross above 17712 the old UIF exceeds the current cap |
| Legacy.PayeOnMonthlyGross | script.js:45 | the annual table is applied to the monthly gross, so the worked example's 17500 pays no PAYE |
| Legacy.ToFixed2 | script.js:135 | `toFixed(2)` of an amount in cents: the sign, the whole part, ".", two digits; its meaning is stated by `Legacy.LegacyUngroup` |
| Legacy.LegacyFormatCurrency | script.js:134-136 | `formatCurrency` of script.js; its meaning is stated by `Legacy.LegacyFormatLayout` |
| Legacy.ReplaceFixed | script.js:135 | on "sign, digits, point, two digits" the replace only groups the digits by commas |
| Legacy.LegacyFormatLayout | script.js:134-136 | the output is the sign, the whole part grouped by commas, ".", then the two-digit cents |
| Legacy.LegacyUngroup | script.js:134-136 | removing the commas gives back `toFixed(2)` |
| Legacy.LegacyFormatExample | script.js:134-136 | -1234.56 is "-1,234.56" |

## Left out

- Authentication (pages/auth.tsx, app/auth/page.tsx and the sign-in listener and sign-out in pages/index.tsx) is not modelled. It is network and foreign calls.
- Local storage is not modelled: the load on mount, the save in both change handlers, and the removal in `clearForm`. These are I/O. `SetData` keeps only the record update.
- Rendering, the form components, `PayslipPreview.tsx` and `pdfUtils.ts` are presentation. They are not modelled, so neither is the preview's gross cell, which adds the advances a second time.
- The one-second `setTimeout` and the `isLoading` flag in `generatePayslip` are not modelled. Nor are the DOM, alert, PDF and print code of script.js, the console logging (`console.error` at pages/index.tsx:317, `console.log` at script.js:11) and the `cn` helper.
- `parseFloat` can return ±Infinity. `Legacy.JsNumber` has only NaN and finite values.
- IEEE floating point is not modelled. Amounts are exact reals, and the formatters take whole cents. So `Math.floor`/`Math.round` of a fraction, and its rounding to 100 cents, are outside the model.
- From 1e21 on, both `wholeNumber.toString()` at lib/utils.ts:25 and `toFixed` at script.js:135 write exponent notation (`"1e+21"`). The model always writes plain digits.
- An amount strictly between −0.005 and 0 rounds to zero cents but keeps its sign, so the source prints `"-R 0,00"` and script.js prints `"-0.00"`. An amount in whole cents cannot be such a value, so the model cannot produce those texts.
- The clock is `currentYear`, a parameter.
- `isNaN(Number(s))` and `isNaN(s)` on strings are modelled as "some character is not a decimal digit". JavaScript also accepts signs, a point, exponents, surrounding white space, `"Infinity"` with or without a sign, and the `0x`/`0o`/`0b` prefixes. For example, the 9-character account number `"+Infinity"` passes pages/index.tsx:210 and script.js:120, but the model rejects it. So a 13-character ID such as `"0x123456789ab"` passes the check at lib/utils.ts:9 and gives age NaN, since `parseInt("0x")` is NaN; the model rejects it.
- In pages/index.tsx, `handleInputChange` stores `parseFloat(value) || 0`, so the numeric fields are never NaN. Their `isNaN` tests in `validateStep` are therefore left out: the fields are `real`.
- `s.length` counts UTF-16 code units. The model counts `char`s.
- The module-level `validateInputs` of pages/index.tsx refers to a `payslipData` that is not in scope where it is declared. As written, the call at pages/index.tsx:245 throws a ReferenceError. That call sits outside the `try`, so `generatePayslip` changes no state at all. It is modelled as evidently intended, as `Validation.RequiredNameErrors` over the form record: `Form.PayslipForm.GeneratePayslip` models the intended name check, not the throw.
- The current generator's PAYE table is neither continuous nor non-decreasing. The tax falls at the start of a bracket at 237100 below age 65, and at 512800 and 1817000 whatever the age. From 65 there is no drop at 237100 (`Paye.NoDropAt237100From65`). Only the per-bracket monotonicity (`Paye.BracketTaxIncreasing`) and the three concrete drops at age 30 (`Paye.NotMonotoneAt237100`, `Paye.NotMonotoneAt512800`, `Paye.NotMonotoneAt1817000`) are stated.
- The code adds advances to gross pay and does not deduct them. That is what is modelled: `Payroll.AdvancesNotDeducted`, and `Legacy.AdvancesBothWays` for the opposite choice made in script.js.
- Form.PayslipForm.GeneratePayslip: the thrown error is modelled as the ID-number failure only. No other part of the computation can throw.
