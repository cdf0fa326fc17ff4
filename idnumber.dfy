/** Age from a South African ID number, `getAgeFromIDNumber` of lib/utils.ts.
    The first two of the thirteen digits are the year of birth within its
    century; years 00 to 21 are read as 2000 to 2021, the rest as 1922 to
    1999. The calendar year is a parameter instead of the system clock. */
module IdNumber {
  import opened Wrappers
  import opened Text

  datatype IdError = InvalidIdNumber

  function ErrorMessage(e: IdError): string
  {
    match e
    case InvalidIdNumber => "Invalid ID number"
  }

  /** The century cutoff: the four-digit year of birth for a two-digit year. */
  function FullBirthYear(yy: nat): (y: int)
    requires yy < 100
    ensures 1922 <= y <= 2021 && y % 100 == yy
  {
    yy + (if yy < 22 then 2000 else 1900)
  }

  /** The cutoff picks the only year of the window 1922..2021 with the given last two digits. */
  lemma FullBirthYearUnique(yy: nat, y: int)
    requires yy < 100 && 1922 <= y <= 2021 && y % 100 == yy
    ensures FullBirthYear(yy) == y
  {
    var f := FullBirthYear(yy);
    assert (y - f) % 100 == 0;
    assert -99 <= y - f <= 99;
  }

  /** `parseInt(idNumber.substring(0, 2))` when both characters are digits. */
  function BirthYearDigits(idNumber: string): (yy: nat)
    requires |idNumber| >= 2 && IsDigit(idNumber[0]) && IsDigit(idNumber[1])
    ensures yy < 100 && DigitPair(yy) == idNumber[..2]
  {
    DigitValue(idNumber[0]) * 10 + DigitValue(idNumber[1])
  }

  /** `getAgeFromIDNumber(idNumber)` in the year `currentYear`. JavaScript's
      `isNaN(Number(s))` test is taken as "not all decimal digits". */
  function AgeFromIdNumber(idNumber: string, currentYear: int): (r: Result<int, IdError>)
    ensures r.Failure? <==> |idNumber| != 13 || !AllDigits(idNumber)
    ensures r.Success? ==> currentYear - r.value == FullBirthYear(BirthYearDigits(idNumber))
  {
    if |idNumber| != 13 || !AllDigits(idNumber) then Failure(InvalidIdNumber)
    else
      Success(currentYear - FullBirthYear(BirthYearDigits(idNumber)))
  }

  /** The age depends on the first two digits and the year, nothing else. */
  lemma AgeDependsOnBirthYearDigits(a: string, b: string, currentYear: int)
    requires |a| == 13 && AllDigits(a) && |b| == 13 && AllDigits(b) && a[0] == b[0] && a[1] == b[1]
    ensures AgeFromIdNumber(a, currentYear) == AgeFromIdNumber(b, currentYear)
  {
  }

  /** Of a valid ID: the birth year lies in 1922..2021, so the age lies in
      currentYear - 2021 .. currentYear - 1922. */
  lemma AgeRange(idNumber: string, currentYear: int)
    requires AgeFromIdNumber(idNumber, currentYear).Success?
    ensures currentYear - 2021 <= AgeFromIdNumber(idNumber, currentYear).value <= currentYear - 1922
  {
  }

  /** The ID number built by lib/utils.test.ts: the last two digits of
      `currentYear - 30`, then "01015001080". */
  function TestIdNumber(currentYear: int): string
  {
    DigitPair((currentYear - 30) % 100) + "01015001080"
  }

  lemma TestIdNumberDigits(currentYear: int)
    ensures |TestIdNumber(currentYear)| == 13 && AllDigits(TestIdNumber(currentYear))
    ensures BirthYearDigits(TestIdNumber(currentYear)) == (currentYear - 30) % 100
  {
    var c := (currentYear - 30) % 100;
    var s := TestIdNumber(currentYear);
    DigitPairValue(c);
    assert s[..2] == DigitPair(c);
    assert forall i :: 0 <= i < 13 ==> IsDigit(s[i]) by {
      forall i | 0 <= i < 13 ensures IsDigit(s[i]) {
        if i >= 2 {
          assert s[i] == "01015001080"[i - 2];
        }
      }
    }
  }

  /** The test's expectation holds for every year from 1952 to 2051: the age is 30. */
  lemma TestIdNumberAge(currentYear: int)
    requires 1952 <= currentYear <= 2051
    ensures AgeFromIdNumber(TestIdNumber(currentYear), currentYear) == Success(30)
  {
    TestIdNumberDigits(currentYear);
    FullBirthYearUnique((currentYear - 30) % 100, currentYear - 30);
  }

  /** From 2052 on the cutoff reads the test's ID as a birth in 1922: age 130, not 30. */
  lemma TestIdNumberAgeIn2052()
    ensures AgeFromIdNumber(TestIdNumber(2052), 2052) == Success(130)
  {
    TestIdNumberDigits(2052);
  }

  /** "123" is rejected (lib/utils.test.ts). */
  lemma ShortIdRejected(currentYear: int)
    ensures AgeFromIdNumber("123", currentYear) == Failure(InvalidIdNumber)
  {
  }
}
