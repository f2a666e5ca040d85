/** The salary-slip form: its text fields, the net salary it shows as the amounts
    are typed, and the submit handler that resets every field. The current year
    comes from the clock, so it is a parameter here. */
module SlipForm {
  import opened Text

  /** The month choices, in calendar order. */
  const Months: seq<string> := [
    "January", "February", "March", "April", "May", "June",
    "July", "August", "September", "October", "November", "December"
  ]

  /** There are twelve month names and no two are the same. */
  lemma MonthsDistinct()
    ensures |Months| == 12
    ensures forall i, j | 0 <= i < j < |Months| :: Months[i] != Months[j]
  {
  }

  datatype SlipField = EmployeeIdField | MonthField | YearField | BasicField | AllowancesField | DeductionsField

  /** The form's values, all as the text of their inputs. */
  datatype SlipFormData = SlipFormData(
    employeeId: string,
    month: string,
    year: string,
    basicSalary: string,
    allowances: string,
    deductions: string)

  /** `Number(x || 0)`: an empty input counts as 0; otherwise the number it reads as. */
  function AmountOf(text: string): int
  {
    if text == [] then 0 else ParseDecimal(text)
  }

  /** The decimal text of a number counts as that number. */
  lemma AmountOfDecimal(n: int)
    ensures AmountOf(DecimalString(n)) == n
  {
    DecimalRoundTrip(n);
  }

  /** The net salary the form shows: basic plus allowances minus deductions. */
  function NetSalary(d: SlipFormData): int
  {
    AmountOf(d.basicSalary) + AmountOf(d.allowances) - AmountOf(d.deductions)
  }

  /** The form's state when it opens and after each submit: every field empty but
      the year, which holds the current year. */
  function InitialSlipForm(currentYear: int): (d: SlipFormData)
    ensures d.employeeId == [] && d.month == [] && ParseDecimal(d.year) == currentYear
    ensures d.basicSalary == [] && d.allowances == [] && d.deductions == []
  {
    DecimalRoundTrip(currentYear);
    SlipFormData("", "", DecimalString(currentYear), "", "", "")
  }

  /** With the three amounts empty the net salary is 0. */
  lemma EmptyAmountsNetZero(d: SlipFormData)
    requires d.basicSalary == [] && d.allowances == [] && d.deductions == []
    ensures NetSalary(d) == 0
  {
  }

  /** Each amount typed as a number enters the net salary with its sign:
      basic and allowances added, deductions subtracted. */
  lemma NetSalaryOfNumbers(d: SlipFormData, basic: int, allowances: int, deductions: int)
    requires d.basicSalary == DecimalString(basic)
    requires d.allowances == DecimalString(allowances)
    requires d.deductions == DecimalString(deductions)
    ensures NetSalary(d) == basic + allowances - deductions
  {
    AmountOfDecimal(basic);
    AmountOfDecimal(allowances);
    AmountOfDecimal(deductions);
  }

  /** Raising the allowances by `delta` raises the net salary by exactly `delta`. */
  lemma AllowancesRaiseNet(d: SlipFormData, a: int, delta: int)
    requires d.allowances == DecimalString(a)
    ensures NetSalary(d.(allowances := DecimalString(a + delta))) == NetSalary(d) + delta
  {
    AmountOfDecimal(a);
    AmountOfDecimal(a + delta);
  }

  /** Raising the deductions by `delta` lowers the net salary by exactly `delta`. */
  lemma DeductionsLowerNet(d: SlipFormData, x: int, delta: int)
    requires d.deductions == DecimalString(x)
    ensures NetSalary(d.(deductions := DecimalString(x + delta))) == NetSalary(d) - delta
  {
    AmountOfDecimal(x);
    AmountOfDecimal(x + delta);
  }

  /** `{ ...formData, [f]: value }`. */
  function WithField(d: SlipFormData, f: SlipField, value: string): SlipFormData
  {
    match f
    case EmployeeIdField => d.(employeeId := value)
    case MonthField => d.(month := value)
    case YearField => d.(year := value)
    case BasicField => d.(basicSalary := value)
    case AllowancesField => d.(allowances := value)
    case DeductionsField => d.(deductions := value)
  }

  class SalarySlipForm {
    var isLoading: bool
    var data: SlipFormData

    /** The form as it opens in `currentYear`. */
    constructor (currentYear: int)
      ensures !isLoading && data == InitialSlipForm(currentYear)
    {
      isLoading := false;
      data := InitialSlipForm(currentYear);
    }

    /** A select's `onValueChange` or an input's `onChange`: replaces one field
        and keeps the others. */
    method Edit(f: SlipField, value: string)
      modifies this`data
      ensures data == WithField(old(data), f, value)
    {
      data := WithField(data, f, value);
    }

    /** `handleSubmit`: loading on, then off, and every field back to its initial
        value, the year read from the clock again. */
    method HandleSubmit(currentYear: int)
      modifies this`isLoading, this`data
      ensures !isLoading && data == InitialSlipForm(currentYear)
      ensures NetSalary(data) == 0
    {
      isLoading := true;
      isLoading := false;
      data := SlipFormData("", "", DecimalString(currentYear), "", "", "");
    }
  }
}
