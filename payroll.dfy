/** The record shapes the pages work on: expense claims, salary slips, the
    employee roster, profile rows and the signed-in user. Monetary amounts are
    whole rupees. */
module Payroll {
  import opened Wrappers

  /** `UserRole`: which dashboard a user gets. */
  datatype UserRole = AdminRole | EmployeeRole

  /** An expense claim's status: pending until an admin approves or rejects it. */
  datatype ExpenseStatus = Pending | Approved | Rejected

  /** A roster entry's status. */
  datatype EmployeeStatus = Active | Inactive

  /** A salary slip's status. */
  datatype SlipStatus = SlipPending | SlipApproved | SlipPaid

  /** An expense claim, as fetched from the `expenses` table or held in the mock list. */
  datatype Expense = Expense(
    id: string,
    employeeId: string,
    title: string,
    category: string,
    amount: int,
    date: string,
    status: ExpenseStatus,
    description: Option<string>,
    createdAt: string,
    updatedAt: string)

  /** A salary slip as the slip tables show it, with the employee's name and department. */
  datatype SalarySlip = SalarySlip(
    id: string,
    employeeId: string,
    employeeName: string,
    department: string,
    month: string,
    year: int,
    basicSalary: int,
    allowances: int,
    deductions: int,
    netSalary: int,
    status: SlipStatus)

  /** A row of the `salary_slips` table. */
  datatype SlipRow = SlipRow(
    id: string,
    employeeId: string,
    month: string,
    year: int,
    basicSalary: int,
    allowances: int,
    deductions: int,
    netSalary: int,
    status: string,
    createdAt: string)

  /** A roster entry as the employees table shows it. */
  datatype Employee = Employee(
    id: string,
    name: string,
    email: string,
    department: string,
    designation: string,
    salary: int,
    joinDate: string,
    status: EmployeeStatus)

  /** A row of the `profiles` table. */
  datatype Profile = Profile(
    id: string,
    userId: string,
    email: string,
    fullName: Option<string>,
    department: Option<string>,
    createdAt: string)

  /** The employee whose slips the mock-data pages show as "mine". */
  const MockEmployeeId := "1"

  /** A slip of that employee (`s.employeeId === "1"`). */
  predicate IsOwnSlip(s: SalarySlip) { s.employeeId == MockEmployeeId }

  /** The signed-in user: id, email and the `full_name` of its metadata. */
  datatype AuthUser = AuthUser(id: string, email: Option<string>, fullName: Option<string>)
}
