# payroll-pal data logic in Dafny

This project is a Dafny model of the data-shaping logic of payroll-pal, a payroll
front end for admins and employees. The app manages salary slips, expense claims
and an employee roster over a hosted backend. The model covers the following:

- **The employee list query** (`useEmployees`).
  - The fetched records (or `[]`) go through a case-insensitive search over full
    name, email and department, then a department filter and a status filter,
    where `all` means no filter.
  - They are then sorted in place by a comparator: numbers compare as numbers,
    anything else compares as lower-cased text, and null or falsy keys become `''`.
  - Finally they are cut into the requested page, with `total` and
    `totalPages = ceil(total / pageSize)`.
  - The sort is an imperative method on an array. It is proved to produce a
    permutation that is sorted, because within one column the comparator is
    shown to be a consistent order.
- **The sign-up and login forms.**
  - The field rules: a required message before a format or length message, at
    most one message per field.
  - The email pattern `^[^\s@]+@[^\s@]+\.[^\s@]+$`, proved equivalent to a plain
    shape predicate.
  - The error map that `validateForm` builds.
  - The submit gate, and the route chosen after login.
- **The salary-slip form.**
  - The live net salary, `basic + allowances - deductions`, where empty fields
    count as 0.
  - The initial state and the reset after submit, and the list of months.
- **The expense pages.**
  - Per-status counts and amount totals, with partition lemmas.
  - The title/category search.
  - The admin page's fallbacks, approve/reject controls and page/filter state
    machine.
- **The dashboards.**
  - The admin stat cards (`Number(x) || 0`) and the employee's own figures.
  - The greeting name: full name, else the email's local part, else `User`.
  - The first three slips and claims, the current salary and the total earnings.
- **The salary-slip pages.**
  - The current employee's slips and the month/year search.
  - The total earnings and the rounded monthly average.
- **The employee roster pages.**
  - The profile-to-entry mapping with its defaults.
  - The three-field search and the active/inactive counts.
- **The initials** on the employees table and in the header.

Both the pages that fetch from the backend and the mock-data pages under
`frontend/` are modelled. The backend and the mock lists are parameters: each
function takes what a fetch or the mock module would have returned.

Each source file becomes one module. The state that a component updates through
handlers becomes a class with `modifies` clauses on its methods:

- the two auth forms;
- the salary-slip form;
- the admin expense page's search, filter and page state.

The sort that runs in place on the fetched array is a method on an `array`.
Everything that is a filter, map or reduce expression is a function, with lemmas
beside it.

Shared pieces:

- `Text` holds the ASCII case mapping, `includes`, `split`/`join` and decimal
  text.
- `Seqs` holds `filter`, `reduce`, `slice` and `Math.ceil`.
- `Search` is the generic search box.
- `ExpenseStats` holds the status aggregates.
- `Identity` is the greeting name.
- `EmailCheck` and `FieldRules` hold the form rules.
- `Payroll` holds the record shapes.

## Model

| member | source | states |
|---|---|---|
| EmployeeQuery.Settings | src/hooks/useEmployees.ts:40 | A missing sortBy, sortOrder, page or pageSize defaults to `created_at`, descending, 1 and 10. A value the caller passes is kept. |
| EmployeeQuery.StaffSearchMeaning | src/hooks/useEmployees.ts:55-59 | A record matches the search exactly when its full name, email or department contains the term, ignoring case. A null full name or department never matches. |
| EmployeeQuery.SearchStage | src/hooks/useEmployees.ts:53-60 | A missing or empty search leaves the list unchanged. Otherwise every kept record matches, and every matching record is kept as many times as it was fetched. The order is preserved. |
| EmployeeQuery.DepartmentStage | src/hooks/useEmployees.ts:62-64 | A department filter that is missing, empty or `all` leaves the list unchanged. Otherwise it keeps exactly the records of that department, each as many times as it occurs, in order. |
| EmployeeQuery.StatusStage | src/hooks/useEmployees.ts:66-68 | A status filter that is missing, empty or `all` leaves the list unchanged. Otherwise it keeps exactly the records with that status, each as many times as it occurs, in order. |
| EmployeeQuery.FilteredSpec | src/hooks/useEmployees.ts:50-68 | The filtered list is an order-preserving subsequence of `data`. Every record in it passes all three active stages, and each fetched record that passes them all occurs in it as often as in `data`. |
| EmployeeQuery.Filtered | src/hooks/useEmployees.ts:50-68 | The three stages on `data \|\| []`: without data the list is empty, and every record in it was fetched. `FilteredSpec` states exactly which records survive. |
| EmployeeQuery.SubsequenceTransitive | src/hooks/useEmployees.ts:55-67 | Chaining filter stages keeps the subsequence relation. |
| EmployeeQuery.TotalPages | src/hooks/useEmployees.ts:98 | `Math.ceil(total / pageSize)`: the least count of pages that holds `total`. It is not a number when pageSize is 0. |
| EmployeeQuery.PageBounds | src/hooks/useEmployees.ts:90-91 | Page `p` is the slice from `(p-1)*size` to `min(total, p*size)` and holds at most `size` records. |
| EmployeeQuery.RunQuery | src/hooks/useEmployees.ts:44-99 | A backend error fails the query. Otherwise the sorted list is a permutation of the filtered list and is sorted, and the result is its page. `total` is the filtered length, which no paging setting affects, and `totalPages` is its ceiling quotient. |
| EmployeeQuery.QueryEnabled | src/hooks/useEmployees.ts:101 | The query runs exactly when a user is signed in with the admin role. |
| Seqs.PagesCoverAll | src/hooks/useEmployees.ts:90-98 | Concatenating pages 1 to `ceil(total/pageSize)` gives back the whole sorted list. |
| Seqs.FirstPagesArePrefix | src/hooks/useEmployees.ts:90-91 | The first `k` pages together are the prefix of length `min(k*size, total)`. |
| Seqs.CeilDiv | src/hooks/useEmployees.ts:98 | `r*d >= n` and `(r-1)*d < n`. |
| Seqs.CeilDivUnique | src/hooks/useEmployees.ts:98 | Only one number has those two bounds. |
| Seqs.JsSlice | src/hooks/useEmployees.ts:91 | For non-negative bounds, `slice` is the subsequence between the bounds clipped to the length. |
| EmployeeOrder.KeyOf | src/hooks/useEmployees.ts:72-73 | `record[sortBy] \|\| ''`: a text column gives that field's text, or `''` when it is null. A salary gives its number, except 0, which is falsy and becomes `''`. |
| EmployeeOrder.LexCompare | src/hooks/useEmployees.ts:83-85 | `localeCompare`, taken as the lexicographic order, answers -1, 0 or 1, and 0 exactly for equal texts. |
| EmployeeOrder.Compare | src/hooks/useEmployees.ts:75-85 | Two numeric keys compare by difference: negative exactly when the first is smaller (larger when descending), and 0 exactly when they are equal. Any other pair compares as lower-cased text: -1, 0 or 1, and 0 exactly when the lower-cased texts are equal. |
| EmployeeOrder.LexAntisymmetric | src/hooks/useEmployees.ts:83-85 | Swapping the arguments negates the answer. |
| EmployeeOrder.LexTransitive | src/hooks/useEmployees.ts:83-85 | "At most" in that order is transitive. |
| EmployeeOrder.CompareAntisymmetric | src/hooks/useEmployees.ts:75-85 | The comparator, for numbers (`a - b` or `b - a`) and for lower-cased text in either direction, negates when its arguments are swapped. |
| EmployeeOrder.OrderedTransitive | src/hooks/useEmployees.ts:71-86 | Within one sort column the comparator's "may stay before" is transitive. This includes the salary column, where `''` precedes every number. |
| EmployeeOrder.NeighboursSorted | src/hooks/useEmployees.ts:71 | A list whose neighbouring records are in order is sorted: every earlier record may precede every later one. |
| EmployeeOrder.SalaryOrder | src/hooks/useEmployees.ts:75-77 | Sorted by salary ascending, the records without a salary come first and the rest by non-decreasing salary. Descending is the mirror image. |
| EmployeeOrder.SortEmployees | src/hooks/useEmployees.ts:71-86 | The in-place sort leaves a permutation of the array that is sorted by the comparator for the chosen column and direction. |
| EmployeeOrder.InsertLast | src/hooks/useEmployees.ts:71-86 | One insertion step extends the sorted prefix by one record and keeps the multiset. |
| EmployeeOrder.SwapStep | src/hooks/useEmployees.ts:71-86 | A swap of two neighbours that the comparator puts the other way round keeps the insertion invariant. |
| Text.ContainsIffOccurs | src/hooks/useEmployees.ts:56-58 | `includes` holds exactly when the term occurs at some index. |
| Text.QueryCaseIrrelevant | src/hooks/useEmployees.ts:54 | Lower-casing the search term before matching changes nothing. |
| Text.LowerIdempotent | src/hooks/useEmployees.ts:54-58 | Lower-casing twice is lower-casing once. |
| Search.SearchRows | src/pages/admin/AdminSalarySlips.tsx:12-15 | The generic search box: every kept row has a field containing the query, ignoring case, and every such row is kept as many times as it occurs. The result is an ordered subsequence. |
| Search.EmptyQueryKeepsAll | src/pages/employee/EmployeeExpenses.tsx:28-31 | The empty query keeps every row, in order. |
| Search.SearchIdempotent | src/pages/admin/AdminSalarySlips.tsx:12-15 | Searching the result again with the same query changes nothing. |
| EmailCheck.PatternIffShape | src/components/auth/SignupForm.tsx:38 | The email pattern matches exactly when the text has no whitespace and exactly one `@`, with a non-empty local part, and a domain with a `.` that is neither its first nor its last character. |
| EmailCheck.MatchHasShape | src/components/auth/SignupForm.tsx:38 | Every match of the pattern has that shape. |
| EmailCheck.ShapeMatches | src/components/auth/SignupForm.tsx:38 | Every text of that shape matches the pattern. |
| FieldRules.EmailRule | src/components/auth/SignupForm.tsx:36-40 | Empty gives "Email is required". A non-empty email gives "Please enter a valid email" exactly when it lacks the shape. There is no message exactly when it is non-empty and well formed. |
| FieldRules.EmailError | src/components/auth/SignupForm.tsx:36-40 | The email rule as the form writes it: the required check, then the pattern. `EmailRule` states its messages in terms of the address's shape. |
| FieldRules.PasswordError | src/components/auth/SignupForm.tsx:42-46 | Empty gives the required message. A length of 1 to 5 gives the length message. There is no message exactly when the length is at least 6. |
| FieldRules.Put | src/components/auth/SignupForm.tsx:28-52 | Recording a field's message adds exactly that key with that message and keeps every other entry. |
| FieldRules.CheckField | src/components/auth/SignupForm.tsx:30-52 | One `if / else if` rule adds the required message, or else the format message, or nothing. |
| Signup.NameError | src/components/auth/SignupForm.tsx:30-34 | Empty gives "Name is required", length 1 gives the length message, and length at least 2 gives none. |
| Signup.ConfirmError | src/components/auth/SignupForm.tsx:48-52 | Empty gives "Please confirm your password". A non-empty confirmation that differs from the password gives "Passwords do not match". An equal one gives none. |
| Signup.SignupErrors | src/components/auth/SignupForm.tsx:27-53 | The error record `validateForm` builds, one rule per field in order. `SignupErrorsSpec` and `SignupValidIff` state its entries and when it is empty. |
| Signup.SignupErrorsSpec | src/components/auth/SignupForm.tsx:27-53 | Each field has an entry exactly when its rule gives a message, and the entry is that one message. |
| Signup.SignupValidIff | src/components/auth/SignupForm.tsx:55 | The form is valid exactly when name, email, password and confirmation all pass their rules. |
| Signup.SignupForm.constructor | src/components/auth/SignupForm.tsx:16-25 | The initial state has the employee role, empty fields, no errors and is not loading. |
| Signup.SignupForm.SetRole | src/components/auth/SignupForm.tsx:79 | The role toggle sets the role. |
| Signup.SignupForm.Edit | src/components/auth/SignupForm.tsx:92 | An input replaces its own field and keeps the others. |
| Signup.SignupForm.ValidateForm | src/components/auth/SignupForm.tsx:27-56 | Stores the error map of the current data. Returns true exactly when the map is empty. |
| Signup.SignupForm.HandleSubmit | src/components/auth/SignupForm.tsx:58-75 | An invalid form stops with loading and view unchanged. A valid one ends not loading and switched to login. |
| Login.LoginErrorsSpec | src/components/auth/LoginForm.tsx:27-43 | The email rule is the sign-up one, and the password rule requires 6 characters. The form is valid exactly when the email is non-empty and well formed and the password has at least 6 characters. |
| Login.LoginErrors | src/components/auth/LoginForm.tsx:27-43 | The error record of the login `validateForm`. `LoginErrorsSpec` states its entries and when it is empty. |
| Login.RouteFor | src/components/auth/LoginForm.tsx:62 | Admins go to `/admin` and employees to `/employee`. |
| Login.LoginForm.constructor | src/components/auth/LoginForm.tsx:18-25 | The initial state has the employee role, empty fields, no errors, is not loading and has not navigated. |
| Login.LoginForm.SetRole | src/components/auth/LoginForm.tsx:67 | The role toggle sets the role. |
| Login.LoginForm.Edit | src/components/auth/LoginForm.tsx:80 | An input replaces its own field and keeps the other. |
| Login.LoginForm.ValidateForm | src/components/auth/LoginForm.tsx:27-44 | Stores the error map of the current data. Returns true exactly when it is empty. |
| Login.LoginForm.HandleSubmit | src/components/auth/LoginForm.tsx:46-63 | An invalid form never navigates and leaves loading unchanged. A valid one ends not loading, at the role's route. |
| SlipForm.MonthsDistinct | src/components/dashboard/SalarySlipForm.tsx:15-18 | Twelve month names, all different. |
| SlipForm.AmountOfDecimal | src/components/dashboard/SalarySlipForm.tsx:61-63 | `Number(text \|\| 0)` reads the decimal text of an amount back as that amount. |
| SlipForm.InitialSlipForm | src/components/dashboard/SalarySlipForm.tsx:30-37 | The fresh form has empty fields and the current year. |
| SlipForm.NetSalary | src/components/dashboard/SalarySlipForm.tsx:61-63 | Basic plus allowances minus deductions, an empty field counting as 0. `NetSalaryOfNumbers`, `EmptyAmountsNetZero`, `AllowancesRaiseNet` and `DeductionsLowerNet` state it. |
| SlipForm.EmptyAmountsNetZero | src/components/dashboard/SalarySlipForm.tsx:61-63 | With all three amounts empty the net salary is 0. |
| SlipForm.NetSalaryOfNumbers | src/components/dashboard/SalarySlipForm.tsx:61-63 | With amounts typed as numbers, net = basic + allowances - deductions. |
| SlipForm.AllowancesRaiseNet | src/components/dashboard/SalarySlipForm.tsx:61-63 | Raising the allowances by `d` raises the net salary by `d`. |
| SlipForm.DeductionsLowerNet | src/components/dashboard/SalarySlipForm.tsx:61-63 | Raising the deductions by `d` lowers the net salary by `d`. |
| SlipForm.SalarySlipForm.constructor | src/components/dashboard/SalarySlipForm.tsx:29-37 | The form starts empty for the current year and is not loading. |
| SlipForm.SalarySlipForm.Edit | src/components/dashboard/SalarySlipForm.tsx:125 | An input replaces its own field and keeps the others. |
| SlipForm.SalarySlipForm.HandleSubmit | src/components/dashboard/SalarySlipForm.tsx:39-59 | After submit the form is reset and not loading, so the shown net salary is 0. |
| ExpenseStats.StatusTotalsPartition | src/pages/admin/AdminExpenses.tsx:40-41 | Pending, approved and rejected amounts add up to the sum of all claims. |
| ExpenseStats.StatusCountsPartition | src/pages/admin/AdminExpenses.tsx:39 | Pending, approved and rejected counts add up to the number of claims. |
| ExpenseStats.PendingCount | src/pages/admin/AdminExpenses.tsx:39 | `filter(status === 'pending').length`. `StatusCountsPartition` and `DecisionMovesAmount` state how it relates to the other counts. |
| ExpenseStats.ApprovedCount | src/pages/employee/EmployeeExpenses.tsx:33-39 | The number of approved claims. `StatusCountsPartition` states it with the other two counts. |
| ExpenseStats.RejectedCount | src/pages/employee/EmployeeExpenses.tsx:33-39 | The number of rejected claims. `StatusCountsPartition` states it with the other two counts. |
| ExpenseStats.PendingTotal | src/pages/admin/AdminExpenses.tsx:40 | The sum of the pending amounts. `StatusTotalsPartition` and `DecisionMovesAmount` state it. |
| ExpenseStats.ApprovedTotal | src/pages/admin/AdminExpenses.tsx:41 | The sum of the approved amounts. `StatusTotalsPartition` and `DecisionMovesAmount` state it. |
| ExpenseStats.RejectedTotal | src/pages/employee/EmployeeExpenses.tsx:33-39 | The sum of the rejected amounts, the remainder of the partition that `StatusTotalsPartition` states. |
| ExpenseStats.DecisionMovesAmount | src/pages/admin/AdminExpenses.tsx:45 | Deciding a pending claim takes one off the pending count and its amount off the pending total. Approving it adds its amount to the approved total. |
| ExpenseStats.SearchExpensesSpec | src/pages/employee/EmployeeExpenses.tsx:28-31 | The search keeps exactly the claims whose title or category contains the query, ignoring case, each as many times as it is listed and in order. The empty query keeps all of them. |
| ExpenseStats.ExpenseSearchMeaning | src/pages/employee/EmployeeExpenses.tsx:29-30 | A claim matches the search exactly when its title or its category contains the query, ignoring case. |
| Seqs.SumWherePartition | src/pages/employee/EmployeeExpenses.tsx:33-39 | Each element contributes to exactly one of the sums over a test and over its negation. |
| Seqs.WhereUpdate | src/pages/admin/AdminExpenses.tsx:39-41 | Replacing one claim changes a filtered sum or count by that claim's old and new contributions only. |
| Seqs.FilterPartition | src/pages/admin/AdminEmployees.tsx:78-84 | The kept and the dropped elements together make up the input. |
| Seqs.FilterIsSubsequence | src/hooks/useEmployees.ts:55 | `filter` keeps the surviving elements in their original order. |
| Seqs.FilterCounts | src/hooks/useEmployees.ts:55 | `filter` keeps each element that passes the test as many times as it occurs, and drops every element that fails it. |
| Seqs.FilterIdempotent | src/pages/admin/AdminSalarySlips.tsx:12 | Filtering twice with the same test is filtering once. |
| Seqs.Take | src/pages/employee/EmployeeDashboard.tsx:27 | `slice(0, n)` is the prefix of length `min(n, length)`. |
| AdminExpensesPage.ListedExpenses | src/pages/admin/AdminExpenses.tsx:35 | The listed claims are the fetched ones, or `[]` when missing. |
| AdminExpensesPage.TotalPagesOf | src/pages/admin/AdminExpenses.tsx:36 | A missing page count or a page count of 0 reads as 1. Any other count is kept. |
| AdminExpensesPage.TotalOf | src/pages/admin/AdminExpenses.tsx:37 | A missing total reads as 0. |
| AdminExpensesPage.AdminExpensesPanel | src/pages/admin/AdminExpenses.tsx:69-75 | While loading only the spinner shows. |
| AdminExpensesPage.PanelFigures | src/pages/admin/AdminExpenses.tsx:39-41 | The page computes the pending count, pending amount and approved amount over the listed claims. Together with the rejected amount, the two amounts make up the sum. |
| AdminExpensesPage.RejectedContributeNothing | src/pages/admin/AdminExpenses.tsx:40-41 | A rejected claim's amount affects neither the pending nor the approved amount. |
| AdminExpensesPage.ActionsFor | src/pages/admin/AdminExpenses.tsx:191 | A row has approve and reject buttons exactly when its claim is pending. |
| AdminExpensesPage.RequestedStatus | src/pages/admin/AdminExpenses.tsx:45-54 | Approve requests `approved` and reject requests `rejected`. Neither requests `pending`. |
| AdminExpensesPage.DecisionIsFinal | src/pages/admin/AdminExpenses.tsx:43-59 | A decided claim offers no more buttons. It leaves the pending count, and approving adds its amount to the approved figure. |
| AdminExpensesPage.PreviousPage | src/pages/admin/AdminExpenses.tsx:221 | Previous does nothing on page 1 and otherwise goes back one page. |
| AdminExpensesPage.NextPage | src/pages/admin/AdminExpenses.tsx:225 | Next does nothing on the last page and otherwise goes on one page. |
| AdminExpensesPage.StepsStayInRange | src/pages/admin/AdminExpenses.tsx:221-225 | Any run of Previous/Next clicks from a page in `[1, totalPages]` stays in that range. |
| AdminExpensesPage.NextReachesEveryPage | src/pages/admin/AdminExpenses.tsx:225 | `m` clicks on Next from page `p` reach page `p + m` whenever that page exists. |
| AdminExpensesPage.NoDataPanel | src/pages/admin/AdminExpenses.tsx:36-37 | With no data there is one page, a total of 0, the empty message and no pagination bar. |
| AdminExpensesPage.AdminExpensesState.constructor | src/pages/admin/AdminExpenses.tsx:20-23 | The page starts with no search, both filters `all` and page 1. |
| AdminExpensesPage.AdminExpensesState.SetSearch | src/pages/admin/AdminExpenses.tsx:114 | Typing a search sets it and resets the page to 1. |
| AdminExpensesPage.AdminExpensesState.SetStatusFilter | src/pages/admin/AdminExpenses.tsx:117 | Choosing a status sets it and resets the page to 1. |
| AdminExpensesPage.AdminExpensesState.SetCategoryFilter | src/pages/admin/AdminExpenses.tsx:128 | Choosing a category sets it and resets the page to 1. |
| AdminExpensesPage.AdminExpensesState.Previous | src/pages/admin/AdminExpenses.tsx:221 | Previous moves back one page except on page 1, and never below 1. |
| AdminExpensesPage.AdminExpensesState.Next | src/pages/admin/AdminExpenses.tsx:225 | Next moves on one page except on the last, and never past it from inside the range. |
| EmployeeExpensesPage.MapExpenses | src/pages/employee/EmployeeExpenses.tsx:15-26 | The mapped list has the length and the field values of the fetched rows, or is `[]` before they arrive. |
| EmployeeExpensesPage.EmployeeExpensesView | src/pages/employee/EmployeeExpenses.tsx:12-52 | The page: the searched claims and four figures. `ViewFigures`, `FiguresIgnoreSearch` and `NoDataEmptyView` state it. |
| EmployeeExpensesPage.ViewFigures | src/pages/employee/EmployeeExpenses.tsx:33-39 | The page shows the number of claims, the pending total, the approved total and the pending count, all over every claim. Pending plus approved plus rejected is the sum of all claims. |
| EmployeeExpensesPage.FiguresIgnoreSearch | src/pages/employee/EmployeeExpenses.tsx:52 | No figure depends on the search. |
| EmployeeExpensesPage.NoDataEmptyView | src/pages/employee/EmployeeExpenses.tsx:12 | Before the fetch returns, the list is empty and every figure is 0. |
| MockEmployeeExpensesPage.SameAsFetchedPage | frontend/src/pages/employee/EmployeeExpenses.tsx:12-23 | Over the same claims, the mock page shows the same list and figures as the fetched page. |
| MockEmployeeExpensesPage.MockExpensesView | frontend/src/pages/employee/EmployeeExpenses.tsx:12-23 | The mock page over the mock claims. `SameAsFetchedPage` and `MockFiguresIgnoreSearch` state it. |
| MockEmployeeExpensesPage.MockFiguresIgnoreSearch | frontend/src/pages/employee/EmployeeExpenses.tsx:17-23 | The totals, the submitted count and the pending count do not depend on the search. |
| DashboardStats.StatOrZero | src/hooks/useDashboardStats.ts:26-29 | `Number(x) \|\| 0`: a missing result reads as 0, and a number as itself. |
| DashboardStats.AdminDashboardStats | src/hooks/useDashboardStats.ts:25-30 | Each stat card shows its backend result, or 0 when that result is missing. |
| DashboardStats.CurrentSalary | src/hooks/useDashboardStats.ts:67 | The first slip's net salary, or 0 when there is none. |
| DashboardStats.EmployeeDashboardStats | src/hooks/useDashboardStats.ts:43 | There are no figures exactly when no user is signed in. |
| DashboardStats.EmployeeStatsSpec | src/hooks/useDashboardStats.ts:59-70 | With a user, the figures are: the latest net salary or 0, the pending count, the approved amount, and the number of claims, of which the pending ones are a part. The approved amount, with the pending and rejected amounts, makes up the sum of all claims. |
| DashboardStats.MissingExpensesAreNone | src/hooks/useDashboardStats.ts:60 | A failed expense fetch counts as no claims. |
| DashboardStats.SalaryHistory | src/hooks/useDashboardStats.ts:105-120 | `[]` without a user. Otherwise the backend's list, or `[]` when it returned nothing. |
| Identity.EmailPrefix | src/pages/admin/AdminEmployees.tsx:16 | `email.split('@')[0]` is the prefix before the first `@`, or the whole text. |
| Identity.UserName | src/pages/employee/EmployeeDashboard.tsx:25 | The greeting name is never empty. It is the full name when that is non-empty, else a non-empty email prefix, else `User`. |
| EmployeeDashboardPage.RecentSlips | src/pages/employee/EmployeeDashboard.tsx:27-31 | The first `min(3, n)` slips, each labelled with the user's name and department `Employee`. |
| EmployeeDashboardPage.EmployeeDashboardView | src/pages/employee/EmployeeDashboard.tsx:22-48 | The dashboard over the fetched slips and claims. `DashboardSpec` and `NoDataDashboard` state it. |
| EmployeeDashboardPage.DashboardSpec | src/pages/employee/EmployeeDashboard.tsx:25-48 | The page shows the greeting name and the first `min(3, n)` slips and claims in order, labelled. It also shows the first slip's net salary or 0, and the sum of all net salaries. The pending count is over all claims and, with the approved and rejected counts, makes up their number. |
| EmployeeDashboardPage.NoDataDashboard | src/pages/employee/EmployeeDashboard.tsx:22-23 | Before the fetches return, the lists are empty and every figure is 0. |
| MockEmployeeDashboardPage.MockRecentSlips | frontend/src/pages/employee/EmployeeDashboard.tsx:20 | At most 3 slips, all of employee `"1"`. They are the prefix of length `min(3, k)` of that employee's slips. |
| MockEmployeeDashboardPage.MockRecentExpenses | frontend/src/pages/employee/EmployeeDashboard.tsx:21 | The first `min(3, n)` claims, in order. |
| MockEmployeeDashboardPage.MockRecentSlipsComplete | frontend/src/pages/employee/EmployeeDashboard.tsx:20 | With at most three of them, all the employee's slips show. No other employee's slip ever does. |
| EmployeeSalarySlipsPage.FilteredSlips | src/pages/employee/EmployeeSalarySlips.tsx:14-17 | A slip is kept exactly when its month contains the query ignoring case, or its year's decimal text contains the query as typed. Each kept slip occurs as many times as in the input, and the result is an ordered subsequence. |
| EmployeeSalarySlipsPage.RoundedAverage | src/pages/employee/EmployeeSalarySlips.tsx:49 | `Math.round(total / count)` is within one half of the quotient, with halves rounded up. There is no number when count is 0. |
| EmployeeSalarySlipsPage.RoundedAverageUnique | src/pages/employee/EmployeeSalarySlips.tsx:49 | Only one integer lies that close to the quotient. |
| EmployeeSalarySlipsPage.SalarySlipsView | src/pages/employee/EmployeeSalarySlips.tsx:12-49 | The page over the mock slips. `SalarySlipsSpec` states it. |
| EmployeeSalarySlipsPage.SalarySlipsSpec | src/pages/employee/EmployeeSalarySlips.tsx:12-49 | Only employee `"1"`'s slips are listed. The cards count and sum all of them whatever the search. The average is within one half of total over count, and is missing exactly when there are none. |
| EmployeeSalarySlipsPage.YearSearchFindsSlip | src/pages/employee/EmployeeSalarySlips.tsx:16 | Typing a slip's year finds that slip. |
| EmployeeSalarySlipsPage.EmptySearchListsAll | src/pages/employee/EmployeeSalarySlips.tsx:14-17 | The empty search lists every slip. |
| EmployeeSalarySlipsPage.EqualSalariesAverage | src/pages/employee/EmployeeSalarySlips.tsx:19-49 | When all net salaries are equal, the average is that salary. |
| AdminEmployeesPage.ToEmployee | src/pages/admin/AdminEmployees.tsx:14-23 | The name is the full name, or else the email prefix. The department is the profile's, or `General` when it is null or empty. The designation is `Employee`, the salary 0 and the status active. The join date is the prefix of the creation time before its first `T`. |
| AdminEmployeesPage.JoinDateOfTimestamp | src/pages/admin/AdminEmployees.tsx:21 | A timestamp `date T time` joins on `date`. |
| AdminEmployeesPage.ToEmployees | src/pages/admin/AdminEmployees.tsx:14 | One entry per profile, in order. |
| AdminEmployeesPage.RosterSearchMeaning | src/pages/admin/AdminEmployees.tsx:25-29 | An entry matches exactly when its name, email or department contains the query, ignoring case. |
| AdminEmployeesPage.RosterSearch | src/pages/admin/AdminEmployees.tsx:25-29 | The search keeps exactly the matching entries, each as many times as it occurs, as an ordered subsequence. |
| AdminEmployeesPage.StatusCountsAddUp | frontend/src/pages/admin/AdminEmployees.tsx:51-62 | The active and inactive counts add up to the total. |
| AdminEmployeesPage.AdminEmployeesView | src/pages/admin/AdminEmployees.tsx:31-37 | While loading only the spinner shows. |
| AdminEmployeesPage.ProfilesAllActive | src/pages/admin/AdminEmployees.tsx:73-84 | The total is the number of profiles. Every mapped entry is active, so the active count is the total and the inactive count is 0. |
| MockAdminEmployeesPage.MockRosterSpec | frontend/src/pages/admin/AdminEmployees.tsx:11-62 | The cards count the whole mock roster whatever the search, and active plus inactive is the total. The listed entries are an ordered subsequence of the roster. |
| MockAdminEmployeesPage.MockRosterView | frontend/src/pages/admin/AdminEmployees.tsx:11-62 | The mock roster page. `MockRosterSpec` states it. |
| AdminSalarySlipsPage.AdminFilteredSlips | src/pages/admin/AdminSalarySlips.tsx:12-15 | The page keeps exactly the slips whose employee name or department contains the query, ignoring case, each as many times as it occurs, as an ordered subsequence. |
| AdminSalarySlipsPage.SlipSearchMeaning | src/pages/admin/AdminSalarySlips.tsx:13-14 | A slip matches exactly when its employee name or department does. |
| AdminSalarySlipsPage.AdminSlipSearchLaws | src/pages/admin/AdminSalarySlips.tsx:12-15 | The empty query lists every slip, and searching twice is searching once. |
| EmployeesTable.FirstCharsSpec | src/components/dashboard/EmployeesTable.tsx:35 | Joining `n[0]` over the words gives the first characters of the non-empty words, in order. An empty word's `undefined` joins as nothing. |
| EmployeesTable.FirstChars | src/components/dashboard/EmployeesTable.tsx:35 | `words.map(n => n[0]).join('')`. `FirstCharsSpec` states it. |
| EmployeesTable.GetInitials | src/components/dashboard/EmployeesTable.tsx:34-36 | One upper-cased letter per non-empty space-separated word, in order. |
| EmployeesTable.InitialsOfWords | src/components/dashboard/EmployeesTable.tsx:34-36 | A name of non-empty words joined by single spaces has one initial per word: its first letter, upper-cased. |
| Text.Split | src/components/dashboard/EmployeesTable.tsx:35 | `split` gives at least one piece, no piece holds the separator, and joining the pieces gives back the text. |
| Text.SplitJoin | src/components/layout/DashboardHeader.tsx:17-19 | Splitting undoes joining pieces that hold no separator. |
| Text.BeforeFirst | src/pages/admin/AdminEmployees.tsx:21 | `s.split(c)[0]` is a prefix of `s` without `c`, followed in `s` by `c` when it is shorter. |
| Text.DecimalRoundTrip | src/pages/employee/EmployeeSalarySlips.tsx:16 | Reading back the decimal text of an integer gives the integer. |
| DashboardHeader.HeaderInitials | src/components/layout/DashboardHeader.tsx:16-21 | At most two initials: the first ones of the greeting name. |
| DashboardHeader.GuestInitials | src/components/layout/DashboardHeader.tsx:15-21 | Without a user the avatar shows `U`. |
| DashboardHeader.FullNameInitials | src/components/layout/DashboardHeader.tsx:15-21 | A full name of words shows the upper-cased first letters of its first two words, or one for a single word. |

## Left out

- Backend calls, caching and refetching are not modelled: Supabase queries, RPCs, React Query keys and `staleTime`. Their results are the parameters the functions take. A backend error is modelled only where the core turns it into a failed query (`RunQuery`).
- The approve/reject mutation (`useApproveExpense`) and the `useExpenses({...})` shape that the admin expense page calls are not modelled. They do not match the hooks in `src/hooks/useExpenses.ts`. The model keeps the page-local logic: the requested status, the figures, and the fallbacks for whatever the fetch returns.
- Buttons disabled while a mutation is pending, toasts, timeouts, password visibility, loading spinners on the dashboard, `Intl.NumberFormat` and `toLocaleString` formatting, and navigation other than the chosen route are not modelled. These are UI concerns with no stateable logic.
- `localeCompare` is not modelled as locale collation. It is the plain lexicographic order of characters. Case mapping covers ASCII letters only, and strings are sequences of characters, not UTF-16 code units.
- SortEmployees: stability is not stated. The source's `sort` keeps records that compare equal in their input order. The contract promises only a sorted permutation, so the page that `RunQuery` returns is fixed only up to the order of tied records.
- `EmployeeQuery.RunQuery` sorts a fresh copy of the filtered list. The in-place mutation of the fetched `data` array when no filter ran (aliasing) is not modelled.
- `pageSize` is a natural number. Negative page sizes are not modelled, and `totalPages` is `None` for size 0, where the source computes `Infinity` or `NaN`. A `page` below 1 is handled by `JsSlice` with JavaScript's negative-index rules. `PageBounds` states the page slice only for `page >= 1`.
- The employee status is a free string in the list query but the two-valued `active | inactive` on the roster pages, as the sources type it. Expense status is the three values of its union type. Values outside these are not modelled.
- `NaN` and fractional amounts are not modelled. The salary-slip amount inputs are number fields. `SlipForm.AmountOf` reads only optionally signed decimal integers, so exponent-form or fractional text such as `1e3` or `1.5` reads as 0, where `Number` gives its value. `StatOrZero` covers null, missing and non-numeric results with `None`. Amounts are whole rupees, with no fractional or floating-point values.
- `EmployeeSalarySlipsPage.RoundedAverage` is `None` where the page computes `Math.round(0 / 0)` for an employee with no slips. The page then shows `NaN` rather than a number.
- The mock lists (`mockSalarySlips`, `mockExpenses`, `mockEmployees`) and the current year are parameters. Their contents are not part of this model.
- `useMonthlyPayrollTrend` and `useMonthlyExpenseTrend` are not modelled. They pass a backend result through `data || []`, which is modelled once in `DashboardStats.SalaryHistory`.
- `useEmployeeSalaryHistory` throwing on a backend error is not modelled; `SalaryHistory` takes the returned data only.
