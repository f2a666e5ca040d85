/** The login form: the two field rules of `validateForm`, and the submit handler
    that stops on an invalid form and otherwise ends on the dashboard of the
    chosen role. */
module Login {
  import opened Wrappers
  import opened EmailCheck
  import opened FieldRules
  import opened Payroll

  datatype LoginField = EmailField | PasswordField

  datatype LoginData = LoginData(email: string, password: string)

  /** The error record of `validateForm`: the email rule, then the password rule. */
  function LoginErrors(d: LoginData): map<LoginField, string>
  {
    Put(Put(map[], EmailField, EmailError(d.email)), PasswordField, PasswordError(d.password))
  }

  /** Each field is in the error record exactly when its rule fails, with that
      rule's message; the form passes exactly when the address has the shape of
      one and the password has 6 characters. */
  lemma LoginErrorsSpec(d: LoginData)
    ensures EmailField in LoginErrors(d) <==> EmailError(d.email).Some?
    ensures EmailField in LoginErrors(d) ==> LoginErrors(d)[EmailField] == EmailError(d.email).value
    ensures PasswordField in LoginErrors(d) <==> PasswordError(d.password).Some?
    ensures PasswordField in LoginErrors(d) ==> LoginErrors(d)[PasswordField] == PasswordError(d.password).value
    ensures LoginErrors(d) == map[] <==> d.email != [] && EmailShape(d.email) && |d.password| >= 6
  {
    EmailRule(d.email);
    var errs := LoginErrors(d);
    if errs != map[] {
      var f :| f in errs;
    }
  }

  const AdminHome := "/admin"
  const EmployeeHome := "/employee"

  /** Where a successful login goes: the admin dashboard for an admin, the
      employee dashboard for anyone else; the two are different pages. */
  function RouteFor(role: UserRole): (path: string)
    ensures role == AdminRole <==> path == AdminHome
    ensures role == EmployeeRole <==> path == EmployeeHome
  {
    assert AdminHome[1] != EmployeeHome[1];
    match role
    case AdminRole => AdminHome
    case EmployeeRole => EmployeeHome
  }

  /** `{ ...formData, [f]: value }`. */
  function WithField(d: LoginData, f: LoginField, value: string): LoginData
  {
    match f
    case EmailField => d.(email := value)
    case PasswordField => d.(password := value)
  }

  class LoginForm {
    var role: UserRole
    var isLoading: bool
    var data: LoginData
    var errors: map<LoginField, string>
    /** The path passed to `navigate`, once it has been called. */
    var navigatedTo: Option<string>

    /** The initial state: employee role, empty fields, no errors, not loading. */
    constructor ()
      ensures role == EmployeeRole && !isLoading && data == LoginData("", "")
      ensures errors == map[] && navigatedTo == None
    {
      role := EmployeeRole;
      isLoading := false;
      data := LoginData("", "");
      errors := map[];
      navigatedTo := None;
    }

    /** The role toggle's `onRoleChange`. */
    method SetRole(r: UserRole)
      modifies this`role
      ensures role == r
    {
      role := r;
    }

    /** An input's `onChange`: replaces one field and keeps the other. */
    method Edit(f: LoginField, value: string)
      modifies this`data
      ensures data == WithField(old(data), f, value)
    {
      data := WithField(data, f, value);
    }

    /** `validateForm`: fills a fresh error record field by field, stores it, and
        reports whether it is empty. */
    method ValidateForm() returns (valid: bool)
      modifies this`errors
      ensures errors == LoginErrors(data)
      ensures valid <==> errors == map[]
    {
      var newErrors: map<LoginField, string> := map[];
      newErrors := CheckField(newErrors, EmailField, data.email == [], EmailRequired,
                              !MatchesEmailPattern(data.email), EmailInvalid);
      newErrors := CheckField(newErrors, PasswordField, data.password == [], PasswordRequired,
                              |data.password| < 6, PasswordTooShort);
      errors := newErrors;
      valid := |newErrors| == 0;
    }

    /** `handleSubmit`: an invalid form stops before any other effect; a valid one
        ends with loading off and the dashboard of the selected role opened. */
    method HandleSubmit() returns (submitted: bool)
      modifies this`errors, this`isLoading, this`navigatedTo
      ensures errors == LoginErrors(data)
      ensures submitted <==> errors == map[]
      ensures !submitted ==> isLoading == old(isLoading) && navigatedTo == old(navigatedTo)
      ensures submitted ==> !isLoading && navigatedTo == Some(RouteFor(role))
    {
      var valid := ValidateForm();
      if !valid {
        return false;
      }
      isLoading := true;
      isLoading := false;
      navigatedTo := Some(if role == AdminRole then AdminHome else EmployeeHome);
      submitted := true;
    }
  }
}
