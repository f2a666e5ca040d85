/** The sign-up form: its field values, the per-field error messages that
    `validateForm` computes, and the submit handler that stops on an invalid form
    and otherwise ends by switching back to the login form. */
module Signup {
  import opened Wrappers
  import opened EmailCheck
  import opened FieldRules
  import opened Payroll

  const NameRequired := "Name is required"
  const NameTooShort := "Name must be at least 2 characters"
  const ConfirmRequired := "Please confirm your password"
  const PasswordsDiffer := "Passwords do not match"

  datatype SignupField = NameField | EmailField | PasswordField | ConfirmField

  datatype SignupData = SignupData(name: string, email: string, password: string, confirmPassword: string)

  /** The name rule: an empty name is missing; otherwise it needs 2 characters. */
  function NameError(name: string): (r: Option<string>)
    ensures name == [] <==> r == Some(NameRequired)
    ensures |name| == 1 <==> r == Some(NameTooShort)
    ensures r == None <==> |name| >= 2
  {
    RuleMessage(name == [], NameRequired, |name| < 2, NameTooShort)
  }

  /** The confirmation rule: an empty confirmation is missing; otherwise it must
      equal the password. */
  function ConfirmError(password: string, confirm: string): (r: Option<string>)
    ensures confirm == [] <==> r == Some(ConfirmRequired)
    ensures confirm != [] && confirm != password <==> r == Some(PasswordsDiffer)
    ensures r == None <==> confirm != [] && confirm == password
  {
    RuleMessage(confirm == [], ConfirmRequired, password != confirm, PasswordsDiffer)
  }

  /** The one message a field carries, if any. */
  function FieldError(d: SignupData, f: SignupField): Option<string>
  {
    match f
    case NameField => NameError(d.name)
    case EmailField => EmailError(d.email)
    case PasswordField => PasswordError(d.password)
    case ConfirmField => ConfirmError(d.password, d.confirmPassword)
  }

  /** The error record of `validateForm`: the four rules applied in turn. */
  function SignupErrors(d: SignupData): map<SignupField, string>
  {
    var m1 := Put(map[], NameField, NameError(d.name));
    var m2 := Put(m1, EmailField, EmailError(d.email));
    var m3 := Put(m2, PasswordField, PasswordError(d.password));
    Put(m3, ConfirmField, ConfirmError(d.password, d.confirmPassword))
  }

  /** A field is in the error record exactly when its rule fails, and then it
      holds that rule's message. */
  lemma SignupErrorsSpec(d: SignupData, f: SignupField)
    ensures f in SignupErrors(d) <==> FieldError(d, f).Some?
    ensures f in SignupErrors(d) ==> SignupErrors(d)[f] == FieldError(d, f).value
  {
    match f
    case NameField =>
    case EmailField =>
    case PasswordField =>
    case ConfirmField =>
  }

  /** The form passes exactly when the name has 2 characters, the email has the
      shape of an address, the password has 6 characters and the confirmation
      repeats it. */
  lemma SignupValidIff(d: SignupData)
    ensures SignupErrors(d) == map[] <==>
            |d.name| >= 2 && EmailShape(d.email) && d.email != [] &&
            |d.password| >= 6 && d.confirmPassword == d.password
  {
    var errs := SignupErrors(d);
    EmailRule(d.email);
    SignupErrorsSpec(d, NameField);
    SignupErrorsSpec(d, EmailField);
    SignupErrorsSpec(d, PasswordField);
    SignupErrorsSpec(d, ConfirmField);
    if errs != map[] {
      var f :| f in errs;
      SignupErrorsSpec(d, f);
    }
  }

  /** `{ ...formData, [f]: value }`. */
  function WithField(d: SignupData, f: SignupField, value: string): SignupData
  {
    match f
    case NameField => d.(name := value)
    case EmailField => d.(email := value)
    case PasswordField => d.(password := value)
    case ConfirmField => d.(confirmPassword := value)
  }

  class SignupForm {
    var role: UserRole
    var isLoading: bool
    var data: SignupData
    var errors: map<SignupField, string>
    /** Whether `onSwitchToLogin` has been called. */
    var switchedToLogin: bool

    /** The initial state: employee role, empty fields, no errors, not loading. */
    constructor ()
      ensures role == EmployeeRole && !isLoading && data == SignupData("", "", "", "")
      ensures errors == map[] && !switchedToLogin
    {
      role := EmployeeRole;
      isLoading := false;
      data := SignupData("", "", "", "");
      errors := map[];
      switchedToLogin := false;
    }

    /** The role toggle's `onRoleChange`. */
    method SetRole(r: UserRole)
      modifies this`role
      ensures role == r
    {
      role := r;
    }

    /** An input's `onChange`: replaces one field and keeps the others. */
    method Edit(f: SignupField, value: string)
      modifies this`data
      ensures data == WithField(old(data), f, value)
    {
      data := WithField(data, f, value);
    }

    /** `validateForm`: fills a fresh error record field by field, stores it, and
        reports whether it is empty. */
    method ValidateForm() returns (valid: bool)
      modifies this`errors
      ensures errors == SignupErrors(data)
      ensures valid <==> errors == map[]
    {
      var newErrors: map<SignupField, string> := map[];
      newErrors := CheckField(newErrors, NameField, data.name == [], NameRequired, |data.name| < 2, NameTooShort);
      newErrors := CheckField(newErrors, EmailField, data.email == [], EmailRequired,
                              !MatchesEmailPattern(data.email), EmailInvalid);
      newErrors := CheckField(newErrors, PasswordField, data.password == [], PasswordRequired,
                              |data.password| < 6, PasswordTooShort);
      newErrors := CheckField(newErrors, ConfirmField, data.confirmPassword == [], ConfirmRequired,
                              data.password != data.confirmPassword, PasswordsDiffer);
      errors := newErrors;
      valid := |newErrors| == 0;
    }

    /** `handleSubmit`: an invalid form stops before any other effect; a valid one
        ends with loading off and the view switched back to login. */
    method HandleSubmit() returns (submitted: bool)
      modifies this`errors, this`isLoading, this`switchedToLogin
      ensures errors == SignupErrors(data)
      ensures submitted <==> errors == map[]
      ensures !submitted ==> isLoading == old(isLoading) && switchedToLogin == old(switchedToLogin)
      ensures submitted ==> !isLoading && switchedToLogin
    {
      var valid := ValidateForm();
      if !valid {
        return false;
      }
      isLoading := true;
      isLoading := false;
      switchedToLogin := true;
      submitted := true;
    }
  }
}
