/** The sign-up page: its form, validator, change handler and submit handler. */
module SignUp {
  import opened Wrappers
  import opened Text
  import opened Validation
  import opened FormErrors
  import opened Auth

  datatype SignUpField = FullNameField | EmailField | PasswordField | ConfirmPasswordField

  /** The `name` attribute of each input, which is also its error key. */
  function SignUpKey(f: SignUpField): Key {
    match f
    case FullNameField => Key.FullName
    case EmailField => Key.Email
    case PasswordField => Key.Password
    case ConfirmPasswordField => Key.ConfirmPassword
  }

  datatype SignUpForm = SignUpForm(fullName: string, email: string, password: string, confirmPassword: string)
  {
    function Get(f: SignUpField): string {
      match f
      case FullNameField => fullName
      case EmailField => email
      case PasswordField => password
      case ConfirmPasswordField => confirmPassword
    }

    /** `{...prev, [name]: value}`: only field `f` changes. */
    function With(f: SignUpField, value: string): (r: SignUpForm)
      ensures r.Get(f) == value
      ensures forall g :: g != f ==> r.Get(g) == Get(g)
    {
      match f
      case FullNameField => this.(fullName := value)
      case EmailField => this.(email := value)
      case PasswordField => this.(password := value)
      case ConfirmPasswordField => this.(confirmPassword := value)
    }
  }

  const EmptySignUpForm := SignUpForm("", "", "", "")

  const FullNameRequired := "Full name is required"
  const InvalidEmailAddress := "Please enter a valid email address"
  const PasswordTooShortLong := "Password must be at least 8 characters long"
  const PasswordMismatch := "Passwords do not match"
  const SignUpFailed := "Failed to create account. Please try again."

  /** The password rule of this form: required, then at least eight characters (with its own wording). */
  function SignUpPasswordError(password: string): (r: Option<string>)
    ensures r.None? <==> ValidatePassword(password).isValid
    ensures password == "" ==> r == Some(PasswordRequired)
    ensures password != "" && |password| < MinPasswordLength ==> r == Some(PasswordTooShortLong)
  {
    if password == "" then Some(PasswordRequired)
    else if |password| < MinPasswordLength then Some(PasswordTooShortLong)
    else None
  }

  /** The error map `validateForm` fills, rule by rule. */
  function SignUpErrors(f: SignUpForm): Errors
  {
    var e1 := Put(map[], Key.FullName, if Blank(f.fullName) then Some(FullNameRequired) else None);
    var e2 := Put(e1, Key.Email, EmailError(f.email, InvalidEmailAddress));
    var e3 := Put(e2, Key.Password, SignUpPasswordError(f.password));
    Put(e3, Key.ConfirmPassword, if f.password != f.confirmPassword then Some(PasswordMismatch) else None)
  }

  /** Which entries `validateForm` records, and with which message. */
  lemma SignUpErrorsMeaning(f: SignUpForm)
    ensures SignUpErrors(f).Keys <= {Key.FullName, Key.Email, Key.Password, Key.ConfirmPassword}
    ensures Key.FullName in SignUpErrors(f) <==> Blank(f.fullName)
    ensures Key.FullName in SignUpErrors(f) ==> SignUpErrors(f)[Key.FullName] == FullNameRequired
    ensures Key.Email in SignUpErrors(f) <==> !ValidateEmail(f.email)
    ensures Key.Email in SignUpErrors(f) ==> SignUpErrors(f)[Key.Email] == if Blank(f.email) then EmailRequired else InvalidEmailAddress
    ensures Key.Password in SignUpErrors(f) <==> !ValidatePassword(f.password).isValid
    ensures Key.Password in SignUpErrors(f) ==> SignUpErrors(f)[Key.Password] == if f.password == "" then PasswordRequired else PasswordTooShortLong
    ensures Key.ConfirmPassword in SignUpErrors(f) <==> f.password != f.confirmPassword
    ensures Key.ConfirmPassword in SignUpErrors(f) ==> SignUpErrors(f)[Key.ConfirmPassword] == PasswordMismatch
  {
  }

  /** The form passes exactly when the shared validators accept it and the passwords agree. */
  lemma SignUpFormValid(f: SignUpForm)
    ensures SignUpErrors(f) == map[] <==>
      !Blank(f.fullName) && ValidateEmail(f.email) && ValidatePassword(f.password).isValid
      && f.password == f.confirmPassword
  {
    SignUpErrorsMeaning(f);
    var e := SignUpErrors(f);
    if e != map[] {
      var k :| k in e;
    }
  }

  class SignUpPage {
    var formData: SignUpForm
    var errors: Errors
    var isLoading: bool

    constructor()
      ensures formData == EmptySignUpForm && errors == map[] && !isLoading
    {
      formData := EmptySignUpForm;
      errors := map[];
      isLoading := false;
    }

    /**
     * `validateForm`: store the error map the four rules fill (`SignUpErrors`)
     * and report whether it is empty.
     */
    method ValidateForm() returns (ok: bool)
      modifies this`errors
      ensures errors == SignUpErrors(formData)
      ensures ok <==> errors == map[]
    {
      var newErrors := SignUpErrors(formData);
      errors := newErrors;
      ok := NoErrors(newErrors);
    }

    /**
     * `handleSubmit`: stop on invalid input; otherwise sign up, where
     * `reply` stands for the server's answer. A failure replaces every
     * error with the single `general` message.
     */
    method Submit(auth: AuthSession, reply: Reply) returns (requested: bool)
      modifies this`errors, this`isLoading, auth`user
      ensures requested <==> SignUpErrors(formData) == map[]
      ensures !requested ==> errors == SignUpErrors(formData) && isLoading == old(isLoading) && auth.user == old(auth.user)
      ensures requested ==> !isLoading
      ensures requested && reply.Accepted? ==> errors == map[] && auth.user == Some(WithDefaultId(reply.user))
      ensures requested && reply.Rejected? ==> errors == map[Key.General := SignUpFailed] && auth.user == old(auth.user)
    {
      requested := ValidateForm();
      if !requested {
        return;
      }
      isLoading := true;
      var ok := auth.Signup(reply);
      if !ok {
        errors := map[Key.General := SignUpFailed];
      }
      isLoading := false;
    }

    /** `handleChange`: set one field and blank that field's error. */
    method HandleChange(field: SignUpField, value: string)
      modifies this`formData, this`errors
      ensures formData == old(formData).With(field, value)
      ensures errors == ClearError(old(errors), SignUpKey(field))
    {
      formData := formData.With(field, value);
      var name := SignUpKey(field);
      if name in errors && errors[name] != "" {
        errors := errors[name := ""];
      }
    }
  }
}
