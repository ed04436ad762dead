/** The sign-in page: its form, validator, change handler and submit handler. */
module SignIn {
  import opened Wrappers
  import opened Text
  import opened Validation
  import opened FormErrors
  import opened Auth

  datatype SignInField = EmailField | PasswordField

  /** The `name` attribute of each input, which is also its error key. */
  function SignInKey(f: SignInField): Key {
    match f
    case EmailField => Key.Email
    case PasswordField => Key.Password
  }

  datatype SignInForm = SignInForm(email: string, password: string)
  {
    function Get(f: SignInField): string {
      match f
      case EmailField => email
      case PasswordField => password
    }

    /** `{...prev, [name]: value}`: only field `f` changes. */
    function With(f: SignInField, value: string): (r: SignInForm)
      ensures r.Get(f) == value
      ensures forall g :: g != f ==> r.Get(g) == Get(g)
    {
      match f
      case EmailField => this.(email := value)
      case PasswordField => this.(password := value)
    }
  }

  const EmptySignInForm := SignInForm("", "")

  const InvalidEmailAddress := "Please enter a valid email address"
  const SignInFailed := "Invalid email or password. Please try again."

  /** The error map `validateForm` stores: the password only has to be non-empty. */
  function SignInErrors(f: SignInForm): Errors
  {
    var e1 := Put(map[], Key.Email, EmailError(f.email, InvalidEmailAddress));
    Put(e1, Key.Password, if f.password == "" then Some(PasswordRequired) else None)
  }

  /** Which entries `validateForm` records, and with which message. */
  lemma SignInErrorsMeaning(f: SignInForm)
    ensures SignInErrors(f).Keys <= {Key.Email, Key.Password}
    ensures Key.Email in SignInErrors(f) <==> !ValidateEmail(f.email)
    ensures Key.Email in SignInErrors(f) ==> SignInErrors(f)[Key.Email] == if Blank(f.email) then EmailRequired else InvalidEmailAddress
    ensures Key.Password in SignInErrors(f) <==> f.password == ""
    ensures Key.Password in SignInErrors(f) ==> SignInErrors(f)[Key.Password] == PasswordRequired
  {
  }

  /** The form passes exactly when the email is valid and a password is given, of any length. */
  lemma SignInFormValid(f: SignInForm)
    ensures SignInErrors(f) == map[] <==> ValidateEmail(f.email) && f.password != ""
  {
    SignInErrorsMeaning(f);
    var e := SignInErrors(f);
    if e != map[] {
      var k :| k in e;
    }
  }

  class SignInPage {
    var formData: SignInForm
    var errors: Errors
    var isLoading: bool

    constructor()
      ensures formData == EmptySignInForm && errors == map[] && !isLoading
    {
      formData := EmptySignInForm;
      errors := map[];
      isLoading := false;
    }

    /** `validateForm`. */
    method ValidateForm() returns (ok: bool)
      modifies this`errors
      ensures errors == SignInErrors(formData)
      ensures ok <==> errors == map[]
    {
      var f := formData;
      var newErrors: Errors := map[];
      if Blank(f.email) {
        newErrors := newErrors[Key.Email := EmailRequired];
      } else if !ValidateEmail(f.email) {
        newErrors := newErrors[Key.Email := InvalidEmailAddress];
      }
      assert newErrors == Put(map[], Key.Email, EmailError(f.email, InvalidEmailAddress));
      ghost var e1 := newErrors;
      if f.password == "" {
        newErrors := newErrors[Key.Password := PasswordRequired];
      }
      assert newErrors == Put(e1, Key.Password, if f.password == "" then Some(PasswordRequired) else None);
      errors := newErrors;
      ok := NoErrors(newErrors);
    }

    /**
     * `handleSubmit`: stop on invalid input; otherwise log in, where `reply`
     * stands for the server's answer. A failed login replaces the whole
     * error map with the single `general` message.
     */
    method Submit(auth: AuthSession, reply: Reply) returns (requested: bool)
      modifies this`errors, this`isLoading, auth
      ensures requested <==> SignInErrors(formData) == map[]
      ensures !requested ==> errors == SignInErrors(formData) && isLoading == old(isLoading)
      ensures !requested ==> auth.user == old(auth.user) && auth.token == old(auth.token)
      ensures requested ==> !isLoading
      ensures requested && reply.Accepted? ==>
        errors == map[] && auth.user == Some(WithDefaultId(reply.user)) && auth.token == Some(StoredToken(reply.token))
      ensures requested && reply.Rejected? ==>
        errors == map[Key.General := SignInFailed] && auth.user == old(auth.user) && auth.token == old(auth.token)
    {
      requested := ValidateForm();
      if !requested {
        return;
      }
      isLoading := true;
      var ok := auth.Login(reply);
      if !ok {
        errors := map[Key.General := SignInFailed];
      }
      isLoading := false;
    }

    /** `handleChange`: set one field and blank that field's error. */
    method HandleChange(field: SignInField, value: string)
      modifies this`formData, this`errors
      ensures formData == old(formData).With(field, value)
      ensures errors == ClearError(old(errors), SignInKey(field))
    {
      formData := formData.With(field, value);
      var name := SignInKey(field);
      if name in errors && errors[name] != "" {
        errors := errors[name := ""];
      }
    }
  }
}
