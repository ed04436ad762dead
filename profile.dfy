/**
 * The profile page: the profile and password forms, their validators, their
 * change handlers and their submit handlers.
 */
module Profile {
  import opened Wrappers
  import opened Text
  import opened Validation
  import opened FormErrors
  import opened Auth

  datatype ProfileField = Name | Email | Phone | Location | Bio

  /** The `name` attribute of each profile input, which is also its error key. */
  function ProfileKey(f: ProfileField): Key {
    match f
    case Name => Key.Name
    case Email => Key.Email
    case Phone => Key.Phone
    case Location => Key.Location
    case Bio => Key.Bio
  }

  datatype ProfileForm = ProfileForm(name: string, email: string, phone: string, location: string, bio: string)
  {
    function Get(f: ProfileField): string {
      match f
      case Name => name
      case Email => email
      case Phone => phone
      case Location => location
      case Bio => bio
    }

    /** `{...prev, [name]: value}`: only field `f` changes. */
    function With(f: ProfileField, value: string): (r: ProfileForm)
      ensures r.Get(f) == value
      ensures forall g :: g != f ==> r.Get(g) == Get(g)
    {
      match f
      case Name => this.(name := value)
      case Email => this.(email := value)
      case Phone => this.(phone := value)
      case Location => this.(location := value)
      case Bio => this.(bio := value)
    }
  }

  datatype PasswordField = CurrentPassword | NewPassword | ConfirmPassword

  function PasswordKey(f: PasswordField): Key {
    match f
    case CurrentPassword => Key.CurrentPassword
    case NewPassword => Key.NewPassword
    case ConfirmPassword => Key.ConfirmPassword
  }

  datatype PasswordForm = PasswordForm(currentPassword: string, newPassword: string, confirmPassword: string)
  {
    function Get(f: PasswordField): string {
      match f
      case CurrentPassword => currentPassword
      case NewPassword => newPassword
      case ConfirmPassword => confirmPassword
    }

    function With(f: PasswordField, value: string): (r: PasswordForm)
      ensures r.Get(f) == value
      ensures forall g :: g != f ==> r.Get(g) == Get(g)
    {
      match f
      case CurrentPassword => this.(currentPassword := value)
      case NewPassword => this.(newPassword := value)
      case ConfirmPassword => this.(confirmPassword := value)
    }
  }

  const EmptyProfileForm := ProfileForm("", "", "", "", "")
  const EmptyPasswordForm := PasswordForm("", "", "")

  const NameRequired := "Name is required"
  const InvalidEmailFormat := "Invalid email format"
  const InvalidPhone := "Invalid phone number"
  const CurrentRequired := "Current password is required"
  const NewRequired := "New password is required"
  const PasswordMismatch := "Passwords do not match"

  /** The name rule: required after trimming. */
  function NameError(name: string): (r: Option<string>)
    ensures r.Some? <==> Blank(name)
    ensures r.Some? ==> r.value == NameRequired
  {
    if Blank(name) then Some(NameRequired) else None
  }

  /**
   * "Name is required" is reported exactly when `name.trim()` is empty, so
   * a name with any non-whitespace character passes whatever surrounds it.
   */
  lemma NameRequiredIffTrimEmpty(name: string, pad: string)
    requires AllWs(pad)
    ensures NameError(name) == (if Trim(name) == [] then Some(NameRequired) else None)
    ensures NameError(pad + name + pad) == NameError(name)
  {
    BlankIsTrimEmpty(name);
    if !Blank(name) {
      var k :| 0 <= k < |name| && !IsWs(name[k]);
      assert (pad + name + pad)[|pad| + k] == name[k];
    }
  }

  /** The phone rule: an empty phone passes, anything else must match the phone pattern. */
  function PhoneError(phone: string): (r: Option<string>)
    ensures r.Some? <==> !ValidatePhone(phone)
    ensures r.Some? ==> r.value == InvalidPhone
  {
    if phone != "" && !ValidatePhone(phone) then Some(InvalidPhone) else None
  }

  /** The error map `validateProfileForm` stores; location and bio are never checked. */
  function ProfileErrors(f: ProfileForm): Errors
  {
    var e1 := Put(map[], Key.Name, NameError(f.name));
    var e2 := Put(e1, Key.Email, EmailError(f.email, InvalidEmailFormat));
    Put(e2, Key.Phone, PhoneError(f.phone))
  }

  /** Which entries `validateProfileForm` records, and with which message. */
  lemma ProfileErrorsMeaning(f: ProfileForm)
    ensures ProfileErrors(f).Keys <= {Key.Name, Key.Email, Key.Phone}
    ensures Key.Name in ProfileErrors(f) <==> Blank(f.name)
    ensures Key.Name in ProfileErrors(f) ==> ProfileErrors(f)[Key.Name] == NameRequired
    ensures Key.Email in ProfileErrors(f) <==> !ValidateEmail(f.email)
    ensures Key.Email in ProfileErrors(f) ==> ProfileErrors(f)[Key.Email] == if Blank(f.email) then EmailRequired else InvalidEmailFormat
    ensures Key.Phone in ProfileErrors(f) <==> !ValidatePhone(f.phone)
    ensures Key.Phone in ProfileErrors(f) ==> ProfileErrors(f)[Key.Phone] == InvalidPhone
  {
  }

  /** The profile form passes exactly when the shared validators accept its fields. */
  lemma ProfileFormValid(f: ProfileForm)
    ensures ProfileErrors(f) == map[] <==> !Blank(f.name) && ValidateEmail(f.email) && ValidatePhone(f.phone)
  {
    ProfileErrorsMeaning(f);
    var e := ProfileErrors(f);
    if e != map[] {
      var k :| k in e;
    }
  }

  /** The error map `validatePasswordForm` stores. */
  function PasswordErrors(f: PasswordForm): Errors
  {
    var e1 := Put(map[], Key.CurrentPassword, if f.currentPassword == "" then Some(CurrentRequired) else None);
    var newError :=
      if f.newPassword == "" then Some(NewRequired)
      else if |f.newPassword| < MinPasswordLength then Some(PasswordTooShort)
      else None;
    var e2 := Put(e1, Key.NewPassword, newError);
    Put(e2, Key.ConfirmPassword, if f.newPassword != f.confirmPassword then Some(PasswordMismatch) else None)
  }

  /** Which entries `validatePasswordForm` records, and with which message. */
  lemma PasswordErrorsMeaning(f: PasswordForm)
    ensures PasswordErrors(f).Keys <= {Key.CurrentPassword, Key.NewPassword, Key.ConfirmPassword}
    ensures Key.CurrentPassword in PasswordErrors(f) <==> f.currentPassword == ""
    ensures Key.NewPassword in PasswordErrors(f) <==> !ValidatePassword(f.newPassword).isValid
    ensures Key.NewPassword in PasswordErrors(f) && f.newPassword == "" ==> PasswordErrors(f)[Key.NewPassword] == NewRequired
    ensures Key.NewPassword in PasswordErrors(f) && f.newPassword != "" ==> Some(PasswordErrors(f)[Key.NewPassword]) == ValidatePassword(f.newPassword).error
    ensures Key.ConfirmPassword in PasswordErrors(f) <==> f.newPassword != f.confirmPassword
    ensures Key.ConfirmPassword in PasswordErrors(f) ==> PasswordErrors(f)[Key.ConfirmPassword] == PasswordMismatch
  {
  }

  /** The password form passes exactly when all three rules hold. */
  lemma PasswordFormValid(f: PasswordForm)
    ensures PasswordErrors(f) == map[] <==>
      f.currentPassword != "" && |f.newPassword| >= MinPasswordLength && f.newPassword == f.confirmPassword
  {
    PasswordErrorsMeaning(f);
    var e := PasswordErrors(f);
    if e != map[] {
      var k :| k in e;
    }
  }

  /**
   * The fields of the profile request that `updateProfile` receives, read
   * from the user the server returns; a field the reply lacks is sent as
   * `undefined`.
   */
  function ProfilePatch(server: Record): (r: Record)
    ensures r.Keys == {"username", "email", "phone", "location", "bio"}
    ensures forall k :: k in r && k in server ==> r[k] == server[k]
    ensures forall k :: k in r && k !in server ==> r[k] == Undefined
  {
    map k | k in {"username", "email", "phone", "location", "bio"} :: if k in server then server[k] else Undefined
  }

  /**
   * A successful profile save overwrites the five profile fields of the
   * user, with `undefined` where the reply omits one, and keeps every
   * other property (`id`, `avatar`, `isAdmin`, ...).
   */
  lemma ProfileSaveEffect(user: Record, server: Record, k: string)
    ensures k in {"username", "email", "phone", "location", "bio"} ==>
      Spread(user, ProfilePatch(server))[k] == if k in server then server[k] else Undefined
    ensures k !in {"username", "email", "phone", "location", "bio"} && k in user ==>
      Spread(user, ProfilePatch(server))[k] == user[k]
  {
  }

  class ProfilePage {
    var profileForm: ProfileForm
    var passwordForm: PasswordForm
    var errors: Errors
    var isLoading: bool

    constructor()
      ensures profileForm == EmptyProfileForm && passwordForm == EmptyPasswordForm
      ensures errors == map[] && !isLoading
    {
      profileForm := EmptyProfileForm;
      passwordForm := EmptyPasswordForm;
      errors := map[];
      isLoading := false;
    }

    /** `validateProfileForm`: fill a fresh error map rule by rule and store it. */
    method ValidateProfileForm() returns (ok: bool)
      modifies this`errors
      ensures errors == ProfileErrors(profileForm)
      ensures ok <==> errors == map[]
    {
      var f := profileForm;
      var newErrors: Errors := map[];
      if Blank(f.name) {
        newErrors := newErrors[Key.Name := NameRequired];
      }
      assert newErrors == Put(map[], Key.Name, NameError(f.name));
      ghost var e1 := newErrors;
      if Blank(f.email) {
        newErrors := newErrors[Key.Email := EmailRequired];
      } else if !ValidateEmail(f.email) {
        newErrors := newErrors[Key.Email := InvalidEmailFormat];
      }
      assert newErrors == Put(e1, Key.Email, EmailError(f.email, InvalidEmailFormat));
      ghost var e2 := newErrors;
      if f.phone != "" && !ValidatePhone(f.phone) {
        newErrors := newErrors[Key.Phone := InvalidPhone];
      }
      assert newErrors == Put(e2, Key.Phone, PhoneError(f.phone));
      errors := newErrors;
      ok := NoErrors(newErrors);
    }

    /** `validatePasswordForm`. */
    method ValidatePasswordForm() returns (ok: bool)
      modifies this`errors
      ensures errors == PasswordErrors(passwordForm)
      ensures ok <==> errors == map[]
    {
      var f := passwordForm;
      var newErrors: Errors := map[];
      if f.currentPassword == "" {
        newErrors := newErrors[Key.CurrentPassword := CurrentRequired];
      }
      assert newErrors == Put(map[], Key.CurrentPassword, if f.currentPassword == "" then Some(CurrentRequired) else None);
      if f.newPassword == "" {
        newErrors := newErrors[Key.NewPassword := NewRequired];
      } else if |f.newPassword| < MinPasswordLength {
        newErrors := newErrors[Key.NewPassword := PasswordTooShort];
      }
      ghost var e2 := newErrors;
      if f.newPassword != f.confirmPassword {
        newErrors := newErrors[Key.ConfirmPassword := PasswordMismatch];
      }
      assert newErrors == Put(e2, Key.ConfirmPassword, if f.newPassword != f.confirmPassword then Some(PasswordMismatch) else None);
      errors := newErrors;
      ok := NoErrors(newErrors);
    }

    /**
     * `handleProfileSubmit`: stop on invalid input; otherwise send the form
     * and, when the reply carries a user (`reply`), spread its five profile
     * fields over the session's user. Loading ends false either way.
     */
    method SubmitProfile(auth: AuthSession, reply: Option<Record>) returns (requested: bool)
      modifies this`errors, this`isLoading, auth`user
      ensures errors == ProfileErrors(profileForm)
      ensures requested <==> errors == map[]
      ensures !requested ==> isLoading == old(isLoading) && auth.user == old(auth.user)
      ensures requested ==> !isLoading
      ensures requested && reply.Some? && old(auth.user).Some? ==>
        auth.user == Some(Spread(old(auth.user).value, ProfilePatch(reply.value)))
      ensures requested && (reply.None? || old(auth.user).None?) ==> auth.user == old(auth.user)
    {
      requested := ValidateProfileForm();
      if !requested {
        return;
      }
      isLoading := true;
      if reply.Some? {
        auth.UpdateProfile(ProfilePatch(reply.value));
      }
      isLoading := false;
    }

    /**
     * `handlePasswordSubmit`: stop on invalid input; otherwise send the
     * change and, if the request succeeds, empty the password form.
     */
    method SubmitPassword(requestOk: bool) returns (requested: bool)
      modifies this`errors, this`isLoading, this`passwordForm
      ensures errors == PasswordErrors(old(passwordForm))
      ensures requested <==> errors == map[]
      ensures !requested ==> isLoading == old(isLoading)
      ensures requested ==> !isLoading
      ensures passwordForm == if requested && requestOk then EmptyPasswordForm else old(passwordForm)
    {
      requested := ValidatePasswordForm();
      if !requested {
        return;
      }
      isLoading := true;
      if requestOk {
        passwordForm := EmptyPasswordForm;
      }
      isLoading := false;
    }

    /** `handleProfileChange`: set one field and blank that field's error. */
    method HandleProfileChange(field: ProfileField, value: string)
      modifies this`profileForm, this`errors
      ensures profileForm == old(profileForm).With(field, value)
      ensures errors == ClearError(old(errors), ProfileKey(field))
    {
      profileForm := profileForm.With(field, value);
      var name := ProfileKey(field);
      if name in errors && errors[name] != "" {
        errors := errors[name := ""];
      }
    }

    /** `handlePasswordChange`. */
    method HandlePasswordChange(field: PasswordField, value: string)
      modifies this`passwordForm, this`errors
      ensures passwordForm == old(passwordForm).With(field, value)
      ensures errors == ClearError(old(errors), PasswordKey(field))
    {
      passwordForm := passwordForm.With(field, value);
      var name := PasswordKey(field);
      if name in errors && errors[name] != "" {
        errors := errors[name := ""];
      }
    }
  }
}
