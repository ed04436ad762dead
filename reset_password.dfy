/**
 * The reset-password page: three ordered guards, then a request whose reply
 * decides between the success screen and an error message.
 */
module ResetPassword {
  import opened Wrappers
  import opened Text
  import opened Validation

  const BothRequired := "Both fields are required"
  const PasswordMismatch := "Passwords do not match"
  const ResetFallback := "Failed to reset password. The link may have expired."

  /**
   * The first guard that fails, in the order the page checks them, or
   * `None` when the request may be sent.
   */
  function ResetGuard(newPassword: string, confirmPassword: string): (r: Option<string>)
    ensures r.None? <==> newPassword != "" && |newPassword| >= MinPasswordLength && newPassword == confirmPassword
    ensures (newPassword == "" || confirmPassword == "") ==> r == Some(BothRequired)
    ensures newPassword != "" && confirmPassword != "" && |newPassword| < MinPasswordLength ==> r == Some(PasswordTooShort)
    ensures (newPassword != "" && confirmPassword != "" && |newPassword| >= MinPasswordLength
             && newPassword != confirmPassword) ==> r == Some(PasswordMismatch)
  {
    if newPassword == "" || confirmPassword == "" then Some(BothRequired)
    else if |newPassword| < MinPasswordLength then Some(PasswordTooShort)
    else if newPassword != confirmPassword then Some(PasswordMismatch)
    else None
  }

  /** A request is sent only for a password `validatePassword` accepts; the length message is the same. */
  lemma ResetGuardAgreesWithValidatePassword(newPassword: string, confirmPassword: string)
    ensures ResetGuard(newPassword, confirmPassword).None? ==> ValidatePassword(newPassword).isValid
    ensures ResetGuard(newPassword, confirmPassword) == Some(PasswordTooShort) ==>
      ValidatePassword(newPassword).error == Some(PasswordTooShort)
  {
  }

  /** The reply to the reset request: `message` is `response.data.message`, or the error reply's message. */
  datatype ResetReply = Succeeded(message: Option<string>) | Failed(message: Option<string>)

  class ResetPasswordPage {
    var newPassword: string
    var confirmPassword: string
    var isLoading: bool
    var isSuccess: bool
    var error: string

    constructor()
      ensures newPassword == "" && confirmPassword == "" && !isLoading && !isSuccess && error == ""
    {
      newPassword, confirmPassword := "", "";
      isLoading, isSuccess := false, false;
      error := "";
    }

    /** The new-password input's change handler. */
    method SetNewPassword(value: string)
      modifies this`newPassword
      ensures newPassword == value
    {
      newPassword := value;
    }

    /** The confirm-password input's change handler. */
    method SetConfirmPassword(value: string)
      modifies this`confirmPassword
      ensures confirmPassword == value
    {
      confirmPassword := value;
    }

    /**
     * The synchronous part of `handleSubmit`: the first failing guard sets
     * its message and stops; otherwise loading starts and the error clears.
     */
    method Submit() returns (requested: bool)
      modifies this`error, this`isLoading
      ensures requested <==> ResetGuard(newPassword, confirmPassword).None?
      ensures !requested ==> Some(error) == ResetGuard(newPassword, confirmPassword) && isLoading == old(isLoading)
      ensures requested ==> error == "" && isLoading
    {
      if newPassword == "" || confirmPassword == "" {
        error := BothRequired;
        return false;
      }
      if |newPassword| < MinPasswordLength {
        error := PasswordTooShort;
        return false;
      }
      if newPassword != confirmPassword {
        error := PasswordMismatch;
        return false;
      }
      isLoading := true;
      error := "";
      requested := true;
    }

    /**
     * The rest of `handleSubmit`, once the request settles: success needs a
     * message in the reply; a failure shows the server's message or the
     * fallback. Loading ends either way.
     */
    method Settle(reply: ResetReply)
      modifies this`error, this`isLoading, this`isSuccess
      ensures !isLoading
      ensures reply.Succeeded? ==> isSuccess == (old(isSuccess) || TruthyStr(reply.message)) && error == old(error)
      ensures reply.Failed? ==> isSuccess == old(isSuccess) && error == StrOr(reply.message, ResetFallback)
      ensures reply.Failed? ==> error != ""
    {
      match reply {
        case Succeeded(message) =>
          if TruthyStr(message) {
            isSuccess := true;
          }
        case Failed(message) =>
          error := StrOr(message, ResetFallback);
      }
      isLoading := false;
    }
  }
}
