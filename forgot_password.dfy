/**
 * The forgot-password modal: an email guard, then a request whose outcome
 * decides between the success view and an error; closing and going back to
 * the login view reset the modal.
 */
module ForgotPassword {
  import opened Wrappers
  import opened Text
  import opened Validation
  import opened FormErrors

  const InvalidEmailAddress := "Please enter a valid email address"
  const ForgotFallback := "Failed to send reset email. Please try again."

  /** The outcome of the reset-email request; a failure may carry the server's message. */
  datatype ForgotReply = Sent | NotSent(message: Option<string>)

  class ForgotPasswordModal {
    var email: string
    var isLoading: bool
    var isSuccess: bool
    var error: string

    constructor()
      ensures email == "" && !isLoading && !isSuccess && error == ""
    {
      email := "";
      isLoading, isSuccess := false, false;
      error := "";
    }

    /** The email input's change handler. */
    method SetEmail(value: string)
      modifies this`email
      ensures email == value
    {
      email := value;
    }

    /**
     * The synchronous part of `handleSubmit`: a blank email, then an
     * invalid one, sets its message and stops; otherwise loading starts
     * and the error clears.
     */
    method Submit() returns (requested: bool)
      modifies this`error, this`isLoading
      ensures requested <==> ValidateEmail(email)
      ensures !requested ==> Some(error) == EmailError(email, InvalidEmailAddress) && isLoading == old(isLoading)
      ensures requested ==> error == "" && isLoading
    {
      if Blank(email) {
        BlankIsNoEmail(email);
        error := EmailRequired;
        return false;
      }
      if !ValidateEmail(email) {
        error := InvalidEmailAddress;
        return false;
      }
      isLoading := true;
      error := "";
      requested := true;
    }

    /** The rest of `handleSubmit`, once the request settles. Loading ends either way. */
    method Settle(reply: ForgotReply)
      modifies this`error, this`isLoading, this`isSuccess
      ensures !isLoading
      ensures reply.Sent? ==> isSuccess && error == old(error)
      ensures reply.NotSent? ==> isSuccess == old(isSuccess) && error == StrOr(reply.message, ForgotFallback)
      ensures reply.NotSent? ==> error != ""
    {
      match reply {
        case Sent =>
          isSuccess := true;
        case NotSent(message) =>
          error := StrOr(message, ForgotFallback);
      }
      isLoading := false;
    }

    /** `handleClose`: every field back to its initial value (the parent's `onClose` is not modelled). */
    method Close()
      modifies this
      ensures email == "" && error == "" && !isSuccess && !isLoading
    {
      email := "";
      error := "";
      isSuccess := false;
      isLoading := false;
    }

    /** `handleBackToLogin`: clear the success view, the email and the error; loading is untouched. */
    method BackToLogin()
      modifies this`isSuccess, this`email, this`error
      ensures !isSuccess && email == "" && error == ""
      ensures isLoading == old(isLoading)
    {
      isSuccess := false;
      email := "";
      error := "";
    }
  }
}
