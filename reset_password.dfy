/** The create-password page: it picks up the code the verification page
    stored, checks the two password fields, and sends the new password. */
module ResetPassword {
  import opened Common

  /** The `/api/users/reset_password` request body. */
  datatype ResetRequest = ResetRequest(otp: string, password: string)

  /** The `/api/users/reset_password` reply body. */
  datatype ResetJson = ResetJson(error: Option<string>, message: Option<string>)

  const NoOtpText := "No OTP found. Please request a new one."
  const RequiredText := "All fields are required."
  const MismatchText := "Passwords do not match."
  const ResetDoneText := "Password reset successfully. Redirecting..."

  /** The message shown for a rejected reset: `data.error || data.message`,
      where a missing `message` is `undefined` and shows as nothing. */
  function RejectionText(data: ResetJson): (r: string)
    ensures data.error.Some? && data.error.value != "" ==> r == data.error.value
    ensures (data.error.None? || data.error.value == "") ==>
              r == (if data.message.Some? then data.message.value else "")
  {
    OrElse(data.error, OrElse(data.message, ""))
  }

  /** Which guard of `handleSubmit` stops a submission, if any: the
      required-fields check comes before the match check. */
  function SubmitBlock(otp: Option<string>, password: string, confirm: string): (r: Option<string>)
    ensures r.None? <==> otp.Some? && otp.value != "" && password != "" && password == confirm
    ensures r.Some? ==> r.value == RequiredText || r.value == MismatchText
    ensures r == Some(MismatchText) <==>
              otp.Some? && otp.value != "" && password != "" && confirm != "" && password != confirm
  {
    if otp.None? || otp.value == "" || password == "" || confirm == "" then Some(RequiredText)
    else if password != confirm then Some(MismatchText)
    else None
  }

  class ResetPasswordForm {
    var otp: Option<string>
    var password: string
    var confirmPassword: string
    var loading: bool
    var message: Message
    var store: Store
    var redirect: Option<string>

    /** The page after its mount effect: the stored code, or an error
        message when no (or an empty) code is stored. */
    constructor (s: Store)
      ensures KeyResetOtp in s && s[KeyResetOtp] != "" ==>
                otp == Some(s[KeyResetOtp]) && message == Hidden
      ensures !(KeyResetOtp in s && s[KeyResetOtp] != "") ==>
                otp.None? && message == Message(NoOtpText, Error, true)
      ensures password == "" && confirmPassword == "" && !loading && store == s && redirect.None?
    {
      password, confirmPassword, loading, store, redirect := "", "", false, s, None;
      if KeyResetOtp in s && s[KeyResetOtp] != "" {
        otp := Some(s[KeyResetOtp]);
        message := Hidden;
      } else {
        otp := None;
        message := Message(NoOtpText, Error, true);
      }
    }

    method SetPassword(value: string)
      modifies this`password
      ensures password == value
    {
      password := value;
    }

    method SetConfirmPassword(value: string)
      modifies this`confirmPassword
      ensures confirmPassword == value
    {
      confirmPassword := value;
    }

    /** `handleSubmit`: the guards decide whether the request goes out, and
        it carries exactly the stored code and the new password. Success
        drops the stored code and heads for sign-in. */
    method HandleSubmit(reply: Reply<ResetJson>) returns (request: Option<ResetRequest>)
      modifies this`loading, this`message, this`store, this`redirect
      ensures request.None? <==> SubmitBlock(otp, password, confirmPassword).Some?
      ensures request.None? ==>
        message == Message(SubmitBlock(otp, password, confirmPassword).value, Error, true) &&
        store == old(store) && redirect == old(redirect) && loading == old(loading)
      ensures request.Some? ==> request.value == ResetRequest(otp.value, password) && !loading
      ensures request.Some? && reply.Ok? ==>
        store == old(store) - {KeyResetOtp} && redirect == Some(SignInRoute) &&
        message == Message(ResetDoneText, Success, true)
      ensures request.Some? && reply.NotOk? ==>
        store == old(store) && redirect == old(redirect) &&
        message == Message(RejectionText(reply.body), Error, true)
      ensures request.Some? && reply.Failed? ==>
        store == old(store) && redirect == old(redirect) &&
        message == Message("An unexpected error occurred. Please try again.", Error, true)
    {
      if otp.None? || otp.value == "" || password == "" || confirmPassword == "" {
        message := Message(RequiredText, Error, true);
        return None;
      }
      if password != confirmPassword {
        message := Message(MismatchText, Error, true);
        return None;
      }
      loading := true;
      message := message.(isVisible := false);
      request := Some(ResetRequest(otp.value, password));
      match reply {
        case Ok(_) =>
          message := Message(ResetDoneText, Success, true);
          store := store - {KeyResetOtp};
          redirect := Some(SignInRoute);
        case NotOk(data) =>
          message := Message(RejectionText(data), Error, true);
        case Failed(_) =>
          message := Message("An unexpected error occurred. Please try again.", Error, true);
      }
      loading := false;
    }
  }
}
