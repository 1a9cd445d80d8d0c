/** The email/OTP verification page: the route it heads for next, the two
    requests it can have in flight (verify a code, resend a code), and the
    storage writes and redirect each outcome leads to. */
module OtpVerification {
  import opened Common

  /** Where a successful verification leads: riders always go on to upload
      their documents, everyone else to the route the page was opened for. */
  function RouteAfterVerify(role: string, nextRoute: string): (r: string)
    ensures r == RiderVerifyRoute <==> role == "rider" || nextRoute == RiderVerifyRoute
    ensures role != "rider" ==> r == nextRoute
  {
    if role == "rider" then RiderVerifyRoute else nextRoute
  }

  /** The `/api/users/verify_email` reply body; `raw` is its JSON text. */
  datatype VerifyJson = VerifyJson(raw: string, role: string, accessToken: string, error: Option<string>)

  /** The `/api/users/resend_verification_otp` reply body. */
  datatype ResendJson = ResendJson(error: Option<string>)

  /** The request a handler has sent and not yet seen the end of. */
  datatype Call = NoCall | VerifyCall(otp: string, email: string) | ResendCall(email: string)

  const ResetAcceptedText := "OTP accepted. Redirecting to password reset..."
  const VerifiedText := "Verification successful. Redirecting..."
  const ResentText := "A new OTP has been sent to your email."

  class VerificationForm {
    var code: string
    var email: string
    var nextRoute: string
    var isSubmitting: bool
    var message: Message
    var store: Store
    var redirect: Option<string>
    var pending: Call

    /** The submitting flag is up exactly while a request is in flight, and
        the route to head for is never empty. */
    ghost predicate Valid()
      reads this
    {
      (isSubmitting <==> pending != NoCall) && nextRoute != ""
    }

    /** The page after its mount effect: the stored route, or the home page
        when none (or an empty one) is stored; the stored email, if any. */
    constructor (s: Store)
      ensures Valid()
      ensures nextRoute == StoredOr(s, KeyNextRoute, HomeRoute)
      ensures email == StoredOr(s, KeyEmail, "")
      ensures code == "" && !isSubmitting && message == Hidden && store == s && redirect.None?
    {
      code := "";
      nextRoute := StoredOr(s, KeyNextRoute, HomeRoute);
      email := StoredOr(s, KeyEmail, "");
      isSubmitting := false;
      message := Hidden;
      store := s;
      redirect := None;
      pending := NoCall;
    }

    method SetCode(value: string)
      modifies this`code
      ensures code == value
    {
      code := value;
    }

    /** `handleVerification`: nothing happens unless the code has six
        characters and no request is in flight. On the password-reset route
        the code is kept for the reset form and no request is sent; otherwise
        the code goes to the backend with the known email. */
    method HandleVerification(otp: string) returns (request: Option<Call>)
      requires Valid()
      modifies this`isSubmitting, this`message, this`store, this`redirect, this`pending
      ensures Valid()
      ensures |otp| != 6 || old(isSubmitting) ==>
        request.None? && isSubmitting == old(isSubmitting) && message == old(message) &&
        store == old(store) && redirect == old(redirect) && pending == old(pending)
      ensures |otp| == 6 && !old(isSubmitting) && nextRoute == CreatePasswordRoute ==>
        request.None? && !isSubmitting && pending == old(pending) &&
        store == old(store)[KeyResetOtp := otp] && redirect == Some(nextRoute) &&
        message == Message(ResetAcceptedText, Success, true)
      ensures |otp| == 6 && !old(isSubmitting) && nextRoute != CreatePasswordRoute ==>
        request == Some(VerifyCall(otp, email)) && pending == request.value && isSubmitting &&
        store == old(store) && redirect == old(redirect) &&
        message == old(message).(isVisible := false)
    {
      if |otp| != 6 || isSubmitting {
        return None;
      }
      isSubmitting := true;
      message := message.(isVisible := false);
      if nextRoute == CreatePasswordRoute {
        store := store[KeyResetOtp := otp];
        message := Message(ResetAcceptedText, Success, true);
        redirect := Some(nextRoute);
        isSubmitting := false;
        return None;
      }
      pending := VerifyCall(otp, email);
      request := Some(pending);
    }

    /** The end of the verification request. Success stores the session and
        the code, forgets the email and heads on by role; a rejection or an
        exception only shows a message. Either way the flag drops. */
    method ReceiveVerification(reply: Reply<VerifyJson>)
      requires Valid() && pending.VerifyCall?
      modifies this`isSubmitting, this`message, this`store, this`redirect, this`pending
      ensures Valid() && !isSubmitting
      ensures reply.Ok? ==>
        store == (old(store)[KeyUserData := reply.body.raw][KeyAccessToken := reply.body.accessToken]
                            [KeyResetOtp := old(pending).otp] - {KeyEmail}) &&
        redirect == Some(RouteAfterVerify(reply.body.role, nextRoute)) &&
        message == Message(VerifiedText, Success, true)
      ensures reply.NotOk? ==>
        store == old(store) && redirect == old(redirect) &&
        message == Message(OrElse(reply.body.error, "Invalid OTP provided."), Error, true)
      ensures reply.Failed? ==>
        store == old(store) && redirect == old(redirect) &&
        message == Message("Something went wrong. Please try again.", Error, true)
    {
      match reply {
        case Ok(data) =>
          store := store[KeyUserData := data.raw][KeyAccessToken := data.accessToken]
                        [KeyResetOtp := pending.otp] - {KeyEmail};
          message := Message(VerifiedText, Success, true);
          redirect := Some(RouteAfterVerify(data.role, nextRoute));
        case NotOk(data) =>
          message := Message(OrElse(data.error, "Invalid OTP provided."), Error, true);
        case Failed(_) =>
          message := Message("Something went wrong. Please try again.", Error, true);
      }
      pending := NoCall;
      isSubmitting := false;
    }

    /** `handleResendOtp`: without a known email nothing happens; otherwise a
        new code is requested for it. Its only caller is the Resend button,
        which the browser keeps disabled while a request is in flight. */
    method HandleResendOtp() returns (request: Option<Call>)
      requires Valid() && !isSubmitting
      modifies this`isSubmitting, this`message, this`pending
      ensures Valid()
      ensures email == "" ==>
        request.None? && !isSubmitting && message == old(message) && pending == old(pending)
      ensures email != "" ==>
        request == Some(ResendCall(email)) && pending == request.value && isSubmitting &&
        message == old(message).(isVisible := false)
    {
      if email == "" {
        return None;
      }
      isSubmitting := true;
      message := message.(isVisible := false);
      pending := ResendCall(email);
      request := Some(pending);
    }

    /** The end of the resend request: a message, and the flag drops. */
    method ReceiveResend(reply: Reply<ResendJson>)
      requires Valid() && pending.ResendCall?
      modifies this`isSubmitting, this`message, this`pending
      ensures Valid() && !isSubmitting
      ensures reply.Ok? ==> message == Message(ResentText, Success, true)
      ensures reply.NotOk? ==>
        message == Message(OrElse(reply.body.error, "Failed to resend OTP."), Error, true)
      ensures reply.Failed? ==>
        message == Message("Something went wrong while resending OTP.", Error, true)
    {
      match reply {
        case Ok(_) =>
          message := Message(ResentText, Success, true);
        case NotOk(data) =>
          message := Message(OrElse(data.error, "Failed to resend OTP."), Error, true);
        case Failed(_) =>
          message := Message("Something went wrong while resending OTP.", Error, true);
      }
      pending := NoCall;
      isSubmitting := false;
    }

    /** A click on the Resend button, a native button that honours its
        `disabled` attribute: ignored while a request is in flight. */
    method ClickResend() returns (request: Option<Call>)
      requires Valid()
      modifies this`isSubmitting, this`message, this`pending
      ensures Valid()
      ensures request.Some? <==> !old(isSubmitting) && email != ""
      ensures old(isSubmitting) ==>
        isSubmitting && message == old(message) && pending == old(pending)
      ensures !old(isSubmitting) && email == "" ==>
        !isSubmitting && message == old(message) && pending == old(pending)
      ensures !old(isSubmitting) && email != "" ==>
        request == Some(ResendCall(email)) && pending == request.value && isSubmitting &&
        message == old(message).(isVisible := false)
    {
      if isSubmitting {
        return None;
      }
      request := HandleResendOtp();
    }

    /** A click on the Verify button. The shared `Button` component drops its
        `disabled` prop, so the click always reaches `handleVerification`
        with the typed code; the handler's own guard is what stops a short
        code or a second submission. */
    method ClickVerify() returns (request: Option<Call>)
      requires Valid()
      modifies this`isSubmitting, this`message, this`store, this`redirect, this`pending
      ensures Valid()
      ensures request.Some? <==> |code| == 6 && !old(isSubmitting) && nextRoute != CreatePasswordRoute
      ensures (|code| != 6 || old(isSubmitting)) ==>
        isSubmitting == old(isSubmitting) && message == old(message) && store == old(store) &&
        redirect == old(redirect) && pending == old(pending)
      ensures |code| == 6 && !old(isSubmitting) && nextRoute == CreatePasswordRoute ==>
        !isSubmitting && pending == old(pending) &&
        store == old(store)[KeyResetOtp := code] && redirect == Some(nextRoute) &&
        message == Message(ResetAcceptedText, Success, true)
      ensures |code| == 6 && !old(isSubmitting) && nextRoute != CreatePasswordRoute ==>
        request == Some(VerifyCall(code, email)) && pending == request.value && isSubmitting &&
        store == old(store) && redirect == old(redirect) &&
        message == old(message).(isVisible := false)
    {
      request := HandleVerification(code);
    }
  }
}
