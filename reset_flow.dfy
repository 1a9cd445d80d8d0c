/** The forgot-password, verification and create-password pages share the
    client store: this module runs them one after another over that store and
    states what the hand-offs between them guarantee. */
module ResetFlow {
  import opened Common
  import ForgotPassword
  import OtpVerification
  import ResetPassword

  /** A reset from start to the create-password page: the address is
      accepted and the backend sends a code; the verification page, opened
      on the resulting store, takes the six-character code without calling
      the backend and heads for create-password; that page, opened on the
      store as it is then, finds the code ready to send. */
  method RequestAndEnterCode(s: Store, email: string, otp: string)
      returns (forgot: ForgotPassword.ForgotPasswordForm,
               verify: OtpVerification.VerificationForm,
               reset: ResetPassword.ResetPasswordForm)
    requires ForgotPassword.EmailShape(email) && |otp| == 6
    ensures forgot.redirect == Some(VerifyRoute)
    ensures verify.email == email && verify.nextRoute == CreatePasswordRoute
    ensures verify.redirect == Some(CreatePasswordRoute) && !verify.isSubmitting
    ensures reset.otp == Some(otp) && reset.message == Hidden
    ensures reset.store == s[KeyEmail := email][KeyNextRoute := CreatePasswordRoute][KeyResetOtp := otp]
  {
    forgot := new ForgotPassword.ForgotPasswordForm(s);
    forgot.SetEmail(email);
    var sent := forgot.HandleSubmit(Ok(ForgotPassword.ForgotJson(None)));
    assert email != "" by { ForgotPassword.EmailIff(email); }
    verify := new OtpVerification.VerificationForm(forgot.store);
    var call := verify.HandleVerification(otp);
    reset := new ResetPassword.ResetPasswordForm(verify.store);
  }

  /** The same start, but the code the user types is short: the
      verification page sends nothing, stores nothing and stays put, so the
      create-password page opened on that store finds no code unless one was
      stored before the flow began. */
  method ShortCodeStaysPut(s: Store, email: string, otp: string)
      returns (verify: OtpVerification.VerificationForm, reset: ResetPassword.ResetPasswordForm)
    requires ForgotPassword.EmailShape(email) && |otp| != 6 && KeyResetOtp !in s
    ensures verify.redirect.None? && verify.store == s[KeyEmail := email][KeyNextRoute := CreatePasswordRoute]
    ensures reset.otp.None? && reset.message == Message(ResetPassword.NoOtpText, Error, true)
  {
    var forgot := new ForgotPassword.ForgotPasswordForm(s);
    forgot.SetEmail(email);
    var sent := forgot.HandleSubmit(Ok(ForgotPassword.ForgotJson(None)));
    verify := new OtpVerification.VerificationForm(forgot.store);
    var call := verify.HandleVerification(otp);
    reset := new ResetPassword.ResetPasswordForm(verify.store);
  }
}
