/** The rider sign-up page hands over to the verification page through the
    client store; this module runs the two in turn. */
module SignUpFlow {
  import opened Common
  import SignUp
  import OtpVerification

  /** A rider fills in an email and an accepted password, ticks the terms
      and submits, and the backend accepts: the email and the rider
      verification route are stored and the page heads for the code page. */
  method Register(s: Store, email: string, password: string) returns (signUp: SignUp.SignUpForm)
    requires SignUp.AllMet(SignUp.ValidatePassword(password))
    ensures signUp.redirect == Some(VerifyRoute)
    ensures signUp.store == s[KeyEmail := email][KeyNextRoute := RiderVerifyRoute]
  {
    signUp := new SignUp.SignUpForm(s);
    signUp.HandleChange("email", email, false, false);
    signUp.HandleChange("password", password, false, false);
    signUp.HandleChange("agreeToTerms", "", true, true);
    assert |"agreeToTerms"| != |"email"| && |"agreeToTerms"| != |"password"| && |"email"| != |"password"|;
    assert signUp.formData["email"] == SignUp.Text(email);
    var registration := signUp.HandleSubmit(Ok(SignUp.RegisterJson(None)));
  }

  /** The code page opened on a store holding a registered email and the
      rider verification route: a six-character code goes out with that
      email; once the backend accepts it the session is stored, the email is
      forgotten, and the page heads for document upload whatever role the
      backend reports. */
  method VerifyAfterRegister(registered: Store, email: string, otp: string, reply: OtpVerification.VerifyJson)
      returns (verify: OtpVerification.VerificationForm)
    requires KeyEmail in registered && registered[KeyEmail] == email && email != ""
    requires KeyNextRoute in registered && registered[KeyNextRoute] == RiderVerifyRoute
    requires |otp| == 6
    ensures verify.email == email && verify.nextRoute == RiderVerifyRoute
    ensures verify.redirect == Some(RiderVerifyRoute) && !verify.isSubmitting
    ensures verify.store == registered[KeyUserData := reply.raw][KeyAccessToken := reply.accessToken]
                                      [KeyResetOtp := otp] - {KeyEmail}
  {
    verify := new OtpVerification.VerificationForm(registered);
    var call := verify.HandleVerification(otp);
    assert call == Some(OtpVerification.VerifyCall(otp, email));
    verify.ReceiveVerification(Ok(reply));
  }

  /** Registration followed by verification, over one store. */
  method RegisterAndVerify(s: Store, email: string, password: string, otp: string,
                           reply: OtpVerification.VerifyJson)
      returns (signUp: SignUp.SignUpForm, verify: OtpVerification.VerificationForm)
    requires email != "" && SignUp.AllMet(SignUp.ValidatePassword(password)) && |otp| == 6
    ensures signUp.redirect == Some(VerifyRoute)
    ensures verify.redirect == Some(RiderVerifyRoute) && verify.email == email
    ensures KeyEmail !in verify.store
  {
    signUp := Register(s, email, password);
    assert |KeyEmail| != |KeyNextRoute|;
    verify := VerifyAfterRegister(signUp.store, email, otp, reply);
  }
}
