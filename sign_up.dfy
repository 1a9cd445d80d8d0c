/** The rider sign-up form: the five password-strength criteria, the change
    handler that keeps them in step with the password field, and the submit
    routine's guards and storage writes. */
module SignUp {
  import opened Common

  /** The characters JavaScript's `.` does not match. */
  predicate IsLineTerminator(c: char)
  {
    c == '\n' || c == '\r' || c == '\U{2028}' || c == '\U{2029}'
  }

  /** Six characters from index `i` on, none a line terminator. */
  predicate RunOfSixAt(p: string, i: int)
    requires 0 <= i && i + 6 <= |p|
  {
    forall k | i <= k < i + 6 :: !IsLineTerminator(p[k])
  }

  /** `/.{6,}/.test(p)`. */
  predicate HasMinLength(p: string)
    ensures HasMinLength(p) ==> |p| >= 6
  {
    exists i | 0 <= i && i + 6 <= |p| :: RunOfSixAt(p, i)
  }

  predicate IsUpper(c: char) { 'A' <= c <= 'Z' }

  predicate IsLower(c: char) { 'a' <= c <= 'z' }

  predicate IsDigit(c: char) { '0' <= c <= '9' }

  /** `/[A-Z]/.test(p)`. */
  predicate HasUppercase(p: string)
    ensures HasUppercase(p) <==> exists c | c in p :: IsUpper(c)
  {
    exists i | 0 <= i < |p| :: IsUpper(p[i])
  }

  /** `/[a-z]/.test(p)`. */
  predicate HasLowercase(p: string)
    ensures HasLowercase(p) <==> exists c | c in p :: IsLower(c)
  {
    exists i | 0 <= i < |p| :: IsLower(p[i])
  }

  /** `/\d/.test(p)`. */
  predicate HasNumeric(p: string)
    ensures HasNumeric(p) <==> exists c | c in p :: IsDigit(c)
  {
    exists i | 0 <= i < |p| :: IsDigit(p[i])
  }

  const SpecialChars := "!@#$%^&*(),.?\":{}|<>"

  /** `/[!@#$%^&*(),.?":{}|<>]/.test(p)`. */
  predicate HasSpecialChar(p: string)
    ensures HasSpecialChar(p) <==> exists c | c in p :: c in SpecialChars
  {
    exists i | 0 <= i < |p| :: p[i] in SpecialChars
  }

  datatype Criteria = Criteria(minLength: bool, uppercase: bool, lowercase: bool,
                               numeric: bool, specialChar: bool)

  const NoneMet := Criteria(false, false, false, false, false)

  /** `validatePassword`: the five criteria of a password. */
  function ValidatePassword(p: string): (r: Criteria)
    ensures p == "" ==> r == NoneMet
    ensures r.minLength ==> |p| >= 6
  {
    Criteria(HasMinLength(p), HasUppercase(p), HasLowercase(p), HasNumeric(p), HasSpecialChar(p))
  }

  /** `!Object.values(criteria).includes(false)`. */
  predicate AllMet(c: Criteria)
    ensures AllMet(c) <==> c == Criteria(true, true, true, true, true)
  {
    c.minLength && c.uppercase && c.lowercase && c.numeric && c.specialChar
  }

  /** On a single-line password (what a password input holds) the length
      criterion is simply "at least six characters". */
  lemma MinLengthSingleLine(p: string)
    requires forall k | 0 <= k < |p| :: !IsLineTerminator(p[k])
    ensures HasMinLength(p) <==> |p| >= 6
  {
    if |p| >= 6 {
      assert RunOfSixAt(p, 0);
    }
  }

  /** A line break splits the password: two runs of five characters around it
      do not meet the length criterion, however long the whole is. */
  lemma LineBreakSplitsRun()
    ensures !HasMinLength("abcde\nfghij")
  {
    var p := "abcde\nfghij";
    forall i | 0 <= i && i + 6 <= |p| ensures !RunOfSixAt(p, i) {
      assert i <= 5 <= i + 5 && IsLineTerminator(p[5]);
    }
  }

  /** "abc" meets the lowercase criterion and no other. */
  lemma AbcOnlyLowercase()
    ensures ValidatePassword("abc") == Criteria(false, false, true, false, false)
    ensures !AllMet(ValidatePassword("abc"))
  {
    var p := "abc";
    assert p[0] == 'a' && p[1] == 'b' && p[2] == 'c';
    assert forall i | 0 <= i < |p| :: 'a' <= p[i] <= 'c';
    assert IsLower(p[0]);
  }

  /** A password with all five kinds of character passes. */
  lemma StrongExample()
    ensures AllMet(ValidatePassword("Rider1!"))
  {
    var p := "Rider1!";
    assert RunOfSixAt(p, 0);
    assert 'A' <= p[0] <= 'Z' && 'a' <= p[1] <= 'z' && '0' <= p[5] <= '9' && p[6] in SpecialChars;
  }

  /** A form value: the text of an input or the state of a checkbox. */
  datatype Value = Text(text: string) | Flag(checked: bool)

  /** JavaScript truthiness of a form value. */
  predicate Truthy(v: Value)
  {
    match v
    case Text(s) => s != ""
    case Flag(b) => b
  }

  /** The string `localStorage.setItem` stores for a form value. */
  function Stored(v: Value): string
  {
    match v
    case Text(s) => s
    case Flag(b) => if b then "true" else "false"
  }

  datatype Toast = Toast(title: string, description: Option<string>)

  /** The `/api/riders/register` request body. */
  datatype Registration = Registration(firstname: Value, lastname: Value, email: Value, password: Value)

  /** The `/api/riders/register` reply body read on failure. */
  datatype RegisterJson = RegisterJson(message: Option<string>)

  const TermsText := "You have to agree to terms to proceed."
  const CriteriaText := "Password does not meet the required criteria. Please check the instructions."

  class SignUpForm {
    var formData: map<string, Value>
    var criteria: Criteria
    var loading: bool
    var toast: Option<Toast>
    var store: Store
    var redirect: Option<string>

    /** Every field the form starts with is present, and the criteria always
        describe the text in the password field. */
    ghost predicate Valid()
      reads this
    {
      "firstname" in formData && "lastname" in formData && "email" in formData &&
      "password" in formData && "confirmPassword" in formData && "agreeToTerms" in formData &&
      (formData["password"].Text? ==> criteria == ValidatePassword(formData["password"].text))
    }

    constructor (s: Store)
      ensures Valid() && store == s && criteria == NoneMet && !loading
      ensures toast.None? && redirect.None?
      ensures formData == map["firstname" := Text(""), "lastname" := Text(""), "email" := Text(""),
                              "password" := Text(""), "confirmPassword" := Text(""),
                              "agreeToTerms" := Flag(false)]
    {
      formData := map["firstname" := Text(""), "lastname" := Text(""), "email" := Text(""),
                      "password" := Text(""), "confirmPassword" := Text(""),
                      "agreeToTerms" := Flag(false)];
      criteria := NoneMet;
      loading := false;
      toast := None;
      store := s;
      redirect := None;
    }

    /** `handleChange`: a checkbox stores its checked state, any other input
        its text, under the input's name; only the password field recomputes
        the criteria. */
    method HandleChange(name: string, value: string, isCheckbox: bool, checked: bool)
      requires Valid()
      modifies this`formData, this`criteria
      ensures Valid()
      ensures formData == old(formData)[name := if isCheckbox then Flag(checked) else Text(value)]
      ensures name == "password" ==> criteria == ValidatePassword(value)
      ensures name != "password" ==> criteria == old(criteria)
    {
      if name == "password" {
        criteria := ValidatePassword(value);
      }
      formData := formData[name := if isCheckbox then Flag(checked) else Text(value)];
    }

    /** `handleSubmit`: the terms box first, then the criteria; only then is
        the registration sent. Success stores the email and the rider
        verification route and heads for the OTP page. */
    method HandleSubmit(reply: Reply<RegisterJson>) returns (request: Option<Registration>)
      requires Valid()
      modifies this`loading, this`toast, this`store, this`redirect
      ensures Valid()
      ensures request.Some? <==> Truthy(formData["agreeToTerms"]) && AllMet(criteria)
      ensures formData["password"].Text? ==>
        (request.Some? <==> Truthy(formData["agreeToTerms"]) && AllMet(ValidatePassword(formData["password"].text)))
      ensures !Truthy(formData["agreeToTerms"]) ==> toast == Some(Toast("Validation Error", Some(TermsText)))
      ensures Truthy(formData["agreeToTerms"]) && !AllMet(criteria) ==>
        toast == Some(Toast("Validation Error", Some(CriteriaText)))
      ensures request.None? ==>
        store == old(store) && redirect == old(redirect) && loading == old(loading)
      ensures request.Some? ==>
        request.value == Registration(formData["firstname"], formData["lastname"],
                                      formData["email"], formData["password"]) && !loading
      ensures request.Some? && reply.Ok? ==>
        store == old(store)[KeyEmail := Stored(formData["email"])][KeyNextRoute := RiderVerifyRoute] &&
        redirect == Some(VerifyRoute) && toast == old(toast)
      ensures request.Some? && reply.NotOk? ==>
        store == old(store) && redirect == old(redirect) &&
        toast == Some(Toast("Error", reply.body.message))
      ensures request.Some? && reply.Failed? ==>
        store == old(store) && redirect == old(redirect) &&
        toast == Some(Toast("Error", Some("Something went wrong. Please try again later.")))
    {
      if !Truthy(formData["agreeToTerms"]) {
        toast := Some(Toast("Validation Error", Some(TermsText)));
        return None;
      }
      if !AllMet(criteria) {
        toast := Some(Toast("Validation Error", Some(CriteriaText)));
        return None;
      }
      loading := true;
      request := Some(Registration(formData["firstname"], formData["lastname"],
                                   formData["email"], formData["password"]));
      match reply {
        case Ok(_) =>
          store := store[KeyEmail := Stored(formData["email"])][KeyNextRoute := RiderVerifyRoute];
          redirect := Some(VerifyRoute);
        case NotOk(body) =>
          toast := Some(Toast("Error", body.message));
        case Failed(_) =>
          toast := Some(Toast("Error", Some("Something went wrong. Please try again later.")));
      }
      loading := false;
    }
  }
}
