/** The forgot-password page: the email check, and the submit routine that
    requests a reset code and points the verification page at the
    create-password route. */
module ForgotPassword {
  import opened Common

  /** The characters JavaScript's `\s` matches. */
  predicate IsSpace(c: char)
  {
    c == '\t' || c == '\n' || c == '\U{B}' || c == '\U{C}' || c == '\r' || c == ' ' ||
    c == '\U{A0}' || c == '\U{1680}' || ('\U{2000}' <= c <= '\U{200A}') ||
    c == '\U{2028}' || c == '\U{2029}' || c == '\U{202F}' || c == '\U{205F}' ||
    c == '\U{3000}' || c == '\U{FEFF}'
  }

  /** `[^\s@]+`: one or more characters, none whitespace or `@`. */
  predicate Atom(t: string)
  {
    |t| > 0 && forall k | 0 <= k < |t| :: !IsSpace(t[k]) && t[k] != '@'
  }

  /** One way `^[^\s@]+@[^\s@]+\.[^\s@]+$` can match `s`: the `@` at `i`
      and the literal `.` at `j`. */
  predicate EmailSplit(s: string, i: int, j: int)
  {
    0 < i && i + 1 < j && j + 1 < |s| && s[i] == '@' && s[j] == '.' &&
    Atom(s[..i]) && Atom(s[i + 1..j]) && Atom(s[j + 1..])
  }

  /** `validateEmail`: the regular expression matches. */
  predicate ValidateEmail(s: string)
    ensures ValidateEmail(s) ==> |s| >= 5 && '@' in s
  {
    exists i, j | 0 <= i < j < |s| :: EmailSplit(s, i, j)
  }

  /** A `.` strictly inside `t`: neither its first nor its last character. */
  predicate DotInside(t: string)
  {
    exists d | 0 < d < |t| - 1 :: t[d] == '.'
  }

  /** The address's shape stated without the regular expression: no
      whitespace, a single `@` that is not the first character, and a `.`
      strictly inside the part after it. */
  predicate EmailShape(s: string)
  {
    (forall k | 0 <= k < |s| :: !IsSpace(s[k])) &&
    exists a | 0 < a < |s| :: s[a] == '@' && (forall k | 0 <= k < |s| && s[k] == '@' :: k == a) &&
                              DotInside(s[a + 1..])
  }

  lemma {:induction false} SplitHasShape(s: string, i: int, j: int)
    requires EmailSplit(s, i, j)
    ensures EmailShape(s)
  {
    forall k | 0 <= k < |s| ensures !IsSpace(s[k]) && (s[k] == '@' ==> k == i) {
      if k < i {
        assert s[k] == s[..i][k];
      } else if i < k < j {
        assert s[k] == s[i + 1..j][k - i - 1];
      } else if j < k {
        assert s[k] == s[j + 1..][k - j - 1];
      }
    }
    assert s[i + 1..][j - i - 1] == '.';
  }

  lemma {:induction false} ShapeHasSplit(s: string, a: int, d: int)
    requires 0 < a < |s| && s[a] == '@' && forall k | 0 <= k < |s| && s[k] == '@' :: k == a
    requires forall k | 0 <= k < |s| :: !IsSpace(s[k])
    requires 0 < d < |s[a + 1..]| - 1 && s[a + 1..][d] == '.'
    ensures EmailSplit(s, a, a + 1 + d)
  {
    var j := a + 1 + d;
    assert s[j] == '.';
    forall k | 0 <= k < a ensures !IsSpace(s[..a][k]) && s[..a][k] != '@' {
      assert s[..a][k] == s[k];
    }
    var domain, tld := s[a + 1..j], s[j + 1..];
    forall k | 0 <= k < |domain| ensures !IsSpace(domain[k]) && domain[k] != '@' {
      assert domain[k] == s[a + 1 + k];
    }
    forall k | 0 <= k < |tld| ensures !IsSpace(tld[k]) && tld[k] != '@' {
      assert tld[k] == s[j + 1 + k];
    }
  }

  /** The regular expression accepts exactly the addresses of that shape. */
  lemma EmailIff(s: string)
    ensures ValidateEmail(s) <==> EmailShape(s)
  {
    if ValidateEmail(s) {
      var i, j :| 0 <= i < j < |s| && EmailSplit(s, i, j);
      SplitHasShape(s, i, j);
    }
    if EmailShape(s) {
      var a :| 0 < a < |s| && s[a] == '@' && (forall k | 0 <= k < |s| && s[k] == '@' :: k == a) &&
               DotInside(s[a + 1..]);
      var d :| 0 < d < |s[a + 1..]| - 1 && s[a + 1..][d] == '.';
      ShapeHasSplit(s, a, d);
    }
  }

  /** Two sample addresses: an ordinary one passes, one with a second `@`
      fails. */
  lemma EmailExamples()
    ensures ValidateEmail("rider@parcel.ng")
    ensures !ValidateEmail("a@b@c.d")
  {
    assert EmailSplit("rider@parcel.ng", 5, 12) by {
      assert "rider@parcel.ng"[..5] == "rider";
      assert "rider@parcel.ng"[6..12] == "parcel";
      assert "rider@parcel.ng"[13..] == "ng";
    }
    var t := "a@b@c.d";
    EmailIff(t);
    assert t[1] == '@' && t[3] == '@';
  }

  /** The `/api/users/reset_password/{email}` reply body. */
  datatype ForgotJson = ForgotJson(message: Option<string>)

  const InvalidEmailText := "Please enter a valid email address."
  const ResetSentText := "Check your email for a password reset OTP."

  class ForgotPasswordForm {
    var email: string
    var loading: bool
    var message: Message
    var store: Store
    var redirect: Option<string>

    constructor (s: Store)
      ensures email == "" && !loading && message == Hidden && store == s && redirect.None?
    {
      email, loading, message, store, redirect := "", false, Hidden, s, None;
    }

    method SetEmail(value: string)
      modifies this`email
      ensures email == value
    {
      email := value;
    }

    /** `handleSubmit`: an empty or malformed address is refused without a
        request. Otherwise a reset code is requested; on success the address
        and the create-password route are stored for the verification page,
        which is where the page heads next. */
    method HandleSubmit(reply: Reply<ForgotJson>) returns (request: Option<string>)
      modifies this`loading, this`message, this`store, this`redirect
      ensures request.Some? <==> EmailShape(email)
      ensures request.None? ==>
        message == Message(InvalidEmailText, Error, true) &&
        store == old(store) && redirect == old(redirect) && loading == old(loading)
      ensures request.Some? ==> request.value == email && !loading
      ensures request.Some? && reply.Ok? ==>
        store == old(store)[KeyEmail := email][KeyNextRoute := CreatePasswordRoute] &&
        redirect == Some(VerifyRoute) && message == Message(ResetSentText, Success, true)
      ensures request.Some? && reply.NotOk? ==>
        store == old(store) && redirect == old(redirect) &&
        message == Message(OrElse(reply.body.message, "Failed to send reset email."), Error, true)
      ensures request.Some? && reply.Failed? ==>
        store == old(store) && redirect == old(redirect) &&
        message == Message(OrElse(reply.thrown.dataMessage, "Something went wrong. Try again later."),
                           Error, true)
    {
      EmailIff(email);
      if email == "" || !ValidateEmail(email) {
        message := Message(InvalidEmailText, Error, true);
        return None;
      }
      loading := true;
      message := message.(isVisible := false);
      request := Some(email);
      match reply {
        case Ok(_) =>
          message := Message(ResetSentText, Success, true);
          store := store[KeyEmail := email][KeyNextRoute := CreatePasswordRoute];
          redirect := Some(VerifyRoute);
        case NotOk(data) =>
          message := Message(OrElse(data.message, "Failed to send reset email."), Error, true);
        case Failed(t) =>
          message := Message(OrElse(t.dataMessage, "Something went wrong. Try again later."), Error, true);
      }
      loading := false;
    }
  }
}
