/** The sign-in form and the message box the auth forms share: when the box
    shows, the required-field message, and the submit routine that stores the
    session and hands it to the session store. */
module SignIn {
  import opened Common

  /** What `MessageDisplay` renders for a message record: its text in the
      style of its kind, or nothing. */
  function Display(m: Message): (r: Option<(string, Kind)>)
    ensures r.None? <==> !m.isVisible || m.text == ""
    ensures r.Some? ==> r.value == (m.text, m.kind)
  {
    if !m.isVisible || m.text == "" then None else Some((m.text, m.kind))
  }

  predicate Renders(m: Message)
  {
    Display(m).Some?
  }

  /** The message for a missing field, the email checked first. */
  function RequiredFieldMessage(email: string, password: string): (r: Option<string>)
    ensures r.None? <==> email != "" && password != ""
    ensures email == "" ==> r == Some("Email is a required field.")
    ensures email != "" && password == "" ==> r == Some("Password is a required field.")
  {
    if email == "" || password == "" then
      assert "Email" + " is a required field." == "Email is a required field.";
      assert "Password" + " is a required field." == "Password is a required field.";
      Some((if email == "" then "Email" else "Password") + " is a required field.")
    else None
  }

  /** The signed-in identity handed to `login`. */
  datatype Session = Session(user: string, accessToken: string, refreshToken: string)

  /** The `/api/users/signin` reply body; `raw` is its JSON text. */
  datatype SignInJson = SignInJson(raw: string, user: string, accessToken: string,
                                   refreshToken: string, error: Option<string>)

  datatype Credentials = Credentials(email: string, password: string)

  const WelcomeText := "Login successful! Welcome back."

  class SignInForm {
    var email: string
    var password: string
    var message: Message
    var loading: bool
    var store: Store
    /** The last call made to the session store's `login`. */
    var login: Option<Session>

    constructor (s: Store)
      ensures email == "" && password == "" && !loading && store == s && login.None?
      ensures message == Message("", Success, false)
    {
      email, password := "", "";
      message := Message("", Success, false);
      loading := false;
      store := s;
      login := None;
    }

    method SetEmail(value: string)
      modifies this`email
      ensures email == value
    {
      email := value;
    }

    method SetPassword(value: string)
      modifies this`password
      ensures password == value
    {
      password := value;
    }

    /** `showMessage`: the new text and type, made visible. */
    method ShowMessage(text: string, kind: Kind)
      modifies this`message
      ensures message == Message(text, kind, true)
      ensures Renders(message) <==> text != ""
    {
      message := Message(text, kind, true);
    }

    /** `hideMessage`, and the timer that fires four seconds after a
        `showMessage`: only the visibility drops, text and type stay. */
    method HideMessage()
      modifies this`message
      ensures message == old(message).(isVisible := false)
      ensures !Renders(message)
    {
      message := message.(isVisible := false);
    }

    /** `handleSubmit`: a missing field is reported without a request;
        otherwise the credentials go out and the reply decides. */
    method HandleSubmit(reply: Reply<SignInJson>) returns (request: Option<Credentials>)
      modifies this`message, this`loading, this`store, this`login
      ensures request.None? <==> RequiredFieldMessage(email, password).Some?
      ensures request.None? ==>
        message == Message(RequiredFieldMessage(email, password).value, Error, true) &&
        store == old(store) && login == old(login) && loading == old(loading)
      ensures request.Some? ==> request.value == Credentials(email, password) && !loading
      ensures request.Some? && reply.Ok? ==>
        store == old(store)[KeyUserData := reply.body.raw] &&
        login == Some(Session(reply.body.user, reply.body.accessToken, reply.body.refreshToken)) &&
        message == Message(WelcomeText, Success, true)
      ensures request.Some? && reply.NotOk? ==>
        store == old(store) && login == old(login) &&
        message == Message(OrElse(reply.body.error, "Incorrect Credentials"), Error, true)
      ensures request.Some? && reply.Failed? ==>
        store == old(store) && login == old(login) &&
        message == Message(OrElse(reply.thrown.dataMessage, "An unexpected error occurred."), Error, true)
      ensures Renders(message)
    {
      var missing := RequiredFieldMessage(email, password);
      if missing.Some? {
        ShowMessage(missing.value, Error);
        return None;
      }
      loading := true;
      request := Some(Credentials(email, password));
      match reply {
        case Ok(data) =>
          store := store[KeyUserData := data.raw];
          login := Some(Session(data.user, data.accessToken, data.refreshToken));
          ShowMessage(WelcomeText, Success);
        case NotOk(data) =>
          ShowMessage(OrElse(data.error, "Incorrect Credentials"), Error);
        case Failed(t) =>
          ShowMessage(OrElse(t.dataMessage, "An unexpected error occurred."), Error);
      }
      loading := false;
    }
  }
}
