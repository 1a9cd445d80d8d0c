/** Shared vocabulary of the rider front end: optional values, the three ways a
    backend call can end, the on-screen message record, the client storage and
    the routes and storage keys the forms agree on. */
module Common {

  datatype Option<+T> = None | Some(value: T)

  /** A value caught by a `catch` block. `isError` says whether it is an
      `Error` instance, `message` is its `message`, `dataMessage` is
      `error?.data?.message`. */
  datatype Thrown = Thrown(isError: bool, message: string, dataMessage: Option<string>)

  /** How a `fetch` ends: a 2xx reply with its JSON body, a non-2xx reply with
      its JSON body, or an exception (network failure, body that is not JSON). */
  datatype Reply<T> = Ok(body: T) | NotOk(body: T) | Failed(thrown: Thrown)

  /** A reply that carries no body the handler reads. */
  datatype Empty = Empty

  datatype Kind = Success | Error

  /** The `{ text, type, isVisible }` record the auth forms keep in state. */
  datatype Message = Message(text: string, kind: Kind, isVisible: bool)

  const Hidden: Message := Message("", Error, false)

  /** `localStorage`, as an abstract key/value store. */
  type Store = map<string, string>

  const KeyEmail := "v-email-auth"
  const KeyNextRoute := "next-route"
  const KeyResetOtp := "reset-password-otp"
  const KeyUserData := "user_data"
  const KeyAccessToken := "access_token"

  const HomeRoute := "/user/home"
  const CreatePasswordRoute := "/authentication/create-password"
  const RiderVerifyRoute := "/authentication/signup/rider/verify"
  const VerifyRoute := "/authentication/verify"
  const SignInRoute := "/authentication/signin"

  /** JavaScript `o || fallback` on an optional string: the empty string is
      falsy, so it falls back too. */
  function OrElse(o: Option<string>, fallback: string): (r: string)
    ensures o.Some? && o.value != "" ==> r == o.value
    ensures r == fallback || (o == Some(r) && r != "")
  {
    if o.Some? && o.value != "" then o.value else fallback
  }

  /** `localStorage.getItem(key)` followed by a truthiness test: an absent or
      empty entry yields `fallback`. */
  function StoredOr(store: Store, key: string, fallback: string): (r: string)
    ensures key in store && store[key] != "" ==> r == store[key]
    ensures r == fallback || (key in store && store[key] == r && r != "")
    ensures fallback != "" ==> r != ""
  {
    if key in store && store[key] != "" then store[key] else fallback
  }

  /** `error instanceof Error ? error.message : 'An unknown error occurred'`. */
  function ErrorText(t: Thrown): (r: string)
    ensures t.isError ==> r == t.message
    ensures !t.isError ==> r == "An unknown error occurred"
  {
    if t.isError then t.message else "An unknown error occurred"
  }

  /** Prefix of at most `n` elements, as `s.slice(0, n)`. */
  function Take<T>(s: seq<T>, n: nat): (r: seq<T>)
    ensures |r| <= n && |r| <= |s|
    ensures |s| <= n ==> r == s
    ensures |s| > n ==> |r| == n
    ensures r == s[..|r|]
  {
    if |s| <= n then s else s[..n]
  }
}
