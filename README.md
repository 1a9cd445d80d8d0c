# rider.parcel front end — a Dafny model

rider.parcel is the rider-facing web client of a parcel-delivery service. This
project models the parts of it that make decisions:

- the rider **wallet dashboard**: the order list with its optimistic accept
  and complete transitions, the four-character delivery PIN dialog of an order
  row, overdue detection, the buttons a row offers, and the wallet and
  daily-target snapshot taken from the dashboard fetch (`dashboard.dfy`,
  module `Dashboard`);
- the **notification panel**: the list is refreshed, marked read or pruned,
  each step only after the backend confirms, and an unread badge is kept
  (`notifications.dfy`, module `Notifications`);
- the **rider verification page**: NIN, BVN and driver's-licence checks, the
  digit-only input sanitiser, document-upload checks and the per-field error
  map built on submit (`rider_verification.dfy`, module `RiderDocs`);
- the **rider sign-up form**: the five password-strength criteria, the change
  handler and the submit guards (`sign_up.dfy`, module `SignUp`);
- the **sign-in form** and the message box shared by the auth forms
  (`sign_in.dfy`, module `SignIn`);
- the **email/OTP verification page**, with its reset shortcut, role-based
  routing and resend (`otp_verification.dfy`, module `OtpVerification`);
- the **forgot-password** and **create-password** pages (`forgot_password.dfy`,
  `reset_password.dfy`);
- the hand-offs between these pages through client storage: forgot password,
  then code, then new password (`reset_flow.dfy`); sign up, then code
  (`signup_flow.dfy`).

`common.dfy` (module `Common`) holds the shared vocabulary:
- the three ways a backend call can end (`Reply`: a 2xx reply with its body, a
  non-2xx reply with its body, or a thrown exception);
- the `{text, type, isVisible}` message record;
- the storage keys and routes;
- JavaScript's `||` on strings, where the empty string is falsy.

How the model treats the browser:
- Each React component whose state its handlers update is a `class`. The
  component's `useState` values become its fields, and each handler is a
  method that states its whole new state.
- `localStorage` is a `map<string, string>` field (`store`).
- A backend reply is a parameter of the handler that awaits it. A handler
  returns the request it sends, or `None` when a guard stops it.
- A redirect is recorded in a `redirect` field.
- Effects the source delays with `setTimeout` are applied at once.
- The verification page has two requests that can be in flight. There, a
  handler only starts the call and a separate `Receive…` method ends it, so
  the `isSubmitting` guard protects something real.
- Clock readings are parameters, in integer milliseconds.

The model follows what the code does, including behaviour a reader might not expect:

- A sign-up password of `"abc"` meets the lowercase criterion (`/[a-z]/`
  matches). So it does not fail all five criteria; it fails four.
  `SignUp.AbcOnlyLowercase` proves this.
- Accepting an order does not look at the order's status. Any order with the
  id becomes `accepted`, and only the dashboard's choice of buttons keeps
  Accept off non-pending rows (`Dashboard.RewriteAt`,
  `Dashboard.DashboardRowActions`). Completing an order does not look at its
  status either: any order with the id becomes `delivered` once the PIN has
  four characters, and only the Complete button, shown on accepted rows,
  keeps it to accepted orders (`Dashboard.WalletDashboard.HandleCompleteOrder`).
- The verification page and the PIN dialog check only the length of the code:
  six characters and four characters. They do not check that these are digits.
- On the password-reset route, any six-character code is accepted without a
  backend call (`OtpVerification.VerificationForm.HandleVerification`,
  `ResetFlow.RequestAndEnterCode`).

## Model

| member | source | states |
|---|---|---|
| Common.OrElse | src/components/Auth/SignInForm.tsx:106 | `o \|\| fallback`: a present non-empty string wins, otherwise the fallback |
| Common.StoredOr | src/components/Auth/VerificationForm.tsx:33-37 | a stored non-empty entry wins, otherwise the fallback; a non-empty fallback gives a non-empty result |
| Common.ErrorText | src/components/Rider/RiderNotifcation.tsx:46 | an `Error` shows its message, anything else "An unknown error occurred" |
| Common.Take | src/components/Rider/WalletDashboard.tsx:464 | `slice(0, n)`: a prefix of exactly `min(n, length)` elements, the whole input when it is short enough |
| Dashboard.NumOr | src/components/Rider/WalletDashboard.tsx:575-581 | `n \|\| fallback` on numbers: a present non-zero number wins, 0 falls back |
| Dashboard.Rewrite | src/components/Rider/WalletDashboard.tsx:505-511 | mapping a transition over the list keeps its length |
| Dashboard.Apply | src/components/Rider/WalletDashboard.tsx:508-534 | the transition keeps the id; Accept sets `accepted` and `acceptedAt`, Deliver sets `delivered` and `deliveredAt`, and no other field changes |
| Dashboard.RewriteAt | src/components/Rider/WalletDashboard.tsx:505-511 | an order with the id becomes `Apply` of it: the new status and time stamp, every other field (penalties included) kept; every other order is unchanged |
| Dashboard.RewriteKeepsIds | src/components/Rider/WalletDashboard.tsx:505-511 | the ids, and so the length and order of the list, are unchanged |
| Dashboard.RewriteAbsentId | src/components/Rider/WalletDashboard.tsx:505-511 | an id that no order carries leaves the list unchanged |
| Dashboard.RewriteIdempotent | src/components/Rider/WalletDashboard.tsx:530-537 | completing the same order twice at the same time is completing it once |
| Dashboard.DecPending | src/components/Rider/WalletDashboard.tsx:541 | `Math.max(0, p - 1)`: never negative, one less when positive |
| Dashboard.PendingAfterCompletions | src/components/Rider/WalletDashboard.tsx:541 | after `n >= 1` completions the pending count is `max(0, p - n)`, so never negative whatever the fetch stored |
| Dashboard.IsOverdue | src/components/Rider/WalletDashboard.tsx:388-396 | only an accepted, stamped order with a non-zero estimate can be overdue; `OverdueIff` gives the exact condition |
| Dashboard.OverdueIff | src/components/Rider/WalletDashboard.tsx:388-396 | overdue iff accepted, stamped, a non-zero estimate, and elapsed ms strictly above estimate × 3 600 000 (equality is not overdue) |
| Dashboard.OverdueStaysOverdue | src/components/Rider/WalletDashboard.tsx:388-396 | an overdue order stays overdue as time passes |
| Dashboard.ActionsOffered | src/components/Rider/WalletDashboard.tsx:431-449 | no buttons without `showActions`; Accept only on a pending order with a handler, Complete only on an accepted one with a handler; never both |
| Dashboard.ShowActionsFor | src/components/Rider/WalletDashboard.tsx:651 | `showActions` is set exactly for the orders that have a button to show; `DashboardRowActions` names which |
| Dashboard.DashboardRowActions | src/components/Rider/WalletDashboard.tsx:431-449 | with the dashboard's `showActions` (line 651): Accept iff pending, Complete iff accepted, never both, none otherwise |
| Dashboard.WalletFrom | src/components/Rider/WalletDashboard.tsx:574-578 | no wallet gives zeros; balance and penalties fall back to 0; earnings fall back to the balance |
| Dashboard.TargetFrom | src/components/Rider/WalletDashboard.tsx:591-597 | a daily target of 10 for today, achieved iff the completed count is at least 10 |
| Dashboard.WalletDashboard.constructor | src/components/Rider/WalletDashboard.tsx:491-497 | nothing loaded, loading, counters at zero |
| Dashboard.WalletDashboard.HandleAcceptOrder | src/components/Rider/WalletDashboard.tsx:499-524 | the list (an unloaded one read as empty) has the order accepted at `now`; counters, wallet and target unchanged |
| Dashboard.WalletDashboard.HandleCompleteOrder | src/components/Rider/WalletDashboard.tsx:526-556 | a PIN that is not 4 characters changes nothing; a 4-character PIN delivers the order, adds one to completed and floors pending at zero |
| Dashboard.WalletDashboard.FetchDashboardData | src/components/Rider/WalletDashboard.tsx:558-608 | loading always ends; only an OK reply with a token replaces wallet, orders (`docs` or empty), counters and target |
| Dashboard.OrderItem.constructor | src/components/Rider/WalletDashboard.tsx:366-367 | an empty PIN and a closed dialog |
| Dashboard.OrderItem.ChangePin | src/components/Rider/WalletDashboard.tsx:464 | the PIN is the first four characters typed, never longer |
| Dashboard.OrderItem.OpenPinDialog | src/components/Rider/WalletDashboard.tsx:442-448 | opened only from an accepted order's row; the PIN is kept |
| Dashboard.OrderItem.DismissPinDialog | src/components/Rider/WalletDashboard.tsx:454 | Escape or a click outside closes the dialog and keeps the PIN |
| Dashboard.OrderItem.CancelPinDialog | src/components/Rider/WalletDashboard.tsx:473 | the PIN is cleared and the dialog closed |
| Dashboard.OrderItem.HandleCompleteOrder | src/components/Rider/WalletDashboard.tsx:380-386 | forwards `(id, pin)` iff the PIN has 4 characters and a handler exists, then clears the PIN and closes; otherwise nothing changes |
| Dashboard.CompleteFromRow | src/components/Rider/WalletDashboard.tsx:646-652 | a row's completion always passes the dashboard's length check: the order is delivered, the counters move, and the row's PIN clears and its dialog closes exactly when the row's PIN had 4 characters; otherwise orders, counters, PIN and dialog stay; wallet, target and loading flag never change |
| Notifications.MarkedRead | src/components/Rider/RiderNotifcation.tsx:72-74 | marking read keeps the length |
| Notifications.Without | src/components/Rider/RiderNotifcation.tsx:96 | filtering never lengthens the list |
| Notifications.CountUnread | src/components/Rider/RiderNotifcation.tsx:104 | the unread count is at most the length; `CountUnreadSingle` and `CountUnreadConcat` make it exactly the number of unread items |
| Notifications.CountUnreadSingle | src/components/Rider/RiderNotifcation.tsx:104 | one item counts 1 when unread and 0 when read |
| Notifications.CountUnreadConcat | src/components/Rider/RiderNotifcation.tsx:104 | the count of a concatenation is the sum of the counts, so the badge counts each unread item once |
| Notifications.UnreadWith | src/components/Rider/RiderNotifcation.tsx:96 | the unread items carrying an id are among the unread items |
| Notifications.MarkedReadAt | src/components/Rider/RiderNotifcation.tsx:72-74 | each item keeps its place, id, title and date, and is read |
| Notifications.NoUnreadIff | src/components/Rider/RiderNotifcation.tsx:104 | the badge is zero iff every item is read |
| Notifications.MarkedReadHasNoUnread | src/components/Rider/RiderNotifcation.tsx:72-74 | after marking all read the badge is zero |
| Notifications.WithoutCounts | src/components/Rider/RiderNotifcation.tsx:96 | deleting removes every occurrence of the id and keeps each other item exactly as often |
| Notifications.WithoutConcat | src/components/Rider/RiderNotifcation.tsx:96 | deleting keeps relative order: it distributes over concatenation |
| Notifications.WithoutAbsent | src/components/Rider/RiderNotifcation.tsx:96 | deleting an id no item carries changes nothing |
| Notifications.WithoutIdempotent | src/components/Rider/RiderNotifcation.tsx:96 | deleting the same id twice is deleting it once |
| Notifications.WithoutUnread | src/components/Rider/RiderNotifcation.tsx:96 | deleting lowers the badge by exactly the unread items carrying the id, so never raises it |
| Notifications.NotificationPanel.constructor | src/components/Rider/RiderNotifcation.tsx:20-22 | empty list, not loading, no error |
| Notifications.NotificationPanel.UnreadCount | src/components/Rider/RiderNotifcation.tsx:104 | at most the list length, zero iff every item is read; it is `CountUnread` of the list, the number of unread items |
| Notifications.NotificationPanel.FetchNotifications | src/components/Rider/RiderNotifcation.tsx:25-55 | no token: nothing happens; OK: the list becomes `docs` or empty; non-2xx and exception keep the list and record their error text |
| Notifications.NotificationPanel.MarkAllAsRead | src/components/Rider/RiderNotifcation.tsx:58-79 | on success every item is read and the badge is zero; on failure the list is unchanged and the error recorded |
| Notifications.NotificationPanel.DeleteNotification | src/components/Rider/RiderNotifcation.tsx:82-101 | on success the id is filtered out and the badge drops by exactly the unread items carrying it; on failure the list is unchanged and the error recorded |
| RiderDocs.OneOrMoreIff | src/components/Rider/RiderVerification.tsx:54 | a whole-string class pattern holds iff the string is non-empty and every character is in the class |
| RiderDocs.ValidateNIN | src/components/Rider/RiderVerification.tsx:53-55 | a valid NIN has 11 characters, the first a digit; `NinIff` gives the exact condition |
| RiderDocs.ValidateBVN | src/components/Rider/RiderVerification.tsx:57-59 | a valid BVN has 11 characters, the first a digit; `BvnIsNinRule` shows it is the NIN rule |
| RiderDocs.NinIff | src/components/Rider/RiderVerification.tsx:53-55 | a NIN is valid iff it is exactly 11 ASCII digits |
| RiderDocs.BvnIsNinRule | src/components/Rider/RiderVerification.tsx:57-59 | the BVN rule is the NIN rule |
| RiderDocs.ToUpper | src/components/Rider/RiderVerification.tsx:62 | upper-casing keeps the length |
| RiderDocs.ToUpperAt | src/components/Rider/RiderVerification.tsx:62 | each character is upper-cased in place |
| RiderDocs.ValidateLicenseNumber | src/components/Rider/RiderVerification.tsx:61-63 | a valid licence number has at least 8 characters; `LicenseIff` gives the exact condition |
| RiderDocs.LicenseIff | src/components/Rider/RiderVerification.tsx:61-63 | a licence number is valid iff it has at least 8 characters, each an ASCII letter of either case or a digit |
| RiderDocs.ToUpperIdempotent | src/components/Rider/RiderVerification.tsx:451 | upper-casing the already upper-cased licence field changes nothing |
| RiderDocs.DigitsOnly | src/components/Rider/RiderVerification.tsx:340 | the filter keeps only digits and never lengthens; `DigitsOnlyCounts` and `DigitsOnlyConcat` show it keeps every digit, in order |
| RiderDocs.SanitizeDigits | src/components/Rider/RiderVerification.tsx:340 | the sanitised input is at most 11 characters, all digits |
| RiderDocs.DigitsOnlyConcat | src/components/Rider/RiderVerification.tsx:340 | each character is kept or dropped on its own: filtering a concatenation concatenates the filtered parts, so the digits keep their order |
| RiderDocs.DigitsOnlyCounts | src/components/Rider/RiderVerification.tsx:340 | each digit occurs in the result exactly as often as in the input, and no other character occurs |
| RiderDocs.DigitsOnlyKeepsDigits | src/components/Rider/RiderVerification.tsx:340 | a string of digits passes the filter unchanged |
| RiderDocs.SanitizeIdempotent | src/components/Rider/RiderVerification.tsx:340 | sanitising twice is sanitising once |
| RiderDocs.NinAfterSanitize | src/components/Rider/RiderVerification.tsx:340 | through the sanitiser, a NIN is valid iff at least 11 digits were typed |
| RiderDocs.UploadError | src/components/Rider/RiderVerification.tsx:70-86 | a file is accepted iff its type is one of the four allowed and its size at most 5 MiB; the type error takes precedence |
| RiderDocs.SizeBoundary | src/components/Rider/RiderVerification.tsx:80 | exactly 5 242 880 bytes is accepted, one byte more is refused |
| RiderDocs.FieldError | src/components/Rider/RiderVerification.tsx:125-149 | an error is never empty text; the two file checks fail exactly when the file is missing; with an unparsable date the expiry check fails exactly when the date is empty |
| RiderDocs.Checked | src/components/Rider/RiderVerification.tsx:123-149 | each check of the submit routine extends the error map by exactly that field's error |
| RiderDocs.CollectErrors | src/components/Rider/RiderVerification.tsx:123-149 | the error map holds exactly the fields whose check fails, each with its message |
| RiderDocs.NoErrorsIff | src/components/Rider/RiderVerification.tsx:125-151 | the map is empty iff valid NIN, empty or valid BVN, valid licence, expiry present and in the future, and both files uploaded |
| RiderDocs.BvnOptional | src/components/Rider/RiderVerification.tsx:129-131 | a BVN error iff the BVN is non-empty and invalid |
| RiderDocs.MissingExpiryFirst | src/components/Rider/RiderVerification.tsx:137-141 | a missing expiry is reported as missing, never as expired |
| RiderDocs.RiderVerificationPage.constructor | src/components/Rider/RiderVerification.tsx:22-38 | empty fields, no files, no errors |
| RiderDocs.RiderVerificationPage.SetNinNumber | src/components/Rider/RiderVerification.tsx:340 | the field holds the sanitised input |
| RiderDocs.RiderVerificationPage.SetBvnNumber | src/components/Rider/RiderVerification.tsx:410 | the field holds the sanitised input |
| RiderDocs.RiderVerificationPage.SetLicenseNumber | src/components/Rider/RiderVerification.tsx:451 | the field holds the input upper-cased |
| RiderDocs.RiderVerificationPage.SetExpiryDate | src/components/Rider/RiderVerification.tsx:469 | the field holds the input |
| RiderDocs.RiderVerificationPage.HandleFileUpload | src/components/Rider/RiderVerification.tsx:66-115 | no file: nothing; a refused file sets only that slot's error and is not kept; an accepted one removes only that slot's error and fills only that slot |
| RiderDocs.RiderVerificationPage.HandleSubmit | src/components/Rider/RiderVerification.tsx:118-216 | errors become exactly the failing fields; since the NIN and BVN fields hold sanitised digits, the NIN fails iff it is not 11 long and the BVN iff it is non-empty and not 11 long; a payload (licence upper-cased) is produced iff there are none; the flag ends down |
| SignUp.HasMinLength | src/components/Auth/RiderSignUpForm.tsx:45 | `/.{6,}/` needs at least 6 characters; `MinLengthSingleLine` gives the exact condition on a single line |
| SignUp.HasUppercase | src/components/Auth/RiderSignUpForm.tsx:46 | `/[A-Z]/`: some character of the password is an ASCII capital |
| SignUp.HasLowercase | src/components/Auth/RiderSignUpForm.tsx:47 | `/[a-z]/`: some character is an ASCII small letter |
| SignUp.HasNumeric | src/components/Auth/RiderSignUpForm.tsx:48 | `/\d/`: some character is an ASCII digit |
| SignUp.HasSpecialChar | src/components/Auth/RiderSignUpForm.tsx:49 | some character is one of `!@#$%^&*(),.?":{}\|<>` |
| SignUp.ValidatePassword | src/components/Auth/RiderSignUpForm.tsx:52-62 | the empty password meets no criterion, and the length criterion needs at least 6 characters |
| SignUp.AllMet | src/components/Auth/RiderSignUpForm.tsx:90 | `!Object.values(criteria).includes(false)`: all five criteria hold |
| SignUp.MinLengthSingleLine | src/components/Auth/RiderSignUpForm.tsx:45 | on a password without line breaks the length criterion is "at least 6 characters" |
| SignUp.LineBreakSplitsRun | src/components/Auth/RiderSignUpForm.tsx:45 | a line break splits the run: two runs of five characters do not meet the length criterion |
| SignUp.AbcOnlyLowercase | src/components/Auth/RiderSignUpForm.tsx:44-59 | "abc" meets the lowercase criterion only and is refused |
| SignUp.StrongExample | src/components/Auth/RiderSignUpForm.tsx:44-59 | a password with all five kinds of character meets every criterion |
| SignUp.SignUpForm.constructor | src/components/Auth/RiderSignUpForm.tsx:27-42 | the six fields empty or unticked, no criterion met |
| SignUp.SignUpForm.HandleChange | src/components/Auth/RiderSignUpForm.tsx:64-75 | a checkbox stores its checked state and any other input its text, under its name only; criteria are recomputed iff the field is the password, and always describe the password field |
| SignUp.SignUpForm.HandleSubmit | src/components/Auth/RiderSignUpForm.tsx:77-130 | sent iff terms are ticked and the password meets all criteria, the terms check first; success stores email and the rider verification route and goes to the code page; failures toast and store nothing |
| SignIn.Display | src/components/Auth/SignInForm.tsx:13-34 | the message box shows a message iff it is visible and non-empty, in its kind's style |
| SignIn.RequiredFieldMessage | src/components/Auth/SignInForm.tsx:83-89 | an empty email is reported first, even when the password is also empty; then an empty password; none iff both are filled |
| SignIn.SignInForm.constructor | src/components/Auth/SignInForm.tsx:37-50 | empty fields, hidden message, no session |
| SignIn.SignInForm.SetEmail | src/components/Auth/SignInForm.tsx:71-77 | the email field holds the input |
| SignIn.SignInForm.SetPassword | src/components/Auth/SignInForm.tsx:71-77 | the password field holds the input |
| SignIn.SignInForm.ShowMessage | src/components/Auth/SignInForm.tsx:53-59 | text and kind set and visible; it renders iff the text is non-empty |
| SignIn.SignInForm.HideMessage | src/components/Auth/SignInForm.tsx:61-69 | only visibility drops, text and kind kept; nothing renders |
| SignIn.SignInForm.HandleSubmit | src/components/Auth/SignInForm.tsx:79-116 | a missing field gives its message and no request; success stores `user_data` and logs in with the reply's user and tokens; failures give `error` or the fixed texts; a message is always shown |
| OtpVerification.RouteAfterVerify | src/components/Auth/VerificationForm.tsx:85-91 | riders go to document upload, everyone else to the page's route |
| OtpVerification.VerificationForm.constructor | src/components/Auth/VerificationForm.tsx:32-38 | the route is the stored `next-route`, or the home page when none or an empty one is stored; the email is the stored one, if any |
| OtpVerification.VerificationForm.SetCode | src/components/Auth/VerificationForm.tsx:170 | the code field holds the input |
| OtpVerification.VerificationForm.HandleVerification | src/components/Auth/VerificationForm.tsx:40-69 | no effect unless 6 characters and nothing in flight; on the create-password route the code is stored, no request is sent and the page heads there; otherwise `{otp, email}` is sent and the flag is up |
| OtpVerification.VerificationForm.ReceiveVerification | src/components/Auth/VerificationForm.tsx:71-107 | success writes `user_data`, `access_token`, `reset-password-otp`, removes `v-email-auth` and routes by role; failure only shows `error` or the fixed text; the flag drops |
| OtpVerification.VerificationForm.HandleResendOtp | src/components/Auth/VerificationForm.tsx:111-125 | no email: nothing happens; otherwise a resend for it is in flight |
| OtpVerification.VerificationForm.ReceiveResend | src/components/Auth/VerificationForm.tsx:126-149 | the outcome's message and the flag drops |
| OtpVerification.VerificationForm.ClickResend | src/components/Auth/VerificationForm.tsx:183-190 | the native button is ignored while a request is in flight; otherwise the click is `handleResendOtp`: nothing without an email, else the resend call for the email goes out, becomes pending and the message hides |
| OtpVerification.VerificationForm.ClickVerify | src/components/Auth/VerificationForm.tsx:199-203 | the click always reaches the handler (see src/components/ui/custom/button.tsx:8-23, which drops `disabled`); a short code or a request in flight changes nothing; on the create-password route the code is stored under `reset-password-otp`, the reset text shows and the page heads there; otherwise the verify call for `(code, email)` goes out, becomes pending and the message hides |
| ForgotPassword.SplitHasShape | src/components/Auth/ForgotPasswordEmail.tsx:26 | a regex match has the stated shape |
| ForgotPassword.ShapeHasSplit | src/components/Auth/ForgotPasswordEmail.tsx:26 | a string of that shape matches, with `@` and `.` where the shape puts them |
| ForgotPassword.ValidateEmail | src/components/Auth/ForgotPasswordEmail.tsx:25-28 | a match has at least 5 characters and contains an `@`; `EmailIff` gives the exact shape |
| ForgotPassword.EmailIff | src/components/Auth/ForgotPasswordEmail.tsx:25-28 | the regex accepts exactly: no whitespace, exactly one `@` not first, and a `.` strictly inside the part after it |
| ForgotPassword.EmailExamples | src/components/Auth/ForgotPasswordEmail.tsx:25-28 | an ordinary address passes; one with two `@` fails |
| ForgotPassword.ForgotPasswordForm.constructor | src/components/Auth/ForgotPasswordEmail.tsx:12-23 | empty email, hidden message |
| ForgotPassword.ForgotPasswordForm.SetEmail | src/components/Auth/ForgotPasswordEmail.tsx:30-36 | the email field holds the input |
| ForgotPassword.ForgotPasswordForm.HandleSubmit | src/components/Auth/ForgotPasswordEmail.tsx:38-93 | sent iff the address has the email shape; success stores the email and the create-password route and heads for the code page; failures show `message` or the fixed texts and store nothing |
| ResetPassword.RejectionText | src/components/Auth/ResetPasswordForm.tsx:89 | `error`, else `message`, else an empty text that shows nothing |
| ResetPassword.SubmitBlock | src/components/Auth/ResetPasswordForm.tsx:42-58 | blocked iff a field is empty or the two passwords differ; the required-fields message takes precedence over the mismatch |
| ResetPassword.ResetPasswordForm.constructor | src/components/Auth/ResetPasswordForm.tsx:27-37 | the stored code is picked up; without one the code stays absent and an error is shown |
| ResetPassword.ResetPasswordForm.SetPassword | src/components/Auth/ResetPasswordForm.tsx:121 | the field holds the input |
| ResetPassword.ResetPasswordForm.SetConfirmPassword | src/components/Auth/ResetPasswordForm.tsx:127 | the field holds the input |
| ResetPassword.ResetPasswordForm.HandleSubmit | src/components/Auth/ResetPasswordForm.tsx:39-104 | sent iff no guard blocks, carrying exactly `{otp, password}`; success removes `reset-password-otp` and heads for sign-in; failures show their text and store nothing |
| ResetFlow.RequestAndEnterCode | src/components/Auth/VerificationForm.tsx:48-60 | after the forgot-password page succeeds, the code page sends nothing, stores the code and heads for create-password, and that page finds the code |
| ResetFlow.ShortCodeStaysPut | src/components/Auth/VerificationForm.tsx:41 | a short code on that route sends nothing, stores nothing and stays put; the create-password page then finds no code |
| SignUpFlow.Register | src/components/Auth/RiderSignUpForm.tsx:110-113 | a valid registration leaves the email and the rider verification route in storage |
| SignUpFlow.VerifyAfterRegister | src/components/Auth/VerificationForm.tsx:73-91 | on that storage the code goes out with the registered email, and success leads to document upload whatever the role |
| SignUpFlow.RegisterAndVerify | src/components/Auth/VerificationForm.tsx:85-91 | registration then verification ends at document upload, with the email forgotten |

## Left out

- HTTP itself: methods, headers, status codes and JSON parsing are not modelled. A reply is one of OK with a body, non-2xx with a body, or an exception; an unparsable body counts as an exception.
- Router navigation and `setTimeout`. The redirect target is recorded and the delayed effects (redirects, the removal of `reset-password-otp`, the four-second auto-hide) are applied at once or, for the auto-hide, as `HideMessage`; timing and cancellation on unmount are not modelled.
- Concurrency between callbacks: stale closures, fetches resolving out of order, and React batching are not modelled. Each handler runs to completion on the state it sees, except the verification page's two requests, which are split into start and receive.
- `new Date()` and date parsing: the current time and the parsed expiry date are parameters in milliseconds; an unparsable date is `None`. The overdue check uses real arithmetic instead of floating point.
- Dashboard.WalletFrom: wallet amounts are whole numbers (`int`), where the source's `number` can carry kobo. The `||` fallbacks decide the same way on fractional amounts, so only the representable values are narrower.
- Display arithmetic: the target progress percentage, `toFixed`, `Intl.NumberFormat` and `parseInt(order.cost)`.
- JavaScript's full Unicode semantics: `toUpperCase` is ASCII upper-casing, and `\d`, `[A-Z0-9]` and `[a-z]` are ASCII classes. `\s` is spelled out as JavaScript's whitespace set.
- `FileReader` previews, the mock 2-second delay and the mocked verification status on the rider verification page; the commented-out backend call there is not modelled.
- The dashboard's mocked verification record and the console logging.
- `InputOTP` behaviour: when its `onComplete` fires. `HandleVerification` is the handler it calls.
- Missing fields in a reply read as `undefined`: a missing `data.user` on verification throws inside a timer, and a missing `accessToken` is stored as the text "undefined". The model gives the reply body these fields as plain strings.
- utils/helper.ts (a Cloudinary upload stream), src/context/SocketIOContext.tsx (a socket connection), src/components/Rider/RiderOrder.tsx (fetch plumbing), src/components/Auth/TermsandPolicy.tsx (static text), the page wrappers and the other presentational components are not part of this model.
- The session store's `login` is recorded as the session it receives, not executed.
- OtpVerification.VerificationForm.HandleResendOtp: requires that no request is in flight. Its only caller is the Resend button, which the browser disables while one is; `ClickResend` models that button.
- Dashboard.DashboardRowActions: stated for rows rendered by the dashboard, which always passes both handlers.
- String lengths are counted in Unicode scalar values, not in UTF-16 code units as JavaScript's `.length`, `slice` and `.` count them. A character outside the Basic Multilingual Plane counts once in the model and twice in the browser. So the PIN length check and `slice(0, 4)` (WalletDashboard.tsx:381, 464, 530), the code length check (VerificationForm.tsx:41), `/.{6,}/` (RiderSignUpForm.tsx:45), the NIN/BVN/licence lengths and the digit filter's `slice(0, 11)` can decide differently for such input. For example, "12" followed by an emoji is a 4-character PIN in the browser and 3 characters here.
- Order penalties: `penaltyApplied` and `penaltyAmount` are optional fields of `Order`, and the transitions keep them, but no rule reads them because the dashboard does not. Fields a reply carries beyond the order interface are not modelled, although the source's spread would keep them.
- Dashboard.OrderItem: `order` is a constant. The React row receives a new `order` prop after the dashboard rewrites the list (a pending row becoming an accepted one); the model builds a new row for the new order instead, and the PIN state carried across that re-render is not modelled.
