# Account creation and login screens of the ynab mobile app, in Dafny

The app is a React Native front end for a personal-finance backend. This
project models the two screens whose code makes decisions of its own:

- **Account creation** (`app/create_account.tsx`). There is a five-field form
  and a field updater (`handleInputChange`). `validateForm` runs four checks
  in a fixed order and reports the first one that fails. `createAccount` turns
  the `create_user` response into an alert and a navigation.
- **Login** (`app/login.tsx`). `loginUser` refuses empty credentials. It then
  classifies the `login` response. A verified user has the API key and the
  username stored, and two flags set. An effect turns the two flags into a
  route.

Files:

- `ui.dfy` (module `Ui`): the values the screens exchange with the outside
  world. An `Alert` stands for one `Alert.alert` call and a `Request` for one
  `fetch` call. An `HttpResult` is what the awaited `fetch` and
  `response.json()` delivered.
- `patterns.dfy` (module `Patterns`): the email regex
  `^[^\s@]+@[^\s@]+\.[^\s@]+$` and the mobile regex `^\d{10}$` as predicates.
  `EmailPattern` states the regex's own semantics: some split of the string
  into the three runs. `IsValidEmail` states the same rule on characters.
  `MatchEmail` and `MatchMobile` are scanning matchers proved equal to them.
  `\s` is the WhiteSpace set of section 12.2 of ECMA-262 plus the
  LineTerminator set of section 12.3.
- `create_account.dfy` (module `CreateAccount`): the form, `SetField`, the
  ordered validation, and the `CreateAccountScreen` class.
- `login.dfy` (module `Login`): the credential gate, the response
  classification, the route decision, and the `LoginScreen` class.

Each async handler is split at its `await` into two methods:

- `Begin…` runs up to the request. It returns the request it would send, or
  `None` when it sends nothing.
- `Finish…` runs the continuation with the response as input, including the
  `finally`.

`loading` is the class field in between, so "the spinner is shown while the
request is in flight" is the state between the two calls. While `loading`
is true both screens render only a spinner (app/login.tsx:164-175,
app/create_account.tsx:255-266). So the input handlers and the `Begin…`
methods require `loading` to be false, and each `Finish…` call follows exactly
one request. Storage writes
change the `storage` map field. Routes and alerts are returned values.

`FinishLogin` also runs the route effect of `app/login.tsx:78-92`. React runs
that effect only when `isUserVerified` or `isBankAccountLinked` changed. The
flags may be committed in one render (React 18 batching) or in two (React 17).
In both cases the last run of the effect sees the final pair, and an
intermediate run has `isUserVerified` false and goes nowhere. So the model
applies `RouteFor` once, to the final pair, and only when the pair changed.

Characters: Dafny's `char` is a Unicode scalar value. The source's regexes
have no `u` flag, so they work on UTF-16 code units. A character outside the
Basic Multilingual Plane becomes two surrogate units. No surrogate unit is
white space, `@`, `.` or a digit. So the two views agree on every string a
Dafny `string` can represent. A JavaScript string holding an unpaired
surrogate has no Dafny counterpart.

`Login.ExampleLogin` is a usage example. It mounts a screen, types
credentials, signs in with a verified response, and asserts the stored values
and the route that follow from the contracts alone.

## Model

| member | source | states |
|---|---|---|
| `Patterns.EmailPatternIff` | app/create_account.tsx:200-204 | The email regex accepts a string exactly when it has no `\s` character, exactly one `@` with something before it, and a `.` inside the part after the `@` with at least one character on each side. Both directions. |
| `Patterns.MatchEmail` | app/create_account.tsx:200-201 | A scan for white space and the `@`, then a scan of the domain for an inner `.`, returns true exactly when the character rule holds, and so exactly when the regex matches. |
| `Patterns.MatchMobile` | app/create_account.tsx:206-207 | A scan returns true exactly when the string has 10 characters and each one is an ASCII digit. |
| `CreateAccount.SetField` | app/create_account.tsx:180-185 | The updated form holds the new value in the chosen field. Every other field keeps its old value. |
| `CreateAccount.SetFieldOverwrites` | app/create_account.tsx:180-185 | Two updates of the same field leave only the second value. |
| `CreateAccount.SetFieldCommutes` | app/create_account.tsx:180-185 | Updates of two different fields give the same form in either order. |
| `CreateAccount.FirstFailure` | app/create_account.tsx:187-213 | Reference definition of ordered checks. The result is Accepted exactly when no check in the list fails. Otherwise the reported check fails and every check before it in the list passes. |
| `CreateAccount.ValidateForm` | app/create_account.tsx:187-213 | The early-return chain equals FirstFailure over the order required, match, email, mobile. It accepts exactly when none of the four checks fails. |
| `CreateAccount.MissingFieldWins` | app/create_account.tsx:190-193 | An empty username, password, email or mobile number is reported as "Please fill in all fields", whatever the other fields hold. |
| `CreateAccount.MismatchBeforeFormat` | app/create_account.tsx:195-198 | With the four required fields present, a confirmation that differs from the password is reported as "Passwords do not match", before the email and mobile rules. |
| `CreateAccount.AcceptedIff` | app/create_account.tsx:187-213 | A form is accepted exactly when the four fields are non-empty, the confirmation equals the password, the email regex matches and the mobile regex matches. |
| `CreateAccount.CreateOutcome` | app/create_account.tsx:233-249 | Message "user_created" on an ok response pushes `/login` with the success alert. Any other message goes back with the failure alert. A non-ok status, a body that does not decode, or a failed fetch shows the failure alert and does not navigate. |
| `CreateAccount.CreateAccountScreen.constructor` | app/create_account.tsx:88-96 | A new screen has an empty form and is not loading. |
| `CreateAccount.CreateAccountScreen.HandleInputChange` | app/create_account.tsx:180-185 | The form becomes SetField of the old form, so only the edited field changes. |
| `CreateAccount.CreateAccountScreen.BeginCreateAccount` | app/create_account.tsx:215-231 | A rejected form shows the first error's alert, sends no request and leaves `loading` alone. An accepted form sets `loading` and sends the `create_user` POST with the form in its headers. |
| `CreateAccount.CreateAccountScreen.FinishCreateAccount` | app/create_account.tsx:233-252 | The alert and navigation are CreateOutcome of the response, and `loading` is false afterwards in every case. |
| `Login.CheckCredentials` | app/login.tsx:120-124 | The gate refuses exactly when the username or the password is empty, and it then shows the "Invalid Input" alert. |
| `Login.Classify` | app/login.tsx:137-155 | A non-ok status, an undecodable body or a failed fetch is a failure. Message "user_verified" is a verification carrying the response's API key and linked flag. Any other message is neither. |
| `Login.RouteFor` | app/login.tsx:78-92 | There is a route exactly when the user is verified. The route is `/dashboard` exactly when the account is linked and `/link_account` exactly when it is not. It carries the username. |
| `Login.LoginScreen.constructor` | app/login.tsx:36-42 | A new screen has empty credentials, both flags false, is not loading, keeps the store it was given, and its route effect goes nowhere. |
| `Login.LoginScreen.SetUsername` | app/login.tsx:234 | The username field becomes the typed value. |
| `Login.LoginScreen.SetPassword` | app/login.tsx:246 | The password field becomes the typed value. |
| `Login.LoginScreen.BeginLogin` | app/login.tsx:119-135 | Empty credentials produce the gate's alert, no request, and `loading` unchanged. Otherwise `loading` is set and the `login` POST is sent with the credentials in its headers. |
| `Login.LoginScreen.FinishLogin` | app/login.tsx:126-161 | A verification stores `api_key` and `username` and sets `isUserVerified` and `isBankAccountLinked` to the response's flag. Any other message changes nothing. A failure changes nothing and shows "Authentication Failed". `loading` is false afterwards. The route fires only if a flag changed. From an unverified screen, it fires exactly when the response was a verification. The invariant "linked implies verified, and verified implies both keys are stored" is kept. |

## Left out

- Styling, `StyleSheet.create` blocks, the fade, slide and shake animations,
  keyboard listeners and web focus handlers: presentation only, with no
  behaviour to verify.
- The password visibility toggles and the "back" / "sign in instead" buttons:
  each is a one-line view toggle or router call.
- `fetch`, `response.json()`, `AsyncStorage` and `expo-router` are I/O. The
  response is an input value. Storage writes change a map field. Routes and
  alerts are returned values. `AsyncStorage.setItem` is not awaited in the
  source. The model applies its writes at once, in source order.
- JSON fields with a type other than the declared one (a missing `message`,
  a non-boolean `user_account_linked`) are not modelled. The bodies are typed
  records, and a body that does not decode is `None`.
- The `status` in the thrown error text and the `console.error` logging:
  they only affect the log.
- `maxLength={10}` on the mobile input (app/create_account.tsx:327) limits
  what can be typed. The model lets `SetField` take any string, and the
  mobile regex rejects longer ones anyway.
- `app/link_account.tsx`, `app/index.tsx`, `app/_layout.tsx`, the tab and
  app screens and the `interfaces/` type declarations are not part of this
  model. They hold layout, routes, a fetch wrapper, a constant logo table
  and type declarations, with no decision logic of their own.
