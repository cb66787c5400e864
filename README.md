# Registration client: session bootstrap, route gate and registration form

A Dafny model of the two pieces of sequential logic in a small React client
that lets a visitor register, log in and view a profile:

- **The application shell** (`src/app.js`, module `Session` in `app.dfy`).
  The shell holds the `user` state (`{isLoggedIn, data}`) and an `isLoading`
  flag. When it mounts it runs a one-time bootstrap. If the cookie string
  contains `x_access_token`, the bootstrap probes `GET /api/me`. It then
  stores what the probe said about the user and stops loading. While loading,
  the shell renders only a loader. Otherwise it renders the first route of its
  switch that matches the path. The class `Session.App` keeps the state and a
  ghost history of every setter call. Its invariant is that the state is
  always the replay of that history from the initial state. The bootstrap
  method is proved against `BootstrapUpdates`, the list of setter calls each
  branch makes.
- **The registration form** (`src/pages/registration/components/registration-form.js`,
  module `Registration` in `registration_form.dfy`).
  - `validateForm` checks name, email, mobile number and password in a fixed order.
  - `resetErrors` and `handleFormChange` are record updates.
  - The submit handler posts the form and reacts to four outcomes: local
    validation failure, success, a resolved envelope without `success`, and
    rejection.
  - The pure function `Submit` states the whole transition.
  - The class `Registration.RegistrationForm` performs it step by step and is
    proved equal to `Submit`.
  - The user the form logs in is the shell's user, reached through the
    context, so `setUser` is `Session.App.SetUser`.

The three validators imported from the utilities module (`isEmpty`,
`isValidEmailId`, `isValidMobileNumber`) are not part of this model. They are
kept abstract as the three function fields of `Common.Validators`, so every
property below holds for any definition of them. `isEmpty` applied to the
errors object is a separate predicate, `Registration.NoErrorKeys`: the object
has no keys.

Network results are inputs:
- `Session.ProbeOutcome` is the session probe's result, resolved or rejected.
- `Registration.RegisterResponse` is the registration request's result:
  `Resolved(success, data)` or `Rejected(body)`.

The catch block of the submit handler reads `error.response.data` and then
`data.errors` without guards. A rejection without a response body, or whose
body has no `data`, therefore throws inside the catch block. The model does
not invent a fallback for this: it is the outcome `Crashed`. By then
`isLoading` is already false, and the banner is unchanged.

Behaviour of the code worth noting:
- The route gate does not enforce authentication. `/` and `/profile` select
  the profile page whether or not the user is logged in. `Render` does not take
  the user at all.
- A malformed rejection body crashes the handler. It does not degrade to a
  generic banner.
- A registration response that resolves with `success` false leaves the loader
  up. It does not return to editing.
- A resolved probe stores `{isLoggedIn: success, data}` verbatim. The data is
  kept even when `success` is false.

## Model

| member | source | states |
|---|---|---|
| `Session.IncludesIff` | src/app.js:20 | The cookie test `Includes(s, t)` holds exactly when `t` occurs at some position of `s`. |
| `Session.BootstrapUpdates` | src/app.js:19-40 | In every branch the bootstrap sets `isLoading` exactly once, to false, as its last setter call and after every `user` update. Without the session cookie it makes no other call, so no probe and no user update happen. |
| `Session.BootstrapOutcome` | src/app.js:20-39 | Without the cookie the user is unchanged. A resolved probe stores exactly `{isLoggedIn: success, data}`. A rejected probe resets the user to `{false, {}}`. Loading ends in all three branches. |
| `Session.ReplayAppend` | src/app.js:24-38 | Applying setter calls in sequence composes: replaying `a + b` is replaying `b` after `a`. |
| `Session.UserSetsKeepLoading` | src/app.js:24-27 | Setter calls that update only `user` leave `isLoading` as it was. |
| `Session.LoaderUntilResolved` | src/app.js:19-47 | Before the bootstrap's last setter call the shell is still loading and renders only the loader, whatever the path. |
| `Session.FirstMatch` | src/app.js:50-57 | The switch selects a matching route with no matching route before it. It selects none only when no route matches. |
| `Session.Render` | src/app.js:46-57 | While loading, only the loader is rendered, whatever the path. Once loaded, the view is that of the first matching route, never the loader. |
| `Session.Shadowed` | src/app.js:50-57 | A route that an earlier route covers on a path is never selected for that path. |
| `Session.LoginRootRouteUnreachable` | src/app.js:51-53 | The second exact `/` route (Login) is never selected for any path. |
| `Session.RenderTable` | src/app.js:50-57 | Once loaded: `/` and paths at or under `/profile` select Profile, then `/login` selects Login, then `/register` selects Registration, and every other path selects Page404. |
| `Session.App.constructor` | src/app.js:13-17 | The initial state is `user = {isLoggedIn: false, data: {}}` with `isLoading` true and no setter calls yet. |
| `Session.App.SetUser` | src/app.js:13 | `setUser` replaces the user, keeps `isLoading`, and records the call, which preserves the replay invariant. |
| `Session.App.SetIsLoading` | src/app.js:17 | `setIsLoading` replaces the flag, keeps the user, and records the call, which preserves the replay invariant. |
| `Session.App.Bootstrap` | src/app.js:19-40 | The effect makes exactly the calls of `BootstrapUpdates`, ends not loading, and leaves the user as `BootstrapOutcome` describes. |
| `Session.App.View` | src/app.js:42-60 | The shell renders the loader exactly when it is loading. |
| `Registration.AllEntriesAgree` | src/pages/registration/components/registration-form.js:34-58 | The errors object built by conditional assignment has an entry exactly for each failing field. Each entry holds that field's fixed message. The mobile number's "required" message takes precedence over its "format" message. The object has no keys exactly when every field passes. |
| `Registration.ValidateForm` | src/pages/registration/components/registration-form.js:34-59 | It reports no errors exactly when the name is non-empty, the email is valid, the mobile number is non-empty and valid, and the password is non-empty. Otherwise the errors object is non-empty and has keys only for failing fields, each with its fixed message. An empty mobile number always gets 'Please enter Mobile Number'. |
| `Registration.ValidationReadsValuesOnly` | src/pages/registration/components/registration-form.js:34-58 | Validation depends only on the four field values, never on the error texts. |
| `Registration.ClearErrors` | src/pages/registration/components/registration-form.js:61-69 | `resetErrors` sets all four error texts to '' and keeps all four values. |
| `Registration.UpdateField` | src/pages/registration/components/registration-form.js:71-74 | `handleFormChange` sets exactly the named field to the new value. Every other value and every error text is unchanged. |
| `Registration.MergeErrors` | src/pages/registration/components/registration-form.js:95-98 | `{...form, ...errors}` replaces the error text of each entry in `errors`. Every other error text and every value is kept. |
| `Registration.BannerVisible` | src/pages/registration/components/registration-form.js:116 | The banner is shown exactly when it has a title or a message, that is, when it differs from the empty banner. |
| `Registration.RejectionBanner` | src/pages/registration/components/registration-form.js:100-107 | The catch block throws exactly when the rejection has no body or the body has no `data`. Otherwise the banner's title is the body's `message`, and its messages are `data.errors`, or [] when absent. |
| `Registration.RejectionBannerShown` | src/pages/registration/components/registration-form.js:102-116 | After a rejection with a usable body, the banner shows exactly when the message is non-empty or the errors list is present and non-empty. |
| `Registration.Submit` | src/pages/registration/components/registration-form.js:76-108 | A locally invalid submit makes no request and ends not loading. It merges the errors into the form, so fields that now pass keep their previous error text. A valid submit posts the form as clicked and clears every error text. Success logs the user in with the response data, ends loading and navigates to '/profile'. A resolved envelope without `success` leaves the user, the banner and the navigation as they were, and loading stays true. A rejection ends loading and either shows the body's banner or throws, leaving the banner as it was. Only success changes the user or navigates. |
| `Registration.RegisteredLandsOnProfile` | src/pages/registration/components/registration-form.js:84-91 | After a successful registration, the navigation target renders the profile page once the shell has loaded. |
| `Registration.ResubmitInvalidIsStable` | src/pages/registration/components/registration-form.js:93-99 | Submitting an invalid form a second time, without typing in between, changes nothing further. |
| `Registration.RegistrationForm.constructor` | src/pages/registration/components/registration-form.js:14-28 | The page mounts with an empty form, an empty banner and `isLoading` false. |
| `Registration.RegistrationForm.HandleFormChange` | src/pages/registration/components/registration-form.js:71-74 | The form becomes `UpdateField` of the old form. Nothing else changes. |
| `Registration.RegistrationForm.ResetErrors` | src/pages/registration/components/registration-form.js:61-69 | The form becomes `ClearErrors` of the old form. Nothing else changes. |
| `Registration.RegistrationForm.HandleFormSubmit` | src/pages/registration/components/registration-form.js:76-108 | The page's state and the shell's user after the handler are exactly what `Submit` gives, and so is the outcome. The shell's invariant and its loading flag are preserved. The shell's setter history gains exactly one `setUser` call, with `{isLoggedIn: true, data}`, on success, and no call otherwise. |

## Left out

- HTTP requests, the API host and credentials: network I/O. Each request's
  result is an input value. The registration request is recorded only as the
  ghost list of posted forms.
- `document.cookie`: the cookie string is an input, and the check is a
  substring test.
- JSX markup, the text field, button and loader components, and the wiring of
  the user context provider: presentation and framework plumbing.
- React hook semantics. Setter calls are sequential updates in source order.
  Batching, re-rendering and `useEffect` scheduling are not modelled. The
  handler reads `form` from its closure, so the posted body is the form as it
  was at the click, with its old error texts. The model records exactly that.
- The router: matching is simplified to exact equality for `exact` routes and
  to "equal, or extending the route path at a '/'" for the others. Case
  folding, trailing slashes and `history.push` are not modelled, and the push
  is recorded as the navigation target.
- The bodies of `isEmpty`, `isValidEmailId` and `isValidMobileNumber`: they
  are not part of this model and are kept abstract.
- `Registration.NoErrorKeys`: `isEmpty` on the errors object is taken to mean
  "has no keys", its evident meaning for an object.
- `Registration.UpdateField`: only the four field names the page's text
  fields emit are modelled. The source's computed key `[field]` would accept
  any name.
- Response payloads (`data`) are carried opaquely as a map of strings.
  JSON structure is not modelled.
- `success` is taken to be a boolean. JavaScript truthiness of other values
  is not modelled.
- A rejection body whose `message` is missing is not modelled. The title would
  be undefined, and rendering would throw when there are no messages.
- A registration response that resolves without a body throws when
  destructured, inside the `try`. Its catch block then finds no
  `error.response`. This ends the same way as `Rejected(None)`, and the model
  uses that input for it.
- After a throw in the catch block, what happens next (an unhandled promise
  rejection) is not modelled. The model records the outcome `Crashed` and the
  state at that point.
- Double submission while a request is in flight, and updates after the page
  unmounts: concurrency. The source has no guard for either.
