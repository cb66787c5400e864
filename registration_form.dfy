/** The registration page's form: local validation of the four fields, the
    record updates made on typing and before submitting, and the submit
    handler that posts the form and reacts to the four ways it can end. */
module Registration {
  import opened Common
  import Session

  /** The four input fields, by the `name` attribute of their text fields. */
  datatype Field = Name | Email | MobileNumber | Password

  /** The four error entries of the form, one per field. */
  datatype ErrorKey = NameError | EmailError | MobileNumberError | PasswordError

  /** The `form` state: each field's value next to its error text. */
  datatype Form = Form(
    name: string, nameError: string,
    email: string, emailError: string,
    mobileNumber: string, mobileNumberError: string,
    password: string, passwordError: string)

  const EmptyForm: Form := Form("", "", "", "", "", "", "", "")

  function Value(f: Form, field: Field): string
  {
    match field
    case Name => f.name
    case Email => f.email
    case MobileNumber => f.mobileNumber
    case Password => f.password
  }

  function ErrorText(f: Form, k: ErrorKey): string
  {
    match k
    case NameError => f.nameError
    case EmailError => f.emailError
    case MobileNumberError => f.mobileNumberError
    case PasswordError => f.passwordError
  }

  const NameRequired: string := "Please enter Name"
  const EmailInvalid: string := "Please enter valid Email"
  const MobileRequired: string := "Please enter Mobile Number"
  const MobileInvalid: string := "Please enter valid Mobile Number"
  const PasswordRequired: string := "Please enter Password"

  /** The verdict on one entry, field by field: the message it gets, if any.
      The mobile number is reported as missing before its format is checked,
      and never both. */
  function FieldError(v: Validators, f: Form, k: ErrorKey): Option<string>
  {
    match k
    case NameError => if v.isEmpty(f.name) then Some(NameRequired) else None
    case EmailError => if !v.isValidEmailId(f.email) then Some(EmailInvalid) else None
    case MobileNumberError =>
      if v.isEmpty(f.mobileNumber) then Some(MobileRequired)
      else if !v.isValidMobileNumber(f.mobileNumber) then Some(MobileInvalid)
      else None
    case PasswordError => if v.isEmpty(f.password) then Some(PasswordRequired) else None
  }

  /** The result of `validateForm`: `false`, or the errors object. */
  datatype Validation = NoErrors | Invalid(errors: map<ErrorKey, string>)

  /** `isEmpty` applied to the errors object: it has no keys. */
  predicate NoErrorKeys(errors: map<ErrorKey, string>)
  {
    |errors| == 0
  }

  /** The errors object `validateForm` builds: checks name, email, mobile
      number and password in that order, adding a key for each failing entry;
      the format of the mobile number is checked only when no entry for it
      has been added yet. */
  function CollectErrors(v: Validators, f: Form): map<ErrorKey, string>
  {
    var e0: map<ErrorKey, string> := map[];
    var e1 := if v.isEmpty(f.name) then e0[NameError := NameRequired] else e0;
    var e2 := if !v.isValidEmailId(f.email) then e1[EmailError := EmailInvalid] else e1;
    var e3 := if v.isEmpty(f.mobileNumber) then e2[MobileNumberError := MobileRequired] else e2;
    var e4 := if MobileNumberError !in e3 && !v.isValidMobileNumber(f.mobileNumber)
              then e3[MobileNumberError := MobileInvalid] else e3;
    if v.isEmpty(f.password) then e4[PasswordError := PasswordRequired] else e4
  }

  /** `validateForm`. It reports no errors exactly when every field passes;
      otherwise exactly the failing entries are present, each with its fixed
      message, and a missing mobile number is reported as missing even when
      its format would also fail. */
  function ValidateForm(v: Validators, f: Form): (r: Validation)
    ensures r.NoErrors? <==>
      !v.isEmpty(f.name) && v.isValidEmailId(f.email) &&
      !v.isEmpty(f.mobileNumber) && v.isValidMobileNumber(f.mobileNumber) &&
      !v.isEmpty(f.password)
    ensures r.Invalid? ==> |r.errors| > 0
    ensures r.Invalid? ==> forall k :: k in r.errors <==> FieldError(v, f, k).Some?
    ensures r.Invalid? ==> forall k :: k in r.errors ==> r.errors[k] == FieldError(v, f, k).value
    ensures v.isEmpty(f.mobileNumber) ==>
      r.Invalid? && MobileNumberError in r.errors && r.errors[MobileNumberError] == MobileRequired
  {
    var errors := CollectErrors(v, f);
    AllEntriesAgree(v, f);
    if NoErrorKeys(errors) then NoErrors else Invalid(errors)
  }

  /** The sequentially built errors object agrees, entry by entry, with the
      field-by-field verdict: an entry is present exactly when its field
      fails, and then holds that field's message; so the object has no keys
      exactly when every field passes. */
  lemma AllEntriesAgree(v: Validators, f: Form)
    ensures forall k :: k in CollectErrors(v, f) <==> FieldError(v, f, k).Some?
    ensures forall k :: k in CollectErrors(v, f) ==> CollectErrors(v, f)[k] == FieldError(v, f, k).value
    ensures NoErrorKeys(CollectErrors(v, f)) <==> forall k :: FieldError(v, f, k).None?
  {
  }

  /** Validation looks only at the four values, never at the error texts. */
  lemma ValidationReadsValuesOnly(v: Validators, f: Form, g: Form)
    requires forall field :: Value(f, field) == Value(g, field)
    ensures ValidateForm(v, f) == ValidateForm(v, g)
  {
    assert Value(f, Name) == Value(g, Name) && Value(f, Email) == Value(g, Email);
    assert Value(f, MobileNumber) == Value(g, MobileNumber) && Value(f, Password) == Value(g, Password);
  }

  /** `resetErrors`: every error text becomes '' and every value is kept. */
  function ClearErrors(f: Form): (r: Form)
    ensures forall k :: ErrorText(r, k) == ""
    ensures forall field :: Value(r, field) == Value(f, field)
  {
    f.(nameError := "", emailError := "", mobileNumberError := "", passwordError := "")
  }

  /** `handleFormChange`: the named field takes the new value; every other
      value and every error text is unchanged. */
  function UpdateField(f: Form, field: Field, value: string): (r: Form)
    ensures Value(r, field) == value
    ensures forall other :: other != field ==> Value(r, other) == Value(f, other)
    ensures forall k :: ErrorText(r, k) == ErrorText(f, k)
  {
    match field
    case Name => f.(name := value)
    case Email => f.(email := value)
    case MobileNumber => f.(mobileNumber := value)
    case Password => f.(password := value)
  }

  /** `{...form, ...errors}`: each entry present in `errors` replaces its
      error text; the others keep theirs, and no value changes. */
  function MergeErrors(f: Form, errors: map<ErrorKey, string>): (r: Form)
    ensures forall k :: ErrorText(r, k) == if k in errors then errors[k] else ErrorText(f, k)
    ensures forall field :: Value(r, field) == Value(f, field)
  {
    Form(
      f.name, if NameError in errors then errors[NameError] else f.nameError,
      f.email, if EmailError in errors then errors[EmailError] else f.emailError,
      f.mobileNumber, if MobileNumberError in errors then errors[MobileNumberError] else f.mobileNumberError,
      f.password, if PasswordError in errors then errors[PasswordError] else f.passwordError)
  }

  /** The submission error banner, `{title, messages}`. */
  datatype Banner = Banner(title: string, messages: seq<string>)

  const NoBanner: Banner := Banner("", [])

  /** The banner is rendered when it has a title or at least one message,
      that is, whenever it differs from the initial, empty banner. */
  function BannerVisible(b: Banner): (shown: bool)
    ensures shown <==> b != NoBanner
  {
    |b.messages| > 0 || |b.title| > 0
  }

  /** `data` of a rejection body: its `errors` list may be absent. */
  datatype ErrorData = ErrorData(errors: Option<seq<string>>)

  /** `error.response.data` of a rejection: a `message` and an optional `data`. */
  datatype ErrorBody = ErrorBody(message: string, data: Option<ErrorData>)

  /** How `POST /api/register` ends: the `success` and `data` of a resolved
      envelope, or a rejection carrying a response body (`None` when the
      rejection has no response or the response has no body). */
  datatype RegisterResponse = Resolved(success: bool, data: Data) | Rejected(body: Option<ErrorBody>)

  /** The banner the catch block builds, or `None` where it throws: reading
      `error.response.data` fails without a body, and `data.errors` fails
      when the body has no `data`. A missing `errors` list becomes []. */
  function RejectionBanner(body: Option<ErrorBody>): (r: Option<Banner>)
    ensures r.Some? <==> body.Some? && body.value.data.Some?
    ensures r.Some? ==> r.value.title == body.value.message
    ensures r.Some? ==> r.value.messages == body.value.data.value.errors.GetOr([])
  {
    match body
    case None => None
    case Some(ErrorBody(message, data)) =>
      match data
      case None => None
      case Some(ErrorData(errors)) => Some(Banner(message, errors.GetOr([])))
  }

  /** A rejection's banner is shown exactly when the server sent a non-empty
      message or a non-empty list of errors. */
  lemma RejectionBannerShown(body: ErrorBody, d: ErrorData)
    requires body.data == Some(d)
    ensures RejectionBanner(Some(body)).Some?
    ensures BannerVisible(RejectionBanner(Some(body)).value) <==>
              body.message != "" || (d.errors.Some? && d.errors.value != [])
  {
  }

  /** Where a successful registration sends the visitor. */
  const ProfilePath: string := "/profile"

  /** The part of the page's state the submit handler touches, with the user
      from the shared context and the bodies posted so far. */
  datatype FormState = FormState(
    form: Form, error: Banner, isLoading: bool, user: Session.User,
    navigation: Option<string>, requests: seq<Form>)

  /** How a submission ended. */
  datatype SubmitOutcome =
    | LocallyInvalid   // validation failed; nothing was sent
    | Registered       // resolved with success: logged in and sent to the profile
    | Unsuccessful     // resolved without success: nothing more happens
    | BannerShown      // rejected with a usable body: the banner shows it
    | Crashed          // rejected, and the catch block itself threw

  datatype Submission = Submission(state: FormState, outcome: SubmitOutcome)

  /** `handleFormSubmit`, with the request's result as an input. */
  function Submit(v: Validators, s: FormState, response: RegisterResponse): (r: Submission)
    // local validation decides whether a request is made at all
    ensures r.outcome == LocallyInvalid <==> ValidateForm(v, s.form).Invalid?
    ensures r.outcome == LocallyInvalid ==>
      r.state.requests == s.requests && !r.state.isLoading &&
      r.state.user == s.user && r.state.error == s.error && r.state.navigation == s.navigation &&
      (forall field :: Value(r.state.form, field) == Value(s.form, field)) &&
      (forall k :: ErrorText(r.state.form, k) ==
         if FieldError(v, s.form, k).Some? then FieldError(v, s.form, k).value else ErrorText(s.form, k))
    ensures r.outcome != LocallyInvalid ==>
      r.state.requests == s.requests + [s.form] &&
      (forall field :: Value(r.state.form, field) == Value(s.form, field)) &&
      (forall k :: ErrorText(r.state.form, k) == "")
    // only a successful registration logs in and navigates
    ensures r.outcome == Registered <==> ValidateForm(v, s.form).NoErrors? && response.Resolved? && response.success
    ensures r.outcome == Registered ==>
      r.state.user == Session.User(true, response.data) && !r.state.isLoading &&
      r.state.navigation == Some(ProfilePath) && r.state.error == s.error
    ensures r.outcome != Registered ==> r.state.user == s.user && r.state.navigation == s.navigation
    // a resolved envelope without success leaves the loader up
    ensures r.outcome == Unsuccessful ==> r.state.isLoading && r.state.error == s.error
    // a rejection ends loading and shows the body's message and errors, or throws
    ensures r.outcome in {BannerShown, Crashed} <==> ValidateForm(v, s.form).NoErrors? && response.Rejected?
    ensures r.outcome in {BannerShown, Crashed} ==> !r.state.isLoading
    ensures r.outcome == BannerShown <==> r.outcome in {BannerShown, Crashed} && RejectionBanner(response.body).Some?
    ensures r.outcome == BannerShown ==> r.state.error == RejectionBanner(response.body).value
    ensures r.outcome == Crashed ==> r.state.error == s.error
  {
    match ValidateForm(v, s.form)
    case Invalid(errors) =>
      Submission(s.(isLoading := false, form := MergeErrors(s.form, errors)), LocallyInvalid)
    case NoErrors =>
      var sent := s.(form := ClearErrors(s.form), isLoading := true, requests := s.requests + [s.form]);
      match response
      case Resolved(success, data) =>
        if success then
          Submission(sent.(user := Session.User(true, data), isLoading := false, navigation := Some(ProfilePath)), Registered)
        else
          Submission(sent, Unsuccessful)
      case Rejected(body) =>
        var failed := sent.(isLoading := false);
        match RejectionBanner(body)
        case Some(b) => Submission(failed.(error := b), BannerShown)
        case None => Submission(failed, Crashed)
  }

  /** A successful registration lands, once the shell has loaded, on the
      profile page. */
  lemma RegisteredLandsOnProfile(v: Validators, s: FormState, response: RegisterResponse)
    requires Submit(v, s, response).outcome == Registered
    ensures Session.Render(false, Submit(v, s, response).state.navigation.value) == Session.Profile
  {
  }

  /** Submitting a form that failed validation again, without typing in
      between, reports the same errors: merging the errors leaves the values
      that validation reads untouched. */
  lemma ResubmitInvalidIsStable(v: Validators, s: FormState, response: RegisterResponse)
    requires Submit(v, s, response).outcome == LocallyInvalid
    ensures Submit(v, Submit(v, s, response).state, response) == Submit(v, s, response)
  {
  }

  /** The registration page component. The user lives in the shell and is
      reached through the context, so `setUser` is the shell's setter. */
  class RegistrationForm {
    var form: Form
    var error: Banner
    var isLoading: bool
    var navigation: Option<string>   // the last `history.push` target
    ghost var requests: seq<Form>    // bodies posted to the registration endpoint
    const app: Session.App

    ghost function State(): FormState
      reads this, app
    {
      FormState(form, error, isLoading, app.user, navigation, requests)
    }

    /** Mounting: an empty form, an empty banner, not loading. */
    constructor (app: Session.App)
      ensures this.app == app
      ensures form == EmptyForm && error == NoBanner && !isLoading
      ensures navigation == None && requests == []
    {
      this.app := app;
      form := EmptyForm;
      error := NoBanner;
      isLoading := false;
      navigation := None;
      requests := [];
    }

    method HandleFormChange(field: Field, value: string)
      modifies this
      ensures form == UpdateField(old(form), field, value)
      ensures error == old(error) && isLoading == old(isLoading)
      ensures navigation == old(navigation) && requests == old(requests)
    {
      form := UpdateField(form, field, value);
    }

    method ResetErrors()
      modifies this
      ensures form == ClearErrors(old(form))
      ensures error == old(error) && isLoading == old(isLoading)
      ensures navigation == old(navigation) && requests == old(requests)
    {
      form := ClearErrors(form);
    }

    /** The submit handler, its setter calls in source order; `response` is
        what the registration request comes back with, if one is made. */
    method HandleFormSubmit(v: Validators, response: RegisterResponse) returns (outcome: SubmitOutcome)
      requires app.Valid()
      modifies this, app
      ensures app.Valid() && app.isLoading == old(app.isLoading)
      ensures app.updates == old(app.updates) +
        if outcome == Registered && response.Resolved? then [Session.UserSet(Session.User(true, response.data))] else []
      ensures State() == Submit(v, old(State()), response).state
      ensures outcome == Submit(v, old(State()), response).outcome
    {
      var submitted := form;
      var errors := ValidateForm(v, submitted);
      if errors.NoErrors? {
        ResetErrors();
        isLoading := true;
        requests := requests + [submitted];
        match response
        case Resolved(success, data) =>
          if success {
            app.SetUser(Session.User(true, data));
            isLoading := false;
            navigation := Some(ProfilePath);
            outcome := Registered;
          } else {
            outcome := Unsuccessful;
          }
        case Rejected(body) =>
          isLoading := false;
          match RejectionBanner(body)
          case Some(b) =>
            error := b;
            outcome := BannerShown;
          case None =>
            outcome := Crashed;
      } else {
        isLoading := false;
        form := MergeErrors(form, errors.errors);
        outcome := LocallyInvalid;
      }
    }
  }
}
