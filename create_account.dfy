/** The account-creation screen: its five-field form, the ordered validation
    of that form, and how the outcome of the `create_user` request becomes an
    alert and a navigation. */
module CreateAccount {
  import opened Ui
  import opened Patterns

  datatype Field = Username | Password | ConfirmPassword | EmailId | MobileNumber

  datatype FormData = FormData(
    username: string,
    password: string,
    confirmPassword: string,
    emailId: string,
    mobileNumber: string)

  /** The form as the screen first renders it. */
  const EmptyForm := FormData("", "", "", "", "")

  function Get(f: FormData, field: Field): string {
    match field
    case Username => f.username
    case Password => f.password
    case ConfirmPassword => f.confirmPassword
    case EmailId => f.emailId
    case MobileNumber => f.mobileNumber
  }

  /** `handleInputChange(field)(value)`: a copy of the form with one field replaced. */
  function SetField(f: FormData, field: Field, value: string): (r: FormData)
    ensures Get(r, field) == value
    ensures forall g :: g != field ==> Get(r, g) == Get(f, g)
  {
    match field
    case Username => f.(username := value)
    case Password => f.(password := value)
    case ConfirmPassword => f.(confirmPassword := value)
    case EmailId => f.(emailId := value)
    case MobileNumber => f.(mobileNumber := value)
  }

  /** Writing a field twice keeps only the second value. */
  lemma SetFieldOverwrites(f: FormData, field: Field, v: string, w: string)
    ensures SetField(SetField(f, field, v), field, w) == SetField(f, field, w)
  {
  }

  /** Writes to two different fields do not interfere. */
  lemma SetFieldCommutes(f: FormData, x: Field, y: Field, v: string, w: string)
    requires x != y
    ensures SetField(SetField(f, x, v), y, w) == SetField(SetField(f, y, w), x, v)
  {
  }

  /** The four checks of `validateForm`, each named by the error it reports. */
  datatype FormError = MissingFields | PasswordMismatch | InvalidEmail | InvalidMobile

  /** The order in which `validateForm` runs its checks. */
  const CheckOrder: seq<FormError> := [MissingFields, PasswordMismatch, InvalidEmail, InvalidMobile]

  function ErrorMessage(e: FormError): string {
    match e
    case MissingFields => "Please fill in all fields"
    case PasswordMismatch => "Passwords do not match"
    case InvalidEmail => "Please enter a valid email address"
    case InvalidMobile => "Please enter a valid 10-digit mobile number"
  }

  /** The alert `validateForm` shows for a failed check. */
  function ErrorAlert(e: FormError): Alert {
    Alert("Error", ErrorMessage(e))
  }

  /** Whether check `c` fails on `f`. A JavaScript string is falsy exactly
      when it is empty; the confirmation is not among the required fields. */
  predicate Fails(c: FormError, f: FormData) {
    match c
    case MissingFields => f.username == "" || f.password == "" || f.emailId == "" || f.mobileNumber == ""
    case PasswordMismatch => f.password != f.confirmPassword
    case InvalidEmail => !IsValidEmail(f.emailId)
    case InvalidMobile => !IsValidMobile(f.mobileNumber)
  }

  datatype Validation = Accepted | Rejected(error: FormError)

  /** Reference definition: run `checks` in order and report the first that fails. */
  function FirstFailure(checks: seq<FormError>, f: FormData): (r: Validation)
    ensures r == Accepted <==> forall i :: 0 <= i < |checks| ==> !Fails(checks[i], f)
    ensures r.Rejected? ==>
      exists i :: 0 <= i < |checks| && checks[i] == r.error && Fails(checks[i], f) &&
        forall j :: 0 <= j < i ==> !Fails(checks[j], f)
  {
    if checks == [] then Accepted
    else if Fails(checks[0], f) then Rejected(checks[0])
    else
      var r := FirstFailure(checks[1..], f);
      assert forall i :: 0 < i < |checks| ==> checks[i] == checks[1..][i - 1];
      r
  }

  /** One step of FirstFailure on a list written as head and tail. */
  lemma FirstFailureCons(c: FormError, rest: seq<FormError>, f: FormData)
    ensures FirstFailure([c] + rest, f) == if Fails(c, f) then Rejected(c) else FirstFailure(rest, f)
  {
  }

  /** `validateForm`: the chain of early returns, with its alert as the error. */
  function ValidateForm(f: FormData): (r: Validation)
    ensures r == FirstFailure(CheckOrder, f)
    ensures r == Accepted <==> forall c :: c in CheckOrder ==> !Fails(c, f)
  {
    FirstFailureCons(MissingFields, CheckOrder[1..], f);
    FirstFailureCons(PasswordMismatch, CheckOrder[2..], f);
    FirstFailureCons(InvalidEmail, CheckOrder[3..], f);
    FirstFailureCons(InvalidMobile, [], f);
    assert CheckOrder == [MissingFields] + CheckOrder[1..];
    assert CheckOrder[1..] == [PasswordMismatch] + CheckOrder[2..];
    assert CheckOrder[2..] == [InvalidEmail] + CheckOrder[3..];
    assert CheckOrder[3..] == [InvalidMobile] + [];
    if f.username == "" || f.password == "" || f.emailId == "" || f.mobileNumber == "" then
      Rejected(MissingFields)
    else if f.password != f.confirmPassword then
      Rejected(PasswordMismatch)
    else if !IsValidEmail(f.emailId) then
      Rejected(InvalidEmail)
    else if !IsValidMobile(f.mobileNumber) then
      Rejected(InvalidMobile)
    else
      Accepted
  }

  /** An empty required field is reported before anything else is looked at. */
  lemma MissingFieldWins(f: FormData, field: Field)
    requires field != ConfirmPassword && Get(f, field) == ""
    ensures ValidateForm(f) == Rejected(MissingFields)
  {
  }

  /** With every required field present, a mismatched confirmation is reported
      whatever the email and the mobile number are. */
  lemma MismatchBeforeFormat(f: FormData)
    requires !Fails(MissingFields, f) && f.password != f.confirmPassword
    ensures ValidateForm(f) == Rejected(PasswordMismatch)
  {
  }

  /** A form is accepted exactly when every field is present, the confirmation
      matches, and the email and mobile number match their patterns. */
  lemma AcceptedIff(f: FormData)
    ensures ValidateForm(f) == Accepted <==>
      (&& f.username != "" && f.password != "" && f.emailId != "" && f.mobileNumber != ""
       && f.password == f.confirmPassword
       && EmailPattern(f.emailId) && IsValidMobile(f.mobileNumber))
  {
    EmailPatternIff(f.emailId);
  }

  /** The body of the `create_user` response. */
  datatype CreateAccountResponse = CreateAccountResponse(message: string)

  const CreateUserUrl := "https://api.ynab.in/create_user"
  const UserCreated := "user_created"
  const LoginPath := "/login"
  const CreatedAlert := Alert("Created Account", "Account Created Succesfully !")
  const FailedAlert := Alert("Error", "Failed to create account. Please try again.")

  /** The request sent for a validated form; the form travels in headers. */
  function CreateUserRequest(f: FormData): Request {
    Post(CreateUserUrl, map[
      "Content-Type" := "application/json",
      "username" := f.username,
      "password" := f.password,
      "email_id" := f.emailId,
      "mobile_number" := f.mobileNumber])
  }

  /** `router.push({ pathname })` or `router.back()`. */
  datatype Navigation = Push(pathname: string) | Back

  /** The alert and the navigation that follow a `create_user` request. */
  function CreateOutcome(response: HttpResult<CreateAccountResponse>): (r: (Alert, Option<Navigation>))
    ensures r.1 == Some(Push(LoginPath)) <==> response.Delivered() && response.body.value.message == UserCreated
    ensures r.1 == Some(Back) <==> response.Delivered() && response.body.value.message != UserCreated
    ensures r.1 == None <==> !response.Delivered()
    ensures r.0 == CreatedAlert <==> r.1 == Some(Push(LoginPath))
    ensures r.0 != CreatedAlert ==> r.0 == FailedAlert
  {
    if !response.Delivered() then (FailedAlert, None)
    else if response.body.value.message == UserCreated then (CreatedAlert, Some(Push(LoginPath)))
    else (FailedAlert, Some(Back))
  }

  /** The screen's state. `createAccount` is split at its `await`:
      BeginCreateAccount runs up to the request, FinishCreateAccount runs the
      continuation with the response. While `loading` the screen renders only
      its spinner, so the input handlers and BeginCreateAccount run only when
      it is false. */
  class CreateAccountScreen {
    var form: FormData
    var loading: bool

    constructor ()
      ensures form == EmptyForm && !loading
    {
      form := EmptyForm;
      loading := false;
    }

    /** The `onChangeText` handler of one input. */
    method HandleInputChange(field: Field, value: string)
      requires !loading
      modifies this`form
      ensures form == SetField(old(form), field, value)
      ensures Get(form, field) == value
      ensures forall g :: g != field ==> Get(form, g) == Get(old(form), g)
    {
      form := SetField(form, field, value);
    }

    /** Validate; on failure show the first error and send nothing, otherwise
        show the spinner and send the request. */
    method BeginCreateAccount() returns (request: Option<Request>, alert: Option<Alert>)
      requires !loading
      modifies this`loading
      ensures ValidateForm(form).Rejected? ==>
        request == None && alert == Some(ErrorAlert(ValidateForm(form).error)) && loading == old(loading)
      ensures ValidateForm(form).Accepted? ==>
        request == Some(CreateUserRequest(form)) && alert == None && loading
      ensures request.Some? <==> ValidateForm(form) == Accepted
    {
      var v := ValidateForm(form);
      if v.Rejected? {
        return None, Some(ErrorAlert(v.error));
      }
      loading := true;
      request := Some(CreateUserRequest(form));
      alert := None;
    }

    /** The continuation after the response: alert, navigate, and clear the
        spinner in every case (the `finally`). */
    method FinishCreateAccount(response: HttpResult<CreateAccountResponse>) returns (alert: Alert, navigation: Option<Navigation>)
      requires loading
      modifies this`loading
      ensures !loading
      ensures (alert, navigation) == CreateOutcome(response)
    {
      var outcome := CreateOutcome(response);
      alert, navigation := outcome.0, outcome.1;
      loading := false;
    }
  }
}
