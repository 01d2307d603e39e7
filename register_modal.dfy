/**
 * The registration dialog (`RegisterModal.tsx`): a four-field form whose
 * submit handler checks that the two passwords agree before it sends anything,
 * then posts the account data and records success or the error.
 */
module RegisterModal {
  import opened Js

  /** The state `formData`. */
  datatype FormData = FormData(email: string, password: string, confirmPassword: string, name: string)

  /** The `name` attributes of the four inputs. */
  datatype FieldName = EmailField | PasswordField | ConfirmPasswordField | NameField

  /** `handleChange`: `{...prev, [name]: value}`. */
  function WithField(f: FormData, field: FieldName, value: string): (r: FormData)
    ensures r.email == (if field == EmailField then value else f.email)
    ensures r.password == (if field == PasswordField then value else f.password)
    ensures r.confirmPassword == (if field == ConfirmPasswordField then value else f.confirmPassword)
    ensures r.name == (if field == NameField then value else f.name)
  {
    match field
    case EmailField => f.(email := value)
    case PasswordField => f.(password := value)
    case ConfirmPasswordField => f.(confirmPassword := value)
    case NameField => f.(name := value)
  }

  /** The JSON body of the POST: the e-mail, the password and the name, and nothing else. */
  function RequestBody(f: FormData): (body: Json)
    ensures body.Obj? && body.fields.Keys == {"email", "password", "name"}
    ensures "confirmPassword" !in body.fields
    ensures body.fields["email"] == Str(f.email)
    ensures body.fields["password"] == Str(f.password)
    ensures body.fields["name"] == Str(f.name)
  {
    Obj(map["email" := Str(f.email), "password" := Str(f.password), "name" := Str(f.name)])
  }

  const Mismatch := "Passwords do not match"
  const RegistrationFailed := "Registration failed"

  /** How a request ends: the account was created, or the message the catch stores. */
  datatype Verdict = Registered | Refused(message: string)

  /**
   * The try block of `handleRegister`. The body is parsed before the status is
   * looked at, so an unreadable body is an error even on success; a non-ok
   * status throws `data.error || 'Registration failed'`; a thrown non-Error
   * gives 'Registration failed'.
   */
  function RegisterVerdict(outcome: FetchOutcome): (v: Verdict)
    ensures v == Registered <==> outcome.Response? && outcome.ok && outcome.body.Parsed?
    ensures outcome == Rejected(OtherThrown) ==> v == Refused(RegistrationFailed)
    ensures outcome.Response? && !outcome.ok && outcome.body.Parsed? && outcome.body.value.Obj? ==>
      var fields := outcome.body.value.fields;
      && ("error" in fields && fields["error"].Str? && fields["error"].s != "" ==> v == Refused(fields["error"].s))
      && ("error" in fields && Truthy(fields["error"]) ==> v == Refused(ToJsString(fields["error"])))
      && (!("error" in fields && Truthy(fields["error"])) ==> v == Refused(RegistrationFailed))
    ensures outcome.Response? && !outcome.ok && outcome.body.Parsed? && !outcome.body.value.Obj? && !outcome.body.value.Nullish() ==>
      v == Refused(RegistrationFailed)
    ensures outcome.Response? && !outcome.ok && outcome.body.Parsed? && outcome.body.value.Nullish() ==>
      v == Refused(NullAccessMessage(outcome.body.value, "error"))
    ensures outcome.Response? && outcome.body.Malformed? ==> v == Refused(outcome.body.message)
    ensures outcome.Rejected? ==> v == Refused(CatchMessage(outcome.thrown, RegistrationFailed))
  {
    match outcome
    case Rejected(t) => Refused(CatchMessage(t, RegistrationFailed))
    case Response(ok, _, body) =>
      match body
      case Malformed(m) => Refused(m)
      case Parsed(data) =>
        if ok then Registered
        else
          match Member(data, "error")
          case Err(m) => Refused(m)
          case Ok(v) => Refused(ToJsString(Or(v, Str(RegistrationFailed))))
  }

  /** What the dialog shows: the success panel, or the form with its error line and button caption. */
  datatype Screen = SuccessPanel | Form(errorLine: Option<string>, button: string)

  class RegisterForm {
    var formData: FormData
    var error: string
    var success: bool
    var isLoading: bool
    /** The bodies posted to the register endpoint, oldest first. */
    ghost var requests: seq<Json>
    /** How many times `onRegisterSuccess` has been called. */
    ghost var successCalls: nat

    /** The dialog as it opens: empty fields, no error, not registered, not loading. */
    constructor ()
      ensures formData == FormData("", "", "", "") && error == "" && !success && !isLoading
      ensures requests == [] && successCalls == 0
    {
      formData := FormData("", "", "", "");
      error := "";
      success := false;
      isLoading := false;
      requests := [];
      successCalls := 0;
    }

    /** `handleChange` from one of the inputs. */
    method HandleChange(field: FieldName, value: string)
      modifies this`formData
      ensures formData == WithField(old(formData), field, value)
    {
      formData := WithField(formData, field, value);
    }

    /**
     * `handleRegister`, run to completion. The error is cleared first; two
     * different passwords stop the handler with 'Passwords do not match' and
     * no request; otherwise the body is posted and loading ends whatever
     * happens.
     */
    method HandleRegister(outcome: FetchOutcome)
      modifies this`error, this`success, this`isLoading, this`requests, this`successCalls
      ensures formData.password != formData.confirmPassword ==>
        && error == Mismatch
        && requests == old(requests) && successCalls == old(successCalls)
        && success == old(success) && isLoading == old(isLoading)
      ensures formData.password == formData.confirmPassword ==>
        && requests == old(requests) + [RequestBody(formData)]
        && !isLoading
        && match RegisterVerdict(outcome)
          case Registered => success && error == "" && successCalls == old(successCalls) + 1
          case Refused(m) => success == old(success) && error == m && successCalls == old(successCalls)
    {
      error := "";
      if formData.password != formData.confirmPassword {
        error := Mismatch;
        return;
      }
      isLoading := true;
      requests := requests + [RequestBody(formData)];
      match RegisterVerdict(outcome) {
        case Registered =>
          success := true;
          successCalls := successCalls + 1;
        case Refused(m) =>
          error := m;
      }
      isLoading := false;
    }

    /** The success panel once registered; otherwise the form, with the error line when it is non-empty. */
    function Render(): (s: Screen)
      reads this
      ensures s == SuccessPanel <==> success
      ensures s.Form? ==> (s.errorLine.Some? <==> error != "") && (s.errorLine.Some? ==> s.errorLine.value == error)
      ensures s.Form? ==> s.button == if isLoading then "Registering..." else "Continue"
    {
      if success then SuccessPanel
      else Form(if error != "" then Some(error) else None, if isLoading then "Registering..." else "Continue")
    }
  }

  /** Two different passwords: the form stays up with the mismatch message, whatever the server would answer. */
  method MismatchExample(outcome: FetchOutcome) returns (screen: Screen)
    ensures screen == Form(Some(Mismatch), "Continue")
  {
    var form := new RegisterForm();
    form.HandleChange(PasswordField, "secret1");
    form.HandleChange(ConfirmPasswordField, "secret2");
    form.HandleRegister(outcome);
    screen := form.Render();
  }
}
