/**
  The "Add User" page: a five-field form, validated in a fixed order, then
  posted to the sign-up endpoint chosen by the role.
*/
module AddUser {
  import opened JsValues
  import opened JsStrings
  import opened Toasts
  import opened Network
  import opened Forms
  import opened UiSlice

  const RequiredFields: seq<string> := ["fullName", "email", "password", "confirmPassword", "role"]

  /** The role options offered by the select. */
  const Roles: seq<string> := ["administrator", "referee"]

  const EmptyForm: FormData :=
    map["fullName" := "", "email" := "", "password" := "", "confirmPassword" := "", "role" := ""]

  const MissingFieldsMessage: string := "Missing fields. Please fill out all the required fields."
  const ShortPasswordMessage: string := "Password must be 8 or more characters."
  const MismatchMessage: string := "Password and confirm password do not match."
  const AddedMessage: string := "User added successfully!"
  const FailedMessage: string := "An error occurred while adding the user. Please try again."

  /**
    The message that stops a submit, or `None` when the form is sent. The
    checks run in order: a required field is blank, the password is shorter
    than 8 UTF-16 code units, the confirmation differs.
  */
  function Validate(form: FormData): (r: Option<string>)
    ensures r.None? <==> (&& AllPresent(form, RequiredFields)
                          && Utf16Length(Value(form, "password")) >= 8
                          && Value(form, "password") == Value(form, "confirmPassword"))
  {
    if !AllPresent(form, RequiredFields) then Some(MissingFieldsMessage)
    else if Utf16Length(Value(form, "password")) < 8 then Some(ShortPasswordMessage)
    else if Value(form, "password") != Value(form, "confirmPassword") then Some(MismatchMessage)
    else None
  }

  /**
    Which message a rejected form raises: the blank-field message wins over
    the length message, which wins over the mismatch message. The blank
    fields are the ones `MissingFields` lists.
  */
  lemma ValidationOrder(form: FormData)
    ensures MissingFields(form, RequiredFields) != [] ==> Validate(form) == Some(MissingFieldsMessage)
    ensures (MissingFields(form, RequiredFields) == [] && Utf16Length(Value(form, "password")) < 8)
              ==> Validate(form) == Some(ShortPasswordMessage)
    ensures (Validate(form) == Some(MismatchMessage)) <==> (
              && MissingFields(form, RequiredFields) == []
              && Utf16Length(Value(form, "password")) >= 8
              && Value(form, "password") != Value(form, "confirmPassword"))
  {
  }

  /** A form that passes holds every required field, so each value read is the typed text. */
  lemma PassedFormHasFields(form: FormData)
    requires Validate(form).None?
    ensures forall i :: 0 <= i < |RequiredFields| ==> RequiredFields[i] in form
  {
  }

  /** The body sent: trimmed name and email, the password exactly as typed, no role. */
  function Payload(form: FormData): (r: FormData)
    ensures r.Keys == {"fullName", "email", "password"}
    ensures r["fullName"] == Trim(Value(form, "fullName")) && r["email"] == Trim(Value(form, "email"))
    ensures r["password"] == Value(form, "password")
  {
    // the three keys differ in their first letter
    assert "fullName"[0] != "email"[0] && "fullName"[0] != "password"[0] && "email"[0] != "password"[0];
    map["fullName" := Trim(Value(form, "fullName")), "email" := Trim(Value(form, "email")),
        "password" := Value(form, "password")]
  }

  /** The administrator role signs up at the admin endpoint; every other role as a referee. */
  function SignupEndpoint(role: string): (r: string)
    ensures r == "/auth/signup/admin" <==> role == "administrator"
    ensures r == "/auth/signup/admin" || r == "/auth/signup/referee"
  {
    if role == "administrator" then "/auth/signup/admin" else "/auth/signup/referee"
  }

  class AddUserPage {
    var formData: FormData
    var toasts: seq<Toast>
    const ui: UiState

    constructor (ui: UiState)
      ensures this.ui == ui && formData == EmptyForm && toasts == []
    {
      this.ui := ui;
      formData := EmptyForm;
      toasts := [];
    }

    /** `handleInputChange`: the named field takes the new text. */
    method HandleInputChange(name: string, value: string)
      modifies this
      ensures formData == old(formData)[name := value] && toasts == old(toasts)
    {
      formData := formData[name := value];
    }

    /**
      `handleSubmit`. `env` is `VITE_SERVER_URL`, `token` the store's token
      and `outcome` the server's answer to the POST returned in `sent`. A
      form that fails validation raises its message and sends nothing; a
      sent form toggles the loading flag on and back off, and is cleared on
      success only.
    */
    method HandleSubmit(env: Option<string>, token: Option<string>, outcome: Response<()>)
      returns (sent: Option<Post>)
      modifies this, ui
      ensures var check := Validate(old(formData));
        && (check.Some? ==>
              && sent == None && formData == old(formData)
              && toasts == old(toasts) + [Toast(Error, check.value)]
              && ui.isLoading == old(ui.isLoading))
        && (check.None? ==>
              && sent == Some(Post(EnvText(env) + SignupEndpoint(Value(old(formData), "role")),
                                   BearerHeader(token), Payload(old(formData))))
              && !ui.isLoading
              && (outcome.Ok? ==> formData == EmptyForm && toasts == old(toasts) + [Toast(Success, AddedMessage)])
              && (outcome.Failed? ==>
                    && formData == old(formData)
                    && toasts == old(toasts) + [Toast(Error, ServerMessageOr(outcome.serverMessage, FailedMessage))]))
      ensures ui.theme == old(ui.theme) && ui.isSidebarOpen == old(ui.isSidebarOpen)
      ensures ui.activeSidebarLink == old(ui.activeSidebarLink) && ui.isMobileDevice == old(ui.isMobileDevice)
    {
      var check := Validate(formData);
      if check.Some? {
        toasts := toasts + [Toast(Error, check.value)];
        sent := None;
      } else {
        sent := Send(env, token, outcome);
      }
    }

    /** The part of `handleSubmit` after the checks have passed. */
    method Send(env: Option<string>, token: Option<string>, outcome: Response<()>)
      returns (sent: Option<Post>)
      modifies this, ui
      ensures sent == Some(Post(EnvText(env) + SignupEndpoint(Value(old(formData), "role")),
                                BearerHeader(token), Payload(old(formData))))
      ensures !ui.isLoading
      ensures outcome.Ok? ==> formData == EmptyForm && toasts == old(toasts) + [Toast(Success, AddedMessage)]
      ensures outcome.Failed? ==>
                && formData == old(formData)
                && toasts == old(toasts) + [Toast(Error, ServerMessageOr(outcome.serverMessage, FailedMessage))]
      ensures ui.theme == old(ui.theme) && ui.isSidebarOpen == old(ui.isSidebarOpen)
      ensures ui.activeSidebarLink == old(ui.activeSidebarLink) && ui.isMobileDevice == old(ui.isMobileDevice)
    {
      ui.SetIsLoading(true);
      var payload := Payload(formData);
      var endpoint := SignupEndpoint(Value(formData, "role"));
      sent := Some(Post(EnvText(env) + endpoint, BearerHeader(token), payload));
      Settle(outcome);
      ui.SetIsLoading(false);
    }

    /** The server's answer: success clears the form, failure keeps it; either raises a message. */
    method Settle(outcome: Response<()>)
      modifies this
      ensures outcome.Ok? ==> formData == EmptyForm && toasts == old(toasts) + [Toast(Success, AddedMessage)]
      ensures outcome.Failed? ==>
                && formData == old(formData)
                && toasts == old(toasts) + [Toast(Error, ServerMessageOr(outcome.serverMessage, FailedMessage))]
    {
      match outcome {
        case Ok(_) =>
          formData := EmptyForm;
          toasts := toasts + [Toast(Success, AddedMessage)];
        case Failed(message) =>
          toasts := toasts + [Toast(Error, ServerMessageOr(message, FailedMessage))];
      }
    }
  }

  /**
    The required check looks at the untrimmed text: a name of spaces passes
    validation and is sent as "".
  */
  lemma WhitespaceNameSentEmpty(form: FormData)
    requires Validate(form).None?
    requires AllWhitespace(Value(form, "fullName"))
    ensures "fullName" in form && form["fullName"] != ""
    ensures Payload(form)["fullName"] == ""
  {
    assert !Blank(form, RequiredFields[0]);
    TrimEmptyIff(form["fullName"]);
  }

  /**
    The length check counts UTF-16 code units: four characters outside the
    Basic Multilingual Plane make a password long enough.
  */
  lemma AstralPasswordLongEnough()
    ensures var pw := "\U{1F600}\U{1F600}\U{1F600}\U{1F600}";
      var form := EmptyForm["fullName" := "A"]["email" := "a@b.c"]["role" := "referee"]
                           ["password" := pw]["confirmPassword" := pw];
      && |pw| == 4 && Validate(form) == None
  {
    var pw := "\U{1F600}\U{1F600}\U{1F600}\U{1F600}";
    var form := EmptyForm["fullName" := "A"]["email" := "a@b.c"]["role" := "referee"]
                         ["password" := pw]["confirmPassword" := pw];
    assert Utf16Length(pw) == 8;
    forall i | 0 <= i < |RequiredFields|
      ensures !Blank(form, RequiredFields[i])
    {
    }
  }

  /** Only the exact text "administrator" reaches the admin endpoint. */
  lemma RoleIsCaseSensitive()
    ensures SignupEndpoint(Roles[0]) == "/auth/signup/admin"
    ensures SignupEndpoint(Roles[1]) == "/auth/signup/referee"
    ensures SignupEndpoint("Administrator") == "/auth/signup/referee"
  {
  }
}
