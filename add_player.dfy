/**
  The "Add Player" page: thirteen fields, every one of them required, sent
  to `/players` with each value trimmed.
*/
module AddPlayer {
  import opened JsValues
  import opened JsStrings
  import opened Toasts
  import opened Network
  import opened Forms
  import opened UiSlice

  const Fields: seq<string> :=
    ["familyName", "firstName", "languageOfTheName", "dateOfBirth", "gender", "countryOfBirth",
     "mainNationality", "secondaryNationality", "regionOrStateOfBirth", "cityOfBirth",
     "identificationNumber", "status", "clubId"]

  /** The initial form, and the form after a successful submit: every field empty. */
  const EmptyForm: FormData := map k | k in Fields :: ""

  const MissingFieldsMessage: string := "Missing fields. Please fill out all the required fields."
  const AddedMessage: string := "Player added successfully!"
  const FailedMessage: string := "An error occurred while adding the player. Please try again."

  /**
    `Object.keys(formData).filter(field => !formData[field])`: every field
    the form holds is required, including one a change handler added.
  */
  function Validate(form: FormData): (r: Option<string>)
    ensures r.None? <==> forall k :: k in form ==> !Blank(form, k)
    ensures r.Some? ==> r.value == MissingFieldsMessage
  {
    if exists k :: k in form && Blank(form, k) then Some(MissingFieldsMessage) else None
  }

  class AddPlayerPage {
    var formData: FormData
    var toasts: seq<Toast>
    const ui: UiState

    constructor (ui: UiState)
      ensures this.ui == ui && formData == EmptyForm && toasts == []
    {
      this.ui := ui;
      formData := EmptyForm;
      toasts := [];
    }

    /** `handleInputChange`: the named field takes the new text. */
    method HandleInputChange(name: string, value: string)
      modifies this
      ensures formData == old(formData)[name := value] && toasts == old(toasts)
    {
      formData := formData[name := value];
    }

    /** `handleDateChange`: the date picker writes the date of birth. */
    method HandleDateChange(value: string)
      modifies this
      ensures formData == old(formData)["dateOfBirth" := value] && toasts == old(toasts)
    {
      formData := formData["dateOfBirth" := value];
    }

    /** `handleGenderChange`: the radio buttons write the gender. */
    method HandleGenderChange(value: string)
      modifies this
      ensures formData == old(formData)["gender" := value] && toasts == old(toasts)
    {
      formData := formData["gender" := value];
    }

    /**
      `handleSubmit`: a form with a blank field raises the message and sends
      nothing; otherwise every field is sent trimmed to `/players`, the
      loading flag goes on and back off, and the form is cleared on success.
    */
    method HandleSubmit(env: Option<string>, token: Option<string>, outcome: Response<()>)
      returns (sent: Option<Post>)
      modifies this, ui
      ensures Validate(old(formData)).Some? ==>
                && sent == None && formData == old(formData)
                && toasts == old(toasts) + [Toast(Error, MissingFieldsMessage)]
                && ui.isLoading == old(ui.isLoading)
      ensures Validate(old(formData)).None? ==>
                && sent == Some(Post(EnvText(env) + "/players", BearerHeader(token), TrimAll(old(formData))))
                && !ui.isLoading
                && (outcome.Ok? ==> formData == EmptyForm && toasts == old(toasts) + [Toast(Success, AddedMessage)])
                && (outcome.Failed? ==>
                      && formData == old(formData)
                      && toasts == old(toasts) + [Toast(Error, ServerMessageOr(outcome.serverMessage, FailedMessage))])
      ensures ui.theme == old(ui.theme) && ui.isSidebarOpen == old(ui.isSidebarOpen)
      ensures ui.activeSidebarLink == old(ui.activeSidebarLink) && ui.isMobileDevice == old(ui.isMobileDevice)
    {
      var check := Validate(formData);
      if check.Some? {
        toasts := toasts + [Toast(Error, check.value)];
        sent := None;
      } else {
        sent := Send(env, token, outcome);
      }
    }

    /** The part of `handleSubmit` after the check has passed. */
    method Send(env: Option<string>, token: Option<string>, outcome: Response<()>)
      returns (sent: Option<Post>)
      modifies this, ui
      ensures sent == Some(Post(EnvText(env) + "/players", BearerHeader(token), TrimAll(old(formData))))
      ensures !ui.isLoading
      ensures outcome.Ok? ==> formData == EmptyForm && toasts == old(toasts) + [Toast(Success, AddedMessage)]
      ensures outcome.Failed? ==>
                && formData == old(formData)
                && toasts == old(toasts) + [Toast(Error, ServerMessageOr(outcome.serverMessage, FailedMessage))]
      ensures ui.theme == old(ui.theme) && ui.isSidebarOpen == old(ui.isSidebarOpen)
      ensures ui.activeSidebarLink == old(ui.activeSidebarLink) && ui.isMobileDevice == old(ui.isMobileDevice)
    {
      ui.SetIsLoading(true);
      var payload := BuildTrimmedPayload(formData);
      sent := Some(Post(EnvText(env) + "/players", BearerHeader(token), payload));
      Settle(outcome);
      ui.SetIsLoading(false);
    }

    /** The server's answer: success clears the form, failure keeps it; either raises a message. */
    method Settle(outcome: Response<()>)
      modifies this
      ensures outcome.Ok? ==> formData == EmptyForm && toasts == old(toasts) + [Toast(Success, AddedMessage)]
      ensures outcome.Failed? ==>
                && formData == old(formData)
                && toasts == old(toasts) + [Toast(Error, ServerMessageOr(outcome.serverMessage, FailedMessage))]
    {
      match outcome {
        case Ok(_) =>
          formData := EmptyForm;
          toasts := toasts + [Toast(Success, AddedMessage)];
        case Failed(message) =>
          toasts := toasts + [Toast(Error, ServerMessageOr(message, FailedMessage))];
      }
    }
  }

  /** The cleared form is rejected: submitting again right after a success sends nothing. */
  lemma EmptyFormRejected()
    ensures Validate(EmptyForm) == Some(MissingFieldsMessage)
  {
    assert Fields[0] in EmptyForm;
  }

  /** A field of spaces passes the required check and is sent as "". */
  lemma WhitespaceFieldSentEmpty(form: FormData, k: string)
    requires Validate(form).None? && k in form && AllWhitespace(form[k])
    ensures form[k] != ""
    ensures TrimAll(form)[k] == ""
  {
    TrimAllBlankField(form, k);
  }
}
