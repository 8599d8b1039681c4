/**
  The "Add Sports Club" page: three required fields, sent to `/clubs` with
  every field of the form trimmed.
*/
module AddSportsClub {
  import opened JsValues
  import opened JsStrings
  import opened Toasts
  import opened Network
  import opened Forms
  import opened UiSlice

  const RequiredFields: seq<string> := ["clubName", "email", "description"]

  const EmptyForm: FormData := map["clubName" := "", "email" := "", "description" := ""]

  /** The page's own wording, misspelling included. */
  const MissingFieldsMessage: string := "Missing fields. Please fill out all the reqired fields."
  const AddedMessage: string := "Sports club added successfully!"
  const FailedMessage: string := "An error occurred while adding the sports club. Please try again."

  function Validate(form: FormData): (r: Option<string>)
    ensures r.None? <==> AllPresent(form, RequiredFields)
    ensures r.Some? ==> r.value == MissingFieldsMessage
  {
    if !AllPresent(form, RequiredFields) then Some(MissingFieldsMessage) else None
  }

  class AddSportsClubPage {
    var formData: FormData
    var toasts: seq<Toast>
    const ui: UiState

    constructor (ui: UiState)
      ensures this.ui == ui && formData == EmptyForm && toasts == []
    {
      this.ui := ui;
      formData := EmptyForm;
      toasts := [];
    }

    /** `handleInputChange`: the named field takes the new text. */
    method HandleInputChange(name: string, value: string)
      modifies this
      ensures formData == old(formData)[name := value] && toasts == old(toasts)
    {
      formData := formData[name := value];
    }

    /**
      `handleSubmit`: a blank required field raises the message and sends
      nothing; otherwise every field of the form is sent trimmed to
      `/clubs`, the loading flag goes on and back off, and the form is
      cleared on success.
    */
    method HandleSubmit(env: Option<string>, token: Option<string>, outcome: Response<()>)
      returns (sent: Option<Post>)
      modifies this, ui
      ensures Validate(old(formData)).Some? ==>
                && sent == None && formData == old(formData)
                && toasts == old(toasts) + [Toast(Error, MissingFieldsMessage)]
                && ui.isLoading == old(ui.isLoading)
      ensures Validate(old(formData)).None? ==>
                && sent == Some(Post(EnvText(env) + "/clubs", BearerHeader(token), TrimAll(old(formData))))
                && !ui.isLoading
                && (outcome.Ok? ==> formData == EmptyForm && toasts == old(toasts) + [Toast(Success, AddedMessage)])
                && (outcome.Failed? ==>
                      && formData == old(formData)
                      && toasts == old(toasts) + [Toast(Error, ServerMessageOr(outcome.serverMessage, FailedMessage))])
      ensures ui.theme == old(ui.theme) && ui.isSidebarOpen == old(ui.isSidebarOpen)
      ensures ui.activeSidebarLink == old(ui.activeSidebarLink) && ui.isMobileDevice == old(ui.isMobileDevice)
    {
      var check := Validate(formData);
      if check.Some? {
        toasts := toasts + [Toast(Error, check.value)];
        sent := None;
      } else {
        sent := Send(env, token, outcome);
      }
    }

    /** The part of `handleSubmit` after the check has passed. */
    method Send(env: Option<string>, token: Option<string>, outcome: Response<()>)
      returns (sent: Option<Post>)
      modifies this, ui
      ensures sent == Some(Post(EnvText(env) + "/clubs", BearerHeader(token), TrimAll(old(formData))))
      ensures !ui.isLoading
      ensures outcome.Ok? ==> formData == EmptyForm && toasts == old(toasts) + [Toast(Success, AddedMessage)]
      ensures outcome.Failed? ==>
                && formData == old(formData)
                && toasts == old(toasts) + [Toast(Error, ServerMessageOr(outcome.serverMessage, FailedMessage))]
      ensures ui.theme == old(ui.theme) && ui.isSidebarOpen == old(ui.isSidebarOpen)
      ensures ui.activeSidebarLink == old(ui.activeSidebarLink) && ui.isMobileDevice == old(ui.isMobileDevice)
    {
      ui.SetIsLoading(true);
      var payload := BuildTrimmedPayload(formData);
      sent := Some(Post(EnvText(env) + "/clubs", BearerHeader(token), payload));
      Settle(outcome);
      ui.SetIsLoading(false);
    }

    /** The server's answer: success clears the form, failure keeps it; either raises a message. */
    method Settle(outcome: Response<()>)
      modifies this
      ensures outcome.Ok? ==> formData == EmptyForm && toasts == old(toasts) + [Toast(Success, AddedMessage)]
      ensures outcome.Failed? ==>
                && formData == old(formData)
                && toasts == old(toasts) + [Toast(Error, ServerMessageOr(outcome.serverMessage, FailedMessage))]
    {
      match outcome {
        case Ok(_) =>
          formData := EmptyForm;
          toasts := toasts + [Toast(Success, AddedMessage)];
        case Failed(message) =>
          toasts := toasts + [Toast(Error, ServerMessageOr(message, FailedMessage))];
      }
    }
  }

  /**
    A field outside the required three, were the change handler given one,
    may be blank and is still sent, trimmed. This is about the handler's
    generic `[name]: value` update: the page's own inputs are named only
    `clubName`, `email` and `description`, so the page itself never adds one.
  */
  lemma ExtraFieldSent(form: FormData, extra: string)
    requires Validate(form).None? && extra !in RequiredFields
    ensures Validate(form[extra := ""]).None?
    ensures extra in TrimAll(form[extra := ""]) && TrimAll(form[extra := ""])[extra] == ""
  {
    TrimAllAt(form[extra := ""], extra);
    TrimFixesClean("");
  }
}
