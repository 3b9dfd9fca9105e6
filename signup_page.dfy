/** The registration form (app/auth/signup/page.tsx): its fields, the checks
    made before any request, and the session it stores on success. */
module SignupPage {
  import opened Wrappers
  import opened Browser
  import opened AuthProvider

  const Mismatch := "Passwords do not match"
  const MissingFields := "Please fill in all required fields"
  /** The `TypeError` a reply without `tokens` raises when `tokens.access` is read. */
  const NoTokens := "Cannot read properties of undefined (reading 'access')"

  datatype Form = Form(full_name: string, email: string, password: string,
                       confirm_password: string, school_name: string, role: string)

  const DefaultForm := Form("", "", "", "", "", "student")

  /** The fields of the registration reply the page reads. */
  datatype SignupBody = SignupBody(tokens: Option<Tokens>, user: Option<JsonText>)

  /** The error the checks before the request report, `None` when the form
      may be sent: a password mismatch is reported first, then any empty
      required field. The confirmation and the role are not required. */
  function Validate(f: Form): (r: Option<string>)
    ensures r == Some(Mismatch) <==> f.password != f.confirm_password
    ensures r == Some(MissingFields) <==>
      f.password == f.confirm_password &&
      (f.full_name == "" || f.email == "" || f.password == "" || f.school_name == "")
    ensures r.None? <==>
      f.password == f.confirm_password &&
      f.full_name != "" && f.email != "" && f.password != "" && f.school_name != ""
  {
    if f.password != f.confirm_password then Some(Mismatch)
    else if f.full_name == "" || f.email == "" || f.password == "" || f.school_name == "" then
      Some(MissingFields)
    else None
  }

  /** `handleRoleChange`: only the role changes. */
  function WithRole(f: Form, role: string): (r: Form)
    ensures r.role == role
    ensures r.(role := f.role) == f
  {
    f.(role := role)
  }

  /** The message for a failed registration request: the server's `message`
      or "Signup failed" when a response came back, and the network error's
      message or the generic fallback when none did. */
  function Failure(status: Option<int>, message: string): (r: string)
    ensures r != ""
    ensures message != "" ==> r == message
    ensures message == "" ==> r == (if status.Some? then "Signup failed" else "Signup failed. Please try again.")
  {
    if status.Some? then OrElse(message, "Signup failed")
    else OrElse(message, "Signup failed. Please try again.")
  }

  class Page {
    var form: Form
    var isLoading: bool
    var error: Option<string>
    var redirect: Option<string>

    constructor()
      ensures form == DefaultForm && form.role == "student"
      ensures !isLoading && error == None && redirect == None
    {
      form := DefaultForm;
      isLoading, error, redirect := false, None, None;
    }

    /** `handleSubmit`, given the reply of the registration request. */
    method HandleSubmit(w: Window, reply: Reply<SignupBody>)
      modifies this, w
      ensures form == old(form)
      ensures Validate(form).Some? ==>
        error == Validate(form) && isLoading == old(isLoading) &&
        w.storage == old(w.storage) && redirect == old(redirect)
      ensures Validate(form).None? ==> !isLoading
      ensures Validate(form).None? && reply.Ok? && reply.data.tokens.Some? ==>
        w.storage == SignedIn(old(w.storage), reply.data.tokens.value, StoredUser(reply.data.user)) &&
        redirect == Some("/dashboard") && error == None
      ensures Validate(form).None? && reply.Ok? && reply.data.tokens.None? ==>
        w.storage == old(w.storage) && redirect == old(redirect) && error == Some(NoTokens)
      ensures Validate(form).None? && reply.Err? ==>
        w.storage == old(w.storage) && redirect == old(redirect) &&
        error == Some(Failure(reply.status, reply.message))
      ensures w.location == old(w.location)
    {
      error := None;
      var problem := Validate(form);
      if problem.Some? {
        error := problem;
        return;
      }
      isLoading := true;
      match reply {
        case Ok(body) =>
          if body.tokens.None? {
            error := Some(NoTokens);
          } else {
            w.SetItem(AccessKey, body.tokens.value.access);
            w.SetItem(RefreshKey, body.tokens.value.refresh);
            w.SetItem(UserKey, StoredUser(body.user));
            redirect := Some("/dashboard");
          }
        case Err(status, message) =>
          error := Some(Failure(status, message));
      }
      isLoading := false;
    }
  }
}
