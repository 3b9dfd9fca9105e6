/** The sign-in form (app/auth/login/page.tsx): submits the credentials
    through the HTTP client, checks the reply, stores the session and picks
    where to go next by role. */
module LoginPage {
  import opened Wrappers
  import opened Browser
  import opened AuthProvider

  const DefaultSuccess := "Login successful!"
  const DefaultError := "Login failed. Please check your credentials."
  const InvalidReply := "Invalid respone from server"

  /** The user object of the reply: its JSON text and its `role` field. */
  datatype Account = Account(json: JsonText, role: string)

  /** The fields of the login reply the page reads. */
  datatype LoginResult = LoginResult(tokens: Option<Tokens>, user: Option<Account>, message: string)

  /** A reply the page accepts: OK, with both `tokens` and `user`. */
  predicate Accepted(reply: Reply<LoginResult>) {
    reply.Ok? && reply.data.tokens.Some? && reply.data.user.Some?
  }

  /** Where an accepted sign-in leads: admins to the admin area, students to
      the dashboard, and any other role nowhere. */
  function RedirectFor(role: string): (r: Option<string>)
    ensures r == Some("/admin") <==> role == "admin"
    ensures r == Some("/dashboard") <==> role == "student"
    ensures r.None? <==> role != "admin" && role != "student"
  {
    if role == "admin" then Some("/admin")
    else if role == "student" then Some("/dashboard")
    else None
  }

  /** The message shown for a reply the page does not accept: the check's own
      error for an OK reply missing a part, otherwise the request's error
      message, or the fixed fallback when it has none. */
  function Failure(reply: Reply<LoginResult>): (r: string)
    requires !Accepted(reply)
    ensures r != ""
    ensures reply.Ok? ==> r == InvalidReply
    ensures reply.Err? && reply.message != "" ==> r == reply.message
    ensures reply.Err? && reply.message == "" ==> r == DefaultError
  {
    match reply
    case Ok(_) => InvalidReply
    case Err(_, message) => OrElse(message, DefaultError)
  }

  /** The email, password and submit controls are disabled while a request
      is in flight and once a success message is shown. */
  function InputsDisabled(isLoading: bool, success: Option<string>): (r: bool)
    ensures isLoading ==> r
    ensures success.Some? ==> r
    ensures !isLoading && success.None? ==> !r
  {
    isLoading || success.Some?
  }

  class Page {
    var email: string
    var password: string
    var isLoading: bool
    var error: Option<string>
    var success: Option<string>
    /** The route the delayed redirect goes to, once one is scheduled. */
    var redirect: Option<string>

    constructor()
      ensures email == "" && password == "" && !isLoading
      ensures error == None && success == None && redirect == None
    {
      email, password, isLoading := "", "", false;
      error, success, redirect := None, None, None;
    }

    /** `handleSubmit`, given the reply of `POST /auth/login/` as the shared
        client hands it over; the client's own storage effects on a 401
        (`ApiClient.OnError`) are not part of this step. */
    method HandleSubmit(w: Window, auth: Provider, reply: Reply<LoginResult>)
      modifies this, w, auth
      ensures !isLoading
      ensures InputsDisabled(isLoading, success) <==> Accepted(reply)
      ensures Accepted(reply) ==>
        var res := reply.data;
        w.storage == SignedIn(old(w.storage), res.tokens.value, res.user.value.json) &&
        auth.user == Some(res.user.value.json) &&
        success == Some(OrElse(res.message, DefaultSuccess)) && error == None &&
        redirect == RedirectFor(res.user.value.role)
      ensures !Accepted(reply) ==>
        w.storage == old(w.storage) && auth.user == old(auth.user) &&
        success == None && error == Some(Failure(reply)) && redirect == old(redirect)
      ensures w.location == old(w.location)
      ensures email == old(email) && password == old(password)
    {
      error := None;
      success := None;
      isLoading := true;
      if !Accepted(reply) {
        error := Some(Failure(reply));
      } else {
        var res := reply.data;
        w.SetItem(AccessKey, res.tokens.value.access);
        w.SetItem(RefreshKey, res.tokens.value.refresh);
        w.SetItem(UserKey, res.user.value.json);
        auth.user := Some(res.user.value.json);
        success := Some(OrElse(res.message, DefaultSuccess));
        redirect := RedirectFor(res.user.value.role);
      }
      isLoading := false;
    }
  }

  /** An accepted sign-in leaves a session that is restored on reload exactly
      when the access token it stored is not empty. */
  lemma AcceptedSessionRestores(store: map<string, string>, res: LoginResult)
    requires res.tokens.Some? && res.user.Some?
    ensures Restored(SignedIn(store, res.tokens.value, res.user.value.json)).Some?
        <==> res.tokens.value.access != ""
  {
    SignInThenRestore(store, res.tokens.value, res.user.value.json);
  }
}
