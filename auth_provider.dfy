/** The authentication context (components/auth-provider.tsx): the signed-in
    user and the writes that sign in, restore and sign out a session in
    `localStorage`. The user object is kept as its JSON text, the form in
    which `user_data` stores it. */
module AuthProvider {
  import opened Wrappers
  import opened Browser

  /** The JSON text of a value `JSON.stringify` accepts: never empty. */
  type JsonText = s: string | s != "" witness "null"

  /** `JSON.stringify(user)` stored with `setItem`: an absent user is written
      as the text "undefined". */
  function StoredUser(user: Option<JsonText>): JsonText {
    match user
    case Some(text) => text
    case None => "undefined"
  }

  datatype Tokens = Tokens(access: string, refresh: string)

  /** The fields of a successful login reply that the client reads. */
  datatype LoginBody = LoginBody(tokens: Option<Tokens>, user: Option<JsonText>)

  datatype OAuthProvider = Google | GitHub {
    function Name(): string {
      match this
      case Google => "google"
      case GitHub => "github"
    }
  }

  /** The mock profile an OAuth sign-in produces, as JSON text. */
  function OAuthUser(p: OAuthProvider): JsonText {
    var fields := "\"id\":\"2\",\"name\":\"" + p.Name() + " User\",\"email\":\"user@" + p.Name()
      + ".com\",\"role\":\"student\"}";
    "{" + fields
  }

  // ---------------------------------------------------------------------
  // The store after each operation
  // ---------------------------------------------------------------------

  /** The store after a sign-in writes both tokens and the user. */
  function SignedIn(store: map<string, string>, tokens: Tokens, user: JsonText): (r: map<string, string>)
    ensures r.Keys == store.Keys + {AccessKey, RefreshKey, UserKey}
    ensures r[AccessKey] == tokens.access && r[RefreshKey] == tokens.refresh && r[UserKey] == user
    ensures forall k :: k in store && k !in {AccessKey, RefreshKey, UserKey} ==> r[k] == store[k]
  {
    store[AccessKey := tokens.access][RefreshKey := tokens.refresh][UserKey := user]
  }

  /** The store after sign-out: exactly the three session keys are gone. */
  function SignedOut(store: map<string, string>): (r: map<string, string>)
    ensures r.Keys == store.Keys - {AccessKey, RefreshKey, UserKey}
    ensures forall k :: k in r ==> r[k] == store[k]
  {
    store - {UserKey, AccessKey, RefreshKey}
  }

  /** The user the mount effect restores from a store: the saved profile when
      both it and an access token are stored and non-empty. */
  function Restored(store: map<string, string>): (r: Option<string>)
    ensures r.Some? <==> HasTruthy(store, UserKey) && HasTruthy(store, AccessKey)
    ensures r.Some? ==> r.value == store[UserKey]
  {
    if HasTruthy(store, UserKey) && HasTruthy(store, AccessKey) then Some(store[UserKey]) else None
  }

  /** The session a sign-in writes survives a reload exactly when the access
      token it stored is not empty, and then the same user comes back. */
  lemma SignInThenRestore(store: map<string, string>, tokens: Tokens, user: JsonText)
    ensures Restored(SignedIn(store, tokens, user)) == (if tokens.access != "" then Some(user) else None)
  {
  }

  /** After sign-out nothing is restored on reload. */
  lemma SignOutThenRestore(store: map<string, string>)
    ensures Restored(SignedOut(store)) == None
  {
  }

  /** An OAuth sign-in writes only the profile, so it survives a reload only
      when an access token from an earlier sign-in is still stored. */
  lemma OAuthRestoredOnlyWithToken(store: map<string, string>, p: OAuthProvider)
    ensures Restored(store[UserKey := OAuthUser(p)]).Some? <==> HasTruthy(store, AccessKey)
    ensures Restored(store[UserKey := OAuthUser(p)]).Some? ==>
      Restored(store[UserKey := OAuthUser(p)]).value == OAuthUser(p)
  {
  }

  // ---------------------------------------------------------------------
  // The provider
  // ---------------------------------------------------------------------

  class Provider {
    /** The signed-in user's profile, `None` for `null`. */
    var user: Option<string>
    var isLoading: bool

    constructor()
      ensures user == None && isLoading
    {
      user := None;
      isLoading := true;
    }

    /** The mount effect: restore the saved user when both the profile and an
        access token are stored, and stop loading in every case. */
    method Restore(w: Window)
      modifies this
      ensures user == (if Restored(w.storage).Some? then Restored(w.storage) else old(user))
      ensures !isLoading
    {
      var savedUser := w.GetItem(UserKey);
      var token := w.GetItem(AccessKey);
      if savedUser.Some? && savedUser.value != "" && token.Some? && token.value != "" {
        user := Some(savedUser.value);
      }
      isLoading := false;
    }

    /** `login(email, password)` given the server's reply. A reply that is not
        OK, or one without tokens, fails before any write and yields false. */
    method Login(w: Window, reply: Reply<LoginBody>) returns (ok: bool)
      modifies this, w
      ensures ok <==> reply.Ok? && reply.data.tokens.Some?
      ensures ok ==> w.storage == SignedIn(old(w.storage), reply.data.tokens.value, StoredUser(reply.data.user))
      ensures ok ==> user == reply.data.user
      ensures !ok ==> w.storage == old(w.storage) && user == old(user)
      ensures w.location == old(w.location) && isLoading == old(isLoading)
    {
      match reply {
        case Err(_, _) =>
          return false;
        case Ok(body) =>
          if body.tokens.None? {
            return false;
          }
          w.SetItem(AccessKey, body.tokens.value.access);
          w.SetItem(RefreshKey, body.tokens.value.refresh);
          user := body.user;
          w.SetItem(UserKey, StoredUser(body.user));
          return true;
      }
    }

    /** The mock OAuth sign-in: sets the user, stores only the profile, and
        always succeeds. */
    method LoginWithOAuth(w: Window, p: OAuthProvider) returns (ok: bool)
      modifies this, w
      ensures ok
      ensures user == Some(OAuthUser(p))
      ensures w.storage == old(w.storage)[UserKey := OAuthUser(p)]
      ensures w.location == old(w.location) && isLoading == old(isLoading)
    {
      user := Some(OAuthUser(p));
      w.SetItem(UserKey, OAuthUser(p));
      return true;
    }

    method Logout(w: Window)
      modifies this, w
      ensures user == None
      ensures w.storage == SignedOut(old(w.storage))
      ensures w.location == old(w.location) && isLoading == old(isLoading)
    {
      user := None;
      w.RemoveItem(UserKey);
      w.RemoveItem(AccessKey);
      w.RemoveItem(RefreshKey);
    }
  }
}
