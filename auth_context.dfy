/**
 * The authentication context: how a backend account becomes the app's user record, how
 * session events and logout change the provider's state, and the hook that reads it.
 */
module AuthContext {
  import opened Wrappers
  import opened Text

  const OutsideProvider := "useAuth must be used within an AuthProvider"

  /** The backend's user: id, optional email, and the `full_name` and `role` metadata. */
  datatype BackendUser = BackendUser(id: string, email: Option<string>, fullName: Option<string>, role: Option<string>)

  /** The app's user record. The role is whatever the metadata says, not checked. */
  datatype AppUser = AppUser(id: string, name: string, email: string, role: string)

  /** The context value handed to consumers. */
  datatype AuthState = AuthState(user: Option<AppUser>, isAuthenticated: bool, isLoading: bool)

  /** `email?.split('@')[0]`: the text before the first '@'. */
  function LocalPart(email: Option<string>): (r: Option<string>)
    ensures r.Some? <==> email.Some?
    ensures r.Some? ==> '@' !in r.value && StartsWith(email.value, r.value)
    ensures r.Some? && |r.value| < |email.value| ==> email.value[|r.value|] == '@'
  {
    if email.None? then None else Some(FirstPart(email.value, '@'))
  }

  /** `mapUser`: the name falls back from the metadata name to the email's local part to
      "User"; the email to ""; the role to "patient". */
  function MapUser(u: BackendUser): (r: AppUser)
    ensures r.id == u.id
    ensures r.name != "" && r.role != ""
    ensures Truthy(u.fullName) ==> r.name == u.fullName.value
    ensures !Truthy(u.fullName) && Truthy(LocalPart(u.email)) ==> r.name == LocalPart(u.email).value
    ensures !Truthy(u.fullName) && !Truthy(LocalPart(u.email)) ==> r.name == "User"
    ensures u.email.Some? ==> r.email == u.email.value
    ensures u.email.None? ==> r.email == ""
    ensures Truthy(u.role) ==> r.role == u.role.value
    ensures !Truthy(u.role) ==> r.role == "patient"
  {
    AppUser(
      u.id,
      OrElse(u.fullName, OrElse(LocalPart(u.email), "User")),
      OrElse(u.email, ""),
      OrElse(u.role, "patient"))
  }

  /** Without a metadata name, an address `local@domain` gives the name `local`. */
  lemma NameFromEmail(u: BackendUser, local: string, domain: string)
    requires !Truthy(u.fullName) && u.email == Some(local + "@" + domain)
    requires local != "" && '@' !in local
    ensures MapUser(u).name == local
  {
    assert local + "@" + domain == local + ['@'] + domain;
    SplitAfterSeparator(local, '@', domain);
  }

  /** An address that starts with '@' (or is empty) and no metadata name gives "User". */
  lemma NameDefaultsToUser(u: BackendUser)
    requires !Truthy(u.fullName)
    requires u.email.None? || u.email.value == [] || u.email.value[0] == '@'
    ensures MapUser(u).name == "User"
  {
    if u.email.Some? && u.email.value != [] {
      assert Split(u.email.value, '@')[0] == "";
    }
  }

  /** `useAuth`: the context value, or the error thrown outside a provider. */
  function UseAuth(context: Option<AuthState>): (r: Result<AuthState, string>)
    ensures context.None? <==> r == Err(OutsideProvider)
    ensures context.Some? ==> r == Ok(context.value)
  {
    if context.None? then Err(OutsideProvider) else Ok(context.value)
  }

  class AuthProvider {
    var user: Option<AppUser>
    var isLoading: bool

    /** The value the provider passes down: `isAuthenticated` is `!!user`. */
    function Value(): (s: AuthState)
      reads this
      ensures s.isAuthenticated <==> user.Some?
      ensures s.user == user && s.isLoading == isLoading
    {
      AuthState(user, user.Some?, isLoading)
    }

    constructor()
      ensures user.None? && isLoading
      ensures !Value().isAuthenticated
    {
      user := None;
      isLoading := true;
    }

    /** The initial `getSession` resolves: a session user is mapped, otherwise the user is
        left as it is; loading ends either way. */
    method InitialSessionResolved(session: Option<BackendUser>)
      modifies this
      ensures session.Some? ==> user == Some(MapUser(session.value))
      ensures session.None? ==> user == old(user)
      ensures !isLoading
    {
      if session.Some? {
        user := Some(MapUser(session.value));
      }
      isLoading := false;
    }

    /** `onAuthStateChange`: a session user is mapped, no session clears the user; loading
        ends either way. */
    method AuthStateChanged(session: Option<BackendUser>)
      modifies this
      ensures session.Some? ==> user == Some(MapUser(session.value))
      ensures session.None? ==> user.None? && !Value().isAuthenticated
      ensures !isLoading
    {
      if session.Some? {
        user := Some(MapUser(session.value));
      } else {
        user := None;
      }
      isLoading := false;
    }

    /** `logout`: after the sign-out call the user is cleared. */
    method Logout()
      modifies this
      ensures user.None? && !Value().isAuthenticated
      ensures isLoading == old(isLoading)
    {
      user := None;
    }
  }
}
