/** The auth session (src/hooks/useAuth.tsx): the `user` and `loading` state of
    `AuthProvider`, driven by `login`, `logout` and `switchRole`. */
module Auth {
  import opened Types
  import opened ApiService

  /** `{ ...user, role }` when a user is signed in; nothing otherwise. */
  function WithRole(user: Option<User>, role: Role): (r: Option<User>)
    ensures r.None? <==> user.None?
    ensures r.Some? ==> r.value.role == role
    ensures r.Some? ==> r.value.id == user.value.id && r.value.name == user.value.name &&
                        r.value.email == user.value.email && r.value.avatar == user.value.avatar
  {
    if user.Some? then Some(user.value.(role := role)) else None
  }

  /** Switching to a role twice is switching once. */
  lemma WithRoleIdempotent(user: Option<User>, role: Role)
    ensures WithRole(WithRole(user, role), role) == WithRole(user, role)
  {
  }

  /** The provider's state. */
  class AuthProvider {
    var user: Option<User>
    var loading: bool

    /** No user and not loading. */
    constructor ()
      ensures user == None && !loading
    {
      user := None;
      loading := false;
    }

    /** `login`: sets `loading`, stores what the store's `login` returns, and
        clears `loading` in `finally`. */
    method Login(api: Api, email: string, password: string)
      modifies this
      ensures user == api.Login(email, password)
      ensures !loading
    {
      loading := true;
      user := api.Login(email, password);
      loading := false;
    }

    method Logout()
      modifies this`user
      ensures user == None
    {
      user := None;
    }

    /** `switchRole(r)`: replaces the role of the signed-in user; without one,
        nothing happens. */
    method SwitchRole(role: Role)
      modifies this`user
      ensures user == WithRole(old(user), role)
      ensures old(user).None? ==> user == old(user)
    {
      if user.Some? {
        user := Some(user.value.(role := role));
      }
    }
  }
}
