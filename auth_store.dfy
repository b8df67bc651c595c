/** The client-side session store: the signed-in user and a loading flag. */
module AuthStore {
  import opened Common

  datatype User = User(id: string, email: string, role: string)

  class Store {
    var user: Option<User>
    var isLoading: bool

    /** The initial state: nobody signed in, still loading. */
    constructor ()
      ensures user == None && isLoading
    {
      user := None;
      isLoading := true;
    }

    /** `isAuthenticated`: a user is present. */
    function IsAuthenticated(): bool
      reads this
    {
      user.Some?
    }

    /** `hasRole`: `user?.role === role`, false when nobody is signed in. */
    function HasRole(role: string): (b: bool)
      reads this
      ensures b ==> IsAuthenticated()
      ensures b <==> user.Some? && user.value.role == role
    {
      user.Some? && user.value.role == role
    }

    /** `setUser` replaces the user and leaves the loading flag alone. */
    method SetUser(u: Option<User>)
      modifies this
      ensures user == u && isLoading == old(isLoading)
      ensures IsAuthenticated() <==> u.Some?
    {
      user := u;
    }

    /** `setLoading` replaces the loading flag and leaves the user alone. */
    method SetLoading(loading: bool)
      modifies this
      ensures isLoading == loading && user == old(user)
      ensures IsAuthenticated() == old(IsAuthenticated())
    {
      isLoading := loading;
    }

    /** `signOut`: unless the provider's sign-out throws, the user is cleared, even when it
        resolves with an error; a throw is swallowed and leaves the state unchanged. */
    method SignOut(signOutThrew: bool)
      modifies this
      ensures !signOutThrew ==> user == None && !IsAuthenticated()
      ensures !signOutThrew ==> forall role :: !HasRole(role)
      ensures signOutThrew ==> user == old(user)
      ensures isLoading == old(isLoading)
    {
      if !signOutThrew {
        user := None;
      }
    }
  }

  /** Holding any role requires being signed in, and a signed-in user holds exactly one
      role. */
  lemma RolesAreExclusive(s: Store, r1: string, r2: string)
    requires s.HasRole(r1) && s.HasRole(r2)
    ensures r1 == r2 && s.IsAuthenticated()
  {
  }
}
