/** The authentication provider: a `user`/`loading` state machine layered over
    the session store. Navigation is returned as a value instead of performed. */
module AuthContext {
  import opened Wrappers
  import opened Types
  import Auth

  const DashboardPath: string := "/dashboard"
  const LoginPath: string := "/login"

  /** The user `checkAuthStatus` leaves behind, given the storage it finds, the
      user held before, and whether reading the storage throws. */
  function UserAfterCheck(items: map<string, string>, previous: Option<User>, storageThrows: bool): Option<User> {
    if storageThrows then None
    else if Auth.IsAuthenticated(items) then Auth.GetCurrentUser(items)
    else previous
  }

  /** The storage `checkAuthStatus` leaves behind: cleared only on the error path. */
  function StoreAfterCheck(items: map<string, string>, storageThrows: bool): map<string, string> {
    if storageThrows then Auth.StoreAfterLogout(items) else items
  }

  class AuthProvider {
    var user: Option<User>
    var loading: bool
    const store: Auth.LocalStorage

    constructor (store: Auth.LocalStorage)
      ensures user == None && loading
      ensures this.store == store
    {
      user := None;
      loading := true;
      this.store := store;
    }

    /** The exposed `isAuthenticated`: derived from `user`, not from the token. */
    predicate IsAuthenticated()
      reads this
    {
      user.Some?
    }

    /** The startup effect `checkAuthStatus`. `storageThrows` stands for a
        storage read that raises; the catch branch then clears the session. */
    method CheckAuthStatus(storageThrows: bool)
      modifies this, store
      ensures !loading
      ensures user == UserAfterCheck(old(store.items), old(user), storageThrows)
      ensures store.items == StoreAfterCheck(old(store.items), storageThrows)
    {
      loading := true;
      if storageThrows {
        Auth.Logout(store);
        user := None;
      } else if Auth.IsAuthenticated(store.items) {
        user := Auth.GetCurrentUser(store.items);
      }
      loading := false;
    }

    /** `login(email, password)`: on success sets the user and navigates to the
        dashboard; on failure rethrows with the user unchanged and no navigation. */
    method Login(email: string, password: string, now: nat)
        returns (outcome: Result<Auth.LoginResponse, string>, navigateTo: Option<string>)
      modifies this, store
      ensures outcome == Auth.Authenticate(email, password, now)
      ensures store.items == Auth.StoreAfterLogin(old(store.items), outcome)
      ensures outcome.Success? ==> user == Some(outcome.value.user) && navigateTo == Some(DashboardPath)
      ensures outcome.Failure? ==> user == old(user) && navigateTo == None
      ensures !loading
    {
      loading := true;
      outcome := Auth.Login(store, email, password, now);
      if outcome.Success? {
        user := Some(outcome.value.user);
        navigateTo := Some(DashboardPath);
      } else {
        navigateTo := None;
      }
      loading := false;
    }

    /** `logout()`: clears the store, drops the user and navigates to the login page. */
    method Logout() returns (navigateTo: string)
      modifies this, store
      ensures user == None && !IsAuthenticated()
      ensures store.items == Auth.StoreAfterLogout(old(store.items))
      ensures loading == old(loading)
      ensures navigateTo == LoginPath
    {
      Auth.Logout(store);
      user := None;
      navigateTo := LoginPath;
    }
  }

  /** At startup a user is only ever taken from storage that holds a token;
      without one the previous user stays. */
  lemma CheckNeedsToken(items: map<string, string>, previous: Option<User>)
    ensures !Auth.IsAuthenticated(items) ==> UserAfterCheck(items, previous, false) == previous
    ensures Auth.IsAuthenticated(items) ==> UserAfterCheck(items, previous, false) == Auth.GetCurrentUser(items)
    ensures UserAfterCheck(items, previous, true) == None
    ensures StoreAfterCheck(items, false) == items
    ensures !Auth.IsAuthenticated(StoreAfterCheck(items, true))
  {
    Auth.LogoutClearsSession(items);
  }

  /** Reload round trip: after a successful login, a fresh provider that checks
      the same storage recovers exactly the logged-in user. */
  lemma ReloadRestoresUser(items: map<string, string>, email: string, password: string, now: nat)
    requires Auth.Authenticate(email, password, now).Success?
    ensures UserAfterCheck(Auth.StoreAfterLogin(items, Auth.Authenticate(email, password, now)), None, false)
            == Some(Auth.Authenticate(email, password, now).value.user)
  {
    Auth.LoginStoresSession(items, email, password, now);
  }

  /** After logout, a fresh provider finds no session. */
  lemma ReloadAfterLogout(items: map<string, string>)
    ensures UserAfterCheck(Auth.StoreAfterLogout(items), None, false) == None
  {
    Auth.LogoutClearsSession(items);
  }

  /** On storage the client itself wrote, the provider's `isAuthenticated`
      after startup agrees with the token check. */
  lemma StartupAgreesWithToken(items: map<string, string>)
    requires Auth.SessionConsistent(items)
    ensures UserAfterCheck(items, None, false).Some? <==> Auth.IsAuthenticated(items)
  {
  }
}
