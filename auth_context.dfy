/** The session store of src/context/AuthContext.tsx. The browser's
    `localStorage` slot `token` and the API client's default
    `Authorization` header are fields of the store; the `/user` and
    `/logout` requests are outcome parameters. */
module AuthContext {
  import opened Wrappers
  import opened Types

  /** The header value that `login` and `checkAuth` install. */
  function BearerHeader(token: string): string {
    "Bearer " + token
  }

  /** `if (!token)`: a missing slot and an empty string are both falsy. */
  predicate HasToken(stored: Option<string>) {
    stored.Some? && stored.value != ""
  }

  /** Everything the store holds, as one value. */
  datatype SessionState = SessionState(
    user: Option<User>,
    loading: bool,
    storedToken: Option<string>,
    authHeader: Option<string>)

  class AuthProvider {
    var user: Option<User>
    var loading: bool
    /** `localStorage.getItem('token')`. */
    var storedToken: Option<string>
    /** `api.defaults.headers.common['Authorization']`. */
    var authHeader: Option<string>

    function State(): SessionState
      reads this
    {
      SessionState(user, loading, storedToken, authHeader)
    }

    /** Mounting: `user` is null and `loading` true; the token slot and
        the client's header are whatever the browser and the API module
        hold at start. */
    constructor (persisted: Option<string>, header: Option<string>)
      ensures user == None && loading
      ensures storedToken == persisted && authHeader == header
    {
      user := None;
      loading := true;
      storedToken := persisted;
      authHeader := header;
    }

    /** `checkAuth`, the mount effect. Without a token it only ends the
        loading phase. With one it installs the header, then asks `/user`:
        a profile becomes the user; a failure removes the token and clears
        the user but leaves the header in place. */
    method CheckAuth(response: Result<User, string>)
      modifies this
      ensures !loading
      ensures !HasToken(old(storedToken)) ==>
        user == old(user) && storedToken == old(storedToken) && authHeader == old(authHeader)
      ensures HasToken(old(storedToken)) ==>
        authHeader == Some(BearerHeader(old(storedToken).value)) &&
        (response.Ok? ==> user == Some(response.value) && storedToken == old(storedToken)) &&
        (response.Err? ==> user == None && storedToken == None)
    {
      var token := storedToken;
      if !HasToken(token) {
        loading := false;
        return;
      }
      authHeader := Some(BearerHeader(token.value));
      match response {
        case Ok(profile) =>
          user := Some(profile);
        case Err(_) =>
          storedToken := None;
          user := None;
      }
      loading := false;
    }

    /** `login(token, newUser)`: store the token, install the header and
        set the user. The new state depends only on the arguments (and the
        untouched `loading`), so a second identical call changes nothing. */
    method Login(token: string, newUser: User)
      modifies this
      ensures storedToken == Some(token)
      ensures authHeader == Some(BearerHeader(token))
      ensures user == Some(newUser)
      ensures loading == old(loading)
    {
      storedToken := Some(token);
      authHeader := Some(BearerHeader(token));
      user := Some(newUser);
    }

    /** `logout()`: whatever became of the `/logout` request, the token and
        the header are removed and the user cleared. */
    method Logout(backendReached: bool)
      modifies this
      ensures storedToken == None && authHeader == None && user == None
      ensures loading == old(loading)
    {
      storedToken := None;
      authHeader := None;
      user := None;
    }

    /** `updateUser(updatedUser)`: only the user changes. */
    method UpdateUser(updatedUser: User)
      modifies this
      ensures user == Some(updatedUser)
      ensures loading == old(loading) && storedToken == old(storedToken) && authHeader == old(authHeader)
    {
      user := Some(updatedUser);
    }
  }

  /** Calling `login` twice with the same arguments leaves the same state
      as calling it once. */
  method LoginTwice(store: AuthProvider, token: string, newUser: User) returns (afterOnce: SessionState)
    modifies store
    ensures afterOnce == old(store.State()).(user := Some(newUser), storedToken := Some(token),
                                             authHeader := Some(BearerHeader(token)))
    ensures store.State() == afterOnce
  {
    store.Login(token, newUser);
    afterOnce := store.State();
    store.Login(token, newUser);
  }
}
