/** The session gate of src/contexts/AuthContext.js over an abstract token store, and the
    store-only logout of src/services/authService.js that useUserMenu calls. */
module AuthContext {
  import opened Wrappers
  import opened ErrorHandler

  /** The key-value store (AsyncStorage), reduced to its one key 'token'. Whether a call
      fails is the environment's choice, passed in as `failure`; a failing call changes
      nothing. */
  class TokenStore {
    var token: Option<string>

    constructor (token: Option<string>)
      ensures this.token == token
    {
      this.token := token;
    }

    method GetItem(failure: Option<Fault>) returns (r: Result<Option<string>, Fault>)
      ensures r == if failure.Some? then Failure(failure.value) else Success(token)
    {
      r := if failure.Some? then Failure(failure.value) else Success(token);
    }

    method SetItem(value: string, failure: Option<Fault>) returns (r: Result<(), Fault>)
      modifies this
      ensures r == if failure.Some? then Failure(failure.value) else Success(())
      ensures token == if failure.Some? then old(token) else Some(value)
    {
      if failure.Some? {
        r := Failure(failure.value);
      } else {
        token := Some(value);
        r := Success(());
      }
    }

    method RemoveItem(failure: Option<Fault>) returns (r: Result<(), Fault>)
      modifies this
      ensures r == if failure.Some? then Failure(failure.value) else Success(())
      ensures token == if failure.Some? then old(token) else None
    {
      if failure.Some? {
        r := Failure(failure.value);
      } else {
        token := None;
        r := Success(());
      }
    }
  }

  /** JavaScript `!!token`: a stored, non-empty token. */
  predicate HasToken(token: Option<string>) {
    token.Some? && token.value != ""
  }

  /** What the context exposes besides its three operations. */
  datatype AuthState = AuthState(isAuthenticated: bool, isLoading: bool)

  /** AuthProvider's state. Its own error handler (no overrides) records store failures;
      that record is not part of the exposed value. */
  class AuthProvider {
    var isAuthenticated: bool
    var isLoading: bool
    const handler: Handler
    const store: TokenStore

    ghost predicate Valid()
      reads this, handler
    {
      handler.customMessages == map[] && handler.Valid()
    }

    /** The exposed value: only the two flags (the operations are the methods below). */
    function Exposed(): AuthState
      reads this
    {
      AuthState(isAuthenticated, isLoading)
    }

    constructor (store: TokenStore)
      ensures !isAuthenticated && isLoading
      ensures this.store == store && fresh(handler)
      ensures handler.State() == HookState(None, false)
      ensures Valid()
    {
      isAuthenticated := false;
      isLoading := true;
      handler := new Handler(map[]);
      this.store := store;
    }

    /** checkAuthStatus: authenticated iff a non-empty token is stored; a read failure is
        recorded and gives false; loading ends in every outcome and nothing is thrown. */
    method CheckAuthStatus(readFailure: Option<Fault>, timestamp: string)
      requires Valid()
      modifies this, handler
      ensures Valid()
      ensures !isLoading
      ensures isAuthenticated == (readFailure.None? && HasToken(store.token))
      ensures handler.error == if readFailure.Some?
        then Some(handler.Describe(readFailure.value, "Authentication verification", timestamp))
        else old(handler.error)
      ensures handler.isLoading == old(handler.isLoading)
    {
      var r := store.GetItem(readFailure);
      if r.Success? {
        isAuthenticated := HasToken(r.value);
      } else {
        var _ := handler.HandleError(r.error, "Authentication verification", timestamp);
        isAuthenticated := false;
      }
      isLoading := false;
    }

    /** login(token): on a successful write the token is stored and the session is active;
        on a failed write the failure is recorded and rethrown and the flag is unchanged. */
    method Login(token: string, writeFailure: Option<Fault>, timestamp: string)
      returns (thrown: Option<Fault>)
      requires Valid()
      modifies this, handler, store
      ensures Valid()
      ensures thrown == writeFailure
      ensures isLoading == old(isLoading)
      ensures writeFailure.None? ==> store.token == Some(token) && isAuthenticated
                                     && handler.error == old(handler.error)
      ensures writeFailure.Some? ==>
        store.token == old(store.token) && isAuthenticated == old(isAuthenticated)
        && handler.error == Some(handler.Describe(writeFailure.value, "Token storage", timestamp))
      ensures handler.isLoading == old(handler.isLoading)
    {
      var r := store.SetItem(token, writeFailure);
      match r
      case Success(_) =>
        isAuthenticated := true;
        thrown := None;
      case Failure(e) =>
        var _ := handler.HandleError(e, "Token storage", timestamp);
        thrown := Some(e);
    }

    /** logout: on a successful removal the session ends; on a failed removal the failure
        is recorded, NOT rethrown, and the session flag is left as it was. */
    method Logout(removeFailure: Option<Fault>, timestamp: string)
      requires Valid()
      modifies this, handler, store
      ensures Valid()
      ensures isLoading == old(isLoading)
      ensures removeFailure.None? ==> store.token == None && !isAuthenticated
                                      && handler.error == old(handler.error)
      ensures removeFailure.Some? ==>
        store.token == old(store.token) && isAuthenticated == old(isAuthenticated)
        && handler.error == Some(handler.Describe(removeFailure.value, "Token removal", timestamp))
      ensures handler.isLoading == old(handler.isLoading)
    {
      var r := store.RemoveItem(removeFailure);
      match r
      case Success(_) =>
        isAuthenticated := false;
      case Failure(e) =>
        var _ := handler.HandleError(e, "Token removal", timestamp);
    }
  }

  /** The fault authService.logout throws in place of the store's own. */
  const LogoutFault: Fault := Fault(None, false, Some("Error during logout"))

  /** authService.logout: remove the token; on failure throw a fresh
      Error('Error during logout') instead of the store's fault. */
  method ServiceLogout(store: TokenStore, removeFailure: Option<Fault>) returns (thrown: Option<Fault>)
    modifies store
    ensures thrown == if removeFailure.Some? then Some(LogoutFault) else None
    ensures store.token == if removeFailure.Some? then old(store.token) else None
  {
    var r := store.RemoveItem(removeFailure);
    thrown := if r.Failure? then Some(LogoutFault) else None;
  }
}
