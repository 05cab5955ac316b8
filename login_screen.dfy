/** The login form of src/screens/LoginScreen.js: validate the two fields, then run the
    authentication call under the handler (LOGIN overrides) and, on success, establish the
    session with the returned token. Every failure is swallowed. */
module LoginScreen {
  import opened Wrappers
  import opened ErrorHandler
  import ErrorUtils
  import opened AuthContext

  /** The body of a successful POST /auth/login. */
  datatype LoginData = LoginData(token: string)

  const ValidationMessage: string := "Please enter username and password."

  /** `new Error('Please enter username and password.')`: a local fault with neither
      response nor request. */
  const ValidationFault: Fault := Fault(None, false, Some(ValidationMessage))

  /** The login button's `disabled` prop for a given hook state. */
  predicate LoginButtonDisabled(s: HookState) {
    s.isLoading
  }

  class LoginScreen {
    var username: string
    var password: string
    const handler: Handler
    const auth: AuthProvider

    ghost predicate Valid()
      reads this, handler, auth, auth.handler
    {
      && handler.customMessages == ErrorUtils.LoginMessages
      && handler.Valid()
      && auth.Valid()
      && handler != auth.handler
    }

    constructor (auth: AuthProvider)
      requires auth.Valid()
      ensures this.auth == auth && fresh(handler)
      ensures username == "" && password == ""
      ensures handler.State() == HookState(None, false)
      ensures Valid()
    {
      username := "";
      password := "";
      handler := new Handler(ErrorUtils.LoginMessages);
      this.auth := auth;
    }

    /** The inputs' onChangeText. */
    method SetUsername(s: string)
      modifies this
      ensures username == s && password == old(password)
    {
      username := s;
    }

    method SetPassword(s: string)
      modifies this
      ensures password == s && username == old(username)
    {
      password := s;
    }

    /** handleLogin. `service` is how the authentication call settles, `storeWrite` whether
        storing the token fails. `serviceCalled` tells whether the call was made,
        `sessionToken` the token login() was called with, and `running` the hook state
        while the call runs. */
    method HandleLogin(service: Result<LoginData, Fault>, storeWrite: Option<Fault>, timestamp: string)
      returns (serviceCalled: bool, sessionToken: Option<string>, ghost running: HookState)
      requires Valid()
      modifies handler, auth, auth.handler, auth.store
      ensures Valid()
      ensures serviceCalled <==> username != "" && password != ""
      // an empty field: the validation error is recorded and nothing else happens
      ensures !serviceCalled ==>
        && handler.State() == HookState(
             Some(handler.Describe(ValidationFault, "Form validation", timestamp)), old(handler.isLoading))
        && unchanged(auth, auth.handler, auth.store)
      // the call runs with loading on (so the button is disabled) and the error cleared
      ensures serviceCalled ==>
        && running == HookState(None, true) && LoginButtonDisabled(running)
        && handler.State() == HookState(
             if service.Failure? then Some(handler.Describe(service.error, "Login", timestamp)) else None,
             false)
      // login() receives exactly the returned token, only after a successful call
      ensures sessionToken == if serviceCalled && service.Success? then Some(service.value.token) else None
      ensures sessionToken.None? ==> unchanged(auth, auth.handler, auth.store)
      ensures sessionToken.Some? && storeWrite.None? ==>
        auth.store.token == sessionToken && auth.isAuthenticated
        && auth.handler.State() == old(auth.handler.State())
      ensures sessionToken.Some? && storeWrite.Some? ==>
        && auth.store.token == old(auth.store.token) && auth.isAuthenticated == old(auth.isAuthenticated)
        && auth.handler.error == Some(auth.handler.Describe(storeWrite.value, "Token storage", timestamp))
      ensures auth.isLoading == old(auth.isLoading)
    {
      if username == "" || password == "" {
        var _ := handler.HandleError(ValidationFault, "Form validation", timestamp);
        serviceCalled, sessionToken, running := false, None, handler.State();
        return;
      }
      handler.ClearError();
      var data;
      data, running := handler.ExecuteWithErrorHandling(service, "Login", timestamp);
      serviceCalled := true;
      if data.Success? {
        sessionToken := Some(data.value.token);
        var _ := auth.Login(data.value.token, storeWrite, timestamp);
      } else {
        sessionToken := None;
      }
    }
  }

  /** The validation fault's own message is used verbatim, it classifies as UNKNOWN (not
      VALIDATION) and it is not retryable. */
  lemma ValidationFaultRecord(h: Handler, timestamp: string)
    requires h.customMessages == ErrorUtils.LoginMessages
    ensures var info := h.Describe(ValidationFault, "Form validation", timestamp);
      info.message == ValidationMessage && info.errorType == UNKNOWN && !RetryableFault(info.originalError)
  {
  }

  /** Under the LOGIN overrides a 401 or 403 response reads 'Invalid username or password.'. */
  lemma RejectedCredentialsMessage(f: Fault)
    requires f.Status() == Some(401) || f.Status() == Some(403)
    ensures GetErrorMessage(f, ErrorUtils.LoginMessages) == "Invalid username or password."
  {
  }
}
