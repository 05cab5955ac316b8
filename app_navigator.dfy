/** The screen selection of src/navigation/appNavigator.js, and what it shows at start-up
    as the session gate of src/contexts/AuthContext.js settles. */
module AppNavigator {
  import opened Wrappers
  import opened ErrorHandler
  import opened AuthContext

  datatype ScreenName = Login | Products | ProductDetail

  /** A full-screen spinner, or a stack with the registered screens. */
  datatype NavView = LoadingSpinner | Stack(screens: seq<ScreenName>)

  function Navigator(isLoading: bool, isAuthenticated: bool): (v: NavView)
    ensures v.LoadingSpinner? <==> isLoading
    ensures v.Stack? ==> (Login in v.screens <==> !isAuthenticated)
    ensures v.Stack? ==> (Products in v.screens <==> isAuthenticated)
    ensures v.Stack? ==> (ProductDetail in v.screens <==> isAuthenticated)
  {
    if isLoading then LoadingSpinner
    else if !isAuthenticated then Stack([Login])
    else Stack([Products, ProductDetail])
  }

  /** Login and Products are never registered together. */
  lemma LoginExcludesProducts(isLoading: bool, isAuthenticated: bool)
    ensures var v := Navigator(isLoading, isAuthenticated);
      v.Stack? ==> !(Login in v.screens && Products in v.screens)
  {
  }

  /** Mounting the provider (the navigator reads only the context's exposed value): the first render is the spinner; once checkAuthStatus has run,
      the stack is Products/ProductDetail exactly when a non-empty token could be read, and
      Login otherwise. */
  method Startup(store: TokenStore, readFailure: Option<Fault>, timestamp: string)
    returns (first: NavView, settled: NavView)
    ensures first == LoadingSpinner
    ensures settled ==
      if readFailure.None? && HasToken(store.token) then Stack([Products, ProductDetail])
      else Stack([Login])
  {
    var auth := new AuthProvider(store);
    var shown := auth.Exposed();
    first := Navigator(shown.isLoading, shown.isAuthenticated);
    auth.CheckAuthStatus(readFailure, timestamp);
    shown := auth.Exposed();
    settled := Navigator(shown.isLoading, shown.isAuthenticated);
  }
}
