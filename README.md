# Error classification and session state of a React Native storefront

This project models the stateful core of a small mobile storefront client (a login
screen, a product list and a product detail view over a public REST API) in Dafny, and
proves properties of that model.

The main part is the error layer:

- **The error hook** (`useErrorHandler`). A raised fault is classified into one of five
  categories: NETWORK, AUTH, VALIDATION, SERVER, UNKNOWN. The test order is fixed: the
  response status first (401/403, then 5xx and above, then 4xx), then the `request`
  marker. A message is then chosen. The fault's own message comes first, but only when
  there is no response. Next comes a per-screen override table. Last comes a default
  table.
- **The hook's state.** Each hook holds `{error, isLoading}`. It changes through
  `handleError`, `clearError`, `executeWithErrorHandling` (loading on, clear, run, record
  and rethrow the original fault, loading off) and `retry`.
- **The stateless helpers** (`errorUtils`). They classify a second time, with four
  predicates tried in the order AUTH, SERVER, VALIDATION, NETWORK. Their message resolver
  uses a **different** precedence: an override beats the fault's own message. Their
  `asyncHandler` rethrows an error-info record instead of the fault.

Built on that layer:

- the session gate (`AuthContext`) over a token store whose calls may fail;
- the login form's validate-then-call flow;
- the product list's replace-on-success rule;
- the error banner's icon, colour and button rules;
- the grid's column formula;
- the detail screen's quantity selector;
- the user menu;
- the navigator's choice of registered screens.

Each file has one module: `Wrappers` (Option, Result), `ErrorHandler`, `ErrorUtils`,
`AuthContext`, `LoginScreen`, `ProductsScreen`, `ErrorDisplay`, `ProductGrid`,
`ProductDetailScreen`, `UserMenu` and `AppNavigator`. Pure code (the classifiers,
resolvers, render rules) becomes functions. Hook and component state that the source
updates step by step becomes a class whose methods `modify` it.

Inputs from the outside world become parameters:

- An awaited operation or service call (POST /auth/login, GET /products) is given as its
  settled outcome, `Result<T, Fault>`.
- A token-store call is given as `Option<Fault>`: `None` means it succeeds, `Some(f)`
  means it fails with `f`.
- The `new Date().toISOString()` timestamp is an opaque string argument.
- `ExecuteWithErrorHandling` returns a ghost `running` state. It is the hook state at the
  moment the operation runs, so "loading is on and the error is cleared before the
  operation starts" can be stated.

Faults are `Fault(response, request, message)`:

- `response` is an optional `Response(status)`, and the status itself may be missing.
- JavaScript truthiness decides presence: a message or an override entry counts only when
  it is a non-empty string.
- The source's field `type` is called `errorType`, because `type` is a Dafny keyword.

Three behaviours of the code worth noting:

- A failed token removal in `logout` leaves `isAuthenticated` unchanged. It does not
  flip the session to inactive.
- `executeWithErrorHandling` has no single-flight guard.
- The login form's missing-input fault classifies as UNKNOWN, not VALIDATION. It has
  neither a response nor a request.

## Model

| member | source | states |
|---|---|---|
| `ErrorHandler.DefaultMessage` | src/hooks/useErrorHandler.js:13-19 | the default table gives every one of the five types a non-empty message |
| `ErrorHandler.DefaultMessagesDistinct` | src/hooks/useErrorHandler.js:13-19 | the default messages are pairwise distinct: one message per type |
| `ErrorHandler.AuthStatusFirst` | src/hooks/useErrorHandler.js:22-26 | status 401 or 403 is AUTH whatever else the fault carries (tested before >= 500 and >= 400) |
| `ErrorHandler.ResponseClassification` | src/hooks/useErrorHandler.js:23-31 | with a response, status >= 500 is SERVER, [400,500) other than 401/403 is VALIDATION, and a missing status or one below 400 is UNKNOWN even if `request` is set |
| `ErrorHandler.NoResponseClassification` | src/hooks/useErrorHandler.js:32-35 | without a response, `request` gives NETWORK and its absence UNKNOWN |
| `ErrorHandler.ClassifyByStatusClass` | src/hooks/useErrorHandler.js:22-31 | for codes 100..599, 401 (RFC 9110 section 15.5.2) and 403 (section 15.5.4) are AUTH, other client errors (section 15.5) VALIDATION, server errors (section 15.6) SERVER, 1xx-3xx UNKNOWN |
| `ErrorHandler.ClassifyError` | src/hooks/useErrorHandler.js:22-36 | AUTH iff the status is 401 or 403; SERVER iff it is 500 or more; VALIDATION iff it is another code in [400,500); NETWORK iff there is no response and `request` is set; UNKNOWN otherwise |
| `ErrorHandler.GetErrorMessage` | src/hooks/useErrorHandler.js:39-53 | the message is never empty and is the fault's own message, the override for its type, or that type's default |
| `ErrorHandler.OwnMessageFirst` | src/hooks/useErrorHandler.js:41-43 | a fault with a message and no response gets its own message verbatim, whatever the overrides hold |
| `ErrorHandler.TableMessage` | src/hooks/useErrorHandler.js:46-52 | otherwise the truthy override for the classified type, else the default entry |
| `ErrorHandler.Handler.constructor` | src/hooks/useErrorHandler.js:55-57 | a new hook holds the given overrides, no error and loading off |
| `ErrorHandler.Handler.Describe` | src/hooks/useErrorHandler.js:63-69 | the record built for a fault carries its classification and resolved message, the fault itself, the context and the timestamp |
| `ErrorHandler.Handler.HandleError` | src/hooks/useErrorHandler.js:60-73 | stores and returns that record; loading is untouched |
| `ErrorHandler.Handler.ClearError` | src/hooks/useErrorHandler.js:76-78 | the error becomes null; loading is untouched |
| `ErrorHandler.Handler.ExecuteWithErrorHandling` | src/hooks/useErrorHandler.js:81-94 | the operation runs with loading on and no error; the result is returned and the ORIGINAL fault rethrown; afterwards loading is off and the error is null on success, the fault's record on failure |
| `ErrorHandler.Handler.Retry` | src/hooks/useErrorHandler.js:97-99 | the same contract as executeWithErrorHandling with the same arguments |
| `ErrorHandler.Handler.IsErrorType` | src/hooks/useErrorHandler.js:102-104 | holds iff there is an error and its fault classifies as the given type |
| `ErrorHandler.Handler.IsRetryable` | src/hooks/useErrorHandler.js:107-109 | holds iff there is an error whose fault had no response but a request, or a status >= 500; false with no error |
| `ErrorHandler.RunTwice` | src/hooks/useErrorHandler.js:81-94 | on one hook, the first run leaves an error iff it fails, and the final state depends on the second run alone (a failure then a success leaves no error) |
| `ErrorUtils.IsNetworkError` | src/utils/errorUtils.js:6-8 | holds exactly of the faults the hook classifies NETWORK |
| `ErrorUtils.IsServerError` | src/utils/errorUtils.js:11-13 | holds exactly of the faults the hook classifies SERVER |
| `ErrorUtils.IsAuthError` | src/utils/errorUtils.js:16-18 | holds exactly of the faults the hook classifies AUTH |
| `ErrorUtils.IsValidationError` | src/utils/errorUtils.js:21-23 | holds exactly of the faults the hook classifies AUTH or VALIDATION, so it overlaps isAuthError |
| `ErrorUtils.GetErrorType` | src/utils/errorUtils.js:6-32 | AUTH iff isAuthError, SERVER iff isServerError, VALIDATION iff isValidationError and not isAuthError, NETWORK iff isNetworkError |
| `ErrorUtils.AuthOverlapsValidation` | src/utils/errorUtils.js:16-32 | 401/403 satisfy both isAuthError and isValidationError, and getErrorType resolves them to AUTH |
| `ErrorUtils.ClassifyAgrees` | src/utils/errorUtils.js:26-32 | getErrorType equals the hook's classifyError on every fault |
| `ErrorUtils.DefaultMessage` | src/utils/errorUtils.js:49-55 | formatErrorMessage's local table gives every type a non-empty message |
| `ErrorUtils.DefaultTablesAgree` | src/utils/errorUtils.js:49-55 | that table equals the hook's default table entry by entry |
| `ErrorUtils.FormatErrorMessage` | src/utils/errorUtils.js:35-58 | the message is never empty and is the override for the type, the fault's own message, or the default |
| `ErrorUtils.OverrideFirst` | src/utils/errorUtils.js:39-42 | a truthy override for the type wins, even over the fault's own message |
| `ErrorUtils.FormatWithoutOverride` | src/utils/errorUtils.js:44-57 | without one, the own message when there is no response, else the default |
| `ErrorUtils.PrecedenceDifference` | src/utils/errorUtils.js:35-58 | the two resolvers disagree exactly when the own message applies and a truthy override for the type differs from it |
| `ErrorUtils.PrecedenceDiffersOnNetworkFault` | src/utils/errorUtils.js:35-47 | some fault (a dropped connection with its own message, PRODUCTS table) gets different messages from the two resolvers |
| `ErrorUtils.SameMessageWithoutOverrides` | src/utils/errorUtils.js:61-63 | with no overrides the two resolvers agree |
| `ErrorUtils.CreateErrorInfo` | src/utils/errorUtils.js:61-70 | type is the classification, retryable iff NETWORK or SERVER, message formatted without overrides, fault, context and timestamp passed through |
| `ErrorUtils.CreateErrorInfoMatchesHook` | src/utils/errorUtils.js:61-70 | it builds the same record as an override-free hook's handleError, apart from `retryable` |
| `ErrorUtils.IsRetryable` | src/utils/errorUtils.js:73-76 | holds iff the fault has no response but a request, or a status of 500 or more |
| `ErrorUtils.RetryableAgrees` | src/utils/errorUtils.js:73-76 | isRetryable of a fault equals the hook's isRetryable on the record of that fault |
| `ErrorUtils.AsyncHandler` | src/utils/errorUtils.js:86-93 | success passes the value through; failure rejects with exactly createErrorInfo's record for the fault and context (so its type and message are the hook's), not the fault |
| `ErrorUtils.LoginOverrides` | src/utils/errorUtils.js:98-102 | LOGIN overrides exactly AUTH, VALIDATION and NETWORK; SERVER and UNKNOWN response faults get the defaults |
| `ErrorUtils.ProductsOverrides` | src/utils/errorUtils.js:103-106 | PRODUCTS overrides exactly NETWORK and SERVER |
| `ErrorUtils.CartProfileOverrides` | src/utils/errorUtils.js:107-114 | CART overrides exactly VALIDATION and NETWORK, PROFILE exactly AUTH and NETWORK; response faults of the other types get the defaults |
| `AuthContext.TokenStore.constructor` | src/contexts/AuthContext.js:28 | a store holding the given token |
| `AuthContext.TokenStore.GetItem` | src/contexts/AuthContext.js:28 | a read returns the stored token or fails with the given fault |
| `AuthContext.TokenStore.SetItem` | src/contexts/AuthContext.js:40 | a write stores the token, or fails and changes nothing |
| `AuthContext.TokenStore.RemoveItem` | src/contexts/AuthContext.js:50 | a removal clears the token, or fails and changes nothing |
| `AuthContext.AuthProvider.constructor` | src/contexts/AuthContext.js:16-19 | starts unauthenticated and loading, with an override-free hook and no error |
| `AuthContext.AuthProvider.CheckAuthStatus` | src/contexts/AuthContext.js:26-36 | authenticated iff the read succeeds and a non-empty token is stored; a read failure is recorded; loading ends in every outcome; nothing is thrown |
| `AuthContext.AuthProvider.Login` | src/contexts/AuthContext.js:38-46 | a successful write stores the token and authenticates; a failed write is recorded and rethrown, and the flag is unchanged |
| `AuthContext.AuthProvider.Logout` | src/contexts/AuthContext.js:48-55 | a successful removal ends the session; a failed one is recorded, not rethrown, and the flag is unchanged |
| `AuthContext.ServiceLogout` | src/services/authService.js:17-25 | removes the token; on failure throws Error('Error during logout') instead of the store's fault |
| `LoginScreen.LoginButtonDisabled` | src/screens/LoginScreen.js:101 | the button is disabled while the hook is loading; HandleLogin's contract shows it disabled while the call runs |
| `LoginScreen.LoginScreen.constructor` | src/screens/LoginScreen.js:16-26 | empty fields and a fresh hook with the LOGIN overrides |
| `LoginScreen.LoginScreen.SetUsername` | src/screens/LoginScreen.js:86 | sets the username only |
| `LoginScreen.LoginScreen.SetPassword` | src/screens/LoginScreen.js:92 | sets the password only |
| `LoginScreen.LoginScreen.HandleLogin` | src/screens/LoginScreen.js:41-58 | an empty field records the validation fault under 'Form validation' and calls nothing; otherwise the call runs with loading on (button disabled) and error cleared under 'Login'; login() gets exactly the returned token; nothing is thrown |
| `LoginScreen.ValidationFaultRecord` | src/screens/LoginScreen.js:43 | the validation fault keeps its own message, classifies UNKNOWN and is not retryable |
| `LoginScreen.RejectedCredentialsMessage` | src/screens/LoginScreen.js:26 | under LOGIN, a 401/403 response reads 'Invalid username or password.' |
| `ProductsScreen.ProductsScreen.constructor` | src/screens/ProductsScreen.js:15-28 | no products and a fresh hook with the PRODUCTS overrides |
| `ProductsScreen.ProductsScreen.LoadProducts` | src/screens/ProductsScreen.js:34-44 | success replaces the list with exactly the returned one; failure keeps it and records the fault; nothing is thrown |
| `ProductsScreen.ProductsScreen.OnRetry` | src/screens/ProductsScreen.js:64 | the banner's retry re-runs loadProducts |
| `ProductsScreen.ProductsScreen.OnRefresh` | src/screens/ProductsScreen.js:72 | pull-to-refresh re-runs loadProducts |
| `ProductsScreen.ProductsScreen.Shown` | src/screens/ProductsScreen.js:61-74 | the banner replaces the grid exactly when there is an error; the grid shows the products and the loading flag |
| `ProductsScreen.ConnectionLostMessage` | src/screens/ProductsScreen.js:28 | under PRODUCTS a dropped connection without a message reads the products override; one with a message shows that message |
| `ErrorDisplay.ErrorIcon` | src/components/ErrorDisplay.js:16-29 | the icon per type; IconsDistinct shows no two types share one |
| `ErrorDisplay.ErrorColor` | src/components/ErrorDisplay.js:31-44 | the colour per type; ColorGroups gives the three colour groups |
| `ErrorDisplay.Render` | src/components/ErrorDisplay.js:6-81 | nothing without an error; otherwise icon and colour by type, the message, the context line iff the context is non-empty, dismiss iff showDismiss (default false) and onDismiss, retry iff showRetry (default true), NETWORK/SERVER and onRetry |
| `ErrorDisplay.IconsDistinct` | src/components/ErrorDisplay.js:16-29 | every type has its own icon |
| `ErrorDisplay.ColorGroups` | src/components/ErrorDisplay.js:31-44 | amber iff NETWORK or VALIDATION, red iff AUTH or SERVER, gray iff UNKNOWN |
| `ErrorDisplay.RetryButtonMatchesHook` | src/components/ErrorDisplay.js:46-81 | for a hook's error, the retry button shows iff showRetry is not false, onRetry is given and the hook's isRetryable holds |
| `ProductGrid.ColumnCount` | src/components/ProductGrid.js:10-20 | the column count always lies in [2,4] |
| `ProductGrid.ColumnCountThresholds` | src/components/ProductGrid.js:15-17 | 2 columns below width 484, 3 up to 639, 4 from 640 |
| `ProductGrid.ColumnCountMonotone` | src/components/ProductGrid.js:16-17 | a wider window never gives fewer columns |
| `ProductGrid.Grid.constructor` | src/components/ProductGrid.js:8 | a new grid starts with 2 columns |
| `ProductGrid.Grid.OnWidth` | src/components/ProductGrid.js:10-20 | after the effect runs for a width, the column count is the formula's value for that width, within 2..4 |
| `ProductGrid.Render` | src/components/ProductGrid.js:29-47 | spinner iff loading with an empty list, nothing iff not loading with an empty list, otherwise the list with refreshing = loading |
| `ProductDetailScreen.ProductDetail.constructor` | src/screens/ProductDetailScreen.js:23-25 | quantity 1, no toast, no image error |
| `ProductDetailScreen.ProductDetail.IncreaseQuantity` | src/screens/ProductDetailScreen.js:35-37 | adds exactly one |
| `ProductDetailScreen.ProductDetail.DecreaseQuantity` | src/screens/ProductDetailScreen.js:39-43 | subtracts one only above 1, so quantity >= 1 is kept |
| `ProductDetailScreen.ProductDetail.HandleAddToBag` | src/screens/ProductDetailScreen.js:49-52 | shows the toast, quantity unchanged |
| `ProductDetailScreen.ProductDetail.SetShowSuccessMessage` | src/screens/ProductDetailScreen.js:72-76 | the setter handed to the toast sets the flag only |
| `ProductDetailScreen.ProductDetail.OnImageError` | src/screens/ProductDetailScreen.js:93 | sets imageError; no operation clears it |
| `ProductDetailScreen.ProductDetail.DecrementDisabled` | src/screens/ProductDetailScreen.js:124-125 | disabled iff quantity is 1 or the toast shows; when enabled, quantity > 1 |
| `ProductDetailScreen.ProductDetail.IncrementDisabled` | src/screens/ProductDetailScreen.js:137 | the '+' control's disabled flag; ToastLocksControls shows it is set exactly while the toast shows |
| `ProductDetailScreen.ProductDetail.AddToCartDisabled` | src/screens/ProductDetailScreen.js:150 | ADD TO CART's disabled flag; ToastLocksControls shows it is set exactly while the toast shows |
| `ProductDetailScreen.ToastLocksControls` | src/screens/ProductDetailScreen.js:124-150 | while the toast shows all three controls are disabled; without it '+' and ADD TO CART are enabled and '-' is disabled only at quantity 1 |
| `UserMenu.Toggle` | src/hooks/useUserMenu.js:10 | the updater always flips the flag |
| `UserMenu.PressTwice` | src/hooks/useUserMenu.js:9-11 | pressing the user icon twice leaves the menu as it was |
| `UserMenu.UserMenu.constructor` | src/hooks/useUserMenu.js:5-7 | the menu starts closed |
| `UserMenu.UserMenu.HandleUserPress` | src/hooks/useUserMenu.js:9-11 | toggles the flag |
| `UserMenu.UserMenu.HandleCloseMenu` | src/hooks/useUserMenu.js:13-15 | closes the menu whatever its state |
| `UserMenu.UserMenu.SetShowUserMenu` | src/hooks/useUserMenu.js:35 | the exposed setter sets the flag |
| `UserMenu.UserMenu.HandleLogout` | src/hooks/useUserMenu.js:17-27 | success closes the menu and replaces with 'Login' only given a navigation with replace; failure records the logout fault under 'Logout', keeps the flag, throws nothing |
| `UserMenu.LogoutFailureRecord` | src/hooks/useUserMenu.js:24-26 | the recorded logout failure reads 'Error during logout', type UNKNOWN |
| `AppNavigator.Navigator` | src/navigation/appNavigator.js:15-35 | the spinner iff loading; otherwise Login iff not authenticated, Products and ProductDetail iff authenticated |
| `AppNavigator.LoginExcludesProducts` | src/navigation/appNavigator.js:28-35 | Login and Products are never registered together |
| `AppNavigator.Startup` | src/contexts/AuthContext.js:16-63 | reading only the context's exposed flags: at mount the spinner shows; after checkAuthStatus, Products/ProductDetail iff a non-empty token was read, otherwise Login |

## Left out

- HTTP calls (src/services/authService.js login, src/services/productService.js): not modelled. Each call is the outcome it settles with; the axios timeout setting is not modelled.
- AsyncStorage: represented only by `TokenStore`'s one key. Failures are chosen by the caller rather than arising non-deterministically.
- src/services/authService.js isAuthenticated: not modelled, because no core file calls it.
- src/components/SuccessToast.js and src/components/ErrorBoundary.js: not modelled. They depend on animations, timers and React's error lifecycle. The toast's hiding is only the `SetShowSuccessMessage` setter.
- Price formatting (`toFixed`) and `Dimensions`-based sizing: not modelled, because they are floating-point layout.
- ProductGrid.ColumnCount: takes the window width as an integer. The source's width is a floating-point value.
- ProductGrid.Render: takes `numColumns` as an argument, which is `Grid.numColumns`. When React runs the effect after a width change is not modelled; `Grid.OnWidth` is called explicitly.
- Styles and presentational components (Header, CustomButton, CustomInput, LoadingSpinner, ProductCard, the UserMenu Alert dialog, App.js): not modelled, because they are presentation only.
- `console.error` / `console.log` logging: not modelled. errorUtils' `logError` is therefore just `CreateErrorInfo` inside `AsyncHandler`.
- Timestamps: opaque arguments.
- Overlapping handler calls, stale results, React state batching, `useCallback` memoisation and stale closures: not modelled. Everything is sequential.
- The context value (src/contexts/AuthContext.js:57-63): `AuthProvider.Exposed` holds only the two flags and has no contract of its own. `AppNavigator.Startup` reads the session only through it. The recorded error is not part of it.
- The screens' own `handleLogout` (src/screens/ProductsScreen.js:46-49, src/screens/ProductDetailScreen.js:58-61): not modelled. Each only combines `SetShowUserMenu(false)` with an unawaited `AuthProvider.Logout`, and both are modelled.
- `handleProductAdd` and `handleBackPress`: not modelled. They only log and call `goBack`.
- `useAuth`'s throw outside a provider: not modelled, because it belongs to the framework.
- The hook's returned `ERROR_TYPES` is the `ErrorType` datatype itself.
- The ErrorDisplay type switches' `default` branch: the model covers only UNKNOWN there. A record's type is always one of the five types.
