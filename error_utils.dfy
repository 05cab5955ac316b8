/** The stateless error helpers of src/utils/errorUtils.js: the category predicates,
    getErrorType, formatErrorMessage (whose precedence differs from the hook's
    getErrorMessage), createErrorInfo, isRetryable, asyncHandler, and the per-screen
    override tables; and how each relates to the hook's own classifier and messages. */
module ErrorUtils {
  import opened Wrappers
  import opened ErrorHandler

  /** isNetworkError: no response, and `request` set. */
  predicate IsNetworkError(f: Fault): (r: bool)
    ensures r <==> ClassifyError(f) == NETWORK
  {
    f.response.None? && f.request
  }

  /** isServerError: a response with status 500 or more. */
  predicate IsServerError(f: Fault): (r: bool)
    ensures r <==> ClassifyError(f) == SERVER
  {
    f.Status().Some? && f.Status().value >= 500
  }

  /** isAuthError: a response with status 401 or 403. */
  predicate IsAuthError(f: Fault): (r: bool)
    ensures r <==> ClassifyError(f) == AUTH
  {
    f.Status() == Some(401) || f.Status() == Some(403)
  }

  /** isValidationError: a response with status in [400, 500), 401 and 403 included, so
      it also holds of every fault the hook calls AUTH. */
  predicate IsValidationError(f: Fault): (r: bool)
    ensures r <==> ClassifyError(f) in {AUTH, VALIDATION}
  {
    f.Status().Some? && 400 <= f.Status().value < 500
  }

  /** getErrorType: the predicates tried in the order AUTH, SERVER, VALIDATION, NETWORK. */
  function GetErrorType(f: Fault): (t: ErrorType)
    ensures t == AUTH <==> IsAuthError(f)
    ensures t == SERVER <==> IsServerError(f)
    ensures t == VALIDATION <==> IsValidationError(f) && !IsAuthError(f)
    ensures t == NETWORK <==> IsNetworkError(f)
  {
    if IsAuthError(f) then AUTH
    else if IsServerError(f) then SERVER
    else if IsValidationError(f) then VALIDATION
    else if IsNetworkError(f) then NETWORK
    else UNKNOWN
  }

  /** The `defaultMessages` table local to formatErrorMessage. */
  function DefaultMessage(t: ErrorType): (m: string)
    ensures m != ""
  {
    match t
    case NETWORK => "Connection error. Please check your internet connection."
    case AUTH => "Authentication error. Please log in again."
    case VALIDATION => "Invalid data. Please check your information."
    case SERVER => "Server error. Please try again later."
    case UNKNOWN => "Unexpected error. Please try again."
  }

  /** formatErrorMessage: the override for the type first, then the fault's own message
      when it has no response, then the default table (falling back to its UNKNOWN entry). */
  function FormatErrorMessage(f: Fault, custom: map<ErrorType, string>): (m: string)
    ensures m != ""
    ensures Override(custom, GetErrorType(f)) == Some(m) || m == f.message.GetOr("")
         || m == DefaultMessage(GetErrorType(f))
  {
    var t := GetErrorType(f);
    if t in custom && custom[t] != "" then custom[t]
    else if f.HasMessage() && f.response.None? then f.message.value
    else if DefaultMessage(t) != "" then DefaultMessage(t)
    else DefaultMessage(UNKNOWN)
  }

  /** isRetryable (on a fault): its type is NETWORK or SERVER. */
  predicate IsRetryable(f: Fault): (r: bool)
    ensures r <==> RetryableFault(f)
  {
    var t := GetErrorType(f);
    t == NETWORK || t == SERVER
  }

  /** The "standardized error object" createErrorInfo builds; `type` is `errorType` here,
      as in the hook. */
  datatype StandardError = StandardError(
    message: string,
    errorType: ErrorType,
    originalError: Fault,
    context: string,
    timestamp: string,
    retryable: bool)

  /** createErrorInfo: the message is formatted with NO overrides. */
  function CreateErrorInfo(f: Fault, context: string, timestamp: string): (info: StandardError)
    ensures info.errorType == ClassifyError(f)
    ensures info.retryable <==> info.errorType == NETWORK || info.errorType == SERVER
    ensures info.message == GetErrorMessage(f, map[])
    ensures info.originalError == f && info.context == context && info.timestamp == timestamp
  {
    ClassifyAgrees(f);
    StandardError(FormatErrorMessage(f, map[]), GetErrorType(f), f, context, timestamp, IsRetryable(f))
  }

  /** asyncHandler: the operation's value on success; on failure the rejection is the
      error-info record (built by logError, i.e. createErrorInfo), not the original fault. */
  function AsyncHandler<T>(operation: Result<T, Fault>, context: string, timestamp: string)
    : (r: Result<T, StandardError>)
    ensures operation.Success? <==> r.Success?
    ensures operation.Success? ==> r.value == operation.value
    ensures operation.Failure? ==>
      r.error == CreateErrorInfo(operation.error, context, timestamp)
      && r.error.originalError == operation.error && r.error.retryable == IsRetryable(operation.error)
      && r.error.context == context
  {
    match operation
    case Success(v) => Success(v)
    case Failure(f) => Failure(CreateErrorInfo(f, context, timestamp))
  }

  // ---------------------------------------------------------------------------
  // ERROR_MESSAGES: the per-screen override tables
  // ---------------------------------------------------------------------------

  const LoginMessages: map<ErrorType, string> := map[
    AUTH := "Invalid username or password.",
    VALIDATION := "Please enter username and password.",
    NETWORK := "Connection error. Please check your internet connection and try again."]

  const ProductsMessages: map<ErrorType, string> := map[
    NETWORK := "Could not load products. Please check your connection.",
    SERVER := "Server error. Products are not available."]

  const CartMessages: map<ErrorType, string> := map[
    VALIDATION := "Could not add product to cart.",
    NETWORK := "Connection error while updating cart."]

  const ProfileMessages: map<ErrorType, string> := map[
    AUTH := "Session expired. Please log in again.",
    NETWORK := "Could not load profile."]

  // ---------------------------------------------------------------------------
  // Properties
  // ---------------------------------------------------------------------------

  /** 401 and 403 satisfy both isAuthError and isValidationError; getErrorType resolves
      the overlap to AUTH. */
  lemma AuthOverlapsValidation(f: Fault)
    requires IsAuthError(f)
    ensures IsValidationError(f) && GetErrorType(f) == AUTH
  {
  }

  /** The two classifiers agree on every fault. */
  lemma ClassifyAgrees(f: Fault)
    ensures GetErrorType(f) == ClassifyError(f)
  {
  }

  /** The two default tables agree entry by entry. */
  lemma DefaultTablesAgree(t: ErrorType)
    ensures DefaultMessage(t) == ErrorHandler.DefaultMessage(t)
  {
  }

  /** formatErrorMessage: an override for the type wins even over the fault's own message. */
  lemma OverrideFirst(f: Fault, custom: map<ErrorType, string>)
    requires Override(custom, GetErrorType(f)).Some?
    ensures FormatErrorMessage(f, custom) == custom[GetErrorType(f)]
  {
  }

  /** Without an override: the own message when there is no response, else the default. */
  lemma FormatWithoutOverride(f: Fault, custom: map<ErrorType, string>)
    requires Override(custom, GetErrorType(f)).None?
    ensures FormatErrorMessage(f, custom) ==
      if f.HasMessage() && f.response.None? then f.message.value else DefaultMessage(GetErrorType(f))
  {
  }

  /** The two resolvers give different answers exactly when the fault's own message applies
      (it has one and no response), the table has a truthy override for its type, and the
      two texts differ: the hook prints the fault's message, formatErrorMessage the
      override. In every other case they agree. */
  lemma PrecedenceDifference(f: Fault, custom: map<ErrorType, string>)
    ensures GetErrorMessage(f, custom) != FormatErrorMessage(f, custom) <==>
      && f.HasMessage() && f.response.None?
      && Override(custom, ClassifyError(f)).Some?
      && custom[ClassifyError(f)] != f.message.value
  {
  }

  /** A concrete case: a dropped connection that carries its own message, under the
      product list's overrides. The hook shows the message, formatErrorMessage the
      override. */
  lemma PrecedenceDiffersOnNetworkFault()
    ensures exists f: Fault :: GetErrorMessage(f, ProductsMessages) != FormatErrorMessage(f, ProductsMessages)
  {
    var f := Fault(None, true, Some("Network Error"));
    assert GetErrorMessage(f, ProductsMessages) == "Network Error";
    assert FormatErrorMessage(f, ProductsMessages) == "Could not load products. Please check your connection.";
  }

  /** With no overrides the two resolvers agree, so createErrorInfo's message is the one an
      override-free hook (AuthContext's, useUserMenu's) records. */
  lemma SameMessageWithoutOverrides(f: Fault)
    ensures FormatErrorMessage(f, map[]) == GetErrorMessage(f, map[])
  {
  }

  /** isRetryable on a fault agrees with the hook's test on the record of that fault. */
  lemma RetryableAgrees(h: Handler, f: Fault)
    requires h.Valid() && h.error.Some? && h.error.value.originalError == f
    ensures h.IsRetryable() <==> IsRetryable(f)
  {
  }

  /** createErrorInfo and an override-free hook's handleError build the same record, less
      the `retryable` flag. */
  lemma CreateErrorInfoMatchesHook(h: Handler, f: Fault, context: string, timestamp: string)
    requires h.customMessages == map[]
    ensures var info := CreateErrorInfo(f, context, timestamp);
      h.Describe(f, context, timestamp) ==
        ErrorHandler.ErrorInfo(info.message, info.errorType, info.originalError, info.context, info.timestamp)
  {
  }

  /** LOGIN overrides only AUTH, VALIDATION and NETWORK; SERVER and UNKNOWN faults fall
      through to the defaults (or to the fault's own message in the hook). */
  lemma LoginOverrides(f: Fault)
    ensures LoginMessages.Keys == {AUTH, VALIDATION, NETWORK}
    ensures ClassifyError(f) in {SERVER, UNKNOWN} && !(f.HasMessage() && f.response.None?)
            ==> GetErrorMessage(f, LoginMessages) == ErrorHandler.DefaultMessage(ClassifyError(f))
    ensures GetErrorType(f) in {SERVER, UNKNOWN} && !(f.HasMessage() && f.response.None?)
            ==> FormatErrorMessage(f, LoginMessages) == DefaultMessage(GetErrorType(f))
  {
  }

  /** CART overrides only VALIDATION and NETWORK, PROFILE only AUTH and NETWORK; a
      response-carrying fault of another type gets the default under either table. */
  lemma CartProfileOverrides(f: Fault)
    ensures CartMessages.Keys == {VALIDATION, NETWORK}
    ensures ProfileMessages.Keys == {AUTH, NETWORK}
    ensures ClassifyError(f) in {AUTH, SERVER, UNKNOWN} && !(f.HasMessage() && f.response.None?)
            ==> GetErrorMessage(f, CartMessages) == ErrorHandler.DefaultMessage(ClassifyError(f))
    ensures ClassifyError(f) in {VALIDATION, SERVER, UNKNOWN} && !(f.HasMessage() && f.response.None?)
            ==> GetErrorMessage(f, ProfileMessages) == ErrorHandler.DefaultMessage(ClassifyError(f))
  {
  }

  /** PRODUCTS overrides only NETWORK and SERVER. */
  lemma ProductsOverrides(f: Fault)
    ensures ProductsMessages.Keys == {NETWORK, SERVER}
    ensures ClassifyError(f) in {AUTH, VALIDATION, UNKNOWN} && !(f.HasMessage() && f.response.None?)
            ==> GetErrorMessage(f, ProductsMessages) == ErrorHandler.DefaultMessage(ClassifyError(f))
  {
  }
}
