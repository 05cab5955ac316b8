/** The error-handling hook of src/hooks/useErrorHandler.js: the error taxonomy, the
    classifier, the message resolver with its default table, and the per-screen handler
    state {error, isLoading} with the operations that update it. */
module ErrorHandler {
  import opened Wrappers

  /** ERROR_TYPES: the closed taxonomy every fault is mapped to. */
  datatype ErrorType = NETWORK | AUTH | VALIDATION | SERVER | UNKNOWN

  /** The `response` part of a fault: an HTTP response whose `status` may be missing. */
  datatype Response = Response(status: Option<int>)

  /** A raised fault, reduced to the three fields the code reads: an optional `response`,
      whether `request` is truthy (sent, no answer), and an optional `message`. */
  datatype Fault = Fault(response: Option<Response>, request: bool, message: Option<string>)
  {
    /** JavaScript truthiness of `error.message`: present and not the empty string. */
    predicate HasMessage() {
      message.Some? && message.value != ""
    }

    /** `error.response.status`, when there is a response carrying a status. */
    function Status(): Option<int> {
      if response.Some? then response.value.status else None
    }
  }

  /** The error record handleError stores. The source's field `type` is `errorType` here,
      because `type` is a Dafny keyword. */
  datatype ErrorInfo = ErrorInfo(
    message: string,
    errorType: ErrorType,
    originalError: Fault,
    context: string,
    timestamp: string)

  /** The observable state of one hook instance. */
  datatype HookState = HookState(error: Option<ErrorInfo>, isLoading: bool)

  /** ERROR_MESSAGES, the default table: one message per type. */
  function DefaultMessage(t: ErrorType): (m: string)
    ensures m != ""
  {
    match t
    case NETWORK => "Connection error. Please check your internet connection."
    case AUTH => "Authentication error. Please log in again."
    case VALIDATION => "Invalid data. Please check your information."
    case SERVER => "Server error. Please try again later."
    case UNKNOWN => "Unexpected error. Please try again."
  }

  /** `customMessages[t]` when that entry is truthy (present and non-empty). */
  function Override(custom: map<ErrorType, string>, t: ErrorType): Option<string> {
    if t in custom && custom[t] != "" then Some(custom[t]) else None
  }

  /** classifyError: first match over the response status, then the request marker. A
      response whose status is missing or below 400 falls through to UNKNOWN without
      looking at `request`. */
  function ClassifyError(f: Fault): (t: ErrorType)
    ensures t == AUTH <==> f.Status() == Some(401) || f.Status() == Some(403)
    ensures t == SERVER <==> f.Status().Some? && f.Status().value >= 500
    ensures t == VALIDATION <==>
      f.Status().Some? && 400 <= f.Status().value < 500 && f.Status().value != 401 && f.Status().value != 403
    ensures t == NETWORK <==> f.response.None? && f.request
  {
    if f.response.Some? then
      match f.response.value.status
      case Some(s) =>
        if s == 401 || s == 403 then AUTH
        else if s >= 500 then SERVER
        else if s >= 400 then VALIDATION
        else UNKNOWN
      case None => UNKNOWN
    else if f.request then NETWORK
    else UNKNOWN
  }

  /** getErrorMessage: the fault's own message when it has one and no response; otherwise
      the override for its type; otherwise the default entry. */
  function GetErrorMessage(f: Fault, custom: map<ErrorType, string>): (m: string)
    ensures m != ""
    ensures m == f.message.GetOr("") || Override(custom, ClassifyError(f)) == Some(m)
         || m == DefaultMessage(ClassifyError(f))
  {
    if f.HasMessage() && f.response.None? then f.message.value
    else Override(custom, ClassifyError(f)).GetOr(DefaultMessage(ClassifyError(f)))
  }

  // ---------------------------------------------------------------------------
  // Properties of the classifier and the message resolver
  // ---------------------------------------------------------------------------

  /** 401 and 403 are AUTH whatever else the fault carries: this test comes before the
      >= 500 and >= 400 tests. */
  lemma AuthStatusFirst(f: Fault)
    requires f.Status() == Some(401) || f.Status() == Some(403)
    ensures ClassifyError(f) == AUTH
  {
  }

  /** With a response: 5xx and above is SERVER, the other 4xx codes are VALIDATION, and a
      missing status or one below 400 is UNKNOWN even when `request` is also set. */
  lemma ResponseClassification(f: Fault)
    requires f.response.Some?
    ensures f.Status().Some? && f.Status().value >= 500 ==> ClassifyError(f) == SERVER
    ensures f.Status().Some? && 400 <= f.Status().value < 500 && f.Status().value !in {401, 403}
            ==> ClassifyError(f) == VALIDATION
    ensures (f.Status().None? || f.Status().value < 400) ==> ClassifyError(f) == UNKNOWN
  {
  }

  /** Without a response: `request` gives NETWORK, nothing gives UNKNOWN. */
  lemma NoResponseClassification(f: Fault)
    requires f.response.None?
    ensures ClassifyError(f) == if f.request then NETWORK else UNKNOWN
  {
  }

  /** The status classes of section 15 of RFC 9110 (1xx to 5xx). */
  datatype StatusClass = Informational | Successful | Redirection | ClientError | ServerError

  function StatusClassOf(status: int): Option<StatusClass> {
    if 100 <= status < 200 then Some(Informational)
    else if 200 <= status < 300 then Some(Successful)
    else if 300 <= status < 400 then Some(Redirection)
    else if 400 <= status < 500 then Some(ClientError)
    else if 500 <= status < 600 then Some(ServerError)
    else None
  }

  /** For a status code RFC 9110 defines (100..599): 401 Unauthorized (section 15.5.2) and
      403 Forbidden (section 15.5.4) are AUTH, every other client error (section 15.5) is
      VALIDATION, every server error (section 15.6) is SERVER, and 1xx..3xx are UNKNOWN. */
  lemma ClassifyByStatusClass(f: Fault, s: int)
    requires f.Status() == Some(s) && 100 <= s < 600
    ensures ClassifyError(f) ==
      if s == 401 || s == 403 then AUTH
      else if StatusClassOf(s) == Some(ClientError) then VALIDATION
      else if StatusClassOf(s) == Some(ServerError) then SERVER
      else UNKNOWN
  {
  }

  /** The fault's own message wins, verbatim, whenever it has one and no response, even if
      an override exists for its type. */
  lemma OwnMessageFirst(f: Fault, custom: map<ErrorType, string>)
    requires f.HasMessage() && f.response.None?
    ensures GetErrorMessage(f, custom) == f.message.value
  {
  }

  /** Otherwise the override for the classified type, when truthy, else the default entry. */
  lemma TableMessage(f: Fault, custom: map<ErrorType, string>)
    requires !(f.HasMessage() && f.response.None?)
    ensures var t := ClassifyError(f);
      GetErrorMessage(f, custom) == if t in custom && custom[t] != "" then custom[t] else DefaultMessage(t)
  {
  }

  /** The default table has one distinct message per type. */
  lemma DefaultMessagesDistinct(t1: ErrorType, t2: ErrorType)
    requires DefaultMessage(t1) == DefaultMessage(t2)
    ensures t1 == t2
  {
  }

  /** What a retryable fault looks like: no response with `request` set (NETWORK), or a
      response status of 500 or more (SERVER). */
  predicate RetryableFault(f: Fault) {
    (f.response.None? && f.request) || (f.Status().Some? && f.Status().value >= 500)
  }

  // ---------------------------------------------------------------------------
  // The hook's state
  // ---------------------------------------------------------------------------

  /** One useErrorHandler(customMessages) instance. */
  class Handler {
    const customMessages: map<ErrorType, string>
    var error: Option<ErrorInfo>
    var isLoading: bool

    constructor (customMessages: map<ErrorType, string>)
      ensures this.customMessages == customMessages
      ensures error == None && !isLoading
      ensures Valid()
    {
      this.customMessages := customMessages;
      error := None;
      isLoading := false;
    }

    /** The record is what this handler would have built for its own fault. */
    predicate Consistent(info: ErrorInfo) {
      && info.errorType == ClassifyError(info.originalError)
      && info.message == GetErrorMessage(info.originalError, customMessages)
    }

    /** A stored error is always a record built by handleError. */
    ghost predicate Valid()
      reads this
    {
      error.Some? ==> Consistent(error.value)
    }

    function State(): HookState
      reads this
    {
      HookState(error, isLoading)
    }

    /** The record handleError builds for `fault` (the timestamp is passed in). */
    function Describe(fault: Fault, context: string, timestamp: string): (info: ErrorInfo)
      ensures Consistent(info)
      ensures info.originalError == fault && info.context == context && info.timestamp == timestamp
    {
      ErrorInfo(GetErrorMessage(fault, customMessages), ClassifyError(fault), fault, context, timestamp)
    }

    /** handleError: classify, build the record, store it and return it. */
    method HandleError(fault: Fault, context: string, timestamp: string) returns (info: ErrorInfo)
      modifies this
      ensures info == Describe(fault, context, timestamp)
      ensures State() == HookState(Some(info), old(isLoading))
      ensures Valid()
    {
      info := Describe(fault, context, timestamp);
      error := Some(info);
    }

    /** clearError. */
    method ClearError()
      modifies this
      ensures State() == HookState(None, old(isLoading))
      ensures Valid()
    {
      error := None;
    }

    /** executeWithErrorHandling: loading on and error cleared before the operation runs
        (`running` is the state the operation runs in); on rejection the fault is recorded
        and the ORIGINAL fault is rethrown; loading is off afterwards in both outcomes. */
    method ExecuteWithErrorHandling<T>(operation: Result<T, Fault>, context: string, timestamp: string)
      returns (result: Result<T, Fault>, ghost running: HookState)
      modifies this
      ensures running == HookState(None, true)
      ensures result == operation
      ensures State() == HookState(
        if operation.Failure? then Some(Describe(operation.error, context, timestamp)) else None,
        false)
      ensures Valid()
    {
      isLoading := true;
      ClearError();
      running := State();
      if operation.Failure? {
        var _ := HandleError(operation.error, context, timestamp);
      }
      result := operation;
      isLoading := false;
    }

    /** retry: exactly executeWithErrorHandling with the same arguments. */
    method Retry<T>(operation: Result<T, Fault>, context: string, timestamp: string)
      returns (result: Result<T, Fault>, ghost running: HookState)
      modifies this
      ensures running == HookState(None, true)
      ensures result == operation
      ensures State() == HookState(
        if operation.Failure? then Some(Describe(operation.error, context, timestamp)) else None,
        false)
      ensures Valid()
    {
      result, running := ExecuteWithErrorHandling(operation, context, timestamp);
    }

    /** isErrorType(t): the stored error's type is t, i.e. its fault classifies as t. */
    function IsErrorType(t: ErrorType): (r: bool)
      reads this
      requires Valid()
      ensures r <==> error.Some? && ClassifyError(error.value.originalError) == t
    {
      error.Some? && error.value.errorType == t
    }

    /** isRetryable: there is an error and its fault was a transport failure or a 5xx. */
    function IsRetryable(): (r: bool)
      reads this
      requires Valid()
      ensures r <==> error.Some? && RetryableFault(error.value.originalError)
      ensures r ==> error.Some? && error.value.errorType in {NETWORK, SERVER}
    {
      error.Some? && (error.value.errorType == NETWORK || error.value.errorType == SERVER)
    }
  }

  /** Two runs in a row on one fresh hook: the first leaves an error exactly when it fails,
      and the second clears it before running, so its own outcome alone decides the final
      state (a failure followed by a success leaves no error). */
  method RunTwice<T>(customMessages: map<ErrorType, string>, first: Result<T, Fault>, second: Result<T, Fault>,
                     context: string, timestamp1: string, timestamp2: string)
    returns (afterFirst: HookState, afterSecond: HookState)
    ensures !afterFirst.isLoading && (afterFirst.error.Some? <==> first.Failure?)
    ensures afterSecond == HookState(
      if second.Failure? then
        Some(ErrorInfo(GetErrorMessage(second.error, customMessages), ClassifyError(second.error),
                       second.error, context, timestamp2))
      else None,
      false)
  {
    var h := new Handler(customMessages);
    var _, _ := h.ExecuteWithErrorHandling(first, context, timestamp1);
    afterFirst := h.State();
    var _, _ := h.ExecuteWithErrorHandling(second, context, timestamp2);
    afterSecond := h.State();
  }
}
