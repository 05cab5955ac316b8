/** The error banner of src/components/ErrorDisplay.js: nothing for no error, otherwise an
    icon and a colour chosen by type, the message, an optional context line, and dismiss and
    retry buttons shown under their conditions. */
module ErrorDisplay {
  import opened Wrappers
  import opened ErrorHandler

  /** getErrorIcon. */
  function ErrorIcon(t: ErrorType): string {
    match t
    case NETWORK => "wifi-outline"
    case AUTH => "lock-closed-outline"
    case VALIDATION => "alert-circle-outline"
    case SERVER => "server-outline"
    case UNKNOWN => "warning-outline"
  }

  const Amber: string := "#F59E0B"
  const Red: string := "#EF4444"
  const Gray: string := "#6B7280"

  /** getErrorColor. */
  function ErrorColor(t: ErrorType): string {
    match t
    case NETWORK => Amber
    case AUTH => Red
    case VALIDATION => Amber
    case SERVER => Red
    case UNKNOWN => Gray
  }

  /** The banner's own retryable test on the record's type. */
  predicate RetryableType(t: ErrorType) {
    t == NETWORK || t == SERVER
  }

  /** The props: whether the callbacks are given, and the two flags, which default to
      showRetry = true and showDismiss = false when left undefined. */
  datatype Props = Props(
    onRetry: bool,
    onDismiss: bool,
    showRetry: Option<bool>,
    showDismiss: Option<bool>)

  /** The rendered banner. */
  datatype Banner = Banner(
    icon: string,
    color: string,
    message: string,
    contextLine: Option<string>,
    dismissButton: bool,
    retryButton: bool)

  function Render(error: Option<ErrorInfo>, props: Props): (b: Option<Banner>)
    ensures b.None? <==> error.None?
    ensures b.Some? ==>
      && b.value.icon == ErrorIcon(error.value.errorType)
      && b.value.color == ErrorColor(error.value.errorType)
      && b.value.message == error.value.message
      && (b.value.contextLine.Some? <==> error.value.context != "")
      && (b.value.contextLine.Some? ==> b.value.contextLine.value == error.value.context)
      && (b.value.dismissButton <==> props.showDismiss == Some(true) && props.onDismiss)
      && (b.value.retryButton <==>
            props.showRetry != Some(false) && RetryableType(error.value.errorType) && props.onRetry)
  {
    match error
    case None => None
    case Some(e) =>
      Some(Banner(
        ErrorIcon(e.errorType),
        ErrorColor(e.errorType),
        e.message,
        if e.context != "" then Some(e.context) else None,
        props.showDismiss.GetOr(false) && props.onDismiss,
        props.showRetry.GetOr(true) && RetryableType(e.errorType) && props.onRetry))
  }

  /** Each type has its own icon. */
  lemma IconsDistinct(t1: ErrorType, t2: ErrorType)
    requires ErrorIcon(t1) == ErrorIcon(t2)
    ensures t1 == t2
  {
  }

  /** NETWORK and VALIDATION are amber, AUTH and SERVER red, UNKNOWN gray. */
  lemma ColorGroups(t: ErrorType)
    ensures ErrorColor(t) == Amber <==> t in {NETWORK, VALIDATION}
    ensures ErrorColor(t) == Red <==> t in {AUTH, SERVER}
    ensures ErrorColor(t) == Gray <==> t == UNKNOWN
  {
  }

  /** For the error a hook holds, the retry button shows exactly when showRetry is not
      false, onRetry is given and the hook's isRetryable() holds. */
  lemma RetryButtonMatchesHook(h: Handler, props: Props)
    requires h.Valid() && h.error.Some?
    ensures Render(h.error, props).Some?
    ensures Render(h.error, props).value.retryButton <==>
      props.showRetry != Some(false) && props.onRetry && h.IsRetryable()
  {
  }
}
