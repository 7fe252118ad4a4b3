/**
 * What src/components/ErrorState.tsx shows for an error: whether it counts as
 * a connectivity problem, the title and subtitle (props override the defaults
 * unless empty), and whether a retry button appears.
 */
module ErrorState {
  import opened Common
  import opened JsText
  import opened Api

  const ConnectionErrorTitle := "Connection Error"
  const GenericErrorTitle := "Something went wrong"
  const ConnectionErrorSubtitle := "Please check your internet connection and try again."
  const GenericErrorSubtitle := "An unexpected error occurred. Please try again."

  /** `isNetworkError`: the message mentions `connect` or `Network` (case matters); no error is not one. */
  function IsNetworkError(error: Option<JsError>): (b: bool)
    ensures b <==> error.Some? && (Includes(error.value.message, "connect") || Includes(error.value.message, "Network"))
  {
    error.Some? && (Includes(error.value.message, "connect") || Includes(error.value.message, "Network"))
  }

  function DefaultTitle(error: Option<JsError>): (title: string)
    ensures IsNetworkError(error) ==> title == ConnectionErrorTitle
    ensures !IsNetworkError(error) ==> title == GenericErrorTitle
  {
    if IsNetworkError(error) then ConnectionErrorTitle else GenericErrorTitle
  }

  /** The network subtitle is fixed; otherwise the message, unless it is empty or there is no error. */
  function DefaultSubtitle(error: Option<JsError>): (subtitle: string)
    ensures IsNetworkError(error) ==> subtitle == ConnectionErrorSubtitle
    ensures !IsNetworkError(error) && error.Some? && error.value.message != "" ==> subtitle == error.value.message
    ensures !IsNetworkError(error) && (error.None? || error.value.message == "") ==> subtitle == GenericErrorSubtitle
  {
    if IsNetworkError(error) then ConnectionErrorSubtitle
    else if error.Some? && error.value.message != "" then error.value.message
    else GenericErrorSubtitle
  }

  /** `prop || fallback` on an optional string. */
  function OrDefault(prop: Option<string>, fallback: string): (shown: string)
    ensures prop.Some? && prop.value != "" ==> shown == prop.value
    ensures prop.None? || prop.value == "" ==> shown == fallback
  {
    if prop.Some? && prop.value != "" then prop.value else fallback
  }

  datatype ErrorView = ErrorView(title: string, subtitle: string, networkIcon: bool, showsRetry: bool)

  /** The rendered component, for an optional `onRetry` callback of any type. */
  function Render<R>(error: Option<JsError>, onRetry: Option<R>, title: Option<string>, subtitle: Option<string>): (v: ErrorView)
    ensures v.title == OrDefault(title, DefaultTitle(error))
    ensures v.subtitle == OrDefault(subtitle, DefaultSubtitle(error))
    ensures v.networkIcon <==> IsNetworkError(error)
    ensures v.showsRetry <==> onRetry.Some?
  {
    ErrorView(OrDefault(title, DefaultTitle(error)), OrDefault(subtitle, DefaultSubtitle(error)),
              IsNetworkError(error), onRetry.Some?)
  }

  /** A failed request, as the API layer reports it, is shown as a connection error. */
  lemma ConnectivityFailureShowsConnectionError<R>(onRetry: Option<R>)
    ensures Render(Some(JsError(PlainError, ConnectivityMessage)), onRetry, None, None)
         == ErrorView(ConnectionErrorTitle, ConnectionErrorSubtitle, true, onRetry.Some?)
  {
    IncludesAt(ConnectivityMessage, "connect", 10);
  }

  /** A message with neither `c` nor `N` is a generic error and is shown verbatim. */
  lemma PlainMessageShownVerbatim(e: JsError)
    requires 'c' !in e.message && 'N' !in e.message && e.message != ""
    ensures !IsNetworkError(Some(e))
    ensures DefaultTitle(Some(e)) == GenericErrorTitle && DefaultSubtitle(Some(e)) == e.message
  {
    NotIncludesWithoutFirstChar(e.message, "connect");
    NotIncludesWithoutFirstChar(e.message, "Network");
  }
}
