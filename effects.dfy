/** The effects page handlers have on the outside world, recorded as values. */
module Effects {
  import opened Wrappers
  import Http

  /** A `react-hot-toast` notification. */
  datatype Toast = ErrorToast(text: string) | SuccessToast(text: string)

  /** A `navigate(to, { state: { mobile }, replace })` call. */
  datatype Navigation = Navigation(to: string, stateMobile: Option<string>, replace: bool)

  const ErrorPrefix := "خطا: "

  /**
   * The common part of the form pages' `onError`: with truthy response data, an
   * optional "error: message" toast and the server's per-field message arrays;
   * without, only the page's generic toast.
   */
  datatype FailureFeedback =
    | FieldFeedback(toast: Option<Toast>, fieldErrors: map<string, seq<string>>)
    | GenericFeedback(generic: Toast)

  function OnErrorFeedback(e: Http.HttpError, unknownMessage: string): (r: FailureFeedback)
    ensures r.GenericFeedback? <==> e.response.None? || !Http.DataTruthy(e.response.value.data)
    ensures r.GenericFeedback? ==> r.generic == ErrorToast(unknownMessage)
    ensures r.FieldFeedback? ==> var d := e.response.value.data;
      && (r.toast.Some? <==> d.ObjectData? && Http.Truthy(d.message))
      && (r.toast.Some? ==> r.toast.value == ErrorToast(ErrorPrefix + d.message.value))
      && r.fieldErrors == (if d.ObjectData? then d.errors else map[])
  {
    if e.response.None? || !Http.DataTruthy(e.response.value.data) then GenericFeedback(ErrorToast(unknownMessage))
    else
      var d := e.response.value.data;
      match d
      case ObjectData(message, _, _, _, _, errors) =>
        FieldFeedback(if Http.Truthy(message) then Some(ErrorToast(ErrorPrefix + message.value)) else None, errors)
      case _ => FieldFeedback(None, map[])
  }

  /** A network failure never maps field errors. */
  lemma NetworkFailureIsGeneric(code: Option<string>, unknownMessage: string)
    ensures OnErrorFeedback(Http.HttpError(None, code), unknownMessage) == GenericFeedback(ErrorToast(unknownMessage))
  {
  }
}
