/** What the sign-in pages send, and the effects of their submit handlers. */
module AuthFlow {
  import opened Wrappers
  import Http
  import Session
  import opened Effects

  const OtpPath := "/auth/otp"
  const DashboardPath := "/dashboard"
  const InvalidMobileMessage := "شماره موبایل معتبر نیست"

  /** How an awaited call ended: with its value, or by throwing. */
  datatype Call<T> = Resolved(value: T) | Rejected(error: Http.HttpError)

  /** The value of `/login`: `void`, or an object with an optional token and `need_signup`. */
  datatype LoginReply = NoReply | LoginResult(token: Option<string>, needSignup: bool)

  /** The remote calls of the sign-in pages; an absent mobile is an `undefined` argument. */
  datatype Request =
    | SendCode(mobile: string)
    | PasswordLogin(mobile: string, password: string)
    | VerifyCode(mobileArg: Option<string>, code: string)
    | Signup(signupMobile: Option<string>, name: string, password: string)

  /** One submit's effects: the call made, the `setSession` dispatched, where it went, the error shown. */
  datatype Outcome = Outcome(
    request: Option<Request>,
    dispatch: Option<Session.SetSessionPayload>,
    navigation: Option<Navigation>,
    error: Option<string>)

  /** The outcome of a check that rejects the input before any call. */
  function Refused(message: string): (o: Outcome)
    ensures o.request.None? && o.dispatch.None? && o.navigation.None? && o.error == Some(message)
  {
    Outcome(None, None, None, Some(message))
  }

  /** The outcome of a rejected call: the `getErrorMessage` of the error, and nothing else. */
  function Failed(r: Request, e: Http.HttpError): (o: Outcome)
    ensures o.request == Some(r) && o.dispatch.None? && o.navigation.None?
    ensures o.error == Some(Http.GetErrorInfo(e).message)
  {
    Outcome(Some(r), None, None, Some(Http.GetErrorMessage(e)))
  }

  function ToSeq<T>(o: Option<T>): (s: seq<T>)
    ensures |s| <= 1
    ensures o.None? ==> s == []
    ensures o.Some? ==> s == [o.value]
  {
    if o.Some? then [o.value] else []
  }
}
