/** `LoginPageAdmin`: sign-in by password or by a one-time code sent to the mobile number. */
module Login {
  import opened Wrappers
  import opened Text
  import Http
  import Phone
  import Session
  import RequireAuth
  import opened Effects
  import opened AuthFlow

  const SignupPath := "/auth/signup"
  const PasswordMissingMessage := "رمز عبور را وارد کنید"
  const LoginFailedMessage := "ورود ناموفق. لطفاً اطلاعات را بررسی کنید"

  datatype LoginMode = OtpMode | PasswordMode

  /** The rejection that means "a code was already sent": status 402 with `data.data.redirect == "otp"`. */
  predicate IsOtpRedirect(e: Http.HttpError): (redirect: bool)
    ensures redirect ==> Http.GetErrorInfo(e).status == Some(402) && Http.Truthy(Http.GetErrorInfo(e).code)
  {
    && e.response.Some?
    && e.response.value.status == 402
    && e.response.value.data.ObjectData?
    && e.response.value.data.redirect == Some("otp")
  }

  /**
   * `handleSubmit`: the number is normalised first and checked against `/^0?9\d{9}$/`,
   * then in password mode the password must not be blank. `reply` is how the one
   * remote call ended; its value is ignored in OTP mode, where `sendCode` returns nothing.
   */
  function SubmitOutcome(mode: LoginMode, rawMobile: string, password: string, reply: Call<LoginReply>): (o: Outcome)
    ensures var n := Phone.NormalizeIranMobile(rawMobile);
      && (o.request.Some? <==> Phone.LoginMobilePattern(n) && (mode == OtpMode || !IsBlank(password)))
      && (o.request.Some? ==> o.request.value == if mode == OtpMode then SendCode(n) else PasswordLogin(n, password))
      && (!Phone.LoginMobilePattern(n) ==> o == Refused(InvalidMobileMessage))
      && (o.dispatch.Some? ==> reply.Resolved? && o.dispatch.value.mobile == Session.Given(Some(n)))
    ensures o.error.None? <==> o.navigation.Some?
    ensures o.dispatch.Some? <==> o.navigation.Some? && o.navigation.value.to != SignupPath && !reply.Rejected?
    ensures o.request.None? ==> o.dispatch.None? && o.navigation.None?
    ensures var n := Phone.NormalizeIranMobile(rawMobile);
      Phone.LoginMobilePattern(n) && mode == PasswordMode && IsBlank(password) ==> o == Refused(PasswordMissingMessage)
    ensures var n := Phone.NormalizeIranMobile(rawMobile);
      Phone.LoginMobilePattern(n) && mode == OtpMode ==> o == OtpOutcome(n, reply)
    ensures var n := Phone.NormalizeIranMobile(rawMobile);
      Phone.LoginMobilePattern(n) && mode == PasswordMode && !IsBlank(password) ==> o == PasswordOutcome(n, password, reply)
  {
    var n := Phone.NormalizeIranMobile(rawMobile);
    BlankIffTrimEmpty(password);
    if !Phone.LoginMobilePattern(n) then Refused(InvalidMobileMessage)
    else if mode == PasswordMode && Trim(password) == "" then Refused(PasswordMissingMessage)
    else if mode == OtpMode then OtpOutcome(n, reply)
    else PasswordOutcome(n, password, reply)
  }

  /** The OTP branch of `handleSubmit`, once both checks passed. */
  function OtpOutcome(n: string, reply: Call<LoginReply>): (o: Outcome)
    ensures o.request == Some(SendCode(n))
    ensures reply.Resolved? ==>
      && o.dispatch == Some(Session.SetSessionPayload(None, Session.Given(Some(n))))
      && o.navigation == Some(Navigation(OtpPath, Some(n), false))
      && o.error.None?
    ensures reply.Rejected? && IsOtpRedirect(reply.error) ==>
      o.dispatch.None? && o.navigation == Some(Navigation(OtpPath, Some(n), false)) && o.error.None?
    ensures reply.Rejected? && !IsOtpRedirect(reply.error) ==> o == Failed(SendCode(n), reply.error)
    ensures o.dispatch.Some? ==> reply.Resolved? && o.dispatch.value.mobile == Session.Given(Some(n))
    ensures o.error.None? <==> o.navigation.Some?
    ensures o.dispatch.Some? <==> o.navigation.Some? && o.navigation.value.to != SignupPath && !reply.Rejected?
  {
    match reply
    case Resolved(_) =>
      Outcome(Some(SendCode(n)), Some(Session.SetSessionPayload(None, Session.Given(Some(n)))), Some(Navigation(OtpPath, Some(n), false)), None)
    case Rejected(e) =>
      if IsOtpRedirect(e) then Outcome(Some(SendCode(n)), None, Some(Navigation(OtpPath, Some(n), false)), None)
      else Failed(SendCode(n), e)
  }

  /** The password branch of `handleSubmit`, once both checks passed. */
  function PasswordOutcome(n: string, password: string, reply: Call<LoginReply>): (o: Outcome)
    ensures o.request == Some(PasswordLogin(n, password))
    ensures reply.Resolved? && reply.value.LoginResult? && Http.Truthy(reply.value.token) ==>
      && o.dispatch == Some(Session.SetSessionPayload(reply.value.token, Session.Given(Some(n))))
      && o.navigation == Some(Navigation(DashboardPath, None, false))
      && o.error.None?
    ensures reply.Resolved? && reply.value.LoginResult? && !Http.Truthy(reply.value.token) && reply.value.needSignup ==>
      o.dispatch.None? && o.navigation == Some(Navigation(SignupPath, Some(n), false)) && o.error.None?
    ensures reply.Resolved? && !(reply.value.LoginResult? && (Http.Truthy(reply.value.token) || reply.value.needSignup)) ==>
      o.dispatch.None? && o.navigation.None? && o.error == Some(LoginFailedMessage)
    ensures reply.Rejected? ==> o == Failed(PasswordLogin(n, password), reply.error)
    ensures o.dispatch.Some? ==> reply.Resolved? && o.dispatch.value.mobile == Session.Given(Some(n))
    ensures o.error.None? <==> o.navigation.Some?
    ensures o.dispatch.Some? <==> o.navigation.Some? && o.navigation.value.to != SignupPath && !reply.Rejected?
  {
    match reply
    case Resolved(r) =>
      if r.LoginResult? && Http.Truthy(r.token) then
        Outcome(Some(PasswordLogin(n, password)), Some(Session.SetSessionPayload(r.token, Session.Given(Some(n)))), Some(Navigation(DashboardPath, None, false)), None)
      else if r.LoginResult? && r.needSignup then
        Outcome(Some(PasswordLogin(n, password)), None, Some(Navigation(SignupPath, Some(n), false)), None)
      else
        Outcome(Some(PasswordLogin(n, password)), None, None, Some(LoginFailedMessage))
    case Rejected(e) => Failed(PasswordLogin(n, password), e)
  }

  /** The mobile rule comes first: an invalid number is reported even when the password is blank too. */
  lemma MobileCheckedBeforePassword(rawMobile: string, reply: Call<LoginReply>)
    requires !Phone.LoginMobilePattern(Phone.NormalizeIranMobile(rawMobile))
    ensures SubmitOutcome(PasswordMode, rawMobile, "", reply).error == Some(InvalidMobileMessage)
  {
  }

  /** A blank password in password mode is refused without any call. */
  lemma BlankPasswordRefused(rawMobile: string, password: string, reply: Call<LoginReply>)
    requires Phone.LoginMobilePattern(Phone.NormalizeIranMobile(rawMobile)) && IsBlank(password)
    ensures SubmitOutcome(PasswordMode, rawMobile, password, reply) == Refused(PasswordMissingMessage)
  {
    BlankIffTrimEmpty(password);
  }

  /** In OTP mode a "code already sent" rejection still goes to the code page, without an error or a dispatch. */
  lemma OtpRedirectGoesToCodePage(rawMobile: string, password: string, e: Http.HttpError)
    requires Phone.LoginMobilePattern(Phone.NormalizeIranMobile(rawMobile)) && IsOtpRedirect(e)
    ensures var o := SubmitOutcome(OtpMode, rawMobile, password, Rejected(e));
      o.navigation == Some(Navigation(OtpPath, Some(Phone.NormalizeIranMobile(rawMobile)), false))
      && o.error.None? && o.dispatch.None?
  {
  }

  /** In password mode the same rejection is only an error message. */
  lemma PasswordModeIgnoresOtpRedirect(rawMobile: string, password: string, e: Http.HttpError)
    requires Phone.LoginMobilePattern(Phone.NormalizeIranMobile(rawMobile)) && !IsBlank(password)
    ensures SubmitOutcome(PasswordMode, rawMobile, password, Rejected(e)).error == Some(Http.GetErrorMessage(e))
  {
    BlankIffTrimEmpty(password);
  }

  /** A token in the password reply is stored with the normalised number, and the dashboard guard then renders. */
  lemma PasswordSignInPassesGuard<C>(rawMobile: string, password: string, r: LoginReply,
                                     s: Session.SessionState, location: RequireAuth.Location, children: C)
    requires Phone.LoginMobilePattern(Phone.NormalizeIranMobile(rawMobile)) && !IsBlank(password)
    requires r.LoginResult? && Http.Truthy(r.token)
    ensures var o := SubmitOutcome(PasswordMode, rawMobile, password, Resolved(r));
      && o.dispatch == Some(Session.SetSessionPayload(r.token, Session.Given(Some(Phone.NormalizeIranMobile(rawMobile)))))
      && o.navigation == Some(Navigation(DashboardPath, None, false))
      && RequireAuth.Guard(Session.SetSessionState(s, o.dispatch.value), location, children) == RequireAuth.Render(children)
  {
    BlankIffTrimEmpty(password);
    var n := Phone.NormalizeIranMobile(rawMobile);
    assert SubmitOutcome(PasswordMode, rawMobile, password, Resolved(r)) == PasswordOutcome(n, password, Resolved(r));
  }

  class LoginPage {
    var mobile: string
    var password: string
    var mode: LoginMode
    var error: Option<string>
    var loading: bool
    /** the remote calls made */
    var requests: seq<Request>
    /** the `setSession` payloads dispatched */
    var dispatched: seq<Session.SetSessionPayload>
    var navigations: seq<Navigation>

    constructor ()
      ensures mobile == "" && password == "" && mode == PasswordMode && error == None && !loading
      ensures requests == [] && dispatched == [] && navigations == []
    {
      mobile := "";
      password := "";
      mode := PasswordMode;
      error := None;
      loading := false;
      requests := [];
      dispatched := [];
      navigations := [];
    }

    /** `handleModeChange`: clear the error, and the password when switching to OTP. */
    method ModeChange(m: LoginMode)
      modifies this
      ensures mode == m && error == None
      ensures password == if m == OtpMode then "" else old(password)
      ensures mobile == old(mobile) && loading == old(loading)
      ensures requests == old(requests) && dispatched == old(dispatched) && navigations == old(navigations)
    {
      mode := m;
      error := None;
      if m == OtpMode {
        password := "";
      }
    }

    /** Append an outcome's call, dispatch and navigation to the records, and show its error. */
    method Record(o: Outcome)
      modifies this
      ensures requests == old(requests) + ToSeq(o.request)
      ensures dispatched == old(dispatched) + ToSeq(o.dispatch)
      ensures navigations == old(navigations) + ToSeq(o.navigation)
      ensures error == o.error
      ensures mobile == old(mobile) && password == old(password) && mode == old(mode) && loading == old(loading)
    {
      requests := requests + ToSeq(o.request);
      dispatched := dispatched + ToSeq(o.dispatch);
      navigations := navigations + ToSeq(o.navigation);
      error := o.error;
    }

    /** `handleSubmit`, run to completion with the given end of its remote call. */
    method Submit(reply: Call<LoginReply>)
      modifies this
      ensures var o := SubmitOutcome(old(mode), old(mobile), old(password), reply);
        && requests == old(requests) + ToSeq(o.request)
        && dispatched == old(dispatched) + ToSeq(o.dispatch)
        && navigations == old(navigations) + ToSeq(o.navigation)
        && error == o.error
        && loading == (if o.request.Some? then false else old(loading))
      ensures mobile == old(mobile) && password == old(password) && mode == old(mode)
    {
      error := None;
      var o := SubmitOutcome(mode, mobile, password, reply);
      if o.request.None? {
        error := o.error;
        return;
      }
      loading := true;
      Record(o);
      loading := false;
    }
  }
}
