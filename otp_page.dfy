/** `OtpPage`: entering the one-time code sent to the number carried in the route state. */
module OtpCode {
  import opened Wrappers
  import opened Text
  import Http
  import Session
  import RequireAuth
  import opened Effects
  import opened AuthFlow

  const PhonePath := "/auth/phone"
  const InvalidCodeMessage := "کد تایید معتبر نیست"

  /** The mount effect: without a mobile in the route state, replace this page by the phone page. */
  function MissingMobileRedirect(stateMobile: Option<string>): (r: Option<Navigation>)
    ensures r.Some? <==> !Http.Truthy(stateMobile)
    ensures r.Some? ==> r.value == Navigation(PhonePath, None, true)
  {
    if !Http.Truthy(stateMobile) then Some(Navigation(PhonePath, None, true)) else None
  }

  /** `/^\d{4,6}$/`. */
  predicate CodePattern(code: string) {
    AllDigits(code) && 4 <= |code| <= 6
  }

  /** The `mobile` of the `setSession` payload: `mobile as string` is `undefined` when the state has none. */
  function MobileArgOf(stateMobile: Option<string>): (m: Session.MobileArg)
    ensures stateMobile.None? ==> m == Session.Omitted
    ensures stateMobile.Some? ==> m == Session.Given(stateMobile)
  {
    if stateMobile.Some? then Session.Given(stateMobile) else Session.Omitted
  }

  /** `handleVerify`: check the code, verify it, store a returned token, and go to the dashboard in any case. */
  function VerifyOutcome(stateMobile: Option<string>, code: string, reply: Call<LoginReply>): (o: Outcome)
    ensures o.request.Some? <==> CodePattern(code)
    ensures o.request.Some? ==> o.request.value == VerifyCode(stateMobile, code)
    ensures o.request.None? ==> o == Refused(InvalidCodeMessage)
    ensures o.dispatch.Some? <==> CodePattern(code) && reply.Resolved? && reply.value.LoginResult? && Http.Truthy(reply.value.token)
    ensures o.dispatch.Some? ==> o.dispatch.value == Session.SetSessionPayload(reply.value.token, MobileArgOf(stateMobile))
    ensures o.navigation.Some? <==> CodePattern(code) && reply.Resolved?
    ensures o.navigation.Some? ==> o.navigation.value == Navigation(DashboardPath, None, true)
    ensures o.error.None? <==> o.navigation.Some?
    ensures reply.Rejected? && CodePattern(code) ==> o.error == Some(Http.GetErrorMessage(reply.error))
  {
    if !CodePattern(code) then Refused(InvalidCodeMessage)
    else
      var request := VerifyCode(stateMobile, code);
      match reply
      case Resolved(r) =>
        var dispatch := if r.LoginResult? && Http.Truthy(r.token) then Some(Session.SetSessionPayload(r.token, MobileArgOf(stateMobile))) else None;
        Outcome(Some(request), dispatch, Some(Navigation(DashboardPath, None, true)), None)
      case Rejected(e) => Failed(request, e)
  }

  /** A verified code without a token still leaves for the dashboard, whose guard then sends a signed-out user back to "/". */
  lemma TokenlessVerifyMeetsGuard<C>(stateMobile: Option<string>, code: string, s: Session.SessionState,
                                      location: RequireAuth.Location, children: C)
    requires CodePattern(code) && !Http.Truthy(s.token)
    ensures var o := VerifyOutcome(stateMobile, code, Resolved(NoReply));
      && o.dispatch.None? && o.navigation == Some(Navigation(DashboardPath, None, true))
      && RequireAuth.Guard(s, location, children).Redirect?
  {
  }

  /** A returned token, once stored, lets the dashboard guard render its children. */
  lemma VerifiedTokenPassesGuard<C>(stateMobile: Option<string>, code: string, token: string, needSignup: bool,
                                    s: Session.SessionState, location: RequireAuth.Location, children: C)
    requires CodePattern(code) && token != ""
    ensures var p := VerifyOutcome(stateMobile, code, Resolved(LoginResult(Some(token), needSignup))).dispatch.value;
      RequireAuth.Guard(Session.SetSessionState(s, p), location, children) == RequireAuth.Render(children)
  {
  }

  class OtpPage {
    /** `location.state.mobile` */
    const stateMobile: Option<string>
    var code: string
    var error: Option<string>
    var loading: bool
    /** the remote calls made */
    var requests: seq<Request>
    /** the `setSession` payloads dispatched */
    var dispatched: seq<Session.SetSessionPayload>
    var navigations: seq<Navigation>

    constructor (stateMobile: Option<string>)
      ensures this.stateMobile == stateMobile && code == "" && error == None && !loading
      ensures requests == [] && dispatched == [] && navigations == []
    {
      this.stateMobile := stateMobile;
      code := "";
      error := None;
      loading := false;
      requests := [];
      dispatched := [];
      navigations := [];
    }

    /** The effect on `[mobile]`. */
    method Mounted()
      modifies this
      ensures navigations == old(navigations) + ToSeq(MissingMobileRedirect(stateMobile))
      ensures code == old(code) && error == old(error) && loading == old(loading)
      ensures requests == old(requests) && dispatched == old(dispatched)
    {
      if !Http.Truthy(stateMobile) {
        navigations := navigations + [Navigation(PhonePath, None, true)];
      }
    }

    /** `handleVerify`, run to completion with the given end of `verifyCode`. */
    method Verify(reply: Call<LoginReply>)
      modifies this
      ensures var o := VerifyOutcome(stateMobile, old(code), reply);
        && requests == old(requests) + ToSeq(o.request)
        && dispatched == old(dispatched) + ToSeq(o.dispatch)
        && navigations == old(navigations) + ToSeq(o.navigation)
        && error == o.error
        && loading == (if o.request.Some? then false else old(loading))
      ensures code == old(code)
    {
      error := None;
      if !CodePattern(code) {
        error := Some(InvalidCodeMessage);
        return;
      }
      loading := true;
      requests := requests + [VerifyCode(stateMobile, code)];
      match reply {
        case Resolved(r) =>
          if r.LoginResult? && Http.Truthy(r.token) {
            dispatched := dispatched + [Session.SetSessionPayload(r.token, MobileArgOf(stateMobile))];
          }
          navigations := navigations + [Navigation(DashboardPath, None, true)];
        case Rejected(e) =>
          error := Some(Http.GetErrorMessage(e));
      }
      loading := false;
    }

    /** `handleResend`: nothing without a mobile; otherwise resend, showing only a failure. */
    method Resend(reply: Call<()>)
      modifies this
      ensures !Http.Truthy(stateMobile) ==> requests == old(requests) && error == old(error)
      ensures Http.Truthy(stateMobile) ==> (requests == old(requests) + [SendCode(stateMobile.value)]
        && error == (if reply.Rejected? then Some(Http.GetErrorMessage(reply.error)) else None))
      ensures code == old(code) && loading == old(loading) && dispatched == old(dispatched) && navigations == old(navigations)
    {
      if !Http.Truthy(stateMobile) {
        return;
      }
      error := None;
      requests := requests + [SendCode(stateMobile.value)];
      if reply.Rejected? {
        error := Some(Http.GetErrorMessage(reply.error));
      }
    }
  }
}
