/** `MobilePage`: request a one-time code for a mobile number. */
module MobileEntry {
  import opened Wrappers
  import Http
  import Phone
  import Session
  import Login
  import opened Effects
  import opened AuthFlow

  /** `handleSubmit`: normalise, check `/^0?9\d{9}$/`, send the code, then store the number and go on. */
  function SubmitOutcome(rawMobile: string, reply: Call<()>): (o: Outcome)
    ensures var n := Phone.NormalizeIranMobile(rawMobile);
      && (o.request.Some? <==> Phone.LoginMobilePattern(n))
      && (o.request.Some? ==> o.request.value == SendCode(n))
      && (o.request.None? ==> o == Refused(InvalidMobileMessage))
      && (o.dispatch.Some? <==> o.request.Some? && reply.Resolved?)
      && (o.dispatch.Some? ==> o.dispatch.value == Session.SetSessionPayload(None, Session.Given(Some(n)))
                               && o.navigation == Some(Navigation(OtpPath, Some(n), false)))
    ensures o.error.None? <==> o.navigation.Some?
    ensures reply.Rejected? && o.request.Some? ==> o == Failed(o.request.value, reply.error)
  {
    var n := Phone.NormalizeIranMobile(rawMobile);
    if !Phone.LoginMobilePattern(n) then Refused(InvalidMobileMessage)
    else
      match reply
      case Resolved(_) =>
        Outcome(Some(SendCode(n)), Some(Session.SetSessionPayload(None, Session.Given(Some(n)))), Some(Navigation(OtpPath, Some(n), false)), None)
      case Rejected(e) => Failed(SendCode(n), e)
  }

  /** `sendCode` read as a `/login` reply: it carries no value. */
  function AsLoginCall(reply: Call<()>): Call<LoginReply> {
    match reply
    case Resolved(_) => Resolved(NoReply)
    case Rejected(e) => Rejected(e)
  }

  /** This page behaves as the login page in OTP mode, except that it has no "code already sent" redirect. */
  lemma AgreesWithOtpLogin(rawMobile: string, password: string, reply: Call<()>)
    requires !(reply.Rejected? && Login.IsOtpRedirect(reply.error))
    ensures SubmitOutcome(rawMobile, reply) == Login.SubmitOutcome(Login.OtpMode, rawMobile, password, AsLoginCall(reply))
  {
  }

  class MobilePage {
    var mobile: string
    var error: Option<string>
    var loading: bool
    /** the remote calls made */
    var requests: seq<Request>
    /** the `setSession` payloads dispatched */
    var dispatched: seq<Session.SetSessionPayload>
    var navigations: seq<Navigation>

    constructor ()
      ensures mobile == "" && error == None && !loading
      ensures requests == [] && dispatched == [] && navigations == []
    {
      mobile := "";
      error := None;
      loading := false;
      requests := [];
      dispatched := [];
      navigations := [];
    }

    /** `handleSubmit`, run to completion with the given end of `sendCode`. */
    method Submit(reply: Call<()>)
      modifies this
      ensures var o := SubmitOutcome(old(mobile), reply);
        && requests == old(requests) + ToSeq(o.request)
        && dispatched == old(dispatched) + ToSeq(o.dispatch)
        && navigations == old(navigations) + ToSeq(o.navigation)
        && error == o.error
        && loading == (if o.request.Some? then false else old(loading))
      ensures mobile == old(mobile)
    {
      error := None;
      var normalized := Phone.NormalizeIranMobile(mobile);
      if !Phone.LoginMobilePattern(normalized) {
        error := Some(InvalidMobileMessage);
        return;
      }
      loading := true;
      requests := requests + [SendCode(normalized)];
      match reply {
        case Resolved(_) =>
          dispatched := dispatched + [Session.SetSessionPayload(None, Session.Given(Some(normalized)))];
          navigations := navigations + [Navigation(OtpPath, Some(normalized), false)];
        case Rejected(e) =>
          error := Some(Http.GetErrorMessage(e));
      }
      loading := false;
    }
  }
}
