/** `SignupPage`: completing the registration of the number carried in the route state. */
module Signup {
  import opened Wrappers
  import Http
  import opened Effects
  import opened AuthFlow

  const HomePath := "/"
  const SignupInvalidMessage := "نام را وارد کنید و رمز حداقل ۶ کاراکتر باشد"

  /** `handleSubmit`: a non-empty name and a password of six or more characters, neither trimmed. */
  function SubmitOutcome(stateMobile: Option<string>, name: string, password: string, reply: Call<()>): (o: Outcome)
    ensures o.request.Some? <==> name != "" && |password| >= 6
    ensures o.request.Some? ==> o.request.value == Request.Signup(stateMobile, name, password)
    ensures o.request.None? ==> o == Refused(SignupInvalidMessage)
    ensures o.dispatch.None?
    ensures o.navigation.Some? <==> o.request.Some? && reply.Resolved?
    ensures o.navigation.Some? ==> o.navigation.value == Navigation(HomePath, None, true)
    ensures o.error.None? <==> o.navigation.Some?
    ensures reply.Rejected? && o.request.Some? ==> o == Failed(o.request.value, reply.error)
  {
    if name == "" || |password| < 6 then Refused(SignupInvalidMessage)
    else
      var request := Request.Signup(stateMobile, name, password);
      match reply
      case Resolved(_) => Outcome(Some(request), None, Some(Navigation(HomePath, None, true)), None)
      case Rejected(e) => Failed(request, e)
  }

  /** Blank input is not trimmed: a space for a name and six spaces for a password are sent. */
  lemma WhitespaceIsAccepted(stateMobile: Option<string>, reply: Call<()>)
    ensures SubmitOutcome(stateMobile, " ", "      ", reply).request == Some(Request.Signup(stateMobile, " ", "      "))
  {
  }

  class SignupPage {
    /** `location.state.mobile` */
    const stateMobile: Option<string>
    var name: string
    var password: string
    var error: Option<string>
    var loading: bool
    /** the remote calls made */
    var requests: seq<Request>
    var navigations: seq<Navigation>

    constructor (stateMobile: Option<string>)
      ensures this.stateMobile == stateMobile && name == "" && password == "" && error == None && !loading
      ensures requests == [] && navigations == []
    {
      this.stateMobile := stateMobile;
      name := "";
      password := "";
      error := None;
      loading := false;
      requests := [];
      navigations := [];
    }

    /** `handleSubmit`, run to completion with the given end of `signup`. */
    method Submit(reply: Call<()>)
      modifies this
      ensures var o := SubmitOutcome(stateMobile, old(name), old(password), reply);
        && requests == old(requests) + ToSeq(o.request)
        && navigations == old(navigations) + ToSeq(o.navigation)
        && error == o.error
        && loading == (if o.request.Some? then false else old(loading))
      ensures name == old(name) && password == old(password)
    {
      error := None;
      if name == "" || |password| < 6 {
        error := Some(SignupInvalidMessage);
        return;
      }
      loading := true;
      requests := requests + [Request.Signup(stateMobile, name, password)];
      match reply {
        case Resolved(_) =>
          navigations := navigations + [Navigation(HomePath, None, true)];
        case Rejected(e) =>
          error := Some(Http.GetErrorMessage(e));
      }
      loading := false;
    }
  }
}
