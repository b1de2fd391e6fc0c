/** `AuthProvider` / `useAuth`: the signed-in user fetched from `/auth/me` and its permissions. */
module AuthContext {
  import opened Wrappers
  import opened Storage
  import Http

  datatype AuthUser = AuthUser(id: int, name: string, mobile: string, roles: seq<string>, permissions: seq<string>)

  /** The `data.user` object of the `/auth/me` reply; `roles` and `permissions` may be missing. */
  datatype MeUser = MeUser(id: int, name: string, mobile: string, roles: Option<seq<string>>, permissions: Option<seq<string>>)

  /** How the awaited `/auth/me` call ends. */
  datatype MeReply = MeOk(user: MeUser) | MeFailed

  /** The user the provider keeps: missing role and permission lists become empty ones. */
  function ToAuthUser(u: MeUser): (a: AuthUser)
    ensures a.id == u.id && a.name == u.name && a.mobile == u.mobile
    ensures u.roles.Some? ==> a.roles == u.roles.value
    ensures u.roles.None? ==> a.roles == []
    ensures u.permissions.Some? ==> a.permissions == u.permissions.value
    ensures u.permissions.None? ==> a.permissions == []
  {
    AuthUser(u.id, u.name, u.mobile, u.roles.GetOr([]), u.permissions.GetOr([]))
  }

  /** `hasPermission`: `user?.permissions.includes(p) ?? false`. */
  function HasPermission(user: Option<AuthUser>, p: string): (b: bool)
    ensures b <==> user.Some? && p in user.value.permissions
  {
    match user
    case None => false
    case Some(u) => p in u.permissions
  }

  /** A user whose reply had no permission list is granted nothing. */
  lemma MissingPermissionsGrantNothing(u: MeUser, p: string)
    requires u.permissions.None?
    ensures !HasPermission(Some(ToAuthUser(u)), p)
  {
  }

  /** What the provider hands to its consumers (the functions are left implicit). */
  datatype AuthContextValue = AuthContextValue(user: Option<AuthUser>, loading: bool)

  const OutsideProviderMessage := "useAuth must be used within AuthProvider"

  /** `useAuth`: throws outside an `AuthProvider`, otherwise returns the context value. */
  function UseAuth(context: Option<AuthContextValue>): (r: Result<AuthContextValue>)
    ensures context.None? <==> r.Thrown?
    ensures r.Thrown? ==> r.message == OutsideProviderMessage
    ensures context.Some? ==> r == Ok(context.value)
  {
    match context
    case None => Thrown(OutsideProviderMessage)
    case Some(v) => Ok(v)
  }

  /**
   * The token the start-up effect finds: `localStorage` first, then `sessionStorage`;
   * `Thrown` when a storage read throws, which aborts the effect.
   */
  function StartupToken(local: map<string, string>, localOk: bool, session: map<string, string>, sessionOk: bool): (r: Result<Option<string>>)
    ensures r.Ok? ==> r.value == Http.StoredToken(local, session)
    ensures r.Thrown? <==> !localOk || (!Http.Truthy(Lookup(local, TokenKey)) && !sessionOk)
  {
    if !localOk then Thrown("SecurityError")
    else if Http.Truthy(Lookup(local, TokenKey)) then Ok(Lookup(local, TokenKey))
    else if !sessionOk then Thrown("SecurityError")
    else Ok(Http.StoredToken(local, session))
  }

  class AuthProvider {
    var user: Option<AuthUser>
    var loading: bool
    /** how many `/auth/me` requests were started */
    var meRequests: nat
    /** `localStorage` and `sessionStorage` */
    const local: WebStorage
    const session: WebStorage

    constructor (local: WebStorage, session: WebStorage)
      ensures this.local == local && this.session == session
      ensures user == None && loading && meRequests == 0
    {
      this.local := local;
      this.session := session;
      user := None;
      loading := true;
      meRequests := 0;
    }

    function Value(): AuthContextValue
      reads this
    {
      AuthContextValue(user, loading)
    }

    /**
     * The mount effect. With a token it fetches `/auth/me` (ending as `reply`): success
     * stores the user, failure removes the token from both storages; either way loading
     * ends. Without a token nothing is fetched and loading ends.
     */
    method Start(reply: MeReply)
      requires local != session
      modifies this, local, session
      ensures local.accessible == old(local.accessible) && session.accessible == old(session.accessible)
      ensures var t := StartupToken(old(local.items), old(local.accessible), old(session.items), old(session.accessible));
        && (t.Thrown? ==>
              user == old(user) && loading == old(loading) && meRequests == old(meRequests)
              && local.items == old(local.items) && session.items == old(session.items))
        && (t.Ok? && !Http.Truthy(t.value) ==>
              user == old(user) && !loading && meRequests == old(meRequests)
              && local.items == old(local.items) && session.items == old(session.items))
        && (t.Ok? && Http.Truthy(t.value) ==> !loading && meRequests == old(meRequests) + 1)
        && (t.Ok? && Http.Truthy(t.value) && reply.MeOk? ==>
              user == Some(ToAuthUser(reply.user)) && local.items == old(local.items) && session.items == old(session.items))
        && (t.Ok? && Http.Truthy(t.value) && reply.MeFailed? ==>
              && user == old(user)
              && local.items == old(local.items) - {TokenKey}
              && session.items == (if session.accessible then old(session.items) - {TokenKey} else old(session.items)))
    {
      var fromLocal := local.GetItem(TokenKey);
      if fromLocal.Thrown? {
        return;
      }
      var token := fromLocal.value;
      if !Http.Truthy(token) {
        var fromSession := session.GetItem(TokenKey);
        if fromSession.Thrown? {
          return;
        }
        token := fromSession.value;
      }
      if Http.Truthy(token) {
        meRequests := meRequests + 1;
        match reply {
          case MeOk(u) =>
            user := Some(ToAuthUser(u));
          case MeFailed =>
            var ok := local.RemoveItem(TokenKey);
            if ok {
              ok := session.RemoveItem(TokenKey);
            }
        }
        loading := false;
      } else {
        loading := false;
      }
    }

    /** `logout`: no user, and the token removed from `localStorage` and then `sessionStorage`. */
    method Logout()
      requires local != session
      modifies this, local, session
      ensures user == None && loading == old(loading) && meRequests == old(meRequests)
      ensures local.accessible == old(local.accessible) && session.accessible == old(session.accessible)
      ensures local.items == if local.accessible then old(local.items) - {TokenKey} else old(local.items)
      ensures session.items == if local.accessible && session.accessible then old(session.items) - {TokenKey} else old(session.items)
    {
      user := None;
      var ok := local.RemoveItem(TokenKey);
      if ok {
        ok := session.RemoveItem(TokenKey);
      }
    }
  }
}
