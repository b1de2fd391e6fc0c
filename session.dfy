/**
 * The session slice: the token and mobile number held in memory and mirrored
 * into `localStorage` under `auth_token` / `auth_mobile`.
 */
module Session {
  import opened Wrappers
  import opened Storage
  import Http

  datatype SessionState = SessionState(token: Option<string>, mobile: Option<string>)

  const EmptySession := SessionState(None, None)

  /** The `mobile?: string | null` field of a payload: omitted (`undefined`) or given, `null` included. */
  datatype MobileArg = Omitted | Given(value: Option<string>)

  /** The payload of a `setSession` action. */
  datatype SetSessionPayload = SetSessionPayload(token: Option<string>, mobile: MobileArg)

  /** `loadInitialState`: the stored values, missing keys giving `null`; both `null` when storage throws. */
  function LoadInitialState(items: map<string, string>, accessible: bool): (s: SessionState)
    ensures !accessible ==> s == EmptySession
    ensures accessible ==> s.token == Lookup(items, TokenKey) && s.mobile == Lookup(items, MobileKey)
  {
    if accessible then SessionState(Lookup(items, TokenKey), Lookup(items, MobileKey)) else EmptySession
  }

  /** The in-memory effect of `setSession`. */
  function SetSessionState(s: SessionState, p: SetSessionPayload): (r: SessionState)
    ensures r.token == p.token
    ensures p.mobile.Omitted? ==> r.mobile == s.mobile
    ensures p.mobile.Given? ==> r.mobile == p.mobile.value
  {
    SessionState(p.token, if p.mobile.Given? then p.mobile.value else s.mobile)
  }

  /** The storage effect of `setSession` when storage is accessible. */
  function SetSessionStorage(items: map<string, string>, p: SetSessionPayload): (r: map<string, string>)
    ensures forall k :: k != TokenKey && k != MobileKey ==> Lookup(r, k) == Lookup(items, k)
  {
    var afterToken := if Http.Truthy(p.token) then items[TokenKey := p.token.value] else items - {TokenKey};
    match p.mobile
    case Omitted => afterToken
    case Given(m) => if Http.Truthy(m) then afterToken[MobileKey := m.value] else afterToken - {MobileKey}
  }

  /** The storage effect of `clearSession` when storage is accessible. */
  function ClearSessionStorage(items: map<string, string>): (r: map<string, string>)
    ensures TokenKey !in r && MobileKey !in r
    ensures forall k :: k != TokenKey && k != MobileKey ==> Lookup(r, k) == Lookup(items, k)
  {
    items - {TokenKey, MobileKey}
  }

  /** An empty string is stored as an absent key; both read as "no value". */
  function Normal(v: Option<string>): Option<string> {
    if Http.Truthy(v) then v else None
  }

  /** Storage holds what memory holds, up to empty strings being absent. */
  predicate Mirrors(s: SessionState, items: map<string, string>) {
    && Normal(s.token) == Normal(Lookup(items, TokenKey))
    && Normal(s.mobile) == Normal(Lookup(items, MobileKey))
  }

  /** The token key is written when the token is truthy and removed otherwise. */
  lemma SetSessionWritesToken(items: map<string, string>, p: SetSessionPayload)
    ensures Http.Truthy(p.token) ==> Lookup(SetSessionStorage(items, p), TokenKey) == p.token
    ensures !Http.Truthy(p.token) ==> TokenKey !in SetSessionStorage(items, p)
  {
  }

  /** The mobile key is written for a truthy mobile, removed for `null` or `""`, untouched when omitted. */
  lemma SetSessionWritesMobile(items: map<string, string>, p: SetSessionPayload)
    ensures p.mobile.Given? && Http.Truthy(p.mobile.value) ==>
      Lookup(SetSessionStorage(items, p), MobileKey) == p.mobile.value
    ensures p.mobile.Given? && !Http.Truthy(p.mobile.value) ==> MobileKey !in SetSessionStorage(items, p)
    ensures p.mobile.Omitted? ==> Lookup(SetSessionStorage(items, p), MobileKey) == Lookup(items, MobileKey)
  {
  }

  /** `setSession` keeps storage mirroring memory. */
  lemma SetSessionKeepsMirror(s: SessionState, items: map<string, string>, p: SetSessionPayload)
    requires Mirrors(s, items)
    ensures Mirrors(SetSessionState(s, p), SetSessionStorage(items, p))
  {
    SetSessionWritesToken(items, p);
    SetSessionWritesMobile(items, p);
  }

  /** `clearSession` leaves an empty session mirrored by storage without either key. */
  lemma ClearSessionMirrors(items: map<string, string>)
    ensures Mirrors(EmptySession, ClearSessionStorage(items))
  {
  }

  /** Start-up state always mirrors the storage it was read from. */
  lemma LoadInitialStateMirrors(items: map<string, string>)
    ensures Mirrors(LoadInitialState(items, true), items)
  {
  }

  /**
   * After `setSession` with a non-empty token and mobile, a reload reads back exactly
   * the session that was set, whatever the stored state was before.
   */
  lemma RehydrateAfterSetSession(s: SessionState, items: map<string, string>, token: string, mobile: string)
    requires token != "" && mobile != ""
    ensures var p := SetSessionPayload(Some(token), Given(Some(mobile)));
      LoadInitialState(SetSessionStorage(items, p), true) == SetSessionState(s, p)
  {
    var p := SetSessionPayload(Some(token), Given(Some(mobile)));
    SetSessionWritesToken(items, p);
    SetSessionWritesMobile(items, p);
  }

  /** A reload from mirroring storage never changes whether a token is present. */
  lemma ReloadKeepsTokenPresence(s: SessionState, items: map<string, string>)
    requires Mirrors(s, items)
    ensures Http.Truthy(LoadInitialState(items, true).token) <==> Http.Truthy(s.token)
  {
  }

  /** An OTP request sets the mobile with a null token; a later verify that omits the mobile keeps it. */
  lemma OmittedMobileSurvives(s: SessionState, mobile: string, token: string)
    ensures var mid := SetSessionState(s, SetSessionPayload(None, Given(Some(mobile))));
      SetSessionState(mid, SetSessionPayload(Some(token), Omitted)) == SessionState(Some(token), Some(mobile))
  {
  }

  /** Clearing twice stores the same as clearing once. */
  lemma ClearSessionIdempotent(items: map<string, string>)
    ensures ClearSessionStorage(ClearSessionStorage(items)) == ClearSessionStorage(items)
  {
  }

  /** The session slice of the store. */
  class SessionStore {
    var token: Option<string>
    var mobile: Option<string>
    /** `localStorage` */
    const storage: WebStorage

    function State(): SessionState
      reads this
    {
      SessionState(token, mobile)
    }

    /** The store is created with `loadInitialState()`. */
    constructor (storage: WebStorage)
      ensures this.storage == storage
      ensures State() == LoadInitialState(storage.items, storage.accessible)
    {
      var savedToken := storage.GetItem(TokenKey);
      var savedMobile := storage.GetItem(MobileKey);
      this.storage := storage;
      if savedToken.Ok? && savedMobile.Ok? {
        token, mobile := savedToken.value, savedMobile.value;
      } else {
        token, mobile := None, None;
      }
    }

    /**
     * `setSession`: memory is always updated; storage follows unless it throws,
     * in which case it is left as it was.
     */
    method SetSession(p: SetSessionPayload)
      modifies this, storage
      ensures State() == SetSessionState(old(State()), p)
      ensures storage.accessible == old(storage.accessible)
      ensures storage.items == if storage.accessible then SetSessionStorage(old(storage.items), p) else old(storage.items)
    {
      token := p.token;
      if p.mobile.Given? {
        mobile := p.mobile.value;
      }
      var ok: bool;
      if Http.Truthy(p.token) {
        ok := storage.SetItem(TokenKey, p.token.value);
      } else {
        ok := storage.RemoveItem(TokenKey);
      }
      if ok {
        match p.mobile {
          case Given(m) =>
            if Http.Truthy(m) {
              ok := storage.SetItem(MobileKey, m.value);
            } else {
              ok := storage.RemoveItem(MobileKey);
            }
          case Omitted =>
        }
      }
    }

    /** `clearSession`: both fields `null`, both keys removed unless storage throws. */
    method ClearSession()
      modifies this, storage
      ensures State() == EmptySession
      ensures storage.accessible == old(storage.accessible)
      ensures storage.items == if storage.accessible then ClearSessionStorage(old(storage.items)) else old(storage.items)
    {
      token, mobile := None, None;
      var ok := storage.RemoveItem(TokenKey);
      if ok {
        ok := storage.RemoveItem(MobileKey);
      }
      assert storage.accessible ==> storage.items == old(storage.items) - {TokenKey} - {MobileKey};
    }
  }
}
