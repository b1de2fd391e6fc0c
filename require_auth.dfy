/** `RequireAuth`: the route guard in front of the dashboard pages. */
module RequireAuth {
  import opened Wrappers
  import Http
  import Session

  /** The location the user asked for (kept opaque: it is only passed along). */
  datatype Location = Location(pathname: string, search: string, hash: string)

  /** What the guard renders: a `<Navigate>` to another route, or its children. */
  datatype GuardOutcome<C> =
    | Redirect(to: string, fromLocation: Location, replace: bool)
    | Render(children: C)

  /** `RequireAuth({children})` evaluated against the session and the current location. */
  function Guard<C>(session: Session.SessionState, location: Location, children: C): (r: GuardOutcome<C>)
    ensures r.Render? <==> Http.Truthy(session.token)
    ensures r.Render? ==> r.children == children
    ensures r.Redirect? ==> r.to == "/" && r.fromLocation == location && r.replace
  {
    if !Http.Truthy(session.token) then Redirect("/", location, true) else Render(children)
  }

  /** The decision reads the token only: the mobile number never changes it. */
  lemma GuardIgnoresMobile<C>(token: Option<string>, m1: Option<string>, m2: Option<string>, location: Location, children: C)
    ensures Guard(Session.SessionState(token, m1), location, children) == Guard(Session.SessionState(token, m2), location, children)
  {
  }

  /** After a reload from storage that mirrored the session, the guard decides as before. */
  lemma GuardStableAcrossReload<C>(s: Session.SessionState, items: map<string, string>, location: Location, children: C)
    requires Session.Mirrors(s, items)
    ensures Guard(Session.LoadInitialState(items, true), location, children).Render? <==> Guard(s, location, children).Render?
  {
    Session.ReloadKeepsTokenPresence(s, items);
  }

  /** A cleared session is always redirected to the entry page. */
  lemma ClearedSessionRedirects<C>(location: Location, children: C)
    ensures Guard(Session.EmptySession, location, children) == Redirect("/", location, true)
  {
  }
}
