/**
 * The API layer and the router together: the response interceptor's session
 * teardown and the navigation guard both read the same token slot.
 */
module App {

  import opened Options
  import opened Requests
  import Storage
  import Router
  import Policy
  import Flows

  /**
   * A 401 on the login or identity request removes the token, so every
   * navigation afterwards lands on an entry view, /login unless /register
   * was asked for.
   */
  lemma SessionEndSignsOut(st: State, server: Server, c: Call, path: string)
    requires Policy.WellFormed(c)
    requires c.Login? || c.GetProfile?
    requires Flows.Unauthorized(Flows.ReplyTo(st, server, c))
    ensures Single(st, server, c).0.forcedToLogin
    ensures Router.Navigate(Storage.IsAuthenticated(Single(st, server, c).0.slot), path, 2)
              == Some(if Router.IsEntryPath(path) then path else "/login")
  {
    Flows.SingleSessionEffect(st, server, c);
    Router.NavigateLands(false, path);
  }

  /**
   * Any failure of any other request leaves the token alone, so the guard
   * decides every navigation as it did before the request.
   */
  lemma OtherFailuresKeepGuard(st: State, server: Server, c: Call, path: string)
    requires Policy.WellFormed(c)
    requires !c.Login? && !c.GetProfile?
    ensures Router.BeforeEach(Single(st, server, c).0.slot, path) == Router.BeforeEach(st.slot, path)
    ensures !st.forcedToLogin ==> !Single(st, server, c).0.forcedToLogin
  {
    Flows.SingleSessionEffect(st, server, c);
  }
}
