/**
 * The API access layer as a specification on values: the request shapes of the
 * call wrappers, the two interceptors, and each wrapper as a function from the
 * client state (token slot, forced-login flag, log of issued requests) and an
 * abstract server to the new state and the outcome the caller sees.
 */
module Requests {

  import opened Options
  import Text
  import Storage

  datatype Method = Get | Post | Patch | Delete

  /** A JavaScript value where api.ts passes one into a path or a body. */
  datatype Value = Num(n: int) | Str(s: string) | Null | Undefined

  /** The text a template literal gives a value: `${v}` (integer numbers only). */
  function Template(v: Value): string {
    match v
    case Num(n) => Text.IntText(n)
    case Str(s) => s
    case Null => "null"
    case Undefined => "undefined"
  }

  /** JavaScript truthiness (`!v` is its negation). */
  predicate Truthy(v: Value) {
    match v
    case Num(n) => n != 0
    case Str(s) => s != ""
    case Null => false
    case Undefined => false
  }

  /** A request payload: none, a JSON object (fields in order), or form fields (in order). */
  datatype Body = NoBody | Json(fields: seq<(string, Value)>) | Form(pairs: seq<(string, string)>)

  const JsonType: string := "application/json"
  const FormType: string := "application/x-www-form-urlencoded"

  datatype Headers = Headers(contentType: string, authorization: Option<string>)

  /** A request configuration as the interceptors see it; `url` is relative to the base address. */
  datatype Config = Config(verb: Method, url: string, body: Body, headers: Option<Headers>)

  /** What the server answers: a status with the response's JSON fields, or no response (network failure). */
  datatype Reply = Response(status: int, data: map<string, Value>) | NoResponse

  /** `response.data.key`: a missing field reads as `undefined`. */
  function Field(data: map<string, Value>, key: string): Value {
    if key in data then data[key] else Undefined
  }

  /** axios's default `validateStatus`: 2xx resolves, everything else rejects. */
  predicate IsSuccess(status: int) {
    200 <= status < 300
  }

  /** A rejected request: the configuration it was sent with and the reply, if any. */
  datatype HttpError = HttpError(config: Config, reply: Reply)

  /** What a wrapper's promise settles to. */
  datatype Outcome = Resolved(status: int, data: map<string, Value>) | Rejected(error: HttpError)

  /** The server: its reply to the n-th request the client issues, as that request left the client. */
  type Server = (nat, Config) -> Reply

  // ---------------------------------------------------------------------------
  // The request interceptor

  /** Attach `Bearer <token>` when the token is truthy and the config has headers. */
  function Authorize(config: Config, slot: Storage.Slot): (r: Config)
    ensures r.verb == config.verb && r.url == config.url && r.body == config.body
    ensures r.headers.Some? <==> config.headers.Some?
    ensures config.headers.Some? ==> r.headers.value.contentType == config.headers.value.contentType
    ensures config.headers.Some? && Storage.IsAuthenticated(slot) ==>
              r.headers.value.authorization == Some("Bearer " + slot.token)
    ensures !(config.headers.Some? && Storage.IsAuthenticated(slot)) ==> r == config
  {
    if Storage.IsAuthenticated(slot) && config.headers.Some? then
      config.(headers := Some(config.headers.value.(authorization := Some("Bearer " + slot.token))))
    else
      config
  }

  /** The credential a server reads back from an `Authorization` header. */
  function BearerCredential(header: string): Option<string> {
    if Text.StartsWith(header, "Bearer ") then Some(header[|"Bearer "|..]) else None
  }

  // ---------------------------------------------------------------------------
  // The response interceptor

  /** The URLs whose 401 means the session itself failed: credential issuing and identity. */
  predicate IsSessionUrl(url: string) {
    Text.Contains(url, "/auth/token") || Text.Contains(url, "/users/me")
  }

  /** A rejection that ends the session: status 401 on a session URL. */
  predicate EndsSession(e: HttpError) {
    e.reply.Response? && e.reply.status == 401 && IsSessionUrl(e.config.url)
  }

  /** The state a client is in, as far as this layer is concerned. */
  datatype State = State(slot: Storage.Slot, forcedToLogin: bool, log: seq<Config>)

  /** The error handler's effect: remove the token and force /login, or nothing. */
  function OnError(st: State, e: HttpError): (r: State)
    ensures r.log == st.log
    ensures EndsSession(e) ==> r.slot == Storage.Absent && r.forcedToLogin
    ensures !EndsSession(e) ==> r == st
  {
    if EndsSession(e) then st.(slot := Storage.Removed(st.slot), forcedToLogin := true) else st
  }

  /**
   * Issue one request: the interceptor attaches the credential, the server
   * answers, a 2xx resolves, and anything else goes through the error handler
   * and rejects with the same error.
   */
  function Send(st: State, server: Server, config: Config): (State, Outcome) {
    var sent := Authorize(config, st.slot);
    var reply := server(|st.log|, sent);
    var logged := st.(log := st.log + [sent]);
    if reply.Response? && IsSuccess(reply.status) then
      (logged, Resolved(reply.status, reply.data))
    else
      var e := HttpError(sent, reply);
      (OnError(logged, e), Rejected(e))
  }

  // ---------------------------------------------------------------------------
  // The wrappers' requests

  /** Every request a wrapper issues; each names the wrapper or the step it belongs to. */
  datatype Call =
    | Login(email: string, password: string)
    | Register(email: string, password: string, name: string)
    | Logout
    | GetProfile
    | UserGroups(userId: Value)
    | CreateGroup(groupName: string)
    | GetGroup(id: Value)
    | GetGroupWithMembers(groupId: Value)
    | PatchGroup(patchId: Value, newName: string, adminId: Value)
    | DeleteGroup(deleteId: Value)
    | AddMemberToGroup(addTo: Value, friendCode: string)
    | RemoveMemberFromGroup(removeFrom: Value, memberId: Value)
    | LeaveGroup(leaving: Value, self: Value)
    | SearchMovies(encodedQuery: string)
    | GetMovieDetails(movieId: Value)
    | GetRandomMovie
    | GetGenres
    | GetWatchProviders
    | GetPopularWatchProviders
    | LikeMovie(liked: Value)
    | DislikeMovie(disliked: Value)
    | AddToFavorites(favourite: Value)
    | UserFavourites(owner: Value)
    | RemoveFavourite(favOwner: Value, unfavoured: Value)
    | GetGroupMatches(matchesOf: Value)

  function MethodOf(c: Call): Method {
    match c
    case Login(_, _) => Post
    case Register(_, _, _) => Post
    case Logout => Post
    case CreateGroup(_) => Post
    case AddMemberToGroup(_, _) => Post
    case LikeMovie(_) => Post
    case DislikeMovie(_) => Post
    case AddToFavorites(_) => Post
    case PatchGroup(_, _, _) => Patch
    case DeleteGroup(_) => Delete
    case RemoveMemberFromGroup(_, _) => Delete
    case LeaveGroup(_, _) => Delete
    case RemoveFavourite(_, _) => Delete
    case _ => Get
  }

  /**
   * The path of each request as its slash-separated segments: api.ts's
   * literal `'/groups/'` is ["groups", ""], its template `` `/groups/${id}` `` is
   * ["groups", Template(id)].
   */
  function PathSegments(c: Call): seq<string> {
    match c
    case Login(_, _) => ["auth", "token", ""]
    case Register(_, _, _) => ["users", ""]
    case Logout => ["auth", "logout"]
    case GetProfile => ["users", "me"]
    case UserGroups(u) => ["users", Template(u), "groups"]
    case CreateGroup(_) => ["groups", ""]
    case GetGroup(id) => ["groups", Template(id)]
    case GetGroupWithMembers(id) => ["groups", Template(id)]
    case PatchGroup(id, _, _) => ["groups", Template(id)]
    case DeleteGroup(id) => ["groups", Template(id)]
    case AddMemberToGroup(g, _) => ["groups", Template(g), "members"]
    case RemoveMemberFromGroup(g, m) => ["groups", Template(g), "members", Template(m)]
    case LeaveGroup(g, u) => ["groups", Template(g), "members", Template(u)]
    case SearchMovies(q) => ["movies", "search?keywords=" + q]
    case GetMovieDetails(m) => ["movies", Template(m)]
    case GetRandomMovie => ["movies", "random"]
    case GetGenres => ["movies", "genres"]
    case GetWatchProviders => ["movies", "watch-providers"]
    case GetPopularWatchProviders => ["movies", "watch-providers", "popular"]
    case LikeMovie(m) => ["movies", Template(m), "right-swipe"]
    case DislikeMovie(m) => ["movies", Template(m), "left-swipe"]
    case AddToFavorites(m) => ["movies", Template(m), "right-swipe"]
    case UserFavourites(u) => ["users", Template(u), "favourites"]
    case RemoveFavourite(u, m) => ["users", Template(u), "favourites", Template(m)]
    case GetGroupMatches(g) => ["groups", Template(g), "matches"]
  }

  /** The request's path relative to the base address. */
  function Url(c: Call): string {
    Text.Join(PathSegments(c))
  }

  function BodyOf(c: Call): Body {
    match c
    case Login(email, password) => Form([("email", email), ("password", password)])
    case Register(email, password, name) =>
      Json([("email", Str(email)), ("password", Str(password)), ("name", Str(name))])
    case CreateGroup(name) => Json([("name", Str(name))])
    case PatchGroup(_, name, admin) => Json([("name", Str(name)), ("admin_id", admin)])
    case AddMemberToGroup(_, code) => Json([("friend_code", Str(code))])
    case _ => NoBody
  }

  /** The configuration a wrapper hands to the client, before the interceptor runs. */
  function Request(c: Call): Config {
    Config(MethodOf(c), Url(c), BodyOf(c),
           Some(Headers(if c.Login? then FormType else JsonType, None)))
  }

  // ---------------------------------------------------------------------------
  // The wrappers

  /** A wrapper that issues one request. */
  function Single(st: State, server: Server, c: Call): (State, Outcome) {
    Send(st, server, Request(c))
  }

  /** The request a two-step wrapper scopes to the caller's `user_id`. */
  datatype Scoped = Groups | Leave(groupId: Value) | Favourites | Unfavourite(movieId: Value)

  function ScopedCall(s: Scoped, userId: Value): Call {
    match s
    case Groups => UserGroups(userId)
    case Leave(g) => LeaveGroup(g, userId)
    case Favourites => UserFavourites(userId)
    case Unfavourite(m) => RemoveFavourite(userId, m)
  }

  /**
   * `getGroups`, `leaveGroup`, `getFavorites`, `removeFromFavorites`: look up
   * the caller's identity, then issue the scoped request; a rejected lookup
   * rejects the wrapper with that error.
   */
  function IdentityFirst(st: State, server: Server, s: Scoped): (State, Outcome) {
    var (st1, r1) := Single(st, server, GetProfile);
    if r1.Rejected? then (st1, r1)
    else Single(st1, server, ScopedCall(s, Field(r1.data, "user_id")))
  }

  /**
   * `updateGroup(id, data)`: when `data.admin_id` is falsy, fetch the group and
   * write its `admin_id` into `data` first; then PATCH name and admin id. The
   * third component is `data.admin_id` afterwards.
   */
  function UpdateGroup(st: State, server: Server, id: Value, name: string, adminId: Value)
    : (State, Outcome, Value)
  {
    if !Truthy(adminId) then
      var (st1, r1) := Single(st, server, GetGroup(id));
      if r1.Rejected? then (st1, r1, adminId)
      else
        var fetched := Field(r1.data, "admin_id");
        var (st2, r2) := Single(st1, server, PatchGroup(id, name, fetched));
        (st2, r2, fetched)
    else
      var (st1, r1) := Single(st, server, PatchGroup(id, name, adminId));
      (st1, r1, adminId)
  }
}
