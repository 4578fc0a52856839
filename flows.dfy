/**
 * What the API layer's wrappers do, request by request: the credential each
 * request carries, how a rejection is handled and passed on, and the exact
 * request sequences of the two-step wrappers and of `updateGroup`.
 */
module Flows {

  import opened Options
  import opened Requests
  import Text
  import Storage
  import Policy

  /** The request a wrapper's call leaves the client as, given the slot at send time. */
  function Sent(c: Call, slot: Storage.Slot): Config {
    Authorize(Request(c), slot)
  }

  /**
   * The interceptor attaches an `Authorization` header exactly when the stored
   * token is truthy, and the server reads back exactly that token from it.
   */
  lemma BearerRoundTrip(c: Call, slot: Storage.Slot)
    ensures Sent(c, slot).headers.Some?
    ensures Sent(c, slot).headers.value.authorization.Some? <==> Storage.IsAuthenticated(slot)
    ensures Storage.IsAuthenticated(slot) ==>
              BearerCredential(Sent(c, slot).headers.value.authorization.value) == Some(slot.token)
  {
    if Storage.IsAuthenticated(slot) {
      var h := "Bearer " + slot.token;
      assert h[..|"Bearer "|] == "Bearer ";
      assert h[|"Bearer "|..] == slot.token;
    }
  }

  /** Handling the same rejection twice is handling it once (removing an absent token is a no-op). */
  lemma OnErrorIdempotent(st: State, e: HttpError)
    ensures OnError(OnError(st, e), e) == OnError(st, e)
  {
  }

  /**
   * One request: it is logged as sent; a 2xx passes through unchanged and leaves
   * the session; anything else rejects with the very error, clearing the
   * session only when it ends it.
   */
  lemma SendContract(st: State, server: Server, config: Config)
    ensures var (st', r) := Send(st, server, config);
            var sent := Authorize(config, st.slot);
            var reply := server(|st.log|, sent);
            && st'.log == st.log + [sent]
            && (reply.Response? && IsSuccess(reply.status) ==>
                  r == Resolved(reply.status, reply.data)
                  && st'.slot == st.slot && st'.forcedToLogin == st.forcedToLogin)
            && (!(reply.Response? && IsSuccess(reply.status)) ==>
                  r == Rejected(HttpError(sent, reply))
                  && (EndsSession(r.error) ==> st'.slot == Storage.Absent && st'.forcedToLogin)
                  && (!EndsSession(r.error) ==>
                        st'.slot == st.slot && st'.forcedToLogin == st.forcedToLogin))
  {
  }

  /** The reply the server gives to a wrapper's call issued from state `st`. */
  function ReplyTo(st: State, server: Server, c: Call): Reply {
    server(|st.log|, Sent(c, st.slot))
  }

  predicate Unauthorized(reply: Reply) {
    reply.Response? && reply.status == 401
  }

  /**
   * A single-request wrapper ends the session exactly when it is the login or
   * the identity request and the server answers 401.
   */
  lemma SingleSessionEffect(st: State, server: Server, c: Call)
    requires Policy.WellFormed(c)
    ensures var (st', _) := Single(st, server, c);
            && ((c.Login? || c.GetProfile?) && Unauthorized(ReplyTo(st, server, c)) ==>
                  st'.slot == Storage.Absent && st'.forcedToLogin)
            && (!((c.Login? || c.GetProfile?) && Unauthorized(ReplyTo(st, server, c))) ==>
                  st'.slot == st.slot && st'.forcedToLogin == st.forcedToLogin)
  {
    Policy.SessionUrls(c);
  }

  /** `login` posts the form fields email then password, form-encoded, to "/auth/token/". */
  lemma LoginRequest(email: string, password: string)
    ensures Request(Login(email, password)) ==
              Config(Post, "/auth/token/", Form([("email", email), ("password", password)]),
                     Some(Headers(FormType, None)))
  {
    Policy.Join3("auth", "token", "");
  }

  /** `addToFavorites(m)` issues the identical request to `likeMovie(m)`. */
  lemma AddToFavoritesIsLike(m: Value)
    ensures Request(AddToFavorites(m)) == Request(LikeMovie(m))
  {
  }

  /** The user id a resolved identity reply carries. */
  function UserIdOf(reply: Reply): Value {
    if reply.Response? then Field(reply.data, "user_id") else Undefined
  }

  /**
   * A two-step wrapper issues GET /users/me, then, only when that resolves, the
   * request scoped to the returned `user_id`, carrying the same credential; a
   * rejected lookup is what the caller sees.
   */
  lemma IdentityFirstRequests(st: State, server: Server, s: Scoped)
    ensures var (st', r) := IdentityFirst(st, server, s);
            var first := ReplyTo(st, server, GetProfile);
            var ok := first.Response? && IsSuccess(first.status);
            && (ok ==> st'.log == st.log + [Sent(GetProfile, st.slot),
                                            Sent(ScopedCall(s, UserIdOf(first)), st.slot)])
            && (!ok ==> st'.log == st.log + [Sent(GetProfile, st.slot)]
                        && r == Rejected(HttpError(Sent(GetProfile, st.slot), first)))
  {
  }

  /**
   * The scoped request of `leaveGroup`, written out by that wrapper, is the
   * request `removeMemberFromGroup` makes for the caller's own id.
   */
  lemma LeaveIsRemoveSelf(g: Value, userId: Value)
    ensures Request(ScopedCall(Leave(g), userId)) == Request(RemoveMemberFromGroup(g, userId))
  {
    var leave, remove := LeaveGroup(g, userId), RemoveMemberFromGroup(g, userId);
    assert ScopedCall(Leave(g), userId) == leave;
    assert MethodOf(leave) == Delete == MethodOf(remove);
    assert PathSegments(leave) == ["groups", Template(g), "members", Template(userId)] == PathSegments(remove);
    assert BodyOf(leave) == NoBody == BodyOf(remove);
  }

  /**
   * Only the identity lookup of a two-step wrapper can end the session: a 401
   * on the scoped request leaves it alone, for ids that render plainly.
   */
  lemma IdentityFirstSessionEffect(st: State, server: Server, s: Scoped)
    requires var first := ReplyTo(st, server, GetProfile);
             first.Response? && IsSuccess(first.status) ==> Policy.Plain(Template(UserIdOf(first)))
    requires s.Leave? ==> Policy.Plain(Template(s.groupId))
    requires s.Unfavourite? ==> Policy.Plain(Template(s.movieId))
    ensures var (st', _) := IdentityFirst(st, server, s);
            && (Unauthorized(ReplyTo(st, server, GetProfile)) ==>
                  st'.slot == Storage.Absent && st'.forcedToLogin)
            && (!Unauthorized(ReplyTo(st, server, GetProfile)) ==>
                  st'.slot == st.slot && st'.forcedToLogin == st.forcedToLogin)
  {
    var (st1, r1) := Single(st, server, GetProfile);
    SingleSessionEffect(st, server, GetProfile);
    if r1.Resolved? {
      var c := ScopedCall(s, UserIdOf(ReplyTo(st, server, GetProfile)));
      SingleSessionEffect(st1, server, c);
    }
  }

  /** The identity request goes to "/users/me". */
  lemma ProfileUrl()
    ensures Url(GetProfile) == "/users/me"
  {
    Policy.Join2("users", "me");
  }

  /** Leaving group 42 as user 7 deletes "/groups/42/members/7". */
  lemma LeaveUrl()
    ensures Url(ScopedCall(Leave(Num(42)), Num(7))) == "/groups/42/members/7"
  {
    Policy.Join4("groups", "42", "members", "7");
  }

  /**
   * The scenario of leaving group 42 as user 7: GET /users/me, then
   * DELETE /groups/42/members/7.
   */
  lemma LeaveGroupScenario(st: State, server: Server)
    requires ReplyTo(st, server, GetProfile) == Response(200, map["user_id" := Num(7)])
    ensures var (st', _) := IdentityFirst(st, server, Leave(Num(42)));
            && |st'.log| == |st.log| + 2
            && st'.log[|st.log|].verb == Get && st'.log[|st.log|].url == "/users/me"
            && st'.log[|st.log| + 1].verb == Delete
            && st'.log[|st.log| + 1].url == "/groups/42/members/7"
  {
    IdentityFirstRequests(st, server, Leave(Num(42)));
    assert UserIdOf(ReplyTo(st, server, GetProfile)) == Num(7);
    var first := Sent(GetProfile, st.slot);
    var second := Sent(ScopedCall(Leave(Num(42)), Num(7)), st.slot);
    ProfileUrl();
    LeaveUrl();
    assert first.verb == Get && first.url == "/users/me";
    assert second.verb == Delete && second.url == "/groups/42/members/7";
  }

  /**
   * `updateGroup` with a falsy `admin_id`: GET the group, and only when that
   * resolves PATCH name and the fetched `admin_id`, which is also written back
   * into the caller's data; a rejected fetch leaves the data as it was.
   */
  lemma UpdateGroupFetchesAdmin(st: State, server: Server, id: Value, name: string, adminId: Value)
    requires !Truthy(adminId)
    ensures var (st', r, admin') := UpdateGroup(st, server, id, name, adminId);
            var fetch := ReplyTo(st, server, GetGroup(id));
            var ok := fetch.Response? && IsSuccess(fetch.status);
            var fetched := if fetch.Response? then Field(fetch.data, "admin_id") else Undefined;
            && (ok ==> st'.log == st.log + [Sent(GetGroup(id), st.slot),
                                            Sent(PatchGroup(id, name, fetched), st.slot)]
                       && admin' == fetched)
            && (!ok ==> st'.log == st.log + [Sent(GetGroup(id), st.slot)]
                        && admin' == adminId
                        && r == Rejected(HttpError(Sent(GetGroup(id), st.slot), fetch)))
  {
  }

  /** `updateGroup` with a truthy `admin_id`: one PATCH, nothing fetched, data unchanged. */
  lemma UpdateGroupDirect(st: State, server: Server, id: Value, name: string, adminId: Value)
    requires Truthy(adminId)
    ensures var (st', _, admin') := UpdateGroup(st, server, id, name, adminId);
            && st'.log == st.log + [Sent(PatchGroup(id, name, adminId), st.slot)]
            && admin' == adminId
  {
  }

  /** The PATCH body carries exactly the name and the admin id, in that order. */
  lemma PatchBody(id: Value, name: string, adminId: Value)
    ensures Request(PatchGroup(id, name, adminId)).verb == Patch
    ensures Request(PatchGroup(id, name, adminId)).url == Url(GetGroup(id))
    ensures Request(PatchGroup(id, name, adminId)).body == Json([("name", Str(name)), ("admin_id", adminId)])
  {
  }
}
