/**
 * The axios client as an object: the token slot in local storage, the flag
 * set when the page is sent to the login screen, and the log of requests put
 * on the wire. Each method is proved to do exactly what the corresponding
 * function of `Requests` says, so every lemma about those functions holds of
 * the client.
 */
module Client {

  import opened Options
  import opened Requests
  import Storage

  /** A request being prepared: the interceptor rewrites its headers in place. */
  class Draft {
    const verb: Method
    const url: string
    const body: Body
    var headers: Option<Headers>

    constructor (config: Config)
      ensures Snapshot() == config
    {
      verb := config.verb;
      url := config.url;
      body := config.body;
      headers := config.headers;
    }

    function Snapshot(): Config
      reads this
    {
      Config(verb, url, body, headers)
    }
  }

  /** The caller's `data` object handed to `updateGroup`. */
  class GroupUpdate {
    var name: string
    var adminId: Value

    constructor (name: string, adminId: Value)
      ensures this.name == name && this.adminId == adminId
    {
      this.name := name;
      this.adminId := adminId;
    }
  }

  class ApiClient {
    var slot: Storage.Slot
    var forcedToLogin: bool
    var log: seq<Config>
    const server: Server

    function State(): Requests.State
      reads this
    {
      Requests.State(slot, forcedToLogin, log)
    }

    constructor (slot: Storage.Slot, server: Server)
      ensures State() == Requests.State(slot, false, [])
      ensures this.server == server
    {
      this.slot := slot;
      forcedToLogin := false;
      log := [];
      this.server := server;
    }

    /** The request interceptor: attaches the bearer token to the draft's headers. */
    method Intercept(draft: Draft)
      modifies draft
      ensures draft.Snapshot() == Authorize(old(draft.Snapshot()), slot)
    {
      if Storage.IsAuthenticated(slot) && draft.headers.Some? {
        draft.headers := Some(draft.headers.value.(authorization := Some("Bearer " + slot.token)));
      }
    }

    /** The response interceptor's error branch: tear down the session on a session 401, then reject. */
    method OnRejected(e: HttpError) returns (r: Outcome)
      modifies this
      ensures State() == OnError(old(State()), e)
      ensures r == Rejected(e)
    {
      if EndsSession(e) {
        slot := Storage.Removed(slot);
        forcedToLogin := true;
      }
      r := Rejected(e);
    }

    /** One request through both interceptors. */
    method Send(config: Config) returns (r: Outcome)
      modifies this
      ensures (State(), r) == Requests.Send(old(State()), server, config)
    {
      var draft := new Draft(config);
      Intercept(draft);
      var sent := draft.Snapshot();
      var reply := server(|log|, sent);
      log := log + [sent];
      if reply.Response? && IsSuccess(reply.status) {
        r := Resolved(reply.status, reply.data);
      } else {
        r := OnRejected(HttpError(sent, reply));
      }
    }

    /** A single-request wrapper of `authAPI`, `groupsAPI` or `moviesAPI`. */
    method Call(c: Requests.Call) returns (r: Outcome)
      modifies this
      ensures (State(), r) == Single(old(State()), server, c)
    {
      r := Send(Request(c));
    }

    /**
     * `getGroups`, `leaveGroup`, `getFavorites` and `removeFromFavorites`:
     * look up the current user, then issue the request scoped to that user.
     */
    method ForCurrentUser(s: Scoped) returns (r: Outcome)
      modifies this
      ensures (State(), r) == IdentityFirst(old(State()), server, s)
    {
      var me := Call(GetProfile);
      if me.Rejected? {
        return me;
      }
      r := Call(ScopedCall(s, Field(me.data, "user_id")));
    }

    /** `updateGroup`: fill a missing admin id from the server, writing it into `data`, then PATCH. */
    method UpdateGroup(id: Value, data: GroupUpdate) returns (r: Outcome)
      modifies this, data
      ensures (State(), r, data.adminId) ==
                Requests.UpdateGroup(old(State()), server, id, old(data.name), old(data.adminId))
      ensures data.name == old(data.name)
    {
      if !Truthy(data.adminId) {
        var group := Call(GetGroup(id));
        if group.Rejected? {
          return group;
        }
        data.adminId := Field(group.data, "admin_id");
      }
      r := Call(PatchGroup(id, data.name, data.adminId));
    }
  }
}
