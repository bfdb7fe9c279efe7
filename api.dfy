/**
 * The endpoint registry of the page scripts (class `APIService`): a fixed
 * table of paths and one typed call per backend operation, each delegating
 * to a verb helper of the transport.
 */
module Api {
  import opened Optional
  import opened JsString
  import opened JsValues
  import opened Ajax

  const AuthLogin := "/api/auth/login"
  const AuthRegister := "/api/auth/register"
  const AuthLogout := "/api/auth/logout"
  const AuthRefresh := "/api/auth/refresh"
  const UserProfile := "/api/user/profile"
  const UserUpdate := "/api/user/update"
  const UserAvatar := "/api/user/avatar"
  const ToolsList := "/api/tools"
  const ToolsCreate := "/api/tools"
  /** `/api/tools/:id`, the template `updateTool` and `deleteTool` fill in. */
  const ToolsUpdate := ToolsList + "/" + IdToken
  const ToolsDelete := ToolsList + "/" + IdToken
  const ToolsCategories := "/api/tools/categories"
  const ContactSend := "/api/contact/send"
  const ContactSubscribe := "/api/contact/subscribe"
  const DashboardStats := "/api/dashboard/stats"
  const DashboardAnalytics := "/api/dashboard/analytics"

  /** The token `updateTool` and `deleteTool` replace with the id. */
  const IdToken := ":id"

  /** What `getTools` and `getDashboardAnalytics` use when called without an argument. */
  const NoFilters := Object([])
  const DefaultPeriod := "30d"

  /** The verb helper of the transport a typed call goes through. */
  datatype Verb = GET | POST | PUT | DELETE

  /** The name of a verb, as `request` upper-cases it. */
  function VerbName(verb: Verb): string {
    match verb
    case GET => "GET"
    case POST => "POST"
    case PUT => "PUT"
    case DELETE => "DELETE"
  }

  /** A typed call: the transport helper, the path, the data and the options it passes on. */
  datatype Call =
    | Call(verb: Verb, path: string, data: Payload, options: Options)
    | UploadCall(path: string, file: nat)

  /** The typed calls of the service, with the arguments their callers give. */
  datatype Operation =
    | Login(credentials: Value)
    | Register(userData: Value)
    | Logout
    | RefreshToken
    | GetUserProfile
    | UpdateUserProfile(data: Value)
    | UploadAvatar(file: nat)
    | GetTools(filters: Value)
    | CreateTool(toolData: Value)
    | UpdateTool(id: string, toolData: Value)
    | DeleteTool(id: string)
    | GetToolCategories
    | SendContactMessage(messageData: Value)
    | SubscribeNewsletter(email: string)
    | GetDashboardStats
    | GetDashboardAnalytics(period: string)

  /**
   * The call each typed operation makes. Reads (GET) and DELETE pass no data:
   * the filters and the period travel only as `options.params`.
   */
  function Route(op: Operation): (c: Call)
    ensures c.Call? ==> c.data.Plain?
    ensures c.Call? && (c.verb == GET || c.verb == DELETE) ==> c.data == NoData
    ensures c.Call? ==> c.options.httpMethod.None? && c.options.headers.None? && c.options.body.None?
    ensures c.Call? && c.options.params.Some? ==> c.verb == GET
    ensures c.UploadCall? <==> op.UploadAvatar?
  {
    match op
    case Login(credentials) => Call(POST, AuthLogin, Plain(credentials), NoOptions)
    case Register(userData) => Call(POST, AuthRegister, Plain(userData), NoOptions)
    case Logout => Call(POST, AuthLogout, NoData, NoOptions)
    case RefreshToken => Call(POST, AuthRefresh, NoData, NoOptions)
    case GetUserProfile => Call(GET, UserProfile, NoData, NoOptions)
    case UpdateUserProfile(data) => Call(PUT, UserUpdate, Plain(data), NoOptions)
    case UploadAvatar(file) => UploadCall(UserAvatar, file)
    case GetTools(filters) => Call(GET, ToolsList, NoData, NoOptions.(params := Some(filters)))
    case CreateTool(toolData) => Call(POST, ToolsCreate, Plain(toolData), NoOptions)
    case UpdateTool(id, toolData) => Call(PUT, Replace(ToolsUpdate, IdToken, id), Plain(toolData), NoOptions)
    case DeleteTool(id) => Call(DELETE, Replace(ToolsDelete, IdToken, id), NoData, NoOptions)
    case GetToolCategories => Call(GET, ToolsCategories, NoData, NoOptions)
    case SendContactMessage(messageData) => Call(POST, ContactSend, Plain(messageData), NoOptions)
    case SubscribeNewsletter(email) =>
      Call(POST, ContactSubscribe, Plain(Object([("email", Str(email))])), NoOptions)
    case GetDashboardStats => Call(GET, DashboardStats, NoData, NoOptions)
    case GetDashboardAnalytics(period) =>
      Call(GET, DashboardAnalytics, NoData, NoOptions.(params := Some(Object([("period", Str(period))]))))
  }

  /** `:id` first occurs at position 11 of the tool path. */
  lemma IdTokenPosition()
    ensures IndexOf(ToolsUpdate, IdToken) == Some(11)
  {
    var s := ToolsUpdate;
    forall j | 0 <= j < 11 ensures !StartsWith(s[j..], IdToken) {
      assert s[j..][0] == s[j] != ':';
    }
    IndexOfFirst(s, IdToken, 11);
  }

  /**
   * `updateTool(id, data)` issues PUT to `/api/tools/` followed by the id,
   * with the data as payload, as long as the id holds no `$` (which `replace`
   * would expand).
   */
  lemma UpdateToolCall(id: string, toolData: Value)
    requires '$' !in id
    ensures Route(UpdateTool(id, toolData)) == Call(PUT, "/api/tools/" + id, Plain(toolData), NoOptions)
  {
    ToolPath(id);
  }

  /** `deleteTool(id)` issues DELETE to `/api/tools/` followed by a `$`-free id, with no payload. */
  lemma DeleteToolCall(id: string)
    requires '$' !in id
    ensures Route(DeleteTool(id)) == Call(DELETE, "/api/tools/" + id, NoData, NoOptions)
  {
    ToolPath(id);
  }

  /** The path `updateTool` and `deleteTool` build from a `$`-free id. */
  lemma ToolPath(id: string)
    requires '$' !in id
    ensures Replace(ToolsUpdate, IdToken, id) == "/api/tools/" + id
  {
    IdTokenPosition();
    ReplaceFirst(ToolsUpdate, IdToken, id, 11);
    assert ToolsUpdate[..11] == "/api/tools/";
    assert ToolsUpdate[14..] == [];
  }

  /** `getTools()` with no argument GETs `/api/tools` with an empty `params` object and no data. */
  lemma DefaultTools()
    ensures Route(GetTools(NoFilters)) == Call(GET, "/api/tools", NoData, NoOptions.(params := Some(Object([]))))
  {
  }

  /** An id of `$&` is expanded by `replace` into the matched token, leaving `:id` in the path. */
  lemma DollarIdKeepsToken(toolData: Value)
    ensures Route(UpdateTool("$&", toolData)).path == ToolsUpdate
  {
    IdTokenPosition();
    ReplaceWithMatch(ToolsUpdate, IdToken, 11);
  }

  /** A sent call: through `fetch`, or through an XMLHttpRequest upload. */
  datatype Sent = ViaFetch(call: Fetch) | ViaUpload(upload: Upload)

  /** The service: one transport, shared by every typed call. */
  class ApiService {
    const ajax: AjaxClient

    /** `new APIService()`; `origin` stands for `window.location.origin`. */
    constructor (origin: string, codec: Codec)
      ensures fresh(ajax) && ajax.baseUrl == origin && ajax.defaultHeaders == InitialHeaders
    {
      ajax := new AjaxClient(origin, codec);
    }

    /**
     * Issues the typed call `op`. `reply` stands for what the network answers
     * a `fetch`, `event` for how an upload ends.
     */
    method Invoke(op: Operation, reply: Reply, event: XhrEvent) returns (sent: Sent, outcome: Outcome)
      // every call goes to the path of its route, and no query string is ever added
      ensures Route(op).Call? ==>
                sent.ViaFetch? && sent.call.url == ajax.baseUrl + Route(op).path
                && sent.call.config.httpMethod == VerbName(Route(op).verb)
                && sent.call.config.params == Route(op).options.params
                && outcome == Settle(reply, ajax.codec.parseJson)
      // a body exactly for a truthy payload; the default headers are sent as they are
      ensures Route(op).Call? && IsTruthy(Route(op).data) ==>
                sent.call.config.body == Some(Encode(Route(op).data, ajax.codec.stringify))
                && sent.call.config.headers == ajax.defaultHeaders
      ensures Route(op).Call? && !IsTruthy(Route(op).data) ==>
                sent.call.config.body.None? && sent.call.config.headers == ajax.defaultHeaders
      ensures Route(op).UploadCall? ==>
                sent == ViaUpload(Upload(ajax.baseUrl + UserAvatar, map[], FormData([("file", File(Route(op).file))])))
                && outcome == SettleUpload(event, ajax.codec.parseJson)
    {
      match Route(op)
      case Call(verb, path, data, options) =>
        var call: Fetch;
        match verb {
          case GET => call, outcome := ajax.Get(path, options, reply);
          case POST => call, outcome := ajax.Post(path, data, options, reply);
          case PUT => call, outcome := ajax.Put(path, data, options, reply);
          case DELETE => call, outcome := ajax.Delete(path, options, reply);
        }
        sent := ViaFetch(call);
      case UploadCall(path, file) =>
        var upload: Upload;
        upload, outcome := ajax.UploadFile(path, file, None, event);
        sent := ViaUpload(upload);
    }
  }

  /**
   * `getDashboardAnalytics()` with its default period sends GET to the bare
   * analytics path: the period stays in the config's `params`, which `fetch`
   * ignores, and never reaches the URL.
   */
  method DefaultAnalytics(service: ApiService, reply: Reply) returns (sent: Sent)
    ensures sent.ViaFetch? && sent.call.url == service.ajax.baseUrl + "/api/dashboard/analytics"
    ensures sent.call.config.httpMethod == "GET" && sent.call.config.body.None?
    ensures sent.call.config.params == Some(Object([("period", Str("30d"))]))
  {
    var outcome;
    sent, outcome := service.Invoke(GetDashboardAnalytics(DefaultPeriod), reply, TransportError);
  }
}
