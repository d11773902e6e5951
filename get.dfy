/**
 * The get-user handler (users/get.go): look the `id` path parameter up in
 * the users table and answer with the record. It never writes.
 */
module Get {
  import opened Models
  import opened Common
  import opened Stores

  const GetFuncReply := "users-get-handler"

  /** The lookup key `UserQuery{Id: id}`. */
  datatype UserQuery = UserQuery(id: string)

  /**
   * The outcome of every foreign call the handler makes: `MarshalMap` of the
   * key, `GetItem`, `UnmarshalMap` of the item, and whether `json.Marshal`
   * of the response fails (its error is never looked at).
   */
  datatype GetOutcomes = GetOutcomes(
    keyMarshalErr: Option<Error>,
    getItemErr: Option<Error>,
    unmarshalErr: Option<Error>,
    replyMarshalFails: bool)

  /** `req.PathParameters["id"]`; a Go map yields "" for a missing key. */
  function PathId(req: Request): (id: string)
    ensures "id" in req.pathParameters ==> id == req.pathParameters["id"]
    ensures "id" !in req.pathParameters ==> id == ""
  {
    if "id" in req.pathParameters then req.pathParameters["id"] else ""
  }

  /** The `Key` of `GetItemInput`: the query's `Id` in the configured users table. */
  function LookupKey(cfg: Config, query: UserQuery): (key: ItemKey)
    ensures key.table == cfg.usersTableName && key.id == query.id
  {
    ItemKey(cfg.usersTableName, query.id)
  }

  /** The record stored under `id`, or the zero user when there is none. */
  function StoredOrZero(s: Snapshot, cfg: Config, id: string): User {
    var key := LookupKey(cfg, UserQuery(id));
    if key in s.items then s.items[key] else ZeroUser
  }

  /**
   * `GetUserFromDynamoDb`: a failure of either call is an error; otherwise
   * the item, absent (`None`) when nothing is stored under the key.
   */
  function GetUserFromDynamoDb(s: Snapshot, cfg: Config, id: string, o: GetOutcomes): (r: Result<Option<User>>)
    ensures r.Err? <==> o.keyMarshalErr.Some? || o.getItemErr.Some?
    ensures o.keyMarshalErr.Some? ==> r == Err(o.keyMarshalErr.value)
    ensures o.keyMarshalErr.None? && o.getItemErr.Some? ==> r == Err(o.getItemErr.value)
    ensures r.Ok? ==> (r.value.Some? <==> ItemKey(cfg.usersTableName, id) in s.items)
    ensures r.Ok? && r.value.Some? ==> r.value.value == s.items[ItemKey(cfg.usersTableName, id)]
  {
    var key := LookupKey(cfg, UserQuery(id));
    if o.keyMarshalErr.Some? then Err(o.keyMarshalErr.value)
    else if o.getItemErr.Some? then Err(o.getItemErr.value)
    else Ok(if key in s.items then Some(s.items[key]) else None)
  }

  /** `UnmarshalMap` into `models.User{}`: an empty item leaves every field empty. */
  function Unmarshal(item: Option<User>): (u: User)
    ensures item.Some? ==> u == item.value
    ensures item.None? ==> IsZero(u)
  {
    if item.Some? then item.value else ZeroUser
  }

  /** `GetHandler`: lookup error 400, unmarshal error 500, anything else 200. */
  function GetHandler(s: Snapshot, cfg: Config, req: Request, o: GetOutcomes): (reply: Reply)
    ensures reply.response.statusCode in {200, 400, 500}
    ensures reply.err.None? <==> reply.response.statusCode == 200
    ensures reply.response.statusCode == 400 <==> (o.keyMarshalErr.Some? || o.getItemErr.Some?)
    ensures reply.err.Some? ==> reply.response.body == Empty && reply.response.headers == map[]
    ensures reply.response.statusCode == 200 ==>
              && reply.response.headers == ReplyHeaders(GetFuncReply)
              && !reply.response.isBase64Encoded
              && reply.response.body == (if o.replyMarshalFails then Empty else UserFound(StoredOrZero(s, cfg, PathId(req))))
    ensures o.keyMarshalErr.None? && o.getItemErr.None? ==>
              (reply.response.statusCode == 500 <==> o.unmarshalErr.Some?)
  {
    var id := PathId(req);
    match GetUserFromDynamoDb(s, cfg, id, o)
    case Err(e) => RespondWithError(e)
    case Ok(item) =>
      if o.unmarshalErr.Some? then Reply(StatusOnly(500), o.unmarshalErr)
      else
        var user := Unmarshal(item);
        var body := if o.replyMarshalFails then Empty else UserFound(user);
        Reply(Response(200, false, body, ReplyHeaders(GetFuncReply)), None)
  }

  /** The outcomes under which every foreign call succeeds. */
  const AllSucceed := GetOutcomes(None, None, None, false)

  /** A failed lookup: 400 with the error passed on. */
  lemma LookupErrorForwarded(s: Snapshot, cfg: Config, req: Request, o: GetOutcomes)
    requires o.keyMarshalErr.Some? || o.getItemErr.Some?
    ensures GetHandler(s, cfg, req, o) ==
            RespondWithError(if o.keyMarshalErr.Some? then o.keyMarshalErr.value else o.getItemErr.value)
  {
  }

  /** A failed unmarshal: bare status 500, and the error is returned. */
  lemma UnmarshalErrorIs500(s: Snapshot, cfg: Config, req: Request, o: GetOutcomes)
    requires o.keyMarshalErr.None? && o.getItemErr.None? && o.unmarshalErr.Some?
    ensures GetHandler(s, cfg, req, o) == Reply(StatusOnly(500), o.unmarshalErr)
  {
  }

  /** Nothing stored under the id is not an error: 200 and a user whose fields are all empty. */
  lemma EmptyResultIsZeroUser(s: Snapshot, cfg: Config, req: Request)
    requires ItemKey(cfg.usersTableName, PathId(req)) !in s.items
    ensures var reply := GetHandler(s, cfg, req, AllSucceed);
            && reply.err == None
            && reply.response.statusCode == 200
            && reply.response.body.UserFound?
            && IsZero(reply.response.body.user)
  {
  }

  /** A record already stored under the id is answered with 200 and that record. */
  lemma StoredRecordFound(s: Snapshot, cfg: Config, req: Request)
    requires ItemKey(cfg.usersTableName, PathId(req)) in s.items
    ensures GetHandler(s, cfg, req, AllSucceed) ==
            Reply(Response(200, false, UserFound(s.items[ItemKey(cfg.usersTableName, PathId(req))]),
                           ReplyHeaders(GetFuncReply)),
                  None)
  {
  }

  /** A failed `json.Marshal` of the response still answers 200 with a nil error, and an empty body. */
  lemma ReplyMarshalFailureIgnored(s: Snapshot, cfg: Config, req: Request, o: GetOutcomes)
    requires o.keyMarshalErr.None? && o.getItemErr.None? && o.unmarshalErr.None? && o.replyMarshalFails
    ensures GetHandler(s, cfg, req, o) == Reply(Response(200, false, Empty, ReplyHeaders(GetFuncReply)), None)
  {
  }

  /**
   * The reply depends on the request only through its `id` parameter, and
   * on the table only through the item under that id.
   */
  lemma ReplyDependsOnlyOnId(s1: Snapshot, s2: Snapshot, cfg: Config, req1: Request, req2: Request, o: GetOutcomes)
    requires PathId(req1) == PathId(req2)
    requires StoredOrZero(s1, cfg, PathId(req1)) == StoredOrZero(s2, cfg, PathId(req2))
    ensures GetHandler(s1, cfg, req1, o) == GetHandler(s2, cfg, req2, o)
  {
  }
}
