/**
 * The current-user endpoint: configuration checks, Bearer-header parsing, token
 * verification that never throws, then a lookup of the token's user id.
 */
module CurrentUser {
  import opened Common
  import opened Strings
  import opened Crypto
  import opened Models
  import opened Http
  import Db

  /** The origins this handler echoes back in `Access-Control-Allow-Origin`. */
  const AllowedOrigins := ["https://beta-vowveneus-v1.vercel.app", "http://localhost:5173", "http://localhost:3000"]

  const BearerPrefix := "Bearer "

  const ConfigError := "Server configuration error"
  const DbNotConfigured := "Database connection not configured"
  const AuthNotConfigured := "Authentication not configured"
  const NoToken := "No token provided"
  const InvalidToken := "Invalid token"
  const UserNotFound := "User not found"

  /** `verifyToken`: `null` when `JWT_SECRET` is unset or empty, or when `jwt.verify` throws. */
  function VerifyToken(token: string, jwtSecret: Option<string>, verify: Verifier): (r: Option<Claims>)
    ensures !Truthy(jwtSecret) ==> r.None?
    ensures Truthy(jwtSecret) ==> r == verify(token, jwtSecret.value)
  {
    if !Truthy(jwtSecret) then None else verify(token, jwtSecret.value)
  }

  /** The token of a present header that starts with exactly `"Bearer "`: the header minus its first 7 characters. */
  function BearerToken(header: Option<string>): (token: Option<string>)
    ensures token.Some? <==> Truthy(header) && StartsWith(header.value, BearerPrefix)
    ensures token.Some? ==> header.value == BearerPrefix + token.value
  {
    if !Truthy(header) || !StartsWith(header.value, BearerPrefix) then None
    else Some(header.value[7..])
  }

  /** `"Bearer " + t` yields `t`. */
  lemma BearerRoundTrip(t: string)
    ensures BearerToken(Some(BearerPrefix + t)) == Some(t)
  {
    assert (BearerPrefix + t)[..7] == BearerPrefix;
    assert (BearerPrefix + t)[7..] == t;
  }

  /** An answer with this handler's CORS headers for the request's origin. */
  function Reply(req: Request, status: int, body: Body): Response {
    Response(status, ListedCors(Header(req, "origin"), AllowedOrigins), body)
  }

  /** The current-user handler; `connect` is what awaiting `connectToDatabase()` gave. */
  function Handle(req: Request, env: Env, connect: Result<Db.Conn>, users: seq<User>, verify: Verifier): (resp: Response)
    ensures resp.headers == ListedCors(Header(req, "origin"), AllowedOrigins)
  {
    if req.verb == "OPTIONS" then Reply(req, 200, NoBody)
    else if req.verb != "GET" then Reply(req, 405, Message(NotAllowed))
    else if !Truthy(env.mongoUri) then Reply(req, 500, Failure(ConfigError, DbNotConfigured))
    else if !Truthy(env.jwtSecret) then Reply(req, 500, Failure(ConfigError, AuthNotConfigured))
    else
      match BearerToken(Header(req, "authorization"))
      case None => Reply(req, 401, Message(NoToken))
      case Some(token) =>
        match VerifyToken(token, env.jwtSecret, verify)
        case None => Reply(req, 401, Message(InvalidToken))
        case Some(claims) =>
          if connect.Err? then Reply(req, 500, Failure(InternalError, connect.message))
          else
            match FindById(users, claims.userId)
            case None => Reply(req, 404, Message(UserNotFound))
            case Some(user) => Reply(req, 200, UserRecord(PublicView(user)))
  }

  // ---- Properties of the handler ----

  /** The checks run in order: OPTIONS, the method, `MONGODB_URI`, then `JWT_SECRET`. */
  lemma GuardOrder(req: Request, env: Env, connect: Result<Db.Conn>, users: seq<User>, verify: Verifier)
    ensures var r := Handle(req, env, connect, users, verify);
      && (req.verb == "OPTIONS" ==> r.status == 200 && r.body == NoBody)
      && (req.verb != "OPTIONS" && req.verb != "GET" ==> r.status == 405 && r.body == Message(NotAllowed))
      && (req.verb == "GET" && !Truthy(env.mongoUri) ==> r.status == 500 && r.body == Failure(ConfigError, DbNotConfigured))
      && (req.verb == "GET" && Truthy(env.mongoUri) && !Truthy(env.jwtSecret) ==>
            r.status == 500 && r.body == Failure(ConfigError, AuthNotConfigured))
  {
  }

  /** Requests that pass the method and configuration checks. */
  predicate Admitted(req: Request, env: Env) {
    req.verb == "GET" && Truthy(env.mongoUri) && Truthy(env.jwtSecret)
  }

  /** An absent header, or one not starting with `"Bearer "`, gives 401 "No token provided". */
  lemma MissingBearerRejected(req: Request, env: Env, connect: Result<Db.Conn>, users: seq<User>, verify: Verifier)
    requires Admitted(req, env)
    requires var h := Header(req, "authorization"); h.None? || !StartsWith(h.value, BearerPrefix)
    ensures var r := Handle(req, env, connect, users, verify);
      r.status == 401 && r.body == Message(NoToken)
  {
  }

  /** A token `jwt.verify` rejects gives 401 "Invalid token". */
  lemma RejectedTokenRejected(t: string, req: Request, env: Env, connect: Result<Db.Conn>, users: seq<User>, verify: Verifier)
    requires Admitted(req, env) && Header(req, "authorization") == Some(BearerPrefix + t)
    requires verify(t, env.jwtSecret.value).None?
    ensures var r := Handle(req, env, connect, users, verify);
      r.status == 401 && r.body == Message(InvalidToken)
  {
    BearerRoundTrip(t);
  }

  /** No 401 answer depends on the database: neither on the connection nor on the stored users. */
  lemma UnauthorizedTouchesNoDatabase(req: Request, env: Env, c1: Result<Db.Conn>, c2: Result<Db.Conn>,
                                      u1: seq<User>, u2: seq<User>, verify: Verifier)
    requires Handle(req, env, c1, u1, verify).status == 401
    ensures Handle(req, env, c2, u2, verify) == Handle(req, env, c1, u1, verify)
  {
  }

  /** Once the token decodes: a failed connect gives 500, a lookup miss 404, a hit 200 with the user minus password. */
  lemma LookupOutcome(t: string, claims: Claims, req: Request, env: Env, connect: Result<Db.Conn>,
                      users: seq<User>, verify: Verifier)
    requires Admitted(req, env) && Header(req, "authorization") == Some(BearerPrefix + t)
    requires verify(t, env.jwtSecret.value) == Some(claims)
    ensures var r := Handle(req, env, connect, users, verify);
      var found := FindById(users, claims.userId);
      && (connect.Err? ==> r.status == 500 && r.body == Failure(InternalError, connect.message))
      && (connect.Ok? && found.None? ==> r.status == 404 && r.body == Message(UserNotFound))
      && (connect.Ok? && found.Some? ==> r.status == 200 && r.body == UserRecord(PublicView(found.value)))
  {
    BearerRoundTrip(t);
  }

  /** A token naming a stored user's id, once connected, gives 200 with a user of that id. */
  lemma StoredIdAnswered(t: string, claims: Claims, req: Request, env: Env, conn: Db.Conn,
                         users: seq<User>, verify: Verifier, k: nat)
    requires Admitted(req, env) && Header(req, "authorization") == Some(BearerPrefix + t)
    requires verify(t, env.jwtSecret.value) == Some(claims)
    requires k < |users| && IdString(users[k].id) == Lower(claims.userId)
    ensures var r := Handle(req, env, Ok(conn), users, verify);
      r.status == 200 && r.body.UserRecord? && r.body.user.id == Lower(claims.userId)
  {
    LookupOutcome(t, claims, req, env, Ok(conn), users, verify);
  }

  /** The returned record is the stored one minus its password, found by the (lower-cased) string form of its id. */
  lemma FoundUserIsStoredUser(t: string, claims: Claims, req: Request, env: Env, conn: Db.Conn,
                              users: seq<User>, verify: Verifier)
    requires Admitted(req, env) && Header(req, "authorization") == Some(BearerPrefix + t)
    requires verify(t, env.jwtSecret.value) == Some(claims)
    requires Handle(req, env, Ok(conn), users, verify).status == 200
    ensures exists u :: (u in users && IdString(u.id) == Lower(claims.userId)
      && Handle(req, env, Ok(conn), users, verify).body == UserRecord(PublicUser(Lower(claims.userId), u.profile)))
  {
    BearerRoundTrip(t);
    var u := FindById(users, claims.userId).value;
    assert u in users && IdString(u.id) == Lower(claims.userId);
  }

  /** A token this system issued for a stored user's identifier is answered with that user. */
  lemma IssuedIdAnswered(t: string, claims: Claims, req: Request, env: Env, conn: Db.Conn,
                         users: seq<User>, verify: Verifier, k: nat)
    requires Admitted(req, env) && Header(req, "authorization") == Some(BearerPrefix + t)
    requires verify(t, env.jwtSecret.value) == Some(claims)
    requires k < |users| && claims.userId == IdString(users[k].id)
    ensures var r := Handle(req, env, Ok(conn), users, verify);
      r.status == 200 && r.body.UserRecord? && r.body.user.id == claims.userId
  {
    LowerHexUnchanged(claims.userId);
    StoredIdAnswered(t, claims, req, env, conn, users, verify, k);
  }

  /** `Access-Control-Allow-Origin` is the request's origin exactly when it is one of the three listed. */
  lemma OriginEchoedIffListed(req: Request, env: Env, connect: Result<Db.Conn>, users: seq<User>, verify: Verifier)
    ensures var h := Handle(req, env, connect, users, verify).headers;
      var origin := Header(req, "origin");
      && (AllowOrigin in h <==> origin.Some? && origin.value in AllowedOrigins)
      && (AllowOrigin in h ==> h[AllowOrigin] == origin.value)
  {
  }
}
