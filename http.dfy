/** Requests, responses and the CORS headers the serverless handlers share. */
module Http {
  import opened Common
  import opened Models

  /**
   * An incoming request: the method (`verb`), the headers (lower-case names) and the parsed
   * JSON body, `None` where the body is `null`. Body fields are modelled as strings.
   */
  datatype Request = Request(verb: string, headers: map<string, string>, body: Option<map<string, string>>)

  /** The configuration the handlers read from the process environment. */
  datatype Env = Env(mongoUri: Option<string>, jwtSecret: Option<string>)

  /** The JSON bodies the handlers send. */
  datatype Body =
    | NoBody                                        // `res.end()`
    | Message(message: string)                      // `{ message }`
    | Failure(message: string, error: string)       // `{ message, error }`
    | Session(user: PublicUser, token: string)      // `{ user, token }`
    | UserRecord(user: PublicUser)                   // the user document itself
    | VenueList(venues: seq<VenueView>)              // an array of venues

  datatype Response = Response(status: int, headers: map<string, string>, body: Body)

  function Header(req: Request, name: string): Option<string> {
    if name in req.headers then Some(req.headers[name]) else None
  }

  function Field(fields: map<string, string>, name: string): Option<string> {
    if name in fields then Some(fields[name]) else None
  }

  const AllowOrigin := "Access-Control-Allow-Origin"
  const AllowMethods := "Access-Control-Allow-Methods"
  const AllowHeaders := "Access-Control-Allow-Headers"
  const AllowCredentials := "Access-Control-Allow-Credentials"

  /** The Methods and Headers entries every handler sets. */
  const BaseCors: map<string, string> :=
    map[AllowMethods := "GET, POST, PUT, DELETE, OPTIONS",
        AllowHeaders := "Content-Type, Authorization"]

  /** Login and register: any origin, with credentials. */
  const OpenCors: map<string, string> := BaseCors[AllowOrigin := "*"][AllowCredentials := "true"]

  /** The venue listing: any origin, no credentials entry. */
  const VenueCors: map<string, string> := BaseCors[AllowOrigin := "*"]

  /** The current-user and logout handlers: the request's origin is echoed only when listed. */
  function ListedCors(origin: Option<string>, allowed: seq<string>): (h: map<string, string>)
    ensures AllowOrigin in h <==> origin.Some? && origin.value in allowed
    ensures AllowOrigin in h ==> h[AllowOrigin] == origin.value
    ensures h - {AllowOrigin} == BaseCors[AllowCredentials := "true"]
  {
    var h := BaseCors[AllowCredentials := "true"];
    if origin.Some? && origin.value in allowed then h[AllowOrigin := origin.value] else h
  }

  const InternalError := "Internal server error"
  const NotAllowed := "Method not allowed"

  /** What V8 throws when a handler destructures a `null` body (`const { username, ... } = req.body`). */
  const NullBodyMessage := "Cannot destructure property 'username' of 'req.body' as it is null."

  /** An answer of the login and register handlers, which always carry the open CORS headers. */
  function OpenReply(status: int, body: Body): Response {
    Response(status, OpenCors, body)
  }
}
