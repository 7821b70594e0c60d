/**
 * The logout endpoint: tokens are discarded by the client, so the handler only sets
 * its CORS headers and answers by method.
 */
module Logout {
  import opened Common
  import opened Http

  /** The origins this handler echoes back; one more than the current-user handler lists. */
  const AllowedOrigins := [
    "https://beta-vowveneus-v1.vercel.app",
    "https://beta-vowveneus.vercel.app",
    "http://localhost:5173",
    "http://localhost:3000"]

  const LoggedOut := "Logged out successfully"

  function Handle(req: Request): (resp: Response)
    ensures resp.headers == ListedCors(Header(req, "origin"), AllowedOrigins)
    ensures resp.status == 200 <==> req.verb == "OPTIONS" || req.verb == "POST"
  {
    var headers := ListedCors(Header(req, "origin"), AllowedOrigins);
    if req.verb == "OPTIONS" then Response(200, headers, NoBody)
    else if req.verb != "POST" then Response(405, headers, Message(NotAllowed))
    else Response(200, headers, Message(LoggedOut))
  }

  /**
   * `Access-Control-Allow-Origin` is the request's origin exactly when it is one of the
   * four listed, and absent otherwise; Methods, Headers and Credentials are always set.
   */
  lemma CorsHeaders(req: Request)
    ensures var h := Handle(req).headers;
      var origin := Header(req, "origin");
      && (AllowOrigin in h <==> origin.Some? && origin.value in AllowedOrigins)
      && (AllowOrigin in h ==> h[AllowOrigin] == origin.value)
      && h[AllowMethods] == "GET, POST, PUT, DELETE, OPTIONS"
      && h[AllowHeaders] == "Content-Type, Authorization"
      && h[AllowCredentials] == "true"
  {
    var h := Handle(req).headers;
    assert h - {AllowOrigin} == BaseCors[AllowCredentials := "true"];
    assert AllowMethods in h - {AllowOrigin} && AllowHeaders in h - {AllowOrigin} && AllowCredentials in h - {AllowOrigin};
  }

  /** OPTIONS: 200, empty body. Other methods but POST: 405. POST: 200, whatever the headers or body. */
  lemma Dispatch(req: Request, headers: map<string, string>, body: Option<map<string, string>>)
    ensures req.verb == "OPTIONS" ==> Handle(req).status == 200 && Handle(req).body == NoBody
    ensures req.verb != "OPTIONS" && req.verb != "POST" ==>
      Handle(req).status == 405 && Handle(req).body == Message(NotAllowed)
    ensures req.verb == "POST" ==>
      Handle(req).body == Handle(Request("POST", headers, body)).body == Message(LoggedOut)
  {
  }
}
