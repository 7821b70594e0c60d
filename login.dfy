/**
 * The login endpoint: `comparePasswords`, which parses a stored `hash.salt` string and
 * checks a supplied password against it, and the handler's 400 / 401 / 200 / 500 chain.
 */
module Login {
  import opened Common
  import opened Strings
  import Hex
  import opened Crypto
  import opened Models
  import opened Http
  import Db
  import Register

  /** What scrypt throws when the stored string has no `.` and the salt is `undefined`. */
  const SaltMissingMessage :=
    "The \"salt\" argument must be of type string or an instance of ArrayBuffer, Buffer, TypedArray, or DataView. Received undefined"

  /**
   * `comparePasswords(supplied, stored)`: piece 0 of `stored.split('.')` is the hash in hex,
   * piece 1 the salt; the hash is decoded, the supplied password derived with that salt,
   * and the two compared with `timingSafeEqual`, which throws unless both have 64 bytes.
   */
  function ComparePasswords(supplied: string, stored: string, kdf: Kdf): (r: Result<bool>)
    ensures var pieces := Split(stored, '.');
      && (r.Ok? <==> |pieces| >= 2 && |Hex.Decode(pieces[0])| == KeyLength)
      && (r.Ok? ==> (r.value <==> Hex.Decode(pieces[0]) == kdf(supplied, pieces[1])))
  {
    var pieces := Split(stored, '.');
    if |pieces| < 2 then Err(SaltMissingMessage)
    else TimingSafeEqual(Hex.Decode(pieces[0]), kdf(supplied, pieces[1]))
  }

  /** A stored string parses into its `hash` and `salt` halves. */
  lemma {:induction false} ParseStored(hash: string, salt: string)
    requires '.' !in hash && '.' !in salt
    ensures Split(hash + "." + salt, '.') == [hash, salt]
  {
    SplitHead(hash, '.', salt);
    SplitFree(salt, '.');
  }

  /** Pieces after the second are ignored. */
  lemma {:induction false} ExtraPiecesIgnored(supplied: string, hash: string, salt: string, rest: string, kdf: Kdf)
    requires '.' !in hash && '.' !in salt
    ensures ComparePasswords(supplied, hash + "." + salt + "." + rest, kdf)
         == ComparePasswords(supplied, hash + "." + salt, kdf)
  {
    assert hash + "." + salt + "." + rest == hash + ['.'] + (salt + ['.'] + rest);
    SplitHead(hash, '.', salt + ['.'] + rest);
    SplitHead(salt, '.', rest);
    ParseStored(hash, salt);
  }

  /**
   * Against a stored `hashPassword` encoding, a supplied password matches exactly when it
   * derives the same key with that salt; in particular the password itself always matches.
   */
  lemma {:induction false} CompareAgainstHash(supplied: string, password: string, salt: seq<Hex.byte>, kdf: Kdf)
    requires |salt| == SaltLength
    ensures ComparePasswords(supplied, Register.HashPassword(password, salt, kdf), kdf)
         == Ok(kdf(supplied, Hex.Encode(salt)) == kdf(password, Hex.Encode(salt)))
  {
    var saltHex := Hex.Encode(salt);
    var key := kdf(password, saltHex);
    Hex.DotNotInEncode(salt);
    Hex.DotNotInEncode(key);
    ParseStored(Hex.Encode(key), saltHex);
    Hex.DecodeEncode(key);
  }

  /** Round trip: a password always matches its own encoding. */
  lemma PasswordRoundTrip(password: string, salt: seq<Hex.byte>, kdf: Kdf)
    requires |salt| == SaltLength
    ensures ComparePasswords(password, Register.HashPassword(password, salt, kdf), kdf) == Ok(true)
  {
    CompareAgainstHash(password, password, salt, kdf);
  }

  /** A stored hash half that does not decode to 64 bytes makes the comparison throw. */
  lemma MalformedHashThrows(supplied: string, hash: string, salt: string, kdf: Kdf)
    requires '.' !in hash && '.' !in salt && |Hex.Decode(hash)| != KeyLength
    ensures ComparePasswords(supplied, hash + "." + salt, kdf) == Err(LengthMismatchMessage)
  {
    ParseStored(hash, salt);
  }

  const FieldsRequired := "Username and password are required"
  const InvalidCredentials := "Invalid credentials"


  /** The login handler; `connect` is what awaiting `connectToDatabase()` gave. */
  function Login(req: Request, env: Env, connect: Result<Db.Conn>, users: seq<User>, kdf: Kdf, sign: Signer): (resp: Response)
    ensures resp.headers == OpenCors
    ensures resp.status in {200, 400, 401, 405, 500}
  {
    if req.verb == "OPTIONS" then OpenReply(200, NoBody)
    else if req.verb != "POST" then OpenReply(405, Message(NotAllowed))
    else if connect.Err? then OpenReply(500, Failure(InternalError, connect.message))
    else if req.body.None? then OpenReply(500, Failure(InternalError, NullBodyMessage))
    else
      var username := Field(req.body.value, "username");
      var password := Field(req.body.value, "password");
      if !Truthy(username) || !Truthy(password) then OpenReply(400, Message(FieldsRequired))
      else
        match FindByUsername(users, username.value)
        case None => OpenReply(401, Message(InvalidCredentials))
        case Some(user) =>
          match ComparePasswords(password.value, user.password, kdf)
          case Err(m) => OpenReply(500, Failure(InternalError, m))
          case Ok(false) => OpenReply(401, Message(InvalidCredentials))
          case Ok(true) =>
            var token := IssueToken(sign, Claims(IdString(user.id), user.profile.username), env.jwtSecret);
            OpenReply(200, Session(PublicView(user), token))
  }

  // ---- Properties of the handler ----

  /** OPTIONS and other non-POST methods are answered before any database work. */
  lemma MethodGuardsFirst(req: Request, env: Env, c1: Result<Db.Conn>, c2: Result<Db.Conn>,
                          u1: seq<User>, u2: seq<User>, kdf: Kdf, sign: Signer)
    requires req.verb != "POST"
    ensures Login(req, env, c1, u1, kdf, sign) == Login(req, env, c2, u2, kdf, sign)
    ensures Login(req, env, c1, u1, kdf, sign)
         == if req.verb == "OPTIONS" then OpenReply(200, NoBody) else OpenReply(405, Message(NotAllowed))
  {
  }

  /** A missing or empty username or password gives 400, once connected. */
  lemma MissingFieldRejected(req: Request, env: Env, conn: Db.Conn, users: seq<User>, kdf: Kdf, sign: Signer)
    requires req.verb == "POST" && req.body.Some?
    requires !Truthy(Field(req.body.value, "username")) || !Truthy(Field(req.body.value, "password"))
    ensures Login(req, env, Ok(conn), users, kdf, sign) == OpenReply(400, Message(FieldsRequired))
  {
  }

  /** A failed connect answers 500 before the body is read, even when fields are missing. */
  lemma ConnectFailureFirst(req: Request, env: Env, m: string, users: seq<User>, kdf: Kdf, sign: Signer)
    requires req.verb == "POST"
    ensures Login(req, env, Err(m), users, kdf, sign) == OpenReply(500, Failure(InternalError, m))
  {
  }

  /** A POST without a parsed body throws on destructuring, once connected: 500 with V8's message. */
  lemma NullBodyIsServerError(req: Request, env: Env, conn: Db.Conn, users: seq<User>, kdf: Kdf, sign: Signer)
    requires req.verb == "POST" && req.body.None?
    ensures Login(req, env, Ok(conn), users, kdf, sign) == OpenReply(500, Failure(InternalError, NullBodyMessage))
  {
  }

  /** A POST whose body carries these credentials, whatever else it holds. */
  predicate Carries(req: Request, username: string, password: string) {
    && req.verb == "POST" && req.body.Some?
    && Field(req.body.value, "username") == Some(username)
    && Field(req.body.value, "password") == Some(password)
  }

  /** An unknown username gives 401 "Invalid credentials" without deriving any key. */
  lemma UnknownUserRejected(req: Request, username: string, password: string, env: Env, conn: Db.Conn,
                            users: seq<User>, kdf1: Kdf, kdf2: Kdf, sign: Signer)
    requires Carries(req, username, password) && username != "" && password != ""
    requires forall k :: 0 <= k < |users| ==> users[k].profile.username != username
    ensures Login(req, env, Ok(conn), users, kdf1, sign)
         == OpenReply(401, Message(InvalidCredentials))
         == Login(req, env, Ok(conn), users, kdf2, sign)
  {
  }

  /** A known user whose stored string does not match gives the very same 401. */
  lemma WrongPasswordRejected(req: Request, username: string, password: string, env: Env, conn: Db.Conn,
                              users: seq<User>, kdf: Kdf, sign: Signer)
    requires Carries(req, username, password) && username != "" && password != ""
    requires var u := FindByUsername(users, username);
      u.Some? && ComparePasswords(password, u.value.password, kdf) == Ok(false)
    ensures Login(req, env, Ok(conn), users, kdf, sign) == OpenReply(401, Message(InvalidCredentials))
  {
  }

  /**
   * A known user whose password matches gets 200 with the stored record minus its password,
   * `_id` as a string, and a seven-day token for `{ userId, username }` signed with
   * `JWT_SECRET` or the fallback.
   */
  lemma LoginSucceeds(req: Request, username: string, password: string, env: Env, conn: Db.Conn,
                      users: seq<User>, kdf: Kdf, sign: Signer)
    requires Carries(req, username, password) && username != "" && password != ""
    requires var u := FindByUsername(users, username);
      u.Some? && ComparePasswords(password, u.value.password, kdf) == Ok(true)
    ensures var u := FindByUsername(users, username).value;
      Login(req, env, Ok(conn), users, kdf, sign)
      == OpenReply(200, Session(PublicUser(IdString(u.id), u.profile),
                                sign(Claims(IdString(u.id), username), SigningSecret(env.jwtSecret), "7d")))
  {
  }

  /** A stored string the comparison cannot use gives 500 with the thrown message, not 401. */
  lemma MalformedHashIsServerError(req: Request, username: string, password: string, env: Env, conn: Db.Conn,
                                   users: seq<User>, kdf: Kdf, sign: Signer)
    requires Carries(req, username, password) && username != "" && password != ""
    requires var u := FindByUsername(users, username);
      u.Some? && ComparePasswords(password, u.value.password, kdf).Err?
    ensures var u := FindByUsername(users, username).value;
      Login(req, env, Ok(conn), users, kdf, sign)
      == OpenReply(500, Failure(InternalError, ComparePasswords(password, u.password, kdf).message))
  {
  }

  /**
   * Logging in with the password a user registered with answers 200 with that user minus
   * its password and a seven-day token for `{ userId, username }`; any other password is
   * accepted exactly when it derives the same key.
   */
  lemma {:induction false} LoginAfterRegister(regReq: Request, loginReq: Request, otherReq: Request,
                                              username: string, password: string, supplied: string,
                                              env: Env, conn: Db.Conn, users: seq<User>,
                                              salt: seq<Hex.byte>, kdf: Kdf, sign: Signer, newId: Models.ObjectId, now: int)
    requires |salt| == SaltLength && supplied != ""
    requires Carries(regReq, username, password) && Register.AllFields(regReq.body.value)
    requires Carries(loginReq, username, password) && Carries(otherReq, username, supplied)
    requires forall k :: 0 <= k < |users| ==> users[k].profile.username != username
    ensures var reg := Register.Register(regReq, env, Ok(conn), users, salt, kdf, sign, newId, now);
      && reg.inserted.Some?
      && var stored := users + [reg.inserted.value];
      && Login(loginReq, env, Ok(conn), stored, kdf, sign)
         == OpenReply(200, Session(reg.response.body.user, sign(Claims(IdString(newId), username), SigningSecret(env.jwtSecret), "7d")))
      && (Login(otherReq, env, Ok(conn), stored, kdf, sign).status == 200
          <==> kdf(supplied, Hex.Encode(salt)) == kdf(password, Hex.Encode(salt)))
  {
    var reg := Register.Register(regReq, env, Ok(conn), users, salt, kdf, sign, newId, now);
    Register.RegisterSucceeds(regReq, env, conn, users, salt, kdf, sign, newId, now);
    var u := reg.inserted.value;
    FindAppended(users, u);
    PasswordRoundTrip(password, salt, kdf);
    CompareAgainstHash(supplied, password, salt, kdf);
  }
}
