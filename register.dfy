/**
 * The registration endpoint: the stored-password encoding `hashPassword`, and the
 * handler that validates the body, rejects a taken username, inserts the new user
 * and answers with the user (without its password) and a signed token.
 */
module Register {
  import opened Common
  import Hex
  import opened Crypto
  import opened Models
  import opened Http
  import Db

  /**
   * `hashPassword`: `hex(scrypt(password, saltHex, 64)) + "." + saltHex`, where `saltHex`
   * is the hex text of the 16 random salt bytes and is itself what the KDF is salted with.
   */
  function HashPassword(password: string, salt: seq<Hex.byte>, kdf: Kdf): (stored: string)
    requires |salt| == SaltLength
    ensures |stored| == 161
    ensures stored[128] == '.'
    ensures forall i :: 0 <= i < |stored| && i != 128 ==> stored[i] != '.'
    ensures stored[..128] == Hex.Encode(kdf(password, Hex.Encode(salt)))
    ensures stored[129..] == Hex.Encode(salt) && Hex.IsLowerHex(stored[129..])
  {
    var saltHex := Hex.Encode(salt);
    var hashHex := Hex.Encode(kdf(password, saltHex));
    Hex.DotNotInEncode(salt);
    Hex.DotNotInEncode(kdf(password, saltHex));
    assert forall i :: 0 <= i < 128 ==> (hashHex + "." + saltHex)[i] == hashHex[i];
    assert forall i :: 129 <= i < 161 ==> (hashHex + "." + saltHex)[i] == saltHex[i - 129];
    hashHex + "." + saltHex
  }

  const FieldsRequired := "All fields are required"
  const UsernameTaken := "Username already exists"


  /** The response and the user document the handler saved, if any. */
  datatype Registration = Registration(response: Response, inserted: Option<User>)

  /**
   * The registration handler. `connect` is what awaiting `connectToDatabase()` gave;
   * `salt`, `newId` and `now` are the random bytes, the identifier the new document gets
   * and its creation time. The result inserts a user exactly when it answers 201.
   */
  function Register(req: Request, env: Env, connect: Result<Db.Conn>, users: seq<User>,
                    salt: seq<Hex.byte>, kdf: Kdf, sign: Signer, newId: ObjectId, now: int): (r: Registration)
    requires |salt| == SaltLength
    ensures r.inserted.Some? <==> r.response.status == 201
    ensures r.inserted.Some? ==> FindByUsername(users, r.inserted.value.profile.username).None?
  {
    if req.verb == "OPTIONS" then Registration(OpenReply(200, NoBody), None)
    else if req.verb != "POST" then Registration(OpenReply(405, Message(NotAllowed)), None)
    else if connect.Err? then Registration(OpenReply(500, Failure(InternalError, connect.message)), None)
    else if req.body.None? then Registration(OpenReply(500, Failure(InternalError, NullBodyMessage)), None)
    else
      var username := Field(req.body.value, "username");
      var password := Field(req.body.value, "password");
      var name := Field(req.body.value, "name");
      var email := Field(req.body.value, "email");
      if !Truthy(username) || !Truthy(password) || !Truthy(name) || !Truthy(email) then
        Registration(OpenReply(400, Message(FieldsRequired)), None)
      else if FindByUsername(users, username.value).Some? then
        Registration(OpenReply(400, Message(UsernameTaken)), None)
      else
        var user := User(newId, HashPassword(password.value, salt, kdf),
                         Profile(username.value, name.value, email.value, now));
        var token := IssueToken(sign, Claims(IdString(newId), username.value), env.jwtSecret);
        Registration(OpenReply(201, Session(PublicView(user), token)), Some(user))
  }

  /** The users collection, which the registration handler adds to. */
  class UserCollection {
    var users: seq<User>

    constructor (initial: seq<User>)
      ensures users == initial
    {
      users := initial;
    }

    /** One registration request against the collection: `user.save()` is the only change. */
    method HandleRegister(req: Request, env: Env, connect: Result<Db.Conn>, salt: seq<Hex.byte>,
                          kdf: Kdf, sign: Signer, newId: ObjectId, now: int) returns (resp: Response)
      requires |salt| == SaltLength
      modifies this
      ensures var reg := Register(req, env, connect, old(users), salt, kdf, sign, newId, now);
        && resp == reg.response
        && users == old(users) + (if reg.inserted.Some? then [reg.inserted.value] else [])
    {
      if req.verb == "OPTIONS" {
        return OpenReply(200, NoBody);
      }
      if req.verb != "POST" {
        return OpenReply(405, Message(NotAllowed));
      }
      if connect.Err? {
        return OpenReply(500, Failure(InternalError, connect.message));
      }
      if req.body.None? {
        return OpenReply(500, Failure(InternalError, NullBodyMessage));
      }
      var username := Field(req.body.value, "username");
      var password := Field(req.body.value, "password");
      var name := Field(req.body.value, "name");
      var email := Field(req.body.value, "email");
      if !Truthy(username) || !Truthy(password) || !Truthy(name) || !Truthy(email) {
        return OpenReply(400, Message(FieldsRequired));
      }
      var existing := FindByUsername(users, username.value);
      if existing.Some? {
        return OpenReply(400, Message(UsernameTaken));
      }
      var hashed := HashPassword(password.value, salt, kdf);
      var user := User(newId, hashed, Profile(username.value, name.value, email.value, now));
      users := users + [user];
      var token := IssueToken(sign, Claims(IdString(newId), username.value), env.jwtSecret);
      resp := OpenReply(201, Session(PublicView(user), token));
    }
  }

  // ---- Properties of the handler ----

  /** All four body fields are present and non-empty. */
  predicate AllFields(fields: map<string, string>) {
    && Truthy(Field(fields, "username")) && Truthy(Field(fields, "password"))
    && Truthy(Field(fields, "name")) && Truthy(Field(fields, "email"))
  }

  /** OPTIONS and other non-POST methods are answered before any database work: the result ignores the connection and the store. */
  lemma MethodGuardsFirst(req: Request, env: Env, c1: Result<Db.Conn>, c2: Result<Db.Conn>,
                          u1: seq<User>, u2: seq<User>, salt: seq<Hex.byte>, kdf: Kdf, sign: Signer,
                          newId: ObjectId, now: int)
    requires |salt| == SaltLength && req.verb != "POST"
    ensures var r := Register(req, env, c1, u1, salt, kdf, sign, newId, now);
      && r == Register(req, env, c2, u2, salt, kdf, sign, newId, now)
      && r.inserted.None?
      && r.response == (if req.verb == "OPTIONS" then OpenReply(200, NoBody) else OpenReply(405, Message(NotAllowed)))
  {
  }

  /** The connection comes before validation: a failed connect answers 500 even when fields are missing. */
  lemma ConnectFailureFirst(req: Request, env: Env, m: string, users: seq<User>, salt: seq<Hex.byte>,
                            kdf: Kdf, sign: Signer, newId: ObjectId, now: int)
    requires |salt| == SaltLength && req.verb == "POST"
    ensures Register(req, env, Err(m), users, salt, kdf, sign, newId, now)
      == Registration(OpenReply(500, Failure(InternalError, m)), None)
  {
  }

  /** A POST without a parsed body throws on destructuring, once connected: 500 with V8's message, nothing inserted. */
  lemma NullBodyIsServerError(req: Request, env: Env, conn: Db.Conn, users: seq<User>, salt: seq<Hex.byte>,
                              kdf: Kdf, sign: Signer, newId: ObjectId, now: int)
    requires |salt| == SaltLength && req.verb == "POST" && req.body.None?
    ensures Register(req, env, Ok(conn), users, salt, kdf, sign, newId, now)
      == Registration(OpenReply(500, Failure(InternalError, NullBodyMessage)), None)
  {
  }

  /** A missing or empty field gives 400 "All fields are required" and inserts nothing. */
  lemma MissingFieldRejected(req: Request, env: Env, conn: Db.Conn, users: seq<User>, salt: seq<Hex.byte>,
                             kdf: Kdf, sign: Signer, newId: ObjectId, now: int)
    requires |salt| == SaltLength && req.verb == "POST" && req.body.Some? && !AllFields(req.body.value)
    ensures Register(req, env, Ok(conn), users, salt, kdf, sign, newId, now)
      == Registration(OpenReply(400, Message(FieldsRequired)), None)
  {
  }

  /** A username already stored gives 400 "Username already exists" and inserts nothing. */
  lemma DuplicateRejected(req: Request, env: Env, conn: Db.Conn, users: seq<User>, salt: seq<Hex.byte>,
                          kdf: Kdf, sign: Signer, newId: ObjectId, now: int, k: nat)
    requires |salt| == SaltLength && req.verb == "POST" && req.body.Some? && AllFields(req.body.value)
    requires k < |users| && users[k].profile.username == req.body.value["username"]
    ensures Register(req, env, Ok(conn), users, salt, kdf, sign, newId, now)
      == Registration(OpenReply(400, Message(UsernameTaken)), None)
  {
  }

  /**
   * A valid body with a fresh username inserts exactly one user, whose password is the
   * `hashPassword` encoding, and answers 201 with the user minus its password and a token
   * for `{ userId, username }`, signed with `JWT_SECRET` or the fallback, for seven days.
   */
  lemma RegisterSucceeds(req: Request, env: Env, conn: Db.Conn, users: seq<User>, salt: seq<Hex.byte>,
                         kdf: Kdf, sign: Signer, newId: ObjectId, now: int)
    requires |salt| == SaltLength && req.verb == "POST" && req.body.Some? && AllFields(req.body.value)
    requires forall k :: 0 <= k < |users| ==> users[k].profile.username != req.body.value["username"]
    ensures var f := req.body.value;
      var user := User(newId, HashPassword(f["password"], salt, kdf), Profile(f["username"], f["name"], f["email"], now));
      var r := Register(req, env, Ok(conn), users, salt, kdf, sign, newId, now);
      && r.inserted == Some(user)
      && r.response == OpenReply(201, Session(PublicUser(IdString(newId), user.profile),
                                              sign(Claims(IdString(newId), f["username"]), SigningSecret(env.jwtSecret), "7d")))
  {
  }
}
