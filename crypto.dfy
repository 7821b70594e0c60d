/**
 * The cryptographic collaborators of the handlers, taken as uninterpreted functions:
 * the scrypt key derivation, `timingSafeEqual`, and JSON Web Token signing and checking.
 */
module Crypto {
  import opened Common
  import opened Hex

  /** `scrypt(password, salt, 64)` derives 64 bytes. */
  const KeyLength := 64

  /** `randomBytes(16)` gives the salt. */
  const SaltLength := 16

  type DerivedKey = k: seq<byte> | |k| == KeyLength witness seq(KeyLength, _ => 0 as byte)

  /** The key derivation: deterministic in the password and the (hex text) salt. */
  type Kdf = (string, string) -> DerivedKey

  const LengthMismatchMessage := "Input buffers must have the same byte length"

  /** `timingSafeEqual(a, b)`: throws when the lengths differ, else compares the bytes. */
  function TimingSafeEqual(a: seq<byte>, b: seq<byte>): (r: Result<bool>)
    ensures r.Ok? <==> |a| == |b|
    ensures r.Ok? ==> (r.value <==> a == b)
    ensures r.Err? ==> r.message == LengthMismatchMessage
  {
    if |a| != |b| then Err(LengthMismatchMessage) else Ok(a == b)
  }

  /** The payload both login and register sign. */
  datatype Claims = Claims(userId: string, username: string)

  /** `jwt.sign(payload, secret, { expiresIn })`. */
  type Signer = (Claims, string, string) -> string

  /** `jwt.verify(token, secret)`: the decoded payload, or `None` where it throws. */
  type Verifier = (string, string) -> Option<Claims>

  /** The lifetime both handlers request. */
  const ExpiresIn := "7d"

  /** The literal used when `JWT_SECRET` is unset or empty. */
  const FallbackSecret := "your-secret-key"

  /** `process.env.JWT_SECRET || 'your-secret-key'`. */
  function SigningSecret(jwtSecret: Option<string>): (secret: string)
    ensures secret != ""
    ensures Truthy(jwtSecret) ==> secret == jwtSecret.value
    ensures !Truthy(jwtSecret) ==> secret == FallbackSecret
  {
    if Truthy(jwtSecret) then jwtSecret.value else FallbackSecret
  }

  /** The token login and register hand out: the claims, signed for seven days. */
  function IssueToken(sign: Signer, claims: Claims, jwtSecret: Option<string>): (token: string)
    ensures Truthy(jwtSecret) ==> token == sign(claims, jwtSecret.value, "7d")
    ensures !Truthy(jwtSecret) ==> token == sign(claims, "your-secret-key", "7d")
  {
    sign(claims, SigningSecret(jwtSecret), ExpiresIn)
  }
}
