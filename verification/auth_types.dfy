/** The shapes shared by the authentication module: the user as handed to
    clients (`AuthUser`) and the claims inside a JWT (`JwtPayload`). */
module AuthTypes {
  import opened Wrappers

  /** Database ids are opaque strings in the server; here they are numbers
      handed out by the store. */
  type UserId = nat

  datatype AvatarSource = Upload | S3 | Social

  /** JavaScript truthiness of a `string | null | undefined`: absent and the
      empty string are both falsy. */
  predicate Truthy(s: Option<string>) {
    s.Some? && s.value != ""
  }

  /** `AuthUser`. Optional and nullable fields are both `None` when unset. */
  datatype AuthUser = AuthUser(
    id: UserId,
    email: Option<string>,
    name: Option<string>,
    avatarUrl: Option<string>,
    avatarSource: Option<AvatarSource>,
    roles: Option<seq<string>>)

  /** `JwtPayload`: the claims signed into a token. */
  datatype JwtPayload = JwtPayload(
    sub: UserId,
    email: Option<string>,
    name: Option<string>,
    avatarUrl: Option<string>,
    avatarSource: Option<AvatarSource>,
    roles: Option<seq<string>>)
}

/** `bcryptjs` `hash` and `compare`, kept symbolic: a hash records the cost
    and the bytes bcrypt actually keys on, the first 72 bytes of the
    password's UTF-8 encoding. The salt is not modelled. */
module Bcrypt {
  import opened NodeBuffer

  const MaxKeyBytes: nat := 72

  datatype PasswordHash = BcryptHash(rounds: nat, key: seq<byte>)

  function KeyBytes(password: string): (k: seq<byte>)
    ensures |k| <= MaxKeyBytes
    ensures |Utf8Encode(password)| <= MaxKeyBytes ==> k == Utf8Encode(password)
  {
    var bs := Utf8Encode(password);
    if |bs| <= MaxKeyBytes then bs else bs[..MaxKeyBytes]
  }

  function Hash(password: string, rounds: nat): (h: PasswordHash)
    ensures Compare(password, h) && h.rounds == rounds
  {
    BcryptHash(rounds, KeyBytes(password))
  }

  predicate Compare(password: string, h: PasswordHash) {
    KeyBytes(password) == h.key
  }

  /** Within 72 bytes, a hash matches exactly the password it was made from. */
  lemma CompareExact(p: string, q: string, rounds: nat)
    requires |Utf8Encode(p)| <= MaxKeyBytes && |Utf8Encode(q)| <= MaxKeyBytes
    ensures Compare(q, Hash(p, rounds)) <==> p == q
  {
    if Compare(q, Hash(p, rounds)) {
      Utf8Injective(p, q);
    }
  }

  /** Beyond 72 bytes only the prefix is compared: two passwords that share
      their first 72 UTF-8 bytes match each other's hash. */
  lemma LongPasswordsShareHash(p: string, q: string, rounds: nat)
    requires |Utf8Encode(p)| > MaxKeyBytes && |Utf8Encode(q)| > MaxKeyBytes
    requires Utf8Encode(p)[..MaxKeyBytes] == Utf8Encode(q)[..MaxKeyBytes]
    ensures Compare(q, Hash(p, rounds))
  {
  }
}

/** JWT signing and verification with one shared secret, kept symbolic: a
    token carries its claims, the secret it was signed with and its expiry
    text. Expiry itself is not checked here. */
module Jwt {
  import opened Wrappers
  import opened AuthTypes

  /** A token as a client presents it: one this server signed, or any other
      text. */
  datatype Token = Signed(payload: JwtPayload, secret: string, expiresIn: string) | Foreign(text: string)

  function Sign(payload: JwtPayload, secret: string, expiresIn: string): (t: Token)
    ensures Verify(t, secret) == Some(payload)
  {
    Signed(payload, secret, expiresIn)
  }

  function Verify(t: Token, secret: string): (r: Option<JwtPayload>)
    ensures r.Some? <==> t.Signed? && t.secret == secret
  {
    if t.Signed? && t.secret == secret then Some(t.payload) else None
  }

  /** A token verifies only under the secret that signed it. */
  lemma VerifyNeedsSigningSecret(p: JwtPayload, secret: string, expiresIn: string, other: string)
    ensures Verify(Sign(p, secret, expiresIn), other).Some? <==> other == secret
  {
  }
}

/** The parts of `otplib`'s authenticator the server uses. */
module Totp {
  /** `authenticator.check(code, secret)` under the options `step` and
      `digits` set just before; the TOTP algorithm itself is a parameter. */
  type Check = (string, string, nat, nat) -> bool

  /** The account name of a provisioning URI: the email, or the user id when
      the user has no email. */
  datatype Label = EmailLabel(email: string) | IdLabel(id: nat)

  /** `authenticator.keyuri(label, issuer, secret)` with the options in force. */
  datatype KeyUri = KeyUri(account: Label, issuer: string, secret: string, period: nat, digits: nat)
}
