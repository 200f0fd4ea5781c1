/** `AuthService`: registration, login, token refresh, password reset, email
    verification, two-factor setup and OAuth login, over the credential
    store. Random draws (token bytes, OTP digits, TOTP secrets, nonces) and
    the current time are parameters of the methods that use them; the
    authenticated cipher and the TOTP check are fixed when the service is
    built. */
module Auth {
  import opened Wrappers
  import opened Text
  import opened NodeBuffer
  import opened AuthTypes
  import opened AuthCrypto
  import opened Bcrypt
  import opened Jwt
  import opened Totp
  import opened Exceptions
  import opened UserStore

  /** The configuration keys the service reads; `None` where a key is unset. */
  datatype AuthConfig = AuthConfig(
    bcryptRounds: Option<nat>,
    passwordResetTtlMin: Option<nat>,
    emailVerifyTtlMin: Option<nat>,
    appEnv: Option<string>,
    accessSecret: Option<string>,
    accessExpiresIn: Option<string>,
    refreshSecret: Option<string>,
    refreshExpiresIn: Option<string>,
    issuer: Option<string>,
    period: Option<nat>,
    digits: Option<nat>,
    encryptionKey: Option<string>)
  {
    function Rounds(): nat { bcryptRounds.GetOr(12) }
    function ResetTtl(): nat { passwordResetTtlMin.GetOr(15) }
    function EmailTtl(): nat { emailVerifyTtlMin.GetOr(30) }
    function AccessSecret(): string { accessSecret.GetOr("") }
    function AccessExpiresIn(): string { accessExpiresIn.GetOr("15m") }
    function RefreshSecret(): string { refreshSecret.GetOr("") }
    function RefreshExpiresIn(): string { refreshExpiresIn.GetOr("30d") }
    function Issuer(): string { issuer.GetOr("Vincenza") }
    function Period(): nat { period.GetOr(30) }
    function Digits(): nat { digits.GetOr(6) }
    function EncryptionKey(): string { encryptionKey.GetOr("") }
  }

  const GenericResetMessage := "If the account exists, a reset token has been created."
  const GenericOtpMessage := "If the account exists, an OTP has been created."
  const ResetTokenCreatedMessage := "Password reset token created."
  const OtpCreatedMessage := "OTP created."
  const EmailTakenMessage := "Email already registered"
  const InvalidRefreshMessage := "Invalid refresh token"
  const InvalidResetTokenMessage := "Invalid or expired token"
  const InvalidEmailOtpMessage := "Invalid or expired OTP"
  const UserNotFoundMessage := "User not found"
  const TwoFactorMissingMessage := "Two-factor not configured"
  const InvalidTotpMessage := "Invalid OTP"
  const PasswordUpdatedMessage := "Password updated"
  const EmailVerifiedMessage := "Email verified"
  const TwoFactorEnabledMessage := "Two-factor enabled"
  const TwoFactorDisabledMessage := "Two-factor disabled"
  const BearerTokenType := "Bearer"

  /** Random bytes behind a password-reset token, and digits of an email OTP. */
  const ResetTokenBytes: nat := 32
  const EmailOtpLength: nat := 6
  const MillisPerMinute: nat := 60000  // 60 * 1000

  /** A `{ message }` reply, with the raw token or OTP when one is disclosed. */
  datatype Ack = Ack(message: string, token: Option<string>, otp: Option<string>)

  datatype TokenPair = TokenPair(user: AuthUser, accessToken: Token, refreshToken: Token, tokenType: string, expiresIn: string)

  datatype TwoFactorSetup = TwoFactorSetup(otpauthUrl: KeyUri, secret: string)

  datatype OAuthProvider = Google | Facebook {
    function Name(): string { match this case Google => "google" case Facebook => "facebook" }
  }

  /** The parts of a passport profile the service reads. */
  datatype Profile = Profile(id: string, emails: Option<seq<string>>, displayName: Option<string>)

  /** A database error surfaces as a non-HTTP exception. */
  function StoreFailure(e: StoreError): (x: Exception)
    ensures x.PlainError?
  {
    PlainError(match e
               case RecordNotFound => "Record not found"
               case UniqueViolation => "Unique constraint failed"
               case ForeignKeyViolation => "Foreign key constraint failed")
  }

  /** `sanitizeUser`: only id, email, name and roles leave the service. */
  function SanitizeUser(u: User): (a: AuthUser)
    ensures a.id == u.id && a.email == u.email && a.name == u.name && a.roles == Some(u.roles)
    ensures a.avatarUrl.None? && a.avatarSource.None?
  {
    AuthUser(u.id, u.email, u.name, None, None, Some(u.roles))
  }

  /** `isProduction`: an unset environment counts as 'development'. */
  function IsProduction(c: AuthConfig): (b: bool)
    ensures b <==> c.appEnv == Some("production")
  {
    c.appEnv.GetOr("development") == "production"
  }

  /** `verifyPassword`: an empty password never matches. */
  function VerifyPassword(password: string, passwordHash: PasswordHash): (ok: bool)
    ensures ok <==> password != "" && KeyBytes(password) == passwordHash.key
  {
    if password == "" then false else Compare(password, passwordHash)
  }

  /** `issueTokens`: an access token carrying the profile claims and a
      refresh token carrying only the subject. */
  function IssueTokens(u: AuthUser, c: AuthConfig): (r: TokenPair)
    ensures Verify(r.accessToken, c.AccessSecret())
            == Some(JwtPayload(u.id, u.email, u.name, None, None, Some(u.roles.GetOr([]))))
    ensures Verify(r.refreshToken, c.RefreshSecret()) == Some(JwtPayload(u.id, None, None, None, None, None))
    ensures r.user == u && r.tokenType == BearerTokenType && r.expiresIn == c.AccessExpiresIn()
  {
    var access := JwtPayload(u.id, u.email, u.name, None, None, Some(u.roles.GetOr([])));
    var refresh := JwtPayload(u.id, None, None, None, None, None);
    TokenPair(u, Sign(access, c.AccessSecret(), c.AccessExpiresIn()),
              Sign(refresh, c.RefreshSecret(), c.RefreshExpiresIn()),
              BearerTokenType, c.AccessExpiresIn())
  }

  /** `profile.emails?.[0]?.value ?? null`. */
  function FirstEmail(p: Profile): (e: Option<string>)
    ensures e.Some? <==> p.emails.Some? && |p.emails.value| > 0
    ensures e.Some? ==> e.value == p.emails.value[0]
  {
    if p.emails.Some? && |p.emails.value| > 0 then Some(p.emails.value[0]) else None
  }

  /** The upsert payload `validateOAuthLogin` builds: the provider's name,
      the profile id as the account id, the first email, the display name
      and the provider's tokens, with no avatar. */
  function LoginPayload(provider: OAuthProvider, profile: Profile, accessToken: Option<string>,
                        refreshToken: Option<string>): (p: OAuthPayload)
    ensures p.avatarUrl.None? && p.email == FirstEmail(profile) && p.name == profile.displayName
    ensures LinkKey(p.provider, p.providerAccountId) == LinkKey(provider.Name(), profile.id)
  {
    OAuthPayload(provider.Name(), profile.id, FirstEmail(profile), profile.displayName, accessToken, refreshToken, None)
  }

  /** The secret a two-factor check reads: the user's two-factor record's
      secret, when the user exists and the secret is not empty. */
  function StoredSecret(users: map<UserId, User>, twoFactors: map<UserId, TwoFactor>, userId: UserId): (s: Option<string>)
    ensures s.Some? <==> userId in users && userId in twoFactors && twoFactors[userId].secretEncrypted != ""
    ensures s.Some? ==> s.value == twoFactors[userId].secretEncrypted
  {
    if userId in users && userId in twoFactors && twoFactors[userId].secretEncrypted != "" then
      Some(twoFactors[userId].secretEncrypted)
    else
      None
  }

  /** The secret `verifyTwoFactor` and `disableTwoFactor` read as the code is
      written: the `twoFactorSecretEncrypted` column of the user row that
      `findById` returns; without a truthy one they answer 404. */
  function SecretAsWritten(users: map<UserId, User>, userId: UserId): (s: Option<string>)
    ensures s.Some? <==> userId in users && Truthy(users[userId].twoFactorSecretEncrypted)
    ensures s.Some? ==> s.value == users[userId].twoFactorSecretEncrypted.value
  {
    if userId in users && Truthy(users[userId].twoFactorSecretEncrypted) then users[userId].twoFactorSecretEncrypted
    else None
  }

  /** Right after setup stores an encrypted secret, the read as written
      still finds none, in every state the store's operations reach, while
      the two-factor record holds the secret that StoredSecret returns. */
  lemma SetupMissedAsWritten(users: map<UserId, User>, nextUserId: nat, twoFactors: map<UserId, TwoFactor>,
                             userId: UserId, secret: string, key: string, iv: seq<byte>, aead: Aead)
    requires UsersValid(users, nextUserId) && userId in users && |iv| == IvLength
    ensures var sealed := EncryptSecret(secret, key, iv, aead);
            var after := twoFactors[userId := TwoFactor(userId, sealed, None, None)];
            SecretAsWritten(users, userId).None? && StoredSecret(users, after, userId) == Some(sealed)
  {
    var sealed := EncryptSecret(secret, key, iv, aead);
    assert |Split(sealed, '.')| == 3;
    assert SecretColumnUnset(users[userId]);
  }

  /** A token stored at `now` with a lifetime of `ttlMinutes` can be consumed
      exactly until `ttlMinutes` minutes have passed, strictly. */
  lemma TokenLifetime(t: UserToken, now: Timestamp, ttlMinutes: nat, later: Timestamp)
    requires t.expiresAt == now + ttlMinutes * MillisPerMinute && t.usedAt.None?
    ensures Consumable(t, t.tokenType, t.tokenHash, None, later) <==> later < now + ttlMinutes * 60000
  {
  }

  class AuthService {
    const store: UserService
    const config: AuthConfig
    const aead: Aead
    const totpCheck: Check

    constructor (store: UserService, config: AuthConfig, aead: Aead, totpCheck: Check)
      ensures this.store == store && this.config == config && this.aead == aead && this.totpCheck == totpCheck
    {
      this.store := store;
      this.config := config;
      this.aead := aead;
      this.totpCheck := totpCheck;
    }

    /** `verifyTwoFactorCode`: a payload that does not decrypt throws. */
    function VerifyTwoFactorCode(code: string, secretEncrypted: string): (r: Result<bool, Exception>)
      ensures DecryptSecret(secretEncrypted, config.EncryptionKey(), aead).Err? ==>
                r == Err(PlainError(DecryptSecret(secretEncrypted, config.EncryptionKey(), aead).error))
      ensures DecryptSecret(secretEncrypted, config.EncryptionKey(), aead).Ok? ==>
                r == Ok(totpCheck(code, DecryptSecret(secretEncrypted, config.EncryptionKey(), aead).value,
                                  config.Period(), config.Digits()))
    {
      match DecryptSecret(secretEncrypted, config.EncryptionKey(), aead)
      case Err(message) => Err(PlainError(message))
      case Ok(secret) => Ok(totpCheck(code, secret, config.Period(), config.Digits()))
    }

    method RegisterLocal(email: string, password: string, name: Option<string>) returns (r: Result<AuthUser, Exception>)
      requires store.Valid()
      modifies store
      ensures store.Valid()
      ensures UserWithEmail(old(store.users), Lower(email)).Some? ==>
                r == Err(ConflictException(EmailTakenMessage)) && unchanged(store)
      ensures UserWithEmail(old(store.users), Lower(email)).None? ==>
                var u := NewLocalUser(old(store.nextUserId), email, Hash(password, config.Rounds()), name);
                && r == Ok(SanitizeUser(u))
                && store.users == old(store.users)[u.id := u] && store.nextUserId == old(store.nextUserId) + 1
                && store.tokens == old(store.tokens) && store.twoFactors == old(store.twoFactors)
                && store.accounts == old(store.accounts) && store.nextTokenId == old(store.nextTokenId)
    {
      var existing := store.FindByEmail(email);
      if existing.Some? {
        return Err(ConflictException(EmailTakenMessage));
      }
      var passwordHash := Hash(password, config.Rounds());
      var created := store.CreateLocalUser(email, passwordHash, name);
      r := Ok(SanitizeUser(created.value));
    }

    method ValidateLocalUser(email: string, password: string) returns (r: Option<AuthUser>)
      requires store.Valid()
      ensures var u := UserWithEmail(store.users, Lower(email));
              r.Some? <==> u.Some? && u.value.passwordHash.Some? && VerifyPassword(password, u.value.passwordHash.value)
      ensures r.Some? ==> r == Some(SanitizeUser(UserWithEmail(store.users, Lower(email)).value))
    {
      var user := store.FindByEmail(email);
      if user.None? || user.value.passwordHash.None? {
        return None;
      }
      if !VerifyPassword(password, user.value.passwordHash.value) {
        return None;
      }
      r := Some(SanitizeUser(user.value));
    }

    /** `loginUser` and `refreshTokens`' success path are `issueTokens`. */
    method RefreshTokens(refreshToken: Token) returns (r: Result<TokenPair, Exception>)
      requires store.Valid()
      ensures var p := Verify(refreshToken, config.RefreshSecret());
              r.Err? <==> p.None? || p.value.sub !in store.users
      ensures r.Err? ==> r.error == UnauthorizedException(InvalidRefreshMessage)
      ensures r.Ok? ==>
                var sub := Verify(refreshToken, config.RefreshSecret()).value.sub;
                r.value == IssueTokens(SanitizeUser(store.users[sub]), config)
    {
      var payload := Verify(refreshToken, config.RefreshSecret());
      if payload.None? {
        return Err(UnauthorizedException(InvalidRefreshMessage));
      }
      var user := store.FindById(payload.value.sub);
      if user.None? {
        return Err(UnauthorizedException(InvalidRefreshMessage));
      }
      r := Ok(IssueTokens(SanitizeUser(user.value), config));
    }

    /** `createUserToken`: only the digest of the token is stored. */
    method CreateUserToken(userId: UserId, tokenType: TokenType, token: string, ttlMinutes: nat, now: Timestamp)
      returns (r: Result<UserToken, Exception>)
      requires store.Valid()
      modifies store
      ensures store.Valid()
      ensures userId !in old(store.users) ==> r == Err(StoreFailure(ForeignKeyViolation)) && unchanged(store)
      ensures userId in old(store.users) ==>
                var t := UserToken(old(store.nextTokenId), userId, tokenType, HashToken(token),
                                   now + ttlMinutes * MillisPerMinute, None);
                && r == Ok(t)
                && store.tokens == old(store.tokens)[t.id := t] && store.nextTokenId == old(store.nextTokenId) + 1
                && store.users == old(store.users) && store.twoFactors == old(store.twoFactors)
                && store.accounts == old(store.accounts) && store.nextUserId == old(store.nextUserId)
    {
      var created := store.CreateToken(userId, tokenType, HashToken(token), now + ttlMinutes * MillisPerMinute);
      if created.Err? {
        return Err(StoreFailure(created.error));
      }
      r := Ok(created.value);
    }

    /** The private `consumeToken`: the presented token is digested before
        the store is searched. */
    method ConsumeUserToken(tokenType: TokenType, token: string, userId: Option<UserId>, now: Timestamp)
      returns (r: Option<UserToken>)
      requires store.Valid()
      modifies store
      ensures store.Valid()
      ensures r.None? <==> LiveMatches(old(store.tokens), tokenType, HashToken(token), userId, now) == {}
      ensures r.None? ==> unchanged(store)
      ensures r.Some? ==>
                && r.value.id in LiveMatches(old(store.tokens), tokenType, HashToken(token), userId, now)
                && r.value == MarkUsed(old(store.tokens)[r.value.id], now)
                && store.tokens == old(store.tokens)[r.value.id := r.value]
                && store.users == old(store.users) && store.twoFactors == old(store.twoFactors)
                && store.accounts == old(store.accounts)
                && store.nextUserId == old(store.nextUserId) && store.nextTokenId == old(store.nextTokenId)
    {
      r := store.ConsumeToken(tokenType, HashToken(token), userId, now);
    }

    method RequestPasswordReset(email: string, drawn: seq<byte>, now: Timestamp) returns (r: Result<Ack, Exception>)
      requires store.Valid() && |drawn| == ResetTokenBytes
      modifies store
      ensures store.Valid()
      ensures UserWithEmail(old(store.users), Lower(email)).None? ==>
                r == Ok(Ack(GenericResetMessage, None, None)) && unchanged(store)
      ensures UserWithEmail(old(store.users), Lower(email)).Some? ==>
                var t := UserToken(old(store.nextTokenId), UserWithEmail(old(store.users), Lower(email)).value.id,
                                   PasswordReset, HashToken(RandomToken(drawn)),
                                   now + config.ResetTtl() * MillisPerMinute, None);
                && store.tokens == old(store.tokens)[t.id := t] && store.nextTokenId == old(store.nextTokenId) + 1
                && store.users == old(store.users) && store.twoFactors == old(store.twoFactors)
                && store.accounts == old(store.accounts) && store.nextUserId == old(store.nextUserId)
                && r == Ok(if IsProduction(config) then Ack(GenericResetMessage, None, None)
                           else Ack(ResetTokenCreatedMessage, Some(RandomToken(drawn)), None))
    {
      var user := store.FindByEmail(email);
      if user.None? {
        return Ok(Ack(GenericResetMessage, None, None));
      }
      var token := RandomToken(drawn);
      var stored := CreateUserToken(user.value.id, PasswordReset, token, config.ResetTtl(), now);
      if IsProduction(config) {
        return Ok(Ack(GenericResetMessage, None, None));
      }
      r := Ok(Ack(ResetTokenCreatedMessage, Some(token), None));
    }

    method ResetPassword(token: string, newPassword: string, now: Timestamp) returns (r: Result<Ack, Exception>)
      requires store.Valid()
      modifies store
      ensures store.Valid()
      ensures LiveMatches(old(store.tokens), PasswordReset, HashToken(token), None, now) == {} ==>
                r == Err(BadRequestException(InvalidResetTokenMessage)) && unchanged(store)
      ensures LiveMatches(old(store.tokens), PasswordReset, HashToken(token), None, now) != {} ==>
                && r == Ok(Ack(PasswordUpdatedMessage, None, None))
                && exists id :: id in LiveMatches(old(store.tokens), PasswordReset, HashToken(token), None, now)
                     && store.tokens == old(store.tokens)[id := MarkUsed(old(store.tokens)[id], now)]
                     && var owner := old(store.tokens)[id].userId;
                        owner in old(store.users)
                        && store.users == old(store.users)[owner :=
                             old(store.users)[owner].(passwordHash := Some(Hash(newPassword, config.Rounds())))]
      ensures store.twoFactors == old(store.twoFactors) && store.accounts == old(store.accounts)
      ensures store.nextUserId == old(store.nextUserId) && store.nextTokenId == old(store.nextTokenId)
    {
      var record := ConsumeUserToken(PasswordReset, token, None, now);
      if record.None? {
        return Err(BadRequestException(InvalidResetTokenMessage));
      }
      ghost var consumed := store.tokens;
      var passwordHash := Hash(newPassword, config.Rounds());
      assert record.value.userId in store.users;
      var updated := store.UpdatePassword(record.value.userId, passwordHash);
      assert store.tokens == consumed;
      r := Ok(Ack(PasswordUpdatedMessage, None, None));
    }

    method RequestEmailOtp(email: string, drawn: nat, now: Timestamp) returns (r: Result<Ack, Exception>)
      requires store.Valid() && drawn < Pow10(EmailOtpLength)
      modifies store
      ensures store.Valid()
      ensures UserWithEmail(old(store.users), Lower(email)).None? ==>
                r == Ok(Ack(GenericOtpMessage, None, None)) && unchanged(store)
      ensures UserWithEmail(old(store.users), Lower(email)).Some? ==>
                var otp := RandomOtp(EmailOtpLength, drawn);
                var t := UserToken(old(store.nextTokenId), UserWithEmail(old(store.users), Lower(email)).value.id,
                                   EmailVerify, HashToken(otp),
                                   now + config.EmailTtl() * MillisPerMinute, None);
                && store.tokens == old(store.tokens)[t.id := t] && store.nextTokenId == old(store.nextTokenId) + 1
                && store.users == old(store.users) && store.twoFactors == old(store.twoFactors)
                && store.accounts == old(store.accounts) && store.nextUserId == old(store.nextUserId)
                && r == Ok(if IsProduction(config) then Ack(GenericOtpMessage, None, None)
                           else Ack(OtpCreatedMessage, None, Some(otp)))
    {
      var user := store.FindByEmail(email);
      if user.None? {
        return Ok(Ack(GenericOtpMessage, None, None));
      }
      var otp := RandomOtp(EmailOtpLength, drawn);
      var stored := CreateUserToken(user.value.id, EmailVerify, otp, config.EmailTtl(), now);
      if IsProduction(config) {
        return Ok(Ack(GenericOtpMessage, None, None));
      }
      r := Ok(Ack(OtpCreatedMessage, None, Some(otp)));
    }

    method VerifyEmailOtp(email: string, code: string, now: Timestamp) returns (r: Result<Ack, Exception>)
      requires store.Valid()
      modifies store
      ensures store.Valid()
      ensures UserWithEmail(old(store.users), Lower(email)).None? ==>
                r == Err(NotFoundException(UserNotFoundMessage)) && unchanged(store)
      ensures UserWithEmail(old(store.users), Lower(email)).Some? ==>
                var u := UserWithEmail(old(store.users), Lower(email)).value;
                var live := LiveMatches(old(store.tokens), EmailVerify, HashToken(code), Some(u.id), now);
                && (live == {} ==> r == Err(BadRequestException(InvalidEmailOtpMessage)) && unchanged(store))
                && (live != {} ==>
                      && r == Ok(Ack(EmailVerifiedMessage, None, None))
                      && store.users == old(store.users)[u.id := u.(emailVerifiedAt := Some(now))]
                      && exists id :: id in live && store.tokens == old(store.tokens)[id := MarkUsed(old(store.tokens)[id], now)])
      ensures store.twoFactors == old(store.twoFactors) && store.accounts == old(store.accounts)
      ensures store.nextUserId == old(store.nextUserId) && store.nextTokenId == old(store.nextTokenId)
    {
      var user := store.FindByEmail(email);
      if user.None? {
        return Err(NotFoundException(UserNotFoundMessage));
      }
      var record := ConsumeUserToken(EmailVerify, code, Some(user.value.id), now);
      if record.None? {
        return Err(BadRequestException(InvalidEmailOtpMessage));
      }
      ghost var consumed := store.tokens;
      var verified := store.VerifyEmail(user.value.id, now);
      assert store.tokens == consumed;
      r := Ok(Ack(EmailVerifiedMessage, None, None));
    }

    method SetupTwoFactor(userId: UserId, secret: string, iv: seq<byte>) returns (r: Result<TwoFactorSetup, Exception>)
      requires store.Valid() && |iv| == IvLength
      modifies store
      ensures store.Valid()
      ensures userId !in old(store.users) ==> r == Err(NotFoundException(UserNotFoundMessage)) && unchanged(store)
      ensures userId in old(store.users) ==>
                var u := old(store.users)[userId];
                var account := if u.email.Some? then EmailLabel(u.email.value) else IdLabel(u.id);
                && r == Ok(TwoFactorSetup(KeyUri(account, config.Issuer(), secret, config.Period(), config.Digits()), secret))
                && store.twoFactors == old(store.twoFactors)[userId :=
                     TwoFactor(userId, EncryptSecret(secret, config.EncryptionKey(), iv, aead), None, None)]
                && store.users == old(store.users) && store.tokens == old(store.tokens)
                && store.accounts == old(store.accounts)
                && store.nextUserId == old(store.nextUserId) && store.nextTokenId == old(store.nextTokenId)
    {
      var user := store.FindById(userId);
      if user.None? {
        return Err(NotFoundException(UserNotFoundMessage));
      }
      var u := user.value;
      var account := if u.email.Some? then EmailLabel(u.email.value) else IdLabel(u.id);
      var otpauthUrl := KeyUri(account, config.Issuer(), secret, config.Period(), config.Digits());
      var secretEncrypted := EncryptSecret(secret, config.EncryptionKey(), iv, aead);
      var saved := store.SaveTwoFactorSecret(u.id, secretEncrypted);
      r := Ok(TwoFactorSetup(otpauthUrl, secret));
    }

    method VerifyTwoFactor(userId: UserId, code: string, now: Timestamp) returns (r: Result<Ack, Exception>)
      requires store.Valid()
      modifies store
      ensures store.Valid()
      ensures var s := StoredSecret(old(store.users), old(store.twoFactors), userId);
              && (s.None? ==> r == Err(NotFoundException(TwoFactorMissingMessage)))
              && (s.Some? && VerifyTwoFactorCode(code, s.value).Err? ==> r == Err(VerifyTwoFactorCode(code, s.value).error))
              && (s.Some? && VerifyTwoFactorCode(code, s.value) == Ok(false) ==> r == Err(BadRequestException(InvalidTotpMessage)))
              && (s.Some? && VerifyTwoFactorCode(code, s.value) == Ok(true) ==>
                    r == Ok(Ack(TwoFactorEnabledMessage, None, None))
                    && store.twoFactors == old(store.twoFactors)[userId := old(store.twoFactors)[userId].(enabledAt := Some(now))])
      ensures r.Err? ==> unchanged(store)
      ensures store.users == old(store.users) && store.tokens == old(store.tokens) && store.accounts == old(store.accounts)
      ensures store.nextUserId == old(store.nextUserId) && store.nextTokenId == old(store.nextTokenId)
    {
      var user := store.FindById(userId);
      var secret := if user.Some? && userId in store.twoFactors && store.twoFactors[userId].secretEncrypted != ""
                    then Some(store.twoFactors[userId].secretEncrypted) else None;
      if secret.None? {
        return Err(NotFoundException(TwoFactorMissingMessage));
      }
      var valid := VerifyTwoFactorCode(code, secret.value);
      if valid.Err? {
        return Err(valid.error);
      }
      if !valid.value {
        return Err(BadRequestException(InvalidTotpMessage));
      }
      var enabled := store.EnableTwoFactor(userId, now);
      r := Ok(Ack(TwoFactorEnabledMessage, None, None));
    }

    method DisableTwoFactor(userId: UserId, code: string) returns (r: Result<Ack, Exception>)
      requires store.Valid()
      modifies store
      ensures store.Valid()
      ensures var s := StoredSecret(old(store.users), old(store.twoFactors), userId);
              && (s.None? ==> r == Err(NotFoundException(TwoFactorMissingMessage)))
              && (s.Some? && VerifyTwoFactorCode(code, s.value).Err? ==> r == Err(VerifyTwoFactorCode(code, s.value).error))
              && (s.Some? && VerifyTwoFactorCode(code, s.value) == Ok(false) ==> r == Err(BadRequestException(InvalidTotpMessage)))
              && (s.Some? && VerifyTwoFactorCode(code, s.value) == Ok(true) ==>
                    r == Ok(Ack(TwoFactorDisabledMessage, None, None))
                    && store.twoFactors == old(store.twoFactors) - {userId})
      ensures r.Err? ==> unchanged(store)
      ensures store.users == old(store.users) && store.tokens == old(store.tokens) && store.accounts == old(store.accounts)
      ensures store.nextUserId == old(store.nextUserId) && store.nextTokenId == old(store.nextTokenId)
    {
      var user := store.FindById(userId);
      var secret := if user.Some? && userId in store.twoFactors && store.twoFactors[userId].secretEncrypted != ""
                    then Some(store.twoFactors[userId].secretEncrypted) else None;
      if secret.None? {
        return Err(NotFoundException(TwoFactorMissingMessage));
      }
      var valid := VerifyTwoFactorCode(code, secret.value);
      if valid.Err? {
        return Err(valid.error);
      }
      if !valid.value {
        return Err(BadRequestException(InvalidTotpMessage));
      }
      var disabled := store.DisableTwoFactor(userId);
      r := Ok(Ack(TwoFactorDisabledMessage, None, None));
    }

    /** `validateOAuthLogin`: the profile's first email and display name go
        to the store's upsert, which is given no avatar, so the user the
        upsert links or merges is returned as stored, and a created user is
        the one `NewOAuthUser` builds from that payload. */
    method ValidateOAuthLogin(provider: OAuthProvider, profile: Profile, accessToken: Option<string>,
                              refreshToken: Option<string>, now: Timestamp)
      returns (r: Result<AuthUser, Exception>)
      requires store.Valid()
      modifies store
      ensures store.Valid()
      ensures var key := LinkKey(provider.Name(), profile.id);
              key in old(store.accounts) ==>
                r == Ok(SanitizeUser(old(store.users)[old(store.accounts)[key].userId])) && unchanged(store)
      ensures var p := LoginPayload(provider, profile, accessToken, refreshToken);
              var key := LinkKey(p.provider, p.providerAccountId);
              key !in old(store.accounts) && Truthy(p.email) && UserWithEmail(old(store.users), Lower(p.email.value)).Some? ==>
                var u := UserWithEmail(old(store.users), Lower(p.email.value)).value;
                && r == Ok(SanitizeUser(u))
                && store.users == old(store.users)
                && store.accounts == old(store.accounts)[key := LinkTo(p, u.id)]
                && store.nextUserId == old(store.nextUserId)
      ensures var p := LoginPayload(provider, profile, accessToken, refreshToken);
              var key := LinkKey(p.provider, p.providerAccountId);
              var created := NewOAuthUser(old(store.nextUserId), p, now);
              key !in old(store.accounts) && !(Truthy(p.email) && UserWithEmail(old(store.users), Lower(p.email.value)).Some?) ==>
                if created.email.Some? && UserWithEmail(old(store.users), created.email.value).Some? then
                  r == Err(StoreFailure(UniqueViolation)) && unchanged(store)
                else
                  && r == Ok(SanitizeUser(created))
                  && store.users == old(store.users)[created.id := created]
                  && store.accounts == old(store.accounts)[key := LinkTo(p, created.id)]
                  && store.nextUserId == old(store.nextUserId) + 1
      ensures r.Ok? ==>
                && r.value.id in store.users && r.value == SanitizeUser(store.users[r.value.id])
                && LinkKey(provider.Name(), profile.id) in store.accounts
                && store.accounts[LinkKey(provider.Name(), profile.id)].userId == r.value.id
      ensures r.Err? ==> r.error == StoreFailure(UniqueViolation) && unchanged(store)
      ensures store.tokens == old(store.tokens) && store.twoFactors == old(store.twoFactors)
    {
      var payload := LoginPayload(provider, profile, accessToken, refreshToken);
      if LinkKey(provider.Name(), profile.id) in store.accounts {
        var linked := store.users[store.accounts[LinkKey(provider.Name(), profile.id)].userId];
        assert store.users[linked.id := WithSocialAvatar(linked, None, now)] == store.users;
      } else if Truthy(payload.email) && UserWithEmail(store.users, Lower(payload.email.value)).Some? {
        var merged := UserWithEmail(store.users, Lower(payload.email.value)).value;
        assert store.users[merged.id := WithSocialAvatar(merged, None, now)] == store.users;
      }
      var user := store.UpsertOAuthUser(payload, now);
      if user.Err? {
        return Err(StoreFailure(user.error));
      }
      r := Ok(SanitizeUser(user.value));
    }
  }
}
