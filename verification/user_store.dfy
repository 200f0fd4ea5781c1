/** `UserService`: the credential store. Four tables stand in for the
    database: users, one-time tokens, two-factor records and OAuth links.
    Each method performs the reads and writes of the corresponding database
    calls in order, and a database error (a missing row, a unique or a
    foreign-key violation) is returned as a `StoreError`. The current time
    is a parameter. */
module UserStore {
  import opened Wrappers
  import opened Text
  import opened AuthTypes
  import opened AuthCrypto
  import opened Bcrypt

  /** The value of a `Date`: milliseconds since the epoch. */
  type Timestamp = nat

  /** `status`: local users are created 'ACTIVE'; OAuth users get whatever
      the schema defaults to (the schema is not part of this model). */
  datatype Status = Active | SchemaDefault

  datatype User = User(
    id: UserId,
    email: Option<string>,
    name: Option<string>,
    passwordHash: Option<PasswordHash>,
    roles: seq<string>,
    emailVerifiedAt: Option<Timestamp>,
    status: Status,
    avatarUrl: Option<string>,
    avatarSource: Option<AvatarSource>,
    avatarUpdatedAt: Option<Timestamp>,
    twoFactorSecretEncrypted: Option<string>)

  /** Roles of a newly created row: the schema default, taken to be empty. */
  const NewUserRoles: seq<string> := []

  datatype TokenType = PasswordReset | EmailVerify

  datatype UserToken = UserToken(
    id: nat,
    userId: UserId,
    tokenType: TokenType,
    tokenHash: TokenDigest,
    expiresAt: Timestamp,
    usedAt: Option<Timestamp>)

  datatype TwoFactor = TwoFactor(
    userId: UserId,
    secretEncrypted: string,
    enabledAt: Option<Timestamp>,
    verifiedAt: Option<Timestamp>)

  /** The compound unique key `provider_providerAccountId`. */
  datatype LinkKey = LinkKey(provider: string, providerAccountId: string)

  datatype OAuthAccount = OAuthAccount(
    userId: UserId,
    provider: string,
    providerAccountId: string,
    accessToken: Option<string>,
    refreshToken: Option<string>)

  /** The argument of `upsertOAuthUser`. */
  datatype OAuthPayload = OAuthPayload(
    provider: string,
    providerAccountId: string,
    email: Option<string>,
    name: Option<string>,
    accessToken: Option<string>,
    refreshToken: Option<string>,
    avatarUrl: Option<string>)

  datatype StoreError = RecordNotFound | UniqueViolation | ForeignKeyViolation

  // ---------------------------------------------------------------------
  // Table invariants
  // ---------------------------------------------------------------------

  /** Emails are stored lower-cased. */
  predicate EmailStored(u: User) {
    u.email.Some? ==> Lower(u.email.value) == u.email.value
  }

  /** An avatar source and update time are recorded together, and only
      beside a non-empty avatar URL. */
  predicate AvatarConsistent(u: User) {
    && (u.avatarSource.Some? <==> u.avatarUpdatedAt.Some?)
    && (u.avatarSource.Some? ==> Truthy(u.avatarUrl))
  }

  /** The user row's `twoFactorSecretEncrypted` column: no operation of the
      store writes it, so it stays unset in every row. */
  predicate SecretColumnUnset(u: User) {
    u.twoFactorSecretEncrypted.None?
  }

  /** The unique index on `email` (any number of rows may have none). */
  ghost predicate EmailsUnique(users: map<UserId, User>) {
    forall a, b :: a in users && b in users && users[a].email.Some? && users[a].email == users[b].email ==> a == b
  }

  ghost predicate UsersValid(users: map<UserId, User>, nextUserId: nat) {
    && (forall id :: id in users ==>
          users[id].id == id && id < nextUserId && EmailStored(users[id]) && AvatarConsistent(users[id])
          && SecretColumnUnset(users[id]))
    && EmailsUnique(users)
  }

  ghost predicate TablesValid(
    users: map<UserId, User>, tokens: map<nat, UserToken>, twoFactors: map<UserId, TwoFactor>,
    accounts: map<LinkKey, OAuthAccount>, nextUserId: nat, nextTokenId: nat)
  {
    && UsersValid(users, nextUserId)
    && (forall id :: id in tokens ==> tokens[id].id == id && id < nextTokenId && tokens[id].userId in users)
    && (forall id :: id in twoFactors ==> twoFactors[id].userId == id && id in users)
    && (forall k :: k in accounts ==>
          accounts[k].provider == k.provider && accounts[k].providerAccountId == k.providerAccountId
          && accounts[k].userId in users)
  }

  // ---------------------------------------------------------------------
  // Specification functions
  // ---------------------------------------------------------------------

  /** `user.findUnique({ where: { email } })`. */
  ghost function UserWithEmail(users: map<UserId, User>, email: string): (r: Option<User>)
    requires EmailsUnique(users)
    ensures r.Some? <==> exists id :: id in users && users[id].email == Some(email)
    ensures forall id :: id in users && users[id].email == Some(email) ==> r == Some(users[id])
  {
    if exists id :: id in users && users[id].email == Some(email) then
      var id :| id in users && users[id].email == Some(email);
      Some(users[id])
    else
      None
  }

  /** The row `createLocalUser` inserts. */
  function NewLocalUser(id: UserId, email: string, passwordHash: PasswordHash, name: Option<string>): User {
    User(id, Some(Lower(email)), name, Some(passwordHash), NewUserRoles, None, Active, None, None, None, None)
  }

  /** The row `upsertOAuthUser` inserts when it finds no user to reuse. */
  function NewOAuthUser(id: UserId, p: OAuthPayload, now: Timestamp): User {
    User(id,
         if p.email.Some? then Some(Lower(p.email.value)) else None,
         p.name, None, NewUserRoles,
         if Truthy(p.email) then Some(now) else None,
         SchemaDefault,
         p.avatarUrl,
         if Truthy(p.avatarUrl) then Some(Social) else None,
         if Truthy(p.avatarUrl) then Some(now) else None,
         None)
  }

  function AvatarUpdate(u: User, avatarUrl: Option<string>, source: AvatarSource, now: Timestamp): (v: User)
    ensures v.avatarUrl == avatarUrl
    ensures v.avatarSource.Some? <==> Truthy(avatarUrl)
    ensures v.avatarUpdatedAt.Some? <==> Truthy(avatarUrl)
    ensures Truthy(avatarUrl) ==> v.avatarSource == Some(source) && v.avatarUpdatedAt == Some(now)
    ensures v.(avatarUrl := u.avatarUrl, avatarSource := u.avatarSource, avatarUpdatedAt := u.avatarUpdatedAt) == u
    ensures AvatarConsistent(v)
  {
    u.(avatarUrl := avatarUrl,
       avatarSource := if Truthy(avatarUrl) then Some(source) else None,
       avatarUpdatedAt := if Truthy(avatarUrl) then Some(now) else None)
  }

  /** A social avatar replaces the stored one only when the user has none or
      the stored one is itself social. */
  predicate SocialAvatarApplies(u: User, avatarUrl: Option<string>) {
    Truthy(avatarUrl) && (!Truthy(u.avatarUrl) || u.avatarSource == Some(Social))
  }

  function WithSocialAvatar(u: User, avatarUrl: Option<string>, now: Timestamp): (v: User)
    ensures SocialAvatarApplies(u, avatarUrl) ==> v == AvatarUpdate(u, avatarUrl, Social, now)
    ensures !SocialAvatarApplies(u, avatarUrl) ==> v == u
  {
    if SocialAvatarApplies(u, avatarUrl) then AvatarUpdate(u, avatarUrl, Social, now) else u
  }

  /** An uploaded or S3 avatar is never replaced by a social one. */
  lemma UploadedAvatarKept(u: User, avatarUrl: Option<string>, now: Timestamp)
    requires AvatarConsistent(u) && u.avatarSource in {Some(Upload), Some(S3)}
    ensures WithSocialAvatar(u, avatarUrl, now) == u
  {
  }

  /** The token `consumeToken` may pick. */
  predicate Consumable(t: UserToken, tokenType: TokenType, tokenHash: TokenDigest, userId: Option<UserId>, now: Timestamp) {
    && t.tokenType == tokenType
    && t.tokenHash == tokenHash
    && t.usedAt.None?
    && t.expiresAt > now
    && (userId.Some? ==> t.userId == userId.value)
  }

  ghost function LiveMatches(
    tokens: map<nat, UserToken>, tokenType: TokenType, tokenHash: TokenDigest, userId: Option<UserId>, now: Timestamp)
    : set<nat>
  {
    set id | id in tokens && Consumable(tokens[id], tokenType, tokenHash, userId, now)
  }

  function MarkUsed(t: UserToken, now: Timestamp): (u: UserToken)
    ensures u.usedAt.Some? && u.(usedAt := t.usedAt) == t
  {
    t.(usedAt := Some(now))
  }

  /** Consuming one token takes exactly that token out of every later
      query's matches. */
  lemma {:induction false} ConsumeTakesOnlyThatToken(
    tokens: map<nat, UserToken>, id: nat, now: Timestamp,
    tokenType: TokenType, tokenHash: TokenDigest, userId: Option<UserId>, later: Timestamp)
    requires id in tokens
    ensures LiveMatches(tokens[id := MarkUsed(tokens[id], now)], tokenType, tokenHash, userId, later)
            == LiveMatches(tokens, tokenType, tokenHash, userId, later) - {id}
  {
    var after := tokens[id := MarkUsed(tokens[id], now)];
    forall j | j in LiveMatches(after, tokenType, tokenHash, userId, later)
      ensures j in LiveMatches(tokens, tokenType, tokenHash, userId, later) - {id}
    {
      assert j != id;
    }
  }

  /** When one token matched, a second identical request, made then or
      later, finds nothing: a token is used at most once. */
  lemma {:induction false} SecondConsumeFindsNothing(
    tokens: map<nat, UserToken>, id: nat, now: Timestamp,
    tokenType: TokenType, tokenHash: TokenDigest, userId: Option<UserId>, later: Timestamp)
    requires LiveMatches(tokens, tokenType, tokenHash, userId, now) == {id}
    requires now <= later
    ensures LiveMatches(tokens[id := MarkUsed(tokens[id], now)], tokenType, tokenHash, userId, later) == {}
  {
    assert id in LiveMatches(tokens, tokenType, tokenHash, userId, now);
    ConsumeTakesOnlyThatToken(tokens, id, now, tokenType, tokenHash, userId, later);
    forall j | j in LiveMatches(tokens, tokenType, tokenHash, userId, later)
      ensures j == id
    {
      assert j in LiveMatches(tokens, tokenType, tokenHash, userId, now);
    }
  }

  /** A user created with some spelling of an email is found by every
      spelling that lower-cases to the same text. */
  lemma {:induction false} FoundByAnyCase(
    users: map<UserId, User>, id: UserId, email: string, passwordHash: PasswordHash, name: Option<string>, probe: string)
    requires EmailsUnique(users) && id !in users
    requires UserWithEmail(users, Lower(email)).None?
    requires Lower(probe) == Lower(email)
    ensures EmailsUnique(users[id := NewLocalUser(id, email, passwordHash, name)])
    ensures UserWithEmail(users[id := NewLocalUser(id, email, passwordHash, name)], Lower(probe))
            == Some(NewLocalUser(id, email, passwordHash, name))
  {
    var after := users[id := NewLocalUser(id, email, passwordHash, name)];
    assert after[id].email == Some(Lower(probe));
  }

  // ---------------------------------------------------------------------
  // The store
  // ---------------------------------------------------------------------

  class UserService {
    var users: map<UserId, User>
    var tokens: map<nat, UserToken>
    var twoFactors: map<UserId, TwoFactor>
    var accounts: map<LinkKey, OAuthAccount>
    /** The id the next created user or token receives. */
    var nextUserId: nat
    var nextTokenId: nat

    ghost predicate Valid()
      reads this
    {
      TablesValid(users, tokens, twoFactors, accounts, nextUserId, nextTokenId)
    }

    constructor ()
      ensures Valid()
      ensures users == map[] && tokens == map[] && twoFactors == map[] && accounts == map[]
    {
      users, tokens, twoFactors, accounts := map[], map[], map[], map[];
      nextUserId, nextTokenId := 0, 0;
    }

    // User

    /** `findByEmail`: looks the lower-cased email up. */
    method FindByEmail(email: string) returns (r: Option<User>)
      requires Valid()
      ensures r == UserWithEmail(users, Lower(email))
      ensures r.Some? ==> r.value.email == Some(Lower(email)) && r.value.id in users && users[r.value.id] == r.value
    {
      var e := Lower(email);
      if exists id :: id in users && users[id].email == Some(e) {
        var id :| id in users && users[id].email == Some(e);
        r := Some(users[id]);
      } else {
        r := None;
      }
    }

    method FindById(userId: UserId) returns (r: Option<User>)
      requires Valid()
      ensures r.Some? <==> userId in users
      ensures r.Some? ==> r.value == users[userId] && r.value.id == userId
    {
      r := if userId in users then Some(users[userId]) else None;
    }

    /** `user.create`: fails on the unique email index, otherwise inserts the
        row under the next id. */
    method Insert(u: User) returns (r: Result<User, StoreError>)
      requires Valid() && u.id == nextUserId && EmailStored(u) && AvatarConsistent(u) && SecretColumnUnset(u)
      modifies this`users, this`nextUserId
      ensures Valid()
      ensures u.email.Some? && UserWithEmail(old(users), u.email.value).Some? ==>
                r == Err(UniqueViolation) && users == old(users) && nextUserId == old(nextUserId)
      ensures !(u.email.Some? && UserWithEmail(old(users), u.email.value).Some?) ==>
                r == Ok(u) && users == old(users)[u.id := u] && nextUserId == old(nextUserId) + 1
    {
      if u.email.Some? && exists id :: id in users && users[id].email == u.email {
        return Err(UniqueViolation);
      }
      users := users[u.id := u];
      nextUserId := nextUserId + 1;
      r := Ok(u);
    }

    /** `createLocalUser`. */
    method CreateLocalUser(email: string, passwordHash: PasswordHash, name: Option<string>)
      returns (r: Result<User, StoreError>)
      requires Valid()
      modifies this`users, this`nextUserId
      ensures Valid()
      ensures UserWithEmail(old(users), Lower(email)).Some? ==>
                r == Err(UniqueViolation) && users == old(users) && nextUserId == old(nextUserId)
      ensures UserWithEmail(old(users), Lower(email)).None? ==>
                r == Ok(NewLocalUser(old(nextUserId), email, passwordHash, name))
                && users == old(users)[old(nextUserId) := r.value] && nextUserId == old(nextUserId) + 1
      ensures r.Ok? ==>
                r.value.email == Some(Lower(email)) && r.value.emailVerifiedAt.None?
                && r.value.status == Active && r.value.name == name && r.value.passwordHash == Some(passwordHash)
    {
      LowerIdempotent(email);
      r := Insert(NewLocalUser(nextUserId, email, passwordHash, name));
    }

    /** The shared shape of `user.update({ where: { id } })`. */
    method UpdateUser(userId: UserId, v: User) returns (r: Result<User, StoreError>)
      requires Valid() && v.id == userId && EmailStored(v) && AvatarConsistent(v) && SecretColumnUnset(v)
      requires userId in users ==> v.email == users[userId].email
      modifies this`users
      ensures Valid()
      ensures userId !in old(users) ==> r == Err(RecordNotFound) && users == old(users)
      ensures userId in old(users) ==> r == Ok(v) && users == old(users)[userId := v]
    {
      if userId !in users {
        return Err(RecordNotFound);
      }
      users := users[userId := v];
      r := Ok(v);
    }

    method UpdatePassword(userId: UserId, passwordHash: PasswordHash) returns (r: Result<User, StoreError>)
      requires Valid()
      modifies this`users
      ensures Valid()
      ensures userId !in old(users) ==> r == Err(RecordNotFound) && users == old(users)
      ensures userId in old(users) ==>
                r == Ok(old(users)[userId].(passwordHash := Some(passwordHash)))
                && users == old(users)[userId := r.value]
    {
      if userId !in users {
        return Err(RecordNotFound);
      }
      r := UpdateUser(userId, users[userId].(passwordHash := Some(passwordHash)));
    }

    method VerifyEmail(userId: UserId, now: Timestamp) returns (r: Result<User, StoreError>)
      requires Valid()
      modifies this`users
      ensures Valid()
      ensures userId !in old(users) ==> r == Err(RecordNotFound) && users == old(users)
      ensures userId in old(users) ==>
                r == Ok(old(users)[userId].(emailVerifiedAt := Some(now)))
                && users == old(users)[userId := r.value]
    {
      if userId !in users {
        return Err(RecordNotFound);
      }
      r := UpdateUser(userId, users[userId].(emailVerifiedAt := Some(now)));
    }

    // UserToken

    method CreateToken(userId: UserId, tokenType: TokenType, tokenHash: TokenDigest, expiresAt: Timestamp)
      returns (r: Result<UserToken, StoreError>)
      requires Valid()
      modifies this`tokens, this`nextTokenId
      ensures Valid()
      ensures userId !in users ==> r == Err(ForeignKeyViolation) && tokens == old(tokens) && nextTokenId == old(nextTokenId)
      ensures userId in users ==>
                r == Ok(UserToken(old(nextTokenId), userId, tokenType, tokenHash, expiresAt, None))
                && tokens == old(tokens)[old(nextTokenId) := r.value] && nextTokenId == old(nextTokenId) + 1
    {
      if userId !in users {
        return Err(ForeignKeyViolation);
      }
      var t := UserToken(nextTokenId, userId, tokenType, tokenHash, expiresAt, None);
      tokens := tokens[t.id := t];
      nextTokenId := nextTokenId + 1;
      r := Ok(t);
    }

    /** `consumeToken`: finds an unused, unexpired token of that type and
        digest (and owner, when one is given) and marks it used. Which one
        is found when several match is left open, as `findFirst` without an
        ordering leaves it. */
    method ConsumeToken(tokenType: TokenType, tokenHash: TokenDigest, userId: Option<UserId>, now: Timestamp)
      returns (r: Option<UserToken>)
      requires Valid()
      modifies this`tokens
      ensures Valid()
      ensures r.None? <==> LiveMatches(old(tokens), tokenType, tokenHash, userId, now) == {}
      ensures r.None? ==> tokens == old(tokens)
      ensures r.Some? ==>
                && r.value.id in LiveMatches(old(tokens), tokenType, tokenHash, userId, now)
                && r.value == MarkUsed(old(tokens)[r.value.id], now)
                && tokens == old(tokens)[r.value.id := r.value]
    {
      if id :| id in tokens && Consumable(tokens[id], tokenType, tokenHash, userId, now) {
        assert id in LiveMatches(tokens, tokenType, tokenHash, userId, now);
        var t := MarkUsed(tokens[id], now);
        tokens := tokens[id := t];
        r := Some(t);
      } else {
        assert LiveMatches(tokens, tokenType, tokenHash, userId, now) == {};
        r := None;
      }
    }

    // Two factor

    /** `saveTwoFactorSecret`: an upsert that leaves the record pending
        whether or not one existed. */
    method SaveTwoFactorSecret(userId: UserId, secretEncrypted: string) returns (r: Result<TwoFactor, StoreError>)
      requires Valid()
      modifies this`twoFactors
      ensures Valid()
      ensures userId !in old(twoFactors) && userId !in users ==>
                r == Err(ForeignKeyViolation) && twoFactors == old(twoFactors)
      ensures userId in old(twoFactors) || userId in users ==>
                r == Ok(TwoFactor(userId, secretEncrypted, None, None))
                && twoFactors == old(twoFactors)[userId := r.value]
    {
      if userId !in twoFactors && userId !in users {
        return Err(ForeignKeyViolation);
      }
      var rec := TwoFactor(userId, secretEncrypted, None, None);
      twoFactors := twoFactors[userId := rec];
      r := Ok(rec);
    }

    method EnableTwoFactor(userId: UserId, now: Timestamp) returns (r: Result<TwoFactor, StoreError>)
      requires Valid()
      modifies this`twoFactors
      ensures Valid()
      ensures userId !in old(twoFactors) ==> r == Err(RecordNotFound) && twoFactors == old(twoFactors)
      ensures userId in old(twoFactors) ==>
                r == Ok(old(twoFactors)[userId].(enabledAt := Some(now)))
                && twoFactors == old(twoFactors)[userId := r.value]
    {
      if userId !in twoFactors {
        return Err(RecordNotFound);
      }
      var rec := twoFactors[userId].(enabledAt := Some(now));
      twoFactors := twoFactors[userId := rec];
      r := Ok(rec);
    }

    method DisableTwoFactor(userId: UserId) returns (r: Result<bool, StoreError>)
      requires Valid()
      modifies this`twoFactors
      ensures Valid()
      ensures userId !in old(twoFactors) ==> r == Err(RecordNotFound) && twoFactors == old(twoFactors)
      ensures userId in old(twoFactors) ==> r == Ok(true) && twoFactors == old(twoFactors) - {userId}
    {
      if userId !in twoFactors {
        return Err(RecordNotFound);
      }
      twoFactors := twoFactors - {userId};
      r := Ok(true);
    }

    // Avatar

    method UpdateAvatar(userId: UserId, avatarUrl: Option<string>, source: AvatarSource, now: Timestamp)
      returns (r: Result<User, StoreError>)
      requires Valid()
      modifies this`users
      ensures Valid()
      ensures userId !in old(users) ==> r == Err(RecordNotFound) && users == old(users)
      ensures userId in old(users) ==>
                r == Ok(AvatarUpdate(old(users)[userId], avatarUrl, source, now))
                && users == old(users)[userId := r.value]
    {
      if userId !in users {
        return Err(RecordNotFound);
      }
      r := UpdateUser(userId, AvatarUpdate(users[userId], avatarUrl, source, now));
    }

    // OAuth

    /** `upsertOAuthUser`: an existing link wins, then a user with the same
        (non-empty) email, then a new user; the social avatar is applied to
        the user found, and a link to that user is added unless one existed. */
    method UpsertOAuthUser(p: OAuthPayload, now: Timestamp) returns (r: Result<User, StoreError>)
      requires Valid()
      modifies this`users, this`nextUserId, this`accounts
      ensures Valid()
      ensures var key := LinkKey(p.provider, p.providerAccountId);
              key in old(accounts) ==>
                var u := old(users)[old(accounts)[key].userId];
                && r == Ok(WithSocialAvatar(u, p.avatarUrl, now))
                && users == old(users)[u.id := r.value]
                && accounts == old(accounts) && nextUserId == old(nextUserId)
      ensures var key := LinkKey(p.provider, p.providerAccountId);
              key !in old(accounts) && Truthy(p.email) && UserWithEmail(old(users), Lower(p.email.value)).Some? ==>
                var u := UserWithEmail(old(users), Lower(p.email.value)).value;
                && r == Ok(WithSocialAvatar(u, p.avatarUrl, now))
                && users == old(users)[u.id := r.value]
                && accounts == old(accounts)[key := LinkTo(p, u.id)] && nextUserId == old(nextUserId)
      ensures var key := LinkKey(p.provider, p.providerAccountId);
              var created := NewOAuthUser(old(nextUserId), p, now);
              key !in old(accounts) && !(Truthy(p.email) && UserWithEmail(old(users), Lower(p.email.value)).Some?) ==>
                if created.email.Some? && UserWithEmail(old(users), created.email.value).Some? then
                  r == Err(UniqueViolation) && users == old(users) && accounts == old(accounts)
                  && nextUserId == old(nextUserId)
                else
                  && r == Ok(WithSocialAvatar(created, p.avatarUrl, now))
                  && users == old(users)[created.id := r.value]
                  && accounts == old(accounts)[key := LinkTo(p, created.id)]
                  && nextUserId == old(nextUserId) + 1
    {
      var key := LinkKey(p.provider, p.providerAccountId);
      if key in accounts {
        r := ApplySocialAvatar(users[accounts[key].userId], p.avatarUrl, now);
        return;
      }
      ghost var users0 := users;
      var found := FindOrCreateForOAuth(p, now);
      if found.Err? {
        return found;
      }
      ghost var users1 := users;
      r := ApplySocialAvatar(found.value, p.avatarUrl, now);
      assert r.value.id == found.value.id;
      assert users == users0[found.value.id := r.value] by {
        if users1 != users0 {
          assert users1 == users0[found.value.id := found.value];
        }
      }
      accounts := accounts[key := LinkTo(p, r.value.id)];
    }

    /** The guarded avatar update `upsertOAuthUser` performs on the user it
        resolved. */
    method ApplySocialAvatar(u: User, avatarUrl: Option<string>, now: Timestamp) returns (r: Result<User, StoreError>)
      requires Valid() && u.id in users && users[u.id] == u
      modifies this`users
      ensures Valid()
      ensures r == Ok(WithSocialAvatar(u, avatarUrl, now)) && users == old(users)[u.id := r.value]
    {
      if SocialAvatarApplies(u, avatarUrl) {
        r := UpdateUser(u.id, AvatarUpdate(u, avatarUrl, Social, now));
      } else {
        assert users[u.id := u] == users;
        r := Ok(u);
      }
    }

    /** The user `upsertOAuthUser` falls back to when no link exists: the
        user with that email if the email is non-empty, otherwise a new one. */
    method FindOrCreateForOAuth(p: OAuthPayload, now: Timestamp) returns (r: Result<User, StoreError>)
      requires Valid()
      modifies this`users, this`nextUserId
      ensures Valid()
      ensures r.Ok? ==> r.value.id in users && users[r.value.id] == r.value
      ensures Truthy(p.email) && UserWithEmail(old(users), Lower(p.email.value)).Some? ==>
                r == Ok(UserWithEmail(old(users), Lower(p.email.value)).value)
                && users == old(users) && nextUserId == old(nextUserId)
      ensures !(Truthy(p.email) && UserWithEmail(old(users), Lower(p.email.value)).Some?) ==>
                var created := NewOAuthUser(old(nextUserId), p, now);
                if created.email.Some? && UserWithEmail(old(users), created.email.value).Some? then
                  r == Err(UniqueViolation) && users == old(users) && nextUserId == old(nextUserId)
                else
                  r == Ok(created) && users == old(users)[created.id := created] && nextUserId == old(nextUserId) + 1
    {
      var user: Option<User> := None;
      if Truthy(p.email) {
        user := FindByEmail(p.email.value);
      }
      if user.Some? {
        return Ok(user.value);
      }
      if p.email.Some? { LowerIdempotent(p.email.value); }
      r := Insert(NewOAuthUser(nextUserId, p, now));
    }
  }

  /** The link row `upsertOAuthUser` creates. */
  function LinkTo(p: OAuthPayload, userId: UserId): OAuthAccount {
    OAuthAccount(userId, p.provider, p.providerAccountId, p.accessToken, p.refreshToken)
  }
}
