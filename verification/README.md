# base-code-nestjs-server, modelled in Dafny

This project models the core of a NestJS starter server in Dafny:

- **Authentication.** Local registration and login, refresh tokens, password reset, email OTP verification, TOTP two-factor authentication and OAuth login.
- **The credential store** behind it: users, one-time tokens, two-factor records and OAuth links.
- **The secret codec.** Token digests, random tokens and OTPs, and the `iv.tag.ciphertext` format of encrypted two-factor secrets.
- **JWT validation**, which builds the request principal.
- **The global exception filter**, the success-envelope interceptor, and the file-upload pipe with its MIME expression.
- **Environment validation** at start-up.
- **Logging.** The logger configuration read from the environment, the winston options built from it, and the routing of queued log jobs.

Each file models one source file:

| Dafny file | models |
|---|---|
| `auth_crypto.dfy` | `src/auth/utils/auth-crypto.ts` |
| `auth_service.dfy` | `src/auth/auth.service.ts` |
| `user_store.dfy` | `src/user/user.service.ts` |
| `jwt_strategy.dfy` | `src/auth/strategies/jwt.strategy.ts` |
| `global_filter.dfy` | `src/common/filter/global/global.filter.ts` |
| `exceptions.dfy` | the exception classes that filter distinguishes |
| `response_transform.dfy` | the response interceptor |
| `file_upload_pipe.dfy` | the upload pipe, with the avatar pipe as an instance |
| `env_validation.dfy` | `src/config/env.validation.ts` |
| `logger_env.dfy` | `src/config/logger.config.ts` |
| `logger_options.dfy` | `src/common/logger/logger.config.ts` |
| `log_writer.dfy` | `src/common/logger/log-writer.service.ts` |

Some files hold support code:

- `wrappers.dfy`: Option and Result.
- `text.dfy`: decimal strings, ASCII lower-casing, split, join and padStart.
- `buffer.dfy`: hex and UTF-8 conversions of Node buffers.
- `auth_types.dfy`: the auth DTO shapes, plus symbolic bcrypt, JWT and TOTP.

The two stateful services are classes that mutate their own fields:

- `UserStore.UserService` holds four tables as `map` fields.
- `Auth.AuthService` holds a reference to the store.

Every method states the whole new state in terms of the old one. Everything else is pure functions and lemmas.

Several foreign primitives are kept symbolic. They are datatypes whose constructors are free, which makes them ideal one-way, collision-free functions:

- SHA-256 (`AuthCrypto.TokenDigest`, `AuthCrypto.DerivedKey`);
- bcrypt (`Bcrypt.PasswordHash`, keyed on the first 72 UTF-8 bytes of the password);
- JWT signing (`Jwt.Token`).

AES-256-GCM is a parameter, `AuthCrypto.Aead`. The lemmas about it assume `AuthCrypto.IdealAead`. Under it, the tag is 16 bytes. Decryption accepts a ciphertext that encryption produced under the same key and nonce, together with any prefix of its tag that has an accepted length: 4, 8, or 12 to 16 bytes. This is what Node's GCM decipher accepts when no `authTagLength` is fixed, as auth-crypto.ts:41-42 creates it. GCM is not key-committing: for any two keys, some pair of messages seals to the same nonce, ciphertext and tag. The wrong-key lemma therefore assumes separation only for the honest payload it decrypts. That hypothesis is `AuthCrypto.SeparatesKeys`: no message under the other key seals to the same output as this secret under this key. GCM meets it for an honestly drawn secret except with negligible probability. `AuthCrypto.IdealAeadSatisfiable` gives a cipher that meets both hypotheses.

The TOTP check is a function parameter of the service. Random bytes, random numbers, TOTP secrets, nonces and the current time are method parameters.

## Model

| member | source | states |
|---|---|---|
| AuthCrypto.DeriveKey | src/auth/utils/auth-crypto.ts:6-8 | the key is the SHA-256 digest of exactly the configured key text |
| AuthCrypto.HashToken | src/auth/utils/auth-crypto.ts:10-12 | the stored digest is the SHA-256 of exactly the token text |
| AuthCrypto.HashTokenInjective | src/auth/utils/auth-crypto.ts:10-12 | two tokens have equal stored digests iff they are equal |
| AuthCrypto.RandomToken | src/auth/utils/auth-crypto.ts:14-16 | the token is lower-case hex, twice as long as the drawn bytes, and decodes back to exactly those bytes |
| AuthCrypto.RandomOtp | src/auth/utils/auth-crypto.ts:18-23 | for lengths up to 21 the OTP is all digits, exactly `length` long (one digit when length is 0), and reads as the drawn number |
| AuthCrypto.EncryptSecret | src/auth/utils/auth-crypto.ts:25-31 | the payload splits on '.' into exactly three fields: the 12-byte nonce in hex, the GCM tag in hex and the hex ciphertext of the UTF-8 secret under the derived key; the first field decodes back to the nonce |
| AuthCrypto.DecryptSecret | src/auth/utils/auth-crypto.ts:33-37 | it throws 'Invalid encrypted payload' iff the payload has fewer than three fields or one of the first three is empty |
| AuthCrypto.EncryptDecryptRoundTrip | src/auth/utils/auth-crypto.ts:25-45 | decrypting with the same key gives back every non-empty secret |
| AuthCrypto.EmptySecretNotRecoverable | src/auth/utils/auth-crypto.ts:25-37 | the empty secret encrypts to a payload that decryption rejects as malformed |
| AuthCrypto.WrongKeyRejected | src/auth/utils/auth-crypto.ts:33-45 | a payload encrypted under one key fails to decrypt under any other key, provided no message under the other key seals to the same output as this secret under this key |
| AuthCrypto.DecryptOnlyGenuine | src/auth/utils/auth-crypto.ts:33-45 | decryption succeeds only when the nonce and ciphertext fields are a genuine seal under this key, and the tag field is a prefix of that seal's tag of an accepted length; it then yields that plaintext |
| AuthCrypto.TruncatedTagAccepted | src/auth/utils/auth-crypto.ts:33-45 | a genuine payload whose tag is cut to 4, 8 or 12 to 15 bytes still decrypts to the secret |
| AuthCrypto.IdealAeadSatisfiable | src/auth/utils/auth-crypto.ts:25-45 | a cipher with 16-byte tags and prefix-accepting decryption exists that separates the given plaintext under one key from every message under another |
| AuthCrypto.ExtraFieldsIgnored | src/auth/utils/auth-crypto.ts:34 | fields after the third are ignored |
| NodeBuffer.HexRoundTrip | src/auth/utils/auth-crypto.ts:30 | hex decoding undoes `toString('hex')` |
| NodeBuffer.Utf8RoundTrip | src/auth/utils/auth-crypto.ts:28 | UTF-8 decoding undoes UTF-8 encoding |
| Bcrypt.Hash | src/auth/auth.service.ts:37-38 | a password matches its own hash, made with the given cost |
| Bcrypt.CompareExact | src/auth/auth.service.ts:232-237 | within 72 UTF-8 bytes, a hash matches exactly the password it was made from |
| Bcrypt.LongPasswordsShareHash | src/auth/auth.service.ts:232-237 | passwords sharing their first 72 UTF-8 bytes match each other's hash |
| Jwt.Sign | src/auth/auth.service.ts:254-266 | a signed token verifies under its secret to exactly its claims |
| Jwt.VerifyNeedsSigningSecret | src/auth/auth.service.ts:63-68 | a token verifies under a secret iff that secret signed it |
| GlobalFilter.CodeForStatus | src/common/filter/global/global.filter.ts:38-45 | 401, 403 and 404 map to UNAUTHORIZED, FORBIDDEN and NOT_FOUND (iff); every other status maps to VALIDATION_ERROR, never to INTERNAL_ERROR |
| GlobalFilter.BodyMessage | src/common/filter/global/global.filter.ts:34-36 | a string response has no message; an object response gives its own |
| GlobalFilter.Catch | src/common/filter/global/global.filter.ts:15-59 | the reply never succeeds and carries the request id and timestamp; an AppException keeps its status, code and message; an HttpException keeps its status, maps its code, and takes the body message when it is truthy, else `exception.message`; anything else is 500 INTERNAL_ERROR 'Internal server error' |
| GlobalFilter.BuiltInReply | src/common/filter/global/global.filter.ts:32-46 | a built-in exception answers with its status, the status's code and its message, or its class's description when the message is empty |
| GlobalFilter.EmptyMessageDescribed | src/common/filter/global/global.filter.ts:32-46 | a bad request or not found thrown with no message reaches the client as 'Bad Request' or 'Not Found' |
| GlobalFilter.AuthErrorCodes | src/common/filter/global/global.filter.ts:38-45 | conflict and bad request both reach the client as VALIDATION_ERROR; unauthorized and not found keep their own codes |
| Exceptions.BuiltIn | src/common/filter/global/global.filter.ts:32-36 | a built-in exception carries its status and its message, or its class's description when the message is empty, in `exception.message` and in a response body of `{ message }` |
| JwtStrategy.Validate | src/auth/strategies/jwt.strategy.ts:23-43 | the principal's id is the token's subject; its roles are the token's roles, or empty; each profile field comes from the stored user when the user has it, else from the token, and from the token alone when no user exists |
| JwtStrategy.IssuedTokenPrincipal | src/auth/strategies/jwt.strategy.ts:23-43 | an access token issued for a stored user validates to that user's stored profile and roles |
| JwtStrategy.RolesFromTokenOnly | src/auth/strategies/jwt.strategy.ts:35-42 | changing the stored roles does not change the principal of a token already issued |
| UserStore.AvatarUpdate | src/user/user.service.ts:139-152 | the URL is stored as given; source and time are set iff the URL is truthy; nothing else changes; the avatar fields stay consistent |
| UserStore.WithSocialAvatar | src/user/user.service.ts:217-230 | a social avatar is applied iff the URL is truthy and the user has no avatar or a social one; otherwise the user is unchanged |
| UserStore.UploadedAvatarKept | src/user/user.service.ts:217-230 | an uploaded or S3 avatar is never replaced by a social one |
| UserStore.MarkUsed | src/user/user.service.ts:94-97 | only `usedAt` changes, and it becomes set |
| UserStore.ConsumeTakesOnlyThatToken | src/user/user.service.ts:75-98 | consuming one token removes exactly that token from every later query's matches |
| UserStore.SecondConsumeFindsNothing | src/user/user.service.ts:75-98 | once its only match is consumed, a token cannot be consumed again, then or later |
| UserStore.FoundByAnyCase | src/user/user.service.ts:13-17 | a user created under an email is found by every spelling that lower-cases to the same text |
| UserStore.UserWithEmail | src/user/user.service.ts:13-17 | finds the user whose email equals the key, and none when no such user exists |
| UserStore.UserService.constructor | src/user/user.service.ts:7 | the store starts empty and valid |
| UserStore.UserService.FindByEmail | src/user/user.service.ts:13-17 | returns the stored user with the lower-cased email, if one exists |
| UserStore.UserService.FindById | src/user/user.service.ts:19-23 | returns the user with that id iff one exists |
| UserStore.UserService.CreateLocalUser | src/user/user.service.ts:25-39 | a taken (lower-cased) email fails with a unique violation and changes nothing; otherwise inserts an ACTIVE, unverified user with the lower-cased email, name and hash under the next id |
| UserStore.UserService.UpdatePassword | src/user/user.service.ts:41-46 | a missing user is RecordNotFound; otherwise only that user's hash changes |
| UserStore.UserService.VerifyEmail | src/user/user.service.ts:48-53 | a missing user is RecordNotFound; otherwise only `emailVerifiedAt` is set to now |
| UserStore.UserService.CreateToken | src/user/user.service.ts:59-73 | an unknown user is a foreign-key violation; otherwise an unused token row is inserted under the next id |
| UserStore.UserService.ConsumeToken | src/user/user.service.ts:75-98 | finds nothing iff no unused, unexpired token matches type, digest and (when given) owner; otherwise marks one match used and changes nothing else |
| UserStore.UserService.SaveTwoFactorSecret | src/user/user.service.ts:104-117 | an upsert that always leaves a pending record (no enabledAt or verifiedAt) with the new secret; it fails only for an unknown user with no record |
| UserStore.UserService.EnableTwoFactor | src/user/user.service.ts:119-126 | a missing record is RecordNotFound; otherwise only `enabledAt` is set |
| UserStore.UserService.DisableTwoFactor | src/user/user.service.ts:128-133 | a missing record is RecordNotFound; otherwise the record is deleted |
| UserStore.UserService.UpdateAvatar | src/user/user.service.ts:139-152 | a missing user is RecordNotFound; otherwise the user becomes `AvatarUpdate` of itself |
| UserStore.UserService.UpsertOAuthUser | src/user/user.service.ts:158-244 | an existing link wins and adds no link; otherwise the user with the same non-empty email, linked; otherwise a new user (a unique violation if the email is taken), linked; the social avatar rule applies to the user found |
| UserStore.UserService.FindOrCreateForOAuth | src/user/user.service.ts:196-215 | the user with the lower-cased email when the email is non-empty and taken, with nothing changed; otherwise a new user under the next id, or a unique violation that changes nothing |
| UserStore.UserService.ApplySocialAvatar | src/user/user.service.ts:217-230 | the user becomes `WithSocialAvatar` of itself and nothing else changes |
| Auth.StoreFailure | src/user/user.service.ts:25-39 | a database error reaches the filter as a non-HTTP error |
| Auth.SanitizeUser | src/auth/auth.service.ts:276-283 | only id, email, name and roles leave the service |
| Auth.IsProduction | src/auth/auth.service.ts:228-230 | production iff `app.env` is exactly 'production' |
| Auth.VerifyPassword | src/auth/auth.service.ts:232-237 | matches iff the password is non-empty and bcrypt-compares equal |
| Auth.IssueTokens | src/auth/auth.service.ts:239-274 | the access token verifies under the access secret to the profile claims, and the refresh token under the refresh secret to the subject alone; Bearer, with the access lifetime |
| Auth.FirstEmail | src/auth/auth.service.ts:186 | the first profile email, when there is one |
| Auth.StoredSecret | src/auth/auth.service.ts:153-157 | the corrected read: a secret is found iff the user exists and has a two-factor record with a non-empty secret, the record that setup writes |
| Auth.SecretAsWritten | src/auth/auth.service.ts:153-157 | the read as written: a secret is found iff the user row's `twoFactorSecretEncrypted` column is non-empty |
| Auth.SetupMissedAsWritten | src/auth/auth.service.ts:153-170 | in every state the store's operations reach, straight after setup stores a secret, the read as written finds none while the corrected read finds that secret |
| Auth.TokenLifetime | src/auth/auth.service.ts:207-221 | a token stored with a lifetime of m minutes can be consumed strictly before m minutes have passed, and not after |
| Auth.AuthService.constructor | src/auth/auth.service.ts:26-30 | the service keeps its store, configuration, cipher and TOTP check |
| Auth.AuthService.VerifyTwoFactorCode | src/auth/auth.service.ts:197-205 | an undecryptable secret throws the decipher's error; otherwise the TOTP check runs with the configured period and digits |
| Auth.AuthService.RegisterLocal | src/auth/auth.service.ts:32-45 | a taken email is a 409 'Email already registered' and changes nothing; otherwise exactly one user, holding the bcrypt hash at the configured cost, is added, and it is returned sanitized |
| Auth.AuthService.ValidateLocalUser | src/auth/auth.service.ts:47-57 | returns the sanitized user iff a user with that email has a password hash that the password matches |
| Auth.AuthService.RefreshTokens | src/auth/auth.service.ts:63-78 | 401 'Invalid refresh token' iff the token does not verify under the refresh secret or its subject is unknown; otherwise fresh tokens for the stored user |
| Auth.AuthService.CreateUserToken | src/auth/auth.service.ts:207-221 | stores only the digest of the token, expiring ttl minutes from now; an unknown user fails and changes nothing |
| Auth.AuthService.ConsumeUserToken | src/auth/auth.service.ts:223-226 | looks up the digest of the presented token and consumes one live match, changing nothing else |
| Auth.AuthService.RequestPasswordReset | src/auth/auth.service.ts:80-93 | an unknown email gets the generic reply and changes nothing; otherwise one reset token is stored as a digest, and the raw token is disclosed only outside production |
| Auth.AuthService.ResetPassword | src/auth/auth.service.ts:95-104 | 400 'Invalid or expired token' iff no live reset token matches, changing nothing; otherwise one match is consumed and its owner's hash replaced |
| Auth.AuthService.RequestEmailOtp | src/auth/auth.service.ts:106-119 | an unknown email gets the generic reply; otherwise a 6-digit OTP is stored as a digest and disclosed only outside production |
| Auth.AuthService.VerifyEmailOtp | src/auth/auth.service.ts:121-132 | 404 for an unknown email; 400 when no live OTP of that user matches; otherwise one is consumed and the email marked verified |
| Auth.AuthService.SetupTwoFactor | src/auth/auth.service.ts:134-151 | 404 for an unknown user; otherwise the key URI (email or id, issuer, period, digits) and the secret are returned, and the secret is stored encrypted in a pending record |
| Auth.AuthService.VerifyTwoFactor | src/auth/auth.service.ts:153-164 | 404 with no stored secret; the decipher error or a 400 on a bad code, changing nothing; otherwise the record is enabled |
| Auth.AuthService.DisableTwoFactor | src/auth/auth.service.ts:166-177 | as VerifyTwoFactor, but a good code deletes the record |
| Auth.LoginPayload | src/auth/auth.service.ts:185-193 | the upsert payload carries the first email, the display name and no avatar, and is keyed by the provider's name and the profile id |
| Auth.AuthService.ValidateOAuthLogin | src/auth/auth.service.ts:179-195 | the payload holds the provider name, the profile id, the first email, the display name and the tokens, with no avatar; an existing link returns its user with the store unchanged; otherwise a user with the same lower-cased non-empty email is linked without being changed; otherwise a new user under the next id is stored and linked, unless its email is taken, when the unique violation changes nothing; the returned user is always the sanitized stored user |
| LoggerEnv.Get | src/config/logger.config.ts:32-71 | a variable is present iff it is set, with its text |
| LoggerEnv.ParseBoolean | src/config/logger.config.ts:3-9 | undefined stays undefined; true iff the text is exactly 'true' |
| LoggerEnv.ParseNumber | src/config/logger.config.ts:11-18 | skips leading white space and a sign, then reads the longest digit prefix; undefined iff there is none |
| LoggerEnv.DecimalPrefixParsed | src/config/logger.config.ts:11-18 | a decimal number followed by non-digits reads as that number |
| LoggerEnv.NegativeParsed | src/config/logger.config.ts:11-18 | a leading minus negates |
| LoggerEnv.NoDigitsUndefined | src/config/logger.config.ts:11-18 | text not starting with a digit, a sign or white space is undefined |
| LoggerEnv.ResolveFileEnabled | src/config/logger.config.ts:20-29 | an explicit per-file value wins, even false; else the master flag |
| LoggerEnv.FileFromEnv | src/config/logger.config.ts:44-71 | each file's flag falls back to LOG_FILE_ENABLED; only the app file's name falls back to LOG_FILE_NAME |
| LoggerEnv.LoggerConfig | src/config/logger.config.ts:31-73 | every field is read from its environment variable: the level, directory and common name as text, the flags with ParseBoolean, the size and count with ParseNumber, and each file's settings as FileFromEnv says |
| LoggerOptions.FiltersCoverEveryRecord | src/common/logger/logger.config.ts:10-16 | the app file takes exactly the records no other file takes, so some file takes every record |
| LoggerOptions.Level | src/common/logger/logger.config.ts:55-62 | the configured level, else 'info' in production and 'debug' elsewhere |
| LoggerOptions.JsonEnabled | src/common/logger/logger.config.ts:64-65 | JSON output is as configured, else on exactly in production |
| LoggerOptions.ConsoleEnabled | src/common/logger/logger.config.ts:67-68 | the console is as configured, else on |
| LoggerOptions.Colorize | src/common/logger/logger.config.ts:69-70 | colours are as configured, else on exactly outside production |
| LoggerOptions.FileEnabled | src/common/logger/logger.config.ts:72-99 | a file's own flag wins; without one, the file is on iff the master flag is explicitly true |
| LoggerOptions.FileName | src/common/logger/logger.config.ts:83-101 | the app file name falls back to the common name and then 'app.log'; the others are their configured name, else 'error.log', 'access.log' and 'audit.log' |
| LoggerOptions.CreateLoggerOptions | src/common/logger/logger.config.ts:55-218 | the options carry the resolved level, the service and env metadata, and exactly the transport list pushed in turn, with the fallback console |
| LoggerOptions.TransportsNonEmpty | src/common/logger/logger.config.ts:203-209 | the list is never empty, and an enabled console comes first |
| LoggerOptions.TransportsOrdered | src/common/logger/logger.config.ts:105-201 | transports appear in the order console, app, error, access, audit, each at most once |
| LoggerOptions.FileTransportIffEnabled | src/common/logger/logger.config.ts:126-201 | a file's transport is present iff that file is enabled |
| LoggerOptions.FileTransportsConfigured | src/common/logger/logger.config.ts:126-201 | every file transport present carries its file's directory, name, size and count |
| LoggerOptions.FallbackOnlyWhenNothingEnabled | src/common/logger/logger.config.ts:203-209 | the fallback pretty console appears exactly when console and all files are off |
| LoggerOptions.MasterFlagDefaultsOff | src/common/logger/logger.config.ts:72-101 | with no file flags set, no file is enabled |
| LoggerOptions.PlainLine | src/common/logger/logger.config.ts:25-45 | without context, metadata or trace the line is time, level and message |
| LoggerOptions.ContextAfterLevel | src/common/logger/logger.config.ts:25-45 | a context appears as ' [context]' right after the level |
| LoggerOptions.TraceEndsLine | src/common/logger/logger.config.ts:25-45 | a truthy trace ends the line, on its own line |
| LoggerOptions.EmptyTraceHidesStack | src/common/logger/logger.config.ts:25-45 | an empty trace hides the stack, as if neither were present |
| LogWriter.BaseMessage | src/common/logger/log-writer.service.ts:22 | without meta the message is the plain string; with meta it is an object of the meta keys plus 'message', where meta values win |
| LogWriter.FatalMessage | src/common/logger/log-writer.service.ts:39-52 | the record holds message, level 'fatal' and the meta, where meta values win, plus the trace when it is truthy |
| LogWriter.Write | src/common/logger/log-writer.service.ts:9-55 | access and audit jobs go to their own methods with message, meta and context; untyped warn, debug and error jobs go to warn, debug and error (iff); fatal goes to `log` with the fatal record; info or no level goes to `log` |
| LogWriter.TypeBeforeLevel | src/common/logger/log-writer.service.ts:12-20 | a typed job is routed the same whatever its level |
| LogWriter.FatalLoggedAsRecord | src/common/logger/log-writer.service.ts:39-52 | a fatal job never reaches `error`; its record reads level 'fatal' when it has no meta |
| ResponseTransform.WithMetaShape | src/common/interceptor/response-transform/response-transform.interceptor.ts:19-26 | only an object with a 'payload' key and at most two keys is unwrapped |
| ResponseTransform.BaseMeta | src/common/interceptor/response-transform/response-transform.interceptor.ts:63-70 | the meta holds the request id (possibly undefined) and the timestamp |
| ResponseTransform.Wrap | src/common/interceptor/response-transform/response-transform.interceptor.ts:49-70 | success is true; a `{ payload, meta }` value gives its payload, with its object meta laid over the base meta; any other value is wrapped as is, with the base meta |
| ResponseTransform.Intercept | src/common/interceptor/response-transform/response-transform.interceptor.ts:37-44 | the value passes through untouched iff the handler skips the transform; otherwise the reply is the success envelope `Wrap` builds, carrying the request id and timestamp keys |
| ResponseTransform.PayloadUnwrapped | src/common/interceptor/response-transform/response-transform.interceptor.ts:51-61 | `{ payload, meta }` unwraps to its payload, with meta laid over the base meta |
| ResponseTransform.CallerMetaOverrides | src/common/interceptor/response-transform/response-transform.interceptor.ts:51-61 | a caller's timestamp replaces the generated one |
| ResponseTransform.SecondKeyDropped | src/common/interceptor/response-transform/response-transform.interceptor.ts:19-61 | a payload with a second key other than meta is unwrapped, and that key is lost |
| ResponseTransform.LargeObjectsWrappedWhole | src/common/interceptor/response-transform/response-transform.interceptor.ts:63-70 | an object with three or more keys is wrapped whole |
| FileUpload.EscapeRegex | src/common/pipe/upload/file-upload.pipe.ts:20 | escaping at most doubles the length and never shortens |
| FileUpload.EscapedPrefix | src/common/pipe/upload/file-upload.pipe.ts:20 | an escaped string reads back as itself, glued to the first alternative of what follows it |
| FileUpload.PlainUnescaped | src/common/pipe/upload/file-upload.pipe.ts:20 | a string with no special character is its own escape |
| FileUpload.MimeAlternativesRoundTrip | src/common/pipe/upload/file-upload.pipe.ts:20-23 | the escaped types joined with '\|' read back as exactly the types, whatever characters they contain |
| FileUpload.BuildMimeRegex | src/common/pipe/upload/file-upload.pipe.ts:22-23 | the expression is case-insensitive and anchored by '^(' and ')$' |
| FileUpload.MimeRegexListsTypes | src/common/pipe/upload/file-upload.pipe.ts:22-23 | between the anchors the expression lists exactly the given types, in order |
| FileUpload.ValidatorChoice | src/common/pipe/upload/file-upload.pipe.ts:30-41 | the size check (default 20 MiB) comes first; an explicit pattern wins over the MIME list; an empty or absent list adds no type check |
| FileUpload.ValidationFailure | src/common/pipe/upload/file-upload.pipe.ts:46-47 | a failure becomes a 400 VALIDATION_ERROR application exception carrying the message |
| FileUpload.RejectedUploadReply | src/common/pipe/upload/file-upload.pipe.ts:46-47 | a rejected upload reaches the client as 400 VALIDATION_ERROR with the library's message |
| FileUpload.FileUploadPipe.constructor | src/common/pipe/upload/file-upload.pipe.ts:29-49 | the pipe holds the validators ValidatorsFor assembles, and a file is required unless the options say otherwise |
| FileUpload.AvatarValidators | src/common/pipe/upload/avatar-file.pipe.ts:8-14 | the avatar pipe checks 2 MiB, then a case-insensitive expression whose alternatives are exactly the four image types |
| EnvValidation.FailedChecks | src/config/env.validation.ts:194-197 | a decorator is listed iff it is declared and fails; none iff all hold |
| EnvValidation.Violations | src/config/env.validation.ts:194-195 | no errors iff every rule holds (an absent optional property skips its checks); every error lists at least one failed decorator |
| EnvValidation.FailingRuleReported | src/config/env.validation.ts:194 | every failing property is reported, with the decorators it failed |
| EnvValidation.ReportedRuleFails | src/config/env.validation.ts:194 | only failing properties are reported |
| EnvValidation.Validate | src/config/env.validation.ts:190-202 | returns the configuration iff it is valid; otherwise throws 'Config validation error: ' followed by the messages, joined with ', ' within a property and '; ' across properties |
| EnvValidation.ValidNodeEnv | src/config/env.validation.ts:14-26 | a valid NODE_ENV is development, test or production |
| EnvValidation.ValidPorts | src/config/env.validation.ts:28-175 | APP_PORT, POSTGRES_PORT and SMTP_PORT are required integers in [1, 65535], as is REDIS_PORT when set |
| EnvValidation.ValidRoundsAndLifetimes | src/config/env.validation.ts:163-187 | BCRYPT_ROUNDS is an integer in [4, 16]; each token lifetime, when set, is in [1, 1440] minutes |
| EnvValidation.ValidCounts | src/config/env.validation.ts:65-128 | REDIS_DB, when set, is a non-negative integer; the log file size and count, when set, are at least 1 |
| EnvValidation.ValidSecretsAndNames | src/config/env.validation.ts:24-170 | names, URLs, database settings and the JWT and two-factor secrets are non-empty strings |

## Left out

- SHA-256, bcrypt, JWT signing and expiry, otplib and AES-256-GCM are not computed. They are symbolic datatypes or parameters, as described above.
  - The bcrypt salt, its cyclic key schedule and its NUL-byte handling are not modelled.
  - The signing library's rejection of an empty secret is not modelled.
- Randomness and the clock (`randomBytes`, `Math.random`, `new Date()`) are inputs. Database ids are natural numbers handed out in order.
- The database is four in-memory tables. The following are left out:
  - atomicity and concurrent requests;
  - Prisma's generated SQL;
  - schema defaults other than `status` and empty `roles`, which are assumed.
- The Prisma schema is not part of this model. `verifiedAt` of a two-factor record is never set by the code, and stays unset.
- UserStore.UserService.ConsumeToken: when several live tokens match, which one `findFirst` returns is left open. Every lemma holds for any choice.
- Auth.StoredSecret: Auth.AuthService.VerifyTwoFactor and Auth.AuthService.DisableTwoFactor read the secret from the user's two-factor record, where the code reads the user row's `twoFactorSecretEncrypted` column (auth.service.ts:155,168). No operation writes that column, so the code as written answers 404 after every setup. The model keeps the column and the read as written (Auth.SecretAsWritten), and its services use the corrected read; see "## Findings".
- Auth.AuthService.SetupTwoFactor: a second setup resets an enabled record to pending without asking for a code, as the upsert does.
- Auth.AuthService.RefreshTokens:
  - Token expiry is not checked.
  - An access token also refreshes when both secrets are equal, because the refresh path checks nothing but the signature.
- Auth.AuthService.ValidateOAuthLogin: an OAuth email of "" is stored as "", so a second such user fails on the unique index.
- `loginUser` (auth.service.ts:59-61) is `issueTokens` and is covered by Auth.IssueTokens.
- `authenticator.options` is process-wide state. The model passes period and digits to each check instead.
- StoreFailure's message texts are the model's own; Prisma's error texts are not modelled.
- AuthCrypto.DecryptFields: every decipher failure carries one message. Node's different texts for a bad nonce length, a bad tag length and a failed authentication are not modelled; the filter shows all of them as 500 'Internal server error'.
- AuthCrypto.RandomOtp: lengths above 21 are not modelled. From 10^21 on JavaScript prints the drawn number in exponent form (and 10^309 overflows to `Infinity`), so the padded string is not all digits. The service uses length 6.
- Text.Lower is `toLowerCase` on ASCII letters only. Other scripts are not case-folded.
- Controllers, guards, modules, DTOs and the passport strategies other than JWT are framework wiring and are not modelled.
- The logging services other than the writer are not modelled: the producer, the queue, the processor and the middleware.
- The other configuration factories are not modelled.
- Logging I/O is not modelled: winston transports, file rotation, `mkdirSync` of the log directory, ANSI colours and timestamp formatting.
- The key order of JSON objects is not modelled:
  - metadata JSON text in the pretty line;
  - the order of spread keys in log records;
  - the order of envelope keys.
- ResponseTransform.Wrap:
  - A non-object `meta` (a string or an array) is modelled as spreading no keys.
  - A `payload` found only on the prototype chain is not modelled.
- LogWriter.Write: its level-to-call direction holds one way only, because an info job whose metadata sets `level: 'fatal'` produces the same call as a fatal job.
- FileUpload.FileUploadPipe.constructor: `ParseFilePipe.transform`, the validators' own checks and regular-expression matching are library behaviour. They are not modelled.
- EnvValidation.Validate:
  - class-transformer's implicit conversion is not modelled. The rules are checked against typed values; for example `Boolean('false')` would be true.
  - The constraint message of each decorator is a parameter, because its text is library-defined.
  - Within one property the messages follow the order in which the decorators are listed; the library's own ordering of a property's constraints is not modelled.
- Floating-point numbers are modelled as integers (`Num`) or, in the environment validation, as reals.

## Findings

| source | as written | input that shows it | evidently intended | confidence | as-written member | corrected member |
|---|---|---|---|---|---|---|
| src/auth/auth.service.ts:153-170 | `verifyTwoFactor` and `disableTwoFactor` look for the secret in the user row's `twoFactorSecretEncrypted` column, which no operation writes; `setupTwoFactor` stores it only in the two-factor record (src/user/user.service.ts:104-117) | any existing user: `setupTwoFactor(id)`, then `verifyTwoFactor(id, code)` with a valid code answers 404 'Two-factor not configured' | read the secret from the user's two-factor record | high (not executed) | Auth.SetupMissedAsWritten | Auth.StoredSecret |
