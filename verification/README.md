# API access grants: a Dafny model of `access.go`

This project models the API-access core of the `access` package. That core has five parts:

- A registry of API keys in two buckets. `__apiPending` holds keys that are reserved but not confirmed. `__apiAccess` maps each key to its grant record: email, password hash and salt.
- The exported operations on that registry: `Check`, `Pending`, `ClearPending`, `ClearGrant`, `Grant`, `Login`, and the internal `updateGrant`.
- The claim builder `APIAccess.setToken`. It signs the claims `exp` and `access` plus any custom claims. It writes the token to the response as an `Authorization: Bearer` header or as the `_apiAccessToken` cookie.
- The request side: `getToken`, `IsGranted` and `IsOwner`.
- The admission condition of the `GateKeeper` middleware, with `trimPortFromAddress`.

Modules:

- `AccessTypes` (`types.dfy`): the shared types. These are the error returns, the grant record, the transports (`Header | Cookie | Other`, the dynamic type of `Config.TokenStore`) and claim values.
- `Registry` (`registry.dfy`): the two buckets as a value `Buckets(pending, active)`. Each bucket transaction is a pure step function, with lemmas about sequences of steps.
- `Access` (`access.dfy`): class `Store`, holding the buckets as fields. Its methods make the updates in place, and each is proved to agree with its `Registry` step. `Pending` and `ClearPending` may modify only `pending`, and `ClearGrant` only `active`. `Login` may not modify the store at all.
- `Issue` (`issue.dfy`): token issuance. `MergeClaims` is the loop over the custom claims, in the map's unspecified order. `APIAccess.SetToken` sets the token field and writes to a `ResponseWriter` that records every header and cookie added to it.
- `Tokens` (`tokens.dfy`): reading the token back, the ownership check, `trimPortFromAddress` and the gate condition.

The model follows the code as written where it does less than its comments say:

- `Check` ignores the active bucket.
- `Pending` never looks at the active bucket.
- `Grant` succeeds even when an existing grant rejects the password.
- `Grant` and `Login` write the signed token to the response before they look at the buckets. A `Login` that then fails has still added a `Bearer` header or cookie carrying a token signed for the key to the response.

Collaborators the core calls but does not define are parameters:

- `user.New` becomes `derive`, `user.IsUser` becomes `verify`, and `jwt.New` becomes `sign`.
- `jwt.Passes` and `jwt.GetClaims` are the `Jwt` parameter.
- The current time is a parameter, in nanoseconds. The `exp` claim is in seconds, as `time.Time.Unix` gives it.
- `user.IsValid` is a parameter of type `Request -> bool`, so it sees the request's cookies; the configured `bind_addr` is a string parameter.

## Model

| member | source | states |
|---|---|---|
| `Registry.Check` | access.go:170-206 | Passes exactly when the key is non-empty and not pending; the active bucket plays no part, because the result of its lookup is overwritten |
| `Registry.Pending` | access.go:209-232 | Empty key fails with EmptyKey; a pending key fails with AlreadyPending and nothing changes; otherwise exactly the key is added to pending and active is untouched |
| `Registry.ClearPending` | access.go:235-258 | Empty key fails and nothing changes; otherwise succeeds whether or not the key was pending, the key is no longer pending, no other key's membership changes and active is untouched |
| `Registry.ClearGrant` | access.go:261-284 | Empty key fails and nothing changes; otherwise succeeds whether or not the key was active, the key is no longer active, every other grant keeps its record and pending is untouched |
| `Registry.UpdateGrant` | access.go:319-348 | Passes exactly when the key holds a grant whose record accepts the password; a missing grant fails to decode; a rejected password is Unauthorized |
| `Registry.GrantCommit` | access.go:77-109 | Always passes; the key leaves pending and is active afterwards; its record becomes the freshly derived one when the key was not active or the stored record accepts the password, and is kept otherwise |
| `Registry.LoginLookup` | access.go:145-160 | Passes exactly when the key holds a grant that accepts the password; an unknown key is NotAuthorized; a rejected password is UpdateFailed(Unauthorized) |
| `Registry.ClearPendingIdempotent` | access.go:240-251 | Clearing a pending key twice gives the same outcome and buckets as clearing it once |
| `Registry.ClearGrantIdempotent` | access.go:266-277 | Clearing a grant twice gives the same outcome and buckets as clearing it once |
| `Registry.PendingTwiceFails` | access.go:220-224 | A second reservation of the same non-empty key fails with AlreadyPending and changes nothing |
| `Registry.CheckAndPendingIgnoreActive` | access.go:175-224 | The outcomes of Check and Pending are the same whatever the active bucket holds |
| `Registry.ClearsAndGrantKeepDisjoint` | access.go:98-109 | ClearPending, ClearGrant and Grant's transactions keep the pending and active key sets disjoint |
| `Registry.GrantReplacesOnlyVerified` | access.go:83-95 | If Grant changes an existing key's record, the stored record accepted the password |
| `Registry.ReserveThenGrant` | access.go:52-116 | Reserving a fresh key and then granting it leaves the key active with the new record and no longer pending |
| `Registry.RevokeThenCheck` | access.go:261-284 | After a grant and a ClearGrant of the same key, the as-written Check passes. It passes even before the revocation, because it reads only the pending bucket |
| `Registry.RevokeThenCheckIntended` | access.go:261-284 | With the intended Check, a granted key fails with ActiveInUse, and after ClearGrant of that key it passes again |
| `Registry.LoginUnknownKey` | access.go:151-159 | Login's lookup on a key without a grant fails with NotAuthorized for every password |
| `Registry.CheckThenPendingBreaksDisjoint` | access.go:175-199 | For every non-empty key that is active and not pending, Check passes and Pending succeeds, leaving the key in both buckets |
| `Registry.CheckIntended` | access.go:169-199 | Passes exactly when the key is non-empty, not pending and not active; an active key fails with ActiveInUse |
| `Registry.CheckIntendedThenPendingKeepsDisjoint` | access.go:208-232 | When the intended Check passes on disjoint buckets, Pending succeeds and the buckets stay disjoint |
| `Registry.GrantOverwritesDenial` | access.go:77-98 | A Grant over an existing key whose record rejects the password passes and leaves active unchanged |
| `Registry.GrantCommitIntended` | access.go:49-113 | Passes exactly when the key was not active or its record accepts the password; on success the record is stored and the key leaves pending; on failure nothing changes and the update error is returned |
| `Registry.GrantIntendedFailsOnDenial` | access.go:83-87 | With the intended transactions, a rejected password returns UpdateFailed(Unauthorized) and leaves both buckets as they were |
| `Access.Store.Check` | access.go:170-206 | Runs both lookups in order and returns the outcome of Registry.Check without changing the store |
| `Access.Store.Pending` | access.go:209-232 | May modify only pending; its outcome and new buckets are those of Registry.Pending |
| `Access.Store.ClearPending` | access.go:235-258 | May modify only pending; its outcome and new buckets are those of Registry.ClearPending |
| `Access.Store.ClearGrant` | access.go:261-284 | May modify only active; its outcome and new buckets are those of Registry.ClearGrant |
| `Access.Store.UpdateGrant` | access.go:319-348 | Read-only; returns Registry.UpdateGrant of the current buckets |
| `Access.Store.Grant` | access.go:52-116 | Empty key, empty password, failed derivation or failed setToken return an error with both buckets unchanged. Past derivation, a colliding custom claim returns a ClaimCollision naming a custom claim that is `exp` or `access`, a signing failure returns SignFailed, and an unrecognised transport returns UnrecognizedTokenStore. Otherwise it returns a fresh grant carrying the key, the derived hash and salt and the signed token, and the buckets become Registry.GrantCommit of the old ones. The response gets exactly what setToken writes |
| `Access.Store.Login` | access.go:120-167 | Never modifies the buckets. It rejects empty inputs and failed derivation. Past derivation, a colliding custom claim returns a ClaimCollision naming a custom claim that is `exp` or `access`, a signing failure returns SignFailed, and an unrecognised transport returns UnrecognizedTokenStore. Otherwise it succeeds exactly when Registry.LoginLookup passes and returns that lookup's error when it fails. On success the grant carries the key, the derived hash and salt and the signed token. setToken's output is written to the response whether or not the lookup then passes |
| `Access.FailedLoginStillIssues` | access.go:140-160 | When Login gets past issuance and the lookup then fails, the response still carries exactly one signed token. Its `access` claim is the key, and getToken reads it back from the client's next request |
| `Access.FailedLoginWritesToken` | access.go:140-160 | Running Login on a store whose lookup fails, once past issuance: Login returns the lookup's error, yet the response has gained exactly one emission, and getToken on the client's next request carrying it yields the token signed for the key |
| `Access.Store.LoginIntended` | access.go:118-167 | Login with the lookup first. A failed lookup returns its error and writes nothing. A passing lookup succeeds exactly when setToken does, and only then is the token written |
| `Issue.BaseClaims` | access.go:370-374 | The internal claims are exactly `exp`, the expiry in whole seconds, and `access`, the key |
| `Issue.TokenClaims` | access.go:370-385 | The signed claims are exactly the custom claims plus `access` = the key and `exp` = issue time + ExpireAfter in seconds |
| `Issue.MergeClaims` | access.go:376-385 | Fails exactly when a custom claim name is already an internal claim, and names such a claim; otherwise the result is the internal claims together with every custom claim |
| `Issue.APIAccess.constructor` | access.go:66-70 | A new grant holds the derived key, hash and salt and no token |
| `Issue.APIAccess.SetToken` | access.go:369-413 | Succeeds exactly when the claims do not collide, signing works and the transport is a header or a cookie. On a collision or a signing failure the token is unchanged and nothing is written. With an unrecognised transport the token is set and an error is returned. The response gets exactly the issued emission |
| `Issue.ResponseWriter.AddHeader` | access.go:396 | The response gains exactly one header line, appended after what was already written |
| `Issue.ResponseWriter.SetCookie` | access.go:399-406 | The response gains exactly one Set-Cookie line, appended after what was already written |
| `Issue.IssuedTokenReadsBack` | access.go:392-406 | On success exactly one header or cookie is written. getToken with the same transport reads back the signed token. The cookie is HttpOnly, its Secure flag follows SecureCookie, and it expires in the same second as the `exp` claim |
| `Issue.CollisionWritesNothing` | access.go:376-382 | A custom `exp` or `access` claim means setToken does not succeed and writes nothing |
| `Tokens.TrimPrefix` | access.go:362 | Removes one leading `Bearer ` when present, and leaves the value unchanged otherwise |
| `Tokens.GetToken` | access.go:350-367 | Header mode never fails and returns the Authorization value with one `Bearer ` prefix removed (an empty header gives ""). Cookie mode fails with NoCookie exactly when the `_apiAccessToken` cookie is missing, and otherwise returns its value. Any other store fails |
| `Tokens.IsGranted` | access.go:286-296 | With the header transport: the bearer-stripped Authorization value passes. With the cookie transport: the access cookie is present and its value passes. Any other transport is never granted |
| `Tokens.IsOwner` | access.go:298-317 | Ownership implies a grant and an `access` claim equal to the key. Any other transport is never an owner |
| `Tokens.NoTokenNoAccess` | access.go:288-305 | When getToken fails, neither IsGranted nor IsOwner holds |
| `Tokens.OwnerIffGrantedAndClaimMatches` | access.go:300-317 | IsOwner holds exactly when IsGranted holds and the token's `access` claim equals the key as a string, case included |
| `Tokens.OwnerIsUnique` | access.go:311-314 | A request's token owns at most one key |
| `Tokens.IndexOf` | access.go:433 | Returns -1 exactly when the character is absent, and otherwise its first position |
| `Tokens.TrimPortFromAddress` | access.go:432-437 | The result has no `:` and is a prefix of the address. It is the whole address when there is no `:`, and otherwise stops just before the first `:` |
| `Tokens.TrimPortIdempotent` | access.go:432-437 | Trimming twice gives the same result as trimming once |
| `Tokens.TrimPortAtFirstColon` | access.go:433-434 | When position i holds the first `:`, the trimmed address is the first i characters |
| `Tokens.Admit` | access.go:418 | A request is admitted exactly when its bearer-stripped header token passes, or the session check accepts the request, or the host part of its remote address equals the bind address |
| `Tokens.DenyMeansNoGround` | access.go:418-422 | A request is refused only when the header token fails, the session check rejects the request and the host part differs from the bind address |
| `Tokens.GateCookiesOnlyThroughSession` | access.go:418 | The token ground reads no cookie: replacing the cookies never changes IsGranted with the header transport. So with the session check's result held fixed, the request's cookies do not change the gate's decision |
| `Tokens.TrustedOriginAdmitted` | access.go:418 | A request from 127.0.0.1:9000 with no token is admitted when the bind address is 127.0.0.1, whatever the session check says |

## Left out

- Bolt transactions, bucket creation in `init` and the missing-bucket errors: the buckets are two fields that always exist, and each transaction is one step.
- JSON encoding of the stored record: the model hands `verify` the record as it was stored. The source stores a `user.User` (access.go:90) and decodes it as an `APIAccess` (access.go:329), and the two may not agree on field names. That cannot be checked because the `user` package is not part of this model.
- `user.New` and `user.IsUser` are the `derive` and `verify` parameters. The derived record's email is taken to be the key, and the random salt is folded into `derive`.
- `jwt.New`, `jwt.Passes` and `jwt.GetClaims` are parameters. Token expiry is checked only inside `jwt.Passes`.
- Custom claim values are numbers, strings or booleans. Other JSON values are not modelled.
- `time.Now()` is a parameter. The 64-bit overflow of Go's time and duration arithmetic is not modelled.
- `Tokens.IsOwner`: the type assertion at access.go:312 panics when the `access` claim is missing or not a string. The model returns `false` there, because the request then gets no access.
- The `.(string)` assertion on the `bind_addr` setting at access.go:418 is not modelled: the bind address is a string parameter.
- Logging, the debugging print at access.go:328, and the reflective request dump at access.go:423-427 are not modelled.
- `Tokens.Admit` models only the gate's decision. Calling the next handler and writing the 401 response (access.go:419-422) are left out.
- Only the first `Authorization` header value is read, as `Header.Get` does. Header-name canonicalisation is not modelled.
- Go strings are bytes. The model uses characters, which gives the same result for the cut at `:` because `:` is a one-byte character.
- Concurrency is not modelled: the model is sequential. This leaves out the race between `Check` and `Pending`, and also `updateGrant` opening a read transaction inside `Grant`'s and `Login`'s write transactions.

## Findings

| source | as written | input that shows it | evidently intended | confidence | as-written member | corrected member |
|---|---|---|---|---|---|---|
| access.go:175-188 | The active-bucket error assigned at line 175 is overwritten at line 188, so `Check` passes for a key that already holds a grant | active = {"a@x.com": record}, pending = {}: `Check("a@x.com")` passes, and a following `Pending("a@x.com")` leaves the key both active and pending | `Check` fails for a key in either bucket, as the doc comment at access.go:169 says | high; not executed | `Registry.CheckThenPendingBreaksDisjoint` | `Registry.CheckIntended` |
| access.go:77-98 | The error of the first update transaction is overwritten at line 98, so `Grant` over an existing key with a wrong password returns success. It also returns the token it has already signed with `access` = that key | active = {k: record} with `verify(record, pw)` false: `Grant(k, pw)` returns the grant and leaves the stored record unchanged | `Grant` fails when the existing grant rejects the password, as the doc comment at access.go:49-51 says | high; not executed | `Registry.GrantOverwritesDenial` | `Registry.GrantCommitIntended` |
| access.go:140-160 | `Login` calls setToken at line 140, which signs a token for the key and writes it to the response, before the lookup at lines 145-160 checks the password | active = {k: record} with `verify(record, pw)` false, header transport: `Login(k, pw)` returns an error, but the response already carries `Authorization: Bearer <token>` whose `access` claim is k | `Login` writes a token only after the key is found and the password accepted, as the doc comment at access.go:118-119 says | medium; not executed | `Access.FailedLoginWritesToken` | `Access.Store.LoginIntended` |

`Access.Store.Grant`, `Access.Store.Check` and `Access.Store.Login` model the code as written; `Access.Store.LoginIntended` is the corrected Login. The corrected Check and Grant transactions and their proved properties are in `Registry`: `CheckIntendedThenPendingKeepsDisjoint` and `GrantIntendedFailsOnDenial`.
