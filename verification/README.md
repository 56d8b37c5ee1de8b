# Verified model of the microservices' core logic

This project models the parts of the platform in which state outlives a single call, and proves what holds over
every run of them:

- **Authorization server** (`auth-service`): the OAuth2 grant flows over four tables and a client cache. A request
  is a small-step machine (`OAuthFlow.Advance`): between two phases it has awaited one database statement, reads go
  to a snapshot and writes to the current tables. The same step function is run in two ways. `AtomicRuns` serves
  requests one at a time with up-to-date reads; `Interleaving` lets any number of requests interleave between steps,
  lets every read see any earlier version of the tables, and lets a request stop anywhere. `LoneRequests` proves
  that the first kind of run is a special case of the second. `Redemptions`, `ReplicaLag`, `Overlaps`,
  `RevocationRaces`, `InterleavedFailures`, `Lifetimes` and `LifetimesAttained` say what overlapping requests can and
  cannot do. A ledger records everything ever issued and where it
  came from; the service never reads it. The class `OAuthService` is the service in its own shape, each method
  proved to do what the machine does and to keep the cache in agreement with the client table.
- **User service** (`user-service`, `shared/src/cache.rs`): cache-aside reads and writes over one table, again one
  step function (`UserFlow.Advance`), a class proved against it, a refinement to a plain map without a cache
  (`UserRefinement`), and a timed model of interleaved requests, a lagging replica and an unreliable Redis in which
  the age of every answer is bounded, tightly (`Staleness`).
- **Event consumer** (`user-service/src/kafka.rs`): per-partition logs, asynchronous commits that may be applied
  late, repeatedly, out of order or never, crashes and restarts (`Consumer`), and the loop itself (`ConsumerLoop`).
- **Migration script** (`scripts/migrate-auth-dev.sh`): the loop over migration files, cut off before any of its
  database operations, any number of times (`Migrations`).
- **Postman generator** (`postman/generator/src/main.rs`): substitution of path parameters in the order of a hash
  map (`PostmanPaths`), and the emitted test scripts, judged by their text (`PostmanScripts`, `PostmanBranches`).

Hashing, JWT encoding and the PKCE digest are function-valued fields of `TokenService.Config` about which nothing is
assumed, except where a lemma says so: `EncodeTotal` (encoding does not fail) and `DecodesWhatWasEncoded` (a token
that decodes under its own secret yields the claims put in). Clocks, random strings and database-chosen ids are
inputs of each step; fresh tokens have never been issued before. A call to Redis may fail without its caller
noticing. A Redis entry is still readable at the instant it expires and gone after it.

Results that differ from what one might expect of the code:

- A client stored in the cache never decodes again, because its secret hash is skipped when it is written and
  required when it is read (`OAuthService.StoredClientNeverDecodes`). Every method of `OAuthService` keeps it so that
  nothing in the cache decodes (`NothingDecodes`), and so every client lookup goes to the database, although the log
  lines of `find_client_cached` speak of cache hits.
- Exchanges of one authorization code that overlap can all succeed, and so can rotations of one refresh token
  (`Overlaps.OverlappingRequestsBothMint`), because a request goes on whatever the number of rows its mark or deletion
  changed. As long as JWT encoding does not fail, in every run on one database the tokens minted from a code or refresh
  token are exactly one for each request that found it and ran to its end (`Redemptions.RedemptionsAreFinishers`), and
  all of those found it before it was first spent (`Redemptions.InterleavedExchanges`).
- A revocation does not reach requests that overlap with it: what they had found before the deletion they still turn
  into tokens (`RevocationRaces.RevocationMisses`). After a deletion nothing of the code is ever issued again if and
  only if no request holds the code or a token of it and no sibling token is in place
  (`RevocationRaces.RevocationAmongOverlaps`).
- `revoke` does not ask whether the token belongs to the client that revokes it
  (`Revocation.ForeignRevocationIff`).
- The staleness bound of 300 s plus write delay plus replica lag is attained (`Staleness.BoundIsAttained`), and a
  lost write to Redis after an update is visible at once (`UserRefinement.LostWriteShows`). Which lost calls leave
  something stale behind is decided exactly by `UserRefinement.LossIsHarmless`.
- An event whose consumer is stopped k times before it commits can insert k + 1 profiles
  (`Consumer.DuplicatesAttained`); the table has no unique key on the address. A late commit of an earlier start can
  also make a restart pass over events; those had been handled before (`Consumer.ExactHandlings`,
  `Consumer.AtLeastOnce`).
- Recovery of the migration script covers tables, not indexes: a run cut off between the two statements of a file
  loses the index for good (`Migrations.IndexLostIff`), and without `ADOPT_EXISTING=1` a run cut off between the
  creation of a table and its record blocks every later one (`Migrations.WithoutAdoptionIff`).
- Path substitution depends on the order of the map exactly when the value of a placeholder is the variable of another
  parameter (`PostmanPaths.OrderShowsIff`); a value that is its own parameter's variable does no harm.
- The generator panics on an empty list of accepted statuses; `PostmanScripts.Script` is None there.

`dafny verify dfyconfig.toml` checks the whole project.

## Model

| member | source | states |
|---|---|---|
| OAuthService.OAuthService.FindClientCached | auth-service/src/services/oauth_service.rs:26-50 | For any cache that agrees with the table where it decodes, after any evictions and with any Redis call failing, the lookup returns exactly what the client table holds, secret hash included; and as long as nothing in the cache decodes, nothing ever will |
| OAuthService.StoredClientNeverDecodes | auth-service/src/models/oauth_client.rs:4-14 | A serialized client lacks the secret hash and does not deserialize |
| OAuthService.HashIsAllThatIsMissing | auth-service/src/models/oauth_client.rs:4-14 | With the hash put back it would decode to the same client |
| OAuthService.ClientKeysAreDistinct | auth-service/src/cache.rs:41-43 | Different clients have different cache keys |
| OAuthService.OAuthService.GetCached | auth-service/src/cache.rs:20-27 | A hit is the decoded value of an entry that has not expired; anything else, a failed call included, is a miss |
| OAuthService.OAuthService.SetCached | auth-service/src/cache.rs:29-34 | The entry is written with its lifetime of 600 s, or, unnoticed, nothing is; either way the cache agrees with the table |
| OAuthService.OAuthService.Authenticate | auth-service/src/services/oauth_service.rs:402-411 | Lookup and secret check give the database's client, or the error the source gives |
| OAuthService.OAuthService.Register | auth-service/src/services/auth_service.rs:14-50 | Tables, ledger and answer are those of the request in the step machine |
| OAuthService.OAuthService.RegisterClient | auth-service/src/services/oauth_service.rs:53-100 | Likewise, and the cache still agrees with the table |
| OAuthService.OAuthService.VerifyCredentials | auth-service/src/services/auth_service.rs:52-69 | The user of the address if the password verifies, and the two error cases |
| OAuthService.OAuthService.Authorize | auth-service/src/services/oauth_service.rs:103-157 | State and answer of an `authorize` run phase by phase |
| OAuthService.OAuthService.Token | auth-service/src/services/oauth_service.rs:160-179 | Dispatch on the grant type, with the effect of the step machine |
| OAuthService.OAuthService.ExchangeAuthorizationCode | auth-service/src/services/oauth_service.rs:181-238 | Checks in the source's order, then the mark, then the tokens |
| OAuthService.OAuthService.IssueFirst | auth-service/src/services/oauth_service.rs:240-277 | The part of an exchange after the mark, failures included |
| OAuthService.OAuthService.ExchangeClientCredentials | auth-service/src/services/oauth_service.rs:279-310 | An access token and no refresh token, tables untouched |
| OAuthService.OAuthService.ExchangeRefreshToken | auth-service/src/services/oauth_service.rs:312-345 | Expiry before client match, deletion before creation |
| OAuthService.OAuthService.IssueNext | auth-service/src/services/oauth_service.rs:347-383 | The part of a refresh after the presented token is deleted |
| OAuthService.OAuthService.Revoke | auth-service/src/services/oauth_service.rs:386-399 | The token is deleted whoever owns it, and a missing one is no error |
| AuthTables.AuthDatabase.MarkCodeUsed | auth-service/src/repositories/authorization_code_repository.rs:38-44 | Sets `used` on that row alone and reports the rows changed |
| AuthTables.AuthDatabase.CreateCode | auth-service/src/repositories/authorization_code_repository.rs:7-24 | Unique code and existing user, or an error and no change |
| AuthTables.AuthDatabase.CreateToken | auth-service/src/repositories/refresh_token_repository.rs:7-21 | Unique token and existing user, or an error and no change |
| AuthTables.AuthDatabase.DeleteToken | auth-service/src/repositories/refresh_token_repository.rs:35-41 | Removes that row alone and reports the rows changed |
| AuthTables.AuthDatabase.CreateUser | auth-service/src/repositories/auth_user_repository.rs:7-15 | Users are only added, with unique ids and addresses |
| AuthTables.AuthDatabase.CreateClient | auth-service/src/repositories/oauth_client_repository.rs:7-21 | Client rows are only added, with unique ids |
| Endpoints.RegisterIff | auth-service/src/services/auth_service.rs:14-50 | A registration with at least eight bytes of password inserts a row with the address and the password's hash; too short, a failed hash and a taken address are refused each in its way and change nothing |
| Endpoints.RegisterThenLogIn | auth-service/src/services/auth_service.rs:14-69 | Round trip: the registered address and password log in as the new user, and another password exactly if it verifies against the hash |
| Endpoints.RegisterClientIff | auth-service/src/services/oauth_service.rs:53-100 | The row of a new client column by column, the reply with the secret, nothing else changed; otherwise an error and no change |
| Endpoints.RegisterClientThenUse | auth-service/src/services/oauth_service.rs:53-157 | Round trip: the returned secret authenticates the client, which may use exactly the redirect URI and scopes it registered |
| Endpoints.AuthorizeIff | auth-service/src/services/oauth_service.rs:103-157 | `authorize` succeeds exactly under a flat list of conditions; the row it inserts field by field; otherwise nothing changes |
| Endpoints.ExchangeIff | auth-service/src/services/oauth_service.rs:181-277 | The same for a code exchange, PKCE and redirect URI included, with the claims, the new token row and the used code |
| Endpoints.RefreshIff | auth-service/src/services/oauth_service.rs:312-383 | The same for a refresh; a refused one removes at most the token presented, and only if it had expired |
| Endpoints.ClientCredentialsIff | auth-service/src/services/oauth_service.rs:279-310 | The same for client credentials; the tables never change |
| Endpoints.AuthorizeRefusal | auth-service/src/services/oauth_service.rs:103-157 | The error kind of every refused `authorize`, by the first check that fails; nothing changes |
| Endpoints.ExchangeRefusal | auth-service/src/services/oauth_service.rs:187-238 | The same for a code exchange: missing parameters, client, and `InvalidGrant` for everything about the code |
| Endpoints.RefreshRefusal | auth-service/src/services/oauth_service.rs:318-339 | The same for a refresh |
| Endpoints.ClientCredentialsRefusal | auth-service/src/services/oauth_service.rs:285-293 | The same for client credentials |
| Endpoints.RevokeRefusal | auth-service/src/services/oauth_service.rs:386-392 | A client that does not authenticate is refused with the kind of its fault, and nothing changes |
| Endpoints.OtherGrantRefused | auth-service/src/services/oauth_service.rs:173-178 | Any other grant type is an `InvalidRequest` that changes and issues nothing |
| Endpoints.ExchangeHalfDone | auth-service/src/services/oauth_service.rs:235-268 | If the access token cannot be encoded or the new refresh token is taken, the exchange fails with the code used up and no refresh token issued |
| Endpoints.RefreshHalfDone | auth-service/src/services/oauth_service.rs:341-374 | In the same cases a refresh fails with the presented token gone and no successor |
| Endpoints.ClientCredentialsFail | auth-service/src/services/oauth_service.rs:293-302 | A client grant whose token cannot be encoded changes nothing |
| Endpoints.AuthorizeThenExchange | auth-service/src/services/oauth_service.rs:139-277 | Round trip: an issued code is accepted exactly from its client, with its redirect URI, a verifier of its challenge and within 600 s, and yields the scope asked for |
| Endpoints.ExchangeThenRefresh | auth-service/src/services/oauth_service.rs:254-383 | Round trip: the refresh token is accepted exactly from its client until it expires, and keeps the scope |
| Provenance.StepKeeps | auth-service/src/services/oauth_service.rs:103-399 | Every step of every request, reading any sound earlier snapshot, keeps all records sound and alters none that exists |
| Interleaving.RunKeepsSound | auth-service/src/services/oauth_service.rs:103-399 | Soundness holds in every interleaved run with stale reads and abandoned requests |
| Interleaving.EveryRefreshTokenTraces | auth-service/src/services/oauth_service.rs:181-383 | Every refresh token has exactly one rotation chain, to one `authorize` that checked the login, with one user, client and scope string along it, within the registered scopes (RFC 6749, section 6) |
| Interleaving.EveryAccessTokenTraces | auth-service/src/services/oauth_service.rs:240-361 | The same for every access token minted, returned or not: subject, address, client, scopes and times of its claims are those of its grant; for client credentials the client itself, no address, and scopes it registered |
| Redemptions.UsedNeverResets | auth-service/src/repositories/authorization_code_repository.rs:38-44 | In every run a used code stays used and no code disappears |
| Redemptions.InterleavedExchanges | auth-service/src/services/oauth_service.rs:204-374 | On one database, for every code and refresh token: whoever found it did so before anyone spent it, the tokens minted from it number at most those requests, and two that both mint overlap |
| Redemptions.RedemptionsAreFinishers | auth-service/src/services/oauth_service.rs:204-374 | In every such run the tokens minted from a code or refresh token are one for each request that found it and ran to its end, no more and no fewer, so it is redeemed at most once exactly if at most one of them did |
| Redemptions.OneTokenForEachFinder | auth-service/src/services/oauth_service.rs:204-374 | However stale the reads, the tokens minted from a code or refresh token number at most the requests that found it |
| ReplicaLag.RedemptionsUnderLag | auth-service/src/services/oauth_service.rs:204-374 | With replicas at most `lag` versions behind, each of those requests also found it at most `lag` versions after anyone spent it |
| Overlaps.OverlappingRequestsBothMint | auth-service/src/services/oauth_service.rs:204-374 | From every sound state in which two requests would each find a code, or a refresh token, there is a run in which both mint a token from it |
| Overlaps.HolderMints | auth-service/src/services/oauth_service.rs:235-374 | A request that has found a code or refresh token and is left alone obtains a token from it, whatever others have done to it since |
| RevocationRaces.QuietIff | auth-service/src/services/oauth_service.rs:204-399 | No continuation whatever issues a refresh or access token of a used code if and only if no token of it is in place and no request at work holds the code or a token of it |
| RevocationRaces.RevocationAmongOverlaps | auth-service/src/services/oauth_service.rs:386-399 | The same at the step that deletes a live token, with the condition read off at that step; and every token of the code minted later goes back to a sibling in place, or to a token that a request minted from what it held at the deletion |
| RevocationRaces.RevocationMisses | auth-service/src/services/oauth_service.rs:322-399 | From every sound state with a live token that can be refreshed and revoked there is a run in which the refresh finds it, the revocation deletes it and succeeds, and the refresh obtains a successor |
| RevocationRaces.LaterTokensComeFromAlive | auth-service/src/services/oauth_service.rs:204-374 | At any moment once the code is used, every later token goes back to such a sibling or such a request |
| Lifetimes.LifetimesWithDurations | auth-service/src/services/oauth_service.rs:145-361 | With interleaving, stale reads and at most d seconds for each request, tokens of the n-th refresh are issued at most 600 s + d + n·(refresh lifetime + d) after the `authorize` |
| LifetimesAttained.LifetimesAttained | auth-service/src/services/oauth_service.rs:213-361 | For every n and d a run attains that bound, from every sound state in which a code can be exchanged at the last moment |
| InterleavedFailures.FailedRequestChangesNothing | auth-service/src/services/oauth_service.rs:235-374 | Among overlapping requests with up-to-date reads, no step of a request that ends in an error has changed tables or ledger, except to remove a refresh token it found expired |
| LoneRequests.LoneRunIsDrive | auth-service/src/services/oauth_service.rs:103-399 | Steps of one request that nothing interrupts have the effect of the request run alone |
| LoneRequests.ServedRunIsInterleaved | auth-service/src/services/oauth_service.rs:103-399 | Every run of requests served one at a time is a run of the interleaved model |
| AtomicRuns.SingleLiveDescendant | auth-service/src/services/oauth_service.rs:208-268 | Served one at a time: a code is redeemed at most once, an unused one has nothing issued, each token is rotated at most once, and one live refresh token at most descends from each code (RFC 6749, section 4.1.2) |
| AtomicRuns.LifetimeBound | auth-service/src/services/oauth_service.rs:145-361 | Served one at a time, each at one instant: tokens of the n-th refresh are issued at most 600 s and n refresh lifetimes after the `authorize`, and access tokens expire their lifetime later |
| AtomicRuns.ServeKeeps | auth-service/src/services/oauth_service.rs:103-399 | One request served alone keeps soundness and single redemption |
| Revocation.RevocationEndsTheGrant | auth-service/src/services/oauth_service.rs:386-399 | After a live refresh token is revoked no later request of any run obtains a token descending from its code (RFC 7009, section 2.2) |
| Revocation.RevokeIsIdempotent | auth-service/src/repositories/refresh_token_repository.rs:35-41 | Revoking again, or revoking an unknown token, changes nothing and succeeds |
| Revocation.RevokeInClosedForm | auth-service/src/services/oauth_service.rs:386-399 | After client authentication the token is gone, whoever it belonged to |
| Revocation.ForeignRevocationIff | auth-service/src/services/oauth_service.rs:386-399 | A token of another client is deleted exactly if the revoking client authenticates, which is then told it succeeded |
| Failures.NothingHalfDone | auth-service/src/services/oauth_service.rs:235-374 | In every reachable state a request that fails leaves tables and ledger as they were, except that an expired refresh token is removed |
| Failures.WritingSucceeds | auth-service/src/services/oauth_service.rs:235-268 | Once a request has made its first write, no later step of it fails |
| Cleanup.CleanUpIsInvisible | auth-service/src/services/oauth_service.rs:327-339 | Removing expired refresh tokens at any points of any run changes no reply and no kind of error |
| Cleanup.SameLookup | auth-service/src/services/oauth_service.rs:322-339 | A missing and an expired refresh token are refused alike, since expiry comes before the client match |
| Scopes.ValidateScopes | auth-service/src/services/oauth_service.rs:413-424 | Succeeds exactly when the requested tokens are among the allowed ones; the error names the first that is not |
| Scopes.AllowedOfLists | auth-service/src/services/oauth_service.rs:413-424 | On space-joined lists the check is inclusion of the lists as sets (RFC 6749, section 3.3) |
| Scopes.AllowedIgnoresOrder | auth-service/src/services/oauth_service.rs:413-424 | Order and repetition do not matter |
| Scopes.AllowedIsAPreorder | auth-service/src/services/oauth_service.rs:413-424 | The check is reflexive and transitive |
| Text.SplitOfJoin | shared/src/middleware/jwt_auth.rs:60-64 | Splitting a space-joined list of words gives the list back |
| Text.SplitAtWhitespace | shared/src/middleware/jwt_auth.rs:60-64 | Splitting at any whitespace character splits both sides |
| Text.AsciiWhitespace | shared/src/middleware/jwt_auth.rs:60-64 | Which ASCII characters are whitespace |
| Text.IntToStringStandsFor | auth-service/src/services/oauth_service.rs:244-247 | The decimal text of an id has the id's value, without leading zeros |
| Text.Utf8LengthOfChar | auth-service/src/services/auth_service.rs:18-22 | A character counts one to four bytes by its code point |
| Text.Utf8LengthOfConcat | auth-service/src/services/auth_service.rs:18-22 | Byte lengths of parts add up |
| TokenService.ExpiryIsIssueTimePlusTtl | auth-service/src/services/token_service.rs:16-24 | The expiry claim is issue time plus lifetime exactly when that sum fits the unsigned width |
| TokenService.UsizeIs64Bits | auth-service/src/services/token_service.rs:16-24 | The unsigned width of the time claims is 64 bits |
| ScopeEnforcement.ExtractUserCases | shared/src/middleware/jwt_auth.rs:33-66 | Missing secret, missing header, header without "Bearer ", undecodable token: each with its error kind; otherwise user, address, client and scopes are those of the claims |
| ScopeEnforcement.AdmitCases | shared/src/middleware/scopes.rs:4-13 | Without the scope an operation needs a user is forbidden it; who is refused before stays refused |
| ScopeEnforcement.AdmittedIffScoped | shared/src/middleware/jwt_auth.rs:33-66 | A token of the authorization server is admitted exactly if it decodes and its scopes include "read" for list and get, "write" for create, update and delete |
| ScopeEnforcement.OneScopeOpensHalf | user-service/src/controllers/v1/user_controller.rs:30-127 | A token with "read" alone is admitted exactly to list and get, one with "write" alone exactly to create, update and delete |
| ScopeEnforcement.EndToEndScope | user-service/src/controllers/v1/user_controller.rs:30-127 | In every run, an admitted read or write implies "read" or "write" among the registered scopes of the token's client, after any number of refreshes |
| UserService.UserDatabase.FindAll | user-service/src/repositories/user_repository.rs:14-18 | Every row once, in some order |
| UserService.UserDatabase.Update | user-service/src/repositories/user_repository.rs:30-43 | Missing row is reported; otherwise that row alone changes, column by column |
| UserFlow.ChangeSetsColumns | user-service/src/repositories/user_repository.rs:30-43 | Each column takes the value given for it or keeps its own |
| UserFlow.ChangesCompose | user-service/src/repositories/user_repository.rs:30-43 | Columns a change leaves out stay, and of two changes the later wins per column |
| Redis.SetThenGet | shared/src/cache.rs:20-38 | What was set is read until its lifetime is over and not after; other keys are left alone |
| Redis.DeleteThenGet | shared/src/cache.rs:40-43 | What was deleted is not read; other keys are left alone |
| Redis.LostCalls | shared/src/cache.rs:20-43 | A call that fails changes nothing, reads nothing and raises nothing |
| UserFlow.UsersRoundTrip | shared/src/cache.rs:20-38 | A cached list decodes to the users it was made from |
| UserFlow.KeysAreDistinct | user-service/src/cache.rs:5-11 | Cache keys of different users differ, and none is the list's key |
| UserService.UserService.GetUserById | user-service/src/services/user_service.rs:27-51 | Store and answer of the lookup run phase by phase: hit, undecodable entry, miss, missing row |
| UserService.UserService.ListUsers | user-service/src/services/user_service.rs:53-75 | The same for the list, which is asked of the database on a miss only, for whatever order it chose |
| UserService.UserService.CreateUser | user-service/src/services/user_service.rs:11-25 | Insert, then cache the row, then drop the list |
| UserService.UserService.UpdateUser | user-service/src/services/user_service.rs:77-92 | Update, then cache the row, then drop the list |
| UserService.UserService.DeleteUser | user-service/src/services/user_service.rs:94-111 | Nothing deleted is an error; otherwise both entries are dropped |
| UserService.UserService.HandleEvent | user-service/src/kafka.rs:69-103 | Only a registration inserts; every other event, and a refused insert, changes nothing |
| UserRefinement.RequestRefines | user-service/src/services/user_service.rs:11-112 | One request on a coherent cache: table and answer of the plain map whatever calls to Redis are lost, and a coherent cache afterwards exactly if the lost calls do no harm, which can be told before the request |
| UserRefinement.UpdateIsSeen | user-service/src/services/user_service.rs:77-92 | An update answers with each given column at its new value and each other as it was, and the next lookup shows the same; nobody there is NotFound |
| UserRefinement.CreateIsSeen | user-service/src/services/user_service.rs:11-25 | A new user has the name and address given, and the next lookup shows it; a refused row is an internal error that changes nothing |
| UserRefinement.DeleteIsSeen | user-service/src/services/user_service.rs:94-111 | A deleted user is not found; deleting nobody is NotFound |
| UserRefinement.EventIsSeen | user-service/src/kafka.rs:78-99 | A registration event leaves a profile with its address, named by what stands before the '@' |
| UserRefinement.OtherEventIsIgnored | user-service/src/kafka.rs:69-103 | Any other event, and one whose profile the database refuses, leaves the table as it was |
| UserRefinement.CoherentIffLookupsRight | user-service/src/services/user_service.rs:27-75 | While no entry has expired, a cache is coherent exactly if every lookup is answered as the plain map answers it |
| UserRefinement.CacheIsTransparent | user-service/src/services/user_service.rs:11-112 | Any sequence of requests and events, with evictions, expiry, failing reads and harmlessly failing writes, is answered as a map without cache answers it |
| UserRefinement.ServiceIsPlainMap | user-service/src/services/user_service.rs:11-112 | The same for every such sequence from an empty table and cache |
| UserRefinement.LostWriteShows | user-service/src/services/user_service.rs:77-92 | One harmful loss: after an update whose cache write is lost, a lookup still answers the old row |
| Staleness.RunKeepsInv | user-service/src/services/user_service.rs:11-112 | In every interleaved run each entry, each value a request holds and each answer was in the table recently enough |
| Staleness.BoundedStaleness | user-service/src/services/user_service.rs:27-75 | Every user or list a lookup returned was the table's at some instant at most 300 s + delay + lag before, and whoever was not found was absent at some instant at most lag before |
| Staleness.BoundIsAttained | shared/src/cache.rs:7-43 | For every delay and lag there is a run whose answer is exactly that old |
| Consumer.AtLeastOnce | user-service/src/kafka.rs:42-66 | Every offset below a committed one went through the loop body, and a registration among them has its profile unless the database refused it |
| Consumer.NothingIsSkipped | user-service/src/kafka.rs:42-66 | A waiting consumer has handled every offset it has passed, after restarts too |
| Consumer.AtMostOncePerStart | user-service/src/kafka.rs:42-99 | An event is handled, and its profile inserted, at most one time more than there were restarts |
| Consumer.ExactHandlings | user-service/src/kafka.rs:42-66 | The number of handlings of an event: one for each restart that found it passed and not committed, one more if it is passed now, less the restarts that found it committed and not yet passed |
| Consumer.DuplicatesAttained | user-service/migrations/users/up.sql:1-5 | For every number of restarts a run attains that bound |
| Consumer.RowsAreInsertions | user-service/src/kafka.rs:78-99 | Without other writers the table grows by one row for each recorded insertion |
| Consumer.CleanShutdown | user-service/src/kafka.rs:56-63 | After a shutdown whose commit succeeds everything passed is committed, and a restart goes back over nothing |
| Consumer.UncleanStop | user-service/src/kafka.rs:56-63 | A failed commit at shutdown, or a crash, leaves the committed offsets as they are |
| Consumer.CommittedIsNotRepeated | user-service/src/kafka.rs:42-52 | A message whose commit is applied before the consumer stops is not handled again |
| Consumer.BacklogIsWorkedOff | user-service/src/kafka.rs:42-66 | Left alone the consumer handles as many messages as it gets turns |
| ConsumerLoop.EventConsumer.Turn | user-service/src/kafka.rs:42-52 | Receive, handle and commit one message: a run of five steps of the machine |
| ConsumerLoop.EventConsumer.Stop | user-service/src/kafka.rs:56-63 | The synchronous commit of every partition's position at shutdown |
| ConsumerLoop.EventConsumer.Consume | user-service/src/kafka.rs:42-66 | The whole loop, up to the shutdown signal, is a run of the machine |
| Consumer.LoopEnds | user-service/src/kafka.rs:53-65 | A shutdown signal ends the loop whatever else would come; a receive error does nothing |
| Consumer.WakesInOrder | user-service/src/kafka.rs:42-66 | Before a shutdown signal the loop answers its wake-ups one after the other |
| Consumer.TurnInOne | user-service/src/kafka.rs:46-52 | A turn handles the next message as if nothing else ran, moves on by one and sends at most the commit of that message |
| Migrations.Schema.RunScript | scripts/migrate-auth-dev.sh:84-115 | The loop over the files, cut off after any number of operations, has the database and outcome of the specification |
| Migrations.Schema.ApplyFile | scripts/migrate-auth-dev.sh:54-58 | The two statements of a file, each of which may be the last |
| Migrations.CrashRecovery | scripts/migrate-auth-dev.sh:84-115 | After any runs cut off anywhere the tables are a prefix of the list, nothing existing was created again, and a run that is done leaves every table and record |
| Migrations.NextFullRunRecovers | scripts/migrate-auth-dev.sh:84-115 | A run nothing cuts off completes the database, however the earlier ones ended |
| Migrations.FurtherRunChangesNothing | scripts/migrate-auth-dev.sh:89-96 | A run after a completed one changes nothing |
| Migrations.IndexLostIff | scripts/migrate-auth-dev.sh:98-106 | After completion the index of a file is missing exactly if some run was cut off between its two statements |
| Migrations.WithoutAdoptionIff | scripts/migrate-auth-dev.sh:98-113 | Without adoption, whatever names the script reads off the files, a full run is done exactly if no earlier run was cut off between a table's creation and its record |
| Migrations.NoFilesNoRun | scripts/migrate-auth-dev.sh:71-74 | Without migration files the script stops and the database is as it was |
| Migrations.AuthMigrationsAreWellFormed | auth-service/migrations/00000000000001_create_auth_users/up.sql:1-7 | The four files of the service meet the assumptions of these results |
| PostmanPaths.SubstituteParams | postman/generator/src/main.rs:354-359 | The loop replaces every parameter once, in some order |
| PostmanPaths.ReplaceByPieces | postman/generator/src/main.rs:357 | One replacement acts on each piece of a path, and on what follows, by itself, never across borders |
| PostmanPaths.AnyOrderIsSimultaneous | postman/generator/src/main.rs:354-359 | Whatever the order, the result is the one simultaneous substitution, if no value is the variable of another parameter |
| PostmanPaths.OrderShowsIff | postman/generator/src/main.rs:354-359 | For any number of parameters: all orders give the same path exactly if no placeholder has the variable of another parameter as its value |
| PostmanScripts.BuildTestScript | postman/generator/src/main.rs:434-474 | The emitted lines are those of the specification, for some order of the variables; no script for an empty accept list |
| PostmanScripts.AppendSaveLines | postman/generator/src/main.rs:476-491 | Appends the lines of every variable once, in some order |
| PostmanScripts.ParseOptionalField | postman/generator/src/main.rs:494-498 | Field and flag give the text back, and the flag is set exactly for a trailing question mark |
| PostmanScripts.ScriptIsWellBracketed | postman/generator/src/main.rs:434-491 | Parentheses and braces of every script nest correctly, for balanced names and bracket-free variables and fields |
| PostmanBranches.OneBranchPerStatus | postman/generator/src/main.rs:438-461 | Which lines run for each status code: saves and success test, a test of its own, or nothing |
| PostmanBranches.BranchesInOrder | postman/generator/src/main.rs:438-459 | The branches stand in the order of the accepted statuses, one for each |
| PostmanBranches.BranchChecksItsStatus | postman/generator/src/main.rs:438-461 | The branch that runs for an accepted status checks for that status; nothing runs for others |
| PostmanBranches.SavesOnlyForTheFirst | postman/generator/src/main.rs:442-445 | Variables are set exactly for the first accepted status |
| PostmanBranches.EveryVariableIsSaved | postman/generator/src/main.rs:476-491 | There, every variable is set to its field |
| PostmanBranches.ReadsBeforeSaving | postman/generator/src/main.rs:442-445 | That branch parses the response before it saves |
| PostmanBranches.BranchIsTitled | postman/generator/src/main.rs:447-459 | The test of each branch carries the request's name and whether it is the success or the accepted repetition |
| PostmanBranches.SavingScript | postman/generator/src/main.rs:460-466 | Without accepted statuses: one test for the expected status or 200, which parses the response and sets every variable to its field |
| PostmanBranches.PlainScript | postman/generator/src/main.rs:467-473 | Without variables either: one test for the expected status that sets nothing, or no script |
| PostmanBranches.SaveOneSpelt | postman/generator/src/main.rs:476-491 | The text that sets a variable, guarded by a condition exactly for an optional field |
| PostmanBranches.HeadersSpelt | postman/generator/src/main.rs:440-452 | The text of the branch conditions |

## Left out

- Columns that nothing in the model reads: `id` and `created_at` of clients, codes and tokens, and the creation time of users.
- The full texts of error messages: kinds and the branch that raises them are modelled, wording is shortened.
- Sub-second times, and the passage of time within one request that runs alone: such a request sees one instant. Requests that interleave see the clock at each step.
- `chrono` panics on dates out of range and the overflow check of a debug build: sums of times are unbounded, and the expiry claim wraps as in a release build.
- Database connection failures of a request that runs alone: in the interleaved models a request may be abandoned before any step, which has the same effect on the tables.
- AtomicRuns.SingleLiveDescendant: for requests served one at a time, because overlapping exchanges redeem a code several times and overlapping refreshes of one token leave several live; `Redemptions` counts both exactly.
- AtomicRuns.LifetimeBound: for requests that see one instant; `Lifetimes.LifetimesWithDurations` is the form for requests that take time.
- Revocation.RevocationEndsTheGrant: for requests served one at a time; `RevocationRaces` is the form for requests that overlap.
- RevocationRaces.QuietIff: times are free in the interleaved model, so a sibling that has expired counts as in place until it is deleted; the condition also supposes that the code's client can authenticate and that JWT encoding does not fail, without which nothing could be issued.
- ReplicaLag.RedemptionsUnderLag: lag is counted in versions of the tables, because the interleaved model has no clock of its own.
- Redemptions.RedemptionsAreFinishers: assumes that JWT encoding does not fail and that reads are up to date, because a request that fails after its mark or deletion mints nothing.
- Failures.NothingHalfDone: for requests served one at a time (`InterleavedFailures` is the form for requests that overlap); assumes that JWT encoding does not fail and that generated tokens are fresh, because otherwise a failure after the mark or the deletion is reachable (`Endpoints.ExchangeHalfDone`, `Endpoints.RefreshHalfDone`).
- UserRefinement.CacheIsTransparent: assumes that lost cache writes are harmless ones, because any other shows; `Staleness` covers the rest. An entry that has expired counts as cached until it is evicted.
- An insert that the database refuses for any reason stands for one whose new id is taken: the service treats both alike.
- A write to Redis that times out for its caller and is applied later: in `Staleness` it is applied at the step or not at all.
- Argon2, SHA-256, base64url, JWT signing, UUIDs and random strings: uninterpreted functions and fresh inputs.
- Publishing of events by auth-service, Kafka rebalances and log retention: each partition has one consumer and keeps its log.
- Concurrent runs of the migration script, `DRY_RUN`, the regular expression that reads a table name off a file (its result is a field of the file), and quoting of ids.
- `scripts/migrate-user-dev.sh`: the one-file case of the same loop.
- Query overrides, bodies, headers and authentication of generated requests, and fetching of specifications: only the path and the test script have properties beyond their text.
- HTTP routing, extractors, OpenAPI documents, metrics, health checks, deployment: nothing that outlives a call.
- `delete_by_user_id`: no caller.
- Row order of the user list: lists are compared with the table as sets without repetition.
