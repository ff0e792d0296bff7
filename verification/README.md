# Renku gateway: session and token state, verified

The gateway keeps login sessions and OAuth tokens in Redis, refreshes tokens on demand from any
number of instances, caches redirects, and rewrites the paths of UI-server requests. This project
models that state and proves what the rest of the platform relies on. `dafny verify dfyconfig.toml`
checks everything.

## What is modelled

**Token refresh.** `RefreshCall` cuts one call of `GetFreshAccessToken` or `GetFreshIDToken` at its
accesses to Redis, the clock and the provider. `RefreshProtocol` runs any number of such calls on one
token ID against one set of slots and one provider, which may keep a refresh token it grants for,
replace it by a new one, or leave it valid beside a new one (section 6 of RFC 6749), and may leave out
the ID token (section 12.2 of OpenID Connect Core 1.0); a run may interleave them in any way, with
clock ticks, evictions, failed writes and logins. `RefreshSafety`, `RefreshGrants`, `RefreshRotation`,
`RefreshSlots`, `RefreshRaces`, `RefreshKeepsToken` and `RefreshEviction` are about all runs.
`RefreshMany` puts any number of token IDs into one flat key space and shows that each of them sees a
run of that machine.
`TokenRepo` and `TokenStore` hold the imperative classes; a call that nothing disturbs is shown to be
the steps of the machine. `TokenAnswers` says what such a call answers and stores, value by value;
`TokenStoreLaws` compares evicting and non-evicting stores and bounds how often tokens are refreshed.
`TokenRepoLaws` is about runs of logins and refreshes over all IDs.

**Sessions.** `Sessions` has the session object, the request context that shares it with handlers,
and the store with its middleware, over a repository whose reads, writes and removals may fail. A
request is one atomic step with one clock reading; a handler is any sequence of store operations and
edits of the session it was given. `SessionAnswers` says which session each kind of request gets;
`SessionLifetime` states when a session is accepted without any reference to the code; `SessionLaws` is
about logout, expired and ephemeral sessions.

**Login.** `Login` has the routes; `LoginAnswers` says what they answer, note and store. `LoginRuns` puts them behind the middleware, over the stored
sessions, with any other requests in between. Over all such runs, `LoginLaws` is about which callbacks
are accepted, `LoginTokens` about the tokens a login leaves behind, and `LoginValues` about their values.

**Redirects.** `RedirectCache` runs any number of lookups through one cache behind a read-write lock;
`RedirectStore` is the class, shown to do what the machine does alone.

**Paths.** `PercentCodec` is percent-encoding (sections 2.1 and 2.3 of RFC 3986), `PathRewrite` the
middleware with `net/url`'s decoded and raw views of a path, `PathTargets` its composition with the
notebooks rule and the removal of dot segments (section 5.2.4 of RFC 3986). `PathAnswers` says where
each kind of path goes.

**Redis records.** `Decimal`, `RedisCodec`, `RedisRecords` and `RedisAdapters` follow a session or a
token into a Redis hash and back, encryption included, and show that the maps of records the other
modules work on are what is stored. `RedisHashes` has the records field by field.

The modules whose names end in `Answers`, and `RedisHashes`, spell out prefixes, names, values and dates
once more, apart from the functions the routes and stores are written with.

## Where the code surprises

- A session maker with a maximum TTL of 0 creates sessions that expire at once, while `Touch` takes 0
  for "no maximum" (internal/sessions/session_maker.go:34-35, internal/models/session.go:47);
  `StillbornWithoutMax` says exactly when such a session, once stored, is accepted. It is hardly ever
  stored: the saving lookup reads the clock again and passes an expired session over
  (internal/sessions/session_store.go:139 and 217), so only a clock that stands still lets it through
  (`StillbornIsNotSaved`).
- The ID slot can go back to an older generation (`IdSlotCanGoBack`). With a rotating provider the
  other two cannot (`RotationNeverOvertakes`); with any other the access slot can as well, and so can the
  refresh slot if new refresh tokens are issued (`SlotsCanGoBack`).
  Whether a slot still may is a matter of which tokens are yet to be written (`SlotMayGoBack`).
- The new refresh token of a rotating provider that is not a readable JWT is only logged as a problem,
  but the error is returned after all and the whole grant is dropped (internal/oidc/client.go:130-133
  and 170). The model counts this among the replies that lose the token.
- Over an evicting store `GetFreshAccessToken` can differ in one narrow case, which needs a failed
  write and an access token that expires before the reload (`EvictionUnobservableForAccess`,
  `EvictionCanShow`).
- A callback whose session cannot be written can be repeated (`RefusedWriteRepeats`), because the login
  goes on all the same (internal/login/login_server_routes.go:216 and 238 ignore the error). So could
  one whose provider is not configured, because the handler fails before drawing a new state, but no
  client holds a state for such a provider (`HandedOutIsConfigured`) unless drawing a later one has
  failed; `RepeatableCallback` has every case.
- An exchange that fails still advances the login (internal/login/login_server_routes.go:82-88), so a
  finished login may have no tokens (`LoginWithoutTokens`); its map names exactly the providers whose
  exchanges succeeded (`MapHoldsExchanged`), and all of them only if all did (`MapIsComplete`).
- A notebooks path with dot segments can leave the notebooks (`DottedPathLeaves`), because the rule
  resolves what it rewrites.
- In the same way one can come back to the UI server (`ClimbingComesBack`; `NotebooksComeBack` says
  exactly when).
- A notebooks path loses its escapes, because the last rule of the middleware tests the original path
  and overwrites what the notebooks rule did (internal/revproxy/middlewares.go:109).
- `retrieveRedirectTargetForSource` never returns an empty answer without an error, so the branch for
  "no redirect" (internal/redirects/redirect_store.go:137-140) cannot be reached and has no model.

## Assumptions

External parties come in as parameters: what the clock reads, whether Redis answers, what the
provider replies, and random IDs, states and nonces where they can be drawn. The laws used of foreign code are: JSON and
RFC 3339 text read back as what was written, the cipher opens what it sealed, and an access token
that verifies yields its subject. A provider refuses expired refresh tokens where eviction is
compared. Logins under one token ID come from one provider, which `PrefixOwner` shows for prefixed
IDs and `OwnersExist` for all; each ID has an account of its own at its provider. At-most-once results
take fresh states that can be drawn, clients that present states they were sent to a provider with, and
a repository that takes the writes of accepted callbacks; `RepeatableCallback` says what happens
otherwise. Lifetime results take validated TTLs (internal/config/session.go:22-33).

## Model

| member | source | states |
|---|---|---|
| RefreshRotation.RefreshTokenConserved | internal/tokenstore/token_store.go:119-156 | With a rotating provider, in every interleaving of any number of instances, the live refresh token is in the slot or held by exactly one call, if and only if no step so far dropped it (an unusable reply, a refused write of the access or refresh token, eviction) |
| RefreshRotation.EvictionDropsOnlyExpired | internal/db/token_repo_redis.go:136-140 | Redis never evicts a refresh token that the provider would still accept |
| RefreshRotation.StepKeepsInv | internal/tokenstore/token_store.go:119-156 | The invariant behind conservation, over every single step |
| RefreshRotation.SlotsNeverGoBack | internal/tokenstore/token_store.go:132-141 | With a rotating provider, in every interleaving without logins, the access and the refresh slot never go back to an older generation |
| RefreshRotation.SupersededWritesNothing | internal/tokenstore/token_store.go:127-131 | A call whose refresh token has been superseded writes nothing for the rest of its life, in every continuation |
| RefreshRotation.GrantSupersedesRacers | internal/tokenstore/token_store.go:120-131 | Of calls racing with one refresh token, the first grant supersedes the others |
| RefreshSlots.SlotGoesBackExactly | internal/tokenstore/token_store.go:132-147 | Over any whole run, logins included, with any kind of provider: a slot goes back to an older generation if and only if some token is put into it after one of a newer generation |
| RefreshSlots.SlotMayGoBack | internal/tokenstore/token_store.go:132-147 | At any moment of any such run, some continuation without logins and further grants takes a slot back if and only if a call has a token still to write into it that is older than the slot, or than another one still to write |
| RefreshSlots.MayGoBackExactly | internal/tokenstore/token_store.go:132-147 | The same of any world with genuine tokens |
| RefreshSlots.RotationNeverOvertakes | internal/tokenstore/token_store.go:127-141 | With a rotating provider nobody is ever overtaken at the access or the refresh slot, so in a run without logins those two can never go back |
| RefreshSlots.IdSlotNeverGoesBack | internal/tokenstore/token_store.go:142-147 | With a rotating provider, one way to rule it out for the ID slot: no refresh is granted while a call is at its last write |
| RefreshRaces.IdSlotCanGoBack | internal/tokenstore/token_store.go:142-147 | The ordinary race does it: from any world where two calls, of whatever kinds, are both due, a run that ends with the older ID token over the newer, whatever the provider does with refresh tokens |
| RefreshRaces.SlotsCanGoBack | internal/oidc/client.go:127-143 | Unless the provider rotates, the same race takes the access slot back, and the refresh slot too if the provider hands out a new refresh token and leaves the old one valid |
| RefreshEviction.EvictionAddsNothing | internal/db/token_repo_redis.go:136-140 | Every interleaved run over an evicting store is shadowed by one without evictions, whose labels are those of the run with the evictions left out and each later read that found nothing failing instead: same start, logins, clock and provider, and every finished call with the same result |
| RefreshEviction.StepMatches | internal/tokenstore/token_store.go:23-156 | The simulation behind it, step by step |
| RefreshKeepsToken.RefreshTokenStays | internal/oidc/client.go:127-143 | With a provider that does not rotate, the stored refresh token stays the same through any number of simultaneous refreshes and failed writes, and is missing only once expired |
| RefreshSafety.FreshTokenSafety | internal/tokenstore/token_store.go:23-117 | In every interleaving, with logins, failures and evictions, a token returned without error has the requested ID, was handed out as a token of that type with that date by the provider of the ID, had stood in its slot, is unexpired at the final check and is not the placeholder |
| RefreshSafety.SlotsAgree | internal/db/token_repo_redis.go:38-83 | In every interleaving every slot holds a token of its own ID that was handed out as one of its type, with its date, and all slots one provider |
| RefreshGrants.WritesItsGrant | internal/tokenstore/token_store.go:132-147 | In every interleaving, what a call puts into a slot is the token of that kind which the provider granted to that very call, with the granted value, date, subject and provider, and no other slot changes |
| RefreshGrants.RefreshedCallAnswers | internal/tokenstore/token_store.go:56-64 | In every interleaving, a call that refreshed answers with the access or the ID token it was granted, or with what it held if no ID token came, unless that has expired by the final check |
| RefreshMany.EveryStepIsSeen | internal/db/token_repo_redis.go:60-83 | With any number of token IDs in one flat key space: whatever happens is, seen from any one ID, one step of the machine for that ID or no change at all |
| RefreshMany.EveryRunIsSeen | internal/tokenstore/token_store.go:23-156 | So seen from any one ID every run over all IDs is a run of that machine, and every result about it holds for each ID |
| RefreshMany.EverySlotAgrees | internal/db/token_repo_redis.go:38-83 | In every interleaving over all IDs, each token key holds a token of its own type and ID, issued by the provider of that ID |
| RefreshMany.EveryFreshTokenIsSafe | internal/tokenstore/token_store.go:23-117 | A token returned for any ID, among calls and logins for others, has that ID, the type asked for and the provider of that ID, had stood under its key, and is unexpired at the final check |
| RefreshMany.EveryRefreshTokenConserved | internal/tokenstore/token_store.go:119-156 | For every ID whose provider rotates, the live refresh token is in the slot or in one hand if and only if no step so far dropped it, whatever calls and logins for other IDs do |
| TokenAnswers.KeysSpelled | internal/db/token_repo_redis.go:13-17 | The keys under which other programs find tokens and sessions |
| TokenAnswers.EvictedLate | internal/db/token_repo_redis.go:136-140 | Redis drops no record before nine seconds after its date, may after ten, and never one without a date |
| TokenAnswers.SetIsFromGrant | internal/oidc/client.go:110-172 | The tokens of a refresh have the values, dates, subject and URL of the grant, each under its own type; without a new refresh token the used one is kept, without an ID token there is none |
| TokenAnswers.RefreshStoresGrant | internal/tokenstore/token_store.go:119-156 | If all writes are taken a refresh returns and stores what was granted, each token in its own slot, the ID slot only if an ID token came; otherwise it fails, and what was written before the failure stays |
| TokenAnswers.RefreshWithoutGrant | internal/tokenstore/token_store.go:120-131 | Without a stored refresh token, its provider or a grant, a refresh fails and changes nothing |
| TokenAnswers.IdleCall | internal/tokenstore/token_store.go:23-34 | A call whose slot cannot be read fails; one whose token is not due answers with it, unless it has expired; neither changes anything |
| TokenAnswers.GrantedCall | internal/tokenstore/token_store.go:23-117 | A due call whose refresh is granted and stored answers with the granted access or ID token, or the old ID token if none came, unless that has expired |
| TokenAnswers.FreshTokenIsGranted | internal/tokenstore/token_store.go:56-64 | So a granted access token that has not expired is the answer of GetFreshAccessToken, with the value and date of the grant and the requested ID |
| TokenAnswers.FailedCall | internal/tokenstore/token_store.go:34-63 | A due call whose refresh fails, wherever it does, answers with what a second read of the slot shows, else what the first had shown, unless that has expired |
| Tokens.NewClientStore | internal/oidc/client_store.go:54-64 | One client per configured provider, keyed by its own ID; fails exactly when some configuration does |
| Tokens.KeySpacesDisjoint | internal/db/token_repo_redis.go:60-83 | Access, refresh, ID and session keys never collide, and each is injective in the ID, even for IDs that contain a colon |
| TokenRepos.PutFrame | internal/db/token_repo_redis.go:111-141 | A token write is visible under its own type and ID and changes no other slot |
| TokenRepos.TokenRepo.GetToken | internal/db/token_repo_redis.go:86-109 | A read finds the record unless Redis is down or may have evicted it |
| TokenRepos.TokenRepo.SetToken | internal/db/token_repo_redis.go:38-58 | Refuses a token of another type; otherwise stores it under its key, with the whole-second deadline of its expiry or none |
| TokenStores.TokenStore.RefreshAccessToken | internal/tokenstore/token_store.go:119-156 | An undisturbed refresh: its result and the records it leaves, through every failure |
| TokenStores.TokenStore.GetFreshAccessToken | internal/tokenstore/token_store.go:23-64 | An undisturbed call: its result and the records it leaves |
| TokenStores.TokenStore.GetFreshIDToken | internal/tokenstore/token_store.go:66-117 | An undisturbed call: its result and the records it leaves |
| TokenStores.CallIsItsSteps | internal/tokenstore/token_store.go:23-156 | The steps of the concurrent machine, taken by one instance alone, are exactly that call |
| TokenStoreLaws.EvictionUnobservableForId | internal/tokenstore/token_store.go:66-117 | GetFreshIDToken has the same result, errors and effects over a store that evicts as over one that never does |
| TokenStoreLaws.EvictionUnobservableForAccess | internal/tokenstore/token_store.go:23-64 | So has GetFreshAccessToken, if and only if the call is not in one case: a refresh that stored its new access token, failed on a later write, and found the new token past its deadline at the reload |
| TokenStoreLaws.EvictionCanShow | internal/tokenstore/token_store.go:36-55 | That case at work: a configuration, records and an environment where the two stores answer differently |
| TokenStoreLaws.NoFailedWriteNoLoss | internal/tokenstore/token_store.go:119-156 | It does not arise when Redis takes every write |
| TokenStoreLaws.LastingTokensNoLoss | internal/tokenstore/token_store.go:119-156 | Nor when access tokens issued during the call cannot be evicted by its reload, whichever writes fail |
| TokenStoreLaws.EvictionUnobservable | internal/db/token_repo_redis.go:136-140 | Over whole sequences of calls on any IDs, each with the last two writes taken or with access tokens that last to the reload, eviction shows in no answer |
| TokenStoreLaws.NotDueIsReturnedUnchanged | internal/tokenstore/token_store.go:34-64 | Over any sequence of calls that come before the stored token is due, every answer is that token and the records stay the same |
| TokenStoreLaws.BetweenRefreshes | internal/tokenstore/token_store.go:34-64 | So after a successful refresh its access token is what all calls return until it is due |
| TokenStoreLaws.RefreshRateBound | internal/models/token.go:62-68 | k successful refreshes take more than (k-1)*(life-margin) when issued tokens live at least `life` |
| TokenRepoLaws.RepositoryStaysOwned | internal/db/token_repo_redis.go:38-83 | Over any run of logins and refreshes on any IDs, with any failed writes, every record has the type of its prefix, the ID of its key and the provider the ID belongs to |
| TokenRepoLaws.SlotsAgreeOnProvider | internal/oidc/client_store.go:37-44 | So all slots of one token ID agree on the provider |
| TokenRepoLaws.OwnersExist | internal/login/login_server_routes.go:65-78 | Token IDs drawn without a colon never clash with the prefixed ones, so every ID belongs to one provider |
| Sessions.Session.Touch | internal/models/session.go:37-51 | The new expiry, by the two TTLs |
| Sessions.SessionStore.Get | internal/sessions/session_store.go:80-121 | Which session a request gets, or which error, a failing repository included; whether it shares it with the context, and what the context holds afterwards |
| Sessions.SessionStore.Create | internal/sessions/session_maker.go:21-41 | A new session with its initial expiry becomes the session of the context; if none can be made nothing changes |
| Sessions.SessionStore.Save | internal/sessions/session_store.go:138-150 | Stores the current session unless there is none, it has no ID or the repository refuses; reports which |
| Sessions.SessionStore.Delete | internal/sessions/session_store.go:153-169 | Removes the record the cookie names if the repository lets it, and leaves an empty session in the context either way |
| Sessions.SessionStore.Middleware | internal/sessions/session_store.go:35-77 | Get, handler, save: what the handler does to the shared object is what is stored |
| SessionAnswers.ContextFirst | internal/sessions/session_store.go:81-85 | A live session in the request context is the one to use, shared, whatever else the request brings |
| SessionAnswers.WithoutCookie | internal/sessions/session_store.go:91-105 | A request without a cookie gets a session of the user of its bearer token, else of its basic credentials, with that user and the token IDs `renku:` and `gitlab:` plus the user, no ID and no end; else none is found |
| SessionAnswers.WithCookie | internal/sessions/session_store.go:106-120 | A request with a cookie gets the touched record of that ID, and nothing else, whatever its credentials; a failing repository, a missing and an expired record are told apart |
| SessionAnswers.TouchMovesTheEnd | internal/models/session.go:37-51 | Touching changes nothing but the end, to the earlier of now plus the idle TTL and creation plus a positive maximum; without an idle TTL to the latter, or no end |
| SessionAnswers.NewSession | internal/sessions/session_maker.go:21-41 | A new session has the TTLs of the configuration, begins now, and knows no user, tokens or login; it ends after the idle TTL, at once with a maximum of 0, never without an idle TTL |
| SessionAnswers.AfterLogout | internal/sessions/session_store.go:153-169 | After a deletion the rest of the request sees a session of nobody that is never stored, and exactly the record of the cookie is gone if the repository takes the removal |
| SessionLifetimes.SessionLifetime | internal/models/session.go:29-51 | Whichever repository calls fail on the way, a session that can be read is accepted if and only if no gap between saved accesses exceeds the idle TTL and the maximum TTL has not passed; an accepted, saved access leaves the expiry min(now + Idle, created + Max) |
| SessionLifetimes.ExpiryAlongRun | internal/sessions/session_store.go:107-121 | The stored expiry after any run, in terms of the accesses so far |
| SessionLifetimes.CreatedIsStored | internal/sessions/session_maker.go:21-41 | A request that creates a session and can write leaves it stored with its initial expiry, which is where a lifetime starts |
| SessionLifetimes.StillbornWithoutMax | internal/sessions/session_maker.go:34-35 | With a maximum TTL of 0 a new session expires at its creation, and is accepted later only if that very moment has not passed |
| SessionLifetimes.StillbornIsNotSaved | internal/sessions/session_store.go:138-149 | Nor is such a session stored at all, unless the save reads the same instant from the clock |
| SessionLifetimes.EvictionUnobservable | internal/db/session_repo_redis.go:35-46 | Over whole runs a request is accepted over an evicting store exactly when it is over one that keeps everything |
| SessionLifetimes.FetchIgnoresEviction | internal/sessions/session_store.go:107-120 | Eviction changes a lookup only from expired to not found |
| SessionLaws.LogoutSticks | internal/sessions/session_store.go:153-169 | After a request that deleted the session of its cookie, the repository taking the removal, neither its trailing save nor any later request brings the session back |
| SessionLaws.ServedLeavesDead | internal/sessions/session_store.go:106-120 | No request extends or recreates a session that is absent or expired when it arrives |
| SessionLaws.StaysWellFiled | internal/sessions/session_store.go:143-147 | Ephemeral sessions are never stored, and every record is filed under its own ID |
| Logins.LoginServer.GetLogin | internal/login/login_server_routes.go:15-37 | A login starts with the requested or the default sequence and takes its first step; without a new session it fails and changes nothing |
| Logins.LoginServer.GetCallback | internal/login/login_server_routes.go:39-89 | Reply, session, tokens and store after a callback, in every branch |
| Logins.LoginServer.NextAuthStep | internal/login/login_server_routes.go:202-240 | The next provider with a new state, or the end of the login, saved either way; a failure if no state can be drawn or the provider is unknown |
| Logins.LoginServer.SaveTokens | internal/sessions/token_handling.go:125-149 | Names the token ID in the session, then writes three tokens until one write fails |
| Logins.LoginServer.GetLogout | internal/login/login_server_routes.go:91-113 | As far as sessions go, a logout is a lookup and a delete; it fails if the removal does |
| LoginAnswers.Refuses | internal/login/login_server_routes.go:39-55 | A callback that does not present the nonempty state the session waits for, or comes when no provider is left, is refused and changes nothing |
| LoginAnswers.CallbackStores | internal/oidc/client.go:47-75 | An exchanged code leaves exactly the access, refresh and ID token that came, with their values and dates, in their slots, up to the first refused write, and notes the ID and, for renku, the user; any other callback touches no token |
| LoginAnswers.CallbackMovesOn | internal/login/login_server_routes.go:56-89 | An accepted callback takes its provider off the sequence and answers with the next provider and a new state, or the URL the login began with; nothing but the login fields changes |
| LoginAnswers.LoginSends | internal/login/login_server_routes.go:15-37 | A login begins with the providers asked for, or renku and, with GitLab, gitlab, sends its client to the first, and notes the URL asked for or the base URL |
| LoginAnswers.LoginStores | internal/sessions/session_maker.go:21-41 | The record stored by a login has that sequence, URL and state, no user and no tokens, and no other record changes |
| LoginAnswers.SentToTheNext | internal/login/login_server_routes.go:225-239 | A client is only sent to the provider at the head of the stored sequence, with the stored state |
| LoginAnswers.EndsWhereItShould | internal/login/login_server_routes.go:207-223 | Over any run of requests, a login is finished by the accepted callback of its last provider and by no other, and ends at the URL stored when it began |
| LoginRuns.ServeCallback | internal/sessions/session_store.go:35-77 | A callback through the session middleware leaves the stored sessions and tokens that the runs below are made of |
| LoginRuns.OneVisit | internal/sessions/session_store.go:80-150 | Whatever a visit is, the stored session ends up with the login fields its callback made, if it accepted one, and unchanged ones otherwise |
| LoginRuns.LiveCallback | internal/login/login_server_routes.go:39-89 | A callback to a live session stores exactly the touched session as the callback changed it |
| LoginRuns.LoginIsStored | internal/login/login_server_routes.go:15-37 | A login stores a live session with the whole sequence ahead, the first state and no tokens, from which a run can start |
| LoginRuns.ServeLogin | internal/sessions/session_store.go:35-77 | `GetLogin` behind the session middleware leaves exactly those stored sessions; without a new session, those that a request doing nothing leaves |
| LoginLaws.CallbacksConsumeProviders | internal/login/login_server_routes.go:53-57 | Over any run of requests on the stored session: its sequence is what is left of the first one after as many providers as it accepted callbacks |
| LoginLaws.AtMostAsManyAsProviders | internal/login/login_server_routes.go:40-57 | A login of n providers accepts at most n callbacks in any such run, and none once the sequence is empty |
| LoginLaws.StatesAcceptedOnce | internal/login/login_server_routes.go:202-240 | With fresh states and clients that present only states they were sent to a provider with, no state value is accepted twice by a stored session, whatever providers its login names, whether or not exchanges succeed and whatever is served in between |
| LoginLaws.HandedOutIsConfigured | internal/login/login_server_routes.go:229-240 | A state that was handed out and that the session waits for has a configured provider behind it |
| LoginLaws.ConfiguredOnce | internal/login/login_server_routes.go:40-64 | At most once as well, whatever clients present, if the accepted callbacks take configured providers |
| LoginLaws.RepeatableCallback | internal/login/login_server_routes.go:56-61 | The stored session accepts a callback again exactly when the write was refused, or another provider follows and this one is not configured or both the exchange and the drawing of a state failed |
| LoginLaws.RefusedWriteRepeats | internal/login/login_server_routes.go:210-217 | A refused write at work: a login, and a callback that reports it finished and that the stored session accepts again |
| LoginTokens.MapHoldsExchanged | internal/login/login_server_routes.go:56-88 | Over any run of requests: the stored session maps a provider exactly when it did at first or an accepted callback of that configured provider had its exchange succeed, whatever becomes of other exchanges and of token writes |
| LoginTokens.MapIsComplete | internal/login/login_server_routes.go:79-88 | A login that began without tokens maps exactly the providers it has behind it if and only if each of them had such a callback, and never any other |
| LoginTokens.LoginWithoutTokens | internal/login/login_server_routes.go:79-88 | A failed exchange at work: a login of one provider that finishes with no tokens |
| LoginTokens.MapIsBacked | internal/sessions/token_handling.go:125-149 | A mapped provider whose last successful exchange had its token writes taken is mapped to an ID with stored access, refresh and ID tokens of that provider, whatever fails elsewhere |
| LoginValues.MapLeadsToItsTokens | internal/sessions/token_handling.go:125-149 | Over any run of requests, the map of the stored session leads to exactly the access, refresh and ID token of the last exchange, with their values and dates, as long as nothing else exchanges or refreshes under that ID |
| LoginTokens.LoginProgress | internal/login/login_server_routes.go:65-78 | So after k accepted callbacks on a sequence, their exchanges succeeding, the stored session waits for the rest and maps exactly the first k providers to IDs with stored tokens of theirs |
| LoginTokens.DefaultLoginMatchesBearer | internal/sessions/session_store.go:226-248 | Over any run of requests: once both callbacks of a stored renku, gitlab login of user U are accepted and exchanged, the stored session has the user and the token map of the session that a request with no cookie and a bearer token of U gets from the store, `renku:U` and `gitlab:U` |
| LoginLaws.CallbackIsAHandler | internal/login/login_server_routes.go:39-89 | To the session store a callback is one more handler, so the session results cover logins |
| LoginTokens.PrefixOwner | internal/login/login_server_routes.go:65-78 | Only the provider of the prefix ever stores tokens under a `renku:` or `gitlab:` ID |
| RedirectCache.ReturnedIsUpstreams | internal/redirects/redirect_store.go:115-149 | In every interleaving an entry returned was the upstream answer for exactly that key, and at the deciding clock reading at most the TTL old, the boundary included, or just fetched; an error means its own request failed |
| RedirectCache.SingleFlight | internal/redirects/redirect_store.go:128-147 | Of two stored fetches for one key the second is decided on more than the TTL after the first was stored |
| RedirectCache.AnswersAreApart | internal/redirects/redirect_store.go:128-147 | So a burst of misses on one key makes one successful request |
| RedirectCache.NeverStuck | internal/redirects/redirect_store.go:121-129 | While a thread is not done some thread, a lock holder if there is one, can take a step, and the step brings it nearer its end |
| RedirectCache.KeysAreInjective | internal/redirects/redirect_store.go:99-113 | Different accepted paths have different keys, and a key decodes to its URL |
| RedirectCache.PathsLookedUp | internal/redirects/redirect_store.go:99-104 | Exactly the nonempty paths under the prefix are looked up |
| RedirectCache.KeysAreSafe | internal/redirects/redirect_store.go:108-112 | A key holds no separator or other reserved byte, so that it can stand in the path of the API |
| RedirectStores.RedirectStore.GetRedirectEntry | internal/redirects/redirect_store.go:115-149 | Result and cache after an undisturbed lookup, for paths in and outside the prefix |
| RedirectStores.LookupIsItsSteps | internal/redirects/redirect_store.go:115-149 | The steps of the concurrent machine, taken by one thread alone, are exactly that lookup |
| RedirectStores.CacheAgrees | internal/redirects/redirect_store.go:115-149 | While the upstream answers stand, any sequence of lookups answers as the upstream would |
| PercentCodec.EscapeRoundTrip | internal/redirects/redirect_store.go:110-110 | Decoding undoes encoding, for every byte string |
| PercentCodec.ByteEscaped | internal/redirects/redirect_store.go:110-110 | Which bytes stand for themselves, in a path and in a query, and that any other becomes two upper-case hexadecimal digits, or a plus sign for a space in a query |
| PercentCodec.RawAlphabet | internal/revproxy/middlewares.go:84-88 | Which bytes a raw path may hold |
| PathRewrite.PrintParse | internal/revproxy/middlewares.go:84-88 | Printing a URL and parsing it again keeps the decoded path, the escapes and the query |
| PathRewrite.StripKeepsEscapes | internal/revproxy/middlewares.go:111-112 | Cutting the prefix from both views of a path keeps the escapes of the rest |
| PathRewrite.Request.UiServerPathRewrite | internal/revproxy/middlewares.go:67-124 | Never fails; decoded path, escapes and query after the rewriting, for every path; a notebooks path, or one whose prefix was sent escaped, is escaped anew |
| PathTargets.Route | internal/revproxy/main.go:62-62 | Rewriting and then the notebooks rule, for every UI-server path: the query is kept, the decoded path goes where it is meant to, if and only if it is not a notebooks path with dot segments, and the escapes survive except in a notebooks path or behind an escaped prefix |
| PathTargets.DottedPathLeaves | internal/revproxy/main.go:62-62 | For one, `/ui-server/api/notebooks/..` ends at `/api/data/` |
| PathTargets.ResolvedUnchanged | internal/revproxy/main.go:62-62 | Resolving a path leaves it alone exactly when it has no dot segment |
| PathTargets.ResolvedEscaped | internal/revproxy/main.go:62-62 | Escaping and dot-segment removal commute |
| PathTargets.NotebooksEscapesLost | internal/revproxy/middlewares.go:109-120 | A notebooks URL that went through rewriting and rule has the escapes it was sent with exactly when those are the default ones |
| PathTargets.EscapedSlashLost | internal/revproxy/middlewares.go:109-120 | For one, an escaped slash after `/ui-server/api/notebooks` is lost |
| PathAnswers.ParseRefuses | internal/revproxy/middlewares.go:84-87 | A target fails to parse exactly for a control byte, or a percent sign in its path that two hexadecimal digits do not follow |
| PathAnswers.EndpointStays | internal/revproxy/middlewares.go:71-78 | Each of the five endpoints, with whatever follows, leaves the rewriting and the rule unchanged |
| PathAnswers.OtherStays | internal/revproxy/middlewares.go:80-80 | So does every path that is neither for authentication nor for the API |
| PathAnswers.AuthGoes | internal/revproxy/middlewares.go:79-91 | `/ui-server/auth` goes to `/api/auth`, with the rest, its escapes and the query |
| PathAnswers.NotebooksGo | internal/revproxy/main.go:62-62 | `/ui-server/api/notebooks` goes to `/api/data/notebooks` with the rest, resolved and escaped anew |
| PathAnswers.ApiGoes | internal/revproxy/middlewares.go:109-120 | Any other API path loses `/ui-server`, and keeps the rest, its escapes and the query |
| PathAnswers.RewrittenLeavesUi | internal/revproxy/middlewares.go:79-121 | A rewritten path that is not for notebooks no longer names the UI server |
| PathAnswers.NotebooksComeBack | internal/revproxy/main.go:62-62 | A notebooks path does exactly when its dot segments climb to the top and leave `ui-server` there |
| PathAnswers.ClimbingComesBack | internal/revproxy/main.go:62-62 | For one, three times `..` and then `ui-server` |
| PathAnswers.UpCancels | internal/revproxy/main.go:62-62 | A segment and `..` behind it cancel anywhere in a path |
| PathAnswers.HereVanishes | internal/revproxy/main.go:62-62 | `.` is dropped anywhere, but where `..` has taken even the root |
| PathAnswers.HereRestoresRoot | internal/revproxy/main.go:62-62 | And there it puts the root back |
| PathAnswers.UpAtRoot | internal/revproxy/main.go:62-62 | At the root `..` goes nowhere |
| Decimal.AtoiItoa | internal/models/serializable_int.go:9-20 | Decimal text reads back as the same number, for every 64-bit integer and no other |
| Decimal.ItoaIsUsual | internal/models/serializable_int.go:9-11 | The text of a number is the usual one: sign, positional digits, no leading zero |
| Decimal.AtoiSigns | internal/models/serializable_int.go:13-20 | A plus sign changes nothing, and what is not digits behind at most one sign is refused |
| RedisCodec.SerializeStruct | internal/db/redis_adapter.go:20-43 | The alternating list of names and texts of the exported fields |
| RedisCodec.ConvertValuesToMap | internal/db/redisadapters_mock.go:42-53 | The pairs of an even list, the later of two winning; an error for an odd one |
| RedisCodec.PairsAreTheLast | internal/db/redisadapters_mock.go:42-53 | The map of a list has exactly its keys, each with the value that follows it last |
| RedisCodec.SerializedHolds | internal/db/redisadapters_mock.go:42-65 | The hash of a struct holds its exported fields and nothing else |
| RedisCodec.StructRoundTrip | internal/db/redis_adapter.go:20-63 | For every struct, writing and reading back is the identity exactly when every exported field has a text form that reads back |
| RedisRecords.SessionRoundTrip | internal/db/session_repo_redis.go:14-46 | A session written is the session read, exactly when its dates and TTLs have a text form |
| RedisRecords.TokenRoundTrip | internal/db/encryption.go:23-42 | A token written through encryption is read back in the clear, exactly when its expiry has a text form |
| RedisHashes.WriteLeaves | internal/db/session_repo_redis.go:35-53 | A write leaves under its key, field by field and text by text, the record of the session, or of the token with its value as nonce and sealed text; a removal leaves none; every other record stays |
| RedisHashes.ReadFailures | internal/db/redis_adapter.go:45-63 | A record is not found exactly if it is absent or empty, and undecodable exactly if a value has no text or a text does not decode |
| RedisHashes.StoredValueIsOpened | internal/db/encryption.go:33-42 | A stored value is opened under the nonce in front of it; one that does not open is never returned |
| RedisAdapters.MergeReplaces | internal/db/redisadapters_mock.go:55-65 | Merging fields into a record is replacing it exactly when the new record has every field of the old |
| RedisAdapters.MergingIsReplacing | internal/db/redisadapters_mock.go:55-65 | Over any run of session and token writes and removals, Redis and the mock client hold the same |
| RedisAdapters.StoreShowsRecords | internal/db/token_repo_redis.go:86-141 | After any run of writes, reading through text and cipher shows exactly the records last written |
| RedisAdapters.MockRedisClient.HSet | internal/db/redisadapters_mock.go:55-65 | Replaces the record; by an empty one, and with an error, when the list is odd |
| RedisAdapters.MockRedisClient.Del | internal/db/redisadapters_mock.go:67-74 | Removes exactly the given keys |
| RedisAdapters.MockRedisClient.HGetAll | internal/db/redisadapters_mock.go:76-102 | The texts of the record, none if there is no record, an error if a value has no text |
| RedisAdapters.RedisAdapter.GetSession | internal/db/session_repo_redis.go:14-33 | The decoded session; not found for a missing or empty hash |
| RedisAdapters.RedisAdapter.SetSession | internal/db/session_repo_redis.go:35-46 | Stores the session under its key; against the mock client, which never expires records, both commands succeed |
| RedisAdapters.RedisAdapter.RemoveSession | internal/db/session_repo_redis.go:48-53 | Removes the record of the session |
| RedisAdapters.RedisAdapter.GetAuthToken | internal/db/token_repo_redis.go:86-109 | The decoded and decrypted token, or which of the two failed |
| RedisAdapters.RedisAdapter.SetAuthToken | internal/db/token_repo_redis.go:111-141 | Refuses unknown types and missing nonces, changing nothing; otherwise stores the encrypted token |

## Left out

- TokenRepos.TokenRepo.SetToken: a write whose HSET is taken and whose EXPIREAT or PERSIST then fails returns an error in the source although the record is stored (internal/db/token_repo_redis.go:124-140); here a write that fails stores nothing, in the machine too.
- RefreshMany.EveryRunIsSeen: each ID has its own account at its provider; a provider that revokes the refresh token of one ID over another's is not modelled.
- RefreshEviction.EvictionAddsNothing: the shadowing run has reads fail where this one found a record evicted; that it needs to is `EvictionCanShow`.
- TokenStores.TokenStore.GetFreshAccessToken: proved for a call that nothing disturbs; disturbed calls are the business of the machine, whose steps it takes.
- PathRewrite.Request.UiServerPathRewrite: URLs in origin form only, and no '#' or control byte in a query, which an HTTP client does not send and a Go server refuses respectively.
- PathTargets.Route: applies the notebooks rule wherever its pattern matches; which requests the router hands to it is not modelled.
- Sessions.SessionStore.Middleware: a request is atomic, because the code does not protect two requests in flight on one session; the repository answers all reads of one request or none, and the same for writes and removals.
- Tokens.NewClientStore: what makes a provider's configuration valid is the OIDC library's business, and one flag here.
- LoginTokens.LoginProgress: says what the callbacks stored; Redis may evict those tokens once they have expired.
- Logins.LoginServer.GetCallback: the zitadel handlers either call back with a token set or fail.
- Logins.LoginServer.NextAuthStep: the lookup for product metrics at the end of a login.
- Logins.LoginServer.GetLogout: the lookup of the ID-token hint, which may refresh the tokens of the session's ID like any other call of the token store, and the rendered page.
- RedisAdapters.MockRedisClient.HSet: keys in the argument list are strings, as the only caller makes them; the source would panic otherwise.
- RedisRecords.TokenRoundTrip: the cipher itself is foreign code with one law; a stored value shorter than a nonce makes the source panic and the model report that.
- RedisAdapters.RedisAdapter.SetSession: over the mock client, as is SetAuthToken; deadlines and refused writes of a real Redis are in `TokenRepo` and `Sessions`. A nil map or list is not told from an empty one.
- RedisAdapters.RedisAdapter.SetAuthToken: the same.
- RedirectStores.RedirectStore.GetRedirectEntry: the HTTP request to the upstream and its JSON body are one reply.
- HTTP serving, routing, proxying, header injection, metrics, logging, templates and generated code: no state worth proving.
- OIDC discovery, token signatures, secure cookies: foreign code; credentials come in as verified subjects, cookies as session IDs.
- Configuration loading: library driven; only the TTL validation is used.
- The per-provider token lookups of the session store (internal/sessions/token_handling.go:41-123): a map lookup before the token store calls modelled here.
- The redirect middleware (internal/redirects/redirect_store.go:151-199): turns a lookup into a response.
- Tokens cached in the request context (internal/sessions/token_handling.go:11-39): nothing writes those keys.
- Sessions with both TTLs 0: production validation forbids them.
