# Identity server: a verified model

This project models the server of the identity provider (`apps/server/internal`) and proves what its
documentation and its tests rely on: OAuth codes and refresh-token families, consent, browser sessions and
logout fan-out, the login limiter, audit paging, organisations, password rows, scope strings and client seeding.
`dafny verify dfyconfig.toml` checks everything.

## How it is put together

| file | what it holds |
|---|---|
| `Domain.dfy`, `Store.dfy` | the rows, the store's maps as one value with one function per operation, and the in-memory store as a class whose methods are proved equal to those functions |
| `Grants.dfy`, `Frames.dfy`, `Runs.dfy` | `/authorize`, `/consent` and `/token` as a state machine of interleaved requests: a thread is a request between two store operations; finite runs |
| `Ledger.dfy`, `Lineage.dfy`, `Rotation.dfy`, `Revival.dfy` | single use of codes and refresh tokens, the path of each refresh family, when a family is dead for good, and exactly when it is not |
| `Soundness.dfy`, `Provenance.dfy`, `Accounts.dfy`, `Consents.dfy` | what justifies an exchange, where every stored token comes from, the accounts and clients behind them, and what the stored consent is |
| `Vetting.dfy` | the account lookup and the client authentication behind everything that is stored |
| `Scene.dfy`, `Flows.dfy` | putting runs together, for the results that exhibit one |
| `Atomic.dfy`, `Prompt.dfy`, `Fanout.dfy`, `Indexing.dfy`, `Replay.dfy` | runs in which each request is served alone (each is also an interleaved run), the life of a grant, the fan-out index served alone and interleaved, and token replay |
| `Ends.dfy`, `Answers.dfy` | how a request served alone ends; exactly how each is answered and what it leaves, in terms of the stored rows |
| `SessionService.dfy`, `Server.dfy`, `Logout.dfy` | the handlers as methods of a class, proved to do what the machine's request does; logout and its two loops |
| `RateLimit.dfy`, `Login.dfy`, `LoginsInFlight.dfy` | the limiter over shared backing arrays, and the login form's use of it, one at a time and overlapping |
| `Audits.dfy` | the two implementations of audit paging, and a walk along the cursors |
| `OrgAdmin.dfy`, `OrgRuns.dfy`, `Organizations.dfy`, `Tenancy.dfy` | membership handlers served one at a time and interleaved, the active organisation, and runs of both |
| `Phc.dfy`, `RowFormat.dfy`, `Seed.dfy`, `Scopes.dfy`, `Sorting.dfy` | password rows, seeding, scope strings, sorting and Go's string order |

The handlers are Dafny methods over the store object. Their contracts tie the new state to specification functions;
for the grant flows that function runs the state machine's steps one after the other and reads the answer off the events
they log, so the theorems about the machine are theorems about the handlers. `Answers.dfy` says of each handler, without
naming any test of the machine, exactly which requests it answers and how. In the machine a step is one store
operation, or one clock read whose value is then tested; any number of requests interleave, sessions end, clients and
accounts change, and an internal error may end a request.

Assumptions, stated as preconditions or built into the machine:

- A value drawn from the random source, or an ID, was never returned before. Tokens appear by their hash only:
  a presented secret matters through its hash alone.
- The store operations succeed, as they always do in memory. In particular PutConsent, AddSessionClient and
  RevokeFamily do: the handlers ignore their errors and go on. TakeRefresh fails only for an unknown or used token.
- A string is a sequence of bytes, as in Go.
- User IDs contain no `|` and client IDs are not empty; a client is stored under its own ID.
- The clock does not go back. In the runs called atomic a request reads one instant.

## What turned out not to hold, and the exact condition

- A revoked family can come back: a rotation that has taken a token is not stopped by a revocation that comes before it
  stores the child. `Revival.ARevokedFamilyReturns` gives a run. `Revival.RevivedOnlyByRotationInFlight` says exactly when
  a later state can have an unrevoked token: when a request in flight is past the checks of its rotation, or is at them
  with an unexpired token of its own client; `Revival.RevocationIsFinalUnlessOvertaken` says it of RevokeFamily. Otherwise
  the family is dead for ever. That no later response carries it also needs that no request has stored a token of it and
  is about to answer.
- The last-owner check and the change it guards are separate store operations. `OrgRuns.TwoRequestsInFlight` gives a run in
  which two removals or demotions leave no owner. The pending writes of a state can do so exactly when every owner is
  named by a request past its check (`OrgRuns.EmptiedExactlyWhenAllAreNamed`), and the only steps that lead there are
  checks that pass while every other owner is so named, and the storing of a first owner who is
  (`OrgRuns.SafeExactlyWhenCareful`). Runs without such steps, in particular one request at a time, keep an owner.
- Consent is overwritten, not merged. The stored consent is the last one put for the pair, and it covers a code exactly as
  long as that one does (`Consents.CodeStaysCoveredExactly`); `Consents.AConsentOverwritten` gives a run in which it stops.
- The life of a grant is bounded by eleven code lifetimes when requests are served one at a time. Interleaved, the bound
  holds for a code exactly when it is issued no later than its authorize request expires
  (`Prompt.ElevenLifetimesExactly`); `Prompt.AnExchangePastTheBound` gives runs that pass it by any amount.
- The limiter's question and the failure it leads to are separate calls. With up to k logins for a key between the two, the
  best bound on the wrong guesses in a window is the maximum less one plus k (`LoginsInFlight.GuessBoundIsExact`), so the
  configured maximum holds exactly when one login for a key runs at a time; `LoginsInFlight.OverlapReaches` gives the runs.

## Model

| member | source | states |
|---|---|---|
| `MemoryStore.Store.DeleteSession` | apps/server/internal/store/memory/store.go:134-142 | deletes the session and the fan-out set of its SID, and nothing else |
| `MemoryStore.Store.AddSessionClient` | apps/server/internal/store/memory/store.go:144-155 | adds the client to the set of the SID; an empty SID or client changes nothing |
| `MemoryStore.Store.ListSessionClients` | apps/server/internal/store/memory/store.go:157-167 | lists the fan-out set strictly sorted, each client once |
| `MemoryStore.Store.TakeCode` | apps/server/internal/store/memory/store.go:235-248 | one atomic step: unknown, already used, or marked used and returned; every other row as before |
| `MemoryStore.Store.TakeRefresh` | apps/server/internal/store/memory/store.go:267-280 | one atomic step: unknown, already revoked, or marked revoked and returned; every other row as before |
| `MemoryStore.Store.RevokeFamily` | apps/server/internal/store/memory/store.go:282-292 | the loop revokes exactly the tokens of the family and leaves every other row alone |
| `MemoryStore.Store.PutConsent` | apps/server/internal/store/memory/store.go:311-316 | overwrites the consent under the joined key |
| `MemoryStore.Store.GetSessionBySID` | apps/server/internal/store/memory/store.go:123-132 | some session with that SID, or not found exactly when there is none |
| `MemoryStore.Store.ListOrganizationsForUser` | apps/server/internal/store/memory/orgs.go:41-54 | each organisation the user is in once, in order of creation |
| `MemoryStore.Store.ListOrganizationMembers` | apps/server/internal/store/memory/orgs.go:69-82 | each member row once, in order of joining |
| `MemoryStore.MembersListedIs` | apps/server/internal/store/memory/orgs.go:69-82 | such a list has every member row, as many rows as members, by instant of joining |
| `MemoryStore.Store.AddOrganizationMember` | apps/server/internal/store/memory/orgs.go:56-67 | conflict if already a member, else the row is added; nothing else changes |
| `MemoryStore.Store.SetSessionActiveOrgBySID` | apps/server/internal/store/memory/orgs.go:140-154 | changes the choice of one session with that SID; empty SID invalid, unknown SID not found |
| `Rotation.GrantsAnsweredOnce` | apps/server/internal/web/token.go:45-66 | in every interleaved run each code and each refresh token yields at most one access token, one refresh token and one response, and is spent |
| `Rotation.CodeStaysUsed` | apps/server/internal/store/memory/store.go:235-248 | a code that is taken stays taken for the rest of the run, whatever the later checks say |
| `Rotation.FamiliesHaveDistinctCodes` | apps/server/internal/web/token.go:128-150 | every family starts from one used code, and different families from different codes |
| `Rotation.RotationLineage` | apps/server/internal/web/token.go:69-92 | the tokens of a family form one path from a code; the unrevoked tokens and the rotations in flight are together at most one, and only of the newest token |
| `Rotation.RevokeKills` | apps/server/internal/store/memory/store.go:282-292 | revoking a family while no request in flight can still store a token of it kills it |
| `Rotation.FamilyDeathIsPermanent` | apps/server/internal/web/token.go:76-90 | a family whose tokens are all revoked, with no request in flight that can still store one, stays so in every later state, and none is added |
| `Rotation.DeadFamilyIsNeverAnswered` | apps/server/internal/web/token.go:94-155 | no later response carries a token of a dead family, once no request is about to answer with one |
| `Revival.RevivedOnlyByRotationInFlight` | apps/server/internal/web/token.go:69-92 | a family whose tokens are all revoked has an unrevoked token again in some run if and only if a request in flight has taken a token of it and is past its checks, or is at its checks with an unexpired token of its own client |
| `Revival.RevocationIsFinalUnlessOvertaken` | apps/server/internal/web/token.go:76-90 | after RevokeFamily itself every token of the family is revoked, and the family comes back in some run if and only if such a request was in flight when it ran |
| `Revival.RevocationOvertaken` | apps/server/internal/web/token.go:69-92 | from every reachable state with a live token there is a run in which RevokeFamily of its family runs and the family then has an unrevoked token |
| `Revival.ARevokedFamilyReturns` | apps/server/internal/web/token.go:69-92 | such a run from the initial state, in every configuration a client can use |
| `Lineage.StepKeeps` | apps/server/internal/web/token.go:33-155 | every step of every request keeps the ledger of spent grants and the forest of refresh families |
| `Ledger.MintKept` | apps/server/internal/web/token.go:128-150 | storing the child of the newest token of a family keeps all families paths with only the newest token live |
| `Ledger.BookStep` | apps/server/internal/web/token.go:45-66 | a request that takes only unspent grants and writes each of its answers once keeps every grant answered once |
| `Soundness.GrantSoundness` | apps/server/internal/web/token.go:45-66 | every accepted exchange follows an authorize request of the same client with that redirect URI registered at that time and a challenge that is the S256 image of a verifier of 43 to 128 characters, and a consent of the code's user for that client that holds every scope of the code; it comes before the code expires, and so within eleven code lifetimes and the time the issuing request takes |
| `Prompt.GrantsAreShortLived` | apps/server/internal/web/authorize.go:48-56 | with requests served one at a time, an exchange comes less than eleven code lifetimes after its authorize request was built |
| `Prompt.ElevenLifetimesExactly` | apps/server/internal/web/authorize.go:114-131 | interleaved: every exchange of a code, in every run, keeps that bound if and only if the code is issued no later than its authorize request expires |
| `Prompt.AnExchangePastTheBound` | apps/server/internal/web/authorize.go:84-149 | a run from the initial state with an exchange past the bound, and as late as one likes |
| `Prompt.RunsInTime` | apps/server/internal/web/token.go:45-66 | in every run each exchange comes before the expiry of the code it takes, and the rows of the codes change only in their mark of use |
| `Soundness.ConsentKeyIsPairKey` | apps/server/internal/store/memory/store.go:311-326 | the joined consent key identifies the pair when user IDs contain no separator |
| `Consents.StoredConsentIsTheLastPut` | apps/server/internal/store/memory/store.go:311-326 | in every interleaved run the stored consent of a user and a client is the last one put for that pair |
| `Consents.CodeStaysCoveredExactly` | apps/server/internal/web/authorize.go:84-112 | every code rests on some consent of its user for its client that holds all its scopes, and the stored consent holds them if and only if the last one put for the pair does |
| `Consents.AConsentOverwritten` | apps/server/internal/web/authorize.go:84-112 | a run from the initial state in which a second authorize request with other scopes overwrites the consent that an unused, unexpired code rests on |
| `Soundness.CodesAreSound` | apps/server/internal/web/authorize.go:114-131 | every stored code has canonical scopes holding openid, and a nonempty SID was started for its user |
| `Soundness.StepKeeps` | apps/server/internal/web/authorize.go:14-162 | every step keeps the evidence in the log behind each pending request, code, session and exchange |
| `Provenance.AccessTokenProvenance` | apps/server/internal/web/token.go:94-120 | every stored access token has exactly the client, user, scopes and SID of the used code at the root of its chain, canonical scopes and a session started for its user |
| `Provenance.RefreshTokenProvenance` | apps/server/internal/web/token.go:128-150 | every stored refresh token repeats the terms of the used code at the root of its family; its scopes are canonical and hold openid and offline_access, and a named session was started for its user |
| `Accounts.RefreshUserIsKnown` | apps/server/internal/store/memory/store.go:50-81 | the user of every stored refresh token is an account |
| `Vetting.EnabledUserBehind` | apps/server/internal/web/server.go:176-190 | in every run, behind every parked request, consent and code lies an earlier lookup that found the account of its user stored and not disabled |
| `Vetting.ProvedClientBehind` | apps/server/internal/web/token.go:180-202 | in every run, behind every exchange and every stored access or refresh token lies an earlier request in which its client was found stored and presented its secret if confidential, none if public |
| `Vetting.SeenIsStored` | apps/server/internal/web/token.go:180-202 | the account and client rows logged as seen are the ones stored at that step |
| `Atomic.AtomicRunIsARun` | apps/server/internal/web/token.go:17-155 | a run of requests served one at a time is a run of the interleaved machine |
| `Atomic.NothingInFlight` | apps/server/internal/web/token.go:17-155 | between requests served one at a time none is in flight |
| `Replay.PresentedTokenRotatesOrKills` | apps/server/internal/web/token.go:69-92 | presenting a stored refresh token either rotates it to one new live token or leaves its whole family revoked; every other family is unchanged |
| `Replay.ReplayKillsFamilyForEver` | apps/server/internal/web/token.go:76-90 | after a used token is presented every token of its family is revoked in every later state, none is added and no response carries one |
| `Fanout.FanOutIsExact` | apps/server/internal/web/authorize.go:114-136 | for every stored session the fan-out set is exactly the clients of the codes issued with its SID, and no set outlives its session |
| `Fanout.TokenHoldersAreListed` | apps/server/internal/web/authorize.go:114-136 | every client holding an access or refresh token of a stored session is in its fan-out set |
| `Indexing.FanOutUpToEntering` | apps/server/internal/web/authorize.go:114-136 | interleaved: for every stored session the clients of its codes are those in its fan-out set and those of requests between PutCode and AddSessionClient; no set, even of a session that is gone, holds a client without a code |
| `Indexing.TokenHoldersAreListedOrEntering` | apps/server/internal/web/authorize.go:114-136 | interleaved: every client holding an access token of a stored session is in its fan-out set or about to enter it |
| `SessionService.Service.Start` | apps/server/internal/session/service.go:28-44 | stores the row with the given hash and SID, the user, no chosen organisation and the configured lifetime; that hash and SID are new is an assumption of the runs |
| `SessionService.Service.LookupSession` | apps/server/internal/session/service.go:55-69 | the live session of the cookie; an expired one is deleted on the way |
| `SessionService.Service.End` | apps/server/internal/session/service.go:71-79 | deletes the session of the cookie with its fan-out set |
| `Ends.EndAfterStep` | apps/server/internal/web/authorize.go:14-162 | store, pending requests and answer of a request served alone are those of what is left of it after one step of the state machine, unless the step answers |
| `WebServer.Server.CurrentUser` | apps/server/internal/web/server.go:176-190 | the user of the live session of the cookie if the account is stored and not disabled, deleting an expired session |
| `WebServer.Server.CurrentSID` | apps/server/internal/web/server.go:192-202 | the SID of the live session or the empty string, deleting an expired session |
| `WebServer.Server.HasConsent` | apps/server/internal/web/authorize.go:151-162 | true if and only if there is a stored consent that holds every wanted scope |
| `WebServer.Server.IssueCodeRedirect` | apps/server/internal/web/authorize.go:114-149 | the code row, the fan-out entry and the answer are those of the machine |
| `WebServer.Server.HandleAuthorize` | apps/server/internal/web/authorize.go:14-82 | store, pending requests and answer are those of the machine's request, on every branch |
| `WebServer.Server.HandleConsent` | apps/server/internal/web/authorize.go:84-112 | store, pending requests and answer are those of the machine's request: expiry, denial, consent and code |
| `WebServer.Server.AuthenticateClient` | apps/server/internal/web/token.go:180-202 | the stored client, if and only if it is confidential and the secret matches, or public and none is presented |
| `WebServer.Server.TokenAuthCode` | apps/server/internal/web/token.go:33-67 | the code is taken before it is checked; store and answer are those of the machine's request |
| `WebServer.Server.TokenRefresh` | apps/server/internal/web/token.go:69-92 | rotation, expiry, wrong client and reuse with family revocation, as in the machine |
| `WebServer.Server.WriteTokenResponse` | apps/server/internal/web/token.go:94-155 | access token first, then the refresh token in the given or a new family; nothing if the user is gone |
| `Answers.CodeAnsweredExactly` | apps/server/internal/web/token.go:33-67 | a code request is answered with tokens if and only if its client proves itself, the code is stored, unused, unexpired, of that client and redirect URI, its challenge is the S256 image of a verifier of 43 to 128 characters, and its user exists |
| `Answers.ProvedCodeRequest` | apps/server/internal/web/token.go:45-66 | a stored unused code presented by a proved client is used up whatever follows; the rows stored for an answered one are those of its terms and lifetimes, nothing else changes |
| `Answers.UnprovedCodeRequest` | apps/server/internal/web/token.go:180-202 | of an unknown client, a confidential one without its secret or a public one with a secret: refused, and the code is not taken |
| `Answers.RefreshAnsweredExactly` | apps/server/internal/web/token.go:69-92 | a refresh request is answered with tokens if and only if its client proves itself and the token is stored, unrevoked, unexpired, of that client and of a user that exists |
| `Answers.ProvedRefreshRequest` | apps/server/internal/web/token.go:69-92 | exactly what is left: the rotated row and its child, the used row alone when the user is gone, or the whole family revoked |
| `Answers.UnprovedRefreshRequest` | apps/server/internal/web/token.go:180-202 | a refresh request of a client that does not prove itself is refused and changes nothing |
| `Answers.AuthorizeAnsweredExactly` | apps/server/internal/web/authorize.go:14-82 | an authorize request is answered with a code or the consent page if and only if the query is acceptable and the browser has a live session of a stored enabled account; with a code if and only if the stored consent holds every scope asked for |
| `Answers.SignedInUserAsks` | apps/server/internal/web/authorize.go:48-82 | the code row repeats the query, the user and the session; without consent the request is parked for ten code lifetimes and nothing is issued |
| `Answers.DisabledUserAsks` | apps/server/internal/web/server.go:176-190 | an authorize request of a missing or disabled account is refused and changes nothing |
| `Answers.AskedUnlessAgreed` | apps/server/internal/web/authorize.go:151-162 | in every state of every run a signed-in user is issued a code if and only if the last consent put for the pair holds every scope asked for, and is asked otherwise |
| `Answers.ConsentAnsweredExactly` | apps/server/internal/web/authorize.go:84-112 | a decision is answered with a code if and only if it allows a pending unexpired request and comes from a live session of a stored enabled account |
| `Answers.SignedInUserDecides` | apps/server/internal/web/authorize.go:84-131 | a decision takes the request; allowing it in time stores a consent to exactly its scopes and a code for exactly its terms |
| `Answers.DisabledUserDecides` | apps/server/internal/web/server.go:176-190 | a decision of a missing or disabled account is refused and changes nothing; the request stays pending |
| `Logout.NotifyBackChannel` | apps/server/internal/web/end_session.go:169-218 | one logout token for exactly the fan-out clients with a usable back channel, each with its client as audience, this SID and its own jti |
| `Logout.FrontChannelIFrames` | apps/server/internal/web/end_session.go:136-167 | the list is free of duplicates and is exactly the set of front-channel URLs of the fan-out clients |
| `Logout.EndBrowserSession` | apps/server/internal/web/end_session.go:123-134 | deletes the session of the cookie and gives the SID it had while live |
| `Logout.FinishLogout` | apps/server/internal/web/end_session.go:72-105 | notifies and lists from the state before, then ends exactly that session |
| `Logout.LogoutEndsOneSession` | apps/server/internal/store/memory/store.go:134-142 | after logout the session and its fan-out set are gone and every other session and set is as it was |
| `Logout.TokenHoldersAreNotified` | apps/server/internal/web/end_session.go:169-218 | in what is sent when a session ends, some token has as its audience each client that holds an access token of the session and has a usable back channel |
| `Logout.NotifiedExactly` | apps/server/internal/web/end_session.go:169-218 | in every state of every run a client is sent a logout token if and only if it is listed, stored and has a back channel that parses and works; each once, with this SID, subject, instant and its own jti |
| `Logout.LogoutReads` | apps/server/internal/web/end_session.go:72-105 | the SID is that of the live session of the cookie, the subject its user while the account is stored and enabled, each empty otherwise |
| `RateLimit.Compact` | apps/server/internal/ratelimit/limiter.go:58-74 | the in-place filter keeps exactly the later instants, in order, at the front of the same array |
| `RateLimit.Limiter.constructor` | apps/server/internal/ratelimit/limiter.go:23-35 | nonpositive limits take their defaults; nothing is recorded |
| `RateLimit.Limiter.Limited` | apps/server/internal/ratelimit/limiter.go:37-42 | prunes the list of the key and answers by what is left; no other list changes, though slices share their arrays with their past |
| `RateLimit.Limiter.Failure` | apps/server/internal/ratelimit/limiter.go:44-50 | prunes, then appends the instant to the list of the key, in place or in a new array |
| `RateLimit.Limiter.Success` | apps/server/internal/ratelimit/limiter.go:52-56 | forgets the list of the key only |
| `RateLimit.Limiter.Prune` | apps/server/internal/ratelimit/limiter.go:58-74 | keeps exactly the instants inside the window; an emptied key is removed |
| `RateLimit.LimiterRefinesHistory` | apps/server/internal/ratelimit/limiter.go:37-74 | after any calls with a clock that does not go back, Limited answers as if no failure since the last success had been forgotten |
| `Login.HandleLogin` | apps/server/internal/web/account.go:59-75 | asks before the password is checked, then records the failure of a wrong password or forgets the key for a right one; blocked if and only if as many failures as the maximum are later than the window's start |
| `Login.LoginIsGuarded` | apps/server/internal/web/account.go:59-75 | one more login keeps every recorded failure right behind a question answered "not limited" |
| `Login.LoginsAreGuarded` | apps/server/internal/web/account.go:59-75 | over a run of logins every recorded failure follows on a question answered "not limited", and the limiter holds what those calls store |
| `Login.LoginsAreJudged` | apps/server/internal/web/account.go:59-75 | in every run an attempt is blocked if and only if at least the maximum of wrong guesses since the last login lie in the window ending as it asks, counted from the passwords alone; otherwise it logs in if and only if its password is right |
| `Login.LoginLeaves` | apps/server/internal/web/account.go:59-75 | what a login leaves of the list of its key: pruned when blocked, empty after a right password, one more instant after a wrong one |
| `Login.LoginsAreBounded` | apps/server/internal/web/account.go:59-75 | in every run of logins with a clock that does not go back, the stored list of a key never exceeds the maximum, and any window holds at most the maximum of wrong guesses for a key since its last success |
| `LoginsInFlight.GuessBoundInFlight` | apps/server/internal/web/account.go:59-75 | in every run of overlapping logins with at most k for a key waiting at once, any window holds at most the maximum less one plus k wrong guesses since the last success |
| `LoginsInFlight.GuessBoundIsExact` | apps/server/internal/web/account.go:59-75 | a number bounds the wrong guesses of every such run and window if and only if it is at least the maximum less one plus k |
| `LoginsInFlight.OverlapReaches` | apps/server/internal/web/account.go:59-75 | a run with that many wrong guesses in one window, for every maximum and k |
| `Audits.MemoryAudits.ListAudits` | apps/server/internal/store/memory/store.go:335-374 | stable sort, cursor scan and slice give the specified page |
| `Audits.PostgresAudits.ListAudits` | apps/server/internal/store/postgres/store.go:412-463 | the keyset query with one row more, and the trim, give the specified page |
| `Audits.ImplementationsAgree` | apps/server/internal/store/postgres/store.go:412-463 | both implementations give the same items, cursor and error for every limit and cursor |
| `Audits.PageIsExact` | apps/server/internal/store/memory/store.go:335-374 | an error exactly for a cursor no event has; else the newest events after the cursor's, newest first, at most the clamped limit, with every other such event after the last; the next cursor is empty exactly when none is left |
| `Audits.WalkIsExact` | apps/server/internal/store/memory/store.go:335-374 | a walk along the cursors never fails, goes strictly back in time, never repeats an event, and when it ends has visited every event present at its start, whatever is appended meanwhile |
| `Audits.QuietWalkEnds` | apps/server/internal/store/memory/store.go:335-374 | with no appends a walk of more requests than events ends and lists exactly the sorted trail |
| `OrgAdmin.Admin.HandleCreate` | apps/server/internal/web/admin_orgs.go:50-106 | a bad name or an unknown owner stores nothing; otherwise the organisation is stored, and its first owner unless already a member, which is answered as a conflict |
| `OrgAdmin.Admin.HandleAddMember` | apps/server/internal/web/admin_orgs.go:158-231 | unknown organisation, bad role, unknown user and existing member are refused; otherwise one row is added |
| `OrgAdmin.Admin.HandleUpdateMember` | apps/server/internal/web/admin_orgs.go:233-283 | changes one role, unless it would demote the last owner |
| `OrgAdmin.Admin.HandleRemoveMember` | apps/server/internal/web/admin_orgs.go:285-316 | removes one member, unless it is the last owner |
| `OrgAdmin.Admin.CountOwners` | apps/server/internal/web/admin_orgs.go:318-330 | the counting loop gives the cardinality of the owner set of the membership map |
| `OrgAdmin.CreatesExactly` | apps/server/internal/web/admin_orgs.go:50-106 | which error each request gets, and the rows a creation stores |
| `OrgAdmin.AddsExactly` | apps/server/internal/web/admin_orgs.go:158-231 | an account is added if and only if organisation and account are stored, the role is owner, member or empty, and it is not in it; only the role owner makes an owner |
| `OrgAdmin.ChangesExactly` | apps/server/internal/web/admin_orgs.go:233-283 | which error each request gets; the only owner alone cannot become a member; one role changes |
| `OrgAdmin.RemovesExactly` | apps/server/internal/web/admin_orgs.go:285-316 | which error each request gets; the only owner alone cannot be removed; one row goes |
| `OrgAdmin.RefusedExactlyForTheLastOwner` | apps/server/internal/web/admin_orgs.go:233-316 | removal and demotion of a member are refused if and only if the member is the only owner |
| `OrgAdmin.RemovingKeepsOwned` | apps/server/internal/web/admin_orgs.go:285-316 | a removal leaves every organisation an owner |
| `OrgAdmin.ChangingRoleKeepsOwned` | apps/server/internal/web/admin_orgs.go:233-283 | a role change leaves every organisation an owner |
| `OrgRuns.EmptiedExactlyWhenAllAreNamed` | apps/server/internal/web/admin_orgs.go:258-310 | interleaved: the pending writes can leave an organisation without an owner if and only if every owner is named by a request past its check |
| `OrgRuns.SafeExactlyWhenCareful` | apps/server/internal/web/admin_orgs.go:258-310 | a step keeps every organisation an owner that no pending write names if and only if it is not a check that passes while every other owner is named, nor a first owner already named |
| `OrgRuns.CarefulRunsKeepAnOwner` | apps/server/internal/web/admin_orgs.go:50-330 | in every run of such steps every created organisation has an owner, and its pending writes cannot take it |
| `OrgRuns.FirstCarelessStep` | apps/server/internal/web/admin_orgs.go:258-310 | the first other step of a run leaves some organisation that its pending writes can empty |
| `OrgRuns.TwoRequestsInFlight` | apps/server/internal/web/admin_orgs.go:233-316 | a run from the initial state: two removals or demotions that both pass their checks leave no owner |
| `OrgRuns.RemovalServedAlone` | apps/server/internal/web/admin_orgs.go:285-316 | the steps of a removal with nothing in between do what the handler does |
| `OrgRuns.RoleChangeServedAlone` | apps/server/internal/web/admin_orgs.go:233-283 | the steps of a role change with nothing in between do what the handler does |
| `OrgRuns.CreationServedAlone` | apps/server/internal/web/admin_orgs.go:50-106 | the steps of a creation with nothing in between do what the handler does |
| `OrgRuns.AdditionServedAlone` | apps/server/internal/web/admin_orgs.go:158-231 | the steps of an addition with nothing in between do what the handler does |
| `Tenancy.EveryOrganizationHasAnOwner` | apps/server/internal/web/admin_orgs.go:93-104 | in every run of the handlers each organisation that was created has an owner |
| `Organizations.Service.Create` | apps/server/internal/org/service.go:20-36 | name checked, then the organisation and its owner stored |
| `Organizations.Service.SetActiveOrg` | apps/server/internal/org/service.go:66-72 | only a member may choose; only the session of the hash changes |
| `Organizations.Service.SetActiveOrgBySID` | apps/server/internal/org/service.go:74-87 | only a member may choose, only for a session of their own, found by SID |
| `Organizations.Service.MembershipViews` | apps/server/internal/org/service.go:89-104 | one view for each organisation of the user, earliest first, with the current role |
| `Organizations.Service.PrimaryOrg` | apps/server/internal/org/claims.go:10-32 | the search over the views for the organisation the session shows |
| `Organizations.PrimaryIs` | apps/server/internal/org/claims.go:10-32 | the answer is a current membership with its current role: the chosen one if the user is in it, else one created earliest; none exactly without memberships |
| `Organizations.ViewsAreCurrent` | apps/server/internal/org/service.go:89-104 | each organisation of the user is viewed once, with its name and the current role, earliest created first |
| `Organizations.ChoosesExactly` | apps/server/internal/org/service.go:66-72 | accepted if and only if the user is a member and the session stored; only the choice of that session changes |
| `Organizations.ChoosesBySIDExactly` | apps/server/internal/org/service.go:74-87 | accepted if and only if the user is a member and the SID is of a stored session of their own; only its choice changes |
| `Organizations.SameByHashAndBySID` | apps/server/internal/org/service.go:66-87 | choosing by token hash and by SID do the same to a session of the user's own, which is the only session the cookie path is given; of another user's session only the path by SID refuses |
| `Tenancy.PrimaryOrgFollowsTheLastChoice` | apps/server/internal/org/claims.go:10-32 | in every run the claim is the organisation last chosen for the SID while the session is stored and the user a member, else one created earliest |
| `Phc.Hash` | apps/server/internal/password/password.go:29-44 | empty passwords are refused; otherwise the row is written out to the byte, parses back to the salt, the derived key and the constants, and verifies the password it was made from when the key has the requested length |
| `Phc.ParsePHC` | apps/server/internal/password/password.go:61-101 | the parser with its loop over the parameters accepts exactly what is specified |
| `Phc.Verify` | apps/server/internal/password/password.go:46-59 | empty input is false, a malformed row an error, otherwise the derived key is compared |
| `Phc.ParsedOfPrint` | apps/server/internal/password/password.go:29-101 | parsing a printed row gives back salt, key and costs for all rows in range, and rejects a row out of range |
| `Phc.VerifiesExactly` | apps/server/internal/password/password.go:46-59 | a printed row verifies exactly the nonempty passwords that derive its key under the costs it was written with |
| `Phc.HashVerifies` | apps/server/internal/password/password.go:29-59 | a password verifies against its own row under any key derivation of the requested length and any costs in range |
| `Phc.ParamsReadAs` | apps/server/internal/password/password.go:72-92 | parameters are accepted in any order, unknown keys are ignored, the last value of a key counts, and one malformed parameter rejects the row |
| `Phc.ParsedIsInRange` | apps/server/internal/password/password.go:88-95 | costs that the parser accepts fit their types and are not zero |
| `Phc.DecodeOfEncode` | apps/server/internal/password/password.go:39-42 | unpadded base64 decodes to what was encoded |
| `Phc.PrintIs` | apps/server/internal/password/password.go:39-43 | the layout of a printed row |
| `RowFormat.LetterIs` | apps/server/internal/password/password.go:39-42 | the base64 alphabet is that of RFC 4648, table 1 |
| `RowFormat.EncodeReads` | apps/server/internal/password/password.go:39-42 | the letters write in base 64 the number that the bytes write in base 256, most significant first, padded with zero bits |
| `RowFormat.ParsedExactly` | apps/server/internal/password/password.go:61-101 | a string is accepted, and as this row, if and only if it is laid out as one with those fields; text before the first separator is ignored |
| `RowFormat.VerifiedExactly` | apps/server/internal/password/password.go:46-59 | a nonempty password verifies if and only if it derives the key of the row the string is; a string that is no row is an error |
| `Scopes.NormalizeScopes` | apps/server/internal/oauth/scope.go:21-44 | the loop with its seen map and the sort give the specified list or error |
| `Scopes.Contains` | apps/server/internal/oauth/scope.go:47-54 | the search loop decides membership |
| `Scopes.NormalizeGrants` | apps/server/internal/oauth/scope.go:21-44 | a scope string is accepted if and only if it is not blank, names only supported scopes and holds openid where required; the result is strictly sorted with exactly the names of the input |
| `Scopes.NormalizeDependsOnSet` | apps/server/internal/oauth/scope.go:21-44 | order, repetition and white space do not matter |
| `Scopes.ScopeStringRoundTrip` | apps/server/internal/web/token.go:126 | the scope string of a token response parses to exactly the granted list |
| `Sorting.LessIs` | apps/server/internal/oauth/scope.go:42 | the order of the sorted lists is that of Go strings: by the first difference, prefixes first |
| `Seed.UnionExact` | apps/server/internal/seed/seed.go:239-253 | the two loops compute the union that keeps the old list in front |
| `Seed.SameStrings` | apps/server/internal/seed/seed.go:255-264 | the index loop decides equality |
| `Seed.UnionIs` | apps/server/internal/seed/seed.go:239-253 | the old list is a prefix, the elements are the union, and no duplicate is introduced |
| `Seed.Seeder.UpsertPublicClient` | apps/server/internal/seed/seed.go:150-202 | creates, updates or leaves the client alone; an unusable redirect URI changes nothing |
| `Seed.SeedingIsIdempotent` | apps/server/internal/seed/seed.go:150-202 | a second run with the same configuration performs no update |
| `Seed.SeededIsRegistered` | apps/server/internal/seed/seed.go:150-202 | a run fails exactly when a URI it needs cannot be rewritten, and then changes nothing; a new client is public with the two rewritten logout URIs; an existing one gets name and logout URIs, keeps type and secret, and has what was asked for behind what it had |
| `Seed.NothingIsLost` | apps/server/internal/seed/seed.go:150-202 | over any sequence of runs no client and no registered URI is lost or moved |
| `Seed.EveryRunStaysRegistered` | apps/server/internal/seed/seed.go:150-202 | what any of a sequence of runs registered is registered at the end |

## Left out

- HTTP parsing, cookies, CSRF tokens, redirects as bytes, templates, JSON, the `state` parameter and the error pages: every refusal is one outcome.
- SHA-256, RSA signing, JWT, Argon2, crypto randomness and ULID internals: parameters, or fresh values.
- SQL execution, migrations, timestamp precision and text collation in Postgres: only the meaning of the audit query is modelled.
- net/url parsing (`ParseRedirectURI`, `replaceCallbackPath`, the front-channel URL): abstract functions that may fail.
- The outcome of a back-channel post: a logout token counts when its request is built; random, signing and request-building failures are one predicate per client.
- Errors of store operations: see the assumptions. Other internal errors are a label that ends the request, except between the code and its fan-out entry, where the handler has none left.
- Audit events written by the handlers: the two audit stores are modelled on their own, in classes of their own.
- A clock read whose value is only stored is part of the step that stores it.
- Accounts: registration, e-mail lookup and `byEmail`, names, password checks of accounts (the login model takes the answer as a parameter), admin views.
- `handleEndSession`'s own parameter checks and `logoutClient`: single-branch checks before `finishLogout`; its redirect target likewise.
- Access tokens after logout or revocation: the code leaves them alone and promises nothing about them.
- The ID token and its claims, apart from the active organisation; `userinfo`; discovery; configuration.
- Trimming of names, IDs and roles in the organisation handlers: strings reach the model trimmed; admin authentication is not modelled.
- `ListMembers` of the organisation service and the demo organisation of seeding: the same store operations with one membership check or none.
- Postgres versions of the operations other than audit paging: single statements with the meaning of the in-memory ones.
- Which user the cookie path of the active organisation is given: the handler takes user and token hash from one cookie, so the session is always the user's own.
- An empty key field in a password row: the key derivation function is total here.
