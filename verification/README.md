# AAuth: a verified model

AAuth lets a software agent call a protected resource with an HTTP signature and, where
the resource wants it, with an auth token that a Person Server or an Access Server mints
for the agent. This Dafny project models the repository's state machines over shared
stores, and the codecs and arithmetic under them, and proves what they keep.

`dafny verify dfyconfig.toml` checks everything.

## The parts

| file | what it models |
|---|---|
| `Prelude.dfy`, `Text.dfy` | optional values and results; finding, splitting, trimming and joining text |
| `Tokens.dfy` | agent, auth and resource tokens and the checks each party makes on them |
| `Deferral.dfy`, `PendingStore.dfy` | deferred requests, their records, and the in-memory store |
| `PersonServer.dfy`, `PersonRuns.dfy` | the Person Server's token service, and what holds over every sequence of its calls |
| `PersonAnswers.dfy`, `HandedOutCodes.dfy` | when each of its replies is given and what is stored with it; the code a user is shown |
| `PersonOutcomes.dfy` | how long a finished outcome lasts there |
| `StoreRaces.dfy`, `RaceOutcomes.dfy`, `CodeRaces.dfy` | calls interleaved at single store operations: what every interleaving keeps, when outcomes and removals last, and when a code is found once |
| `AccessServer.dfy` | the Access Server's instance of the pending machine |
| `AgentCaches.dfy`, `AgentLoop.dfy` | the agent's credential caches, and the retry loop over them |
| `ResourceLayer.dfy`, `AgentMeetsLayer.dfy` | the layer in front of a resource, and the loop calling it |
| `AccessClient.dfy` | what the Person Server makes of this repository's own Access Server |
| `EndToEnd.dfy`, `WholeCall.dfy` | three and four parties together, and a whole call across them |
| `HttpSignature.dfy`, `SignatureKeys.dfy` | signing and verifying messages; the `Signature-Key` header |
| `Headers.dfy`, `Token68.dfy`, `DeferredWire.dfy` | header values, opaque credentials, 202 responses and pending posts |
| `InteractionCode.dfy` | interaction codes |
| `MetadataCache.dfy`, `Polling.dfy` | the two timed components |
| `ResourceGrant.dfy` | consent and opaque tokens at a resource that manages access itself |

## How things are stated

Objects that the source updates in place are classes; each method is proved against a
function from the state before the call, and from what its environment answered, to the
state after it and the reply. The theorems are about those functions: those whose names end
in `Exactly` or `Answers` give the condition under which each result occurs, in terms of the
inputs. Policies, second servers, clocks, fresh ids, random bytes, discovery and URL parsing
are the environment: values or functions that a call is given. The order in which a hash map
yields its entries is left open.

Keys, signatures and thumbprints are ideal. A token carries the key that signed it; a
signature carries the key and the signature base it was made over; a thumbprint is the
tuple of members that RFC 7638 hashes.

A run is a sequence of calls, or of single store operations in the three race modules. What a
run lemma states holds after every run, of any length, with any environment.

## Where the code does less than one might expect

Each of these is a lemma with a concrete case; the table below has the conditions under
which the expected property does hold, as an equivalence wherever there is a choice.

- A finished outcome is not final. A later resume, callback or relayed input replaces it,
  with no race needed (`PersonOutcomes.DeniedThenDeferred`), and a racing save can undo it
  (`StoreRaces.OutcomeCanBeLost`). It lasts exactly as long as
  `PersonOutcomes.OutcomeLastsExactly` and `RaceOutcomes.OutcomeLastsExactly` say.
- A racing save can put a removed record back (`StoreRaces.RemovedRecordCanComeBack`),
  exactly in the situations of `RaceOutcomes.ComesBackExactly`.
- Racing lookups can both find one code, and a racing resume can revive a consumed one
  (`CodeRaces.TwoLookupsCanBothFind`, `CodeRaces.ResumeCanReviveACode`). When a code can be
  found again, and which order of calls prevents it, is in `CodeRaces.FoundAgainExactly`,
  `CodeRaces.SerialLookupsFindOnce` and `CodeRaces.UnserialStepAllowsTwo`.
- The agent's loop need not end: against a resource that defers and then refuses, that
  defers cached auth tokens, or that refuses what it has just issued, the call is still
  going after any number of rounds (`AgentLoop.RefusedDeferralGoesOn`,
  `AgentLoop.RefusedOpaqueDeferralGoesOn`, `AgentLoop.DeferredAuthGoesOn`,
  `AgentLoop.RefusedAuthGoesOn`, `AgentLoop.RefusedOpaqueGoesOn`). This repository's own
  resource does the first when a deferred consent ends without being given
  (`AgentMeetsLayer.ConsentRound`), and none of the others
  (`AgentMeetsLayer.ManagedLayerIsHonest`).
- An interaction URL that ends in `code=` swallows the code (`Headers.InteractionTrip`),
  and a mission approver that ends in `s256=` swallows the digest.
- A reply to a poll that is still pending never parses as a deferral, so a Person Server
  that relays an input to an Access Server which goes on waiting answers with a bad gateway
  (`DeferredWire.WaitingIsRejected`, `AccessClient.RelayToWaiting`).
- The documentation asks for at most one refetch a minute; metadata requests before the
  first document arrives are not limited (`MetadataCache.FirstMetadataIsNotLimited`,
  `MetadataCache.MetadataRequestedExactly`).
- `Retry-After: 0`, which the servers send with every pending reply, lifts the bound on
  the number of polls (`Polling.ImmediateRetrySpins`, `Polling.ServersSendZero`,
  `Polling.BoundedExactly`).
- Only the first eight symbols of a presented interaction code are read
  (`InteractionCode.TrailingTextIgnored`).

## Model

| member | source | states |
|---|---|---|
| Tokens.VerifyTokenExactly | aauth/src/resource_verify/verify.rs:31-132 | A presented token is accepted if and only if it is an agent or auth token, unexpired within 60 s, whose `cnf` key is the key of the HTTP signature and whose signer is published by its issuer under the `kid` in its header; an agent token must besides have the right `dwk`, an `iat` no more than 60 s ahead, and valid issuer, person server and parent. What is returned is what the token says. |
| Tokens.ThumbprintExactly | httpsig-key/src/thumbprint.rs:11-35 | Keys have the same thumbprint if and only if they agree in the members that RFC 7638 hashes for their type; other types have none. |
| Tokens.ResourceTokenExactly | aauth/src/resource_verify/verify.rs:139-198 | A resource token is accepted if and only if it is unexpired within 60 s, has the right `dwk`, names the expected agent and key, and its signer is published by its issuer under its `kid`; what is returned is what it says. |
| Tokens.WrongHolderRefused | aauth/src/resource_verify/verify.rs:179-189 | A live resource token that names another agent is refused for that, and one that names another key for that, whoever signed it. |
| Tokens.HugeExpiryRefused | aauth/src/resource_verify/verify.rs:165-170 | An expiry of 2^63 or more wraps round to the past, so such a token is always refused as expired. |
| Tokens.ResourceChallengeExactly | aauth/src/resource_verify/verify.rs:318-342 | The agent accepts a challenge if and only if its resource token is acceptable for the agent and its own key and comes from the resource it asked. |
| Tokens.ClientAuthTokenExactly | aauth/src/resource_verify/verify.rs:217-316 | The agent accepts the outcome of an exchange if and only if it is an unexpired auth token from the audience of the resource token, for the resource, the agent and its key, with a proper `act` if any, and, when signatures are checked, signed by a key its issuer publishes. |
| Tokens.FederatedExactly | aauth/src/person_server/federation.rs:87-136 | The Person Server accepts an Access Server's token if and only if it is a genuine, unexpired auth token for the agent and key of the agent token it was requested with, from the expected issuer and for the expected audience up to trailing slashes. |
| Tokens.TrimmedImpliesNormalized | aauth/src/http_util.rs:10-14 | The servers' case-sensitive comparison of URLs implies the agent's comparison after lower-casing. |
| Tokens.UrlsExactly | aauth/src/http_util.rs:10-14 | Slashes at the end of a URL count nowhere, and its case does not count for the agent and the resource. |
| InteractionCode.GenerateCode | aauth/src/interaction_code.rs:12-26 | The accumulated loop yields the code of the 40-bit number and the result has the form XXXX-XXXX over the alphabet without I, L, O and U. |
| InteractionCode.CodeShape | aauth/src/interaction_code.rs:19-25 | Symbol `i` of a code is the alphabet's character for base-32 digit `i` of the number: shifting and masking reads off digits. |
| InteractionCode.BytesRoundTrip | aauth/src/interaction_code.rs:12-26 | Different bytes give different codes: decoding gives the five bytes back. |
| InteractionCode.CodeRoundTrip | aauth/src/interaction_code.rs:12-26 | Every XXXX-XXXX over the alphabet is generated, by exactly the bytes it decodes to. |
| InteractionCode.CanonicalizeIdempotent | aauth/src/interaction_code.rs:28-43 | Canonicalizing ASCII text of any length twice is canonicalizing it once. |
| InteractionCode.CanonicalizeMatches | aauth/src/interaction_code.rs:28-43 | The canonical form of ASCII text equals a code if and only if its first eight symbols, hyphens aside, spell the code in any case with I or L for 1 and O for 0. |
| InteractionCode.RespellingFindsCode | aauth/src/interaction_code.rs:28-43 | Every respelling of a code canonicalizes to the code. |
| InteractionCode.CodeRespellsItself | aauth-policy/src/person/mod.rs:157-164 | A generated code is its own canonical form, so the stored form and the looked-up form agree. |
| InteractionCode.TrailingTextIgnored | aauth/src/interaction_code.rs:38-42 | Text after a complete code does not change what it canonicalizes to: only eight symbols are read. |
| PendingStore.InMemoryPendingStore.Create | aauth-policy/src/store/memory.rs:58-63 | A record is filed under its own id and nothing else changes. |
| PendingStore.InMemoryPendingStore.Load | aauth-policy/src/store/memory.rs:65-67 | The record under the id, if there is one. |
| PendingStore.InMemoryPendingStore.Save | aauth-policy/src/store/memory.rs:69-72 | The record under the id is replaced or, if it is gone, put back. |
| PendingStore.InMemoryPendingStore.CompleteWith | aauth-policy/src/store/memory.rs:74-80 | The snapshot under the id becomes the outcome; a missing id is left missing. |
| PendingStore.InMemoryPendingStore.Remove | aauth-policy/src/store/memory.rs:82-85 | The id is gone and nothing else changes. |
| PendingStore.InMemoryPendingStore.FindIf | aauth-policy/src/store/memory.rs:87-96 | A scan in any order returns a record that satisfies the predicate, and none only if no record does. |
| PendingStore.PollAuthPending | aauth-policy/src/store/traits.rs:56-74 | A poll reports the stored snapshot, and an expired record is forgotten and answered Gone. |
| PersonServer.PersonTokenService.CreateFederatedDeferred | aauth-policy/src/person/federation_pending.rs:27-94 | A federated deferral either creates a record or replaces the context and snapshot of the pending one, dropping any interaction code. |
| PersonServer.PersonTokenService.CreateDeferred | aauth-policy/src/person/defer.rs:190-232 | A policy deferral stores a waiting record without code or federation and answers with its location. |
| PersonServer.PersonTokenService.CreateResourceInitiated | aauth-policy/src/person/defer.rs:234-287 | A resource-initiated deferral answers and stores as `Exchanged` says; `HandedOutCodes.CodeIsHandedOut` says what that is. |
| PersonServer.PersonTokenService.ExchangeToken | aauth-policy/src/person/defer.rs:26-81 | Store and reply are those of `Exchanged`, whose every reply has its exact condition in `PersonAnswers.RequestGranted`, `PersonAnswers.RequestDeferred` and `PersonAnswers.RequestRefused`. |
| PersonServer.PersonTokenService.HandleTokenRequest | aauth/src/person_server/context.rs:13-44 | A request is exchanged after it is verified, otherwise refused; which requests are verified is `PersonAnswers.RequestExactly`. |
| PersonServer.PersonTokenService.Poll | aauth-policy/src/person/mod.rs:96-100 | A poll of the service is a poll of its store. |
| PersonServer.PersonTokenService.UpdatePendingDefer | aauth-policy/src/person/defer.rs:157-188 | Deferring again changes only the snapshot of the pending record; a missing one is Gone. |
| PersonServer.PersonTokenService.ApplyPendingDecision | aauth-policy/src/person/defer.rs:83-155 | A decision on a pending id completes its record, defers it again or hands it to an Access Server, or finds it gone; store and reply are exactly those of `Decided`. |
| PersonServer.PersonTokenService.HandleFederatedPost | aauth-policy/src/person/federation_pending.rs:96-215 | Agent input on a federated record is relayed, except a cancellation, and the Access Server's answer completes, moves, or removes the record, or finds it gone, as in `Relayed`. |
| PersonServer.PersonTokenService.ResumePending | aauth-policy/src/person/mod.rs:102-155 | Resume: Gone when missing or expired, relayed when federated, decided by policy otherwise. |
| PersonServer.PersonTokenService.BeginInteraction | aauth-policy/src/person/mod.rs:157-206 | A lookup by canonical code marks the found record consumed and interacting and redirects to the resource's page; an expired record is removed. |
| PersonServer.PersonTokenService.ResolveCallback | aauth-policy/src/person/mod.rs:208-265 | A callback completes with the mapped error, is refused for a federated record, and is otherwise decided by policy without the interaction claim. |
| PersonAnswers.RequestExactly | aauth/src/person_server/context.rs:13-44 | A token request is exchanged if and only if it comes with an agent token and a live resource token of the right kind that names this agent and the key it signs with and that its resource signed; any other is unauthorized and leaves the store alone. |
| PersonAnswers.RequestGranted | aauth-policy/src/person/defer.rs:26-81 | A token is granted at once if and only if such a request asks for no interaction and either the policy grants, with a token of this server for its resource, the agent and its key, for one hour, with the granted subject and scope, or it federates and the Access Server answers with a token that passes. |
| PersonAnswers.RequestDeferred | aauth-policy/src/person/defer.rs:234-287 | A request is deferred if and only if it asks for an interaction, and then with a fresh code made of the random bytes for this server's own page, or the policy defers it, or the Access Server it is federated to waits; the location is that of the fresh id. |
| PersonAnswers.DeferredIsStored | aauth-policy/src/person/defer.rs:190-287 | What is stored for a deferral, field by field: the request, its tokens and lifetime, the code shown to the user with the resource's claim, or the Access Server that waits; nothing else in the store changes. |
| PersonAnswers.RequestRefused | aauth-policy/src/person/defer.rs:26-81 | A request is denied if and only if the policy denies it, unauthorized if and only if it is not in order or federation comes to nothing, and fails if and only if the policy or the minter does; none of these changes the store. |
| PersonAnswers.DecisionAnswers | aauth-policy/src/person/defer.rs:83-155 | The same conditions for a decision on a pending request, whose location is that of its own id. |
| PersonAnswers.DecisionLeaves | aauth-policy/src/person/defer.rs:83-188 | A decision rewrites the pending record only; it keeps its id, lifetime and context unless an Access Server waits, and then it loses code and claim and belongs to the trimmed `aud` of its resource token. |
| PersonAnswers.ResumeExactly | aauth-policy/src/person/mod.rs:102-155 | A resume of an unknown or expired id is Gone and forgets it; an unfederated request is decided as it was made. |
| PersonAnswers.CallbackExactly | aauth-policy/src/person/mod.rs:208-265 | A callback is Gone for an unknown or expired id, finishes the request with the mapped error, is a bad gateway for a federated one, and is otherwise decided as if no interaction had been asked for. |
| PersonAnswers.CallbackErrorExactly | aauth-policy/src/person/interaction.rs:26-35 | Which error code each callback error becomes. |
| PersonAnswers.RelayAnswers | aauth-policy/src/person/federation_pending.rs:96-215 | Every reply to an input on a federated request, if and only if: a cancellation is denied here, a token that passes is granted and any other unauthorized, an error denied, a lost request gone, a wait deferred, and silence a bad gateway. |
| PersonAnswers.RelayLeaves | aauth-policy/src/person/federation_pending.rs:96-215 | A relay removes a request that is gone, and otherwise changes at most its snapshot and the address it is polled at; it stays with its Access Server. |
| PersonAnswers.LookupExactly | aauth-policy/src/person/mod.rs:157-206 | A lookup that finds an unexpired record marks its code consumed and a waiting request interacting, changes nothing else, and leads to the page of the resource's claim with this id's callback address; an expired record is forgotten, and a lookup that finds none changes nothing. |
| PersonAnswers.AddressesDiffer | aauth/src/deferred/types.rs:170-174 | No two pending ids share a location or a callback address. |
| PersonAnswers.PollExactly | aauth-policy/src/store/traits.rs:56-74 | A poll reports the snapshot through the last second of the lifetime, and afterwards forgets the record. |
| HandedOutCodes.CodeIsHandedOut | aauth-policy/src/person/defer.rs:234-287 | Every good request with an interaction claim is answered with a fresh code, and its record is stored under that very code, with the claim. |
| HandedOutCodes.ShownCodeFinds | aauth-policy/src/person/mod.rs:157-164 | The record is found by exactly the spellings of the code in the reply, and whatever follows them. |
| HandedOutCodes.HeldUntilLost | aauth-policy/src/person/mod.rs:82-265 | In every run the record is held under that code, with its lifetime and claim, if and only if no call since has looked it up, met it after its expiry, or handed it to an Access Server that waits. |
| HandedOutCodes.ShownCodeFindsUntilLost | aauth-policy/src/person/mod.rs:157-206 | So in every run users find their request by the code they were shown, however they write it, exactly until such a call. |
| HandedOutCodes.ShownCodeLeadsToThePage | aauth-policy/src/person/mod.rs:185-191 | Until then, if the code was drawn once, every lookup by it finds this request and leads to the page its own resource token asked for. |
| PersonRuns.RunKeepsInv | aauth-policy/src/store/records.rs:16-30 | In every run a stored record is filed under its own id, keeps the lifetime and request it was opened with, has an interaction claim exactly when it has a code, is federated only without a code and only to the trimmed `aud` of its own resource token. |
| PersonRuns.TokensNameTheirOpener | aauth-policy/src/person/defer.rs:26-155 | In every run each auth token granted or stored names the agent and the `cnf` thumbprint of the agent token that opened the request, with the configured resource as audience up to trailing slashes and the Person Server or the named Access Server as issuer. |
| PersonRuns.RelKeepsConserved | aauth-policy/src/person/defer.rs:234-287 | One step keeps, for every code, lookups that found it plus records still matchable within the number of records created with it. |
| PersonRuns.RunKeepsConserved | aauth-policy/src/person/mod.rs:157-206 | So does every run: interaction codes are conserved, replacement by federation included. |
| PersonRuns.CodeFoundAtMostOnce | aauth-policy/src/person/mod.rs:158-177 | A code handed out once is found by at most one lookup, after which no record matches it. |
| PersonRuns.FoundCodeRedirects | aauth-policy/src/person/mod.rs:185-205 | A found, unexpired code always leads to the resource's page: the page without a redirect is unreachable. |
| PersonRuns.FederationPersists | aauth-policy/src/person/federation_pending.rs:152-171 | Once an id is federated it stays federated, to the same Access Server, as long as it is stored. |
| PersonRuns.FederatedToTheNamedServer | aauth/src/person_server/federation.rs:30-40 | That Access Server is the trimmed `aud` of the record's own resource token. |
| PersonRuns.PolicyNeverConsultedAgain | aauth-policy/src/person/mod.rs:132-142 | For an id that was ever federated, no policy decision can influence what a later resume or callback does. |
| PersonRuns.ResumeAgreesWithNextPoll | aauth-policy/src/person/mod.rs:102-155 | What a resume answers is what the next poll of the id reports, and one that fails changes nothing. |
| PersonRuns.CallbackAgreesWithNextPoll | aauth-policy/src/person/mod.rs:208-265 | The same for a callback. |
| PersonRuns.ExchangeStoresWhatItDefers | aauth-policy/src/person/mod.rs:82-94 | An exchange stores a record exactly when it answers with a location, and that location polls as it answered. |
| PersonOutcomes.StepLeaves | aauth-policy/src/person/mod.rs:102-265 | What every call leaves of a finished record, read off its guards: nothing is written by calls on other ids, by unexpired polls and lookups, by failed policies, mints and relays, by refused tokens and by callbacks on federated records; an expired record is forgotten, and so is one the Access Server has lost; every other resume and callback writes a new outcome or makes the request wait again. |
| PersonOutcomes.KeptExactly | aauth-policy/src/person/mod.rs:102-265 | One call keeps a finished outcome if and only if its guards let it write nothing to that id, or the same outcome again. |
| PersonOutcomes.OutcomeLastsExactly | aauth-policy/src/person/mod.rs:102-265 | Over every run an outcome stays from one call to the end if and only if every call in between keeps it. |
| PersonOutcomes.DeniedThenDeferred | aauth-policy/src/person/mod.rs:102-155 | Without any race: of two resumes of one unexpired, unfederated request, in any run, the first is denied and finishes it, and the second makes it wait again. |
| PersonOutcomes.DeniedThenDeferredFromStart | aauth-policy/src/person/mod.rs:82-155 | The whole run from an empty store: a concrete request is accepted and deferred, denied, and made to wait again. |
| StoreRaces.RunKeepsInv | aauth-policy/src/store/memory.rs:58-85 | Under every interleaving of single store operations, every stored and in-flight copy of a record keeps its id and the lifetime it was made with. |
| StoreRaces.LateChecksAnswerGone | aauth-policy/src/person/mod.rs:116-119 | Whatever raced with it, a finished call whose expiry check ran after the record's lifetime answered Gone, and one that answered anything else ran its check in time. |
| StoreRaces.CheckGoesByBirth | aauth-policy/src/store/records.rs:66-87 | The next check of any copy finds it expired if and only if the clock is past the birth of its id plus the lifetime, however often the record was rewritten. |
| StoreRaces.BirthIsFixed | aauth-policy/src/store/records.rs:67-78 | No later step changes when an id was born. |
| StoreRaces.RemovedRecordCanComeBack | aauth-policy/src/store/traits.rs:68-71 | A schedule in which a save puts an expired record back after a poll removed it. |
| StoreRaces.OutcomeCanBeLost | aauth-policy/src/person/defer.rs:165-177 | A schedule in which a racing save makes a finished request wait again: even a call that read the record before it was finished can undo the outcome. |
| RaceOutcomes.KeptExactly | aauth-policy/src/store/memory.rs:69-85 | Under interleaving, one step leaves a finished outcome in place if and only if it does not remove the id, does not complete it with another outcome, and does not save a copy of it with another snapshot. |
| RaceOutcomes.OutcomeLastsExactly | aauth-policy/src/store/memory.rs:58-85 | So an outcome stays from one step of a run to its end if and only if every step in between keeps it. |
| RaceOutcomes.BackExactly | aauth-policy/src/store/memory.rs:58-72 | A missing record is back after a step if and only if the step saves or creates that id. |
| RaceOutcomes.ComesBackExactly | aauth-policy/src/person/mod.rs:116-183 | A record that is gone can come back in some continuation if and only if a thread carries a copy it will save without looking again: it is editing one, it is an unexpired lookup that found one, or it is about to create it. |
| CodeRaces.TwoLookupsCanBothFind | aauth-policy/src/person/mod.rs:158-205 | A schedule in which two lookups by one code both find its record before either saves it, and both redirect ... |
| CodeRaces.BothLookupsComplete | aauth-policy/src/person/mod.rs:177-183 | ... and both run to their end, leaving the code consumed. |
| CodeRaces.ResumeCanReviveACode | aauth-policy/src/person/defer.rs:165-177 | A schedule in which a resume that copied the record during a lookup saves it afterwards, so that a consumed code can be found again. |
| CodeRaces.FoundAgainExactly | aauth-policy/src/person/mod.rs:158-183 | A further lookup can find the record in some continuation if and only if its code is live in the store, in a record about to be created, or in a copy that a resume or callback will save with its context kept; a copy loaded to be replaced by a federated context does not count. |
| CodeRaces.SerialLookupsFindOnce | aauth-policy/src/person/mod.rs:158-183 | At most one lookup finds a record in a run in which no lookup finds it while another has not saved its copy or while a live copy is out elsewhere, and no call copies it live during a lookup. |
| CodeRaces.UnserialStepAllowsTwo | aauth-policy/src/person/mod.rs:158-183 | No weaker order is enough: after any step that breaks this, some continuation finds the record at least twice. |
| AccessServer.PolicyAccessTokenService.ExchangeToken | aauth-policy/src/access/service.rs:69-89 | An exchange grants, denies or defers as the policy says; store and reply are exactly those of `Exchanged`. |
| AccessServer.PolicyAccessTokenService.UpdatePendingDefer | aauth-policy/src/access/service.rs:125-156 | Deferring again changes only the snapshot of the pending record. |
| AccessServer.PolicyAccessTokenService.ResumePending | aauth-policy/src/access/service.rs:247-270 | Resume: Gone when missing or expired, decided by policy otherwise. |
| AccessServer.PolicyAccessTokenService.Poll | aauth-policy/src/access/service.rs:241-245 | A poll of the service is a poll of its store. |
| AccessServer.ExchangeAnswers | aauth-policy/src/access/service.rs:69-89 | The reply to an exchange if and only if: the hour-long token with the granted subject and the granted scope or else the one the resource asked for, the denial, the location of the stored record, or the failure; only a deferral stores anything. |
| AccessServer.ResumeAnswers | aauth-policy/src/access/service.rs:91-156 | The same for a resume, of the request as it was made; the next poll agrees with the reply, and nothing else changes. |
| AccessServer.MintedNames | aauth-policy/src/access/service.rs:198-221 | A minted token names the agent and key of the request, with the configured issuer and audience. |
| AccessServer.TokensNameTheirOpener | aauth-policy/src/access/service.rs:233-270 | In every run each token granted or stored names the agent and key of the request that opened it. |
| AgentCaches.DidKeepsConsistent | aauth/src/agent/auth.rs:445-608 | A call changes only the view of its own origin, and the caches go on equalling a fold of each origin's own events. |
| AgentCaches.AgentAuth.BeginAuthorizeAttempt | aauth/src/agent/auth.rs:443-450 | Granted exactly when no opaque token is cached and the origin was not tried before. |
| AgentCaches.AgentAuth.SeedOpaqueFor | aauth/src/agent/auth.rs:459-467 | The configured seed fills an empty opaque slot and replaces nothing. |
| AgentCaches.AgentAuth.Next | aauth/src/agent/auth.rs:469-481 | Offers the first cached auth token if it lives longer than 60 s; otherwise drops it and falls back to the opaque token or to agent signing. |
| AgentCaches.AgentAuth.ObserveResponse | aauth/src/agent/auth.rs:483-538 | The next step and the new caches for every attempt, status and header, including the error for a malformed challenge. |
| AgentCaches.AgentAuth.CacheOpaqueFromHeaders | aauth/src/agent/auth.rs:581-608 | A single readable well-formed `AAuth-Access` is cached; the answer says whether it is new. |
| AgentCaches.AgentAuth.RecordAuthToken | aauth/src/agent/auth.rs:540-561 | The token is filed under origin and person server with its expiry. |
| AgentCaches.AgentAuth.FindCachedTokenKey | aauth/src/agent/auth.rs:574-579 | Some key of the origin, in whatever order the map yields them, and none only if there is none. |
| AgentCaches.CachedWasRecorded | aauth/src/agent/auth.rs:540-561 | Every cached auth token was recorded in the history of its origin, with the lifetime it was recorded with. |
| AgentCaches.TokensExactly | aauth/src/agent/auth.rs:483-572 | Of the cached auth tokens a call drops only the one it meets first, when that has no more than 60 s left or an auth token was refused; only a recorded one enters. |
| AgentCaches.CachedExactly | aauth/src/agent/auth.rs:445-608 | An auth token is cached if and only if some event of its origin's history recorded it and no later one dropped it or recorded another in its place. |
| AgentCaches.AttemptExactly | aauth/src/agent/auth.rs:469-481 | The next attempt presents the first cached auth token if and only if it has more than 60 s left, else the opaque token, else only the agent's signature. |
| AgentCaches.StepExactly | aauth/src/agent/auth.rs:483-538 | When each step is taken, if and only if, by attempt, status, challenge and access header. |
| AgentCaches.AccessExactly | aauth/src/agent/auth.rs:581-608 | A response grants a token if and only if it has exactly one access header and that is a token68, give or take surrounding space. |
| AgentCaches.OfferedTokenIsFresh | aauth/src/agent/auth.rs:563-572 | No auth token with 60 s or less to live is offered, and every offered one was recorded. |
| AgentCaches.OpaqueIsCurrent | aauth/src/agent/auth.rs:483-517 | The cached opaque token is exactly the last one supplied, by a valid `AAuth-Access` or by the seed into an empty slot, and not since refused or replaced. |
| AgentCaches.AgentSignedThenGranted | aauth/src/agent/auth.rs:491-502 | After an agent-signed attempt, a retry with the opaque token is asked for if and only if the response carries a valid `AAuth-Access` and is neither 401 nor 202. |
| AgentCaches.AuthorizeGrantedOnce | aauth/src/agent/auth.rs:443-450 | Proactive authorization is granted at most once per origin. |
| AgentCaches.TriedExactly | aauth/src/agent/auth.rs:443-450 | An origin counts as tried if and only if authorization was asked for while no opaque token was at hand, so the first such call is granted. |
| AgentLoop.TryProactiveAuthorize | aauth-reqwest/src/middleware/agent.rs:88-178 | Proactive authorization asks the endpoint only when there is one, nothing opaque is at hand and it was not tried; it fails exactly on no reply, an unreadable challenge, a deferral to nowhere or a poll that fails; the opaque slot then holds the token of the reply or, after a 202, that of the polled reply if it has one. Cached auth tokens stay. |
| AgentLoop.ProactiveAuthorizes | aauth-reqwest/src/middleware/agent.rs:226-239 | The same after the seed has been tried first: a seed or a token at hand means that nothing is asked. |
| AgentLoop.GrantIsPresented | aauth-reqwest/src/middleware/agent.rs:236-250 | With no auth token cached, the first request of the call presents the token so granted, or the one at hand; a resource that serves it ends the call in one round with its answer. |
| AgentLoop.Round | aauth-reqwest/src/middleware/agent.rs:241-360 | One turn of the loop changes the origin's view and decides whether to go on exactly as `RoundOf` says, for some order in which cached tokens are met. |
| AgentLoop.RoundExactly | aauth-reqwest/src/middleware/agent.rs:241-360 | A turn goes on, or returns a reply, if and only if, by the answers to the attempt it makes: a refusal of a cached credential, a new grant, an exchange that succeeds or a deferral that settles nothing goes on; every other answer is returned or is an error. |
| AgentLoop.PollDeferral | aauth-reqwest/src/middleware/agent.rs:261-295 | A 202 is polled and the final reply observed; the loop goes on after Finish or RetryWithOpaque and hands back anything else. |
| AgentLoop.RoundDescends | aauth-reqwest/src/middleware/agent.rs:241-360 | Against an honest resource every turn that goes on lowers a rank: two for each stale credential, one for each good token, then obtaining and presenting a credential. A stale opaque token that is deferred and replaced by a granted one is among these turns. |
| AgentLoop.HandleInner | aauth-reqwest/src/middleware/agent.rs:226-362 | Against an honest resource the call ends, in at most twice as many rounds as tokens are cached for the origin plus four, from any caches and in any eviction order. Honest means: it accepts what it issued in the run, does not defer the auth tokens cached at the start, and ends its other deferrals, of agent-signed requests and of opaque tokens, in access or in a reply that is handed back. The rounds lead one to the next from what authorization came to, the reply is what the last of them came to, and there is none exactly when authorization was tried and failed. |
| AgentLoop.RoundKeepsKnown | aauth-reqwest/src/middleware/agent.rs:241-360 | Every auth token cached during the call was cached at its start or obtained by one of its own exchanges. |
| AgentLoop.RefusedDeferralRepeats | aauth-reqwest/src/middleware/agent.rs:280-293 | A resource that defers and then answers 403 is asked again from the same state ... |
| AgentLoop.RefusedDeferralGoesOn | aauth-reqwest/src/middleware/agent.rs:241-293 | ... so that the call is still going after any number of rounds. |
| AgentLoop.RefusedOpaqueDeferralGoesOn | aauth-reqwest/src/middleware/agent.rs:241-293 | The same when a request with an opaque token is deferred and then answered 403. |
| AgentLoop.DeferredAuthRepeats | aauth-reqwest/src/middleware/agent.rs:261-293 | A resource that defers a cached auth token is asked with it again even after granting an opaque token ... |
| AgentLoop.DeferredAuthGoesOn | aauth-reqwest/src/middleware/agent.rs:241-293 | ... for any number of rounds in which the auth token has more than 60 s to live. |
| AgentLoop.ChallengedRound | aauth-reqwest/src/middleware/agent.rs:297-358 | A challenged round obtains a token, records it and goes on ... |
| AgentLoop.RefusedAuthRound | aauth/src/agent/auth.rs:508-513 | ... and a resource that refuses that token puts the caches back where they were ... |
| AgentLoop.RefusedAuthGoesOn | aauth-reqwest/src/middleware/agent.rs:241-358 | ... so that the call is still going after any number of rounds, whatever tokens it obtains in them. |
| AgentLoop.RefusedOpaqueGoesOn | aauth/src/agent/auth.rs:483-513 | The same when an opaque token is granted in one round and refused in the next. |
| AgentMeetsLayer.IssuedIsServed | aauth-axum/src/resource/layer.rs:310-336 | A genuine auth token presented in a fresh signed request gets the handler's own response, unless the mode takes agent tokens only. |
| AgentMeetsLayer.PsAssertedLayerIsHonest | aauth-axum/src/resource/layer.rs:254-314 | A layer that asks for auth tokens is honest towards any caches, when the exchanges it causes yield genuine tokens. |
| AgentMeetsLayer.ChallengedAt | aauth-axum/src/resource/layer.rs:254-309 | An agent-signed request, or one with an opaque token, is answered with a challenge that parses. |
| AgentMeetsLayer.KnownIsServedOrRefused | aauth-axum/src/resource/layer.rs:216-314 | An auth token that was cached or obtained is answered by the handler or by a bare 401, never by a challenge, a deferral or an error. |
| AgentMeetsLayer.CallResource | aauth-reqwest/src/middleware/agent.rs:226-362 | The whole call against such a layer, whatever stands behind its exchanges: with whatever tokens are cached, once it starts its first round it returns the handler's own response to its last round, within the bound of the loop. |
| WholeCall.TokenObtained | aauth-policy/src/policies.rs:43-52 | Whether the Person Server mints itself or asks the Access Server, the agent obtains in each round a token minted for it by a key that can be found. |
| WholeCall.ExchangedIs | aauth-reqwest/src/middleware/agent.rs:297-358 | In each round the agent reads the layer's challenge, and checking it, exchanging it at the Person Server and checking the grant yields exactly that token. |
| WholeCall.NetworkExchangesGood | aauth/src/resource_verify/verify.rs:274-316 | Every token exchanged in a run is genuine for the layer in all later rounds: proved of the configured servers, not assumed. |
| WholeCall.CallThroughServers | aauth-reqwest/src/middleware/agent.rs:226-362 | The whole call against this repository's own layer, Person Server and Access Server: with whatever tokens are cached, once it starts its first round it returns the handler's own response, within the bound of the loop. |
| AgentMeetsLayer.OpaqueNotDeferred | aauth-axum/src/resource/layer.rs:347-362 | A request with any opaque credential, well-formed or not, is never answered with a deferral. |
| AgentMeetsLayer.AuthNotDeferred | aauth-axum/src/resource/layer.rs:216-252 | A request signed with a token that decodes to an auth token is never answered with a deferral: the token the layer reads is the one it was signed with. |
| AgentMeetsLayer.ManagedNeverChallenges | aauth-axum/src/resource/layer.rs:197-336 | A layer that manages access itself never asks for an auth token, so no exchange ever happens. |
| AgentMeetsLayer.StatusExactly | aauth-axum/src/resource/layer.rs:178-336 | The status of every reply of the layer's own: a refusal or challenge is a 401, and consent is a 200, 202, 403 or 500. |
| AgentMeetsLayer.PollStatusExactly | aauth-axum/src/respond.rs:163-243 | The status of every reply to a poll. |
| AgentMeetsLayer.GrantsExactly | aauth-axum/src/respond.rs:163-215 | The agent reads a granted token from exactly the replies that hand one out which a header can carry; a challenge travels as it is. |
| AgentMeetsLayer.PollEndExactly | aauth-axum/src/respond.rs:163-243 | Polling, printed as the resource prints it, ends in an access grant if and only if the first poll that finds the request finished finds an opaque token that a header can carry; it never ends in a 401 or a 202. |
| AgentMeetsLayer.DeferralsEndExactly | aauth-axum/src/respond.rs:163-243 | The deferrals of such a resource end as the loop needs if and only if consent is given in every deferral whose end polling sees. |
| AgentMeetsLayer.ManagedLayerIsHonest | aauth-axum/src/resource/layer.rs:197-336 | When granted tokens stay valid and the texts cached at the start are auth tokens, such a layer is honest if and only if consent is given in every deferral whose end polling sees. |
| AgentMeetsLayer.ConsentRound | aauth-reqwest/src/middleware/agent.rs:261-295 | With nothing cached, a deferred request comes to this: access granted is cached and tried, a time-out ends the call, and a consent that is denied, expired or gone leaves the loop asking again from the same state. |
| ResourceLayer.Call | aauth-axum/src/resource/layer.rs:149-337 | The reply is that of `ReplyTo`, which the rows below characterize, and the extension is set exactly when the handler is called, to the token it is called with. |
| ResourceLayer.ReachesHandler | aauth-axum/src/resource/layer.rs:178-336 | A request reaches the handler if and only if a signature at most 60 s old give or take the skew, by the key it names and over the lines of this request, the credential included where that decides, names a token that entitles it: the valid opaque credential's own agent, or a genuine token for this resource of a kind the access mode admits. |
| ResourceLayer.ExtractExactly | aauth-axum/src/resource/layer.rs:347-362 | There is no credential if and only if there is at most one `Authorization` value, and that readable and of another scheme; there is this one if and only if it is the only value, the scheme and a token68. |
| ResourceLayer.UncoveredCredentialRefused | aauth-axum/src/resource/layer.rs:157-189 | At a resource that manages access itself, a request with an `AAuth` credential, good or broken, that its signature does not cover has its signature refused. |
| ResourceLayer.ServedCredentialIsSigned | aauth-axum/src/resource/layer.rs:202-209 | A credential that opens the handler stands in the base that was signed. |
| ResourceLayer.ConsentAskedExactly | aauth-axum/src/resource/layer.rs:317-327 | The consent policy's answer is passed on if and only if a genuine agent asks such a resource without a credential. |
| ResourceLayer.AgentTokenAskedExactly | aauth-axum/src/resource/layer.rs:178-236 | An agent token is asked for if and only if the resource is identity-based and the request is unsigned, names no token, or names a resource token or a genuine auth token. |
| ResourceLayer.AgentTurnedAwayExactly | aauth-axum/src/resource/layer.rs:260-309 | What else a genuine agent is told, if and only if: there is nobody to send it to, signing fails, or the consent policy fails. |
| ResourceLayer.ChallengedWith | aauth-axum/src/resource/layer.rs:254-309 | The auth-token challenge is given if and only if a genuine agent token meets a mode that requires auth tokens and an audience resolves: the resource's Access Server before the agent's person server before the fallback. Its resource token is good for 300 s and names this agent, key and audience and the interaction the resource asks for. |
| EndToEnd.AgentRequestVerifies | aauth-reqwest/src/middleware/signing.rs:23-56 | A request signed for any kind of attempt verifies under the agent's key, presenting the token it was signed with, while it is fresh. |
| EndToEnd.RequestIsChallenged | aauth-axum/src/resource/layer.rs:216-309 | A request without an auth token is answered with a challenge from which the agent reads back exactly the resource token issued. |
| EndToEnd.ResourceTokenAccepted | aauth/src/resource/token.rs:22-51 | A party that finds the resource's key accepts its token for that agent and key if and only if no more than 300 s plus the skew have passed. |
| EndToEnd.AgentAcceptsAuthToken | aauth/src/resource_verify/verify.rs:274-316 | The agent accepts a token minted for it by the server its resource token names if and only if no more than an hour plus the skew has passed. |
| EndToEnd.RetryReachesHandler | aauth-axum/src/resource/layer.rs:310-314 | The retry signed with a genuine auth token reaches the handler with that token's claims. |
| EndToEnd.OpaqueRetryReachesHandler | aauth-axum/src/resource/layer.rs:202-209 | The retry with a granted opaque token reaches the handler as the agent it was granted to. |
| EndToEnd.ThreeParties | aauth-policy/src/policies.rs:43-52 | With matching URLs and published keys, challenge, grant by the Person Server itself and the agent's check of the grant all succeed. |
| EndToEnd.FourParties | aauth/src/person_server/federation.rs:25-80 | The same when the audience is an Access Server: its own exchange grants, its answer is what the Person Server's client reads, and the token is checked and passed on. |
| EndToEnd.AccessTokenAccepted | aauth/src/person_server/federation.rs:87-136 | The Access Server's token passes the Person Server's check for an hour plus the skew. |
| EndToEnd.AccessServerWaits | aauth-policy/src/access/service.rs:69-89 | An Access Server whose policy defers the exchange and grants on resume answers with a location, and with the token when it is resumed within the lifetime. |
| EndToEnd.FourPartiesDeferred | aauth-policy/src/person/federation_pending.rs:96-171 | The same when the Access Server waits: its deferral, printed and parsed, is handed on by the Person Server, the agent's input is relayed, and the token with which the Access Server's own resume answers is stored, granted, polled and accepted by the agent. |
| EndToEnd.ChallengedThenServed | aauth-axum/src/resource/layer.rs:216-314 | From the first request to the handler: challenged with a readable challenge, then served with the token minted in between. |
| Headers.ChallengeRoundTrip | aauth/src/protocol/headers.rs:106-157 | Parsing undoes printing for exactly the challenges whose values have no quote and, for an interaction, whose URL does not end in `code=` (unless the code is what is then read). |
| Headers.HeaderText | aauth/src/protocol/headers.rs:106-121 | What every challenge looks like, letter by letter. |
| Headers.ForeignChallenge | aauth/src/protocol/headers.rs:123-157 | An auth-token challenge from elsewhere may hold other parameters before the token and anything after it. |
| Headers.ParamExactly | aauth/src/protocol/headers.rs:195-201 | A quoted parameter has a value if and only if the first place where it opens is followed by that value and a quote; one that never closes has none. |
| Headers.ErrorsExactly | aauth/src/protocol/headers.rs:123-157 | What a challenge lacks when it is refused. |
| Headers.InteractionTrip | aauth/src/protocol/headers.rs:149-155 | What is read back from a printed interaction challenge: after a URL ending in `code=` the code becomes `; code=`. |
| Headers.TwoParamsRoundTrip | aauth/src/protocol/headers.rs:195-201 | Both quoted parameters of a two-parameter header are read back if and only if they have no quote and the first does not end in the second's key. |
| Headers.MissionRoundTrip | aauth/src/protocol/headers.rs:180-193 | The mission header round-trips under the same exact condition for `s256=`. |
| Headers.CapabilitiesRoundTrip | aauth/src/protocol/headers.rs:160-178 | Capability lists of any length, the empty one included, round-trip. |
| Headers.CapabilitiesExactly | aauth/src/protocol/headers.rs:160-178 | Of any list, exactly the known names are kept, give or take space. |
| Token68.Token68IsTheGrammar | aauth/src/protocol/token68.rs:7-15 | The predicate equals the grammar of section 11.2 of RFC 9110. |
| Token68.GrantedThenPresented | aauth/src/protocol/token68.rs:17-40 | Every token68 granted in `AAuth-Access` and presented in `Authorization` is parsed unchanged both times. |
| Token68.AcceptedIsToken68 | aauth/src/protocol/token68.rs:17-40 | The two parsers accept exactly a token68, alone or after the scheme, give or take surrounding space. |
| Token68.AcceptedExactly | aauth/src/protocol/token68.rs:17-31 | A credential is read as this token if and only if it is the scheme, a space and this token68. |
| DeferredWire.RespondCreated | aauth-axum/src/respond.rs:79-117 | Status, headers and body of the answer to a deferred request, the server error for a payment, and the panic on text a header cannot hold. |
| DeferredWire.PendingText | aauth-axum/src/respond.rs:79-133 | Status, every header and every member of the body of both kinds of pending reply, letter by letter. |
| DeferredWire.DeferralRoundTrip | aauth/src/deferred/parse.rs:30-119 | For an absolute location, the printed deferral parses back to the same location and requirement if and only if the location and the challenge are readable header text and the challenge round-trips. |
| DeferredWire.DeferralExactly | aauth/src/deferred/parse.rs:30-119 | Any reply is read as a deferral if and only if it is a 202 with a readable location and challenge and a body that goes with the challenge; a missing body stands for a default. |
| DeferredWire.BodyGivesBack | aauth/src/deferred/types.rs:42-65 | Header and body together give back every requirement other than a payment. |
| DeferredWire.PaymentFails | aauth/src/deferred/types.rs:35-65 | A payment requirement is always printed as a server error, at first and in answer to a poll. |
| DeferredWire.WaitingIsRejected | aauth-axum/src/respond.rs:119-133 | A reply to a poll that is still pending carries no location and never parses as a deferral. |
| AccessClient.ExchangeAnswerExactly | aauth-reqwest/src/access_client.rs:126-141 | A deferral of the Access Server at an absolute location reaches the Person Server unchanged if and only if headers can carry it. |
| AccessClient.NeverWaiting | aauth-reqwest/src/access_client.rs:272-278 | A poll of this repository's Access Server is never read as a deferral; one that is still pending is an error. |
| AccessClient.RelayNeverMoves | aauth-policy/src/person/federation_pending.rs:172-199 | So the branch for an Access Server that goes on waiting is never taken, whatever it decides. |
| AccessClient.RelayToWaiting | aauth-policy/src/person/federation_pending.rs:137-150 | An input relayed to an Access Server that defers again is answered with a bad gateway and leaves the store alone. |
| AccessClient.RelayToDenying | aauth-policy/src/person/federation_pending.rs:203-209 | A denial there forgets the request when its text is that of an invalid code, is a bad gateway when it is about time, rate or the server, and is passed on otherwise. |
| AccessClient.PollingStatusExactly | aauth-axum/src/respond.rs:56-77 | Which texts make the status of a failed poll 408, 410, 429 and 500; every other error is a 403, whether named or custom. |
| AccessClient.ReadBackExactly | aauth/src/protocol/error.rs:75-104 | An error is received as it was sent unless a custom code borrows the text of another. |
| AccessClient.RelayToGone | aauth-policy/src/person/federation_pending.rs:210-213 | A request the Access Server no longer has is forgotten here too. |
| AccessClient.RelayToGranting | aauth-policy/src/person/federation_pending.rs:152-171 | A grant there completes the request with the token if the token passes, and is refused otherwise. |
| AccessClient.RefusedExchange | aauth/src/person_server/federation.rs:25-80 | An exchange that the Access Server refuses or fails is unauthorized for the agent, and nothing is stored. |
| DeferredWire.RelayRoundTrip | aauth-reqwest/src/access_client.rs:162-181 | An input survives being posted on if and only if it is not a cancellation and extra claims use no reserved key and no textual clarification response. |
| DeferredWire.RelayPreserves | aauth/src/protocol/pending.rs:113-121 | Whatever object an agent posts, the Access Server understands the relayed input as the Person Server did, through the ordered choice and the flattened claims. |
| DeferredWire.PostExactly | aauth/src/protocol/pending.rs:60-121 | Which input any posted object is, if and only if: a textual clarification first, then claims with a subject, then an updated token, then the end of an interaction. |
| SignatureKeys.ToMemberValue | httpsig-key/src/protocol/signature_key.rs:83-103 | The parts pushed one by one and joined are the member's value; unsupported schemes are refused. |
| SignatureKeys.ParseMember | httpsig-key/src/protocol/signature_key.rs:124-177 | The member is read as `MemberOf` says: scheme by the first part, then the last occurrence of each parameter. |
| SignatureKeys.ParseJwtParts | httpsig-key/src/protocol/signature_key.rs:133-144 | The loop keeps the last `jwt` parameter and fails on one that is not closed. |
| SignatureKeys.ParseHwkParts | httpsig-key/src/protocol/signature_key.rs:145-174 | The loop keeps the last value of each key parameter and fails on a missing required one. |
| SignatureKeys.ReadKeyIsPlain | httpsig-key/src/protocol/signature_key.rs:111-121 | Whatever the header says, a key read from it has no comma or semicolon and no quote at the ends of its values. |
| SignatureKeys.LastParameterCounts | httpsig-key/src/protocol/signature_key.rs:145-164 | Of a repeated key parameter the last value counts. |
| SignatureKeys.JwtsAreClosed | httpsig-key/src/protocol/signature_key.rs:133-144 | A member fails if and only if one of its `jwt` parameters, wherever it stands, is not closed ... |
| SignatureKeys.LastJwtCounts | httpsig-key/src/protocol/signature_key.rs:133-144 | ... and otherwise the last of them counts. |
| SignatureKeys.MissingMemberIs | httpsig-key/src/protocol/signature_key.rs:165-174 | The key member reported missing is the first of the three required ones that is. |
| SignatureKeys.HeaderText | httpsig-key/src/protocol/signature_key.rs:83-109 | What the header of one member looks like, letter by letter. |
| SignatureKeys.HeaderRoundTrip | httpsig-key/src/protocol/signature_key.rs:105-121 | A single member is read back if and only if the key is plain: no comma or semicolon, no quote in a JWT or at the ends of a key value. |
| SignatureKeys.ManyMembers | httpsig-key/src/protocol/signature_key.rs:105-121 | In a comma-joined header of any members, looking up a label gives that member's key whenever it is plain and `label=` does not occur earlier in the text. |
| HttpSignature.HeaderMap.Sign | httpsig-key/src/sign.rs:29-99 | The header map after signing: `Signature-Key`, and under the label the components listed and the signature over exactly their lines. It is unchanged when the key has an unsupported scheme or its text does not fit into a header; a repeated component is refused after `Signature-Key` was set. |
| HttpSignature.HeaderMap.Verify | httpsig-key/src/verify.rs:57-151 | The verdict is that of `Verification`; `VerificationExactly` says which messages pass and `RefusedBecause` what a refusal means. |
| HttpSignature.RebuildLines | httpsig-key/src/verify.rs:113-138 | The loop rebuilds the base lines in the order in which components are listed, failing at the first missing header. |
| HttpSignature.RebuildsSignedBase | httpsig-key/src/sign.rs:52-83 | For extras taken from the headers the verifier rebuilds exactly the base that was signed. |
| HttpSignature.VerifiesWhatWasSigned | httpsig-key/src/verify.rs:82-151 | For a plain key, signing succeeds if and only if a header can hold its text and no extra component repeats, and what was signed verifies if and only if that text is readable and the clock is in the window around its creation; it yields the key and token it was signed with. |
| HttpSignature.VerifiedUnderItsToken | httpsig-key/src/verify.rs:68-95 | Whatever else is wrong with it, a signed message that verifies is verified under the token it was signed with. |
| HttpSignature.AcceptedMeansSigned | httpsig-key/src/verify.rs:113-142 | Whatever base was signed, acceptance means that it holds this request's own lines for method (upper-cased), authority, path and `Signature-Key`, for `authorization` when that is required, and for everything else it lists, and that it is fresh. |
| HttpSignature.VerificationExactly | httpsig-key/src/verify.rs:57-151 | A message is accepted if and only if `Signature-Key` names a key under the label, and the signature under the label is by that key, lists method, authority, path and `Signature-Key`, and `authorization` when that is required, was created in the window, and was made over exactly this request's lines for what it lists, in that order. |
| HttpSignature.SignatureFitsOneRequest | httpsig-key/src/verify.rs:113-142 | Two requests on which one signature is accepted agree in method, authority, path and everything else it covers, whoever verifies them and when. |
| HttpSignature.AcceptedIsTheSigned | httpsig-key/src/verify.rs:113-142 | So an accepted message is in all of this the one the signer signed. |
| HttpSignature.RefusedBecause | httpsig-key/src/verify.rs:66-138 | What is missing, or too old, or too new, when a refusal says so. |
| HttpSignature.SignExtrasAreTaken | aauth/src/http_util.rs:50-70 | The extra components are those of the request, and an `AAuth` credential is always among them. |
| HttpSignature.SignExtrasExactly | aauth/src/http_util.rs:50-70 | The extra components are exactly an `AAuth` credential and a mission, where the request has them. |
| MetadataCache.CachedMetadataFetcher.FetchMetadata | aauth-reqwest/src/metadata.rs:81-139 | Served from the cache while fresh or rate-limited, requested otherwise; an answer equals the last document that arrived, and the log stays polite. |
| MetadataCache.CachedMetadataFetcher.FetchJwks | aauth-reqwest/src/metadata.rs:150-198 | Served from the cache once it arrived, refused when rate-limited, requested otherwise; an answer equals the key set that arrived, and the log stays polite. |
| MetadataCache.CachedMetadataFetcher.ClearCache | aauth-reqwest/src/metadata.rs:37-41 | Clearing forgets documents, key sets and request times. |
| MetadataCache.MetadataStepPolite | aauth-reqwest/src/metadata.rs:82-94 | A metadata request to an address from which a document has arrived comes at least 60 s after any earlier request to that address. |
| MetadataCache.JwksStepPolite | aauth-reqwest/src/metadata.rs:151-164 | Key-set requests to one address are at least 60 s apart and stop after the first success. |
| MetadataCache.MetadataStepFaithful | aauth-reqwest/src/metadata.rs:94-138 | After a metadata call the cache still equals what the log of requests says. |
| MetadataCache.JwksStepFaithful | aauth-reqwest/src/metadata.rs:164-197 | After a key-set call the cache still equals what the log of requests says. |
| MetadataCache.MetadataRequestedExactly | aauth-reqwest/src/metadata.rs:81-94 | A metadata call sends a request if and only if no document has arrived yet, or the last one arrived at least the lifetime ago and the last request went out at least 60 s ago. |
| MetadataCache.JwksRequestedExactly | aauth-reqwest/src/metadata.rs:150-164 | A key-set call sends a request if and only if no key set has arrived yet and the last request went out at least 60 s ago. |
| MetadataCache.MetadataAnswers | aauth-reqwest/src/metadata.rs:81-139 | What a metadata call answers: the last document that has arrived if it does not ask, else what its own request brings, with the error for a failure or a document without a `jwks_uri`. |
| MetadataCache.JwksAnswers | aauth-reqwest/src/metadata.rs:150-198 | What a key-set call answers: the key set that has arrived, the refusal while the address rests, or what its own request brings. |
| MetadataCache.FirstMetadataIsNotLimited | aauth-reqwest/src/metadata.rs:88-94 | While no document has arrived, every one of any number of failing calls sends a request, however close together they are. |
| Polling.PollDeferredWith | aauth-reqwest/src/deferred.rs:150-247 | The agent's loop goes on exactly after 202 and 503 and while the deadline has not passed; it ends whenever some round does not go on. |
| Polling.MovingClockEnds | aauth-reqwest/src/deferred.rs:168-169 | Some round does not, whatever the replies, unless a round and its sleep take no time at all. |
| Polling.PollAccessServer | aauth-reqwest/src/access_client.rs:216-296 | The Person Server's loop goes on exactly after 503 and while the deadline has not passed; it ends whenever some round does not go on. |
| Polling.PollExactly | aauth-reqwest/src/deferred.rs:168-246 | The loop ends with the first reply that is neither a 503 nor, for the agent, a 202, with the first failure, or with the first round that is not in time; every round before repeats. |
| Polling.BackoffInRange | aauth-reqwest/src/deferred.rs:227-236 | The backoff stays between 1000 and 30000 ms and is at most 5000 ms after a 202. |
| Polling.BackoffOn503 | aauth-reqwest/src/deferred.rs:233-237 | Through consecutive 503s from the start it is min(1000 * 2^k, 30000) ms. |
| Polling.BackoffExactly | aauth-reqwest/src/deferred.rs:166-237 | The backoff starts at one second and doubles in each round, up to 5 s after a 202 and up to 30 s otherwise. |
| Polling.RetryAfterIsObeyed | aauth-reqwest/src/deferred.rs:249-253 | After `Retry-After: n` the next round starts exactly n seconds after the exchange; without it, after the backoff. |
| Polling.RequestsBounded | aauth-reqwest/src/deferred.rs:168-247 | No more requests than seconds, whenever no reply asks for an immediate retry. |
| Polling.BoundedExactly | aauth-reqwest/src/deferred.rs:168-253 | For any replies, there are no more requests than seconds however long the exchanges take if and only if the sleeps after the first so many rounds fill the time or one of those rounds ends the loop. |
| Polling.UnavailableRequestsBounded | aauth-reqwest/src/access_client.rs:229-295 | A server that only says 503 sees five quick requests and then one per 30 s: at most 14 in five minutes. |
| Polling.ImmediateRetrySpins | aauth-reqwest/src/deferred.rs:249-253 | With `Retry-After: 0` only the time of the exchanges themselves limits the number of requests. |
| Polling.ServersSendZero | aauth-axum/src/respond.rs:79-133 | Every pending reply of this repository's servers, to the request and to later polls, asks for an immediate retry. |
| ResourceGrant.InMemoryOpaqueAccessStore.Issue | aauth-policy/src/resource/opaque.rs:32-42 | The token is issued to the agent and the store follows the log. |
| ResourceGrant.InMemoryOpaqueAccessStore.Validate | aauth-policy/src/resource/opaque.rs:44-50 | A token validates for an agent if and only if the log's last word on it is an issue to that agent. |
| ResourceGrant.InMemoryOpaqueAccessStore.Revoke | aauth-policy/src/resource/opaque.rs:52-54 | The token is revoked and the store follows the log. |
| ResourceGrant.HolderIsLastIssue | aauth-policy/src/resource/opaque.rs:32-54 | The holder of a token is the agent of the last event about it, when that event is an issue. |
| ResourceGrant.PolicyResourceAccessService.CreateDeferred | aauth-policy/src/resource/service.rs:70-113 | A deferral fills in a blank page and a blank code and stores what it answers. |
| ResourceGrant.PolicyResourceAccessService.ConsentForAgent | aauth-policy/src/resource/service.rs:124-139 | Consent issues an opaque token, denies or defers as the policy says. |
| ResourceGrant.PolicyResourceAccessService.PollPending | aauth-policy/src/resource/service.rs:141-155 | A poll that delivers a success removes the request. |
| ResourceGrant.PolicyResourceAccessService.ValidateOpaque | aauth-policy/src/resource/service.rs:157-159 | The service validates a token for an agent if and only if the log's last word on it is an issue to that agent. |
| ResourceGrant.FilledIsUsable | aauth-policy/src/resource/service.rs:78-85 | A blank interaction becomes one with a page and a code of the usual form. |
| ResourceGrant.FilledExactly | aauth-policy/src/resource/service.rs:78-85 | Only a blank page and a blank code are filled in, the code from the random bytes. |
| ResourceGrant.ConsentAnswers | aauth-policy/src/resource/service.rs:124-139 | Consent is given, refused, deferred or fails if and only if the policy says so; a deferral is stored under its location and polls as it was answered for its whole lifetime, and nothing else is stored. |
| ResourceGrant.PollExactly | aauth-policy/src/resource/service.rs:141-155 | A poll reports what is stored, and forgets a request if and only if it has expired or its success is delivered. |
| ResourceGrant.SuccessIsDeliveredOnce | aauth-policy/src/resource/service.rs:141-155 | In every run a success is delivered by at most one poll of an id, and every later poll answers Gone. |

## Left out

- Compact token text, base64, key formats and cryptography: tokens, keys and signatures are ideal values, and keys published in a key set are taken to be usable.
- URL parsing, redirect building, identifier validation and joining of relative locations are functions of the environment; round trips of deferrals are stated for absolute locations.
- Only the first readable value of a header is kept for signatures; `Signature-Input` and `Signature` are kept parsed, by label.
- JSON text: bodies are values, objects are maps, so repeated keys cannot be told apart; posts whose body is an array are not modelled.
- HTTP plumbing, routers, async scheduling, lock poisoning and the stores' last-id helpers.
- Mission, tenant, upstream and sub-agent claims, and the parts of an exchange request that no decision reads.
- One clock reading per call of a token service; lifetimes are unbounded numbers, so overflow of `created_at + ttl` and of `seconds * 1000` is not modelled, nor a negative clock skew in the verify options.
- Lower- and upper-casing outside ASCII; `canonicalize_code` slices bytes, and is modelled on ASCII text.
- Ids are fresh by assumption; random generation itself is an input.
- Store operations do not fail: the modelled store is the in-memory one.
- PersonRuns.CodeFoundAtMostOnce: is about sequential calls; concurrent ones are in `CodeRaces.dfy`.
- AgentLoop.HandleInner: assumes an honest resource, because the loop need not end otherwise.
- AgentMeetsLayer.CallResource: assumes genuine tokens of whatever server is behind the exchanges; `WholeCall.CallThroughServers` proves that of this repository's servers.
- WholeCall.CallThroughServers: assumes that the handler answers neither 401 nor 202, that policies grant at once, and that keys, URLs and clocks are in order for the length of the call; an exchange that is deferred is not followed there (`EndToEnd.FourPartiesDeferred` does).
- AgentMeetsLayer.ManagedLayerIsHonest: the requests that polling itself makes are taken to be accepted; only the resource's answers to them are modelled.
- HttpSignature.HeaderMap.Sign: lines that the signature library cannot parse make signing fail in the source; the library is not part of this model.
- HttpSignature.VerifiesWhatWasSigned: as for `Sign`, lines that the signature library cannot parse are not modelled.
- Polling.PollDeferredWith: must be given replies after which some round does not go on, because an immediate retry that takes no time would make the loop spin for ever.
- Polling.PollAccessServer: the same.
- Governance messages, permission and audit types, error display and the table of error codes, builders and getters: they would only add easy members.
