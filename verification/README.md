# A verified model of the GEO control plane

The repository is a multi-tenant control plane: people log in to one organization, run write commands against client projects, have content drafted by a model provider behind a firewall, review it, and publish it. This project models the parts of it that carry state machines, refinement, recursion and arithmetic, and proves what every run of them keeps.

## What is modelled

- `CommandLedger.dfy`: the write-command runner that uses the append-only audit log as its idempotency ledger. The database is the tables plus an audit sequence. A command's body is a program of statements, domain audits, branches, throws, catches, nested transactions and `invokeDomain` wrappers, with arbitrary functions for what statements compute. As in PostgreSQL, a transaction takes no further statement after a rejected one. Methods run it on a transaction client; the specification is a function over the committed store.
- `SymbolicText.dfy`, `SessionSigning.dfy`: the four-segment session token, its printer and verifier, and the two-key rotation contract as a timed state machine. A text is a sequence of characters, base64url atoms and MAC atoms. HMAC is an injective constructor over a key and an input (RFC 2104), and base64url is a bijection whose alphabet has no dot (section 5 of RFC 4648).
- `Sessions.dfy`: login, logout and cookie resolution against the newest session row of a user and organization, over runs in which time passes, keys rotate and memberships change.
- `Authorization.dfy`: the tenancy rule, both session-to-context mappings, the route pre-flight check, the project list loop, the single-project read and the acting client.
- `Redaction.dfy`: the log redaction walk over an arbitrary finite object graph, cycles included, with its threaded set of seen objects.
- `ProviderContract.dfy`, `Firewall.dfy`, `OfflineAdapter.dfy`, `ProviderLedger.dfy`: the provider boundary. The request guard, the depth-bounded governance search with the content whitelist, the hash-driven offline adapter, the network adapter with its flag gate, caps and single retry, and the write-once execution ledger that observes it, with a ghost log of everything the observer is told.
- `Migrations.dfy`: the migration runner, its checksum ledger, the manifest validator and the readiness evaluation, with an arbitrary fault at any file.
- `ReviewViews.dfy`: the map-building folds behind the opportunity views and the review queue, opaque review references, and runs of the decide command.
- `Tenancy.dfy`: the in-memory tenancy repository and its two indexes.
- `BusinessChain.dfy`, `ChainCalls.dfy`, `ChainInvariants.dfy`, `Delivery.dfy`: the service classes from knowledge package to publication receipt, what each call stores and when it does not, what every run of calls keeps, and the client delivery center's publication status.
- `DerivedVersions.dfy`: versions the database derives, by ROW_NUMBER for knowledge packages and by MAX + 1 for provider contents.
- `Options.dfy`, `Roles.dfy`, `Texts.dfy`, `Picks.dfy`: an option type, the roles and tenant scopes every part shares, trim and toLowerCase, and increasing lists of positions.

## Where the code does not do what its documentation says

Each of these is proved twice: at a concrete input where the promise fails, and as the exact condition under which it holds.

- A command whose stored result is `null` is not recognised as a replay: `CommandLedger.NullResultPerformsTwice` commits its row twice. The next lookup recognises a first commit exactly when the closure's result is not null (`CommandLedger.ReplayableIffNotNull`).
- Caller metadata holding the reserved `idempotencyKey` field on a command without a key makes a later command under that key look like a replay (`CommandLedger.ReservedFieldForgesReplay`). A command's event answers exactly its own lookups if and only if the command has a key of its own or the field is absent, null or empty (`CommandLedger.AllowedMatchesOwnKeyIff`).
- Nested transactions run on the outer one, so one that throws half-way and is caught leaves its partial write to be committed (`CommandLedger.PartialNestedWriteCommits`). A command commits after an inner throw exactly when its body returns, a catch swallowed the throw and no statement was rejected (`CommandLedger.CommitsAfterThrowIff`).
- Redaction marks an object reached twice as circular even when there is no cycle (`Redaction.CycleAndSharing`). Output equals the plain recursive redaction exactly when no visited object is visited twice (`Redaction.EqualsPlainIffUnshared`).
- The migration runner executes every `*.sql` file while the manifest validator looks only at numbered ones (`Migrations.StrayScriptIsListed`). The two orders agree exactly when every script is numbered or registered (`Migrations.RunnerOrderIsManifestOrder`).
- The runner is described as idempotent. When the ledger insert after a script fails, the next run commits that script a second time (`Migrations.UnrecordedScriptRunsTwice`). A stopped run and a later finished one commit the scripts of one undisturbed run exactly when the first did not stop between a script and its row (`Migrations.ResumeExecutesTheSameIff`).
- A review reference's version counts decisions per opportunity, the command that takes it counts them per validation. After a re-validation the reference the client is shown is answered with CONFLICT (`ReviewViews.RevalidatedReferenceIsRefused`), and it is accepted exactly when every decision of the opportunity is on the latest validation (`ReviewViews.ShownReferenceAcceptedIff`).
- A terminal decision is said to close a review. The view stops showing the reference, but the command takes another decision (`ReviewViews.ClosedReviewTakesAnotherDecision`). A history stays change requests followed by at most one terminal decision exactly when no decision was accepted after a terminal one (`ReviewViews.WellReviewedIffDecidedWhileOpen`), as with clients that submit only what they are currently shown.
- The pre-flight check is described as the rule the services enforce. It and the two context mappings disagree for a client owner of an agency, which login accepts (`Authorization.ClientOwnerOfAnAgency`), and they reach what the tables grant exactly when the session is coherent (`Authorization.ResolvedSessionsReachWhatTablesGrantIff`).
- The per-user index is described as holding a user's single ACTIVE client membership. A second one is stored exactly when it is in the same organization (`Tenancy.SecondMembershipStoredIff`, `Tenancy.TwoActiveMemberships`).
- A back-dated knowledge package renumbers the existing versions of its scope (`DerivedVersions.BackDatedPackageRenumbers`). An insert keeps them exactly when it is not ordered before one of them (`DerivedVersions.InsertKeepsVersionsIff`).

## Model

| member | source | states |
|---|---|---|
| CommandLedger.TransactionClient.Perform | src/runtime/commands/geo-command-runtime.ts:94-115 | A body run on one checked-out client, nested transactions, catches and invokeDomain included, leaves exactly the working copy and the thrown error of the program's big-step meaning |
| CommandLedger.PgDatabase.RunWriteCommand | src/runtime/commands/runtime-context.ts:169-204 | BEGIN, ledger lookup, perform, ALLOWED event and COMMIT or ROLLBACK together implement Execute on the committed store |
| CommandLedger.PgDatabase.RecordDenied | src/runtime/commands/runtime-context.ts:211-221 | A refused command commits one DENIED event and no table change |
| CommandLedger.NestingIsInvisible | src/runtime/commands/geo-command-runtime.ts:86-108 | For any tree of nested transactions, wrappers and catches in which no catch swallows a throw, what a finished body leaves, and whether it finishes, equal those of the flattened program |
| CommandLedger.RunLeavesItsEffects | src/runtime/commands/geo-command-runtime.ts:141-168 | Any body leaves the tables of the last statement it got through and, for each domain audit it got to, in order, one event with the intent's actor, organization, client, project, action and target and no metadata |
| CommandLedger.AllowedColumns | src/runtime/commands/runtime-context.ts:188-200 | The event of a committed command has the actor's organization and user, the command's action, the caller's audit columns and metadata, its result, its key if it has one, and the outcome ALLOWED |
| CommandLedger.DeniedColumns | src/runtime/commands/runtime-context.ts:211-221 | A refused command adds one event with the actor, action and audit columns given and the outcome DENIED, and changes no table |
| CommandLedger.AllOrNothing | src/persistence/pg/pg-database.ts:40-59 | A command that is no replay and swallows no throw leaves the tables of its last write, one event for each domain audit it passed, in order and column by column, and one ALLOWED event, when the flat execution of its body returns; when that throws, the store it started from and the error the body threw |
| CommandLedger.CommitsAfterThrowIff | src/runtime/commands/geo-command-runtime.ts:94-108 | A command commits although something inside it threw exactly when its body returns, a catch swallowed the throw and no statement was rejected |
| CommandLedger.PartialNestedWriteCommits | src/runtime/commands/geo-command-runtime.ts:102-104 | A nested transaction that writes, throws and is caught leaves its partial write committed |
| CommandLedger.BrokenIffRejected | src/persistence/pg/pg-database.ts:40-59 | A transaction ends up unable to commit exactly when one of its statements was rejected, whatever the catches did |
| CommandLedger.InvokeYieldsEnvelope | src/runtime/commands/geo-command-runtime.ts:414-427 | Under invokeDomain an abort passes unchanged, an authorization error becomes FORBIDDEN and any other Error VALIDATION_FAILED, each with its own message, a thrown value that is no Error passes unchanged, and wrapping twice is wrapping once |
| CommandLedger.WorkNeverMatches | src/runtime/commands/geo-command-runtime.ts:141-168 | Whatever a command body does, its domain audits (null metadata) never change what the ledger lookup finds |
| CommandLedger.DeniedNeverMatches | src/runtime/commands/runtime-context.ts:144-163 | A DENIED event never answers the ledger lookup |
| CommandLedger.AllowedMatchesOwnKeyIff | src/runtime/commands/runtime-context.ts:188-200 | A command's ALLOWED event answers exactly the lookups of its own actor, action and key, for every lookup, if and only if it is keyed or its caller metadata has no idempotencyKey text other than the empty one |
| CommandLedger.AtMostOnePerKey | src/runtime/commands/runtime-context.ts:169-204 | After every sequential run of tries, retries, aborts and denials, each actor, action and key has at most one matching event |
| CommandLedger.RetryReplaysFirstResult | src/runtime/commands/runtime-context.ts:169-186 | Once a keyed command has performed, every later attempt under its key returns its stored result and leaves the store unchanged, whatever happened in between |
| CommandLedger.EffectsOfCommitsOnly | src/runtime/commands/runtime-context.ts:169-204 | The tables after a run equal performing just the committed commands once each, in order, with no ledger at all |
| CommandLedger.CommitsHaveDistinctKeys | src/runtime/commands/runtime-context.ts:144-163 | Two different steps of a run never both commit under one actor, action and key |
| CommandLedger.ReplayableIffNotNull | src/runtime/commands/runtime-context.ts:144-163 | A first committed keyed command is recognised by the next lookup, and then replayed with its result, exactly when the result its closure computed is not null; otherwise the retry performs again |
| CommandLedger.NullResultNeverReplays | src/runtime/commands/runtime-context.ts:144-163 | Once the oldest matching event under a key holds a null result, no run ever makes that key replay |
| CommandLedger.NullResultPerformsTwice | src/runtime/commands/runtime-context.ts:176-186 | A concrete keyed command with a null result performs again on its retry and its row is committed twice |
| CommandLedger.ReservedFieldForgesReplay | src/runtime/commands/runtime-context.ts:176-200 | A concrete unkeyed command whose metadata carries idempotencyKey makes a later, different command return its result without performing |
| SymbolicText.SplitJoin | src/lib/session-signing.ts:246-252 | Splitting at dots undoes joining with dots, for dot-free segments |
| SymbolicText.JoinSplit | src/lib/session-signing.ts:246-252 | Joining the split segments gives the text back |
| SymbolicText.NumberTextReads | src/lib/session-signing.ts:213-220 | Reading the printed form of any integer gives the integer |
| SessionSigning.SigningKeys.Sign | src/lib/session-signing.ts:213-220 | Signing always uses the CURRENT key and the full lifetime from now |
| SessionSigning.SigningKeys.Rotate | src/lib/session-signing.ts:31-35 | Moving CURRENT into PREVIOUS and setting a new CURRENT takes the keys to the rotated deployment, with the old key still honoured |
| SessionSigning.SigningKeys.ClearPrevious | src/lib/session-signing.ts:36-38 | Clearing PREVIOUS takes the keys to the cleared deployment, where only CURRENT is honoured |
| SessionSigning.SigningKeys.VerifyToken | src/lib/session-signing.ts:246-267 | The loop over the honoured keys computes Verify |
| SessionSigning.KeysAre | src/lib/session-signing.ts:162-168 | The honoured keys are CURRENT, and PREVIOUS when it is set |
| SessionSigning.TokenLayout | src/lib/session-signing.ts:213-220 | A signed token is its payload, its issue time, the time twelve hours later and the MAC of those three under its key, joined by dots |
| SessionSigning.PrintedTokenVerifies | src/lib/session-signing.ts:213-267 | A printed token verifies to its own payload and times exactly when its key is honoured and it has not expired |
| SessionSigning.VerifiedEndsInMac | src/lib/session-signing.ts:184-186 | Whatever verifies is a signing input followed by its MAC under an honoured key |
| SessionSigning.WindowAlwaysCovers | src/lib/session-signing.ts:31-38 | Every deployment run that follows the rotation contract keeps each live token's key among CURRENT and PREVIOUS |
| SessionSigning.TokensLiveExactlyUntilExpiry | src/lib/session-signing.ts:18-38 | In every state of such a run each token ever signed verifies to its own payload and times exactly until its expiry |
| SessionSigning.ShorterWindowRejectsLiveToken | src/lib/session-signing.ts:36-38 | Clearing PREVIOUS at any moment short of a full lifetime after the rotation rejects a live token |
| SessionSigning.OnlyIssuedTokensVerify | src/lib/session-signing.ts:28-29 | A text whose honoured-key MACs were all seen in issued tokens verifies exactly when it is an issued, unexpired token |
| Sessions.AuthRuntime.Login | src/runtime/auth/auth-service.ts:249-308 | Login inserts exactly the row LoginOf describes, pinned to the organization for a client owner, or nothing |
| Sessions.AuthRuntime.Logout | src/runtime/auth/auth-service.ts:311-314 | Logout revokes the row of that id if it was not revoked, and touches no other |
| Sessions.AuthRuntime.ResolveSession | src/runtime/auth/runtime-context.ts:272-331 | The sequence of checks computes Resolve, whose principals ResolvedIff gives field by field, and changes nothing |
| Sessions.NewestIsNewest | src/runtime/auth/runtime-context.ts:214-255 | The row loaded for a user and organization is one no other row of the pair is newer than |
| Sessions.ResolvedIff | src/runtime/auth/runtime-context.ts:272-331 | A cookie resolves to a principal exactly when an honoured signature, the 30-minute cap, and a newest row that is unrevoked, unexpired, of its membership's maximum version, on the same surface and in a known organization say so, and the principal has that row's session, user, role, organization and pinned client, the organization's type, the role's assigned clients and no acting client |
| Sessions.AssignedClientsAre | src/runtime/auth/runtime-context.ts:307-312 | A principal's assigned clients are the existing ones of its organization's active assignments for an agency role, and none for any other role |
| Sessions.SurfacesAre | src/lib/session-cookie.ts:107-118 | Two roles share a surface exactly when they are the same or both an agency's |
| Sessions.LoginRowIs | src/runtime/auth/auth-service.ts:249-308 | Login fails exactly for a user without an active membership, and otherwise inserts the row of the first one, with the given id, version and lifetime, unrevoked, pinned to the organization for a client owner |
| Sessions.LoginCookieIs | src/runtime/auth/auth-service.ts:249-308 | The cookie is signed with CURRENT at login time and names the user and the membership's role, organization, organization type and pinned client |
| Sessions.LogoutRevokes | src/runtime/auth/runtime-context.ts:96-98 | A logout sets the revocation time of the rows of that id not yet revoked, and changes nothing else |
| Sessions.QuietRunKeepsRow | src/runtime/auth/runtime-context.ts:214-270 | Whatever other principals do, a row stays its pair's newest, unrevoked and of maximum version |
| Sessions.LoginThenResolve | src/runtime/auth/auth-service.ts:249-308 | Resolving a login's cookie later, without a newer login or a logout of it, gives the login's own session, with the first active membership's user, role, organization and pinned client, exactly when the key is still honoured, the 30-minute cap and the session's lifetime have not passed, the organization is known, the row outranked the pair's earlier rows and its version was at least the membership's maximum |
| Sessions.LoginIsNewestIff | src/runtime/auth/runtime-context.ts:214-255 | A login's row becomes the one loaded for its pair exactly when it outranks the earlier ones by time, then id |
| Sessions.AdvancingClockOutranks | src/runtime/auth/runtime-context.ts:214-255 | From an empty table, every login outranks its pair's earlier rows when the clock advances between the pair's logins |
| Sessions.LogoutIsFinalUntilLogin | src/runtime/auth/runtime-context.ts:96-98 | After the resolved row is revoked, every cookie of that user and organization resolves to nothing until a new row is created |
| Sessions.MaxVersionGrows | src/runtime/auth/runtime-context.ts:264-270 | A membership's maximum version never decreases along a run |
| Sessions.StaleVersionNeverResolves | src/contracts/tenancy/sessions.ts:116-139 | A principal resolved at any later time stands on a row whose version is at least every version its membership had before |
| Authorization.FormsAgreeIffCoherent | src/runtime/commands/geo-command-runtime.ts:356-400 | The pre-flight check and both context mappings decide every client id alike exactly on coherent sessions |
| Authorization.ContextsCarryTheSession | src/runtime/commands/geo-command-runtime.ts:356-379 | Both mappings carry the session's user, role, organization and assigned clients, and differ only in the active client |
| Authorization.ResolvedIsALoginsSession | src/runtime/auth/runtime-context.ts:272-331 | Whatever resolves after a run has the session id of a login of the run and the user, role, organization and pinned client of the membership that login used |
| Authorization.ResolvedSessionsReachWhatTablesGrantIff | src/contracts/tenancy/authorization.ts:72-100 | After any run of logins and logouts, a resolved session is that of a login of the run, and by each of the three forms reaches exactly the clients the tables grant the role and organization of the membership it logged in with, for every target, if and only if it is coherent |
| Authorization.ClientOwnerOfAnAgency | src/runtime/commands/geo-command-runtime.ts:381-400 | A login that resolves to a client owner of an agency is refused its own client by the pre-flight check and allowed it by both mappings |
| Authorization.ListProjects | src/app/api/projects/route.ts:27-60 | The loop with its name cache lists the views of each listed client's projects, client by client |
| Authorization.ListShows | src/app/api/projects/route.ts:27-60 | The list shows exactly the projects of the clients the role lists, each with its own id, name, client, client name and creation time |
| Authorization.ListingOrder | src/app/api/projects/route.ts:40-60 | The list goes client by client, and within a client in the order of the project rows |
| Authorization.GetProjectOutcome | src/runtime/auth/auth-service.ts:492-542 | For a project in the table the single read is refused exactly to a principal whose role, pinned, assigned and acting clients do not reach it, and otherwise gives its view or the missing organization |
| Authorization.NotFoundIff | src/runtime/auth/auth-service.ts:492-500 | An id is answered as not found exactly when no project has it |
| Authorization.ListIsWhatGetProjectAllows | src/runtime/auth/auth-service.ts:492-542 | For client and agency principals the list shows a view exactly when the single read answers with that view |
| Authorization.SelectionGrantedIff | src/runtime/auth/auth-service.ts:401-484 | A selection is granted exactly to an agency member for an assigned client when both organizations are known, with their names and that client from then on, and each refusal has its own cause and changes nothing |
| Authorization.ActingNarrows | src/runtime/auth/auth-service.ts:401-484 | After selecting a client the readable projects are those readable before that belong to it, and a refused selection changes nothing |
| Authorization.SelectionsNeverWiden | src/runtime/auth/auth-service.ts:505-510 | No sequence of selections makes a project readable that was not readable without one, and only an assigned client is ever acted for |
| Redaction.RedactInner | src/runtime/observability/logger.ts:114-128 | The walk that adds to the seen set computes Redact and terminates on every finite graph, cyclic or not |
| Redaction.RedactForbidden | src/runtime/observability/logger.ts:110-112 | Redaction starts from an empty seen set |
| Redaction.OutputIsClean | src/runtime/observability/logger.ts:102-128 | Under every forbidden key, at any depth of the output, there is only the redaction marker |
| Redaction.ExpandsEachObjectOnce | src/runtime/observability/logger.ts:114-121 | The output has one container per object newly seen, so at most one per object of the graph |
| Redaction.EqualsPlainIffUnshared | src/runtime/observability/logger.ts:114-128 | On an acyclic value the output equals the plain recursive redaction exactly when no visited object occurs twice or was seen before |
| Redaction.PlainAt | src/runtime/observability/logger.ts:114-128 | Plain redaction keeps a node's kind and keys, puts the marker under an object's forbidden keys and redacts every other slot on its own |
| Redaction.RedactTwice | src/runtime/observability/logger.ts:110-128 | Redacting the output again changes nothing |
| Redaction.CycleAndSharing | src/runtime/observability/logger.ts:117-118 | A self-referencing object ends in the circular marker, and so does a merely shared one |
| ProviderContract.ValidateRequest | src/runtime/provider/provider-port.ts:168-209 | The guard accepts exactly well-formed requests and otherwise lists the offending fields in declaration order |
| ProviderContract.WellFormedIff | src/runtime/provider/provider-port.ts:150-209 | A request is well-formed exactly when it is an object whose five texts hold more than spaces and whose two numbers are positive |
| ProviderContract.OffendersAreNamed | src/runtime/provider/provider-port.ts:168-209 | Each required field is listed as offending exactly when it holds no text, or no positive number |
| ProviderContract.OffendersInOrder | src/runtime/provider/provider-port.ts:181-189 | The offending fields are listed once each, in declaration order |
| Firewall.ValidateContent | src/runtime/provider/contract-validation.ts:148-232 | The validator with its section loop computes Verdict |
| Firewall.DepthBoundNeverMatters | src/runtime/provider/contract-validation.ts:115-134 | The search bounded at depth 20 gives every value the verdict an unbounded search gives, so an accepted value has no governance key or literal at any depth |
| Firewall.AllowedKeysArePlain | src/runtime/provider/contract-validation.ts:43-108 | No whitelisted key contains a governance fragment |
| Firewall.AcceptedIff | src/runtime/provider/contract-validation.ts:148-232 | A value is accepted exactly when it has the content shape with visible text and none of its texts is a bare verdict |
| Firewall.VisibleIff | src/runtime/provider/contract-validation.ts:216-230 | Content is visible exactly when it has a section and its title, a heading or a body holds more than spaces |
| Firewall.VerdictIff | src/runtime/provider/contract-validation.ts:115-134 | A text is a verdict exactly when it is a listed word with nothing but spaces around it |
| Firewall.GovernanceKeyIff | src/runtime/provider/contract-validation.ts:43-75 | A key is a governance key exactly when a listed fragment occurs in it, capitals or not |
| Firewall.PlainContentIsAccepted | src/runtime/provider/contract-validation.ts:148-232 | Every visible content without verdict texts is accepted as itself when written back as JSON |
| Firewall.AcceptedContentIsStable | src/runtime/provider/contract-validation.ts:148-232 | Validating accepted content again returns it unchanged |
| OfflineAdapter.Fnv1a | src/runtime/provider/deterministic-offline-adapter.ts:34-41 | The 32-bit loop is a left fold of xor then multiply over the text's UTF-16 code units |
| OfflineAdapter.SurrogatesRead | src/runtime/provider/deterministic-offline-adapter.ts:36-38 | A character outside the basic plane is a high and a low surrogate that give it back, and any other is itself |
| OfflineAdapter.Generate | src/runtime/provider/deterministic-offline-adapter.ts:64-105 | Every well-formed request is answered with its candidate, of two sections plus the seed modulo three, and any other with a contract error |
| OfflineAdapter.CandidateShows | src/runtime/provider/deterministic-offline-adapter.ts:74-102 | The candidate's title shows the brief and the seed, its summary the project and model, and each section its number and its own token, every numeral reading back as its number |
| OfflineAdapter.SeedTextIsInjective | src/runtime/provider/deterministic-offline-adapter.ts:43-54 | Every field takes part in the seed: requests and labels free of the separator share a seed text only if equal |
| OfflineAdapter.HashVectors | src/runtime/provider/deterministic-offline-adapter.ts:34-41 | The hash has the published FNV-1a values of the empty text and of "a" |
| OfflineAdapter.CandidateIsAccepted | src/runtime/provider/deterministic-offline-adapter.ts:64-105 | For every request and label the candidate passes the firewall unchanged |
| ProviderLedger.PgProviderLedger.RecordExecution | src/runtime/provider/pg-provider-ledger.ts:193-243 | A record is stored once per idempotency key, scoped to its project's owner, and rejected for an unknown project |
| ProviderLedger.PgProviderLedger.Drain | src/runtime/provider/pg-provider-ledger.ts:281-285 | Draining empties the pending list and reports whether any write was rejected |
| ProviderLedger.ResolveAllowedModels | src/runtime/provider/openai-compatible-adapter.ts:363-402 | The loops build the set of trimmed, non-blank allowed models |
| ProviderLedger.OpenAICompatibleAdapter.GenerateArticleContent | src/runtime/provider/openai-compatible-adapter.ts:294-360 | One call's result and fetches are those of AnswerTo, which the rows below give from the gates and the deciding attempt alone, the observer is told exactly its emissions in order, and rows and pending writes grow by exactly what those emissions cause |
| ProviderLedger.OpenAICompatibleAdapter.RunAttempts | src/runtime/provider/openai-compatible-adapter.ts:348-353 | A retryable first attempt is followed by exactly one more fetch, whose classification replaces the first one's |
| ProviderLedger.GateAnswers | src/runtime/provider/openai-compatible-adapter.ts:299-329 | A call that does not reach the network fetches nothing and fails with the code of the first gate it does not pass |
| ProviderLedger.GatesAre | src/runtime/provider/feature-flag.ts:24-42 | The runtime is on exactly for "true" and "1", trimmed and in any case, and a call has a key exactly when one of the two is not blank |
| ProviderLedger.DecidingAttemptAnswers | src/runtime/provider/openai-compatible-adapter.ts:348-360 | A call that reaches the network is answered from one attempt alone, the second exactly when the first was a 429 or 5xx: by its timeout, status or token limit, and for a 2xx by its missing text, unparsable text or the firewall's verdict on what it parses to |
| ProviderLedger.CompletionReads | src/runtime/provider/openai-compatible-adapter.ts:221-263 | A chat completion as a provider writes it reads as its own message text and token counts, and signals a token limit exactly when it finished by length or by max_tokens |
| ProviderLedger.ErrorReads | src/runtime/provider/openai-compatible-adapter.ts:233-246 | An error body signals a token limit exactly when a listed phrase occurs in its code, type and message, capitals or not |
| ProviderLedger.ContentComesThrough | src/runtime/provider/openai-compatible-adapter.ts:472-536 | When the deciding attempt is a 2xx completion of plain visible content, the caller gets that content and the record that completion's token counts, unless it was cut off |
| ProviderLedger.AllowedModelsIff | src/runtime/provider/openai-compatible-adapter.ts:371-388 | A model is allowed exactly when it is a trimmed entry of the explicit list if there is one, and otherwise a default, the configured or a listed one |
| ProviderLedger.OpenAICompatibleAdapter.FinishSuccess | src/runtime/provider/openai-compatible-adapter.ts:553-567 | A success tells the observer its usage and then its one execution record, nothing else, and queues those two writes |
| ProviderLedger.OpenAICompatibleAdapter.FinishError | src/runtime/provider/openai-compatible-adapter.ts:569-586 | A failure tells the observer its one execution record and then its failure, nothing else, and queues those two writes |
| ProviderLedger.OpenAICompatibleAdapter.RunAndDrain | src/runtime/provider/pg-provider-ledger.ts:272-289 | A run of calls and a drain answer, emit and record what each call would alone, in order, and the drain rejects exactly when an earlier write was rejected or some record of the run rejects at its turn |
| ProviderLedger.FetchDiscipline | src/runtime/provider/openai-compatible-adapter.ts:294-417 | A call fetches exactly when every gate lets it through, at most twice and the second time only after a 429 or 5xx, each time with the model verbatim and the smaller of the request's own limit and the ceiling in force: a positive override, else a positive environment value, else the default |
| ProviderLedger.OneConsistentRecord | src/runtime/provider/openai-compatible-adapter.ts:553-586 | A well-formed request emits exactly two things: one execution record with the request's ids, the declared identity and the latency, whose outcome, error code and token counts are those of the result and of the deciding body's usage, and the usage or failure that goes with it; any other request emits nothing |
| ProviderLedger.ContentPassedFirewall | src/runtime/provider/openai-compatible-adapter.ts:472-536 | Content that reaches the caller is that of the deciding attempt, a 2xx response, and passed the firewall |
| ProviderLedger.OneRowPerKey | src/runtime/provider/pg-provider-ledger.ts:193-243 | After any records a key has exactly one row iff some record under it named an existing project, and the row is the first such record's |
| ProviderLedger.LedgerOnlyGrows | src/runtime/provider/pg-provider-ledger.ts:193-243 | Rows are never changed or removed |
| ProviderLedger.RunLeavesFirstCall | src/runtime/provider/pg-provider-ledger.ts:193-289 | After any run of calls a key has one row exactly when some well-formed call under it named an existing project, and the row holds the first such call's request fields, outcome and the deciding body's token counts, under that project's owner |
| ProviderLedger.DrainRejectsIff | src/runtime/provider/pg-provider-ledger.ts:229-242 | From an empty ledger a run's drain rejects exactly when some well-formed call named an unknown project and no earlier one under its key named a known one |
| Migrations.Validate | src/persistence/migration-manifest.ts:79-126 | The validator computes its report, which is empty exactly for manifests that are declaratively valid against the directory |
| Migrations.ReportedIff | src/persistence/migration-manifest.ts:79-126 | The validator reports every malformed, repeated, misnamed, missing, out-of-order or unregistered entry of a readable list, and an unsupported schema version, and nothing else |
| Migrations.UnlistedReports | src/persistence/migration-manifest.ts:79-92 | A manifest that cannot be read, or holds no list, is reported as such |
| Migrations.SortedSqlIs | src/persistence/pg/migrator.ts:37-39 | The runner's file list holds exactly the directory's SQL files in strictly increasing order |
| Migrations.RunnerOrderIsManifestOrder | src/persistence/migration-manifest.ts:97-124 | Under a valid manifest the runner visits the registered files in manifest order, and nothing else, exactly when every SQL file is numbered or registered |
| Migrations.StrayScriptIsListed | src/persistence/pg/migrator.ts:37-39 | A directory with one registered migration and an unnumbered script has a valid manifest, and the runner's list has both files |
| Migrations.SchemaDatabase.ApplyMigrations | src/persistence/pg/migrator.ts:31-75 | The loop with an arbitrary fault at any file computes RunAll on ledger and executed scripts |
| Migrations.RunStopsAt | src/persistence/pg/migrator.ts:44-74 | A run stops at the first modified or failing file, or goes through them all |
| Migrations.RunTells | src/persistence/pg/migrator.ts:44-74 | A finished run reports as applied exactly the directory's SQL files that had no row and as skipped the others, each in increasing order |
| Migrations.RunLeaves | src/persistence/pg/migrator.ts:44-74 | A run stopped at file n leaves exactly the old ledger plus a row for each file before n that had none |
| Migrations.RunExecutes | src/persistence/pg/migrator.ts:65-71 | It has committed the scripts of exactly the rows it added, and at most the one script whose row was not recorded |
| Migrations.LedgerIsAppendOnly | src/persistence/pg/migrator.ts:31-75 | Over any sequence of runs, on any directories with any faults, the ledger only grows and keeps one row per file |
| Migrations.SuccessRecordsAll | src/persistence/pg/migrator.ts:44-74 | A finished run has recorded every file under its current checksum |
| Migrations.SecondRunAppliesNothing | src/persistence/pg/migrator.ts:53-63 | Running again on the same directory applies nothing and skips every file |
| Migrations.UndisturbedRunFinishes | src/persistence/pg/migrator.ts:44-74 | If a run goes through after a disturbed one, an undisturbed run would have gone through at once |
| Migrations.ResumeReachesTheSameLedger | src/persistence/pg/migrator.ts:44-74 | A run that failed anywhere and is run again ends with the ledger rows of one undisturbed run |
| Migrations.ResumeExecutesTheSameIff | src/persistence/pg/migrator.ts:65-71 | It has committed the scripts of one undisturbed run exactly when the first run did not stop between a script and its ledger row |
| Migrations.UnrecordedScriptRunsTwice | src/persistence/pg/migrator.ts:65-71 | A script whose ledger insert failed is committed twice by the resumed run, and once by an undisturbed one |
| Migrations.PassIsMonotone | src/persistence/migration-manifest.ts:133-148 | A readiness PASS stays a PASS as more versions are applied |
| Migrations.ReadinessIs | src/persistence/migration-manifest.ts:133-148 | Readiness passes exactly when every required version begins a recorded file's name, lists exactly the others in order, and finds the database ahead exactly when a recorded version is beyond the last required one |
| Migrations.FinishedRunIsReady | src/persistence/migration-manifest.ts:133-148 | With a valid manifest a finished run leaves readiness PASS, and so does every later run |
| ReviewViews.DecodesIff | src/runtime/geo/review-reference.ts:136-164 | A code decodes to a validation id exactly when it is that id's encoding |
| ReviewViews.CodeNeedsItsKey | src/runtime/geo/review-reference.ts:124-164 | A code is its id and the id's MAC, and decodes under the key it was made with and under no other |
| ReviewViews.LatestValidationByOpportunity | src/runtime/geo/views.ts:123-130 | The map fold holds, for every opportunity, the last of the filter |
| ReviewViews.LatestReviewStatusByOpportunity | src/runtime/geo/views.ts:132-139 | The map fold holds, for every opportunity, the status of the last decision of the filter |
| ReviewViews.ReviewsByOpportunity | src/runtime/geo/views.ts:141-151 | The grouped lists are the filters, in arrival order |
| ReviewViews.ToOpportunityViews | src/runtime/geo/views.ts:182-196 | The views are one for each opportunity, in order, each with the opportunity's id, project, title and creation time, the status its last decision gives or failing one its last validation, and a reference that names the latest validation and counts the decisions |
| ReviewViews.ViewShows | src/runtime/geo/views.ts:75-105 | A view is CONFIRMED exactly when the last decision is an approval, REJECTED when it is a rejection or there is none and the last validation is rejected, PROPOSED when there is no decision and the last validation is absent or pending, and VALIDATED otherwise |
| ReviewViews.LastAreUnique | src/runtime/geo/views.ts:123-139 | A history has one last decision and one last validation of an opportunity |
| ReviewViews.ToReviewQueueViews | src/runtime/geo/views.ts:204-222 | The queue is exactly the pending subsequence of the opportunity views, with identical views |
| ReviewViews.QueueIs | src/runtime/geo/views.ts:204-222 | The queue holds exactly the views that wait for a first decision, each once, in the order of the opportunities |
| ReviewViews.ReferenceIff | src/runtime/geo/views.ts:162-179 | A reference is present exactly when the derived status and the latest validation are both VALIDATED |
| ReviewViews.CheckOutcome | src/app/api/opportunities/[id]/reviews/route.ts:105-183 | A decision aimed at a validation fails for a negative version, is not found when no validation of the opportunity has that id, conflicts when its version is not the number of decisions on the validation, and is otherwise accepted for that validation |
| ReviewViews.AimlessFails | src/app/api/opportunities/[id]/reviews/route.ts:105-128 | A decision whose code encodes no validation id, or that names none, fails validation |
| ReviewViews.SubmitRecords | src/app/api/opportunities/[id]/reviews/route.ts:156-199 | An accepted request appends one decision with its own id, opportunity and status on the validation it aimed at, and any other changes nothing |
| ReviewViews.AcceptedKeepsWellReviewedIff | src/app/api/opportunities/[id]/reviews/route.ts:156-199 | A decision the command accepts keeps a history change requests followed by at most one terminal decision exactly when the last decision is absent or asked for changes |
| ReviewViews.WellReviewedIffDecidedWhileOpen | src/app/api/opportunities/[id]/reviews/route.ts:110-199 | Over every run of validations and submitted decisions, a history is change requests followed by at most one terminal decision exactly when none was accepted after a terminal one |
| ReviewViews.ClosedReviewTakesAnotherDecision | src/runtime/geo/views.ts:153-160 | On an opportunity with one terminal decision no reference is shown, and the command accepts a second decision with the current version |
| ReviewViews.ShownReferencesKeepWellReviewed | src/runtime/geo/views.ts:153-179 | When every submission carries the reference and version currently shown, every history stays change requests followed by at most one terminal decision |
| ReviewViews.RunKeepsConsistent | src/app/api/opportunities/[id]/reviews/route.ts:156-167 | Along every run with new validation ids, each decision names a validation of its own opportunity |
| ReviewViews.VersionedRequestAcceptedIffUndecided | src/app/api/opportunities/[id]/reviews/route.ts:169-183 | A request the command would have accepted with its version is accepted later exactly when no decision on that validation landed in between, and is otherwise answered CONFLICT |
| ReviewViews.ReferenceStaysCurrentIff | src/runtime/geo/views.ts:162-179 | An emitted reference is still current exactly when nothing was decided and its validation is still the latest |
| ReviewViews.ShownReferenceAcceptedIff | src/runtime/geo/views.ts:162-179 | The decide command accepts the reference a client is shown exactly when no decision of the opportunity was on an earlier validation, and otherwise answers CONFLICT |
| ReviewViews.RevalidatedReferenceIsRefused | src/app/api/opportunities/[id]/reviews/route.ts:169-183 | Validate, request changes, validate again: the reference shown then is refused |
| Tenancy.InMemoryTenancyRepository.CreateOrganization | src/contracts/tenancy/in-memory-repository.ts:177-205 | Creation returns the organization indexed under the key, or stores the new one and indexes it |
| Tenancy.InMemoryTenancyRepository.CreateMembership | src/contracts/tenancy/in-memory-repository.ts:249-281 | Creation refuses an unknown organization or an indexed conflict, and otherwise stores and indexes the membership |
| Tenancy.OrganizationOutcome | src/contracts/tenancy/in-memory-repository.ts:177-205 | A new key stores its own organization under its id and key and returns it; a known key stores nothing and returns the indexed one, or the internal error when the index leads nowhere |
| Tenancy.MembershipOutcome | src/contracts/tenancy/in-memory-repository.ts:249-281 | An unknown organization is not found and an indexed membership elsewhere conflicts, naming both organizations, with nothing stored; any other membership is stored as given, and indexed exactly when active in a client |
| Tenancy.RunKeepsSound | src/contracts/tenancy/in-memory-repository.ts:155-162 | Over every run with fresh ids the key index is a bijection with organizations, and the per-user index knows one of each user's active client memberships, all of one organization |
| Tenancy.SameKeySameOrganization | src/contracts/tenancy/in-memory-repository.ts:170-189 | Whatever happened since the first request under a key, a later one returns that organization, stores nothing and never meets the internal error |
| Tenancy.ConflictIffScan | src/contracts/tenancy/in-memory-repository.ts:257-265 | Membership creation conflicts exactly when a full scan would, and names the organization the scan finds |
| Tenancy.OneClientOrganizationPerUser | src/contracts/tenancy/in-memory-repository.ts:239-248 | In every reachable state all of a user's active client memberships share one organization |
| Tenancy.SecondMembershipStoredIff | src/contracts/tenancy/in-memory-repository.ts:257-281 | A second ACTIVE client membership of a user is stored exactly when it is in the same organization, and the index then names it |
| Tenancy.TwoActiveMemberships | src/contracts/tenancy/in-memory-repository.ts:161-162 | A run that ends with two ACTIVE memberships of one user in one client organization |
| BusinessChain.KnowledgeService.CreatePackage | src/composition/geo-business-services.ts:109-129 | Access first, then the stored package and its audit event: the whole new state is Perform's |
| BusinessChain.OpportunityService.Create | src/composition/geo-business-services.ts:189-209 | Access on the grounding package's tenant, then the stored opportunity naming its keyword map and package version, and its event |
| BusinessChain.OpportunityService.Validate | src/composition/geo-business-services.ts:211-232 | Access, then the stored validation with the profile's id and gate level, and no event |
| BusinessChain.HumanReviewService.Confirm | src/composition/geo-business-services.ts:247-268 | Access, then an APPROVED decision and its event |
| BusinessChain.HumanReviewService.RequestChanges | src/composition/geo-business-services.ts:270-293 | Access, then a CHANGES_REQUESTED decision with its note, and its event |
| BusinessChain.HumanReviewService.Reject | src/composition/geo-business-services.ts:295-317 | Access, then a REJECTED decision with its note, and its event |
| BusinessChain.ArticlePipelineService.CreateOpportunityFamily | src/composition/geo-business-services.ts:336-353 | Access on the given tenant, then the stored family with its members |
| BusinessChain.ArticlePipelineService.CreateArticleBrief | src/composition/geo-business-services.ts:355-383 | Access on the family's tenant, then the stored brief carrying the members' decision ids, keywords and risk level |
| BusinessChain.ArticlePipelineService.RecordProviderContent | src/composition/geo-business-services.ts:385-402 | Access on the brief's tenant, then the stored content |
| BusinessChain.ArticlePipelineService.Compile | src/composition/geo-business-services.ts:404-420 | Access, then a throw for no contents or a content of another brief, else the compiled draft |
| BusinessChain.ArticlePipelineService.Approve | src/composition/geo-business-services.ts:534-562 | Access on the draft's tenant, then the stored approval naming three passed gates, and its event |
| BusinessChain.PublicationPackageService.CreatePackage | src/composition/geo-business-services.ts:575-583 | Access, then a throw when the approval names another draft, else the stored package and its event |
| BusinessChain.PublicationPackageService.CreateChannelNeutralPackage | src/composition/geo-business-services.ts:585-597 | Access, then the stored package with no target channel |
| BusinessChain.PublicationPackageService.CreateDistributionPlan | src/composition/geo-business-services.ts:607-626 | Access, then the stored plan with its non-empty channels |
| BusinessChain.PublicationPackageService.RecordPublicationReceipt | src/composition/geo-business-services.ts:628-647 | Access, then a throw for a channel outside the plan or an automatic actor, else the stored receipt and its event |
| ChainCalls.CallStoresItsRecord | src/composition/geo-business-services.ts:109-647 | A call is denied exactly without access to its value's client, throws exactly for the named reasons, and otherwise appends to its own collection, and to no other, a record with its id, its arguments and the tenant and ids of the values it was given |
| ChainCalls.RunStoresExactly | src/composition/geo-business-services.ts:109-647 | After any run each of the thirteen collections holds exactly one record for each permitted, well-formed call of its kind, that call's own, in the order of the calls |
| ChainCalls.DecisionsAreTheCalls | src/composition/geo-business-services.ts:247-317 | After any run the stored decisions of a verdict are exactly those of the permitted confirm, request-changes or reject calls, in order, each with the call's validation, reviewer and note |
| ChainCalls.RunAuditsExactly | src/composition/geo-business-services.ts:77-98 | After any run the audit log is one event for each permitted, well-formed, audited call, in order, with the call's actor, organization, tenant, action, target type and record id |
| ChainInvariants.BuiltInTarget | src/composition/geo-business-services.ts:109-647 | A record belongs to the tenant whose access was asserted |
| ChainInvariants.RunStaysInTenant | src/composition/geo-business-services.ts:109-647 | Whatever values the calls carry, a run by actors who cannot access a client changes, removes and adds no record and no audit event of that client |
| ChainInvariants.DraftSources | src/contracts/geo-business/entities.ts:666-712 | The contents a draft is compiled from are of its own tenant, though only their brief is compared |
| ChainInvariants.ApprovedDraftTenant | src/contracts/geo-business/entities.ts:1318-1345 | The draft a package is built from has the approval's tenant, though only its id is compared |
| ChainInvariants.RunKeepsSound | src/composition/geo-business-services.ts:109-647 | Over every run on recorded values with fresh ids, each record's upstream exists with the same tenant and carries the copied fields |
| ChainInvariants.ReceiptsTraceToApprovedDrafts | src/contracts/geo-business/entities.ts:1442-1473 | In every reachable state each receipt leads back through plan and packages to an approved, compiled draft of one tenant, for a plan channel and by no automatic actor |
| ChainInvariants.AuditIsTheTrail | src/composition/geo-business-services.ts:77-98 | After every run, for each audited action, the events' targets are exactly the corresponding records' ids and tenants in order |
| Delivery.DisplayedPlanStays | src/contracts/geo-business/repository.ts:231-248 | Once a package displays a plan, no later package or plan displaces it |
| Delivery.StatusNeverRegresses | src/contracts/geo-business/entities.ts:1250-1265 | Along every run no package's displayed status goes back |
| Delivery.StatusByChannels | src/contracts/geo-business/repository.ts:254-256 | Listing a plan's receipts first does not change the derived status |
| Delivery.PublishedIff | src/contracts/geo-business/entities.ts:1226-1265 | In every reachable state PUBLISHED means the receipt channels are the plan's channels, PARTIALLY_PUBLISHED some but not all, CHANNELS_SELECTED none |
| Delivery.EveryMissingChannelCostsAReceipt | src/contracts/geo-business/entities.ts:1250-1265 | No run reaches PUBLISHED with fewer new receipts than there are missing channels |
| Delivery.PublishingTheMissingChannels | src/contracts/geo-business/entities.ts:1250-1265 | Publishing each missing channel once, in any order, reaches PUBLISHED with the last of them and not before |
| Delivery.DisplayedTenant | src/composition/frontend-read-model-service.ts:55-60 | The neutral package and plan shown for a package are of its own tenant |
| Delivery.ItemShows | src/composition/frontend-read-model-service.ts:55-68 | An item has its package's id and title, and from the first stored plan of its first stored neutral package the status, the number of channels and the number of receipts, or is PACKAGED with none |
| Delivery.CenterShows | src/composition/frontend-read-model-service.ts:53-69 | The center is refused exactly without access to the client, and otherwise shows one item for each package of the tenant, and no other, in the order they were stored |
| Delivery.DeliveryCenterIsUndisturbed | src/composition/frontend-read-model-service.ts:53-69 | A client's delivery center is the same after any run on recorded values by actors who cannot access the client |
| DerivedVersions.KnowledgePackageBridge.Add | src/persistence/runtime-continuity/knowledge-package-bridge.ts:139-187 | Adding refuses without a principal or for a used id, else stores one row and returns what reading it back gives |
| DerivedVersions.VersionsAreListPositions | src/persistence/runtime-continuity/knowledge-package-bridge.ts:99-114 | Within a scope the versions are exactly 1 to n in list order, which is creation time and then id, the list is complete, and reading by id gives the list's own entry |
| DerivedVersions.ViewShowsRow | src/persistence/runtime-continuity/knowledge-package-bridge.ts:77-98 | A view has its row's id, scope, title and creation time, and is sealed exactly when the row is confirmed, at its confirmation or failing one at its creation |
| DerivedVersions.GetByIdReads | src/persistence/runtime-continuity/knowledge-package-bridge.ts:99-108 | Reading by id gives the view of the stored row of that id, and nothing exactly when there is none |
| DerivedVersions.InsertKeepsVersionsIff | src/persistence/runtime-continuity/knowledge-package-bridge.ts:109-112 | An insert leaves every existing version as it was exactly when no package of its scope has a later creation time, or the same and a greater id |
| DerivedVersions.BackDatedPackageRenumbers | src/persistence/runtime-continuity/knowledge-package-bridge.ts:109-112 | A package dated before a scope's only one takes version 1 and moves that one to 2 |
| DerivedVersions.ProviderArticleContentRepository.Add | src/persistence/runtime-continuity/provider-article-content-repository.ts:62-94 | Adding appends one row with the brief's next version, or refuses a used id |
| DerivedVersions.AddStores | src/persistence/runtime-continuity/provider-article-content-repository.ts:62-94 | An add appends the content as given but for its version, one more than its brief's contents, and a used id appends nothing |
| DerivedVersions.ListIsAppendOrder | src/persistence/runtime-continuity/provider-article-content-repository.ts:96-104 | After any sequence of adds a brief's list is its contents in append order, versioned 1 to n |

## Left out

- Concurrent interleavings of write commands: commands run one after the other, as the source states only sequential retries are covered.
- The audit event's hash and timestamp: the audit trail's order is append order, which is creation order for sequential commands.
- A command body that writes audit events with metadata itself: bodies are programs of statements, domain audits, branches, throws, catches and wrappers. A branch reads the tables, so it counts as a statement.
- HMAC, SHA-256 and base64url as bit strings: they are symbolic constructors, so a base64url segment that is not an encoding reads as none.
- SymbolicText.NumberTextReads: covers decimal integers, because the other forms JavaScript's Number accepts (hexadecimal, exponents, padding) do not occur in printed tokens; they read as none.
- Key loading, caching and environment files, and parsing of the cookie header.
- Account email and display name, invitations, and the account view.
- The two clocks of database and application are one clock; cookie roles are the four known roles.
- The forbidden-key regular expressions: the key test is an arbitrary predicate, and all results hold for every such predicate.
- `__proto__` keys, array holes, and the log record's projection and sinks around redaction.
- Strings are sequences of code points, except under the offline hash, which reads UTF-16 code units; toLowerCase is modelled on A to Z.
- JSON.parse is an arbitrary function whose objects have distinct keys.
- URLs, system prompt, headers and timers of the network adapter: an HTTP attempt is an arbitrary outcome, and environment ceilings arrive as parsed numbers.
- The project table is constant during a run of provider calls.
- A failing migration script leaves no effect of its own; the order of the readiness report's versions ahead of the build is not modelled.
- The review command's note and tenant checks: its target, version and validation checks and its appended decision are modelled.
- Row ids and timestamps of the execution ledger.
- The GEO repository's Maps are sequences in insertion order, which is the same for ids that are never reused; ids are random UUIDs, so every run uses fresh ones.
- Recording industry profiles, keyword maps and gate outcomes: the calls that name one are given it as a value, a gate as one that passed. The code does not compare a keyword map's, a profile's, a family member's or a gate's tenant or draft with the record that names it, and no result here says it does. `evaluateQualityGate` and the two other evaluators are single-branch checks.
- The agency progress counts, the audit listing, the tenancy repository's list, invitation and audit methods.
- React pages, label maps, CSRF and origin checks, DTO mappers, and read-back repositories that only copy rows.
