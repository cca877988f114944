# Model of the agent platform's decision and protocol core

This project models six components of the platform and proves what they keep.

- **Policy engine** (`Policy`, `Constraints`, `Cel`, `Evaluation`, `EvaluationProperties`,
  `PolicyMeaning`, `Decisions`). An autonomy baseline, bundle defaults and prioritised rules are folded
  into one restrictive decision, with an early exit on deny, a compile cache and a
  write-once record per request. The loop is proved to refine a fold without the exit
  and an order-free reference.
- **Bring-your-own-key credentials** (`Byok`). Creation and rotation as atomic steps of
  any number of attempts over a metadata row and a compare-and-set secret store, with
  crashes, dropped calls and lost replies between any two steps.
- **Model gateway** (`Routing`, `Gateway`). Binding validation, plan resolution, the
  route chain, and execution over it for arbitrary provider adapters.
- **Tenant membership** (`Membership`). Reads, decisions and versioned commits as
  separate steps that refine a serial execution.
- **Event consumption** (`Consumer`). An at-least-once consumer with an idempotent
  projection.
- **Smaller algorithms** (`Pagination`, `Capabilities`, `Backoff`), and `Ordering`, the
  byte order and sorting they share.

Each protocol has a state machine: a `Label` names one atomic step, `Step` is total, and
`Exec` runs a sequence of labels, so a statement about every `run` covers every
interleaving. Services whose methods change state are classes. Their methods are given
the actions of others and the faults they meet as parameters and are proved against the
specification functions.

The Go maps, rows and queues that the services change through their ports are taken as
abstract state with these contracts: a versioned write succeeds exactly when the current
version is the expected one; a tenant commit compares and advances its version in one
transaction; an event is entered in the inbox in the transaction that applies it; one
decision is stored per tenant and request identifier.

## Where the code does something its readers may not expect

- A stream that falls back and then ends cleanly is journalled and returned as
  interrupted, because the earlier route's error is kept
  (`Gateway.CleanFallbackIsReportedFailed`).
- Disjoint allow-lists merge to the empty list, which the next merge reads as
  "unrestricted" (`Constraints.DisjointListsForget`).
- Action patterns are trimmed when validated but not when matched
  (`Policy.MatchesAsValidated`).
- A colon in a policy or rule identifier makes compile-cache keys collide
  (`Cel.ColonCollides`). Stored rules are identified by UUIDs, so this input reaches the
  evaluator only through its own interface.
- A binding that names one offering in two spellings, as primary and as fallback, is
  accepted and routed to twice, because validation compares texts and the columns hold
  UUIDs (`Routing.TwoSpellingsRouteTwice`; exactly when: `Routing.ChainDistinctExactly`).
- Two attempts of one creation can share a vault version, and the one that is refused
  queues for destruction what the other puts in use (`Byok.SharedVersionIsDoomed`;
  exactly when: `Byok.InUseIsKeptExactly`).
- The replay of a succeeded rotation cannot be reached: the retry presents the old
  connection version and is refused first (`Byok.RotationNeverReplays`).
- A vault version whose attempt was lost shuts out every other credential until one with
  its fingerprint is retried (`Byok.AbandonedVersionBlocksOthers`).
- The catalog worker's delay turns negative at 34 attempts (`Backoff.FirstOverflow`) and
  is zero from 55 on (`Backoff.NoDelayFrom55`).

## Model

| member | source | states |
|---|---|---|
| `EvaluationProperties.EarlyExitRefinesFullFold` | services/policy-approval/internal/engine/evaluator.go:37-139 | With no failing condition, the decision made with the deny early exit has the effect, reason and identifiers of a full fold over every contributor, equals it unless it denies, and carries constraints merged from a prefix of the contributors |
| `EvaluationProperties.DecisionFollowsLeader` | services/policy-approval/internal/engine/evaluator.go:200-243 | The decision is that of the earliest contributor of greatest severity among baseline, defaults and matching rules, or deny when nothing contributes |
| `EvaluationProperties.EffectIsStrictest` | services/policy-approval/internal/engine/evaluator.go:37-139 | Order-free reference: under any sorted arrangement of the rules, the effect has the greatest severity among what the baseline and the bundles, read as sets, have to say |
| `PolicyMeaning.EffectByFields` | services/policy-approval/internal/engine/evaluator.go:37-139 | The effect is the strictest that anybody says, spelled out by autonomy, bundle defaults and the effects of rules that are enabled, fit the input and whose condition holds; an unknown name wins only if no known effect is said, and silence denies |
| `PolicyMeaning.AllowedOnlyIfSaid` | services/policy-approval/internal/engine/evaluator.go:142-191 | A subject that is no agent, or a policy-bounded one, gets no effect but deny that no bundle's default or applicable rule says |
| `PolicyMeaning.SilenceIsDenied` | services/policy-approval/internal/engine/evaluator.go:126-138 | If nobody says anything the decision is deny with no limits and no names, with one reason for no bundles and another for no match |
| `PolicyMeaning.BaselineByFields` | services/policy-approval/internal/engine/evaluator.go:142-198 | What an agent's autonomy says by itself, with its reason and review flag, and that nobody else has a voice of their own |
| `PolicyMeaning.AppliesIffMatched` | services/policy-approval/internal/engine/matcher.go:53-86 | A rule is taken in exactly if it is enabled, one of its patterns fits the action, its types, risks and cost admit the input, and its condition holds |
| `PolicyMeaning.BaselineWins` | services/policy-approval/internal/engine/evaluator.go:200-224 | Where an agent's own autonomy says the winning effect, its reason is given and no bundle is named |
| `PolicyMeaning.BundleWins` | services/policy-approval/internal/engine/evaluator.go:44-123 | Otherwise the first bundle that says the winning effect is named, by its default if that says it and else by its first applicable rule that does, with that rule's reason |
| `PolicyMeaning.RulesComeByPriority` | services/policy-approval/internal/engine/evaluator.go:58-76 | Rules come by ascending priority, and by identifier where priorities are equal |
| `PolicyMeaning.ReviewByFields` | services/policy-approval/internal/engine/constraints.go:10-40 | A decision that does not deny requires review exactly if the autonomy or an applicable rule does |
| `PolicyMeaning.CapsByFields` | services/policy-approval/internal/engine/constraints.go:42-56 | Its caps are the least among those of the applicable rules, and absent if none has one |
| `PolicyMeaning.ListsByFields` | services/policy-approval/internal/engine/constraints.go:58-79 | Its allow-lists permit exactly what every applicable rule permits, as soon as they all permit something |
| `PolicyMeaning.DenyEndsEvaluation` | services/policy-approval/internal/engine/evaluator.go:118-122 | Once an applicable rule leaves the decision at deny, later rules and bundles change nothing, not even by failing |
| `PolicyMeaning.FailureIsReported` | services/policy-approval/internal/engine/evaluator.go:84-103 | A failing condition is the answer if nothing before it ended evaluation |
| `PolicyMeaning.ErrorIsARules` | services/policy-approval/internal/engine/evaluator.go:84-103 | An error is the compile or run failure of an enabled rule's own condition |
| `Ordering.BeforeIsFirstDifference` | services/policy-approval/internal/engine/evaluator.go:58-76 | Strings compare at their first difference, and a proper prefix comes first |
| `EvaluationProperties.PermutedBundlesSameEffect` | services/policy-approval/internal/engine/evaluator.go:44-123 | Bundles in another order decide with the same severity, and with the same effect when it is a known one |
| `EvaluationProperties.PermutedRulesSameDecision` | services/policy-approval/internal/engine/evaluator.go:58-76 | With distinct (priority, identifier) pairs, permuting the rules inside bundles leaves the whole decision unchanged |
| `EvaluationProperties.FailureNeverPermits` | services/policy-approval/internal/engine/evaluator.go:78-123 | If an applicable condition fails, the outcome is an error or a deny |
| `EvaluationProperties.GuardrailHolds` | services/policy-approval/internal/engine/evaluator.go:142-198 | No bundle loosens an agent's autonomy: unknown autonomy is denied, observe-only agents get read actions only, suggesting or approval-bound agents never act without approval and review |
| `EvaluationProperties.WalkFoldsPrefix` | services/policy-approval/internal/engine/evaluator.go:44-123 | The looping walk equals folding a prefix of the contributors, a proper prefix only when that already denies |
| `EvaluationProperties.DenySticks` | services/policy-approval/internal/engine/evaluator.go:200-224 | Once the fold denies, later contributors change its constraints only |
| `EvaluationProperties.FoldMergesConstraints` | services/policy-approval/internal/engine/evaluator.go:200-224 | The folded constraints are the merge of all contributors' constraints, from first to last |
| `Evaluation.PolicyEvaluator.EvaluateBundle` | services/policy-approval/internal/engine/evaluator.go:44-123 | The in-place loop over one bundle takes its default first, then its rules by priority and identifier, and yields what the walk over its candidates yields |
| `Evaluation.PolicyEvaluator.EvaluateCondition` | services/policy-approval/internal/engine/evaluator.go:85-102 | Asking under the printed cache key gives the condition's own outcome |
| `Evaluation.PolicyEvaluator.Evaluate` | services/policy-approval/internal/engine/evaluator.go:37-139 | The method decides what the specification decides for some sorted arrangement of every bundle's rules, cache or no cache |
| `Constraints.Intersection` | services/policy-approval/internal/engine/constraints.go:58-79 | The loop returns the increasing list of the shared elements; an empty side returns the other one as given |
| `Constraints.MergeAllByField` | services/policy-approval/internal/engine/constraints.go:10-40 | Merging contributors acts on each field alone, and review is required exactly if some contributor requires it |
| `Constraints.LowerAllIsMinimum` | services/policy-approval/internal/engine/constraints.go:42-56 | A merged cap is the minimum of the caps present and absent only if none is |
| `Constraints.IntersectAllMeaning` | services/policy-approval/internal/engine/constraints.go:58-79 | If some value is permitted by every list, the folded list permits exactly what all lists permit, is increasing when two or more restrict, and is unrestricted only if none restricts |
| `Constraints.IntersectAllExact` | services/policy-approval/internal/engine/constraints.go:58-79 | The folded list permits exactly what all contributors permit if and only if some value is permitted by all of them |
| `Constraints.DisjointListsForget` | services/policy-approval/internal/engine/constraints.go:58-79 | Two disjoint lists followed by a third: the third is let through as if nothing had restricted it |
| `Constraints.MergeAllPermutes` | services/policy-approval/internal/engine/constraints.go:10-40 | Merging contributors that agree on some domain and some resource does not depend on their order |
| `Constraints.MergeAllRegroups` | services/policy-approval/internal/engine/constraints.go:10-40 | Nor on how they are grouped into partial merges |
| `Policy.TrimmedMatches` | services/policy-approval/internal/engine/matcher.go:12-50 | For a validated, trimmed pattern, matching equals a recursive glob matcher |
| `Policy.MatchesAsValidated` | services/policy-approval/internal/engine/matcher.go:12-50 | A validated pattern matches as its trimmed form reads, for every action, if and only if it carries no outer white space |
| `Policy.TrimSpaceStrips` | services/policy-approval/internal/engine/matcher.go:12-38 | Trimming takes all white space off both ends and nothing else |
| `Policy.ValidPatternByText` | services/policy-approval/internal/engine/matcher.go:12-38 | A pattern is valid exactly if its trimmed text has 1 to 256 characters and a star only as the last one |
| `Policy.RuleMatchesPrefilter` | services/policy-approval/internal/engine/matcher.go:53-86 | The loop with its flag decides: some pattern matches, and type, risk and cost are within the rule |
| `Cel.KeyDeterminesCondition` | services/policy-approval/internal/engine/evaluator.go:86-92 | Equal printed keys mean equal policy, version, rule and condition when identifiers hold no colon |
| `Cel.ColonCollides` | services/policy-approval/internal/engine/evaluator.go:86-92 | A rule identifier with a colon shares its key with another rule that has another condition |
| `Cel.Evaluator.Evaluate` | services/policy-approval/internal/engine/cel.go:74-120 | The cached call returns what compiling and running the condition returns, and replaces no entry |
| `Cel.InterleavedCallsAreDirect` | services/policy-approval/internal/engine/cel.go:74-120 | In every interleaving of load, compile and store steps each returned call gives its own condition's outcome, and no entry is replaced |
| `Cel.CacheInvisibleExactly` | services/policy-approval/internal/engine/cel.go:74-120 | Over all compilers and histories the cache is invisible if and only if no two sources asked about print one key for two conditions |
| `Cel.WellNamedAreSeparate` | services/policy-approval/internal/engine/evaluator.go:86-92 | Colon-free identifiers meet that condition |
| `Decisions.DecisionsAreWriteOnce` | services/policy-approval/internal/application/evaluation.go:71-175 | Along any run a recorded decision is never replaced, and every success returns the recorded decision made for an equal input hash |
| `Decisions.SuccessesAgree` | services/policy-approval/internal/application/evaluation.go:71-93 | Two successes for one request identifier return the same decision and had the same input hash |
| `Decisions.LaterLookupsAreSettled` | services/policy-approval/internal/application/evaluation.go:71-93 | Once decided, any later lookup in any later state returns the decision for an equal hash, a mismatch error for another, and records nothing |
| `Decisions.RecordedIsJudged` | services/policy-approval/internal/application/evaluation.go:96-175 | Every decision recorded along a run was judged in it: its verdict is the one evaluation gave for the input of a request with its key, and its hash is that input's |
| `Decisions.InquiryAlone` | services/policy-approval/internal/application/evaluation.go:36-176 | What an inquiry that runs alone answers and records in every case: replay, mismatch, evaluation error, or the new decision |
| `Decisions.DecisionService.Evaluate` | services/policy-approval/internal/application/evaluation.go:36-176 | The whole answer and the new store: replay, mismatch, evaluation error, already recorded by a racing call, or the new decision recorded once |
| `Byok.ReachableStatesAreSafe` | services/model-access/internal/application/byok.go:155-246 | In every interleaving of creates and rotations with crashes, lost replies and retries: the provider is sent exactly the vault's bytes, every version activated or completed has the fingerprint passed with it and was accepted, so has the version in use, at most one version is unrecorded, no attempt writes twice |
| `Byok.StepKeepsInv` | services/model-access/internal/application/byok.go:426-497 | Each atomic step of any attempt keeps the invariant, extends the vault only, and never lowers the recorded version |
| `Byok.RunKeepsInv` | services/model-access/internal/application/byok.go:46-305 | So does every run from any state that meets it |
| `Byok.RetryReusesExactlyItsOwn` | services/model-access/internal/application/byok.go:434-496 | With one unrecorded version, the retry's write steps reuse it exactly if it carries the retry's fingerprint, otherwise conflict; neither writes |
| `Byok.CleanWriteStoresNext` | services/model-access/internal/application/byok.go:426-450 | With nothing unrecorded, the same steps store the credential as the next version |
| `Byok.StaleSnapshotNeverWrites` | services/model-access/internal/application/byok.go:434-496 | From a snapshot the vault has passed, an attempt writes nothing in any continuation |
| `Byok.SerialRunIsUninterrupted` | services/model-access/internal/application/byok.go:581-814 | An attempt whose steps run with nobody in between leaves the stores and gives the answer of the serial function, whichever way it ends |
| `Byok.CreationSucceedsExactly` | services/model-access/internal/application/byok.go:46-305 | A creation run from its start, alone and against an accepting provider, succeeds if and only if it replays an active one with its fingerprint, or the connection is not in use, the row is absent or its own and pending, and the vault holds nothing unrecorded or its own version; then that version is active |
| `Byok.RotationSucceedsExactly` | services/model-access/internal/application/byok.go:581-814 | A rotation run from its start succeeds if and only if the connection left its initial status and is at the expected version, its operation is new or its own and unsettled, and the vault holds nothing unrecorded or its own version; then that version is active |
| `Byok.CreationRuns` | services/model-access/internal/application/byok.go:155-305 | The exact stores and answer of a creation that reaches the provider, for each verdict |
| `Byok.CreationAnsweredAtOnce` | services/model-access/internal/application/byok.go:128-153 | A creation whose row settles the matter touches nothing: conflict, replay or rejection by fingerprint and state |
| `Byok.RotationRuns` | services/model-access/internal/application/byok.go:671-814 | The exact stores and answer of a rotation that reaches the provider, for each verdict |
| `Byok.RotationAnsweredAtOnce` | services/model-access/internal/adapters/postgres/byok.go:953-1178 | A rotation that may not run touches nothing and says why |
| `Byok.RotationBlocked` | services/model-access/internal/application/byok.go:434-496 | Another credential's unrecorded version stops a rotation after its operation was entered |
| `Byok.RecordByFields` | services/model-access/internal/adapters/postgres/byok.go:297-370 | What recording a stored version writes, column by column |
| `Byok.AcceptanceByFields` | services/model-access/internal/adapters/postgres/byok.go:1256-1517 | What an accepting provider makes the closing transaction write and answer |
| `Byok.RefusalByFields` | services/model-access/internal/adapters/postgres/byok.go:730-877 | What a refusing or unreachable provider makes it write and answer |
| `Byok.SoloRetrySucceedsExactly` | services/model-access/internal/application/byok.go:581-814 | A retry that runs alone against an accepting provider ends with its credential in use if and only if nothing is unrecorded or the unrecorded version is its own |
| `Byok.AbandonedVersionBlocksOthers` | services/model-access/internal/application/byok.go:426-497 | While nobody retries with the fingerprint of an abandoned version, no attempt writes or promotes anything |
| `Byok.InUseIsKeptExactly` | services/model-access/internal/adapters/postgres/byok.go:1380-1395 | Along a run the version in use is never queued for destruction if and only if no closing transaction promotes a queued version or refuses a rotation to the version in use |
| `Byok.SettleKeepsInUseExactly` | services/model-access/internal/adapters/postgres/byok.go:821-851 | The same for one closing transaction, as a condition it could check |
| `Byok.DoomedActiveIsShared` | services/model-access/internal/adapters/postgres/byok.go:1521-1607 | In every reachable state an active version that is queued for destruction was settled by two different attempts |
| `Byok.SharedVersionIsDoomed` | services/model-access/internal/adapters/postgres/byok.go:730-877 | A run of two attempts of one creation after which the version in use is queued for destruction |
| `Byok.MachineRunsAreTame` | services/model-access/internal/application/byok.go:426-497 | Whatever runs of other attempts come between the steps of a service method, they are interference of the kind its contract allows |
| `Byok.StoreConflictNeverSurfaces` | services/model-access/internal/application/byok.go:466-476 | The error for a version that did not advance is never returned |
| `Byok.RotationNeverReplays` | services/model-access/internal/adapters/postgres/byok.go:1060-1178 | A succeeded rotation is never replayed: its retry is told of a version conflict, because completion moved the connection version |
| `Byok.RejectedRotationStaysRejected` | services/model-access/internal/adapters/postgres/byok.go:1521-1607 | Rejecting a rotation leaves the credential in use alone, and its retry is rejected again |
| `Byok.SettledCreationAnswersRetries` | services/model-access/internal/adapters/postgres/byok.go:75-232 | A settled creation answers retries at once: replayed if active, rejected if refused, a conflict for another credential |
| `Byok.ByokService.CallWriteCas` | services/model-access/internal/adapters/secrets/vault.go:384-470 | Writes exactly when the current version is the expected one, with dropped calls and lost replies told apart |
| `Byok.ByokService.Recognise` | services/model-access/internal/application/byok.go:455-496 | After a failed compare-and-set, accepts the current version exactly if it holds the expected fingerprint |
| `Byok.ByokService.WriteCredentialRecoverably` | services/model-access/internal/application/byok.go:426-497 | Under any tame interference and any faults a returned version is newer than the snapshot and holds the fingerprint; alone and without faults it is the specified write |
| `Byok.ByokService.RecordAndVerify` | services/model-access/internal/application/byok.go:688-814 | Records, reads back, verifies and settles; what is promoted is what was read back and accepted; alone it is exactly the two closing transactions |
| `Byok.ByokService.WriteAndVerify` | services/model-access/internal/application/byok.go:660-814 | The part from the snapshot on: success means this credential's version is the active one |
| `Byok.ByokService.ApplyCredential` | services/model-access/internal/application/byok.go:46-305 | The whole create or rotate, for any interference and faults: nothing is promoted without acceptance, success means in use or an earlier success replayed, and alone it answers as the serial function |
| `Byok.ByokService.CallPrepare` | services/model-access/internal/adapters/postgres/byok.go:953-1178 | The snapshot it hands out is the recorded version, and a replay is a credential already active |
| `Byok.ByokService.CallRecord` | services/model-access/internal/adapters/postgres/byok.go:297-370 | Recording raises the latest version to at least this one and leaves the vault alone |
| `Byok.ByokService.CallSettle` | services/model-access/internal/adapters/postgres/byok.go:524-877 | Settles by verdict; success makes this version the active one |
| `Membership.InterleavingIsSerial` | services/tenant/internal/application/service.go:711-982 | Whatever the interleaving of reads, decisions and commits, the tenant is what its committed requests executed one after another would have made of it |
| `Membership.CommitIsSerial` | services/tenant/internal/ports/repository.go:78-108 | A successful commit is the whole request, authority and role decision included, executed on the tenant it commits to |
| `Membership.RecheckIsRedundant` | services/tenant/internal/adapters/postgres/membership.go:278-408 | The adapter's second authority check never refuses a write whose tenant version matches |
| `Membership.RunIsSafe` | services/tenant/internal/application/service.go:711-982 | Over every interleaved run a tenant keeps an owner, its events are only extended and carry consecutive versions, and the owners change only if an owner commits something |
| `Membership.ReachableTenantIsSafe` | services/tenant/internal/application/service.go:138-290 | From creation on, event k carries version k and there is always an owner |
| `Membership.ProvisioningIsFirstVersion` | services/tenant/internal/application/onboarding.go:110-196 | In every reachable state a provisioning tenant is at version 1 and unchanged since creation, so the event that ends onboarding is version 2 |
| `Membership.NonOwnerKeepsOwners` | services/tenant/internal/domain/policy.go:42-59 | A request of anyone but an owner leaves the set of owners as it was |
| `Membership.EveryCommitIsAuthorised` | services/tenant/internal/application/service.go:711-982 | Over every interleaved run, each committed action succeeds on the tenant it commits to, each committed request is made by an owner or admin of that tenant, and each commit of anyone but an owner keeps the set of owners |
| `Membership.LowRolesCommitNothing` | services/tenant/internal/domain/policy.go:42-59 | Only an owner or an admin makes a request that commits; the previous row carries this over runs |
| `Membership.PortKeepsAnOwner` | services/tenant/internal/adapters/postgres/membership.go:461-749 | No commit demotes or removes the last owner |
| `Membership.SnapshotStillExact` | services/tenant/internal/ports/repository.go:78-108 | While the tenant version has not moved, nothing about the tenant has |
| `Membership.ArchivedIsFinal` | services/tenant/internal/application/service.go:497-561 | No action changes an archived tenant |
| `Membership.AddMemberByFields` | services/tenant/internal/application/service.go:711-802 | Who may add whom to what tenant, each refusal in its order, and the tenant afterwards field by field |
| `Membership.UpdateMemberRoleByFields` | services/tenant/internal/application/service.go:805-897 | The same for changing a role: only owners touch or make owners, one owner stays, and the membership's version goes up |
| `Membership.RemoveMemberByFields` | services/tenant/internal/application/service.go:900-982 | The same for removal: the member is gone and nobody else is touched |
| `Membership.UpdateTenantByFields` | services/tenant/internal/application/service.go:396-494 | The same for settings |
| `Membership.ArchiveTenantByFields` | services/tenant/internal/application/service.go:497-561 | The same for archiving, by owners and in any status |
| `Membership.OnboardingByFields` | services/tenant/internal/application/onboarding.go:110-196 | Onboarding ends once, from provisioning, as active or failed, with its event |
| `Membership.SessionAloneIsSerial` | services/tenant/internal/application/service.go:711-982 | A session whose three steps run alone leaves the serial tenant and answer |
| `Membership.MovedTenantConflicts` | services/tenant/internal/ports/repository.go:78-108 | A request whose tenant moved on after its first read commits nothing, and is told of a conflict where it would have committed |
| `Membership.QuietAnswerIsSerial` | services/tenant/internal/application/service.go:711-982 | With no interference the stepwise answer is the serial one, error for error |
| `Membership.TenantService.AddMember` | services/tenant/internal/application/service.go:711-802 | With any actions of others in between: the exact answer; success is the request executed serially on what they left, an error leaves that untouched |
| `Membership.TenantService.UpdateMemberRole` | services/tenant/internal/application/service.go:805-897 | The same with two points of interference, before and after the target is read |
| `Membership.TenantService.RemoveMember` | services/tenant/internal/application/service.go:900-982 | The same for removal |
| `Membership.TenantService.UpdateTenant` | services/tenant/internal/application/service.go:396-494 | The same for settings |
| `Membership.TenantService.ArchiveTenant` | services/tenant/internal/application/service.go:497-561 | The same for archiving, which also succeeds without a commit on an archived tenant |
| `Routing.ValidateBinding` | services/model-access/internal/application/bindings.go:94-232 | Accepts exactly the valid bindings: well-formed and usable offerings, at most five fallbacks, no spelling twice, a policy that fits the fallbacks, a positive cost limit; the error is an offering's own or an invalid argument |
| `Routing.ValidBindingByFields` | services/model-access/internal/application/bindings.go:94-232 | Validity by the binding's own fields and what the tables hold of its offerings, with five as the limit |
| `Routing.ProblemByFields` | services/model-access/internal/application/bindings.go:140-190 | An offering is refused as unknown, unavailable or closed to agents by what the tables hold of it |
| `Routing.FirstProblem` | services/model-access/internal/application/bindings.go:140-232 | The loop over offerings reports a problem exactly if one of them has one |
| `Routing.Repeats` | services/model-access/internal/application/bindings.go:195-228 | The loop over the seen-set finds a repetition exactly if the combined list has one |
| `Routing.SetBinding` | services/model-access/internal/application/bindings.go:81-298 | Setting a binding succeeds exactly if it is valid and storing it succeeds, and stores the identifiers by value |
| `Routing.StoredValues` | services/model-access/internal/adapters/postgres/bindings.go:383-486 | A valid binding is stored as the values of its offerings in order; it is refused exactly for an empty fast identifier or for two fallbacks of one value |
| `Routing.ChainDistinctExactly` | services/model-access/internal/application/bindings.go:195-228 | For a binding that was set, no chain holds an offering twice, whatever resolves and whichever alias is asked for, if and only if no two of its identifiers are spellings of one value |
| `Routing.TwoSpellingsRouteTwice` | services/model-access/internal/application/bindings.go:195-228 | One identifier in lower and upper case as primary and fallback is accepted, stored and routed to twice |
| `Routing.PlanOfStoredBinding` | services/model-access/internal/adapters/postgres/gateway.go:16-149 | A resolved plan has the stored primary, the fast route if that resolves, and the resolvable fallbacks in order |
| `Routing.OnlyOrderedFallsBack` | services/model-access/internal/adapters/postgres/gateway.go:82-130 | Only a binding with the ordered policy resolves its fallbacks |
| `Routing.FetchedWithin` | services/model-access/internal/adapters/postgres/gateway.go:16-149 | The fetched routes are a subsequence of the stored identifiers, exactly the resolvable ones, and repeat none that is not repeated there |
| `Routing.ChainOfValidBinding` | services/model-gateway/internal/application/service.go:352-374 | The chain of a binding that was set holds exactly its resolvable offerings, permutes primary, fast and fallbacks, keeps the fallbacks in order as its suffix, has fast first exactly when asked for and present, has at most seven routes, and none twice if the identifiers are spelled apart |
| `Gateway.GatewayService.StreamRoutes` | services/model-gateway/internal/application/service.go:244-298 | The route loop selects the first route that answers; its chunks alone are forwarded, adapters are called for the reachable routes up to it and never after |
| `Gateway.GatewayService.ExecuteStream` | services/model-gateway/internal/application/service.go:185-350 | For arbitrary adapters: refusal before admission touches nothing, an admitted call completes the journal exactly once with the selected route, its index as retry count, and a usage event exactly if a route was selected |
| `Gateway.GatewayService.CompleteRoutes` | services/model-gateway/internal/application/service.go:102-160 | The first completed call wins; adapters are called up to it and never after |
| `Gateway.GatewayService.Execute` | services/model-gateway/internal/application/service.go:64-182 | The same accounting for the call that does not stream |
| `Gateway.GatewayService.CompleteStream` | services/model-gateway/internal/application/service.go:300-349 | Completes the journal once with the selected route and a usage event, and returns the error that agrees with it |
| `Gateway.GatewayService.CallStream` | services/model-gateway/internal/application/service.go:244-298 | However often the adapter calls back, the chunks are forwarded in order and the captured flags say whether one arrived and whether one was refused |
| `Gateway.StreamOutcomeByFields` | services/model-gateway/internal/application/service.go:307-349 | What is journalled and returned for the selected route: its own route, usage and position, and a status decided by a refused chunk first and a failure second |
| `Gateway.SelectionByFields` | services/model-gateway/internal/application/service.go:244-298 | The selected route is the first with a key, an adapter and a chunk or a clean end |
| `Gateway.RouteByFields` | services/model-gateway/internal/application/service.go:244-298 | When a route can be called, answers or completes, and the error it fails with |
| `Gateway.StreamSucceedsExactly` | services/model-gateway/internal/application/service.go:307-349 | A stream counts as a success if and only if route 0 was selected, ended cleanly and every chunk was taken |
| `Gateway.CleanFallbackIsReportedFailed` | services/model-gateway/internal/application/service.go:307-349 | A fallback stream delivered whole and ended cleanly that is nevertheless reported as interrupted |
| `Gateway.ReturnAgreesWithRecord` | services/model-gateway/internal/application/service.go:307-349 | The returned error and the journalled status always agree |
| `Gateway.ValidBindingTriesEachOnce` | services/model-gateway/internal/application/service.go:244-298 | A request routed by a binding that was set makes at most seven calls, and none to one offering twice if the identifiers are spelled apart |
| `Gateway.TriesEachOnceExactly` | services/model-gateway/internal/application/service.go:244-298 | Over all plans, aliases, adapters and depths of the loop, no offering is called twice if and only if the identifiers are spelled apart |
| `Consumer.AppliedExactlyOnce` | platform/go/events/kafka/consumer.go:130-216 | Across crashes, restarts, redelivery and failing commits: handled records are a prefix of each partition, at most one past the committed ones and none undecodable; those of unknown type are passed over, each other event in them is applied exactly once, in partition order, and the state is what applying them gives |
| `Consumer.NextRecordIsTakenExactly` | platform/go/events/kafka/consumer.go:138-215 | A consumer that starts anew moves past the next record of a partition if and only if it is of unknown type, repeats a consumed event with an equal hash, or carries a new one that applies; the projection is then as that record leaves it, and otherwise nothing moves |
| `Consumer.RedeliveryAdvances` | services/projection/internal/application/service.go:73-99 | After a crash with a record handled but uncommitted, the next consumer commits it and leaves the projection as it was |
| `Consumer.HandlesExactly` | services/projection/internal/adapters/postgres/repository.go:176-215 | Handling succeeds exactly on those records, and says what it changes |
| `Consumer.FetchTakesAll` | platform/go/events/kafka/consumer.go:138-168 | A poll returns a record for every partition named, as long as there are enough |
| `Consumer.OnePartitionAppliesPrefix` | services/projection/internal/application/service.go:73-99 | With one partition the applied records are the first occurrences of the events in the handled prefix of the log |
| `Consumer.StepKeepsInv` | platform/go/events/kafka/consumer.go:138-215 | Every step of producer, consumer, broker and crash keeps offsets and projection in line |
| `Consumer.RunKeepsInv` | platform/go/events/kafka/consumer.go:130-216 | So does every run |
| `Consumer.HandleKeepsLedger` | services/projection/internal/adapters/postgres/repository.go:97-259 | Handling a record, new or redelivered, keeps state, inbox and log in agreement |
| `Consumer.IgnoredKeepsLedger` | services/projection/internal/adapters/projection/worker.go:110-114 | A record of unknown type is counted as handled and changes neither state nor inbox |
| `Consumer.ConsumerProcess.ProcessRecord` | platform/go/events/kafka/consumer.go:176-211 | Ends well exactly if the record goes through and its commit is not lost; the committed offset, the projection and the error follow |
| `Consumer.ConsumerProcess.ProcessBatch` | platform/go/events/kafka/consumer.go:170-213 | Works off the batch record by record and stops at the first failure |
| `Consumer.ConsumerProcess.Run` | platform/go/events/kafka/consumer.go:130-216 | Whatever the loop does is a run of the machine's steps with the given polls in turn; a clean stop leaves no record half processed |
| `Pagination.CrawlVisitsEveryRowOnce` | services/tenant/internal/application/service.go:332-393 | Following next tokens from the empty one ends and visits every row exactly once in order, in full pages but the last, which is empty exactly for an empty table (one extra row) or a multiple of the page size (full page) |
| `Pagination.PageFrom` | services/work-management/internal/application/task.go:257-301 | From the token after i rows a page holds exactly the next rows, and its token is the one after them or none |
| `Pagination.BadTokenIsRefused` | services/tenant/internal/application/pagination.go:21-37 | A page is refused exactly for a token that does not decode or decodes to no valid identifier |
| `Pagination.PageSizeByValue` | services/tenant/internal/application/pagination.go:40-49 | Page sizes are 50 for none, at most 100, and otherwise as asked |
| `Pagination.PastIsTheRest` | services/tenant/internal/application/service.go:345-385 | Past any cursor, a row of the table or not, come exactly the rows beyond it, in their order |
| `Pagination.TokenLeadsOn` | services/tenant/internal/application/pagination.go:11-37 | A token made from a row decodes to the cursor past which come exactly the rows after it |
| `Capabilities.NormalizeCapabilities` | services/organization-agent/internal/application/validation.go:75-108 | For any trimming, lower-casing and length: accepts exactly the lists within the limits and returns the increasing list of the trimmed, lower-cased members |
| `Capabilities.NormalFormIsCanonical` | services/organization-agent/internal/application/validation.go:75-108 | Accepted inputs with the same members, permuted or repeated, have one normal form |
| `Capabilities.NormalFormIsFixed` | services/organization-agent/internal/application/validation.go:75-108 | Normalising a normal form accepts it and returns it unchanged |
| `Capabilities.PlainTextSettles` | services/organization-agent/internal/application/validation.go:90-92 | Trimming and lower-casing one-byte text settles at once, as the previous row asks of a text library |
| `Backoff.DelayIsExactWhen` | services/model-access/internal/application/catalog_worker.go:92-95 | In 64-bit arithmetic the delay is the capped doubling if and only if there were at most 33 attempts, or at most 54 and the tabulated wrapped product reaches the maximum |
| `Backoff.ProductInTable` | services/model-access/internal/application/catalog_worker.go:92 | The wrapped products of 34 to 54 attempts are the tabulated ones |
| `Backoff.NoDelayFrom55` | services/model-access/internal/application/catalog_worker.go:92-95 | From 55 attempts on a failing job is released with no delay |
| `Backoff.DelayMonotone` | services/model-access/internal/application/catalog_worker.go:92-95 | Up to 33 attempts more attempts never wait less, and the delay stays within (0, maximum] |
| `Backoff.FirstOverflow` | services/model-access/internal/application/catalog_worker.go:92-95 | At 34 attempts the delay is negative, whatever the maximum |
| `Backoff.ReleasesAreTheFailed` | services/model-access/internal/application/catalog_worker.go:73-105 | The released jobs are exactly the failed ones, in order, each with the delay of its own attempts |
| `Backoff.CatalogWorker.ProcessBatch` | services/model-access/internal/application/catalog_worker.go:73-105 | Releases exactly the failed jobs of a batch, in order, each with that delay |

## Left out

- Evaluation.PolicyEvaluator.Evaluate: asks that policy and rule identifiers hold no colon, since the printed cache key separates conditions only then; `Cel.CacheInvisibleExactly` gives the exact condition.
- EvaluationProperties.EarlyExitRefinesFullFold: asks that no applicable condition fails; a failing condition is covered by `EvaluationProperties.FailureNeverPermits`.
- EvaluationProperties.PermutedBundlesSameEffect: two unknown effect names share severity 0, so for those only the severity is order-free.
- Byok.ByokService.ApplyCredential: what others do between its steps is any function that keeps the stores consistent and only lets them grow; the exact result is stated for the undisturbed call.
- Membership.TenantService.UpdateTenant: the settings fields are one string.
- Pagination.CrawlVisitsEveryRowOnce: assumes the table does not change during the crawl and that base64url text round trips (section 5 of RFC 4648).
- Pagination: pages are functions; reading rows and decorating the listed contexts is not modelled.
- Policy.MatchesAsValidated: strings are sequences of characters with ASCII white space; Unicode trimming and byte lengths are not modelled.
- Capabilities.NormalFormIsFixed: takes it that trimming and lower-casing an already canonical text returns it.
- Consumer.ConsumerProcess.Run: begins at the committed offsets, as a new process does; a second call on one client, which the services never make, is not modelled.
- Routing.SetBinding: the binding's version, idempotency record, revision and event are not modelled, and its offerings do not change between validation and storing.
- Integers are unbounded except in `Backoff`, so wrap-around of versions, costs and offsets is not modelled.
- CEL parsing, cost limits and semantics, HMAC and SHA-256 are deterministic parameters.
- Credential metadata creation, executing queued destructions, purging, connection archiving, verification audit rows, pending-version columns and their cleanup jobs.
- Field validation of requests, subject resolution, signing and expiry of decisions, and the outbox.
- Gateway timings, token breakdowns, caller claims and event marshalling; a usage event repeats the completed record.
- Consumer group rebalancing, tracing and watermarks.
- Tenant entitlements and timestamps; onboarding is one step that activates or fails the tenant.
- Agent hierarchy, task dependencies, provisioning workflow, status tables, transports, relays and the web application: they would add easy members or are I/O.
