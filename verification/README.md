# DistributedAI: a verified model of the workspace

DistributedAI is a multi-tenant workspace in which people and AI clients share reviewed memory, messages
and leased jobs under a hierarchy of scopes. This project models its data plane in Dafny and proves what
its protocols keep over whole runs. `dafny verify dfyconfig.toml` checks everything.

## How the model is built

* **The database** (`Tables`) is one value: a map for every table, keyed by the columns of its uniqueness
  constraint where it has one, otherwise by row identifier. `used` holds every identifier ever generated.
* **Every operation is specified as a function** from the database and its arguments to a new database or an
  error code (`ScopeOps`, `PeopleOps`, `MemoryOps`, `JobOps`, `SlotOps`, `Meter`), in the order in which the
  source makes its checks. A uniqueness violation that the source meets at flush is the error `Conflict`.
  `Workspace.Step` is one transaction of the service: it commits or leaves the state as it was.
* **The source's imperative form** is a class `Session` whose fields are the tables. The methods of
  `Sessions`, `BillingEngines`, `ScopeStore`, `PeopleStore`, `MemoryStore` and `JobStore` assign rows and run
  the loops of the source; each ends in exactly the state, or with exactly the error, that the specification
  gives. `Stores.Store.Dispatch` re-authenticates, performs, and rolls back. What an operation means for
  whoever calls next is stated about the specification: in `RoleEffects`, `MemoryEffects`, `JobEffects` and
  `DepartureProofs` for one operation and what follows it, in `RunProofs` and `CustodyProofs` for whole runs.
* **Exact conditions**: `AuthorityProofs` says who has which role and right in terms of grants, owners, flags and
  policies at ancestors. On that footing `ScopeLaws`, `MergeLaws`, `PeopleLaws`, `MemoryLaws`, `JobLaws`,
  `SubscriptionLaws` and `SupportLaws` say for every operation exactly when it succeeds and what it leaves behind,
  and `KeyUse` which key seals what. Bytes are those of UTF-8 and JSON (`Encodings`).
* **Invariants** are proved operation by operation and collected in `RunProofs.Sound`, which holds in every
  reachable state: the scope forest, placement of every row in its organisation, the version ledger, the
  shape of jobs, single ownership of personal scopes and of the jobs in them, and (with billing enabled) the
  balance of the storage counter.
* **Races** are modelled a second time, at the level of reads, locks, conditional updates, commits and aborts
  by any number of replicas (`ReviewRace`, `ClaimRace`).
* **Satellites**: subscription events (`Subscriptions`, `Convergence`), connection slots (`Slots`), the tenant
  keyring (`Keyring`), the offline migrator (`Migration`), the support queue (`Support`), the rate limiter
  (`RateLimit`), the payload scan (`PayloadScan`) and the dependency closure (`Closure`).

Functions taken as given: the text classifier `scan_text`, `json.dumps` of job results, key wrapping,
authenticated encryption as an inverse pair (in the sense of section 7 of NIST SP 800-38D), base64, and the
normalisation of package names. Times, random tokens, nonces, keys and new identifiers are arguments.
Digests are identified with what they digest, that is, SHA-256 is taken to be injective.

## Where the code decides

* The documentation of `_role_for` says that organisation administrators are admin everywhere in their
  organisation; the code answers for personal scopes first, and there only the owner has a role. The model
  follows the code.
* Ownership gives admin only on the owned scope itself. Only grants and the administrator flag are inherited.
* `_scope_chain` raises after 100 rounds, but an administrator's role check never walks; depth is therefore
  no invariant, and the statements say "exactly the ancestors, or raises".
* The explicit name check of a merge ignores the source's own name. The uniqueness constraint does not, and
  can still abort the merge.
* An event that arrives before its subscription is registered uses up its identifier
  (`Subscriptions.EarlyEventIsSpent`).
* Subscription events do not always converge. A foreign customer's newest event is an error that records
  nothing, an older one is only noted, but one at the time of the deciding event raises a flag if it comes later
  and none if it comes first. `Convergence.ConvergesExactly` gives the exact condition on a set of events, and
  `Convergence.StoredConvergesExactly` the one for the stored plan, which depends on the order more often.
* A job with five spent attempts and an expired lease stays claimed until it is cancelled. Claims are proved
  safe, not live.
* The rate limiter answers 429 before it evicts, so the size of its table is bounded only after an admitted
  request. Two windows can meet in one 60-second interval; the bound of twice the budget is missed by one at
  most (`RateLimit.BoundIsReached`).

## Model

| member | source | states |
|---|---|---|
| ScopeTree.ChainIsAncestors | distributedai/persistence/workspace.py:572-589 | In a forest the walk returns exactly the ancestors of a scope, itself included, and raises exactly when there are 100 of them |
| ScopeTree.Acyclic | distributedai/persistence/workspace.py:572-589 | In a forest no scope is its own proper ancestor |
| Sessions.FindScope | distributedai/persistence/workspace.py:562-570 | A scope is found exactly when it exists in the caller's organisation |
| Sessions.ScopeChain | distributedai/persistence/workspace.py:572-589 | The bounded loop over parents computes the specified chain, or raises after 100 rounds |
| Sessions.HighestGrant | distributedai/persistence/workspace.py:605-613 | The loop over the grants on the chain yields a role that one of them gives, and none gives a higher one |
| Sessions.RoleOn | distributedai/persistence/workspace.py:591-613 | The effective role: none across organisations, owner only on a personal scope, admin for administrators and owners, otherwise the highest grant on the chain |
| AuthorityProofs.RoleExactly | distributedai/persistence/workspace.py:591-613 | Who is neither administrator nor owner has on a scope that is not personal exactly the highest role of its grants at the ancestors, none without such a grant, and an error exactly when the walk does not end |
| AuthorityProofs.RequireExactly | distributedai/persistence/workspace.py:591-620 | The role check passes exactly for the owner, for administrators except on personal scopes, and for whoever has a grant of at least the minimum at some ancestor |
| Sessions.PermissionFlags | distributedai/persistence/workspace.py:829-836 | Both flags: an effective admin to whom no policy on the chain withholds the right |
| Sessions.Session.Rollback | distributedai/persistence/workspace.py:533-555 | Every table is as it was when the transaction began |
| ForestProofs.MoveTestExact | distributedai/persistence/workspace.py:926-931 | Hanging a scope below a parent keeps the forest if and only if the scope is not an ancestor of the parent, which is what the code tests |
| ForestProofs.MergeTestExact | distributedai/persistence/workspace.py:977-999 | Merging keeps the forest if and only if the source is not an ancestor of the target, which is what the code tests |
| ForestProofs.StepKeepsForest | distributedai/persistence/workspace.py:639-1007 | Every step of the service keeps the forest: parents exist in the same organisation, projects and personal scopes are leaves, personal and organisation scopes are roots, no cycles |
| RunProofs.HierarchyIsForest | distributedai/persistence/workspace.py:572-1007 | In every reachable state each scope is well placed, no scope is its own ancestor, and the walk returns exactly the ancestors or raises |
| PlacementProofs.PurgedPlaced | distributedai/persistence/workspace.py:959-967 | Filtering by organisation and scope removes every payload row of the scope, so no reference is left behind |
| PlacementProofs.DroppedPlaced | distributedai/persistence/workspace.py:941-944 | Removing a scope without payload removes everything that refers to it |
| PlacementProofs.RehomedPlaced | distributedai/persistence/workspace.py:1000-1003 | Updating by scope alone moves every payload row of the source into the target's organisation and leaves none |
| PlacementProofs.StepPlaced | distributedai/persistence/workspace.py:523-555 | Every step keeps every row in the organisation of its scope and every reference alive |
| DenialProofs.PermittedExactly | distributedai/persistence/workspace.py:829-836 | A right is permitted exactly to an effective admin with fewer than 100 ancestors above the scope, none of which denies it |
| AuthorityProofs.RightExactly | distributedai/persistence/workspace.py:829-836 | Export and deletion are permitted exactly to an effective admin for whom no policy at an ancestor sets the flag of that very right to false |
| DenialProofs.RetainedKeeps | distributedai/persistence/workspace.py:904-918 | Retaining restrictions loosens no policy anywhere |
| DenialProofs.RetainedDenies | distributedai/persistence/workspace.py:904-918 | Whatever the source's chain denies a principal, the destination denies it afterwards |
| DenialProofs.MoveDenies | distributedai/persistence/workspace.py:920-934 | After a move every scope still denies what it denied |
| ScopeLaws.MoveWithholds | distributedai/persistence/workspace.py:904-934 | After a move exactly the old denials are in force, and on the moved subtree also those of the new parent |
| DenialProofs.DropDenies | distributedai/persistence/workspace.py:941-944 | After the removal of a leaf every other scope still denies what it denied |
| DenialProofs.MergeDenies | distributedai/persistence/workspace.py:988-1003 | After a merge every scope, and the target in place of the source, still denies what it denied |
| MergeLaws.MergeWithholds | distributedai/persistence/workspace.py:904-1003 | After a merge exactly the old denials are in force, what was below the source also has the target's, and what is at or below the target also the source's |
| DenialProofs.StepKeepsDenials | distributedai/persistence/workspace.py:639-1007 | No step but a policy change loosens a denial on contents that stay |
| RunProofs.DenialsSurvive | distributedai/persistence/workspace.py:829-1007 | Over every run without a policy change, contents a principal may not export or delete stay out of its reach wherever creates, moves, merges, ownership changes and deletions leave them |
| MemoryLaws.DeniedNeverDeletes | distributedai/persistence/workspace.py:829-1023 | Whoever is denied deletion deletes no key, no scope and merges nothing away, after any run without a policy change, in the scope where the run took the contents |
| RunProofs.RunFollows | distributedai/persistence/workspace.py:1000-1003 | Over every run a surviving proposal, message or job is in the scope its contents were moved to, and a removed one never comes back |
| CustodyProofs.StepKey | distributedai/persistence/workspace.py:959-1023 | No step loses a version or a canonical memory but a committed deletion, none changes a version, and none but a review changes a canonical memory; a merge takes them along to the target |
| CustodyProofs.VersionsStay | distributedai/persistence/workspace.py:988-1023 | Over every run that does not delete its key, a version is unchanged, in the scope where the run took the contents of its scope |
| CustodyProofs.RecordsStay | distributedai/persistence/workspace.py:988-1023 | Over every run that does not delete its key, a canonical memory is in the scope where the run took it; without reviews with its value, with reviews never with a lower version |
| RunProofs.RowDenialsSurvive | distributedai/persistence/workspace.py:829-1007 | For each proposal, message and job: still denied in the scope it is in after the run |
| CustodyProofs.MemoryDenialsSurvive | distributedai/persistence/workspace.py:829-1062 | For each memory key: its canonical record and all its versions are where the run took them, and still denied there |
| RoleEffects.CreatedRoles | distributedai/persistence/workspace.py:639-659 | The creator is admin of its new scope, and nobody's role on an old scope changes |
| RoleEffects.CreatedInherits | distributedai/persistence/workspace.py:591-659 | Whoever neither created the new scope nor owns its parent has on it the role it has on the parent |
| RoleEffects.CreatedDenies | distributedai/persistence/workspace.py:639-836 | A new scope denies exactly what its parent denies, and no denial of another scope changes |
| ScopeLaws.CreatesExactly | distributedai/persistence/workspace.py:639-659 | A scope is created exactly by an admin of an organisation or department, as a department or project under a name no sibling has, and is what was asked for |
| ScopeStore.EnsurePersonal | distributedai/persistence/workspace.py:814-827 | The principal's personal scope is found, or created with its owner |
| RoleEffects.PolicyWithholds | distributedai/persistence/workspace.py:829-882 | A right that a policy withholds is denied to its principal on the scope and on everything below it |
| RoleEffects.PolicyElsewhere | distributedai/persistence/workspace.py:829-882 | A policy changes no denial of another principal or outside the subtree, and one that allows a right lifts only its own scope's denial, not an ancestor's or a descendant's |
| RoleEffects.OwnerPasses | distributedai/persistence/workspace.py:591-902 | Only an administrator passes ownership on, never of a personal scope: the new owner is admin, the old one keeps what its flag and its grants give, and every other role stays |
| ScopeStore.FoldStep | distributedai/persistence/workspace.py:908-918 | One iteration of the retaining loop, reading the row as it is now, folds that row into the destination, even when the destination is on the chain |
| ScopeStore.FoldedIsRetained | distributedai/persistence/workspace.py:904-918 | Once all rows were folded in, in whatever order, the policies are the destination's own narrowed by every policy on the chain |
| ScopeStore.RetainRestrictions | distributedai/persistence/workspace.py:904-918 | The loop in arbitrary order, with source and destination possibly equal and all-true rows skipped, computes the retained policies |
| ScopeStore.ScopeMove | distributedai/persistence/workspace.py:920-934 | A move ends as specified: roles on both scopes, kinds, cycle test, retained restrictions, new parent |
| ScopeLaws.MovesExactly | distributedai/persistence/workspace.py:920-934 | A move succeeds exactly for an admin of both ends, of a department or project to an organisation or department that is not below it, where no other child has its name, while both walks end |
| ScopeLaws.MoveAncestors | distributedai/persistence/workspace.py:926-932 | After a move the ancestors of the scope are itself and those of the new parent, and every scope outside the moved subtree keeps its own |
| ScopeLaws.MoveRoles | distributedai/persistence/workspace.py:591-934 | On a moved scope exactly its owner, the administrators and the holders of grants on it or at or above its new parent pass a role check; what only the old path carried is gone |
| ScopeLaws.MoveRolesElsewhere | distributedai/persistence/workspace.py:591-934 | Outside the moved subtree no role check changes |
| DepartureProofs.DeletionExact | distributedai/persistence/workspace.py:946-960 | A deletion succeeds exactly for an effective admin whom no ancestor denies it, with fewer than 100 ancestors, on a department or project without children, with its contents or when it has none |
| ScopeLaws.DeletesScopeExactly | distributedai/persistence/workspace.py:946-960 | The same in terms of rows: who has the right to delete, on a department or project that is nobody's parent |
| ScopeLaws.DeletionKeepsRows | distributedai/persistence/workspace.py:959-967 | A deletion leaves every proposal, message and job of every other scope |
| DepartureProofs.DeletedForEver | distributedai/persistence/workspace.py:941-971 | After a deletion nothing refers to the scope in any later state, and the memory of every other scope is untouched |
| ScopeStore.AdoptChildren | distributedai/persistence/workspace.py:998-999 | The loop hands every child of the source to the target, one after the other |
| ScopeStore.RecordsApart | distributedai/persistence/workspace.py:988-1001 | When no memory key is in both departments, moving the records lets no two meet under one key |
| ScopeStore.RehomeRows | distributedai/persistence/workspace.py:1000-1002 | The bulk updates move all six kinds of rows, and no uniqueness constraint fires on records and versions |
| ScopeStore.ScopeMerge | distributedai/persistence/workspace.py:973-1007 | A merge ends as specified, including the abort by the uniqueness constraint that the explicit name check misses |
| MergeLaws.MergesExactly | distributedai/persistence/workspace.py:973-1007 | A merge succeeds exactly for an administrator from whom no policy withholds deletion, between two departments, while the source is not above the target, both walks end, and no child name, memory key or idempotency key meets |
| MergeLaws.MergeKeepsMemory | distributedai/persistence/workspace.py:1000-1001 | Every canonical record and version is found under its new home with its value, and nothing else is there |
| MergeLaws.MergeAncestors | distributedai/persistence/workspace.py:998-999 | After a merge what was below the source is below the target, and every other scope keeps its ancestors |
| MergeLaws.MergeRoles | distributedai/persistence/workspace.py:591-1003 | After a merge grants on the source are gone and those at or above the target reach what was below the source |
| RoleEffects.NewPrincipalStarts | distributedai/persistence/workspace.py:686-698 | A new principal is an active member without the administrator flag, admin of a personal scope and without a role on any scope that existed, and nobody else's role changes |
| DepartureProofs.RevokedForEver | distributedai/persistence/workspace.py:700-722 | A revocation leaves an active administrator; in no later state does any operation of the revoked principal succeed, or any of its connections authenticate |
| PeopleLaws.RevokesPrincipalExactly | distributedai/persistence/workspace.py:700-722 | A principal is revoked exactly by an administrator while active, and an administrator only while another active one is there |
| RoleEffects.GrantGives | distributedai/persistence/workspace.py:725-752 | The grantee has at least the granted role on the scope and on everything below it, and no other role changes |
| RoleEffects.RevokeUndoesGrant | distributedai/persistence/workspace.py:725-812 | Revoking a new grant restores the database, except that the admin role of the only active administrator is not revoked |
| RoleEffects.RevokeTakes | distributedai/persistence/workspace.py:785-812 | A revocation raises nobody's role and changes none but the principal's own at or below the scope |
| PeopleLaws.GrantsExactly | distributedai/persistence/workspace.py:725-752 | A grant is given exactly by an admin of a scope that is not personal, to an active member, and is the only change |
| PeopleLaws.RevokesGrantExactly | distributedai/persistence/workspace.py:785-812 | A grant is taken back exactly by an admin of the scope, unless it is an admin grant of the only active administrator |
| RoleEffects.TenantStarts | distributedai/persistence/workspace.py:420-487 | The administrator of a new organisation is admin of its root and of a personal scope, nobody of another organisation has a role on the root, and no role elsewhere changes |
| MemoryEffects.ProposalAwaits | distributedai/persistence/workspace.py:1117-1138 | A proposal changes no canonical memory, version or other proposal; it is pending, and quarantined exactly if key, content and source are not clean in full |
| MemoryEffects.ProposeThenAccept | distributedai/persistence/workspace.py:1117-1249 | Accepting a fresh proposal: refused to its proposer outside personal scopes, refused when not clean, closed without effect when the expected version is not current, otherwise the canonical value one version on, unless the charge is refused |
| MemoryLaws.ProposesExactly | distributedai/persistence/workspace.py:1117-1138 | Exactly a writer of the scope proposes while the bytes fit; the row is what was given, quarantined exactly when key, content or source is not clean, and the UTF-8 bytes of content, source and the JSON findings are counted |
| MemoryStore.AcquireMutex | distributedai/persistence/workspace.py:1140-1160 | The lock row exists afterwards and nothing else changed |
| MemoryStore.TransitionProposal | distributedai/persistence/workspace.py:1162-1173 | The conditional update wins exactly when the proposal is pending, and changes only status and reviewer of that row |
| MemoryStore.Promote | distributedai/persistence/workspace.py:1219-1243 | The canonical row, new or in place, and the next version, both with the proposal's content |
| MemoryStore.MemoryReview | distributedai/persistence/workspace.py:1175-1249 | A review ends as specified: refusals in order, rejection, version conflict, or charged promotion |
| MemoryLaws.RejectsExactly | distributedai/persistence/workspace.py:1175-1206 | Exactly a reviewer of the scope, not the proposer outside personal scopes, rejects a pending proposal, and nothing but its mark changes |
| MemoryLaws.AcceptsExactly | distributedai/persistence/workspace.py:1175-1249 | Exactly those accept a clean proposal, when it is current only while its bytes fit; a stale one is marked a conflict, a current one becomes canonical value and next version with its own content, kind, source and author |
| MemoryStore.RemovedSome | distributedai/persistence/workspace.py:1016-1023 | Some row was removed exactly when the key existed in one of the three tables |
| MemoryStore.MemoryDelete | distributedai/persistence/workspace.py:1009-1027 | All rows of one key and its lock are deleted, or the key is reported missing |
| MemoryLaws.DeletesExactly | distributedai/persistence/workspace.py:1009-1020 | Exactly who has the right to delete on the scope deletes a key that has a record, version or proposal |
| MemoryLaws.DeletionLeaves | distributedai/persistence/workspace.py:1015-1023 | A deletion leaves no record, version, proposal or lock of the key, and every other one |
| MemoryEffects.SentReachesMember | distributedai/persistence/workspace.py:1316-1339 | A message goes to an active member with a role on its scope, in a personal scope only from the owner to itself, and is held back exactly if the scan finds something |
| MemoryLaws.SendsExactly | distributedai/persistence/workspace.py:1316-1339 | Exactly a writer of the scope sends to an active member with a role on it, while the UTF-8 bytes of the body and the JSON findings fit |
| LedgerProofs.NextVersionIsFree | distributedai/persistence/workspace.py:1219-1243 | The version after the canonical one never exists yet, so the uniqueness constraint of the history cannot fire |
| LedgerProofs.AcceptedLedger | distributedai/persistence/workspace.py:1216-1243 | An acceptance whose expected version is current keeps the ledger: history, canonical row and accepted proposals stay in step |
| LedgerProofs.OneToOne | distributedai/persistence/workspace.py:1235-1243 | No two versions come from one proposal |
| LedgerProofs.CanonicalIsClean | distributedai/persistence/workspace.py:1127-1133 | The canonical value was scanned clean in full: key, content and source |
| LedgerProofs.CutLedger | distributedai/persistence/workspace.py:959-1023 | Deleting a key or a scope from all three tables keeps the ledger |
| LedgerMergeProofs.RehomedLedger | distributedai/persistence/workspace.py:988-1001 | A department merge with disjoint keys keeps the ledger |
| LedgerMergeProofs.StepAudited | distributedai/persistence/workspace.py:523-555 | Every step keeps ledger, reviews and scans in order |
| RunProofs.HistoryExact | distributedai/persistence/workspace.py:1175-1249 | In every reachable state the versions of a key are exactly 1..n of its canonical row, which equals version n |
| RunProofs.VersionWasReviewed | distributedai/persistence/workspace.py:1175-1249 | In every reachable state each version is one accepted proposal of equal content that expected the version before it, reviewed by someone other than its author outside personal scopes |
| RunProofs.AcceptedBecameVersion | distributedai/persistence/workspace.py:1175-1249 | In every reachable state each accepted proposal became exactly the version after the one it expected |
| RunProofs.CanonicalMemoriesAreClean | distributedai/persistence/workspace.py:1127-1246 | In every reachable state every canonical memory was scanned clean in full |
| ReviewRace.NextIsFree | distributedai/persistence/workspace.py:1219-1243 | At commit the next version is free, whatever the interleaving |
| ReviewRace.Keep | distributedai/persistence/workspace.py:1140-1249 | Every read, lock, insertion, update, write, commit and abort of any replica keeps the mutual exclusion and the ledger |
| ReviewRace.StepGrows | distributedai/persistence/workspace.py:1162-1249 | Every step settles only pending proposals, keeps every version, and accepts exactly as many proposals as it adds versions |
| ReviewRace.NoUpdateIsLost | distributedai/persistence/workspace.py:1140-1249 | Any number of replicas in any interleaving, without the organisation lock: a proposal leaves pending at most once, accepted count equals version increase, each accepted expected version is the one just replaced, no version is lost |
| ReviewRace.AloneDecides | distributedai/persistence/workspace.py:1140-1249 | One review that nothing disturbs, run through its reads, lock, update, writes and commit, rejects, conflicts or becomes the next version exactly as it should |
| JobEffects.KeysNameOneJob | distributedai/persistence/workspace.py:1386-1423 | In every reachable state an idempotency key of one creator in one scope names one job, merges included |
| JobEffects.ReplayIsIdempotent | distributedai/persistence/workspace.py:1386-1423 | After a request succeeded, repeating it answers without changing anything, and the same key with another payload is refused |
| JobLaws.CreatesJobExactly | distributedai/persistence/workspace.py:1386-1423 | Exactly a writer asks an active writer of the scope, under a key that stands for the same request or is unused while the bytes fit; the job is queued or held by its texts |
| JobLaws.SuspiciousIsHeld | distributedai/persistence/workspace.py:1412-1419 | A new job whose objective or idempotency key the classifier reports is held and quarantined: nobody can claim it and no run completes it |
| JobLaws.CleanIsQueued | distributedai/persistence/workspace.py:1412-1423 | A new job with clean texts is queued, and its assignee, while a writer, can claim it |
| JobStore.UpdateClaim | distributedai/persistence/workspace.py:1452-1466 | The conditional update wins exactly when the fence still holds and the job is queued or past its lease |
| JobEffects.ClaimTakesOver | distributedai/persistence/workspace.py:1436-1491 | After a claim its token alone passes the fence, until the lease ends, and nobody can claim before that; the attempt is counted and no other job changes |
| JobEffects.ClaimAloneNeverConflicts | distributedai/persistence/workspace.py:1452-1468 | The conditional update of a claim loses only to a concurrent claim |
| JobLaws.ClaimsExactly | distributedai/persistence/workspace.py:1436-1473 | Exactly the assignee, while a writer, claims for 30 to 1800 seconds a job that is queued or past its lease with fewer than five attempts |
| JobLaws.FencesExactly | distributedai/persistence/workspace.py:1475-1491 | The fence passes exactly for the assignee, while a writer, with the stored token and within the lease |
| JobEffects.RenewExtends | distributedai/persistence/workspace.py:1475-1501 | A renewal succeeds exactly for an allowed duration and whoever passes the fence; the same token alone passes until the new end, and nothing else changes |
| JobEffects.SubmitEndsClaim | distributedai/persistence/workspace.py:1503-1550 | A submitted result ends the claim: no token passes and nobody can claim; it awaits review exactly if it was scanned clean in full, and is otherwise never accepted |
| JobLaws.SubmitsExactly | distributedai/persistence/workspace.py:1503-1524 | Exactly the holder submits at most 20000 characters of JSON while the added bytes fit; the job awaits review when the result is clean and is held otherwise |
| JobEffects.EndedForGood | distributedai/persistence/workspace.py:1526-1572 | A review or cancellation ends a job that was open; completed only with a result without findings and by someone other than its assignee; every later operation on it is refused to everybody |
| JobLaws.ReviewsJobExactly | distributedai/persistence/workspace.py:1526-1550 | Exactly the creator, while a writer, or a reviewer of the scope, and never the assignee, decides a submitted or held job, and accepts none that is quarantined |
| JobLaws.CancelsExactly | distributedai/persistence/workspace.py:1552-1572 | Exactly the creator or a reviewer of the scope cancels a job that has not ended |
| JobLifeProofs.ExpiredOrUsable | distributedai/persistence/workspace.py:1445-1490 | A claimed job has a lease, and at one instant it is past its lease or usable by its holder, never both and never neither |
| JobLifeProofs.TerminalAbsorbs | distributedai/persistence/workspace.py:1526-1572 | A terminal job changes nothing but the scope a merge moves it to, and the measure of progress is bounded by 23 |
| JobLifeProofs.JobOpAdvances | distributedai/persistence/workspace.py:1386-1572 | Every operation keeps the shape of all jobs and either leaves a job alone, renews its lease, or raises its measure of progress |
| JobLifeProofs.StepJobs | distributedai/persistence/workspace.py:1386-1572 | The same for every step of the service, merges and deletions included |
| RunProofs.CompletionAccepted | distributedai/persistence/workspace.py:1526-1550 | A job that a run completes was accepted in it by a review of someone other than its assignee |
| RunProofs.CompletedJobs | distributedai/persistence/workspace.py:1503-1550 | From the empty database, a completed job has a result without findings and was accepted by someone other than its assignee |
| LeaseProofs.OnlyLatestPasses | distributedai/persistence/workspace.py:1475-1491 | Of all tokens ever issued for a job only the latest can pass the fence, whatever the clock reads |
| LeaseProofs.TokensAreAttempts | distributedai/persistence/workspace.py:1436-1473 | As many tokens were issued as attempts were made, at most five |
| LeaseProofs.StepFencing | distributedai/persistence/workspace.py:1436-1491 | Every step keeps the record of issued tokens in line with attempts and stored token |
| RunProofs.SupersededNeverPasses | distributedai/persistence/workspace.py:1452-1491 | Once a later claim superseded a token, no run and no clock makes the fence accept it again |
| RunProofs.TokensOverRuns | distributedai/persistence/workspace.py:1436-1473 | From the empty database, tokens issued equal attempts, at most five |
| ClaimRace.Keep | distributedai/persistence/workspace.py:1436-1473 | Every read, update, commit, abort, renewal and end keeps the count of winners |
| ClaimRace.OneWinnerPerAttempt | distributedai/persistence/workspace.py:1452-1468 | With stale snapshots, arbitrary clocks and any interleaving, each attempt number has at most one winner, and tokens issued equal attempts, at most five |
| ClaimRace.AloneClaims | distributedai/persistence/workspace.py:1436-1473 | One claim that nothing disturbs wins exactly when the job is queued or past its lease with attempts left, and then holds the next attempt, its token and its lease |
| BillingEngines.StorageSize | distributedai/persistence/billing.py:343-353 | The accumulating loops count the payload bytes of every row of the organisation |
| BillingEngines.LockUsage | distributedai/persistence/billing.py:249-266 | The usage row exists afterwards, created from a recount on first use |
| BillingEngines.ChargeStorage | distributedai/persistence/billing.py:328-341 | A charge is added, or refused exactly when it would pass the cap of the plan in force |
| BillingEngines.RecomputeUsage | distributedai/persistence/billing.py:355-363 | The counter becomes the byte recount of the stored rows, and no other table changes |
| MemoryLaws.ChargesExactly | distributedai/persistence/billing.py:249-341 | On a balanced counter a charge is refused exactly when the stored bytes and the new ones pass the cap of the plan in force, and otherwise counted on top of the stored bytes |
| Encodings.BytesAreUtf8 | distributedai/persistence/workspace.py:1128 | The counted bytes of a text are the length of its UTF-8 octets |
| Encodings.Utf8RoundTrip | distributedai/persistence/workspace.py:1128 | No two texts have the same octets |
| Encodings.FindingsAreJson | distributedai/persistence/workspace.py:1128-1132 | The bytes counted for findings are those of the JSON list of their sorted codes |
| DepartureProofs.DispatchCountsFit | distributedai/persistence/billing.py:281-386 | No dispatch takes the active users, instances or connections of an organisation past its plan, and none adds more than one |
| PeopleLaws.CreatesPrincipalExactly | distributedai/persistence/workspace.py:686-698 | A principal is created exactly by an administrator, within the plan, under a free name with a free credential |
| PeopleLaws.IssuesExactly | distributedai/persistence/billing.py:400-429 | A connection is issued exactly for oneself or by an administrator for an active member, on an active instance, within the plan, with a credential no connection has |
| DepartureProofs.IssuedAuthenticates | distributedai/persistence/billing.py:400-550 | A new connection authenticates at once, exactly if its instance and its owner are within the plan |
| DepartureProofs.CutForEver | distributedai/persistence/billing.py:431-448 | Only its owner or an administrator revokes a connection, and in no later state does it authenticate |
| AccountingProofs.ChargeThenWrite | distributedai/persistence/billing.py:249-341 | A charge of exactly the bytes that are then written keeps the balance and fits the cap, the first charge of an organisation included |
| AccountingProofs.SubmittedBytes | distributedai/persistence/workspace.py:1516-1521 | The charge of a submission is exactly the growth of the row, because a claimed job has no result and no findings |
| AccountingProofs.RecountedBalanced | distributedai/persistence/workspace.py:961-967 | Recomputing after a deletion balances the counter |
| AccountingProofs.RehomedAdds | distributedai/persistence/workspace.py:1000-1001 | A department merge moves bytes but adds none |
| AccountingProofs.DispatchBalanced | distributedai/persistence/billing.py:328-363 | Every committed operation keeps the balance, and whenever an organisation's bytes grow its counter exists and is within the cap in force |
| RunProofs.UsageIsRecount | distributedai/persistence/billing.py:249-363 | With billing enabled throughout, in every reachable state a usage row equals the byte recount of its organisation |
| RunProofs.ChargesFit | distributedai/persistence/billing.py:249-341 | In every reachable state a dispatch that adds bytes to an organisation leaves its counter within the cap of the plan in force, on first use too |
| Stores.Store.Dispatch | distributedai/persistence/workspace.py:523-555 | The entry point: forged and revoked identities are refused, an error undoes everything, and the state is exactly that of one specified step |
| Stores.Store.NewOrganisation | distributedai/persistence/workspace.py:478-487 | A tenant is created or nothing changes |
| IsolationProofs.ForgedIdentity | distributedai/persistence/workspace.py:538-541 | An identity that does not match an active database row commits nothing |
| IsolationProofs.RehomedElsewhere | distributedai/persistence/workspace.py:1000-1001 | Moving rows by scope alone touches no row of another organisation |
| IsolationProofs.DroppedElsewhere | distributedai/persistence/workspace.py:941-944 | Cleaning up by scope alone touches no row of another organisation |
| IsolationProofs.DispatchElsewhere | distributedai/persistence/workspace.py:523-547 | Whatever a principal does, no row of another organisation changes, appears or vanishes in any table |
| RunProofs.TenantsApart | distributedai/persistence/workspace.py:523-547 | The same in every reachable state |
| PersonalProofs.StepOwned | distributedai/persistence/workspace.py:814-902 | No step gives a principal a second personal scope, removes one, or changes its owner |
| PersonalProofs.OnlyOwnerPasses | distributedai/persistence/workspace.py:600-602 | On a personal scope only the owner passes a role check |
| PersonalProofs.OnlyOwnerChanges | distributedai/persistence/workspace.py:591-613 | Only the owner's own steps change the memory rows, messages and jobs of a personal scope |
| RunProofs.OnePersonalEach | distributedai/persistence/workspace.py:814-827 | In every reachable state a principal owns at most one personal scope, and each has an owner |
| RunProofs.PersonalUntouched | distributedai/persistence/workspace.py:591-613 | A run in which its owner dispatches nothing leaves a personal scope, its owner, its memory, its messages and its jobs as they were |
| RunProofs.PersonalJobs | distributedai/persistence/workspace.py:1386-1406 | In every reachable state the jobs of a personal scope were created by its owner for itself |
| RunProofs.StepSound | distributedai/persistence/workspace.py:523-555 | One step keeps all invariants together |
| RunProofs.ReachableSound | distributedai/persistence/workspace.py:523-555 | All invariants hold in every reachable state |
| Subscriptions.Billing.ProcessEvent | distributedai/persistence/billing.py:624-686 | One event ends as specified: duplicate, unregistered, out of order, tie, foreign customer, unknown price, applied |
| Subscriptions.Billing.AssignPlan | distributedai/persistence/billing.py:568-578 | The operator's plan is the effective plan, and no other account changes |
| Subscriptions.Billing.GetOrCreate | distributedai/persistence/billing.py:554-566 | An account exists afterwards, with the default plan when it is new |
| Subscriptions.Billing.RegisterSubscription | distributedai/persistence/billing.py:580-614 | A binding is made exactly when it is valid and free; a new binding starts from a clean slate |
| Convergence.ReactedReflects | distributedai/persistence/billing.py:646-686 | One more pending event, of the own or a foreign customer, keeps the row in line with the set of events seen, whether older, tied or newer |
| Convergence.SetDecidesPlan | distributedai/persistence/billing.py:268-277 | After any deliveries of a set of events the effective plan is decided by the set: the unique latest of the own customer gives its plan, a tie or an unmappable price the default; the default can come instead only when a foreign customer's event shares the deciding time |
| Convergence.OrderDoesNotMatter | distributedai/persistence/billing.py:624-686 | Convergence: any order, any repetition and any traffic of other subscriptions give one effective plan, unless a foreign customer's event shares the deciding time |
| Convergence.EffectivePlans | distributedai/persistence/billing.py:624-686 | Exactly which effective plans a set of events can end in, over all orders and repetitions |
| Convergence.ConvergesExactly | distributedai/persistence/billing.py:646-661 | Deliveries of a set converge on one effective plan if and only if not: the unique latest of the own customer's events gives another plan than the default, and a foreign customer's event has its time |
| Convergence.StoredPlans | distributedai/persistence/billing.py:646-681 | Exactly which stored plans a set of events can leave: a latest event's plan, or with an unmappable latest the first plan or that of an older event |
| Convergence.StoredConvergesExactly | distributedai/persistence/billing.py:646-681 | The stored plan is independent of order and repetition if and only if that set of outcomes has one element |
| Subscriptions.EarlyEventIsSpent | distributedai/persistence/billing.py:636-645 | An event before registration uses up its identifier: delivering it again changes nothing |
| SubscriptionLaws.EntitlesExactly | distributedai/persistence/billing.py:67-661 | Exactly the statuses active and trialing entitle, in whatever case |
| SubscriptionLaws.RegistrationStarts | distributedai/persistence/billing.py:580-614 | A registration with a new binding puts the default plan in force until an event comes, whatever plan is stored, and is a start from which events converge |
| SubscriptionLaws.NotesExactly | distributedai/persistence/billing.py:636-686 | Which note each event leaves, that a foreign customer's newest leaves none, that no other account changes, and that only a newest event moves the chronological guard |
| Convergence.ForeignCustomerBreaksConvergence | distributedai/persistence/billing.py:652-661 | Two events, one of a foreign customer at the same time, whose order decides the effective plan |
| Convergence.StoredPlanDependsOnOrder | distributedai/persistence/billing.py:652-681 | Two tied events whose order decides the stored plan, but not the effective plan |
| Slots.EligibleIsPrefix | distributedai/persistence/billing.py:539-545 | Being eligible is being among the first rows of the listing by creation time and identifier |
| Slots.EligibleFit | distributedai/persistence/billing.py:539-545 | No more rows are eligible than the ceiling allows |
| Slots.ResolveConnection | distributedai/persistence/billing.py:517-550 | The row, its owner, its instance, then the three ceilings in turn decide, and the identity is the owner's |
| Slots.AuthenticatedFit | distributedai/persistence/billing.py:517-550 | In every state authenticating connections, their owners and their instances fit the plan |
| Slots.OlderAuthenticates | distributedai/persistence/billing.py:517-550 | Whenever a connection authenticates, so does every active one of the same owner and instance that was created before it |
| Slots.IssueKnocksOutNone | distributedai/persistence/billing.py:400-429 | Issuing a connection knocks out none that authenticated before, whatever the creation times |
| Slots.RevokeKnocksOutNone | distributedai/persistence/billing.py:431-448 | Revoking a connection knocks out no other |
| Slots.DispatchKnocksOutNone | distributedai/persistence/billing.py:281-326 | Under one plan no dispatch stops a connection from authenticating but one that revokes it or its owner |
| Keyring.ProvisionKeeps | distributedai/persistence/encryption.py:149-161 | Provisioning makes version 1, once, and changes no key |
| Keyring.RotateKeeps | distributedai/persistence/encryption.py:173-190 | A rotation adds the next version and changes no key |
| Keyring.CacheSurvives | distributedai/persistence/encryption.py:200-219 | A rotation in the middle of an operation leaves every cached entry in agreement with its stored row |
| Keyring.FetchedKey | distributedai/persistence/encryption.py:200-219 | Whatever the cache holds, a fetched key is the stored key of the version it comes with |
| Keyring.DecimalRoundTrip | distributedai/persistence/encryption.py:226-235 | The decimal version number in an envelope reads back as itself |
| Keyring.EnvelopeParses | distributedai/persistence/encryption.py:221-237 | Every envelope parses back to its own version and payload |
| Keyring.MadeDecrypts | distributedai/persistence/encryption.py:230-241 | An envelope made with a stored key decrypts to its text, through any cache |
| Keyring.CryptoBox.Provision | distributedai/persistence/encryption.py:149-161 | Idempotent first key, all or nothing |
| Keyring.InsertedKey | distributedai/persistence/encryption.py:163-171 | A key that was wrapped and inserted is read back from its row as itself |
| Keyring.CryptoBox.Rotate | distributedai/persistence/encryption.py:173-190 | The next version becomes active, all or nothing |
| Keyring.CryptoBox.FetchKey | distributedai/persistence/encryption.py:200-219 | Asked for the active key, the first use in an operation finds the active version and later ones what the first found; a version asked for is the version found |
| Keyring.CryptoBox.Encrypt | distributedai/persistence/encryption.py:221-228 | Always succeeds for a provisioned tenant; the envelope names the active version, or inside an operation the one of its first use, and is made with a stored key |
| Keyring.CryptoBox.Decrypt | distributedai/persistence/encryption.py:230-241 | Returns the text of every envelope made with a stored key |
| Keyring.SealsActive | distributedai/persistence/encryption.py:200-228 | Outside an operation, or at its first use in one, an envelope is sealed with the active key for its record and field and names the active version |
| KeyUse.OneVersionPerOperation | distributedai/persistence/encryption.py:137-228 | Inside one operation every envelope of an organisation names the version that was active at the first of them, whatever is rotated meanwhile |
| KeyUse.RotationTakesEffect | distributedai/persistence/encryption.py:173-228 | After a rotation the next operation, and whatever runs outside one, seals with the new key under the next version |
| Keyring.Keep | distributedai/persistence/encryption.py:137-241 | Every operation keeps versions exactly 1..active, all caches in agreement, and every envelope ever made decryptable |
| Keyring.EnvelopesForEver | distributedai/persistence/encryption.py:137-241 | After any run, and any later run, versions are exactly 1..active and immutable, caches agree, and every envelope ever made decrypts to its text in any context |
| Migration.ConvertValue | distributedai/persistence/storage_encryption.py:146-157 | An envelope is verified and stays, a plaintext becomes an envelope that opens to it |
| Migration.ConvertRow | distributedai/persistence/storage_encryption.py:146-160 | The changes of a row are exactly its plaintext columns; the row fails exactly when some value looks like an envelope but does not open |
| Migration.ConvertAll | distributedai/persistence/storage_encryption.py:140-160 | One transaction: fails, with all tables unchanged, exactly when some value looks like an envelope but does not open |
| Migration.ProvisionAll | distributedai/persistence/storage_encryption.py:134-137 | Every organisation is provisioned before any payload is touched |
| Migration.MigrateExisting | distributedai/persistence/storage_encryption.py:128-161 | Aborts with the payload unchanged, or converts every value; the count is the number of rewritten rows |
| Migration.ConversionKeepsMeaning | distributedai/persistence/storage_encryption.py:128-161 | A conversion changes no logical value and leaves no plaintext |
| Migration.ColumnsApart | distributedai/persistence/storage_encryption.py:146-157 | No two columns bind their envelopes to one name |
| Migration.SealedStays | distributedai/persistence/storage_encryption.py:151-158 | Converting sealed tables cannot fail and rewrites nothing |
| Migration.MigrateTwice | distributedai/persistence/storage_encryption.py:128-161 | An immediate second run succeeds and rewrites no row |
| Support.SupportRepository.Quota | distributedai/persistence/support.py:175-180 | The sums over tickets and replies decide whether more bytes still fit |
| Support.SupportRepository.CreateTicket | distributedai/persistence/support.py:182-210 | A ticket is created, replayed, or refused, as specified |
| Support.SupportRepository.ReplyToTicket | distributedai/persistence/support.py:230-251 | A reply with an optional change of status, within the quotas, reopening included |
| Support.AssigneeMayHandle | distributedai/persistence/support.py:230-265 | Whoever a ticket was assigned to is denied no reply and no assignment of it, and the assignment changes no other ticket and no quota |
| SupportLaws.CreatesTicketExactly | distributedai/persistence/support.py:182-210 | Exactly an active member opens a ticket, with the queue of its role, under a key that stands for the same request or is unused within the quotas; its bytes are counted |
| SupportLaws.RepliesExactly | distributedai/persistence/support.py:230-251 | Exactly the reporter and those who handle the ticket reply, within the quotas, reopening included; the reply is counted by its UTF-8 bytes and the ticket has the status asked for |
| SupportLaws.AssignsExactly | distributedai/persistence/support.py:253-265 | Exactly those who handle a ticket assign it, to somebody who handles it |
| Support.SupportRepository.ConfigureScope | distributedai/persistence/support.py:124-142 | The configuration of a scope is written when every identity qualifies |
| Support.StepWithin | distributedai/persistence/support.py:175-265 | Every operation, and every change of identities, keeps all quotas |
| Support.QueueStaysWithin | distributedai/persistence/support.py:175-265 | From an empty queue every run keeps at most 1000 tickets, 100 open ones, 100 replies a ticket and 10 MiB an organisation, and one ticket an idempotency key |
| Support.RepeatedCreate | distributedai/persistence/support.py:189-198 | Creating again with the same key and request changes nothing |
| Support.LayersAgree | distributedai/application/support.py:107-125 | For an active actor the application's handler and visibility decisions equal the repository's, with the fall-back to administrators and the limited queries |
| Support.LayersAlwaysAgree | distributedai/persistence/support.py:100-115 | The same in every state that the application reaches, whatever happens to identities |
| Support.RoutedQueueFits | distributedai/application/support.py:127-132 | A request routed internally is never refused for its queue |
| RateLimit.Limits.Touch | distributedai/presentation/mcp.py:50-58 | A key is popped, its window renewed when over, counted, put back as the most recent, and passes exactly below its budget |
| RateLimit.Limits.Evict | distributedai/presentation/mcp.py:59-60 | The evicted key was touched before every key that stays |
| RateLimit.Limits.Admit | distributedai/presentation/mcp.py:50-60 | A request is refused at the first key out of budget, before any eviction; after an admitted one at most 10000 keys remain |
| RateLimit.TwiceTheBudget | distributedai/presentation/mcp.py:50-58 | With a clock that never goes back, any half-open 60-second interval of a key's history admits less than twice its budget |
| RateLimit.WindowWithinBudget | distributedai/presentation/mcp.py:50-58 | Each window admits at most the budget |
| RateLimit.BoundIsReached | distributedai/presentation/mcp.py:50-58 | For every budget some monotone history and interval admit one less than twice the budget |
| RateLimit.SignInBudget | distributedai/presentation/mcp.py:46-58 | A sign-in key passes at most ten times in a window and nineteen in any minute whatever the general budget, and every other key has the general budget |
| RateLimit.Limits.AdmitsAtMostTwice | distributedai/presentation/mcp.py:50-60 | Both bounds for every key that has not been evicted |
| PayloadScan.ScanPayload | distributedai/security.py:133-160 | The stack walk terminates, reports the specified findings, and reports none exactly when the payload is clean in full |
| PayloadScan.NoFindingsExactlyWhenClean | distributedai/security.py:133-160 | No findings exactly when there are at most 2000 values, none deeper than 32, every text and text key is clean and every leaf is a JSON value |
| PayloadScan.FindingsExact | distributedai/security.py:133-160 | Within the bounds the walk reports exactly the findings of the parts, in whatever order it visits them; beyond them it always reports something |
| Closure.Expand | scripts/audit_licenses.py:54-60 | Every package of a name is tagged, and its dependencies and requested extras are pushed |
| Closure.ClosedHasAll | scripts/audit_licenses.py:46-60 | A set with the seeds that is closed under requirements has everything that is reached |
| Closure.CloseGroup | scripts/audit_licenses.py:46-60 | The worklist of one group terminates on every graph and tags exactly the package versions its seeds reach |
| Closure.IndexByName | scripts/audit_licenses.py:38-40 | The index lists exactly the packages of each normalised name |
| Closure.Memberships | scripts/audit_licenses.py:36-61 | A package version has a group exactly when the group's seeds reach it through dependencies and requested extras |

## Left out

- Argument validation (key sets, lengths, types, enumerations) and the texts of error messages: the model starts from well-typed arguments and keeps the error codes.
- Return values, audit rows and timestamps of rows (except where an order or a lease depends on them): they restate what was written.
- List, search, history, inbox, export and backup operations, and the size limits of exports: they read only; the right to export is modelled by the permission flags.
- `principal_list` and `scope_list` with personal scopes: they create missing personal scopes, which is modelled as its own operation for the caller.
- Project codes: random locators without permission.
- Bootstrap from the environment, session revocation, checkout rows, platform suspension and backup file framing.
- SQL dialects, ORM sessions and flush hooks, schema creation and advisory locks: only rows, constraints, row locks, conditional updates and rollback are modelled.
- HTTP, MCP, OIDC and payment provider adapters, signature verification, and the regular expressions of the text classifier.
- Reuse of generated identifiers: a version 4 UUID, a claim token and a random key are taken to be new. The corresponding collision aborts with a conflict in the model.
- Cryptographic strength: wrapping, sealing and encoding are only assumed to invert.
- `int()` on numerals other than ASCII digits, in the version field of an envelope: an uninterpreted function.
- Letter case beyond ASCII in a provider's subscription status: no other letter lower-cases to one of the entitled words.
- Deletion of the mutex row while a review is in flight: deletions hold the organisation lock, which the race model does not need for reviews among themselves.
- ReviewRace.NoUpdateIsLost: does not model the charge of a promotion; a refused charge is one of the aborts that may happen at any point.
- ClaimRace.OneWinnerPerAttempt: models submission, review and cancellation as atomic steps under the row lock, because only claims decide without it.
- Liveness of jobs and reviews, monotonicity of roles through ownership, a bound on the depth of scopes, and a bound on the limiter's table while requests are refused: the code does not give them.
- Protection of the last administrator over runs: only the creation of an organisation makes an administrator, which makes the claim nearly trivial.
- Two replicas that provision one tenant at the same moment: the loser finds the winner's key and returns, which is the idempotent path of the model.
- The count of verified fields that the migrator reports, the 8300-byte limit on credentials and the body limits of the rate limiter's middleware, and key provisioning inside the creation of a support ticket.
- Concurrent replicas in the support queue and in the quota checks: their transactions hold a row lock from the first read to the commit, and are modelled as single steps.
- The support list and its truncation, ticket assignees shown to handlers, and the AI context: read-only views.
