# Verification of the stateful protocols

Dafny 4.11 models and proofs for the parts of the platform whose correctness
depends on state that several writers change: tenant provisioning, online schema
change of dynamic tables, the dynamic-table service, refresh-token rotation with
its browser client, and one-time secrets. `dafny verify dfyconfig.toml` checks
everything.

## How the model is built

- A database table is a map, set or sequence. One Prisma `$transaction`, one
  conditional `updateMany` or one DDL transaction is one atomic step; between
  two steps any other step may run, and a process may die there.
- A service whose methods update rows is a class with those rows as fields, its
  methods written as the source writes them (nested try/catch, early returns,
  loops). Each is proved against a function of the old state, and the laws are
  proved about these functions, over every interleaving or every sequence of
  calls.
- Failures, generated ids, hashes and clocks are inputs. In the provisioning
  saga the environment is an `Oracle`: one answer for each program point.
- A token or code stands for its hash (the hash is injective), so a table keyed
  by hash is a table keyed by token.

| file | what it holds |
|---|---|
| `PhysicalTable`, `FieldEdits`, `FieldRequests` | columns and cells; edits compiled to worker steps, what an edit means without steps, and what a request gets |
| `RetryConvergence`, `SchemaMetadata`, `SchemaHistories`, `DdlWorker` | crashes and re-runs, metadata next to tables, histories with broken runs, the worker itself |
| `StepOutcomes`, `FirstAdmins`, `SetupLinks` | the parts of the saga: outcome list, First Admin, setup links |
| `Provisioning`, `ProvisioningRuns` | one action per program point; many runs, timeouts and handlers interleaved |
| `ProvisioningCleanup`, `ProvisioningRetries`, `ProvisioningRaces`, `ProvisioningSuccess`, `ProvisioningService` | the failure handler, runs one after the other, a timed-out run beside its handler, the run that works, the service code |
| `FieldRules`, `RowStore`, `RelationQuery`, `RowPages`, `SchemaCaches`, `Admission` | the dynamic-table service |
| `TokenRotation`, `SessionRevocation`, `RevocationCauses`, `ApiClients`, `ClientSystem`, `ClientSessions` | refresh tokens on the server, the browser client, and both together |
| `PasswordResets`, `Onboarding`, `LikeSearch` | reset codes, idempotent intake, literal search |

Where code and comments disagree the code is followed: `activation` is a
conditional `updateMany`, not the `update` its comment names
(`apps/backend/src/modules/tenants/provisioning.service.ts:798-836`); compensation
revokes setup tokens and the First Admin whether or not their steps succeeded,
only the schema drop is gated (the same file, lines 906-966); and the schema
cache is invalidated after the field-edit job is enqueued, not before
(`apps/backend/src/modules/dynamic-tables/dynamic-tables.service.ts:516-527`).

## Results that are not what one might hope

- `RetryConvergence.ModifyConvergesIff`: a type change converges under crashes
  exactly when its shadow slot is harmless.
- `SchemaMetadata.EditKeepsAgreementIff`, `SchemaMetadata.CreateKeepsAgreementIff`,
  `SchemaMetadata.RerunKeepsAgreementIff`: when metadata and tables keep agreeing,
  in both directions. `RerunAfterRemoveDisagrees` is the run that fails: a
  create-table job that committed but could not record it runs again after a
  field of its table was removed, and brings the field's metadata back.
- `Admission.LimitsHoldIffRerunsFit`: the same re-run can take a table over its
  field limit, because nothing counts the fields it brings back
  (`RerunExceedsFieldLimit`); the limit holds exactly when they fit.
  `ModificationKeepsLimitIff` says the same of `modify`, which is not counted
  either and inserts a field that is not recorded.
- `ProvisioningRetries.SchemaSurvivesIff`: creation of a schema and its record
  are two writes; a schema outlives compensation exactly when they come apart.
- `RowStore.DeleteKeepsValidIff`: `on delete set null` breaks row validity
  exactly when a required relation is lost.
- `RowStore.RowsStayValidIff`: values are checked before they are stored. Rows
  stay valid exactly when what the columns keep still fits; `RoundingBreaksMinimum`
  is a number that a `decimal` column of the library's default scale rounds below
  its own minimum.
- `RowPages.ResolveRowListQuery`: fields are looked up in a plain object, so
  `sortBy` and a null filter may also name a property every object inherits. The
  query then passes validation and is left to the database to reject.
- `ClientSessions.StoredIsDeadIff`: the client's stored token is dead, and its next
  refresh triggers the reuse kill, exactly when its rotation was lost (the server
  failed after claiming it, or the reply did not arrive), or when it was live while
  a refresh that had been looked up too late carried out its kill. Too late is after
  its own token was revoked; as long as no token is dead that means a refresh the
  client had given up, looked up when another had rotated the token
  (`LateLookupIsAbandoned`). `LateLookupKillsSuccessor` is such a run, in which no
  rotation is lost; `NothingDiesWithoutCause`: there is no third way.
- `ProvisioningRaces.TimedOutRunEndsCleanIff`: an action that was under way when the
  timer of a job fired can commit after the compensation of what it makes; exactly
  then, or when the handler looks before the tenant is inserted or the schema
  recorded, something is left.
- `SchemaHistories.BrokenHistoryAgreesIff`: jobs that run between a field-edit job's
  failure and its next run are harmless exactly when they settle the columns they
  name; what the broken run touched stays in doubt until a run completes.
- `RelationQuery.QueryIsLookupPerRow`: a table named like the alias of one of its
  own relations (`<field>__rel`) cannot be listed, and neither can one whose aliases
  coincide when they are cut to 63 bytes.
- `SessionRevocation.RotationOutlivesRevocation`: a rotation in flight survives a
  bulk revocation exactly when its own remaining actions work; `RevocationLasts`
  says that nothing else does.
- `PasswordResets.OverlapBudget`, `PasswordResets.BudgetIsTight`: three recorded
  attempts allow `3 * k` comparisons when `k` requests may be undecided at a time,
  and no fewer: each of the three levels can be read `k` times before the first
  of them is written. `ThreeAttemptsIffNoOverlap`: the budget is three only for
  requests that do not overlap.

Some lemmas only check that a definition says what it should and are not listed
below: `ProvisioningRuns.AbortedRunNeverActivates`,
`ProvisioningCleanup.ManualCleanupStopsRetry`, `TokenRotation.ReuseEndsEverySession`,
`ApiClients.UnauthorisedCallIsRetriedOnce`, `ApiClients.AuthenticationCallNeverRefreshes`,
`ClientSessions.FailedRotationIsLost`, `PasswordResets.CodeLifetime`,
`PasswordResets.RedeemingEndsSessions`, `ClientSessions.LostRefreshWakesWaiters`,
`RowStore.WriteTouchesGivenCells`.

## Model

| member | source | states |
|---|---|---|
| FieldEdits.Validate | apps/backend/src/modules/dynamic-tables/dynamic-tables.service.ts:552-735 | accepts exactly a safe name with a type (add, modify), a known target (relation), and for a modify no RELATION on either side and a safe shadow name; not found exactly for an unknown target; the edit has the kind, type, `required` and target of the request |
| FieldEdits.WellFormedIsIndependent | apps/backend/src/modules/dynamic-tables/dynamic-tables.service.ts:676-735 | distinct names and unused shadow names make the column footprints of a job's edits pairwise disjoint |
| FieldRequests.BuildJob | apps/backend/src/modules/dynamic-tables/dynamic-tables.service.ts:486-515 | the loop over a request builds the job of all its edits, or fails as its first refused edit does |
| FieldRequests.AcceptedIff | apps/backend/src/modules/dynamic-tables/dynamic-tables.service.ts:552-735 | a request is accepted if and only if each of its edits is acceptable, and then has one edit for each |
| FieldRequests.CompletesIff | apps/backend/src/modules/dynamic-tables/dynamic-tables.service.ts:552-711 | the job of an accepted request completes if and only if nothing required is added to a table with rows, every relation names an existing table and every value of a modified column converts |
| FieldRequests.CompletedJobDoesWhatWasAsked | apps/backend/src/modules/dynamic-tables/ddl-worker.ts:243-306 | once completed, an add has left a column and a field row of its `dataType` and `required` (false unless given), with `relatedTableId` as the target of a relation; a remove neither; a modify the new type with every value converted; other columns, rows and tables are untouched |
| FieldRequests.CreatedTableIsAsAsked | apps/backend/src/modules/dynamic-tables/ddl-worker.ts:155-213 | a create-table job for a free name completes exactly for distinct non-relation fields off the system columns and a name no other table has; it leaves one column and one row for each field, of its type and `required`, besides the system columns |
| RetryConvergence.RetryConverges | apps/backend/src/modules/dynamic-tables/ddl-worker.ts:243-461 | after any number of crashes, each leaving any committed prefix, a re-run from step 0 ends with the same columns, types and cells as one uninterrupted run, or stops at the same step |
| RetryConvergence.CompiledJobMeansInPlaceEdits | apps/backend/src/modules/dynamic-tables/dynamic-tables.service.ts:552-711 | the compiled job completes exactly when every edit is possible, and then equals the edits applied in place one after the other |
| RetryConvergence.ModifyConvergesIff | apps/backend/src/modules/dynamic-tables/ddl-worker.ts:383-461 | a type change converges under every pattern of crashes if and only if its shadow slot is free, blocking, or already what the job creates |
| SchemaMetadata.EditKeepsAgreementIff | apps/backend/src/modules/dynamic-tables/ddl-worker.ts:279-305 | a completed field-edit job keeps recorded fields and user columns (names and types) in agreement if and only if each edit is safe for the table |
| SchemaMetadata.CreateKeepsAgreementIff | apps/backend/src/modules/dynamic-tables/ddl-worker.ts:155-216 | a create-table job leaves agreement if and only if the physical name was free or already had the requested columns |
| SchemaMetadata.CreateIsIdempotent | apps/backend/src/modules/dynamic-tables/ddl-worker.ts:172-213 | a create-table job that runs again changes nothing |
| SchemaMetadata.RerunKeepsAgreementIff | apps/backend/src/modules/dynamic-tables/ddl-worker.ts:155-236 | a create-table job that runs again, whatever jobs came between, keeps agreement if and only if each of its fields is still recorded with a type that compiles to the same column |
| SchemaMetadata.AttemptsDoNotMatter | apps/backend/src/modules/dynamic-tables/ddl-worker.ts:243-305 | crashes on the way do not change what a completed field-edit job does to tables and metadata |
| SchemaMetadata.HistoryAgreesIff | apps/backend/src/modules/dynamic-tables/ddl-worker.ts:574-623 | over every history of completed first runs, re-runs and field edits with any crashes, metadata and tables agree after each job if and only if each job was harmless where it ran |
| SchemaMetadata.HistoryKeepsAgreement | apps/backend/src/modules/dynamic-tables/ddl-worker.ts:574-623 | metadata and tables agree after every history of harmless completed jobs, re-runs included, with any crashes in between |
| SchemaMetadata.RerunAfterRemoveDisagrees | apps/backend/src/modules/dynamic-tables/ddl-worker.ts:155-236 | the failing input: create, remove a field, run the create-table job again; the dropped column is recorded again |
| SchemaHistories.CompletedSettlesIff | apps/backend/src/modules/dynamic-tables/ddl-worker.ts:243-306 | from whatever broken runs have left, a field-edit run that completes settles its columns if and only if each edit finds or makes a column of its own type and no field is recorded under its shadow name |
| SchemaHistories.BrokenHistoryAgreesIff | apps/backend/src/modules/dynamic-tables/ddl-worker.ts:243-306 | over every history of jobs that complete, repeat or break anywhere, in any order, metadata and tables agree at every moment outside the columns in doubt if and only if each action was harmless where it ran |
| SchemaHistories.SettledHistoryAgrees | apps/backend/src/modules/dynamic-tables/ddl-worker.ts:243-306 | once every broken run's columns have been settled by a run that completed, metadata and tables agree again |
| SchemaMetadata.UnnamedColumnsKept | apps/backend/src/modules/dynamic-tables/ddl-worker.ts:308-461 | a completed job keeps type and cells of every column it does not name, in every table |
| DdlWorkers.DdlWorker.ExecuteStep | apps/backend/src/modules/dynamic-tables/ddl-worker.ts:308-461 | one step in its own transaction does what `Exec` says, or fails and changes nothing |
| DdlWorkers.DdlWorker.ProcessFieldEdit | apps/backend/src/modules/dynamic-tables/ddl-worker.ts:243-306 | a run commits a prefix of the steps and logs it; only a full prefix is followed by all metadata effects, in one transaction |
| DdlWorkers.DdlWorker.ProcessCreateTable | apps/backend/src/modules/dynamic-tables/ddl-worker.ts:155-236 | table, table row and field rows are written together or not at all |
| DdlWorkers.DdlWorker.UpsertMetaTable | apps/backend/src/modules/dynamic-tables/ddl-worker.ts:542-572 | the table row is inserted or updated unless another table has the name |
| StepOutcomes.UpsertAllRefinesLog | apps/backend/src/modules/tenants/provisioning.service.ts:1526-1542 | the stored list is the insertion-ordered map of all accepted writes: one entry a step, the latest, in first-write order |
| StepOutcomes.RecordedAfterUpsert | apps/backend/src/modules/tenants/provisioning.service.ts:1526-1542 | a write decides its own step's success and no other's |
| FirstAdmins.FirstAdminService.AssignAdmin | apps/backend/src/modules/tenants/first-admin.service.ts:50-140 | one transaction reuses or creates member, account and role, or rolls back for a system user's address |
| FirstAdmins.FirstAdminService.GrantTenantScopePermissions | apps/backend/src/modules/tenants/first-admin.service.ts:190-210 | the role ends with every tenant-scoped permission and no grant of another role changes |
| FirstAdmins.FirstAdminService.DeactivateAdmin | apps/backend/src/modules/tenants/first-admin.service.ts:149-182 | member, account and admin role go, with the role's grants and links |
| FirstAdmins.AssignMakesFullAdmin | apps/backend/src/modules/tenants/first-admin.service.ts:50-100 | afterwards the tenant's first member holds an admin role that is granted every tenant-scoped permission; no grant is lost, and each new one gives a tenant-scoped permission to the tenant's admin role |
| FirstAdmins.AssignTwiceIsOnce | apps/backend/src/modules/tenants/first-admin.service.ts:50-100 | assigning again, with any address and ids, changes nothing |
| FirstAdmins.AssignRepeatedlyThenDeactivate | apps/backend/src/modules/tenants/first-admin.service.ts:149-182 | any number of assignments and then one deactivation restore accounts, members, roles and grants |
| SetupLinks.SetupLinkService.GenerateLink | apps/backend/src/modules/tenants/setup-link.service.ts:53-97 | minting revokes the tenant's tokens and adds one, or fails without a member |
| SetupLinks.SetupLinkService.RevokeAll | apps/backend/src/modules/tenants/setup-link.service.ts:99-104 | every token of the tenant is revoked, no other changes |
| SetupLinks.SetupLinkService.RedeemLink | apps/backend/src/modules/tenants/setup-link.service.ts:114-190 | succeeds exactly for a token neither used, revoked nor expired whose tenant has a pending active member; then one such member of that tenant is active with the new password, and no other member or account changes |
| SetupLinks.MintedLinkIsTheOnlyOne | apps/backend/src/modules/tenants/setup-link.service.ts:53-97 | the new link is the tenant's only live one and is redeemable exactly while a member is pending and 24 hours are not over |
| SetupLinks.SetupLinksAreOneTime | apps/backend/src/modules/tenants/setup-link.service.ts:53-190 | over every interleaving a tenant has at most one live token, no token is redeemed twice and no First Admin claimed twice |
| SetupLinks.ActivatedByOwnLink | apps/backend/src/modules/tenants/setup-link.service.ts:114-190 | over every interleaving, a member who becomes active was claimed by the redemption of a then valid link of the member's own tenant, which changed no other member, account or tenant |
| SetupLinks.RevokedLinksStayDead | apps/backend/src/modules/tenants/setup-link.service.ts:99-190 | over every interleaving, once a tenant's links are revoked none can be redeemed until a new one is generated for that tenant |
| ProvisioningRuns.FailedIsAbsorbing | apps/backend/src/modules/tenants/provisioning.service.ts:811-837 | whatever lifecycles, timeouts and handlers interleave, a FAILED tenant stays FAILED |
| ProvisioningRuns.OnlyUnabortedRunsActivate | apps/backend/src/modules/tenants/provisioning.service.ts:811-837 | only the activation step of a run without abort makes a tenant active, from PROVISIONING and with the attempt in provisioning |
| ProvisioningRuns.AttemptIsGuarded | apps/backend/src/modules/tenants/provisioning.service.ts:1468-1524 | in every interleaving `accepted` is never re-entered and `provisioning` never from `succeeded` or manual cleanup |
| ProvisioningRuns.OutcomesRefineMap | apps/backend/src/modules/tenants/provisioning.service.ts:1468-1542 | over every interleaving the outcome list is the insertion-ordered map of the accepted writes |
| ProvisioningRuns.ActiveIsEarned | apps/backend/src/modules/tenants/provisioning.service.ts:319-350 | with one worker at a time an activation commits only after schema, migration, seed, first admin and link are recorded as succeeded, and a run that starts from the beginning has recorded all five itself |
| ProvisioningRuns.SucceededAuditIsComplete | apps/backend/src/modules/tenants/provisioning.service.ts:1061-1126 | an audit row that says succeeded lists all blocking steps and the activation as succeeded, whatever the e-mail did |
| ProvisioningCleanup.HandlerResult | apps/backend/src/modules/tenants/provisioning.service.ts:364-393 | each compensation action is attempted whatever the others did, the schema only if recorded, the tenant fails only if all worked, and status and audit say which |
| ProvisioningRetries.FailedRunCleansUp | apps/backend/src/modules/tenants/provisioning.service.ts:906-974 | after any job runs, each crashed, timed out or failed anywhere, a run whose compensation works leaves no live token, no admin, no role, no schema, and tenant and attempt failed |
| ProvisioningRetries.RetriesEndClean | apps/backend/src/modules/tenants/provisioning.service.ts:162-221 | every later retry, run to its end or timed out, ends in the same clean state |
| ProvisioningRetries.SchemaSurvivesIff | apps/backend/src/modules/tenants/provisioning.service.ts:405-453 | after clean compensation the schema is left exactly when it existed while its record was lost or said failed |
| ProvisioningRetries.SchemaFailureIsCleanedUp | apps/backend/src/modules/tenants/provisioning.service.ts:428-453 | a first run whose schema cannot be created meets every condition of `FailedRunCleansUp`, reaches its handler and ends clean |
| ProvisioningRaces.TimedOutRunEndsCleanIff | apps/backend/src/modules/tenants/provisioning.worker.ts:50-80 | timeout handler and timed-out lifecycle interleaved in any way, the action under way committing at any time: once the handler is over everything is clean if and only if no action committed after the compensation of what it makes and the handler overlooked neither tenant nor schema |
| ProvisioningRaces.TimedOutJobEndsCleanIff | apps/backend/src/modules/tenants/provisioning.service.ts:1267-1286 | the same after any job runs, each crashed, timed out or failed anywhere, for a timer that fires after any number of actions |
| ProvisioningRaces.LateLinkSurvives | apps/backend/src/modules/tenants/provisioning.worker.ts:50-80 | a run that is not clean: the setup link under way when the timer fired is committed after the handler has revoked the others |
| ProvisioningSuccess.EmailNeverMatters | apps/backend/src/modules/tenants/provisioning.service.ts:711-796 | sent or not, recorded or not, the run goes on to activation with the same resources and records |
| ProvisioningSuccess.FirstRunSucceeds | apps/backend/src/modules/tenants/provisioning.service.ts:319-350 | when the blocking actions work the tenant ends active with schema, admin and link, attempt and audit succeeded |
| ProvisioningService.TenantProvisioningService.UpsertStepOutcome | apps/backend/src/modules/tenants/provisioning.service.ts:1526-1542 | the search loop replaces the step's outcome in place or appends it |
| ProvisioningService.TenantProvisioningService.UpdateAttemptSteps | apps/backend/src/modules/tenants/provisioning.service.ts:1468-1524 | a committed write upserts all outcomes unless it would reopen a terminal attempt |
| ProvisioningService.TenantProvisioningService.ClaimAttempt | apps/backend/src/modules/tenants/provisioning.service.ts:1288-1337 | an accepted attempt is taken and marked running, any other is left alone |
| ProvisioningService.TenantProvisioningService.Activation | apps/backend/src/modules/tenants/provisioning.service.ts:811-856 | the guarded update and its record end where the program points end, succeeding only if both worked |
| ProvisioningService.TenantProvisioningService.RunCompensation | apps/backend/src/modules/tenants/provisioning.service.ts:906-1024 | the three sub-steps end where the program points of compensation end |
| ProvisioningService.TenantProvisioningService.HandleProvisioningFailure | apps/backend/src/modules/tenants/provisioning.service.ts:364-393 | the handler refines the program points from reading the outcomes to the audit |
| ProvisioningService.TenantProvisioningService.ProvisionTenantSchema | apps/backend/src/modules/tenants/provisioning.service.ts:319-350 | the try/catch over all steps refines the program points |
| ProvisioningService.TenantProvisioningService.StartLifecycle | apps/backend/src/modules/tenants/provisioning.service.ts:162-285 | the whole job, fresh or resumed, refines the program points from the start; if another run inserts the tenant first, it adopts it or records the failure as they say |
| ProvisioningService.TenantProvisioningService.RecordProvisioningTimeout | apps/backend/src/modules/tenants/provisioning.service.ts:1267-1286 | the timeout handler refines its program points, with and without a tenant |
| ProvisioningService.TenantProvisioningService.FinalizeAudit | apps/backend/src/modules/tenants/provisioning.service.ts:1061-1126 | the audit is written and recorded, or given up without throwing |
| FieldRules.CheckFieldConstraints | apps/backend/src/modules/dynamic-tables/dynamic-tables.service.ts:1011-1052 | the errors are exactly the configured bounds the value breaks |
| FieldRules.ValidateRowPayload | apps/backend/src/modules/dynamic-tables/dynamic-tables.service.ts:928-968 | the collected errors are exactly the broken rules, and there is none exactly when the payload is acceptable |
| FieldRules.PickKnownFields | apps/backend/src/modules/dynamic-tables/dynamic-tables.service.ts:1241-1263 | exactly the payload's fields the table knows survive |
| FieldRules.PatchKeepsValid | apps/backend/src/modules/dynamic-tables/dynamic-tables.service.ts:1198-1229 | a partial payload merged into a valid row gives a valid row if and only if the payload is acceptable on its own |
| FieldRules.ValidRowIff | apps/backend/src/modules/dynamic-tables/dynamic-tables.service.ts:928-1052 | a row is valid if and only if it has a cell for each field and no other, null only where not required, else of the field's type, within its bounds and among its choices |
| RowStore.DynamicRows.CreateRow | apps/backend/src/modules/dynamic-tables/dynamic-tables.service.ts:1073-1094 | inserts the validated known fields as the columns keep them, or answers with the first error, changing nothing |
| RowStore.DynamicRows.UpdateRow | apps/backend/src/modules/dynamic-tables/dynamic-tables.service.ts:1198-1229 | merges the validated known fields as the columns keep them, or rejects: unknown row, invalid, nothing to update, database error, dangling relation |
| RowStore.DynamicRows.DeleteRow | apps/backend/src/modules/dynamic-tables/dynamic-tables.service.ts:1266-1275 | removes the row and clears references to it, or fails if one must not be null |
| RowStore.CreateIsWrittenIff | apps/backend/src/modules/dynamic-tables/dynamic-tables.service.ts:1073-1094 | a row is written if and only if its id is free, the known fields with null for the rest are valid, and what the columns keep is no refused null and names existing rows; then exactly that row is added |
| RowStore.UpdateIsWrittenIff | apps/backend/src/modules/dynamic-tables/dynamic-tables.service.ts:1198-1229 | an update of a valid row is written if and only if its known part is not empty, the row with that part merged in is valid, and what the columns keep is no refused null and names existing rows; then the row is the old one with the kept cells |
| RowStore.DeleteIsWrittenIff | apps/backend/src/modules/dynamic-tables/dynamic-tables.service.ts:1266-1275 | an existing row is deleted if and only if no other row has it in a relation that refuses null; then exactly the relations to it are null and nothing else changes |
| RowStore.DeleteKeepsValidIff | apps/backend/src/modules/dynamic-tables/ddl-worker.ts:82-101 | a delete keeps every row valid exactly when no remaining row loses a required relation |
| RowStore.WriteKeepsValidIff | apps/backend/src/modules/dynamic-tables/dynamic-tables.service.ts:1073-1229 | one accepted write keeps every row valid if and only if the kept values still pass the rules |
| RowStore.RowsStayValidIff | apps/backend/src/modules/dynamic-tables/dynamic-tables.service.ts:1073-1275 | over every sequence of requests under a fixed schema whose required relations are not nullable, every row stays valid if and only if each accepted write, as its columns keep it, still fits the rules |
| RowStore.RowsStayValid | apps/backend/src/modules/dynamic-tables/dynamic-tables.service.ts:1073-1275 | with columns that keep values as given, every sequence of requests keeps every row valid and its columns exactly the known fields |
| RowStore.RoundingBreaksMinimum | apps/backend/src/modules/dynamic-tables/ddl-worker.ts:42-43 | the failing input: 0.001 passes a minimum of 0.001 and is stored as 0.00 by a decimal column without precision and scale |
| RowStore.BoundsSurviveRoundingIff | apps/backend/src/modules/dynamic-tables/ddl-worker.ts:42-43 | a bound holds of every admitted number after rounding if and only if it holds of itself rounded |
| RowStore.ReferencesStayResolved | apps/backend/src/modules/dynamic-tables/dynamic-tables.service.ts:1308-1321 | no sequence of requests leaves a relation pointing at a missing row |
| RelationQuery.BuildRowQuery | apps/backend/src/modules/dynamic-tables/dynamic-tables.service.ts:1350-1410 | the loop builds one join for each relation with a known table, in field order, and groups exactly when a relation has a target |
| RelationQuery.ShapeRelationColumns | apps/backend/src/modules/dynamic-tables/dynamic-tables.service.ts:1441-1462 | every relation column is unwrapped to its first row or null, other columns stay |
| RelationQuery.LeftJoinsAreLookups | apps/backend/src/modules/dynamic-tables/dynamic-tables.service.ts:1377-1398 | any number of joins on keyed tables neither multiplies nor drops a row |
| RelationQuery.QueryIsLookupPerRow | apps/backend/src/modules/dynamic-tables/dynamic-tables.service.ts:1350-1462 | unless it names a table twice and fails, joining, filtering, grouping, aggregating and unwrapping give each selected row once, each relation equal to a lookup by key (null when unset, dangling or of an unknown table) |
| RowPages.ResolveRowListQuery | apps/backend/src/modules/dynamic-tables/dynamic-tables.service.ts:1501-1585 | a query is accepted exactly when page, size, sort field, direction and filters are valid, names that plain objects inherit included, with the defaults and the limit |
| RowPages.ParsePositiveInteger | apps/backend/src/modules/dynamic-tables/dynamic-tables.service.ts:1475-1490 | a missing number gets the default, a positive integer stands, anything else is an error |
| RowPages.OneArrangement | apps/backend/src/modules/dynamic-tables/dynamic-tables.service.ts:1122-1133 | sort value and then id leave the database exactly one order |
| RowPages.PagesPartitionResult | apps/backend/src/modules/dynamic-tables/dynamic-tables.service.ts:1103-1154 | pages 1 to ceil(total / pageSize), each from its own query, list every row that passes the filters as often as it is stored and no other, in one order, and their lengths add up to the total |
| RowPages.ShapedPagesPartitionResult | apps/backend/src/modules/dynamic-tables/dynamic-tables.service.ts:1103-1154 | the same for the joined, grouped and shaped rows that a listing returns: all pages together are the filtered rows in order, each relation equal to a lookup by key |
| RowPages.ListingFollowsQuery | apps/backend/src/modules/dynamic-tables/dynamic-tables.service.ts:1103-1150 | all pages of an accepted query together hold exactly the rows whose cells equal its filter values, ascending or descending by its sort field as it asks, ties and unsorted listings by ascending id |
| RowPages.ShapedListingFollowsQuery | apps/backend/src/modules/dynamic-tables/dynamic-tables.service.ts:1103-1150 | the shaped pages of the joined query are the looked-up rows of one such sorted result |
| RowPages.PageLengths | apps/backend/src/modules/dynamic-tables/dynamic-tables.service.ts:1130-1133 | pages before the last are full, pages after it empty |
| SchemaCaches.ValidationSchemaCache.Read | apps/backend/src/modules/dynamic-tables/dynamic-tables.service.ts:842-853 | a hit returns the entry and makes it the newest, a miss changes nothing |
| SchemaCaches.ValidationSchemaCache.Write | apps/backend/src/modules/dynamic-tables/dynamic-tables.service.ts:861-876 | the loop ends with the newest entries up to the bound, the written one last |
| SchemaCaches.ValidationSchemaCache.Invalidate | apps/backend/src/modules/dynamic-tables/dynamic-tables.service.ts:911-913 | the key is gone and the other entries stay in order |
| SchemaCaches.MaxEntries | apps/backend/src/modules/dynamic-tables/dynamic-tables.service.ts:884-893 | the bound is the floor of the setting, at least one |
| SchemaCaches.LruRefinesRecency | apps/backend/src/modules/dynamic-tables/dynamic-tables.service.ts:842-876 | over every trace the cache is a suffix, without repeated keys, of the unbounded recency list, which holds the last written values |
| SchemaCaches.HitsAreFresh | apps/backend/src/modules/dynamic-tables/dynamic-tables.service.ts:842-913 | a hit returns the last value written for its key since any invalidation |
| SchemaCaches.WriteKeepsNewest | apps/backend/src/modules/dynamic-tables/dynamic-tables.service.ts:861-893 | after a write the bound holds, the key is there, and as many of the newest others as fit |
| Admission.DdlQueue.CountFieldAdditions | apps/backend/src/modules/dynamic-tables/dynamic-tables.service.ts:1844-1849 | counts the add steps of a job |
| Admission.AdditionsCountNames | apps/backend/src/modules/dynamic-tables/dynamic-tables.service.ts:1844-1849 | the count over compiled steps is at least the number of added names, and zero exactly when none is added |
| Admission.DdlQueue.EnqueueCreateTableWithinLimit | apps/backend/src/modules/dynamic-tables/dynamic-tables.service.ts:1739-1777 | a job is enqueued exactly when recorded tables and queued creations are below the limit and its fields within theirs |
| Admission.DdlQueue.EnqueueFieldEditWithinLimit | apps/backend/src/modules/dynamic-tables/dynamic-tables.service.ts:1780-1826 | a job without additions is enqueued, any other only if recorded, queued and own additions fit |
| Admission.CommitKeepsFieldsIff | apps/backend/src/modules/dynamic-tables/dynamic-tables.service.ts:1780-1826 | a commit, first or repeated, of any job keeps the field limit if and only if the names it writes that are neither recorded nor queued fit in the room left |
| Admission.FieldLimitHoldsIff | apps/backend/src/modules/dynamic-tables/dynamic-tables.service.ts:1739-1862 | over every run of admissions, commits, retries and failures the field limit holds throughout if and only if every commit fits |
| Admission.LimitsHoldIffRerunsFit | apps/backend/src/modules/dynamic-tables/dynamic-tables.service.ts:1739-1862 | when `modify` names recorded fields, it holds throughout if and only if every create-table job that commits again finds room for the fields it brings back |
| Admission.TableLimitIsNeverExceeded | apps/backend/src/modules/dynamic-tables/dynamic-tables.service.ts:1739-1777 | over every run, tables recorded or queued stay within the table limit |
| Admission.RerunExceedsFieldLimit | apps/backend/src/modules/dynamic-tables/ddl-worker.ts:155-236 | the failing run: limit 2, a table with two fields, one removed and another added, and the create-table job commits again: three fields |
| Admission.ModificationKeepsLimitIff | apps/backend/src/modules/dynamic-tables/dynamic-tables.service.ts:1780-1790 | a committed modification keeps the limit if and only if its field is counted already or there is room for it |
| Admission.TableRefusedIffOverLimit | apps/backend/src/modules/dynamic-tables/dynamic-tables.service.ts:1751-1771 | unless a committed job still lingers in the queue, a table is refused exactly when it would be one too many |
| Admission.EditRefusedIffOverLimit | apps/backend/src/modules/dynamic-tables/dynamic-tables.service.ts:1780-1826 | unless a name is counted twice, an edit that adds fields is refused exactly when the table's recorded fields, those its own queued jobs add and its own are more than the limit |
| TokenRotation.RotationIsLinear | apps/backend/src/modules/auth/auth.service.ts:146-205 | under every interleaving a token has at most one successor, a login at most one head, and live rows plus rotations in flight never exceed the account's logins |
| TokenRotation.RevokedStaysRevoked | apps/backend/src/modules/auth/auth.service.ts:190-233 | a revoked token is never unrevoked |
| TokenRotation.UndisturbedRefresh | apps/backend/src/modules/auth/auth.service.ts:146-205 | a refresh nothing interleaves with rotates, denies or kills exactly as `Refreshed` says |
| TokenRotation.AuthService.RefreshTokens | apps/backend/src/modules/auth/auth.service.ts:146-205 | the method equals `Refreshed` on every table |
| TokenRotation.AuthService.RevokeWhere | apps/backend/src/modules/auth/sessions.service.ts:134-163 | every live row of the account but the kept one is revoked, and the count is the number of rows changed |
| TokenRotation.AuthService.Claim | apps/backend/src/modules/auth/auth.service.ts:187-196 | wins exactly for an unrevoked row and revokes it |
| TokenRotation.AuthService.IssueRefreshToken | apps/backend/src/modules/auth/auth.service.ts:503-535 | adds one live row of the account |
| TokenRotation.AuthService.LogOut | apps/backend/src/modules/auth/auth.service.ts:212-233 | revokes the caller's own live row, and refuses any other |
| SessionRevocation.RevocationLasts | apps/backend/src/modules/users/account-lifecycle.service.ts:222-233 | until the next login an account never has more live rows than rotations were in flight when it was revoked |
| SessionRevocation.RotationOutlivesRevocation | apps/backend/src/modules/auth/auth.service.ts:187-204 | after a bulk revocation, a rotation that has claimed its token gives the account a live row again if and only if its actor is found active and its successor is stored |
| RevocationCauses.RevokedIff | apps/backend/src/modules/auth/auth.service.ts:146-233 | a live row is revoked by exactly the revocations that cover it, the claim or logout of it, and a kill of its account; nothing else changes a row |
| RevocationCauses.EveryRevocationHasItsCause | apps/backend/src/modules/auth/auth.service.ts:146-233 | over every interleaving, a live token ends only by a revocation that covers it, its owner's logout with it, its owner's timely refresh with it, or the reuse of a revoked token of the same account |
| RevocationCauses.GrantedToItsOwner | apps/backend/src/modules/auth/auth.service.ts:146-205 | over every interleaving, a token is handed only to a login or a verified, timely refresh of its own account |
| ApiClients.ApiClient.RefreshAccessToken | apps/frontend/src/lib/api-client.ts:189-220 | starts a refresh with the stored token only if none is in flight |
| ApiClients.ApiClient.HandleReply | apps/frontend/src/lib/api-client.ts:258-304 | a first 401 joins the refresh, a second ends the session, anything else settles the call |
| ApiClients.ApiClient.HandleRefreshed | apps/frontend/src/lib/api-client.ts:196-218 | a granted pair is stored, the slot is freed and every waiter woken with the result |
| ApiClients.ApiClient.HandleSessionExpired | apps/frontend/src/lib/api-client.ts:227-231 | both tokens are dropped |
| ApiClients.FailedRefreshEndsTheSession | apps/frontend/src/lib/api-client.ts:278-304 | a call that wakes up without a token, because its refresh failed or there was nothing to send, settles as failed and leaves no access and no refresh token |
| ClientSessions.ClientNeverTriggersReuse | apps/frontend/src/lib/api-client.ts:189-220 | one client that gives up on no refresh before the server is done with it, no lost rotation and no revocation but rotation: the kill-switch never fires, at most one refresh is on its way, no call is sent a third time |
| ClientSessions.PresentedTokenIsLive | apps/frontend/src/lib/api-client.ts:189-212 | whenever a stored token is presented the server holds it as a live row |
| ClientSessions.EveryWaiterIsWoken | apps/frontend/src/lib/api-client.ts:189-220 | a settled refresh wakes every waiting call with its result, and the token it stores is live unless a late kill has swept it |
| ClientSessions.SuccessIsAnswered | apps/frontend/src/lib/api-client.ts:258-304 | over every run no call is sent a third time, and a call that ends successfully was answered so by the server |
| ClientSessions.TokensFollowSession | apps/frontend/src/lib/api-client.ts:189-304 | both tokens change only when a refresh or login hands over a pair or the session ends; a failed refresh alone drops neither, a reload only the access token |
| ClientSessions.StoredIsDeadIff | apps/frontend/src/lib/api-client.ts:189-220 | over every run of client and server, requests arriving at any time after they were sent, replies lost, refreshes given up and pages reloaded: the token the client would send is revoked if and only if its rotation was lost, or it was live when a request looked up after the revocation of its own token carried out its kill |
| ClientSessions.NothingDiesWithoutCause | apps/frontend/src/lib/api-client.ts:189-220 | unless a rotation is lost or the client gives up on a refresh before the server has looked it up, no request is looked up too late and no kill runs |
| ClientSessions.LateLookupKillsSuccessor | apps/backend/src/modules/auth/auth.service.ts:146-180 | the run without a lost rotation: a refresh is sent, the page is loaded again, the next refresh rotates the same token, and the first, looked up last, revokes the successor |
| ClientSessions.RevokedIsPresentedIffLost | apps/frontend/src/lib/api-client.ts:189-220 | over every run in which no request is looked up too late, the client sends a revoked token if and only if it sends one whose rotation was lost |
| ClientSessions.DeadTokenTriggersReuse | apps/backend/src/modules/auth/auth.service.ts:146-180 | after every run a genuine refresh that is looked up at once starts the kill if and only if the stored token is dead for one of the two reasons |
| PasswordResets.PasswordResetService.RequestReset | apps/backend/src/modules/auth/password-reset.service.ts:79-139 | a code is issued exactly for an active account outside its cooldown |
| PasswordResets.PasswordResetService.ResetPassword | apps/backend/src/modules/auth/password-reset.service.ts:145-253 | sets the password exactly for an active account with a live, unexpired code whose digits were submitted, and then ends its sessions; other digits change no credential or session and raise the attempts, the third consuming the code |
| PasswordResets.ResetCodesAreOneTime | apps/backend/src/modules/auth/password-reset.service.ts:108-245 | over every interleaving an account has at most one live code, a live code fewer than three recorded wrong attempts, and no code sets a password twice |
| PasswordResets.DigitsDecide | apps/backend/src/modules/auth/password-reset.service.ts:145-245 | over every interleaving, a reset that read a live code sets the password when it writes if and only if its digits were the code's, in time, and the code is still live; other digits change no credential or session and raise the attempts of a code that was not counted since |
| PasswordResets.RedeemedByItsOwnDigits | apps/backend/src/modules/auth/password-reset.service.ts:145-245 | over every interleaving, whatever redeems a code read it earlier in the run, unexpired, with exactly its digits, and sets the password it was submitted with |
| PasswordResets.ForcedPasswordStands | apps/backend/src/modules/users/account-lifecycle.service.ts:149-179 | over every interleaving, once a forced reset has burned the account's codes its password stands, whatever resets had read before, until a new code is stored or it is forced again |
| PasswordResets.NoSecondCodeWithinMinute | apps/backend/src/modules/auth/password-reset.service.ts:79-139 | over every interleaving, for a minute after a code is stored no further request of the account starts sending one |
| PasswordResets.OverlapBudget | apps/backend/src/modules/auth/password-reset.service.ts:177-206 | over every interleaving with at most k requests undecided about a code at a time, at most 3k submissions of other digits are compared with it before it expires |
| PasswordResets.BudgetIsTight | apps/backend/src/modules/auth/password-reset.service.ts:177-206 | k requests at a time do compare 3k submissions of other digits with a fresh code |
| PasswordResets.ThreeAttemptsIffNoOverlap | apps/backend/src/modules/auth/password-reset.service.ts:177-206 | three comparisons are the bound over every interleaving if and only if requests about the code do not overlap |
| PasswordResets.SequentialBudget | apps/backend/src/modules/auth/password-reset.service.ts:177-206 | served one after the other, no code is compared with more than three submissions of other digits |
| Onboarding.IntakeIsIdempotent | apps/backend/src/modules/tenants/tenants.service.ts:542-694 | over every interleaving a key has at most one attempt and one job, and all successful responses for it name that attempt, with the caller's payload and a queued job |
| Onboarding.RetryRepairsEnqueueFailure | apps/backend/src/modules/tenants/tenants.service.ts:745-763 | sending the request again after an enqueue failure names the same attempt and queues it |
| Onboarding.UndisturbedIntake | apps/backend/src/modules/tenants/tenants.service.ts:590-694 | a request nothing interleaves with ends as `Intake` says |
| Onboarding.LostRaceIntake | apps/backend/src/modules/tenants/tenants.service.ts:662-684 | a request that loses its insert and then goes on alone answers as if it had come after the winner, or that the reservation is pending, as its rereads see it |
| Onboarding.AttemptsAreAskedFor | apps/backend/src/modules/tenants/tenants.service.ts:542-694 | over every interleaving, each new attempt was asked for by a valid request of an active actor with exactly its key and payload, for a slug free at the start, and every refusal says what is the case |
| Onboarding.TenantsService.FindByIdempotencyKey | apps/backend/src/modules/tenants/tenants.service.ts:696-719 | finds an attempt exactly when the key is used |
| Onboarding.TenantsService.FindWinningAttempt | apps/backend/src/modules/tenants/tenants.service.ts:721-743 | three reads find the winner exactly when one of them can see it |
| Onboarding.TenantsService.EnqueueAcceptedAttempt | apps/backend/src/modules/tenants/provisioning.service.ts:112-160 | links the attempt to its own job and queues it, or reports the failure with what was done |
| Onboarding.TenantsService.ResolveExistingAttempt | apps/backend/src/modules/tenants/tenants.service.ts:745-763 | a conflict for another payload, a repaired enqueue while accepted, else the replay |
| Onboarding.TenantsService.CreateOnboardingAttempt | apps/backend/src/modules/tenants/tenants.service.ts:542-694 | validation, permission, replay, conflict, taken slug, reservation and enqueue in the source's order; a lost insert rereads and answers for the winner or reports the pending reservation |
| LikeSearch.EscapedIsLiteral | apps/backend/src/modules/tenants/tenants.service.ts:466-468 | an escaped keyword in front of any pattern takes the keyword's own characters and no others, whatever it consists of, and leaves the rest to the pattern |
| LikeSearch.SearchIsLiteral | apps/backend/src/modules/tenants/tenants.service.ts:196-213 | the pattern between wildcards matches a string exactly when the keyword occurs in it, under any folding of characters |

## Left out

- Column defaults, indexes, and the `config` of a field beyond its validation bounds: metadata agreement is about names and types. Nullability after `modify` does not follow `required`, because the shadow column is always nullable.
- Row writes that run while a field-edit job rewrites the same table.
- Isolation inside a transaction: each is one atomic step, as is each admission under its advisory lock. In `ProvisioningRuns` so is each "check abort, then act"; `ProvisioningRaces` lets the action commit any time after its check.
- ProvisioningRetries.FailedRunCleansUp: assumes that the creation of the schema and its record do not come apart; `SchemaSurvivesIff` says what happens when they do. A timed-out lifecycle acts only before its handler starts here; `ProvisioningRaces` interleaves the two.
- ProvisioningRaces.TimedOutRunEndsCleanIff: assumes that the handler's own actions work. It is about tenant, schema, admin and tokens; the status of the attempt is that of its last writer, which a late reset of a resumed run can be.
- ProvisioningRetries.RetriesEndClean: assumes the compensation works in each retry that reaches it; otherwise the attempt is in manual cleanup, see `HandlerResult`.
- The First Admin who redeems the link, or is edited, while the saga of the same tenant still runs: `base` is compared with the member as created.
- Memberships of a First Admin's account in other tenants, which deleting the account would also remove; ids and addresses of the admin are unique to the tenant here.
- Stored outcome lists that are not arrays of outcomes: `normalizeStepOutcomes` would drop the malformed entries. The stored list is taken as well formed.
- The attempt row that disappears during a run, and the message texts, codes and times of outcomes beyond one `detail`.
- The worker's `process` and its timer as code: `Promise.race` is the `Timeout` event of `ProvisioningRuns`, abort first, handler second.
- ProvisioningService.TenantProvisioningService.StartLifecycle: is the run whose signal does not fire; runs that are aborted are steps of `Provisioning.Next`.
- NaN and `undefined` in row payloads: a payload is a JSON value. Payload size, owner column and timestamps of rows.
- RowStore.RowsStayValidIff: what a column keeps of a value is the parameter `keep`; only number columns are spelled out (`DecimalColumns`). Numbers come back from the driver as text; rows are compared as the numbers they denote.
- RowStore.DynamicRows.CreateRow: foreign keys of relation fields are checked against the tables of the model; a relation whose table is unknown is not checked.
- A field named `__proto__`, which a plain object cannot hold as a property, and filters on names no column has, which the database rejects.
- Relation fields on rows of another tenant schema; tables are those of one tenant.
- `listTables`, `getRow` and `getTableDetail`: reads whose paging or lookup is that of the functions modelled.
- The text of SQL, Knex and Prisma calls; JSON column comparison; collations, which are the parameter `compare` (RowPages) or `same` (LikeSearch).
- Access tokens: their expiry shows only as a 401, and a 401 may come at any time. Password hashes, signatures and random generators; the actor lookups of login.
- Failed writes to the browser's storage, two tabs sharing one storage, other devices of the same account, and logout while a refresh runs; with these the client can present a revoked token.
- ClientSessions.ClientNeverTriggersReuse: assumes that no rotation is lost and no refresh is given up early; `StoredIsDeadIff` says exactly what happens otherwise.
- E-mail delivery, audit rows of authentication events and log messages: best-effort effects that no branch depends on, except the e-mail outcome of the saga.
- Permissions, DTO mapping, invite, quota and deletion services, React components.
