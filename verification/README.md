# Verified model of the run-integrity core

A Dafny model of the parts of the Deviation Protocol on which a Run's integrity rests, with proofs of what they
promise. Each module models one mechanism; methods follow the source's own loops, branches and stages against an
environment that may do anything it is not forbidden to, and the lemmas are about every input, every schedule or
every reachable state.

| modules | mechanism |
|---|---|
| Kleene, CheckExpression, CheckMeaning, CheckBetween, CheckCanonical, ShiftCollapse, NormalizeMeaning | the normaliser whose equality the migrations take for "the same CHECK" |
| CheckEvaluation, CheckAtoms, NormalizeSql, UnsafeShifts | what an atom evaluates to, token by token, and when the normaliser keeps it |
| CheckMatrix, CheckRows, RunExclusivity | the CHECK matrices of migrations 0005 and 0008 to 0011 in SQL's three-valued logic, and what they guarantee about the Run table |
| MigrationConnection, NativeMigration, PatrolMigration | named lock, DDL statement by statement, disposal and restoration |
| FogHistory, FogTampering, FogEngine | the verifier of a sealed event stream, and the streams an append-only engine produces |
| FogContinuation, FogContinuationRuns, FogResults, FogSourceChanges | the exactly-once continuation, its recovery, and what may change under it |
| EffectExecutor | all-or-nothing effects and their event log |
| JsonPointer, JsonPlaces, OpenApiReferences, OpenApiInstallers | reference closure and atomic publication of the OpenAPI document |
| Shutdown, ShutdownHistory | shared close task and cancellation balance |
| JourneySchemas, RunJourney | the journey contract of server and client, and navigation along it |
| ForegroundProtocol, ForegroundRuns, ForegroundAttendance, ForegroundSends | the client's foreground operation and its frozen, retried mutation |

## What the proofs found

Some promises hold only under a condition. The code is modelled as it is; the condition is stated exactly.

- The shift collapse raises IndexError on some unbalanced lists: `ShiftCollapse.IndexErrorIff` names the whole
  family. Balanced lists are safe.
- The collapse drops the parentheses of `( x - 1 )` whatever stands around them (`NormalizeMeaning.ContextIgnored`).
  The equality test is sound, on every row and under every dialect, for conditions in which each shift is of a column
  and stands as a term of its own: behind the start of an expression or a joining sign, with an even number of minus
  signs in between, and with no factor behind it (`NormalizeSql.EqualFormsAgree`). Elsewhere it identifies conditions
  that differ (`UnsafeShifts.UnsafePairs`), such as `a * ( x - 1 ) = b` and `a * x - 1 = b`, also if a unary plus stands
  before the group.
- Between the two visit ALTERs of 0010 the schema admits first and second visits materialised at version 5, which the
  finished upgrade rejects (`CheckMatrix.VisitWindow`).
- The base ATTACH and BIND kinds do not make an active binding exclusive: a NULL active column turns the comparison
  into UNKNOWN, which a CHECK accepts (`RunExclusivity.BaseMatrixGap`). For the same reason a bound row may leave its
  binding state NULL (`RunExclusivity.BindingRows`).
- Migration 0013 disposes of the connection on a lock timeout as well; 0008 to 0011 keep it, since the lock was never
  held. Migration 0008 inspects no schema and does not dispose of the connection after a failed ALTER.
- The OpenAPI walk accepts array indices with leading zeros (`JsonPointer.LaxIndexIff`).
- If the close task is cancelled before its first step no resource is closed, then or later
  (`Shutdown.KilledIff`, `Shutdown.KilledForGood`).
- A source whose event stream grows by a note between a client's read and its lock is still continued, and the longer
  stream is sealed; only its state and version are compared (`FogSourceChanges.WritesIff`).
- Server and client disagree on exactly the journeys named by `JourneySchemas.ContractsAgree`: the server also accepts
  numbers above 2^53 - 1 and a materialised fog Run that names another entry world version; the client also accepts an
  unpublished entry world, or an unpublished version of it before the first continuation, and any notice in a first
  continuation offer.
- Navigating through the third visit and back, the client no longer notices a changed first visit, whatever it has
  become (`RunJourney.FirstVisitForgotten`).
- A tainted legacy attempt (character creation or Run entry) is still dropped by a documented refusal other than a
  missing character (`ForegroundRuns.TaintedEndsIff`). Abandoning a session, a failing storage and a recovery that
  takes over leave an attempt that is in flight with nothing to settle it (`ForegroundAttendance.StrandedIff`).

## Model

| member | source | states |
|---|---|---|
| `CheckExpression.ScanToZero` | alembic/versions/20260922_0013_fog_patrol.py:130-135 | the scan for the matching parenthesis stops at the first return to depth zero, or at the last token if there is none |
| `CheckExpression.ParseGroups` | alembic/versions/20260922_0013_fog_patrol.py:137-147 | one pass of the separator loop, with its depth, `BETWEEN` flag and `start`, parses exactly the groups between the separators at depth zero |
| `CheckExpression.Parse` | alembic/versions/20260922_0013_fog_patrol.py:129-154 | the recursive parser terminates on every token list, balanced or not, and computes the specification the lemmas below are about |
| `CheckMeaning.ParseRender` | alembic/versions/20260922_0013_fog_patrol.py:129-154 | for every condition over AND, OR, BETWEEN atoms and arbitrary redundant parentheses, the parser returns the flattened tree of the OR-below-AND reading |
| `CheckMeaning.NormalValue` | alembic/versions/20260922_0013_fog_patrol.py:146-153 | that tree has the condition's three-valued truth value under every valuation of the atoms |
| `CheckMeaning.EqualTreesAgree` | alembic/versions/20260922_0013_fog_patrol.py:157-163 | conditions the migrations find equal agree on every row, UNKNOWN included |
| `CheckBetween.BetweenIsAtom` | alembic/versions/20260922_0013_fog_patrol.py:138-147 | stated without the parser's flag: for all non-empty balanced operands without OR, AND or BETWEEN at depth zero, `v BETWEEN lo AND hi` is one atom |
| `CheckBetween.BetweenParses` | alembic/versions/20260922_0013_fog_patrol.py:129-154 | and is parsed as one |
| `CheckBetween.BetweenThenAnd` | alembic/versions/20260922_0013_fog_patrol.py:138-153 | `v BETWEEN lo AND hi AND e` is the AND of that atom and of the operands of `e` |
| `CheckBetween.AndThenBetween` | alembic/versions/20260922_0013_fog_patrol.py:138-153 | likewise with the BETWEEN as the last conjunct |
| `CheckBetween.BetweenThenOr` | alembic/versions/20260922_0013_fog_patrol.py:138-153 | `v BETWEEN lo AND hi OR e` is the OR of that atom and of the operands of `e` |
| `CheckBetween.BetweenAndAtom` | alembic/versions/20260729_0005_minimum_run_core.py:136-139 | the shape of the mutation matrix, `state_version BETWEEN 2 AND n AND prior = s`: an AND of exactly two atoms |
| `CheckCanonical.NormalCanonical` | alembic/versions/20260920_0011_native_run_completion.py:196-203 | no operator of a tree has an operand with the same operator, and every operator has at least two operands |
| `CheckCanonical.PrintParse` | alembic/versions/20260920_0011_native_run_completion.py:179-204 | round trip: parsing the fully parenthesised print of any such tree gives the tree back |
| `CheckCanonical.SameTreeIffRegrouped` | alembic/versions/20260920_0011_native_run_completion.py:165-204 | two conditions have the same tree if and only if one turns into the other by adding or dropping redundant parentheses and reassociating AND and OR |
| `ShiftCollapse.Collapse` | alembic/versions/20260922_0013_fog_patrol.py:125-128 | the in-place right-to-left pass over the shrinking list, index error included, is the specified pass from the right |
| `ShiftCollapse.FiveTokens` | alembic/versions/20260922_0013_fog_patrol.py:125-128 | of five tokens exactly `(`, an identifier or keyword, a sign of either kind, digits, `)` lose the parentheses |
| `ShiftCollapse.IndexErrorIff` | alembic/versions/20260922_0013_fog_patrol.py:125-128 | the pass raises IndexError exactly on lists that end in a shift inside k or more opening and only k closing parentheses, k at least 1 |
| `ShiftCollapse.BalancedNoError` | alembic/versions/20260922_0013_fog_patrol.py:125-128 | on a balanced list it never reads past the end |
| `ShiftCollapse.PassLeavesNoShift` | alembic/versions/20260922_0013_fog_patrol.py:125-128 | one pass leaves no parenthesised shift |
| `ShiftCollapse.PassIdempotent` | alembic/versions/20260922_0013_fog_patrol.py:125-128 | a second pass changes nothing |
| `NormalizeMeaning.NormalizeTokens` | alembic/versions/20260922_0013_fog_patrol.py:115-154 | collapse, then parse |
| `NormalizeMeaning.PassInSql` | alembic/versions/20260922_0013_fog_patrol.py:125-128 | on a condition whose shifts are safe the pass yields another well-formed condition, of the same value under every valuation that ignores the parentheses of safe shifts |
| `NormalizeMeaning.NormalizeMeaning` | alembic/versions/20260922_0013_fog_patrol.py:115-154 | on such a condition, under such a valuation, the whole normaliser succeeds and keeps the three-valued truth value |
| `NormalizeMeaning.EqualNormalForms` | alembic/versions/20260922_0013_fog_patrol.py:157-163 | equal normal forms of such conditions have equal values under such valuations |
| `NormalizeMeaning.ContextIgnored` | alembic/versions/20260922_0013_fog_patrol.py:125-128 | whatever stands before and behind a shift, the normaliser treats the list as if the parentheses were not there |
| `CheckAtoms.PriorAtom` | alembic/versions/20260920_0011_native_run_completion.py:17 | the token-level evaluation reads `p = s - n` as the CHECK matrices mean it, NULL included |
| `CheckAtoms.BetweenAtom` | alembic/versions/20260920_0011_native_run_completion.py:17 | likewise `v BETWEEN lo AND hi` |
| `CheckAtoms.IsNullAtom` | alembic/versions/20260920_0011_native_run_completion.py:17 | likewise `c IS NULL` |
| `CheckAtoms.IsNotNullAtom` | alembic/versions/20260920_0011_native_run_completion.py:17 | likewise `c IS NOT NULL` |
| `NormalizeSql.EvaluateDropped` | alembic/versions/20260922_0013_fog_patrol.py:125-128 | every dialect's evaluation of every row ignores the parentheses of a safe shift |
| `NormalizeSql.SqlRespects` | alembic/versions/20260922_0013_fog_patrol.py:125-128 | so every such evaluation is a valuation the normaliser lemmas speak of |
| `NormalizeSql.NormalizeKeepsRows` | alembic/versions/20260922_0013_fog_patrol.py:115-154 | on a condition whose shifts are safe the normaliser keeps the truth value of every row |
| `NormalizeSql.EqualFormsAgree` | alembic/versions/20260922_0013_fog_patrol.py:157-163 | the migrations' equality test: conditions with safe shifts and equal normal forms agree on every row |
| `UnsafeShifts.GuardIff` | alembic/versions/20260922_0013_fog_patrol.py:125-128 | among contexts of any number of signs, a factor in front, and a term or factor behind, the guard allows exactly an even number of minus signs and no factor |
| `UnsafeShifts.ContextIff` | alembic/versions/20260922_0013_fog_patrol.py:125-128 | dropping the parentheses keeps the value of the comparison on every row of numbers exactly in those contexts, or where nothing is shifted and no factor follows |
| `UnsafeShifts.UnsafePairs` | alembic/versions/20260922_0013_fog_patrol.py:157-163 | in every other context: two conditions with equal normal forms and a row on which one is true and the other false |
| `CheckMatrix.NativeBranchTwoValued` | alembic/versions/20260920_0011_native_run_completion.py:17 | no native branch of a mutation matrix is ever UNKNOWN |
| `CheckMatrix.Weakened` | alembic/versions/20260918_0010_native_regional_revisit.py:16 | constraint by constraint: the new definition accepts what the old one accepts, the visit ordinal given the old visit versions |
| `CheckMatrix.Unprobed` | alembic/versions/20260918_0010_native_regional_revisit.py:24 | constraint by constraint: a row no probe matches keeps the old definition |
| `CheckMatrix.UpgradeKeepsRowsLegal` | alembic/versions/20260918_0010_native_regional_revisit.py:16 | 0008 to 0011: a row that satisfies all old CHECKs satisfies the mixture after every prefix of the ALTERs |
| `CheckMatrix.DowngradeKeepsRowsLegal` | alembic/versions/20260918_0010_native_regional_revisit.py:24 | a row that satisfies the new CHECKs and that no downgrade probe matches satisfies the mixture at every point of the way back |
| `CheckMatrix.OrdinalNeedsVersions` | alembic/versions/20260918_0010_native_regional_revisit.py:16 | the new visit ordinal check is weaker than the old one only together with the old visit version check |
| `CheckMatrix.VisitWindow` | alembic/versions/20260918_0010_native_regional_revisit.py:255-263 | exactly which visits are admitted between the two visit ALTERs of 0010 and rejected after them |
| `CheckRows.MutationRows` | alembic/versions/20260920_0011_native_run_completion.py:17 | the rows of each revision's mutation matrix, value by value: kind, prior version, version, lifecycle and binding |
| `CheckRows.ReceiptRows` | alembic/versions/20260920_0011_native_run_completion.py:17 | the receipts each revision accepts: the kinds known so far, filed under their names, with their versions and present columns |
| `CheckRows.Namespaces` | alembic/versions/20260920_0011_native_run_completion.py:17 | the operation namespace of each kind |
| `CheckRows.ResultSchemas` | alembic/versions/20260920_0011_native_run_completion.py:17 | the result schema of each kind |
| `CheckRows.VisitRows` | alembic/versions/20260918_0010_native_regional_revisit.py:16 | the visits before and after 0010 |
| `CheckRows.PositionRows` | alembic/versions/20260918_0010_native_regional_revisit.py:16 | the positions before and after 0010 |
| `CheckRows.ProbedRuns` | alembic/versions/20260920_0011_native_run_completion.py:20 | which accepted rows a downgrade's probe finds: every native row of its own migration, no other native row, and the base rows named by version and lifecycle |
| `CheckRows.ProbedReceipts` | alembic/versions/20260920_0011_native_run_completion.py:20 | the same for receipts, although their probes also look at names |
| `CheckRows.ProbedVisits` | alembic/versions/20260918_0010_native_regional_revisit.py:24 | the downgrade of 0010 finds exactly the third visits and the positions on them |
| `RunExclusivity.NativeRows` | alembic/versions/20260920_0011_native_run_completion.py:17 | an accepted native row in an active kind holds its bound character active; in a terminal kind it holds none |
| `RunExclusivity.OnlyItsBranch` | alembic/versions/20260920_0011_native_run_completion.py:17 | a row of a native kind is accepted by its own branch alone |
| `RunExclusivity.AcceptedAlways` | alembic/versions/20260729_0005_minimum_run_core.py:261-264 | a table the server has accepted stays accepted under every sequence of writes |
| `RunExclusivity.ExclusiveAlways` | alembic/versions/20260729_0005_minimum_run_core.py:172-212 | after every sequence of writes, refused ones included, no two current continued or revisited Runs share a bound character, and native terminal rows hold no active character |
| `RunExclusivity.SharedBindingIffNull` | alembic/versions/20260729_0005_minimum_run_core.py:172-212 | in any table that accepts each of two rows without the other, two rows bound to one character are accepted together exactly when one of them leaves the active column NULL |
| `RunExclusivity.BaseMatrixGap` | alembic/versions/20260729_0005_minimum_run_core.py:172-212 | such a pair exists under the base ATTACH kind, because the comparison is UNKNOWN |
| `RunExclusivity.BindingRows` | alembic/versions/20260729_0005_minimum_run_core.py:172-199 | what the binding CHECK amounts to: in bound rows a NULL state passes, and so does a NULL active column |
| `RunExclusivity.LifecycleRows` | alembic/versions/20260729_0005_minimum_run_core.py:203-212 | an ended Run has no active binding, a running one no historical one; NULL passes in both |
| `MigrationConnection.Connection.Run` | alembic/versions/20260920_0011_native_run_completion.py:267 | any other statement may raise, lose the session or invalidate the wrapper; it never makes the session the lock owner |
| `MigrationConnection.Connection.GetLock` | alembic/versions/20260920_0011_native_run_completion.py:271 | after any reply but 0, or an exception, the session may own the lock |
| `MigrationConnection.Connection.ReleaseLock` | alembic/versions/20260920_0011_native_run_completion.py:341 | after the reply 1 the session does not own the lock |
| `MigrationConnection.Connection.Capture` | alembic/versions/20260920_0011_native_run_completion.py:122-130 | both handles are kept unless the connection is already gone or a capture raises |
| `MigrationConnection.Connection.Isolate` | alembic/versions/20260920_0011_native_run_completion.py:134-159 | detach, driver close and proxy invalidation are each tried whatever the others did |
| `MigrationConnection.Connection.Discard` | alembic/versions/20260920_0011_native_run_completion.py:115-163 | disposal never raises, keeps the lock owner out of circulation unless every isolating step that could be tried failed, and never undoes a quarantine |
| `NativeMigration.PlanEnds` | alembic/versions/20260918_0009_native_world_continuation.py:237-264 | every migration's plan, in its own order, replaces each of its constraints whatever was replaced before |
| `NativeMigration.PlanWritten` | alembic/versions/20260918_0010_native_regional_revisit.py:246-272 | every statement of every migration, upwards and downwards, in its order |
| `NativeMigration.PlanTables` | alembic/versions/20260918_0009_native_world_continuation.py:237-264 | an upgrade creates exactly the migration's own tables and a downgrade drops exactly those |
| `NativeMigration.TablesAround` | alembic/versions/20260918_0009_native_world_continuation.py:237-264 | in 0009 every table is created before any constraint changes, and dropped after all of them |
| `NativeMigration.DowngradeIsBackwards` | alembic/versions/20260918_0010_native_regional_revisit.py:246-272 | from 0010 on the downgrade is the upgrade backwards, each CREATE taken back by a DROP |
| `NativeMigration.ProbedEnough` | alembic/versions/20260918_0010_native_regional_revisit.py:237-243 | a row that needs a probe is in a table the downgrade probes |
| `NativeMigration.RowStaysLegal` | alembic/versions/20260918_0009_native_world_continuation.py:246-255 | a row legal at the start, and unprobed on a downgrade, is legal whatever subset of the constraints has been replaced, so the unreversed order of 0008 and 0009 is safe too |
| `NativeMigration.MixtureStaysLegal` | alembic/versions/20260917_0008_native_run_exit.py:129-146 | outside 0010 the same from any mixture of old and new definitions, which is all that 0008, without an inspection, can rely on |
| `NativeMigration.Migration.TryAcquire` | alembic/versions/20260920_0011_native_run_completion.py:262-280 | the guarded acquisition up to its first error; it succeeds only with the reply 1 |
| `NativeMigration.Migration.Acquire` | alembic/versions/20260920_0011_native_run_completion.py:259-292 | only a timeout leaves the connection alone; every other failure disposes of it |
| `NativeMigration.Migration.Alter` | alembic/versions/20260920_0011_native_run_completion.py:316 | a DDL statement commits by itself: it may have taken effect even if the call raises |
| `NativeMigration.Migration.RunProbe` | alembic/versions/20260920_0011_native_run_completion.py:306 | a probe that returns finds a row exactly if one of its table matches |
| `NativeMigration.Migration.Preflight` | alembic/versions/20260920_0011_native_run_completion.py:206-257 | returns only if every constraint has its expected definition and the migration's own tables are all there or all missing |
| `NativeMigration.Migration.Probes` | alembic/versions/20260920_0011_native_run_completion.py:301-310 | the guard lets a downgrade go on only if no row matches a probe |
| `NativeMigration.Migration.RunPlan` | alembic/versions/20260918_0010_native_regional_revisit.py:246-272 | `completed` is a prefix of the plan, and the server has applied that prefix or one statement more, constraints and tables alike |
| `NativeMigration.Migration.TryBody` | alembic/versions/20260920_0011_native_run_completion.py:299-322 | before the first DDL nothing has changed; after it the plan has begun from the expected schema |
| `NativeMigration.Migration.Body` | alembic/versions/20260920_0011_native_run_completion.py:299-322 | without an exception the plan is applied, all constraints and tables are the target's; otherwise nothing or a prefix; legal rows stay legal |
| `NativeMigration.Migration.Release` | alembic/versions/20260920_0011_native_run_completion.py:336-356 | only the reply 1 counts as a release |
| `NativeMigration.Migration.Settle` | alembic/versions/20260920_0011_native_run_completion.py:323-365 | the error raised is reported, unless it is an ordinary one that came with the loss of the connection; the cleanup error is missing exactly after the reply 1; every exit released with that reply or disposed of the connection |
| `NativeMigration.Migration.Amend` | alembic/versions/20260920_0011_native_run_completion.py:259-365 | against every behaviour of server and driver, for 0008 to 0011: no DDL without the lock, lock safety at every exit, the target's constraints and tables at the end, the DDL prefix at every failure, and legal rows stay legal |
| `NativeMigration.Migration.RowsStayLegal` | alembic/versions/20260920_0011_native_run_completion.py:311-319 | the data clause of the migration, at whatever point it stopped |
| `PatrolMigration.WeakenedAndProbedExactly` | alembic/versions/20260922_0013_fog_patrol.py:17-30 | the new patrol CHECKs only weaken, and the downgrade's probe finds exactly the rows the old ones reject |
| `PatrolMigration.AcceptedRows` | alembic/versions/20260922_0013_fog_patrol.py:17-30 | the rows the old and the new patrol CHECKs accept, by schema and version |
| `PatrolMigration.Patrol.Check` | alembic/versions/20260922_0013_fog_patrol.py:157-168 | returns only if every CHECK matches |
| `PatrolMigration.Patrol.Alter` | alembic/versions/20260922_0013_fog_patrol.py:171-176 | one table's CHECKs change together or not at all, even if the call raises |
| `PatrolMigration.Patrol.Change` | alembic/versions/20260922_0013_fog_patrol.py:179-197 | returns normally only when every CHECK is the new one; a failure without a restoration error leaves every CHECK as it was |
| `PatrolMigration.Patrol.Restore` | alembic/versions/20260922_0013_fog_patrol.py:191-196 | takes back exactly the completed tables and returns only if all of them match again |
| `PatrolMigration.Patrol.Enter` | alembic/versions/20260922_0013_fog_patrol.py:39-45 | every failure to enter disposes of the connection, a timeout included |
| `PatrolMigration.Patrol.Leave` | alembic/versions/20260922_0013_fog_patrol.py:52-62 | only the reply 1 counts as a release; anything else disposes |
| `PatrolMigration.Patrol.Upgrade` | alembic/versions/20260922_0013_fog_patrol.py:200-202 | lock safety, restoration and legal rows together |
| `PatrolMigration.Patrol.RowsStayLegal` | alembic/versions/20260922_0013_fog_patrol.py:179-197 | whatever a change did, legal rows stay legal |
| `PatrolMigration.Patrol.CountEvidence` | alembic/versions/20260922_0013_fog_patrol.py:208-212 | a count that returns is positive exactly if the table holds patrol evidence |
| `PatrolMigration.Patrol.Guard` | alembic/versions/20260922_0013_fog_patrol.py:205-212 | a downgrade goes on only without patrol evidence |
| `PatrolMigration.Patrol.Downgrade` | alembic/versions/20260922_0013_fog_patrol.py:205-213 | with evidence present nothing changes; otherwise as for the upgrade |
| `FogHistory.CheckIdentity` | src/deviation_protocol/application/fog_history.py:26-37 | one pass over the stream accepts exactly well-typed events numbered 1..n with distinct ids |
| `FogHistory.Select` | src/deviation_protocol/application/fog_history.py:38-42 | the events of one type, in order |
| `FogHistory.VerifyDecisions` | src/deviation_protocol/application/fog_history.py:45-61 | the decision loop accepts exactly agreement with the runtime, and the applied set |
| `FogHistory.VerifyHistory` | src/deviation_protocol/application/fog_history.py:12-75 | returns the path's codes exactly for accepted streams |
| `FogHistory.AcceptedStream` | src/deviation_protocol/application/fog_history.py:26-41 | acceptance, read off the records: sequence numbers are 1..n, event ids are distinct, each record names its session, and the only opening event is the first, with the authored payload |
| `FogHistory.AcceptedDecisions` | src/deviation_protocol/application/fog_history.py:42-61 | acceptance, stated by places in the stream, for a policy that returns one code per decision: the decision events are the runtime's decisions, one to one and in order, and their scenario event ids are distinct and exactly the applied ones |
| `FogHistory.AppliedExactly` | src/deviation_protocol/application/fog_history.py:45-61 | the scenario event ids of the decision events are pairwise different and are the applied set |
| `FogHistory.RemovalIsDetected` | src/deviation_protocol/application/fog_history.py:36-44 | removing one event is accepted if and only if it is a trailing event that is not a decision |
| `FogTampering.DecisionRead` | src/deviation_protocol/application/fog_history.py:45-61 | in an accepted stream the j-th decision event names the j-th decision of the runtime, the outcome recorded for it, an action of the bundle with that decision and type, and the two literal texts |
| `FogTampering.TamperedDecision` | src/deviation_protocol/application/fog_history.py:45-61 | changing any one of the six members of a decision event of an accepted stream makes it rejected |
| `FogTampering.MisshapenRejected` | src/deviation_protocol/application/fog_history.py:26-37 | a stream with a record of another session, place or shape, or with another event's id, is rejected |
| `FogTampering.AcceptedSeal` | src/deviation_protocol/application/fog_history.py:19-73 | what acceptance fixes besides: the authored content and its hash, the authored endings, the opening's payload, and one memory record that points at the last decision event, behind which no other stands |
| `FogEngine.RunConsistent` | src/deviation_protocol/application/fog_history.py:36-61 | what every step of an append-only decision engine keeps |
| `FogEngine.EngineStreamsAccepted` | src/deviation_protocol/application/fog_history.py:12-75 | completeness: every stream such an engine produces is accepted once sealed |
| `FogContinuation.WrittenReclassifies` | src/deviation_protocol/application/fog_continuation_service.py:134-180 | the written rows form a complete continued family, so the re-read before the commit cannot disagree |
| `FogContinuation.UnitOfWork.AddSession` | src/deviation_protocol/application/fog_continuation_service.py:134 | the destination session is staged, or the section fails |
| `FogContinuation.UnitOfWork.CompareAndSwapCurrent` | src/deviation_protocol/application/fog_continuation_service.py:169-170 | the swap succeeds exactly on the expected version |
| `FogContinuation.UnitOfWork.Commit` | src/deviation_protocol/application/fog_continuation_service.py:182-183 | a commit publishes all or nothing; if it raises, either |
| `FogContinuation.ContinueLocked` | src/deviation_protocol/application/fog_continuation_service.py:110-193 | the locked section, write by write, does what the specification admits, answers with the source, its version, the prepared session and its second visit, and reports an unknown outcome only for an issued commit |
| `FogResults.WrittenNames` | src/deviation_protocol/application/fog_continuation_service.py:36-53 | the answer to a written continuation: the source session, its version under the lock, the prepared session, and its second visit |
| `FogResults.ReplayNames` | src/deviation_protocol/application/fog_continuation_service.py:117-124 | every replay, whatever lies between, names the same four, and only for the identical request |
| `FogResults.WrittenRows` | src/deviation_protocol/application/fog_continuation_service.py:134-180 | every row a continuation adds, in terms of its request, its source and its prepared destination |
| `FogResults.WholeRead` | src/deviation_protocol/application/fog_continuation_service.py:117-124 | a whole continuation read off the rows: evidence, root, entry, visits, position and receipt name the same handoff |
| `FogResults.ContinuedAnswers` | src/deviation_protocol/application/fog_continuation_service.py:117-128 | what a continued Run answers: the identical request is replayed, the same key with another request is a conflict, another key comes too late |
| `FogContinuationRuns.LockedAllOrNothing` | src/deviation_protocol/application/fog_continuation_service.py:110-184 | a locked section changes nothing or turns nothing into a whole continuation |
| `FogContinuationRuns.StepAllOrNothing` | src/deviation_protocol/application/fog_continuation_service.py:78-184 | every step of the world keeps: nothing of a continuation, or all of one, unchanged |
| `FogContinuationRuns.ExactlyOnce` | src/deviation_protocol/application/fog_continuation_service.py:78-184 | in every interleaving with other clients and services the continuation's rows are all there or none is, and a Run continues at most once |
| `FogContinuationRuns.SecondAttemptWritesNothing` | src/deviation_protocol/application/fog_continuation_service.py:117-132 | after one attempt has written, no later attempt writes |
| `FogContinuationRuns.ReplayAnswers` | src/deviation_protocol/application/fog_continuation_service.py:117-124 | after a commit the identical command gets the same result, the same key with another request a conflict, and nothing is written |
| `FogContinuationRuns.ReplaySurvivesExit` | src/deviation_protocol/application/fog_continuation_service.py:117-124 | also after the Run has been terminated |
| `FogContinuationRuns.UnknownOutcomeIsRecoverable` | src/deviation_protocol/application/fog_continuation_service.py:182-193 | after an outcome-unknown commit and any further events, retrying never yields a second continuation, and answers with the first result if the commit took effect |
| `FogSourceChanges.WritesIff` | src/deviation_protocol/application/fog_continuation_service.py:95-132 | whatever happened between a client's read and its lock, the section writes if and only if the source still has the state that was read, the expected version and a stream that verifies, and nobody else is in the way |
| `FogSourceChanges.ChangedSourceWritesNothing` | src/deviation_protocol/application/fog_continuation_service.py:127-132 | a source whose state or version changed in between causes no write |
| `FogSourceChanges.UnpreparedWritesNothing` | src/deviation_protocol/application/fog_continuation_service.py:131-132 | a client that found the Run not eligible never writes |
| `FogSourceChanges.NoteAccepted` | src/deviation_protocol/application/fog_history.py:36-61 | a note behind an accepted stream leaves it accepted |
| `FogSourceChanges.AppendedNoteStillWrites` | src/deviation_protocol/application/fog_continuation_service.py:131-133 | the one change of the source that is let through: a note appended to its stream |
| `FogSourceChanges.AppendedNoteIsSealed` | src/deviation_protocol/application/fog_continuation_service.py:133-142 | and then the longer stream is what is sealed |
| `FogContinuationRuns.UndisturbedClientContinues` | src/deviation_protocol/application/fog_continuation_service.py:78-184 | an undisturbed client with an eligible Run does continue it |
| `EffectExecutor.GameState.ApplyAttribute` | src/deviation_protocol/application/effect_executor.py:165-188 | one attribute update in place, or a violation and no change |
| `EffectExecutor.GameState.ApplyResource` | src/deviation_protocol/application/effect_executor.py:190-221 | one resource update in place, or a violation and no change |
| `EffectExecutor.ExecuteDefinitions` | src/deviation_protocol/application/effect_executor.py:86-147 | works on a detached copy: the state passed in never changes, and a refusal carries no state, events or facts |
| `EffectExecutor.ExecuteIds` | src/deviation_protocol/application/effect_executor.py:56-84 | ids resolve first; one unknown id fails everything |
| `EffectExecutor.Sequential` | src/deviation_protocol/application/effect_executor.py:108-147 | executing two lists after one another is executing their concatenation |
| `EffectExecutor.PrefixFailure` | src/deviation_protocol/application/effect_executor.py:108-139 | a failing prefix fails the whole list with the same code |
| `EffectExecutor.KeepsRest` | src/deviation_protocol/application/effect_executor.py:135 | effects leave everything the final validation looks at alone |
| `EffectExecutor.LogReplays` | src/deviation_protocol/application/effect_executor.py:165-221 | replaying the `after` values over the input gives the updated state, and each `before` is what the log so far left |
| `EffectExecutor.LogIsLawful` | src/deviation_protocol/application/effect_executor.py:174-188 | each fact states the `after` of its event, and every change is within range and of the logged amount |
| `EffectExecutor.LogIsExact` | src/deviation_protocol/domain/state.py:1191-1240 | every event says exactly what the effect at its place does: an attribute is scaled in basis points, rounded down, and the flat delta is added unscaled; a resource moves by its delta and stops at its maximum |
| `EffectExecutor.AppliedIff` | src/deviation_protocol/application/effect_executor.py:108-139 | an effect is applied exactly if it is trusted, its target exists and the result is in range |
| `EffectExecutor.UnloggedUnchanged` | src/deviation_protocol/application/effect_executor.py:187-221 | nothing outside the log changes |
| `JsonPointer.DecodeEncode` | src/deviation_protocol/api/main.py:501-505 | decoding inverts the escaping of section 3 of RFC 6901 for every string |
| `JsonPointer.ReversedOrderIff` | src/deviation_protocol/api/main.py:501-505 | the replacements in the other order are right exactly for strings without "~1", which is why section 4 of RFC 6901 fixes the order |
| `JsonPointer.PointerResolves` | src/deviation_protocol/api/main.py:500-518 | the escaped pointer of any path of members resolves to what the path leads to |
| `JsonPointer.LaxIndexIff` | src/deviation_protocol/api/main.py:506-518 | array indices are read more laxly than section 4 of RFC 6901 exactly for in-range indices with leading zeros |
| `JsonPlaces.ToNatDecimal` | src/deviation_protocol/api/main.py:505-515 | decimal numerals are read as the numbers they write |
| `JsonPlaces.PlaceResolves` | src/deviation_protocol/api/main.py:500-518 | in a document whose objects have no key twice, every place has a reference, of member names and decimal positions, that resolves to what is there |
| `JsonPlaces.ResolvedIsPart` | src/deviation_protocol/api/main.py:500-518 | what a reference resolves to is a part of the document, as many levels down as the reference has tokens |
| `OpenApiReferences.FollowReference` | src/deviation_protocol/api/main.py:500-518 | the token loop finds exactly what the pointer resolves to |
| `OpenApiReferences.VisitMembers` | src/deviation_protocol/api/main.py:486-518 | one object of the walk: references followed, the rest pushed |
| `OpenApiReferences.CheckReferences` | src/deviation_protocol/api/main.py:483-520 | the worklist terminates on every document and succeeds exactly when all references hold |
| `OpenApiReferences.ClosedIff` | src/deviation_protocol/api/main.py:483-520 | not descending into a "$ref" loses nothing: acceptance means that every "$ref" at every place of the document holds |
| `OpenApiInstallers.MergeFinds` | src/deviation_protocol/api/main.py:460-481 | each generated definition is found under its own pointer, so the check after the insertion cannot fail; every other component schema is where it was |
| `OpenApiInstallers.MergeKeeps` | src/deviation_protocol/api/main.py:460-475 | nothing outside the components changes |
| `OpenApiInstallers.PublishedReplacesNothing` | src/deviation_protocol/api/main.py:452-475 | a published merge replaces a schema that was there only by a definition that matches it |
| `OpenApiInstallers.DifferentIsRefused` | src/deviation_protocol/api/main.py:452-458 | a definition that meets a different schema under its name is never published |
| `OpenApiInstallers.MergedSchemas` | src/deviation_protocol/api/main.py:460-481 | exactly the definitions are added: under every other name the merge has what the base had |
| `OpenApiInstallers.ComponentsKept` | src/deviation_protocol/api/main.py:460-475 | the members of the components other than the schemas are kept |
| `OpenApiInstallers.FirstFaultAt` | src/deviation_protocol/api/main.py:559-575 | the first faulty definition decides which fault is reported |
| `OpenApiInstallers.Application.CheckInner` | src/deviation_protocol/api/main.py:430-458 | integrity of every definition first, collisions after |
| `OpenApiInstallers.Application.CheckOuter` | src/deviation_protocol/api/main.py:559-575 | definition by definition, so the first fault decides |
| `OpenApiInstallers.Application.Default` | src/deviation_protocol/api/main.py:409 | the framework's generator may raise or return anything, and replace the published schema either way |
| `OpenApiInstallers.Application.Candidate` | src/deviation_protocol/api/main.py:460-520 | the merge is handed on exactly if its references hold |
| `OpenApiInstallers.Application.InnerOpenApi` | src/deviation_protocol/api/main.py:401-528 | on any failure the published schema is what it was; on success it is the checked merge, published and cached together |
| `OpenApiInstallers.Application.OpenApi` | src/deviation_protocol/api/main.py:537-627 | the same for both installers, and then every reference resolves, the one the inner installer defers included |
| `OpenApiInstallers.Twice` | src/deviation_protocol/api/main.py:539-540 | after a success every later request gets the same document |
| `Shutdown.DemoRuntime.AClose` | src/deviation_protocol/api/demo_composition.py:160-170 | the first caller creates the task; the baseline is the caller's count at that moment |
| `Shutdown.RunSound` | src/deviation_protocol/api/demo_composition.py:160-204 | what every schedule of callers, cancellations and closings keeps |
| `Shutdown.DemoRuntime.SettleResource` | src/deviation_protocol/api/demo_composition.py:195-204 | whatever one resource raises is only remembered, and the next one is closed |
| `Shutdown.DemoRuntime.Balance` | src/deviation_protocol/api/demo_composition.py:172-182 | withdraws every cancellation above the baseline one by one; fails below it |
| `Shutdown.DemoRuntime.WakeCaller` | src/deviation_protocol/api/demo_composition.py:184-194 | one turn of the waiting loop |
| `Shutdown.ClosedAtMostOnceInReverse` | src/deviation_protocol/api/demo_composition.py:196-204 | under every schedule, the resources closed so far are the last ones, last first, none twice |
| `Shutdown.TaskOfSchedule` | src/deviation_protocol/api/demo_composition.py:160-165 | where the close task stands, read off the schedule |
| `Shutdown.KilledIff` | src/deviation_protocol/api/demo_composition.py:164-165 | the task ends without closing anything if and only if it is cancelled after a caller has created it and before its first step |
| `Shutdown.KilledForGood` | src/deviation_protocol/api/demo_composition.py:161-165 | then nothing is ever closed, whatever follows |
| `Shutdown.KilledAtOnce` | src/deviation_protocol/api/demo_composition.py:160-165 | the shortest such schedule |
| `Shutdown.EveryResourceAttempted` | src/deviation_protocol/api/demo_composition.py:196-204 | when the task is done every resource was attempted exactly once even if some failed, except on those schedules |
| `Shutdown.CrossedIff` | src/deviation_protocol/api/demo_composition.py:172-176 | a caller is told that its baseline was crossed if and only if it was woken with its counter below it |
| `Shutdown.LeavesBalanced` | src/deviation_protocol/api/demo_composition.py:172-191 | every other caller leaves with its counter at its baseline |
| `Shutdown.OutcomeIff` | src/deviation_protocol/api/demo_composition.py:184-194 | exactly when a caller gets the shutdown error, a cancellation or a normal return |
| `ShutdownHistory.BaselineIsFirst` | src/deviation_protocol/api/demo_composition.py:166-170 | a caller's baseline is the count it first came with, whatever happens to its counter afterwards |
| `ShutdownHistory.HistoryIsTrue` | src/deviation_protocol/api/demo_composition.py:172-194 | a caller counts as cancelled, and as taken from, exactly if that happened in the schedule while it waited |
| `ShutdownHistory.FailuresAreSettled` | src/deviation_protocol/api/demo_composition.py:196-204 | a failure is remembered exactly if a resource raised |
| `ShutdownHistory.OutcomeOfSchedule` | src/deviation_protocol/api/demo_composition.py:184-194 | what a caller from which nobody took a cancellation is told, read off the schedule alone |
| `Shutdown.SameVerdict` | src/deviation_protocol/api/demo_composition.py:160-165 | all callers are told the same about the resources |
| `Shutdown.CancellationIsShielded` | src/deviation_protocol/api/demo_composition.py:185-187 | cancelling a caller never touches the close task |
| `Shutdown.WaitingEnds` | src/deviation_protocol/api/demo_composition.py:184-194 | however the resources behave, closing them all lets a waiting caller leave |
| `JourneySchemas.VisitsAgree` | web/src/api/schemas.ts:1381-1387 | client and server accept the same visits |
| `JourneySchemas.AssociationsAgree` | web/src/api/schemas.ts:1388-1397 | and the same associations, up to numbers the client cannot hold exactly |
| `JourneySchemas.ServerImpliesClient` | web/src/api/schemas.ts:1407-1492 | a journey the server accepts is accepted by the client if its numbers are safe and a fog Run names version 1 |
| `JourneySchemas.ClientImpliesServer` | src/deviation_protocol/api/schemas.py:537-619 | a journey the client accepts is accepted by the server if its entry world is published and its offer has the authored notice |
| `JourneySchemas.ContractsAgree` | src/deviation_protocol/api/schemas.py:537-692 | the two contracts differ in exactly these cases |
| `JourneySchemas.UnsafeNumberDiffers` | web/src/api/schemas.ts:1388-1390 | a journey only the server accepts: a session version above 2^53 - 1 |
| `JourneySchemas.FogVersionDiffers` | web/src/api/schemas.ts:1413-1419 | a journey only the server accepts: a fog Run under another entry world version |
| `JourneySchemas.EntryDiffers` | src/deviation_protocol/api/schemas.py:557-563 | a journey only the client accepts: an unpublished entry world |
| `JourneySchemas.NoticeDiffers` | src/deviation_protocol/api/schemas.py:525-534 | a journey only the client accepts: a first continuation under another notice |
| `JourneySchemas.VisitRows` | src/deviation_protocol/api/schemas.py:459-474 | the five places a visit can be at |
| `JourneySchemas.AssociationRows` | src/deviation_protocol/api/schemas.py:477-503 | and the one story of each |
| `JourneySchemas.AcceptedArrival` | src/deviation_protocol/api/schemas.py:553-619 | how an accepted journey says its place was reached, by that place |
| `JourneySchemas.AcceptedOffer` | src/deviation_protocol/api/schemas.py:553-619 | the one way on that an accepted journey offers, by its place |
| `RunJourney.WindowIff` | src/deviation_protocol/api/schemas.py:572-611 | the neighbour and pairwise checks hold exactly of the windows onto one injective chain of visits |
| `RunJourney.AcceptedIsWindow` | src/deviation_protocol/api/schemas.py:553-619 | every accepted materialised journey is such a window, with version equal to length + 2 + terminal |
| `RunJourney.NeighbourSymmetric` | web/src/runJourney.ts:99-108 | the neighbour check is symmetric although it compares completions in one direction only |
| `RunJourney.MovesOneStep` | web/src/runJourney.ts:101-103 | a move goes exactly one visit back or forth |
| `RunJourney.NeighboursAgree` | web/src/runJourney.ts:99-108 | neighbours show the same chain wherever both show it |
| `RunJourney.WalkKeeps` | web/src/runJourney.ts:99-108 | any sequence of accepted moves keeps the current visit, version, lifecycle, Run context and completion |
| `RunJourney.LaterVisitsKept` | web/src/runJourney.ts:99-108 | and every place of the chain from the second visit on |
| `RunJourney.WalkKeepsChain` | web/src/runJourney.ts:99-108 | and the first as long as it stays in sight |
| `RunJourney.FirstVisitForgotten` | web/src/runJourney.ts:99-108 | from the second of three visits to the third and back, the checks pass exactly for the journeys that show any first visit that could be one |
| `RunJourney.ConfirmedKept` | web/src/runJourney.ts:51-68 | a move keeps a confirmed transition confirmed, but for the clause that looks at the source itself |
| `RunJourney.ConfirmedSource` | web/src/runJourney.ts:38-44 | a confirmed transition left an ended scenario of the same Run, at the session and version of the result; which one decides the resulting version |
| `RunJourney.ConfirmedResult` | web/src/runJourney.ts:50-64 | and it is on record: a row of the journey is the destination, with the story that follows, and the Run has not gone back behind it |
| `RunJourney.SourceIsOneBefore` | web/src/runJourney.ts:65-68 | where the journey stands on the source, it stands one visit before the destination |
| `ForegroundProtocol.Page.BeginForegroundOperation` | web/src/App.tsx:1282-1306 | an operation begins exactly if there is none and the storage works |
| `ForegroundProtocol.Page.FinishForegroundOperation` | web/src/App.tsx:1326-1332 | an operation clears the foreground only if it is still its own |
| `ForegroundProtocol.Page.PersistRecoveryRecord` | web/src/App.tsx:804-822 | a failing storage invalidates the foreground and closes it |
| `ForegroundProtocol.Page.ClassifyMutationFailure` | web/src/App.tsx:1411-1518 | the branches decide exactly as the table of documented refusals says |
| `ForegroundProtocol.Page.ContinueAfterResponse` | web/src/App.tsx:1524-1611 | what a response does to attempt, storage and foreground |
| `ForegroundProtocol.Page.ContinueAfterView` | web/src/App.tsx:1552-1567 | what the view read does to attempt and foreground |
| `ForegroundProtocol.Page.ResumeExecution` | web/src/App.tsx:1520-1637 | an execution resumes; one that is not current only leaves |
| `ForegroundProtocol.Page.ExecuteMutationAttempt` | web/src/App.tsx:1520-1585 | up to the first suspension: the request is sent, unless a response is retained or the recovery route is not saved |
| `ForegroundProtocol.Page.InstallAndSend` | web/src/App.tsx:1639-1653 | a new attempt is installed only with the foreground |
| `ForegroundProtocol.Page.HandleMutationRetry` | web/src/App.tsx:1864-1886 | a retry sends the held attempt, or leaves it as it was |
| `ForegroundProtocol.Page.HandleNativeStorageRetry` | web/src/App.tsx:1850-1862 | the explicit storage retry |
| `ForegroundProtocol.Page.NoticeClient` | web/src/App.tsx:948-965 | a changed client taints what is in flight and invalidates the foreground |
| `ForegroundRuns.RunSound` | web/src/App.tsx:742-772 | what every interleaving of handlers, answers and client changes keeps |
| `ForegroundRuns.SameKeyAndBody` | web/src/App.tsx:1639-1653 | over every interleaving all sends of one attempt carry the same key and body |
| `ForegroundRuns.StaleAnswer` | web/src/App.tsx:1308-1315 | an answer to an operation that is not current changes nothing but that operation's own ending |
| `ForegroundRuns.SupersededForGood` | web/src/App.tsx:1308-1332 | a superseded operation never becomes current again, and commits and sends nothing more in any continuation |
| `ForegroundRuns.OneCurrent` | web/src/App.tsx:1282-1315 | at most one suspended execution can still commit |
| `ForegroundRuns.TaintMonotone` | web/src/App.tsx:1397-1409 | as long as an attempt is held its taint stays |
| `ForegroundRuns.TaintedNeverLost` | web/src/App.tsx:1411-1441 | a tainted native entry or session creation goes away only by succeeding, over every interleaving |
| `ForegroundRuns.TaintedEndsIff` | web/src/App.tsx:1411-1518 | exactly which failed answers take a tainted attempt away |
| `ForegroundSends.SendsExactly` | web/src/App.tsx:1520-1653 | which request each event sends in every state: a start its own under the next numbers, a retry the held key and body, nothing else anything |
| `ForegroundSends.SentIsAwaited` | web/src/App.tsx:1639-1653 | a request that is sent is awaited by its own operation in the foreground |
| `ForegroundSends.EveryWaitWasSent` | web/src/App.tsx:1520-1653 | over every run: no response is awaited whose request is not in the log |
| `ForegroundSends.CharacterAnswered` | web/src/App.tsx:1525-1542 | an answered character creation is committed and lets go of its attempt |
| `ForegroundSends.EntryAnswered` | web/src/App.tsx:1583-1619 | an answered Run entry is recorded, lets go of its attempt, and reads its view |
| `ForegroundSends.SessionAnswered` | web/src/App.tsx:1544-1567 | an answered session creation is recorded and keeps its attempt, with the response, until its view is read |
| `ForegroundSends.StorageRefuses` | web/src/App.tsx:1552-1605 | a session the storage refuses is not committed, and its attempt waits |
| `ForegroundSends.ViewRead` | web/src/App.tsx:1557-1619 | the view is read: loaded, and a session's attempt is let go |
| `ForegroundSends.ViewLost` | web/src/App.tsx:1568-1628 | the view cannot be read: nothing is loaded, and a session's attempt is kept, tainted |
| `ForegroundSends.RetainedIsTakenUp` | web/src/App.tsx:1520-1585 | a retry whose response is at hand goes on from it without asking again |
| `ForegroundSends.StorageRetried` | web/src/App.tsx:1850-1862 | the storage retry, in every state |
| `ForegroundSends.ClientNoticed` | web/src/App.tsx:948-965 | what noticing a changed client does, in every state |
| `ForegroundSends.FailureEndsIff` | web/src/App.tsx:1411-1518 | exactly which failed answers end an attempt, per kind, by status, code and message |
| `ForegroundAttendance.StepAttended` | web/src/App.tsx:1520-1653 | exactly which events leave an attempt in flight with the operation that will settle it, or a client change about to be noticed |
| `ForegroundAttendance.AlwaysAttended` | web/src/App.tsx:1520-1653 | so it has one throughout every run of such events |
| `ForegroundAttendance.StrandedIff` | web/src/App.tsx:794-858 | an attempt in flight is stranded by abandoning the session, by a failing storage and by a recovery that takes the foreground over, and by nothing else |
| `ForegroundAttendance.StrandedStays` | web/src/App.tsx:1864-1875 | an attempt in flight without its operation is neither settled nor sent again until a client change |
| `ForegroundAttendance.ClientChangeFrees` | web/src/App.tsx:957-965 | a noticed client change frees it, tainted |

## Left out

- Regular-expression lexing, case folding, backquotes, REGEXP rewriting and character-set introducers of the normaliser: the model starts from the token list.
- Decimal and hexadecimal literals, qualified names, bit operators, CASE, INTERVAL and casts inside atoms: the token-level evaluation makes such atoms Unknown. Texts are their places in the collation. Overflow of BIGINT arithmetic is an error in SQL and not a value here.
- NormalizeSql.EqualFormsAgree: that safe shifts are also necessary is proved for comparisons in the contexts of UnsafeShifts; in general it depends on the numbers, as `1 * ( x - 1 )` shows.
- Other columns, foreign keys and text comparisons of the CHECKs: identity REGEXP checks, story-line uniqueness and the run_session_participations, run_world_states and run_world_visit_entries probes of 0009 and 0010 are not part of the row model.
- Schema inspection through information_schema: `_preflight` and `_check` are oracles that return only if the definitions match.
- `_old_carrier_shape` and `_probe_evidence` of 0011: one oracle statement that may refuse.
- Rows written by other sessions while a migration runs: the rows are fixed under the named lock and the probes' row locks.
- Which exception object carries which traceback, and the texts of errors, beyond the code, stage, completed statements and cleanup error.
- The exit, revisit, completion and session services: abstract steps that may rewrite sessions, the character and the job set, or terminate the Run.
- Digests, fingerprints and derived identities: injective, so a value stands for its digest.
- FogStationPolicy and bundle.validate_snapshot: the codes they return, or a refusal, are an input of the verifier.
- FogHistory.AcceptedDecisions: that the policy returns one code per decision of the runtime is assumed by name, as `PolicyCounts`.
- Authority lookup, clocks, id and seed generation, storage errors inside the locked section other than a failing commit.
- catalog.effect's own id syntax check, and game state other than attributes, resources, content version and the validity of the rest.
- Sharing and cycles inside a Python document: a document is a finite tree. The numeric coercion of `_openapi_schema_values_match`: any relation on documents takes its place.
- The generated component definitions are an input of the installers: a generator that raises is the environment's failure.
- Non-ASCII digits, which str.isdigit also accepts as array indices.
- A close task that is cancelled from within a resource's own close and ends without suspending again, and aclose called outside a task.
- The other parts of a public run context, text length limits and identifier patterns of journeys: equal on both sides or opaque.
- RunJourney.WalkKeeps: a walk is a chain of accepted neighbour checks; that the page reads the source journey again before each move is not modelled.
- assertJourney, assertConfirmedDestination and the other view checks of web/src/runJourney.ts: single-branch comparisons.
- React rendering and effect timing beyond the order of events, discovery requests, the action, exit, completion and continuation handlers (they only begin and finish foreground operations here), unmounting, and error texts.
- Stale closures over the storage-failure state: the handlers see the current one.
