# fixus: a verified model of its event-sourced core

fixus runs agent turns on top of an append-only event log. This project models the parts of it that carry
its guarantees and proves those guarantees for every input, every log and every run:

- **Turn scheduler** (`Dispatcher.dfy`, `Scheduler.dfy`, `SchedulerRuns.dfy`): per-type priority queues, a
  slot counter, the retry budget and the watchdog. Slot ledger, work conservation, no overtaking, a
  potential that every report and every pop lowers until all has drained, exactly when a slot leaks, and
  what that does to a type for good.
- **Event log, write guard and projection** (`Events.dfy`, `Projection.dfy`, `ProjectionFacts.dfy`,
  `ProjectionCache.dfy`, `BrokerStore.dfy`, `Batches.dfy`, `EventStore.dfy`, `RacingCache.dfy`, `Lifecycle.dfy`,
  `Service.dfy`): indexes kept event by event behind a least-recently-used cache. Cache coherence over all
  runs, the meaning of each index over the log, the lifecycle invariants the guard gives, LRU order, and the
  cache bound under overlapping catch-ups.
- **Reference queries** (`ReferenceStore.dfy`): the scanning store answers the same questions by joins over
  the log; where it and the projection agree, and exactly where they do not.
- **Crash recovery** (`Recovery.dfy`, `RecoveryFacts.dfy`): an exact split of the incomplete turns, and a
  fixed point.
- **Policy resolver** (`Policy.dfy`): path normalisation, intersection of scope lists, validation.
- **Replay and live fan-in** (`StreamFanIn.dfy`): exactly-once delivery of one turn to one client.
- **Canonical JSON, argv templates, tool routing** (`CanonicalJson.dfy`, `JsonReader.dfy`, `ToolCatalog.dfy`,
  `ToolRegistry.dfy`).

`Wrappers.dfy` holds `Option` and `Result`. `dafny verify dfyconfig.toml` checks everything.

## How it is built

Code that updates objects is a class with the same fields, or a method with the same loop; each is proved
equal to a function on values (`View() == F(old(View()), ...)`). The theorems are then lemmas about those
functions and about runs of them. A log is a sequence of numbered events; `Fold(log)` is the projection
of a log; every definition named `...Meaning` says what one field of it is in terms of the log alone.
Each decision table (retryable reasons, task transitions, event scopes, closing events, escapes, flags, safe
tools) is used by the operations and fixed by a theorem that does not name it.

What comes from outside a handler is an argument: what the broker, the log or the task store answered
(`Env`), the clock, generated ids, the order in which a hash map or a hash set lists its elements.

## What the proofs found

- **A scope can be lost.** `intersect_set` pairs each left scope with its *first* overlapping right scope,
  while its comment promises the tighter one of every overlapping pair. The result is always sound, exact
  if and only if no overlap that matters is skipped (`Policy.IntersectExactIff`, `Policy.ThreeWayExactIff`),
  and not commutative. A task that passed validation can therefore lose a scope it was granted
  (`Policy.ValidatedTaskLosesScope`).
- **The operator's trust mark decides** what a Reader may write: a path that tenant and task mark Host stays
  writable where the operator marks it WorkDir (`Policy.OperatorMarkDecides`).
- **Slots leak in three places**: no `turn_started` in the log, a failed redispatch, and a task type that
  cannot be resolved on release (`SchedulerRuns.LeaksExactlyIff`). Once a type has leaked as many slots as it
  has, no report about a turn that is out ever lets a turn of that type go again
  (`SchedulerRuns.LeakedTypeStarves`); only a stray report that ends its turn and names the type does
  (`SchedulerRuns.StrayReportUnstarvesIff`). Turns that fail before their start has reached the log get there
  (`SchedulerRuns.StarvationIsReachable`).
- **A stray report frees a slot that is not its own**: a report about a turn that is not out breaks the slot
  ledger if and only if it ends that turn and names a type with a slot in use
  (`SchedulerRuns.StrayReportBreaksLedgerIff`), which takes one enqueued turn
  (`SchedulerRuns.StrayReportIsReachable`). `SchedulerRuns.ReportBreaksLedgerIff` decides it for all reports,
  and `SchedulerRuns.RunBalancesIff` for all runs; order, cap and work conservation hold regardless
  (`SchedulerRuns.SchedulerSafety`).
- **A key in use is not refused**: a turn enqueued twice loses its clock with the first report
  (`SchedulerRuns.ReusedKeyLosesClock`).
- **The guard trusts the cache.** A read of an unknown task leaves an empty projection behind, over which
  `task_ready` passes as first event; and a task that is not cached can be created a second time. Writes
  that open a log with another event than `task_created`, such second creations and batches, which skip the
  guard, are the only ways past it: a run keeps every log guarded if and only if each operation is sound
  (`BrokerStore.RunsAreGuardedIff`, `BrokerStore.ReadThenReadyBreaksGuard`,
  `BrokerStore.SecondCreateBreaksGuard`).
- **A batch over several tasks** is mirrored into the first event's task only. When the events of other tasks
  belong to turns, `Batches.TurnBatchCoherentIff` states exactly when the cache stays coherent; for events
  without a turn `Batches.CoherentBatchNeeds` gives necessary conditions. Only a caller of the store trait can
  build such a batch: the batch route (`src/server.rs:618-642`) takes one task and sets every turn id.
- **Overlapping catch-ups of one task** replay its log onto one projection, and its turns then count as
  often as there were catch-ups (`RacingCache.OverlapShowsLogIff`); a catch-up that no other overlaps leaves
  the fold of what it replayed (`RacingCache.LoneCatchUpShowsLog`).
- **The live subscription omits `turn_pending`**, which the replay delivers; the client's view is exact if
  and only if no such event is committed between the scan and the terminal event
  (`StreamFanIn.ReplayedViewExactIff`, `StreamFanIn.ViewExactIff`, and the run `StreamFanIn.PendingIsMissed`).
- **The two stores derive different task states** when a turn has started since the last task event and that
  event is `task_ready` (`ReferenceStore.TaskStateAgreesIff`, `ReferenceStore.ReadyStatesDisagree`).
- **Their token statistics agree** if and only if every completed call names its model and reports a usage
  (`ReferenceStore.TokensAgreeIff`): calls without usage are counted by one store only, and a missing model
  has two defaults (`ReferenceStore.TokensByModel`). So has a missing redo group
  (`ReferenceStore.IncompleteRowsAgreeIff`).
- **Their lists of incomplete turns agree** if and only if every open turn was started once and cleanly
  (`ReferenceStore.IncompleteListsAgreeIff`, `ReferenceStore.RepeatedStartsDisagree`).
- **Their step lists agree** if and only if the first end of each step in the turn is of the kind that last
  closed it (`ReferenceStore.TurnStepsAgreeIff`, `ReferenceStore.StrayEndsDisagree`).
- **Recovery closes an in-flight model call with `tool_failed`**, whose type does not match its start
  (`RecoveryFacts.ClosingMatchesIff`). In-flight safe steps of a turn that is closed are left open
  (`RecoveryFacts.StepsLeftOpenIff`).
- **Idempotency keys of two tasks can coincide** if and only if one task id is the other followed by `:bank`,
  or begins with the other followed by `:bank:` (`CanonicalJson.TasksShareKeyIff`,
  `CanonicalJson.ColonTaskIdsCollide`); generated ids contain no colon.

## Model

| member | source | states |
|---|---|---|
| Policy.NormalizePath | src/policy.rs:87-101 | the loop over components with its stack computes the normal form |
| Policy.NormalizeIdempotent | src/policy.rs:87-101 | normalising twice is normalising once, and a path without `.` and `..` is its own normal form |
| Policy.NormalizeJoin | src/policy.rs:87-101 | `norm(a/b) == norm(norm(a)/b)` for every relative `b` |
| Policy.NormalizeDownUp | src/policy.rs:87-101 | going down one name and up again normalises away |
| Policy.NormalizeSnoc | src/policy.rs:87-101 | component by component: a name goes one down, `.` nowhere, `..` takes the last one off, be it the root |
| Policy.WithinTransitive | src/policy.rs:103-109 | containment in scopes is transitive |
| Policy.WithinMeaning | src/policy.rs:103-109 | a path lies in a scope if and only if its normal form continues the scope's |
| Policy.CommonPathOverlaps | src/policy.rs:111-113 | two scopes that share a path overlap: one contains the other |
| Policy.IntersectScopes | src/policy.rs:114-127 | the loop with its duplicate check computes the intersection list |
| Policy.IntersectPaths | src/policy.rs:114-127 | the output paths are exactly the tighter ones of each left scope and its first overlap, whatever was deduplicated |
| Policy.IntersectSound | src/policy.rs:111-132 | a path allowed by the intersection is allowed by both sides |
| Policy.IntersectExactIff | src/policy.rs:111-132 | the intersection allows every path both sides allow if and only if every overlapping pair's tighter scope lies inside something kept |
| Policy.SingleOverlapIsExact | src/policy.rs:111-132 | each left scope overlapping at most one right scope is enough for exactness |
| Policy.SecondOverlapIsLost | src/policy.rs:121-124 | a wide left scope over two right scopes loses the second one, and swapping the arguments keeps it |
| Policy.RootLosesSecondScope | src/policy.rs:121-124 | the instance `/` against `/a` and `/b` |
| Policy.ThreeWaySound | src/policy.rs:168-169 | two intersections in a row grant nothing that one of the three lists denies |
| Policy.SecondStepKeepsIff | src/policy.rs:168-169 | the exactness condition of the second intersection, restated on the three input lists |
| Policy.ThreeWayExactIff | src/policy.rs:168-169 | two intersections in a row are exact if and only if what each left scope keeps loses nothing against the third list, and what the first step skips does not matter inside it |
| Policy.ExactStepsSkipNothing | src/policy.rs:168-169 | exactness of both steps is enough for exactness of the whole |
| Policy.IntersectNet | src/policy.rs:137-145 | keeps exactly the rules present in both lists |
| Policy.ResolvedReadsSound | src/policy.rs:148-176 | a path readable under the effective policy is readable under operator, tenant and task, for either role |
| Policy.ResolvedWritesSound | src/policy.rs:148-176 | a path writable under the effective policy is writable under operator, tenant and task, for either role |
| Policy.ResolvedEgress | src/policy.rs:148-176 | effective egress is the common part of the three for an operator and nothing for a reader, and the role is kept |
| Policy.IntersectMembers | src/policy.rs:114-127 | of the scopes kept for one path exactly the first left scope's one is listed, with its trust level |
| Policy.EqualPathsKeepLeft | src/policy.rs:121-124 | among scopes of the same path the left one is kept, whatever the right one's trust level |
| Policy.ReaderWritesIff | src/policy.rs:148-159 | a Reader may write exactly the scopes of the three-way intersection that come out as WorkDir |
| Policy.OperatorMarkDecides | src/policy.rs:148-176 | a path that tenant and task mark Host stays writable for a Reader if and only if the operator marks it WorkDir |
| Policy.CheckPathsMembers | src/policy.rs:198-204 | the violation list holds exactly the normal forms of the child scopes that no parent scope contains |
| Policy.CheckPathsDecides | src/policy.rs:198-204 | the violation list is empty if and only if every path the child allows the parent allows |
| Policy.ValidateSubsetDecides | src/policy.rs:197-217 | acceptance is inclusion, in both directions, and therefore reflexive and transitive |
| Policy.ViolationNames | src/policy.rs:197-217 | a refusal names exactly the uncovered reading scopes as reading, the writing ones as writing, and the hosts of the rules the parent lacks |
| Policy.ValidatedChainResolvesToTaskIff | src/policy.rs:221-229 | along a validated chain the operator role gets the task's egress, and exactly the task's path sets if and only if nothing that matters is skipped |
| Policy.ValidatedTaskLosesScope | src/policy.rs:221-229 | a family of policies that pass validation and whose task still loses its second scope |
| Decimal.NatTextRoundTrip | src/bin/tools-bank/adapter.rs:197 | reading printed digits gives the number back |
| Decimal.IntTextInjective | src/bin/tools-bank/adapter.rs:197 | distinct integers have distinct texts |
| Decimal.IntTextReads | src/bin/tools-bank/adapter.rs:197 | the text of an integer is a sign if it is negative and then digits of its size without leading zeros |
| Text.LessIff | src/bin/tools-bank/adapter.rs:180 | key order: a proper prefix comes first, else the smaller character at the first difference |
| CanonicalJson.QuoteDecodes | src/bin/tools-bank/adapter.rs:186 | a quoted text is determined by any text that starts with it, and so is what follows |
| CanonicalJson.SortAscending | src/bin/tools-bank/adapter.rs:179-180 | sorting the members keeps them and orders them by key |
| CanonicalJson.PrefixDecode | src/bin/tools-bank/adapter.rs:176-199 | if two canonical texts with continuations are equal, the values are the same up to key order and the continuations are equal |
| CanonicalJson.ArrDecode | src/bin/tools-bank/adapter.rs:193-196 | the array case of the same |
| CanonicalJson.ObjDecode | src/bin/tools-bank/adapter.rs:178-192 | the object case of the same |
| CanonicalJson.SameText | src/bin/tools-bank/adapter.rs:176-199 | values that differ only in key order, at any depth, have the same text |
| CanonicalJson.CanonicalIffSameValue | src/bin/tools-bank/adapter.rs:176-199 | canonical texts are equal if and only if the values are equal up to key order |
| JsonReader.ReadsChar | src/bin/tools-bank/adapter.rs:186-197 | every printed character reads back, by an unescape table of its own |
| JsonReader.EscapeShape | src/bin/tools-bank/adapter.rs:186-197 | which characters are printed as themselves, by one of the seven short escapes, or by four lower-case digits |
| JsonReader.ReadsBack | src/bin/tools-bank/adapter.rs:176-199 | a reader of RFC 8259 that shares nothing with the printer gets the value back from any text that goes on after it, and stops where the printed text ends |
| JsonReader.CanonicalReadsBack | src/bin/tools-bank/adapter.rs:176-199 | for every value: its canonical text parses to the same value, its object members in ascending key order at every depth |
| CanonicalJson.KeyEqualIff | src/bin/tools-bank/adapter.rs:201-206 | for all task ids: two keys are equal if and only if `task:bank:tool` spells the same and the arguments agree, as long as the shortened digest tells the two texts apart |
| CanonicalJson.NamesMeetIff | src/bin/tools-bank/adapter.rs:201-206 | two different task ids can spell the same `task:bank:tool` if and only if one is the other followed by `:bank`, or begins with the other followed by `:bank:` |
| CanonicalJson.TasksShareKeyIff | src/bin/tools-bank/adapter.rs:201-206 | the same condition decides, for any arguments, whether two different tasks can share a key |
| CanonicalJson.KeyIdentifiesCall | src/bin/tools-bank/adapter.rs:201-206 | for task ids of which neither extends the other in that way: keys are equal if and only if task, tool and arguments agree |
| CanonicalJson.ExtensionHasColon | src/bin/tools-bank/adapter.rs:201-206 | only an id with a colon extends another, so ids without colons never share keys |
| CanonicalJson.ColonTaskIdsCollide | src/bin/tools-bank/adapter.rs:201-206 | the family `x:bank:y` beside `x`: two different tasks with the same key |
| ToolCatalog.ParseArgvElement | crates/tool-catalog/src/lib.rs:349-376 | the only error is an unknown placeholder that quotes the element |
| ToolCatalog.IdentMeaning | crates/tool-catalog/src/lib.rs:378-388 | an identifier is made of ASCII letters, digits and underscores and does not start with a digit |
| ToolCatalog.ParseOfWritten | crates/tool-catalog/src/lib.rs:349-389 | writing a well-formed part and parsing it gives the part back |
| ToolCatalog.WrittenOfParse | crates/tool-catalog/src/lib.rs:349-389 | an accepted element is well formed, and writing it gives the source text back |
| ToolCatalog.RefusedIffNoPart | crates/tool-catalog/src/lib.rs:349-389 | an element is refused if and only if it is the text of no well-formed part |
| ToolCatalog.RenderArgv | crates/tool-catalog/src/lib.rs:305-337 | on the arguments themselves: the elements are what the parts add, in order, with nothing for flags that are not asked for; it fails if and only if a part is refused, with what the first refused part says |
| ToolCatalog.PartMeaning | crates/tool-catalog/src/lib.rs:305-337 | a flag adds its value if and only if its argument is true, and nothing if and only if it is absent, null or false; an argument adds its text, the digits of its number, its float token or its boolean word; absent and null, lists and objects are refused with their own errors |
| ToolCatalog.SourcesAscend | crates/tool-catalog/src/lib.rs:305-337 | no part contributes twice and elements keep the order of the parts |
| ToolCatalog.ReplaceArgument | crates/tool-catalog/src/lib.rs:281-337 | replacing one string argument keeps success and element count, sets exactly the elements that come from its `Arg` parts and changes no other |
| ToolCatalog.TurnFlagOn | crates/tool-catalog/src/lib.rs:324-333 | turning one flag from false to true keeps success, inserts its value once for each of its parts, turns "false" into "true" where its argument is printed, and changes no other element |
| ToolCatalog.HitsAreAll | crates/tool-catalog/src/lib.rs:281-337 | as many elements come from an argument as the template has `Arg` parts for it |
| ToolCatalog.ParseArgv | crates/tool-catalog/src/lib.rs:470-473 | a template loads if and only if every element parses, each part writes back to its element, and the error is that of the first bad element |
| ToolCatalog.LoadTool | crates/tool-catalog/src/lib.rs:461-491 | an entry loads if and only if its template is non-empty and parses and its io is known; the result holds what the entry says, and the error is the first fault: empty template, its first element that does not parse, the io |
| ToolCatalog.IoWordParses | crates/tool-catalog/src/lib.rs:514-523 | each io kind is named by exactly one word, and any other word is an error that quotes it |
| ToolCatalog.ParseExtraCatalog | crates/tool-catalog/src/lib.rs:439-493 | loading succeeds if and only if names are distinct and entries acceptable, drops nothing, and otherwise reports the first entry at fault with its first fault, a repeated name before any other |
| ToolCatalog.FilterKeeps | crates/tool-catalog/src/lib.rs:505-513 | exactly the extras without a reserved name are kept |
| ToolCatalog.FilteredStayDistinct | crates/tool-catalog/src/lib.rs:505-513 | filtering keeps names distinct |
| ToolRegistry.Registry.constructor | src/bin/tools-bank/adapter.rs:109-114 | an empty registry with an agreeing index |
| ToolRegistry.Registry.Register | src/bin/tools-bank/adapter.rs:117-133 | registers if and only if no declared name is listed, all or nothing; the error names the first colliding tool and its owner; index and list keep agreeing |
| ToolRegistry.Registry.List | src/bin/tools-bank/adapter.rs:136-138 | the declared names in registration order |
| ToolRegistry.Registry.Find | src/bin/tools-bank/adapter.rs:141-143 | finds an adapter if and only if the name is listed, and then the only one that declares it |
| ToolRegistry.ListDistinctIff | src/bin/tools-bank/adapter.rs:117-138 | no name is listed twice if and only if no adapter repeats one of its own |
| ToolRegistry.SandboxDistinct | src/bin/tools-bank/adapter.rs:310-316 | builtins followed by the filtered extras repeat no name |
| ToolRegistry.BuildRegistry | src/bin/tools-bank/main.rs:454-516 | loading, filtering and registering composed: the sandbox adapter with the builtins and the unreserved extras, then each HTTP adapter that declares no name listed before it; with distinct builtins and adapters that do not repeat themselves, no name is listed twice |
| Events.AppendInOrder | src/broker_store.rs:281-282 | appending the broker's next number keeps the log ascending |
| Projection.TaskProjection.constructor | src/projection.rs:65-94 | a new projection is the empty one |
| Projection.TaskProjection.Index | src/projection.rs:116-139 | the sequence, turn and recency indexes after one event |
| Projection.TaskProjection.ApplyTaskEvent | src/projection.rs:143-166 | type, priority and state after a task event |
| Projection.TaskProjection.ApplyTurnEvent | src/projection.rs:168-185 | state and active turns after a turn event |
| Projection.TaskProjection.ApplyStepEvent | src/projection.rs:187-223 | active steps, completed steps and token sums after a step event |
| Projection.TaskProjection.Apply | src/projection.rs:98-239 | the whole projection after one event is `ApplyRecord` of the one before |
| Projection.TaskProjection.ListTurnSteps | src/projection.rs:293-326 | the steps of a turn, each with the end recorded for it |
| Projection.TaskProjection.ListIncompleteTurns | src/projection.rs:259-277 | one row per active turn that has an indexed first event, with that event's redo data |
| Projection.TaskProjection.ListIncompleteSteps | src/projection.rs:279-291 | one row per active step, with its start record |
| ProjectionFacts.BySeqMeaning | src/projection.rs:122-135 | the sequence index holds exactly the log's events under their numbers |
| ProjectionFacts.ByTurnMeaning | src/projection.rs:134-139 | the turn index lists the numbers of the turn's events in log order |
| ProjectionFacts.OfTurnIsSubsequence | src/projection.rs:247-249 | a turn's records are exactly the log's records of that turn, ascending |
| ProjectionFacts.TurnEventsMeaning | src/broker_store.rs:356-360 | reading a turn through the two indexes gives the turn's events in order |
| ProjectionFacts.RowMeaning | src/projection.rs:259-277 | the redo data of an incomplete turn is that of the first of the turn's records |
| ProjectionFacts.MaxTurnMeaning | src/projection.rs:116-120 | the greatest turn id bounds every turn id of the log and is attained unless it is zero |
| ProjectionFacts.MaxSeqMeaning | src/projection.rs:116-120 | the greatest number is that of the last event |
| ProjectionFacts.ActiveTurnsMeaning | src/projection.rs:168-185 | a turn is active if and only if its last start or end is a start |
| ProjectionFacts.ActiveStepsMeaning | src/projection.rs:187-203 | a step is active if and only if its last start or end is a start, and then it carries that record |
| ProjectionFacts.StepRowMeaning | src/projection.rs:279-291 | the rows of in-flight steps are the last invocations of the open steps, with number, turn, kind and payload as logged |
| ProjectionFacts.CompletedStepsMeaning | src/projection.rs:192-202 | a step is completed if and only if some end of it came while it was open, and then it carries the start, the kind and the number of the last such end |
| ProjectionFacts.SummaryMeaning | src/projection.rs:225-232 | the latest summary is that of the last marker |
| ProjectionFacts.SummarizedTurnMeaning | src/projection.rs:225-232 | the summarised turn is that of the last marker that names one |
| ProjectionFacts.HeadMeaning | src/projection.rs:143-160 | type and priority are those of the last `task_created` |
| ProjectionFacts.RecentTurnsMeaning | src/projection.rs:136-139 | the recency list holds the turn id of every event that has one, in log order |
| ProjectionFacts.TokensMeaning | src/projection.rs:204-223 | per model, calls and sums over the usages reported in the log; other models are absent |
| ProjectionFacts.StateMeaning | src/projection.rs:143-177 | the state is that of the last task event, raised to executing by a later turn start when ready or claimed |
| ProjectionFacts.FoldReflects | src/projection.rs:98-239 | every modelled field of the projection of an ascending log in terms of the log alone: state, type, priority, indexes, turns, active and completed steps, summary and its marks, token sums |
| ProjectionFacts.AsI32Meaning | src/projection.rs:154 | a cast to 32 bits keeps numbers that fit and takes a multiple of the width off others |
| ReferenceStore.TaskStateAgreesIff | src/storage.rs:333-374 | the scan and the projection derive the same state if and only if it is not the case that the last task event is `task_ready` and a turn started since |
| ReferenceStore.ReadyStatesDisagree | src/storage.rs:333-374 | created, ready, turn started: ready for the scan, executing for the projection |
| ReferenceStore.IncompleteListsAgreeIff | src/storage.rs:959-1016 | the projection's rows, in any order, are the scan's rows up to order if and only if every open turn was started once, had not ended before, and its start carries the redo data of the turn's first record through the two defaults |
| ReferenceStore.RepeatedStartsDisagree | src/storage.rs:990-1012 | a turn started twice that never ends has two rows in the scan |
| ReferenceStore.IncompleteTurnsAgreeIff | src/storage.rs:959-1016 | as sets of ids, active turns are the anti-join's turns if and only if no turn that is open now had ended before |
| ReferenceStore.RestartedTurnsDisagree | src/storage.rs:959-1016 | a turn that is started, failed and started again is incomplete for the projection only |
| ReferenceStore.IncompleteRowsAgreeIff | src/storage.rs:990-1012 | the rows of a turn agree if and only if its first record and its start carry the same redo data through the two defaults; when the first record is the start, if and only if it names a redo group |
| ReferenceStore.IncompleteStepsAgreeIff | src/storage.rs:1018-1070 | active steps are the anti-join's steps, with the same start, if and only if no open step was seen before its last start |
| ReferenceStore.IndexTerminals | src/storage.rs:904-914 | the first pass maps each step to the first of its ends, and no other step |
| ReferenceStore.GetTurnSteps | src/storage.rs:868-955 | the two passes compute the inner join of the turn's starts and first ends |
| ReferenceStore.TurnStepsAgreeIff | src/storage.rs:868-955 | for every ascending log the projection's ended steps of a turn are the join (same steps, ends and order) if and only if, for each invocation of the turn, the first end of its step in the turn is of the kind that last closed the step in the log |
| ReferenceStore.TurnStepsAgree | src/storage.rs:868-955 | logs where steps start once and end later in the same turn meet that condition |
| ReferenceStore.StrayEndsDisagree | src/storage.rs:868-955 | a tool call that ends under another turn has ended for the projection only |
| ReferenceStore.GetTokenUsageStats | src/storage.rs:1156-1223 | the loop computes per-model counts and sums over all completed calls |
| ReferenceStore.TokensByModel | src/storage.rs:1156-1223 | for every log and model: both statistics as sums over the named and the unnamed calls, which the stores book under different names; per name the sums are the same and the counts differ by exactly the calls without usage |
| ReferenceStore.TokensAgreeIff | src/storage.rs:1156-1223 | for every log: both stores report the same statistics for every model if and only if every completed call names its model and reports a usage |
| ReferenceStore.UnreportedCallsDisagree | src/storage.rs:1156-1223 | one completed call without model and usage is such a log |
| ReferenceStore.DetectSeqGaps | src/storage.rs:1072-1106 | the loop collects the missing successor of each record before the last |
| ReferenceStore.ContinuousIffNothingMissing | src/storage.rs:1108-1152 | a turn is called continuous if and only if every number between its first and last record is present |
| ReferenceStore.TurnBounds | src/storage.rs:1108-1152 | the bounds of that check are the least and the greatest number of the turn's records |
| Lifecycle.GuardedFits | src/models.rs:432-452 | in a guarded log the state fixes the counts of ready, started and blocked events |
| Lifecycle.GuardedCounts | src/models.rs:542-586 | every prefix of a guarded log satisfies #blocked <= #turn_started <= #ready <= #blocked + 1 and holds at most one task-terminal event |
| Lifecycle.TerminalStays | src/models.rs:432-452 | after a task-terminal event the state stays terminal |
| Lifecycle.NothingAfterTerminal | src/models.rs:542-586 | no task event and no turn start follows a task-terminal event |
| Lifecycle.WriteKeepsGuardedIff | src/broker_store.rs:263-273 | for every log: an accepted write keeps it guarded if and only if it opens an empty log with `task_created`, or the task is cached, or it is not a second `task_created` |
| Lifecycle.FirstEventAdmittedIff | src/models.rs:542-586 | exactly which first events pass the check, without a cached projection and over an empty one |
| Lifecycle.GuardTakes | src/models.rs:542-586 | for every state the literal set of task events that the guard lets through, turn starts on ready or claimed tasks only, every other event always, and each task event leads to the state it is named after |
| Lifecycle.TableMeaning | src/models.rs:432-452 | the table of states holds exactly the moves that task events make and the start of a claimed task |
| Lifecycle.LiveReachesAll | src/models.rs:432-452 | no live task is stuck: from every guarded log of a task that has not ended, and for every state but the first, some continuation that passes all write checks leads there |
| Lifecycle.ExecutingTakes | src/models.rs:432-452 | an executing task succeeds, fails, is cancelled or blocks with one event |
| Lifecycle.BlockedResumes | src/models.rs:432-452 | a blocked task becomes ready again, and can then be claimed |
| Lifecycle.ScopeAsks | src/models.rs:330-372 | which event types must, may and must not carry a turn id and a step id |
| Lifecycle.PayloadAsks | src/models.rs:1196-1241 | field by field, which event types must carry it |
| Lifecycle.EndsMatchStarts | src/models.rs:205-214 | a model call ends as a model call and a tool call as a tool call |
| Lifecycle.NextTurnIdIsFresh | src/service.rs:218-219 | the next turn id is positive and exceeds every turn id of the log |
| ProjectionCache.ApplyAllFromNew | src/projection.rs:387-430 | replaying a log onto an empty projection gives its fold |
| ProjectionCache.LruCache.Get | src/projection.rs:366-374 | a hit moves the task to the young end and returns its projection; a miss changes nothing |
| ProjectionCache.LruCache.Invalidate | src/projection.rs:379-383 | the entry and its place in the order are gone, the others untouched |
| ProjectionCache.LruCache.ApplyTo | src/broker_store.rs:282-285 | one entry takes in a record, no other entry changes |
| ProjectionCache.LruCache.CatchUp | src/projection.rs:387-442 | the task's whole log is replayed onto its entry, the task joins the order, and the oldest are evicted down to capacity |
| ProjectionCache.LruCache.MakeRoom | src/projection.rs:436-440 | the loop evicts from the old end until the order fits |
| BrokerStore.CatchUpKeepsLru | src/projection.rs:387-442 | reading in a missed task leaves it in, changes no other kept entry, and evicts at most the oldest |
| BrokerStore.EnsureKeeps | src/broker_store.rs:152-162 | after ensuring, the task is cached as the fold of its log, and the cache stays coherent and ordered |
| BrokerStore.ReadKeeps | src/broker_store.rs:164-170 | the fetch that follows always hits, so its unwrap cannot fail for a capacity of at least one |
| BrokerStore.WriteKeeps | src/broker_store.rs:263-287 | a write appends exactly when the checks pass, touches no other log, and keeps the store coherent |
| BrokerStore.BatchKeepsCoherent | src/broker_store.rs:289-313 | mirroring a whole batch keeps the store coherent |
| BrokerStore.StepKeepsCoherent | src/broker_store.rs:233-313 | every operation keeps each cached projection equal to the fold of its task's log, and the order a duplicate-free list of the cached tasks |
| BrokerStore.RunsAreCoherent | src/broker_store.rs:152-313 | the same after every run of create, read, write, batch and invalidate |
| BrokerStore.RunsAreNumbered | src/broker_store.rs:152-313 | in every run whatever, a task's events are numbered from one without gap |
| BrokerStore.AcceptedWriteKeepsGuardedIff | src/broker_store.rs:263-287 | at the store: an accepted write keeps all logs guarded if and only if a known task is cached or not created again, or an unknown one is created |
| BrokerStore.StepGuardedIff | src/broker_store.rs:233-313 | the same for every operation; a batch if and only if its events, one after the other, could each come next |
| BrokerStore.StepMendsNothing | src/broker_store.rs:233-313 | once a log is not guarded no later operation mends it |
| BrokerStore.RunsAreGuardedIff | src/broker_store.rs:233-313 | every run leaves all logs guarded if and only if each of its operations is sound in this sense |
| BrokerStore.RunsAreGuarded | src/broker_store.rs:263-287 | in particular runs that create a task by its first event and then only write it past the guard |
| BrokerStore.ReadThenReadyBreaksGuard | src/broker_store.rs:263-273 | reading an unknown task and then writing `task_ready` is a run that leaves a log without `task_created` |
| BrokerStore.SecondCreateBreaksGuard | src/broker_store.rs:263-273 | creating a task and, before it is cached, writing `task_created` once more is another |
| BrokerStore.UseKeepsRecent | src/projection.rs:366-442 | a hit or a read-in keeps the order sorted by last use |
| BrokerStore.EvictsLeastRecentlyUsed | src/projection.rs:435-440 | reading into a full cache removes exactly the entry whose last use is oldest |
| BrokerStore.RunsAreRecent | src/projection.rs:366-442 | in every run the order is the order of last use |
| RacingCache.StepKeepsInv | src/projection.rs:366-442 | each step of overlapping catch-ups keeps the listed tasks that are not being read in within capacity |
| RacingCache.RacingCacheIsBounded | src/projection.rs:366-442 | however catch-ups overlap with hits, invalidations and each other, every entry is listed or being read in, and the cache holds at most capacity plus the catch-ups under way |
| RacingCache.EntryIsReplay | src/projection.rs:387-442 | in every run a cached projection is the fold of what was replayed onto it since it was created |
| RacingCache.LoneCatchUpShowsLog | src/projection.rs:387-442 | as long as no second catch-up of the task begins and it stays cached, that is what its own catch-up has replayed |
| RacingCache.ShowsLogNeeds | src/projection.rs:387-442 | an entry that shows a log has had that log's turn events replayed once each, in order |
| RacingCache.OverlapShowsLogIff | src/projection.rs:387-442 | `n` catch-ups of a task, each begun after the one before has replayed and before it has ended, leave nothing under way and the log replayed `n` times; if it has a turn event the entry shows the log if and only if `n` is one |
| EventStore.BrokerEventStore.constructor | src/broker_store.rs:142-150 | an empty, coherent store |
| EventStore.BrokerEventStore.EnsureProjection | src/broker_store.rs:152-162 | afterwards the task is cached as the fold of its log |
| EventStore.BrokerEventStore.Fetch | src/broker_store.rs:164-170 | returns the projection of the task's whole log; the logs are unchanged |
| EventStore.BrokerEventStore.GetTaskState | src/broker_store.rs:337-339 | answers the state of the task's log |
| EventStore.BrokerEventStore.GetMaxTurnId | src/broker_store.rs:350-352 | answers the greatest turn id of the task's log |
| EventStore.BrokerEventStore.GetIncompleteTurns | src/broker_store.rs:376-378 | lists each incomplete turn of the task's log once |
| EventStore.BrokerEventStore.GetIncompleteSteps | src/broker_store.rs:379-381 | lists each in-flight step of the task's log once |
| EventStore.BrokerEventStore.GetTurnEvents | src/broker_store.rs:356-360 | answers the turn's events in log order |
| EventStore.BrokerEventStore.CreateTask | src/broker_store.rs:235-261 | a generated id gets a log of one `task_created`; nothing is cached yet |
| EventStore.BrokerEventStore.WriteEvent | src/broker_store.rs:263-287 | succeeds if and only if scope, payload and transition checks pass against the cached state, appends exactly that event under the next number, and mirrors it |
| EventStore.BrokerEventStore.Number | src/broker_store.rs:293-303 | in a batch each event gets the next number of its own task, so a task's events are numbered without gap |
| EventStore.BrokerEventStore.WriteEventsBatch | src/broker_store.rs:289-313 | appends each event to its own task's log and mirrors all of them into the first task's projection; the store stays valid if and only if no other task is cached and the foreign records leave no trace, in particular for one task |
| Batches.ItemNumber | src/broker_store.rs:293-303 | the number of every event of a batch |
| Batches.BatchCoherentIff | src/broker_store.rs:304-311 | a batch over several tasks keeps the store coherent if and only if no other of its tasks is cached and, where the first one is, replaying all the batch onto its projection gives the fold of its own log |
| Batches.OneTaskBatchKeeps | src/broker_store.rs:304-311 | a batch of one task always does |
| Batches.OneTaskIsBatched | src/broker_store.rs:289-313 | a batch of one task is the batch operation of the store's runs |
| Batches.TurnBatchCoherentIff | src/broker_store.rs:304-311 | when the events of other tasks belong to turns: coherent if and only if no other task of the batch is cached and, where the first one is, the batch has no other |
| Batches.ForeignMarkBreaks | src/broker_store.rs:304-311 | with the first task cached, one event of another task that belongs to a turn or completes a call with its usage breaks coherence |
| Batches.ForeignNumberBreaks | src/broker_store.rs:304-311 | so does an event of another task with a number above the first task's last one |
| Batches.CoherentBatchNeeds | src/broker_store.rs:304-311 | of any batch that stays coherent with its first task cached: foreign tasks are not cached, and their events have no turn, no usage and no number above the first task's last one |
| EventStore.BrokerEventStore.InvalidateProjection | src/broker_store.rs:434-436 | drops the cached projection and nothing else |
| Service.TransitionTask | src/service.rs:46-69 | succeeds if and only if the event is in the literal set that the task's state takes; then exactly that event is appended and the task is in the target state, and otherwise the log is unchanged |
| Service.CancelTask | src/service.rs:155-182 | succeeds if and only if the task has not ended |
| Service.NextTurnOpens | src/service.rs:217-245 | the event written for a new turn makes its id exceed all earlier ones, the task executing, the turn active, and its redo data the event's |
| Service.StartTurn | src/service.rs:191-245 | reports an ended task as such; otherwise succeeds if and only if the task is ready or claimed, by appending one event that opens the turn |
| Service.FailTurn | src/service.rs:281-308 | appends one `turn_failed`, whatever the task's state |
| Service.RecordToolFailed | src/service.rs:580-614 | appends one `tool_failed` |
| Recovery.SafeIffListed | src/recovery.rs:38-77 | a step may be repeated if and only if its tool is named and on the read-only or the idempotent list |
| Recovery.Repeatable | src/recovery.rs:38-77 | the fourteen tools whose calls may be repeated, and no other |
| Recovery.WritesAreNeverSafe | src/recovery.rs:58-77 | no tool of the non-idempotent list is on a safe list, and each blocks |
| Recovery.DecideRecoveryFromSteps | src/recovery.rs:156-203 | the loop splits the steps; blocking ones decide for human intervention and are the only ones reported then |
| Recovery.FoundAreBlocking | src/recovery.rs:139-147 | listing, filtering by turn and splitting finds exactly the turn's blocking in-flight steps, once each |
| Recovery.DecideTurnRecovery | src/recovery.rs:129-147 | a turn is safe if and only if it has no blocking in-flight step in the log |
| Recovery.SkipNonIdempotentStep | src/recovery.rs:210-241 | appends one `tool_failed` for the step |
| Recovery.FailTurnWithNonIdempotentBlock | src/recovery.rs:244-269 | appends one `tool_failed` per blocking step and then one `turn_failed` |
| Recovery.ActiveHasContext | src/recovery.rs:303-326 | every incomplete turn has a `turn_started` to build its context from |
| Recovery.CloseTurn | src/recovery.rs:244-269 | closing a turn extends only that turn's events, by exactly its closing events, and removes only it and its blocking steps from the active ones |
| Recovery.RecoverTurn | src/recovery.rs:346-375 | one turn of the loop keeps the split of the turns seen so far |
| Recovery.RecoverTask | src/recovery.rs:334-378 | the whole effect: blocked turns closed, the others handed back, none of them twice, every other task's log untouched |
| RecoveryFacts.RecoverySplits | src/recovery.rs:334-378 | every incomplete turn is either handed back and still incomplete, or closed by its closing events and no longer incomplete; blocking steps decide which |
| RecoveryFacts.ReturnedAreHandedBack | src/recovery.rs:303-326 | a returned context carries the turn's redo group, the next redo count and what the user said at its first start, or an empty text; its turn's events are unchanged and nothing of it blocks |
| RecoveryFacts.ClosedByOneTurnFailed | src/recovery.rs:244-269 | a closed turn gains exactly one `turn_failed`, as its last event, and one `tool_failed` per blocking step |
| RecoveryFacts.IncompleteAfterIsReturned | src/recovery.rs:334-378 | afterwards the incomplete turns are exactly the returned ones |
| RecoveryFacts.ReturnedStepsAreSafe | src/recovery.rs:156-203 | every in-flight step of a returned turn is a named call on the read-only or idempotent list and none on the non-idempotent one |
| RecoveryFacts.SecondRecoveryIsIdle | src/recovery.rs:334-378 | a second recovery appends nothing and hands back the same contexts |
| RecoveryFacts.StepsLeftOpenIff | src/recovery.rs:244-284 | the steps in flight after a recovery are those before it except the blocking ones of the turns it closed |
| RecoveryFacts.ClosingMatchesIff | src/recovery.rs:210-269 | every `tool_failed` that a recovery writes matches the start its step had in flight if and only if none of the blocking steps of the closed turns is a model call |
| RecoveryFacts.ModelCallBlocks | src/recovery.rs:173-177 | an in-flight model call without a tool name always blocks its turn |
| RecoveryFacts.StartedTurnKeepsRedoData | src/recovery.rs:303-326 | in every continuation of its log, a turn opened by `start_turn` has one context to be handed back with: its redo group, its input and a redo count of one |
| RecoveryFacts.StartedTurnReturnsIff | src/recovery.rs:334-378 | a recovery hands it back, with that context, if and only if it is still incomplete and no step of it blocks |
| StreamFanIn.PlanHistoryReplay | src/bin/fixus-stream/main.rs:60-92 | filter, sort and loop compute the plan: the turn's events through the first terminal one, and the greatest number sent |
| StreamFanIn.PlanOfScan | src/bin/fixus-stream/main.rs:60-92 | the plan depends on the log only, not on the order in which the scan returned it |
| StreamFanIn.StreamEndsWithTurn | src/bin/fixus-stream/main.rs:37-43 | the stream ends on a record of an active turn if and only if the record closes the turn in the projection, which exactly four event types do |
| StreamFanIn.ReplayEndsIff | src/bin/fixus-stream/main.rs:60-92 | the replay ends the stream if and only if the history has an event of the turn of one of the four closing types |
| StreamFanIn.SortUnique | src/bin/fixus-stream/main.rs:70 | sorting any permutation of an ascending list gives that list |
| StreamFanIn.StepKeepsInv | src/bin/fixus-stream/main.rs:204-301 | every commit, attach, scan, failed scan and tail step keeps what was sent a known part of the turn |
| StreamFanIn.DeliveredIsPrefix | src/bin/fixus-stream/main.rs:204-301 | at every moment what was sent is a prefix of what the client can see, and all of it when the stream ends |
| StreamFanIn.ReplayedViewExactIff | src/bin/fixus-stream/main.rs:101-109 | after a successful scan the client's view is the turn's story if and only if the story ended before the scan or no unsubscribed event follows it |
| StreamFanIn.FailedScanExactIff | src/bin/fixus-stream/main.rs:204-240 | after a failed scan the view is the turn's story if and only if nothing of the turn was committed before attaching and nothing unsubscribed follows |
| StreamFanIn.ExactlyOnce | src/bin/fixus-stream/main.rs:204-301 | for every interleaving in which nothing is missed, with or without a successful scan: a prefix of the turn's story at every moment, the whole of it when done, everything committed when the tail is read to its end |
| StreamFanIn.ViewExactIff | src/bin/fixus-stream/main.rs:204-301 | and that condition is exact: in every run the client's view is the turn's story if and only if nothing is missed |
| StreamFanIn.DoneMeansClosed | src/bin/fixus-stream/main.rs:204-301 | in every run, the last event of a client that is told its turn is done is a record of the log after which the turn is not active |
| StreamFanIn.SubscribedTypes | src/bin/fixus-stream/main.rs:101-109 | the client asks for every turn and step event but `turn_pending` |
| StreamFanIn.UnsubscribedMovesNothing | src/bin/fixus-stream/main.rs:101-109 | what it does not ask for neither starts nor ends a turn or a step |
| StreamFanIn.PendingIsMissed | src/bin/fixus-stream/main.rs:101-109 | a client that scans before its turn is announced and follows it to the end is told that it is done without having seen `turn_pending` |
| Dispatcher.TopExists | src/dispatcher.rs:54-61 | a non-empty queue has a greatest entry |
| Dispatcher.TopUnique | src/dispatcher.rs:54-61 | with distinct sequence numbers it has only one |
| Dispatcher.OperationsKeepWf | src/dispatcher.rs:85-123 | enqueue, pop and release keep types and numbers of the queues consistent |
| Dispatcher.DispatchQueues.constructor | src/dispatcher.rs:79-85 | empty queues with a cap of at least one |
| Dispatcher.DispatchQueues.Enqueue | src/dispatcher.rs:88-101 | adds one entry with the next number and answers the queue's length |
| Dispatcher.DispatchQueues.TryPop | src/dispatcher.rs:104-114 | below the cap, removes the greatest entry and takes a slot; otherwise changes nothing |
| Dispatcher.DispatchQueues.OnTurnTerminal | src/dispatcher.rs:117-123 | gives back one slot of the type if one is in use |
| Scheduler.KeyTextInjective | src/orchestrator.rs:1190 | distinct turns have distinct `task:turn` keys |
| Scheduler.Orchestrator.constructor | src/orchestrator.rs:153-187 | the empty scheduler |
| Scheduler.Orchestrator.FailTask | src/orchestrator.rs:1297-1350 | drops the turn's retry counter and dispatch time |
| Scheduler.Orchestrator.DispatchAllPending | src/orchestrator.rs:1469-1504 | the loop pops until the type is empty or at its cap, and closes what the broker refused |
| Scheduler.Orchestrator.EnqueueTurn | src/orchestrator.rs:1435-1467 | enqueues one turn and dispatches its type |
| Scheduler.Orchestrator.ReleaseSlotAndRedispatch | src/orchestrator.rs:1506-1520 | gives the slot back and dispatches, or leaks it when the type is unknown |
| Scheduler.Orchestrator.HandleTurnExecutionDone | src/orchestrator.rs:1073-1139 | the state after a done report |
| Scheduler.Orchestrator.HandleTurnExecutionError | src/orchestrator.rs:1141-1270 | the state after an error report: retry, leak or finish |
| Scheduler.Orchestrator.FailTurnAndRespond | src/orchestrator.rs:1369-1383 | the state after a timeout |
| Scheduler.Orchestrator.ReclaimStaleTurns | src/orchestrator.rs:1528-1568 | reclaims exactly the turns whose dispatch time is older than the lease, once each, in some order |
| SchedulerRuns.PopKeepsConserved | src/dispatcher.rs:104-114 | a pop moves one turn from waiting to popped and loses or doubles none |
| SchedulerRuns.PopKeepsOrder | src/dispatcher.rs:54-61 | a pop overtakes nobody |
| SchedulerRuns.PopTakesMostUrgent | src/dispatcher.rs:54-61 | a pop takes the waiting turn of greatest priority, the first come among equals, and starts its clock |
| SchedulerRuns.DispatchPendingKeeps | src/orchestrator.rs:1469-1504 | a dispatch round keeps history and ledger, leaves its type with no waiting turn beside a free slot, and does not touch other types |
| SchedulerRuns.StepKeepsSteady | src/orchestrator.rs:1073-1568 | every operation, reports about any turn and under any type included, keeps conservation, order, cap and work conservation, and shifts the slot ledger of each type by exactly its drift |
| SchedulerRuns.StepKeepsSafe | src/orchestrator.rs:1073-1270 | every handler on a turn that is out, under its own type or none, also keeps the ledger |
| SchedulerRuns.SchedulerSafety | src/orchestrator.rs:1073-1568 | in every run whatever, per type: the queue is the enqueued minus the popped turns, nobody overtakes, the cap holds, no turn waits beside a free slot, and slots in use are dispatched turns plus leaks plus the drift of the reports, which is zero when all reports concern turns that are out under their own type or none |
| SchedulerRuns.DecisionMeaning | src/retry.rs:49-61 | a retry is due if and only if the reason is none of application error, denied policy and cancellation and the budget has room |
| SchedulerRuns.ErrorRetriesIff | src/orchestrator.rs:1141-1270 | after a confirmed error report a turn is still out if and only if its start is there, the reason is not one of those three, its attempts are below the budget and it could be sent again; then it has one attempt more and nothing else changes, and otherwise its counter is gone |
| SchedulerRuns.ReclaimedUntilBudget | src/orchestrator.rs:1528-1568 | a turn that is only ever reclaimed and sent again is still out after as many reclaims as the budget allows, and gone after the next one |
| SchedulerRuns.ReclaimRefreshesClock | src/orchestrator.rs:1528-1568 | a turn reclaimed and sent again is stale again exactly when the lease has run out anew |
| SchedulerRuns.DispatchSetsClocks | src/orchestrator.rs:1469-1504 | a dispatch round gives its own time to every clock it sets |
| SchedulerRuns.RunBalancesIff | src/orchestrator.rs:1073-1568 | for every run: the ledger balances after every operation if and only if no report releases a slot that its turn does not hold |
| SchedulerRuns.QuiescentQueuesAreEmpty | src/orchestrator.rs:1469-1520 | when nothing is out and a type has not leaked all its slots, its queue is empty |
| SchedulerRuns.ReportBreaksLedgerIff | src/orchestrator.rs:1073-1568 | an operation breaks the ledger if and only if it is a report that ends its turn, the store names a type, and the turn is out under another type or, not being out, the named type has a slot in use |
| SchedulerRuns.StrayReportBreaksLedgerIff | src/orchestrator.rs:1073-1568 | of a turn that is not out: a report breaks the ledger if and only if it ends that turn (confirmed done, timeout, or an error or reclaim decided as failure) and names a type with a slot in use |
| SchedulerRuns.StrayReportIsReachable | src/orchestrator.rs:1369-1383 | such a report is one enqueue away from the empty scheduler |
| SchedulerRuns.ReportProgress | src/retry.rs:49-61 | every confirmed report lowers the potential by more than the pops it triggers |
| SchedulerRuns.ReportsAreBounded | src/orchestrator.rs:1073-1568 | without new turns, reports plus pops plus the potential left number at most the potential at the start: (M+2) per waiting turn plus M+1 minus attempts per dispatched one |
| SchedulerRuns.EnoughReportsDrain | src/orchestrator.rs:1073-1568 | a run of confirmed reports that uses up the potential leaves nothing out and nothing waiting |
| SchedulerRuns.ReportPossibleIff | src/orchestrator.rs:1073-1270 | a confirmed, legitimate report is possible if and only if some turn is out |
| SchedulerRuns.StuckMeansDrained | src/orchestrator.rs:1073-1568 | a run that no confirmed report can prolong has drained: nothing is out, and every type with a slot that has not leaked has an empty queue |
| SchedulerRuns.CanDrain | src/orchestrator.rs:1073-1139 | from every state of a run some run of confirmed reports drains and leaks nothing |
| SchedulerRuns.CountersStayInBudget | src/retry.rs:49-61 | in every run whatever, retry counters stay between zero and the budget |
| SchedulerRuns.ClockMapIsExact | src/orchestrator.rs:1469-1568 | when reports concern turns that are out and new turns bring keys not in use, the clock map lists exactly the turns that are out |
| SchedulerRuns.ReusedKeyLosesClock | src/orchestrator.rs:1073-1139 | a turn enqueued twice and reported done once is out without a clock, so the watchdog never finds it stale |
| SchedulerRuns.RoundIsLegit | src/orchestrator.rs:1528-1568 | reclaiming one turn never takes away another that is still to be reclaimed in the same round |
| SchedulerRuns.WatchdogRoundIsLegit | src/orchestrator.rs:1528-1568 | a watchdog round, in any order, is a legitimate run of reclaims |
| SchedulerRuns.LeaksExactlyIff | src/orchestrator.rs:1073-1270 | a report adds one to the leaks of its turn's type if and only if it is a confirmed done or a timeout with an unresolved type, or a confirmed error or reclaim without start, with a retry that cannot be sent, or failing with an unresolved type; it changes no other count |
| SchedulerRuns.LeaksAreCounted | src/orchestrator.rs:1073-1568 | over every run the leaks of a type are the leaking reports about its turns |
| SchedulerRuns.FullTypePopsIff | src/orchestrator.rs:1469-1520 | while every slot of a type is in use, an operation pops a turn of it if and only if it is a report that ends its turn and names the type, and somebody waits |
| SchedulerRuns.FullTypeStarves | src/orchestrator.rs:1469-1520 | until such a report, no run pops a turn of a full type, and none that waits leaves its queue |
| SchedulerRuns.LeakedTypeStarves | src/orchestrator.rs:1180-1251 | once every slot of a type has leaked, no run of reports about turns that are out pops a turn of that type, whether it was waiting or is enqueued during the run |
| SchedulerRuns.StrayReportUnstarvesIff | src/orchestrator.rs:1506-1520 | with every slot leaked, an operation lets a turn of the type out if and only if it is a report that ends its turn and names the type while somebody waits; it is then a stray one and breaks the ledger |
| SchedulerRuns.EverySlotCanLeak | src/orchestrator.rs:1141-1251 | from the empty scheduler, turns of one type that each fail before their start has reached the log leak its slots one by one, up to all of them |
| SchedulerRuns.StarvationIsReachable | src/orchestrator.rs:1141-1251 | after such a run no legitimate run whatever pops a turn of the type |

## Left out

- Broker, gRPC, Redis, HTTP, SSE framing and child processes: foreign calls. The broker is an append that returns the next number, never fails and is seen whole by a catch-up.
- Races inside a handler: the guard reads before the writer lock, and the watchdog scans beside reports. Each store operation and each handler is one step here; only the cache is also modelled with overlapping catch-ups (`RacingCache`).
- `check_terminal_uniqueness`, `archive_events_before_seq`, tenant policies and tool dispatch of the two stores; the production store's `detect_seq_gaps` and `is_turn_seq_continuous`, which answer without looking.
- `count_turns_after_seq`, `count_events_after_seq`, `get_events_after_seq` and `get_recent_turn_ids`: the two stores do not agree on them and the projection's answers are one-line filters.
- Timestamps, durations, message texts of events, and the projection's `provenance`, `body` and `effective_policy`, which are copied from `task_created`; tokens are integers without overflow, and so are sequence numbers and turn ids.
- An event whose type string is unknown: the log holds known types only, so the string maps of event types and states are not modelled.
- SHA-256 and UUIDs: an arbitrary digest function, and ids as arguments. Floats are the tokens they print to.
- `TokenUsageResponse::from_by_model`, metrics, `server.rs`, `context.rs`, `task_registry.rs`, `fixlet/*`, command lines and environment variables: routing and counters.
- TOML and JSON decoding: loading starts from decoded entries and renders decoded arguments.
- SchedulerRuns.ClockMapIsExact: assumes reports about turns that are out and keys that are not in use, which the code does not check; `ReusedKeyLosesClock` shows that it fails otherwise.
- Dispatcher.DispatchQueues.TryPop: the binary heap is the set of its entries; its array layout is not modelled.
- Projection.TaskProjection.ListTurnSteps: the final stable sort by start time is left out, since times are; it is the identity when times follow the numbers.
- Service.StartTurn: does not model the bounded wait until a new task becomes visible; a task is visible at once.
- Recovery.RecoverTask: the error returns of its writes are carried but never taken, since appends succeed here.
- RecoveryFacts.ReturnedAreHandedBack: the redo count is a 32-bit number whose increment wraps, as in a release build; a debug build stops there.
- ToolRegistry.Registry.Register: an adapter is its name and a fixed list of tool names; invoking it is not modelled.
- BrokerStore.RunsAreGuardedIff: the runs' batch operation is a batch of one task; batches over several are treated by themselves (`Batches`).
- Batches.BatchCoherentIff: for a cached first task its condition is on the replayed projection. On the events themselves the condition is exact when those of other tasks belong to turns (`TurnBatchCoherentIff`) and only necessary otherwise (`CoherentBatchNeeds`).
- ReferenceStore.IncompleteListsAgreeIff: a `turn_started` without turn id, which the scope check refuses, is not a row; the final sort by turn id is left out, as the lists are compared up to order.
- JsonReader.CanonicalReadsBack: the reader takes no optional white space, which canonical texts do not have; floats are read as their tokens, which are numbers as in section 6 of RFC 8259.
- ReferenceStore.GetTurnSteps: start times, end times and durations are left out, as times are.
- StreamFanIn.ExactlyOnce: assumes an ordered, lossless tail after attaching, and that a scan that succeeds returns the committed log; forwarder lag and reconnects are not modelled.
- CanonicalJson.KeyIdentifiesCall: assumes that neither task id extends the other over `:bank`, without which it is false (`TasksShareKeyIff`), and that the shortened digest does not collide on the two texts.
