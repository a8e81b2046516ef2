# Blackline core: a verified model

This Dafny project models three parts of Blackline, a reconnaissance engine, and proves what they are for.

**The plan scheduler.** A plan is a list of steps with dependencies. It is validated, cut into groups and run group by
group on a bounded pool of threads, with retries, cooperative cancellation, keyboard interrupts, dependency skips and a
deduplicating artifact store. `graph.dfy` and `plan_groups.dfy` hold validation and layering, `wave_edges.dfy` the
dependency edges the planner attaches. `schedule_machine.dfy` is the scheduler as a step system, in which the main
thread, every worker, a user who cancels and an interrupt may act in any order; the executor is an unknown function.
The `schedule_*` files prove safety, independence of the schedule, skip propagation, the account of cancelled runs and
termination for every run of that system. `schedule_program.dfy` is the program itself, with its loops and local
variables; each of its methods is shown to take only steps of the system, so that all results about runs hold of it. Its
environment is an input: when a user cancels, when a keyboard interrupt arrives, and which worker runs when. A run ends
cancelled exactly when the environment or an interrupted executor made it so, and otherwise returns what the sequential
reference returns.

**Vector.** `vector_memory.dfy` says what observations do to the fact store, `vector_state.dfy` is the mutable store
with its two indexes, `resolver.dfy` the incremental matcher of capabilities and rules, `planner.dfy` candidate
generation and ranking, `investigation.dfy` the decision cycle and the round loop. The main results: the indexes agree
with linear scans, incremental evaluation loses nothing exactly for canonically spelled conditions, every round of an
investigation is decided on all evidence up to then, and no candidate is ever selected twice.

**CLT**, the workflow language. `clt_lexer.dfy`, `clt_parser.dfy`, `clt_normalize.dfy`, `clt_compile.dfy` and
`clt_runtime.dfy` specify lexer, grammar, phrase meaning, validation, IR and interpreter; `clt_scanner.dfy` and
`clt_cursor.dfy` are the lexer's loops and the parser's cursor, proved equal to the specification; `clt_render.dfy`,
`clt_print.dfy`, `clt_comments.dfy` and `clt_roundtrip.dfy` print trees as tokens and as source and prove that lexing and
parsing undo the printing. What a syntax tree asks for under given facts is said without the compiler, and compiling and
running it is proved to do that.

Five expectations one might have of the program are false, and for each the exact condition is proved.

- Attaching wave edges can make an acyclic plan cyclic when a step has dependencies of its own; validation then refuses
  the plan. `WaveEdges.EdgesCycleIff` says exactly when, `WaveEdges.ExplicitDependenciesCanCycle` is an instance.
- A comment can change the meaning of its line: the comment scanner opens a string at a quote character inside of a bare
  word where the tokenizer does not. `CltComments.CommentIsInvisibleIff` says exactly when, and that the result is an
  error; `CltComments.ApostropheHidesComment` is an instance, `CltRoundTrip.SourceRoundTrip` the effect on whole sources.
- Executor calls can still begin after a cancellation, since callbacks run between the test of the flag and the call.
  `ScheduleTheorems.CancelBoundsCalls` says which and how many.
- The delta query can miss a condition that became true. `VectorMemory.CompletenessIsExact` says exactly for which
  spellings.
- An accepted condition can be one that never holds. `CltNormalize.AcceptedCanHold` says which.

Where documentation and code differ the model follows the code. Strings are ASCII: `lower`, `strip`, `isdigit`, `int`
and `str` are those of `text.dfy`. The executor, the environment of the scheduler, the capability handlers, the address parser
(`isIp`) and the outside world of the round loop are parameters.

Check everything with `dafny verify dfyconfig.toml`.

## Model

| member | source | states |
|---|---|---|
| `Graph.ValidatePlanGraph` | blackline/engine/graph.py:11-29 | accepts exactly the plans with unique identities, known dependencies and no dependency cycle; names the first step with an unknown dependency; a refused cycle is an actual cycle among the blocked steps |
| `Graph.DependencyWaves` | blackline/engine/graph.py:32-50 | the waves partition the steps, ascending in each wave, every step in the first wave for which it is ready; a failure leaves steps none of which can ever become ready |
| `Graph.StuckMeansCycle` | blackline/engine/graph.py:43-45 | when the loop gets stuck on known dependencies, the remaining steps contain a dependency cycle |
| `Graph.WalkCloses` | blackline/engine/graph.py:37-45 | pigeonhole: a walk along dependencies that can always go on inside a finite set contains a cycle |
| `Graph.LayeredMeansAcyclic` | blackline/engine/graph.py:32-50 | a plan that can be layered has no dependency cycle |
| `Graph.DependencyStandsEarlier` | blackline/engine/graph.py:38-49 | a dependency stands in a strictly earlier wave |
| `Graph.ChainFits` | blackline/engine/graph.py:32-50 | no dependency chain is longer than the wave number of its first step allows |
| `Graph.LongestChain` | blackline/engine/graph.py:32-50 | a chain of exactly that length exists, so the wave number is the length of the longest chain |
| `Graph.LayersAreUnique` | blackline/engine/graph.py:32-50 | the steps alone determine the waves |
| `PlanGroups.PlanStepGroups` | blackline/engine/scheduler.py:298-305 | with dependencies the groups are the dependency waves; without, they are the classes of the effective execution group in ascending order, each in plan order; either way they stage the plan, and a refusal is a deadlock |
| `PlanGroups.GroupBy` | blackline/engine/scheduler.py:302-305 | the dictionary of groups and the sorted keys give the partition by ascending key |
| `PlanGroups.StageIsOfGroups` | blackline/engine/scheduler.py:298-305 | the group of every step can be read off the list of groups |
| `PlanGroups.InferredGroups` | blackline/engine/scheduler.py:308-321 | the steps that the inferred groups one and two hold, every other step being in group zero, and a given group stays |
| `WaveEdges.AttachWaveDependencies` | blackline/engine/planner.py:266-283 | gives each step of a positive group without dependencies its edges, and leaves every other step as it is |
| `WaveEdges.EdgesAre` | blackline/engine/planner.py:272-280 | one optional edge for each step of a smaller group, demanding the kinds that the one produces and the other consumes |
| `WaveEdges.StillKnown` | blackline/engine/planner.py:266-283 | only dependencies change; identities stay unique and dependencies stay known |
| `WaveEdges.DependsOnLowerGroups` | blackline/engine/planner.py:271-281 | the attached plan depends from a step to another exactly when the wave group of the second is smaller |
| `WaveEdges.LayersAreGroups` | blackline/engine/planner.py:266-283 | every layering of the attached plan is the grouping by ascending execution group, for all integers as groups |
| `WaveEdges.PlanWaves` | blackline/engine/planner.py:266-283 | planning such steps and layering the result never fails and gives the execution groups |
| `WaveEdges.EdgesAreAcyclic` | blackline/engine/planner.py:271-282 | the attached edges alone never close a cycle; a cycle needs a step with dependencies of its own |
| `WaveEdges.AttachedDependencies` | blackline/engine/planner.py:269-282 | in the attached plan a free step of a positive group depends exactly on the steps of smaller groups, any other step as before |
| `WaveEdges.EdgesCycleIff` | blackline/engine/planner.py:266-283 | the attached plan is cyclic exactly when the plan was or its dependencies lead from some step to a free step of a larger group; so a planned plan is valid exactly when the plan was and has no such chain |
| `WaveEdges.ExplicitDependenciesCanCycle` | blackline/engine/planner.py:269-271 | an instance: a valid acyclic plan with such a chain, whose attached plan is cyclic |
| `WaveEdges.EdgesNeverSkip` | blackline/engine/scheduler.py:254-275 | attached edges never change the dependency skip of a step |
| `WaveEdges.EdgesExist` | blackline/engine/scheduler.py:298-301 | the scheduler follows the edges exactly when two steps stand in different wave groups |
| `Artifacts.ArtifactStore.constructor` | blackline/core/artifacts.py:29-32 | a new store holds the first occurrences of the initial artifacts |
| `Artifacts.ArtifactStore.Add` | blackline/core/artifacts.py:34-40 | adds an artifact exactly when no stored one has its identity, and keeps list and identity set in agreement |
| `Artifacts.ArtifactStore.Extend` | blackline/core/artifacts.py:42-44 | adds artifacts one by one |
| `Artifacts.ArtifactStore.Snapshot` | blackline/core/artifacts.py:64-65 | a fresh store with the same artifacts in the same order |
| `Artifacts.AddedAllIsFirstOccurrences` | blackline/core/artifacts.py:34-44 | adding one by one to an empty store is removing later duplicates |
| `Artifacts.FirstOccurrencesKeepKeys` | blackline/core/artifacts.py:74-81 | removing duplicates loses no identity and leaves none twice |
| `Artifacts.AddedAllExtends` | blackline/core/artifacts.py:34-44 | nothing in the store is ever lost or moved |
| `Artifacts.SameFact` | blackline/core/artifacts.py:74-81 | two artifacts are the same fact exactly when they differ in nothing but confidence and time |
| `PlanModel.ResultIsStable` | blackline/engine/models.py:75-87 | a classified result has one of five outcomes, is ok exactly when it was so or did not fail, and classifies to itself again |
| `PlanModel.ClassifyIff` | blackline/core/recon/outcomes.py:13-33 | an outcome named by the payload is the answer, however cased and padded; without one each of the five answers has its own condition |
| `ScheduleSafety.RunKeeps` | blackline/engine/scheduler.py:64-251 | the invariant of the step system holds after every run: pool, slots, outcomes, counter and trace agree |
| `ScheduleTheorems.RunsAreSafe` | blackline/engine/scheduler.py:147-218 | in every run, cancelled ones included: at most max_concurrency workers, every running step has recorded outcomes for all its dependencies, and no step is announced or handed to the executor more than max_attempts times |
| `ScheduleTheorems.CallsAreAnnounced` | blackline/engine/scheduler.py:214-218 | every announced attempt is one call of the executor, made or just about to be made |
| `ScheduleTheorems.TracesAreWellFormed` | blackline/engine/scheduler.py:205-250 | the events of a step are (started retrying)* and one terminal event, or one skip; a filled slot means exactly one terminal event |
| `ScheduleTheorems.CancelBoundsCalls` | blackline/engine/scheduler.py:205-218 | after a cancellation no worker passes its test; each worker already past it makes one more executor call or has it still before it, and nobody else makes any |
| `ScheduleTheorems.CancelAllowsFewCalls` | blackline/engine/scheduler.py:155-218 | so at most as many executor calls begin after a cancellation as workers were past their test, and that is at most max_concurrency |
| `ScheduleTheorems.CallsAfterCancelHappen` | blackline/engine/scheduler.py:206-218 | the bound is met: a worker past its test does go on to the executor |
| `ScheduleTheorems.FinishedAccount` | blackline/engine/scheduler.py:75-132 | a finished run: the counter, the filled slots and the returned results agree, results stand in plan order, groups before the last are complete, an interrupted group contributes only skipped steps, an uncancelled run fills every slot |
| `ScheduleTheorems.ScheduleIndependence` | blackline/engine/scheduler.py:82-132 | every uncancelled finished run, whatever the interleaving, ends with the slots, outcomes, counter and store of the sequential reference |
| `ScheduleTheorems.LimitDoesNotMatter` | blackline/engine/scheduler.py:153-170 | runs under different concurrency limits end alike |
| `ScheduleTheorems.FinalStore` | blackline/engine/scheduler.py:113-122 | the final store is the first-occurrence dedup of the initial artifacts and all produced ones in (group, index) order |
| `ScheduleOrder.RunAgrees` | blackline/engine/scheduler.py:82-191 | at every point of an uncancelled run the ledger is that of the reference and every worker is on course to its settled result |
| `ScheduleOrder.SettleMeaning` | blackline/engine/scheduler.py:204-251 | undisturbed, every attempt before the last ended with a retryable outcome, the last is number max_attempts or ended otherwise, and an attempt that raises counts as failed with its message |
| `ScheduleSkips.ExecutorIsSupplied` | blackline/engine/executor.py:72-89 | whenever a worker is about to call or inside the executor, every required artifact is in its snapshot, so the missing-artifact check of the executor does not fire |
| `ScheduleSkips.RunnableIff` | blackline/engine/scheduler.py:85-100 | a step of a group is kept for the pool exactly when it is not skipped against the ledger from before its group; otherwise it ends skipped |
| `ScheduleSkips.ExecutedIff` | blackline/engine/scheduler.py:254-275 | in an uncancelled run the executor is called for a step exactly when no required dependency ended failed or skipped and no required artifact is missing; otherwise the step ends skipped |
| `ScheduleSkips.DependencyOutcome` | blackline/engine/scheduler.py:87-90 | what a step sees of a dependency when its group opens is the final outcome of that dependency |
| `ScheduleSkips.SkipsPropagate` | blackline/engine/scheduler.py:254-263 | for every step reachable over required edges from a failed or skipped step: it ends skipped and the executor is never called for it |
| `ScheduleMachine.SkippedIff` | blackline/engine/scheduler.py:254-279 | a step is skipped exactly when a dependency that is not optional failed or was skipped or no stored artifact is of a kind it requires; a skip is a result skipped without artifacts |
| `ScheduleSkips.ExecutedResult` | blackline/engine/scheduler.py:204-251 | in an uncancelled run the result of an executed step is what its last attempt gave against the store its group opened with; every attempt before was retried |
| `ScheduleProgress.StepUses` | blackline/engine/scheduler.py:155-190 | every action brings a run strictly closer to its end |
| `ScheduleProgress.RunsAreBounded` | blackline/engine/scheduler.py:155-190 | so every run is finite, with a bound known at its start |
| `ScheduleProgress.NextAction` | blackline/engine/scheduler.py:155-190 | no deadlock: a run that is not done can go on without a cancellation |
| `ScheduleProgram.ExecutionControl.Cancel` | blackline/engine/scheduler.py:54-57 | sets the flag and the reason |
| `ScheduleProgram.SchedulePlan` | blackline/engine/scheduler.py:64-132 | whatever the environment does and whenever, the program takes only steps of the step system, ends, returns the filled slots in plan order and leaves the store of the final state; it ends cancelled exactly if it began so, a user cancelled or it was interrupted, which takes a keyboard interrupt during a wave or an interrupted executor; otherwise results and store are those of the sequential reference |
| `ScheduleProgram.Moment` | blackline/engine/scheduler.py:54-57 | at one moment of the main thread the flag is set if a user cancels and a keyboard interrupt is noticed inside a wave; the account of cancellations stays exact |
| `ScheduleProgram.NoStrayInterruptions` | blackline/engine/scheduler.py:216-217 | in every run a future ends in an interruption only when the executor was interrupted |
| `ScheduleProgram.OpenGroup` | blackline/engine/scheduler.py:85-100 | the first loop over a group computes the opened ledger and the runnable steps |
| `ScheduleProgram.MergeResults` | blackline/engine/scheduler.py:113-123 | the second loop records the results by ascending index, whatever order they completed in, and extends the store |
| `ScheduleProgram.RunWave` | blackline/engine/scheduler.py:135-191 | a wave ends in the closed state of the step system; one that is interrupted, while submitting, waiting or collecting, returns nothing |
| `ScheduleProgram.LeaveInterrupted` | blackline/engine/scheduler.py:183-191 | an interrupted wave cancels the run, waits for the pool and merges nothing |
| `ScheduleProgram.SubmitPending` | blackline/engine/scheduler.py:156-170 | steps are handed over only while there is room and nobody has cancelled, up to an interrupt |
| `ScheduleProgram.AwaitOne` | blackline/engine/scheduler.py:173 | waiting ends with a finished future or a keyboard interrupt, whatever the other threads do meanwhile |
| `ScheduleProgram.CollectDone` | blackline/engine/scheduler.py:174-182 | finished futures become results; an interrupted one cancels the run |
| `ScheduleProgram.CollectOne` | blackline/engine/scheduler.py:174-180 | one finished future becomes a result or cancels the run |
| `ScheduleProgram.Shutdown` | blackline/engine/scheduler.py:186-190 | after an interrupt every started future runs to its end and the others are dropped |
| `ScheduleProgram.WorkerStep` | blackline/engine/scheduler.py:205-250 | one piece of a worker, the test, the announcement, the call, the return or the end of the backoff, is one action of the step system |
| `PlanExecution.ExecutePlan` | blackline/engine/executor.py:24-60 | runs a plan exactly when validation accepts it, under the given limit and in its dependency waves or, without dependencies, its execution groups; it ends cancelled exactly if it began so, a user cancelled or it was interrupted; otherwise the results are index by index those of the sequential reference |
| `ScheduleProgram.UncancelledResults` | blackline/engine/scheduler.py:126-132 | an uncancelled run returns one result for each step, in plan order |
| `PlanExecution.ExecuteWithRetries` | blackline/engine/scheduler.py:194-251 | the retry loop returns from inside the loop, at an attempt within the limit, every earlier attempt having ended with a retryable outcome; undisturbed, the last attempt is number max_attempts or ended otherwise, and its result is returned, failed with the message if it raised; the ending and the events are one of four kinds |
| `VectorMemory.DeltaComplete` | blackline/vector/state.py:77-95 | a canonical condition that holds after an ingest and did not before is among the keys of the delta |
| `VectorMemory.CompletenessIsExact` | blackline/vector/resolver.py:84-93 | the delta never misses a condition exactly when the condition is spelled canonically or can never hold |
| `VectorMemory.NonCanonicalIsMissed` | blackline/vector/state.py:97-107 | a satisfiable condition in another spelling is missed by the first observation that makes it true |
| `VectorMemory.NothingForgotten` | blackline/vector/state.py:124-170 | no ingest removes a service, a fact, a source or an observation id, or lowers a confidence |
| `VectorMemory.StaysSane` | blackline/vector/state.py:124-170 | stored services keep validated fields, and services and facts are in lower case |
| `VectorMemory.SatisfiableIff` | blackline/vector/state.py:109-114 | some observations can make a condition hold exactly when it is spelled the way observations are stored |
| `VectorMemory.Updated` | blackline/vector/state.py:136-143 | the fields are those of the reading; sources, observation ids and details are exactly those of the existing service and the observation, the lists sorted, the observation winning on details, the confidence the larger one |
| `VectorMemory.ReportStands` | blackline/vector/state.py:124-170 | the last report wins, touches no other endpoint and no other fact, and is noted as a change exactly when it changes something |
| `VectorMemory.ServiceIsRead` | blackline/vector/state.py:124-135 | for all data: space around the host is taken off, a missing transport is tcp, and protocol, state and transport are in lower case |
| `VectorMemory.ServiceIsRefused` | blackline/vector/state.py:124-135 | a report is refused exactly when a field is missing or empty, the host is nothing but space or the port is no port |
| `VectorMemory.DeltaSound` | blackline/vector/resolver.py:84-93 | every key of the delta held after some of the observations, or was reported as a plain fact about services or ports |
| `VectorMemory.BeforeMeans` | blackline/vector/state.py:63-65 | hosts come first, then port numbers, then transports |
| `VectorMemory.EndpointOrder` | blackline/vector/state.py:63-65 | endpoints are totally ordered |
| `VectorStore.VectorState.Ingest` | blackline/vector/state.py:77-95 | applies the observations in order and reports exactly what changed; an unreadable one leaves the earlier ones applied and the revision unchanged; the indexes stay in agreement |
| `VectorStore.VectorState.IngestService` | blackline/vector/state.py:124-151 | both indexes list exactly the endpoints of each protocol and port, even when an observation changes the protocol |
| `VectorStore.VectorState.IngestFact` | blackline/vector/state.py:153-170 | a fact is stored or left, and reported when it changed |
| `VectorStore.VectorState.Matches` | blackline/vector/state.py:97-107 | the index lookup equals a linear scan of all services in endpoint order |
| `VectorStore.VectorState.HoldsNow` | blackline/vector/state.py:109-114 | decides whether some fact proves the condition |
| `VectorStore.VectorState.AllServices` | blackline/vector/state.py:62-65 | all services, once each, in endpoint order |
| `Resolving.NewlyApplicableIsTouched` | blackline/vector/resolver.py:63-69 | a capability with canonical requirements that hold now and did not all hold before is among the candidates of the delta query |
| `Resolving.DeltaRulesLoseNothing` | blackline/vector/resolver.py:46-56 | looking only at the rules the delta touches loses no action of a newly true canonical condition and adds none |
| `Resolving.RuleActionsAre` | blackline/vector/resolver.py:46-56 | an intent is an action of a rule exactly when the rule is there, its condition holds and the intent is a flow directly in its body |
| `Resolving.FlowsJoin` | blackline/vector/resolver.py:46-56 | the flows of a body stand in the order of the body, each as often as there |
| `Resolving.OnlyColonsGo` | blackline/vector/resolver.py:58-61 | the name of an intent loses its trailing colons and nothing else |
| `Resolving.Resolver.RegisterCapability` | blackline/vector/resolver.py:22-30 | refuses a taken identity, otherwise registers and indexes the capability under each requirement |
| `Resolving.Resolver.RegisterRule` | blackline/vector/resolver.py:32-35 | appends the rule and indexes it under its condition |
| `Resolving.Resolver.ApplicableCapabilities` | blackline/vector/resolver.py:37-44 | exactly the registered capabilities whose requirements hold and which the delta touches, by identity |
| `Resolving.Resolver.MatchingRuleActions` | blackline/vector/resolver.py:46-56 | the actions of all rules, or with a delta of exactly the touched rule objects, each once |
| `Resolving.Resolver.CapabilityForIntent` | blackline/vector/resolver.py:58-61 | a registered capability is found by its own intent; an intent without an exact capability finds the one of its verb alone |
| `Resolving.Resolver.CandidateIds` | blackline/vector/resolver.py:63-69 | the index lookup gives exactly the touched capabilities |
| `Resolving.Resolver.CandidateRules` | blackline/vector/resolver.py:71-81 | the index lookup gives exactly the touched rules, no object twice |
| `Planning.Candidates` | blackline/vector/planner.py:14-54 | exactly one candidate for each proposed identity that is not completed |
| `Planning.MatchingServices` | blackline/vector/planner.py:57-65 | narrowing the matches of the first service requirement gives the services that meet all of them |
| `Planning.CapabilityTargets` | blackline/vector/planner.py:31-42 | a capability is proposed at every such service, or at the goal target when it needs none |
| `Planning.RuleTargets` | blackline/vector/planner.py:44-51 | a rule action is proposed at every service its condition matches, or at the goal target |
| `Planning.AddCandidate` | blackline/vector/planner.py:72-74 | the dictionary keeps the first candidate of each identity and gains one exactly for a new identity that is not completed |
| `Planning.RankKeeps` | blackline/vector/scorer.py:18-20 | ranking is a permutation in which scores never rise and equal scores stand in the order of the identities |
| `Planning.RankIgnoresOrder` | blackline/vector/scorer.py:18-20 | the candidates alone determine the ranking, not their insertion order |
| `Ordering.LessIff` | blackline/vector/scorer.py:18-20 | strings are ordered by their first difference |
| `Investigation.Vector.Decide` | blackline/vector/vector.py:59-87 | every raw candidate is ranked or rejected by the verdict on its own capability, never both and never lost; it is rejected exactly for one of the three reasons; the selection is the first few of the ranking |
| `Investigation.AllowsUnlessObjectionable` | blackline/vector/policy.py:28-36 | a capability is allowed exactly when it is on the list if there is one, within the risk limit and meant for the goal |
| `Investigation.FirstOf` | blackline/vector/vector.py:84 | the first few, or all of fewer, or for a negative bound all but the last few |
| `Investigation.Vector.Judge` | blackline/vector/vector.py:73-82 | the intent of every candidate resolves to the capability that proposed it |
| `Investigation.Vector.Observe` | blackline/vector/vector.py:46-49 | the state absorbs the observations, the decision carries their delta and is taken on the new state with what is completed; an unreadable observation raises |
| `Investigation.Vector.MarkCompleted` | blackline/vector/vector.py:55-57 | adds the identity of the candidate |
| `Investigation.Investigate` | blackline/engine/runner.py:131-158 | every round is decided on the evidence of the decisions before it with everything selected before completed, follows one that selected something and whose plan had steps, and begins uncancelled and within the limit; the loop ends exactly when one of these fails or the evidence is unreadable; exactly the selected candidates are completed besides, none was completed before and none is selected twice |
| `CltLexer.LexIsBalanced` | blackline/clt/lexer.py:24-53 | the indent stack is always 0, 4, ..., 4d; the error about an earlier block cannot occur; accepted tokens open and close blocks in balance, start every block with a token of a statement and end in their only EOF |
| `CltLexer.BalancedEndsOnce` | blackline/clt/lexer.py:50-53 | balanced tokens end in their only EOF, which the parser needs |
| `CltScanner.LexSource` | blackline/clt/lexer.py:14-53 | the loop over the lines computes the specified tokens |
| `CltScanner.LexContent` | blackline/clt/lexer.py:56-85 | the loop over the characters of a line computes the specified tokens |
| `CltScanner.StripComment` | blackline/clt/lexer.py:88-101 | the quote-aware loop cuts the line where the specification does |
| `CltScanner.ReadLiteral` | blackline/clt/lexer.py:104-115 | the literal and the number of characters it takes up |
| `CltScanner.OpenAndClose` | blackline/clt/lexer.py:36-45 | the push and pop loops compute the specified indentation tokens and stack |
| `CltPrint.ReadBack` | blackline/clt/lexer.py:104-115 | reading an escaped literal gives its value, whatever it contains |
| `CltRoundTrip.LiteralPasses` | blackline/clt/lexer.py:88-101 | the comment scanner passes over an escaped literal, hash signs and quotes included |
| `CltPrint.LexPrinted` | blackline/clt/lexer.py:29-48 | a printed line gives its indentation and its own tokens |
| `CltPrint.BlockLex` | blackline/clt/lexer.py:24-53 | the lines of a printed block give its tokens, with every block opened and closed where it should be |
| `CltComments.OnlySignificant` | blackline/clt/lexer.py:24-48 | the tokens of a source depend only on its lines without comments, trailing blanks and blank lines |
| `CltComments.DecorationIsInvisible` | blackline/clt/lexer.py:24-48 | so sources that differ only there have the same tokens or the same error |
| `CltComments.CommentIsCutIff` | blackline/clt/lexer.py:88-101 | a comment after a line is cut off exactly when the line leaves no quote open |
| `CltComments.CleanIffClosed` | blackline/clt/lexer.py:88-101 | these are exactly the lines after which the comment scanner starts afresh |
| `CltComments.CommentIsInvisibleIff` | blackline/clt/lexer.py:24-48 | for every accepted line without a comment: blanks and a comment after it change nothing exactly when the line leaves no quote open, and otherwise the line is refused at the hash sign |
| `CltComments.ApostropheHidesComment` | blackline/clt/lexer.py:80-84 | an instance: a bare word with a quote character in it |
| `CltRoundTrip.BareWordIff` | blackline/clt/lexer.py:80-85 | the words that the lexer reads back as themselves are the bare words |
| `CltRoundTrip.SurvivesIff` | blackline/clt/lexer.py:88-101 | the comment scanner gives back a printed line exactly when it does so without the comment after it and, if there is one, no quote is left open |
| `CltRoundTrip.ChangedIsRefused` | blackline/clt/lexer.py:56-101 | a printed line that the comment scanner changes is refused |
| `CltRoundTrip.SourceRoundTrip` | blackline/clt/lexer.py:14-53 | for every well-formed tree of bare words, printed with any comments and blank lines: lexing and parsing give the tree back or the lexer refuses the source, and it accepts exactly the sources whose printed lines all survive the comment scanner |
| `CltRoundTrip.PlainRoundTrip` | blackline/clt/lexer.py:14-53 | without quote characters in bare words every such source gives the tree back |
| `CltRender.ParseRendered` | blackline/clt/parser.py:18-21 | parsing the tokens of a well-formed module gives the module and leaves nothing |
| `CltRender.NodeBack` | blackline/clt/parser.py:35-73 | parsing the tokens of a statement gives the statement and what follows it |
| `CltRender.BlockBack` | blackline/clt/parser.py:23-33 | parsing the tokens of a block gives the block and stops at its end |
| `CltRender.ArgumentsBack` | blackline/clt/parser.py:84-101 | parsing the tokens of operation inputs gives the inputs |
| `CltCursor.Parser.Run` | blackline/clt/parser.py:18-21 | the cursor ends, never reads past EOF, and succeeds only when every token is consumed |
| `CltCursor.Parser.Block` | blackline/clt/parser.py:23-33 | the statement loop parses what the grammar says |
| `CltCursor.Parser.Statement` | blackline/clt/parser.py:35-73 | the cursor parses a statement as the grammar says |
| `CltCursor.Parser.RequiredBlock` | blackline/clt/parser.py:75-82 | a required block is indented and not empty |
| `CltCursor.Parser.Arguments` | blackline/clt/parser.py:84-101 | the argument loop parses what the grammar says |
| `CltCursor.Parser.PhraseUntilNewline` | blackline/clt/parser.py:103-108 | the phrase loop parses what the grammar says |
| `CltTrees.ParsedSourceHasPhrases` | blackline/clt/parser.py:37-51 | parsed phrases and condition bodies are never empty, so validation never takes the first word of an empty phrase |
| `CltNormalize.ConditionOrderIsFree` | blackline/clt/normalize.py:11-45 | every permutation of a condition phrase gets the same verdict and the same condition, for any vocabulary |
| `CltNormalize.ActionOrderIsFree` | blackline/clt/normalize.py:48-62 | every permutation of an action phrase gets the same verdict and the same intent |
| `CltNormalize.ConditionMeaning` | blackline/clt/normalize.py:11-45 | a phrase is accepted exactly when it is, in some order, one entity, one state and one suitable word, or one word that is entity and state at once and one suitable word, for any vocabulary |
| `CltNormalize.ActionMeaning` | blackline/clt/normalize.py:48-62 | a phrase is accepted exactly when it is one action word, alone or with one known subject on either side |
| `CltNormalize.AcceptedIsCanonical` | blackline/clt/normalize.py:28-42 | accepted ports are canonical decimals from 1 to 65535 and accepted protocols are lower case, so delta queries on compiled rules are complete |
| `CltNormalize.AcceptedCanHold` | blackline/clt/normalize.py:43-45 | which accepted conditions can ever hold: a value that is not lowered must be in lower case already |
| `CltCompile.ValidatorAgrees` | blackline/clt/validator.py:16-39 | validation accepts a block exactly when it compiles and no operation repeats an option name, ignoring case |
| `CltCompile.HasDistinctNames` | blackline/clt/validator.py:23-29 | the loop over the options finds a repeated name, ignoring case |
| `CltCompile.CheckBlock` | blackline/clt/validator.py:16-39 | the loop over the statements finds the first error of the specification |
| `CltCompile.ValidateFindsFirst` | blackline/clt/validator.py:16-39 | the error of a block is the fault of its first faulty statement in the order of the source, however deep |
| `CltCompile.BlockOptionsDistinct` | blackline/clt/compiler.py:31-33 | after validation the options of every compiled operation have distinct names |
| `CltRuntime.DictKeeps` | blackline/clt/runtime.py:95 | turning such options into a dictionary loses none |
| `CltRuntime.DictHasLast` | blackline/clt/runtime.py:95 | a dictionary of options has the last pair of every name |
| `CltRuntime.DictNamesLast` | blackline/clt/runtime.py:95 | and nothing else |
| `CltCompile.CompileSource` | blackline/clt/compiler.py:14-24 | the outcome is that of the parsed tree, the error of the lexer or a refusal by the parser; what passes validation always compiles; a printed tree compiles to what the tree compiles to; under any facts the workflow asks for the assignments, intents, inputs and options that the tree asks for, in the same order |
| `CltCompile.CompileKeepsDeeds` | blackline/clt/compiler.py:31-54 | flattened under any facts, a compiled block asks for what its syntax tree asks for: the body of a condition that matches, else the other body |
| `CltCompile.CompiledRuns` | blackline/clt/runtime.py:78-119 | running a compiled tree does what the tree asks for, one thing after the other, up to the first failure |
| `CltCompile.SplitArguments` | blackline/clt/compiler.py:31-33 | inputs are the arguments without a name and options those with one, each in order |
| `CltRuntime.FlattenKeepsMeaning` | blackline/clt/runtime.py:90-105 | a nested workflow gives the same variables, events and failure as its flattened list |
| `CltRuntime.IntentsFollowFacts` | blackline/clt/runtime.py:90-119 | the facts alone decide the intents invoked: a successful run invokes exactly those of the flattened list, a failing one a beginning of them |
| `CltRuntime.RunJoin` | blackline/clt/runtime.py:90-105 | running a concatenation is running its parts one after the other, up to a failure |
| `CltRuntime.RunsAreDeeds` | blackline/clt/runtime.py:90-119 | a run is its flattened deeds one after the other |
| `CltRuntime.MatchesFollowsFacts` | blackline/clt/runtime.py:129-136 | the pair decides if it is there, else the dotted name, else the condition does not match; the case of a fact plays no part |
| `CltRuntime.AssignmentIsSeen` | blackline/clt/runtime.py:92-93 | an assignment sets its variable to the value or to what the variable named by it holds, and changes nothing else |
| `CltRuntime.WhoAnswers` | blackline/clt/runtime.py:49-52 | the entry of an intent answers it, without one the entry of its verb alone, and with neither the run fails |
| `CltRuntime.HandlerIsHanded` | blackline/clt/runtime.py:107-119 | a handler is handed the intent, the inputs in order and the options by name, each replaced by the variable it names, and all variables; its answer is one event more or a failure that leaves the state |
| `CltRuntime.RegistrationAnswers` | blackline/clt/runtime.py:40-52 | after a registration its handler answers the intents with its words, ignoring case, and for a verb alone every intent of the verb without an entry of its own; every other answer stays as it was |
| `CltRuntime.CapabilityRegistry.Register` | blackline/clt/runtime.py:40-47 | refuses an empty verb and a taken intent; no registration replaces another; a registered handler answers exactly the intents it is registered for, whatever else is registered |
| `CltRuntime.CLTRuntime.RunWorkflow` | blackline/clt/runtime.py:78-88 | the interpreter does what the flattened list does, that is, its deeds one after the other |
| `CltRuntime.CLTRuntime.RunStatements` | blackline/clt/runtime.py:90-105 | the interpreter loop over the mutable state computes the meaning of the block |
| `CltRuntime.CLTRuntime.InvokeCapability` | blackline/clt/runtime.py:107-119 | the entry of the intent answers, or the entry of its verb alone, or the run fails with no capability; the variables stay |

## Left out

- Messages: the texts of errors, skip reasons and progress updates; an error is its kind. The sorted names in a skip
  reason are left out, the condition for the skip is not.
- The run's event emitter and its callbacks, timestamps and context variables; events are the trace of the step system.
  A callback that raises, and with it the future that ends in an exception of its own, is not modelled.
- Opening a group and merging a wave are single actions of the step system; a cancellation in the middle of one is
  modelled right before or after it, which changes nothing that these loops compute.
- A cancellation sets the flag, the reason and the event in one action.
- A keyboard interrupt outside of the loop of `_run_wave`, or while the pool shuts down, ends the program and is left out.
- Waiting for a backoff has no duration; it ends at any time, by itself or by the cancellation.
- `ScheduleProgram.SchedulePlan` receives the groups as part of its problem; `PlanExecution.ExecutePlan` computes them.
- Step identifiers that `_execution_plan` assigns, provider tables and the recon planner: short lookups. Plans whose
  identifiers collide are refused by validation, which is modelled.
- Tool adapters, parsers of tool output, handlers, network clients, the command line, history, jobs and persistence.
- `ArtifactStore.find` and freezing of nested data: artifact data is a map of strings.
- Observation construction (normalised keys, hashed identifiers, ranges), tags and `condition_sources`; the reasons and
  sources of a candidate, which explain it and decide nothing.
- `int` of a numeral with underscores and `int` of a float.
- Confidence is a real number, without rounding.
- The iteration order of Python sets: results that depend on it are stated as sets or with the order left open.
- Source locations, the file name, and `str.splitlines`: the lexer starts from lines.
- Registration of vocabulary words; a vocabulary is any table of words.
- Handlers that change state of their own: a handler is a function of the events so far and the invocation.
