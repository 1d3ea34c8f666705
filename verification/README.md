# A Dafny model of the evaluation orchestrator

The repository runs unattended evaluations of models, projects and skills. This project models the parts of
it that are state machines, search loops or text scanners, and proves what they keep over every input, every
run and every interleaving. `dafny verify dfyconfig.toml` checks all of it.

Docker, HTTP, rsync, the file system, the clock, the agent and the language model are parameters: a function
or a value that says what each call meets, quantified over. Where the code updates fields, lists or
dictionaries in place, the model has classes whose methods do, each proved against a function of the old
state; the laws are lemmas about those functions.

| module | models |
|---|---|
| `StateMachine`, `Pipeline` | the run and its stages, their JSON form, `run_pipeline` and the store it saves to |
| `CallOutcome` | what one call makes of the run, told from the run before and what the executors return |
| `PipelineOrder`, `CrashResume`, `CleanupOwed`, `Recovery` | all sequences of calls and crashes; resuming; when the deployment is cleaned up; the startup sweep |
| `JobQueue` | the queue file, deduplication and the consumer |
| `DeployRepair`, `Deploy`, `DeployLaws`, `Cleanup` | DEPLOY, its repair strategies and loop, the agent's turn, CLEANUP, over a map from name to container |
| `DeployCases`, `StrategyLaws` | the gate, one attempt and the start of the repair case by case; what each repair strategy does, and what that means for a search |
| `LeakFreedom` | what a whole call of `run_pipeline` does to docker |
| `Strings`, `Scanner`, `NestedScanner`, `JsonText`, `JsonReader`, `JsonLoads`, `Report`, `Extraction`, `ExtractionCases` | recovering a report from an agent's stdout, and the answer for every text |
| `ThinkBlocks` | stripping think blocks |
| `AgentPool`, `Watchdog`, `Lanes`, `LaneCases` | leasing containers, the budget and its watchdog thread, one agent task, the two lanes, and where a task and a run end in each case |
| `CacheEvictor`, `EvictionLaws`, `ModelStager` | the evaluation cache, its eviction told from listing and runs, and staging |
| `Discovery`, `FeedLaws`, `Backup` | pagination and scans, what they yield and count; snapshots, the pointer and pruning |
| `Fixtures`, `Png` | drawing bitmaps and writing them as PNG |

Conventions. A function named like a participle (`Executed`, `Pruning`, `Leasing`) gives the state an operation
leaves; the method of the operation is proved to reach it. `exec`, `spawn`, `agent`, `loads` and the like are
the oracles. `json.loads` is any function that satisfies `JsonText.ReadsJson`: it reads every text of the
concrete syntax of RFC 8259 back as the value the text denotes. That such functions exist, and with it that the
syntax is unambiguous, is `JsonLoads.LoadsReads`.

Where the code and its own comments disagree, the model follows the code:

- `run_pipeline` says it restarts all run-level stages. The reset covers four of the five, and only those that
  are not OK (`orchestrator/main.py:273-283`).
- The strategies of one repair iteration do not build on each other, as the comment at
  `orchestrator/deploy_repair.py:267-273` hopes: see `DeployLaws.PlansShareTheirRoot`.
- `ensure_model_staged` says it deletes only what this call created; it deletes any unusable target
  (`orchestrator/model_stager.py:641-655`): see `ModelStager.StagingOutcomes`.
- `scan_backfill` says `finished` proves that the bottom was reached. It is also set, with nothing scanned,
  exactly when the first fetch brings no row: an empty page, but a failed fetch as well
  (`discover/tracker.py:431-432`, `discover/tracker.py:668-677`): see `Discovery.FinishedWithoutBottom`.

Five laws that one might expect are false of the code. Each has its exact condition:

- A deployment is cleaned up. One uninterrupted call with the abort flag down executes CLEANUP exactly when
  CLEANUP was neither OK before, nor SKIPPED before with the first stage to stop being a graceful skip
  (`CleanupOwed.CallCleansUp`); with the flag up it executes nothing (`CleanupOwed.FlaggedExecutesNothing`).
  Over crashes there are three ways for a run with a fresh CLEANUP to lose it. If it is resumed, exactly if a
  crash fell on the save before a failure is recorded, with CLEANUP already OK or SKIPPED and DEPLOY not OK
  (`CleanupOwed.WindowIsOnly`, `CleanupOwed.DefeatIsExact`, `CleanupOwed.CrashesCleanUp`). A new run whose
  DEPLOY fails and whose CLEANUP succeeds gets there (`CleanupOwed.WindowIsReached`,
  `CleanupOwed.LeakIsReached`). A run that is aborted is saved before its CLEANUP, and a crash between the two
  leaves a run that nothing resumes (`CleanupOwed.OverOwes`). And the startup sweep gives up every run whose
  save still owes the cleanup (`Recovery.SweepLosesCleanup`).
- A finished run stays finished. The startup sweep rewrites a saved run exactly if the index row it finds was
  written before the run was over, so a finish of any kind whose save was torn between `state.json` and the
  index is lost (`Recovery.SweepOfCall`, `Recovery.TornFinishIsLost`).
- A breach recorded by the watchdog forces a verdict other than OK. It does exactly if it was recorded before
  the step that decides the verdict, or the loop's own last check was not OK (`Watchdog.VerdictIs`).
- The two brace scanners agree when no quote precedes the first brace. They do exactly if that brace is closed
  or the text has no braced group at all (`NestedScanner.ScannersAgree`); on `{{}` they differ
  (`NestedScanner.UnclosedBrace`), and with a quote first as well (`NestedScanner.ScannersDisagree`).
- The daily scan misses nothing. From an undisturbed newest-first feed it admits exactly the unseen wanted ids
  not older than the end of the last scan (`Discovery.IncrementalAdmits`); what changed before that and was not
  seen is never admitted (`Discovery.IncrementalMisses`).

## Model

| member | source | states |
|---|---|---|
| `StateMachine.FirstPending` | orchestrator/state_machine.py:163-169 | the stage found is the first in order that is not OK; none is found exactly when all are OK |
| `StateMachine.StageInfo.MarkStarted` | orchestrator/state_machine.py:113-116 | in progress, one more attempt, error and artifacts kept |
| `StateMachine.StageInfo.MarkOk` | orchestrator/state_machine.py:118-124 | OK; artifacts replaced only by a non-empty list |
| `StateMachine.StageInfo.MarkFailed` | orchestrator/state_machine.py:126-131 | failed, or timed out if the caller says so, with the first 500 characters of the error |
| `StateMachine.StageInfo.MarkSkipped` | orchestrator/state_machine.py:133-142 | skipped, with the reason cut to 500 characters |
| `StateMachine.JsonRoundTrip` | orchestrator/state_machine.py:184-222 | a saved run is read back as it was, whatever its statuses, errors and artifacts |
| `Pipeline.Store.SaveRun` | orchestrator/store.py:80-104 | state.json and the index row are both upserted; the row keeps its first hf_id; no other run is touched |
| `Pipeline.ExecuteStage` | orchestrator/main.py:209-239 | a stage execution persists exactly two states: started, and settled by the executor's result |
| `Pipeline.ResetRunLevel` | orchestrator/main.py:273-282 | the reset makes pending the first four stages that are not OK and clears their errors, and nothing else |
| `Pipeline.Begin` | orchestrator/main.py:266-283 | a call first persists the run in progress and then, if a run-level stage is broken before DEPLOY is OK, the reset |
| `Pipeline.FinishSkipped` | orchestrator/main.py:308-337 | a graceful skip persists the aborted run, and then CLEANUP unless it is OK, SKIPPED or the stage that was skipped |
| `Pipeline.FinishFailed` | orchestrator/main.py:375-397 | a failure executes CLEANUP unless it is OK or the stage that failed, and only then persists the failure |
| `Pipeline.RunStage` | orchestrator/main.py:294-352 | one turn of the stage loop: abort flag, skip of an OK stage, execution, and the three ways it can end |
| `Pipeline.RunPipeline` | orchestrator/main.py:245-408 | the states persisted by a call are exactly the sequence specified, the run is left at the last, both stores hold it, no other run is touched |
| `CallOutcome.CallSucceeds` | orchestrator/main.py:294-400 | with the flag down and every stage OK before or done, the run ends OK with every stage executed recorded OK, with its artifacts if it has any |
| `CallOutcome.CallStops` | orchestrator/main.py:209-397 | with k the first stage that does not succeed: a graceful skip leaves it SKIPPED with the first 500 characters of the reason, the error or "aborted", and the run aborted at that stage for that reason; a failure or an exception leaves it FAILED with its text, and the run failed with its own; the stages before are OK, those after as the call opened them, CLEANUP executed or not |
| `CallOutcome.CallFlagged` | orchestrator/main.py:295-301 | with the flag up the run is aborted for "abort_flag" and the stages are as the call opened them |
| `CallOutcome.StopsOrGoesThrough` | orchestrator/main.py:294-352 | a call goes through or there is a first stage that does not succeed |
| `PipelineOrder.CallChain` | orchestrator/main.py:266-403 | every state a call persists is orderly, and from each to the next no OK stage is re-executed or changed and no attempt count grows by more than one |
| `PipelineOrder.HistoryChain` | orchestrator/main.py:245-403 | the same over any number of calls with any executors, each of which may die after any save and be resumed from state.json |
| `PipelineOrder.OkIsPrefix` | orchestrator/state_machine.py:50-62 | at every save of every such history the OK stages other than CLEANUP form a prefix of the stage order |
| `PipelineOrder.OkForever` | orchestrator/main.py:303-306 | a stage once saved OK keeps its whole record for ever after, crashes included |
| `PipelineOrder.CallStartsOnce` | orchestrator/main.py:294-310 | no stage is started twice in one call |
| `PipelineOrder.CallVerdict` | orchestrator/main.py:294-400 | a call ends OK, FAILED or ABORTED, and OK exactly when all eleven stages are OK and the abort flag is down |
| `CrashResume.CallResumes` | orchestrator/main.py:245-408 | from any save at which the run is in progress, a new call with the same deterministic executors ends in the same run, attempt counts apart |
| `CrashResume.CrashTransparency` | orchestrator/main.py:245-408 | the same after any number of crashes, each at any in-progress save and through the JSON form: run status, reason, and every stage's status, error and artifacts agree, CLEANUP's too |
| `CrashResume.RestartedAt` | orchestrator/main.py:273-283 | a restart changes at most the first stage that is not OK |
| `CleanupOwed.CallCleansUp` | orchestrator/main.py:318-382 | without a crash and with the flag down, CLEANUP is executed, to its end, exactly unless it was OK before, or was SKIPPED before and the first stage that does not succeed is gracefully skipped: told from the state before the call and the executors |
| `CleanupOwed.FlaggedExecutesNothing` | orchestrator/main.py:295-301 | with the abort flag up nothing is executed, CLEANUP included |
| `CleanupOwed.CallCleanupLast` | orchestrator/main.py:369-397 | once CLEANUP has started, no other stage changes in that call |
| `CleanupOwed.WindowIsOnly` | orchestrator/main.py:375-397 | at a save with the run in progress, CLEANUP is OK (or OK or SKIPPED) with an earlier stage not OK exactly if it is the save before a failure is recorded and CLEANUP is so in the failed run |
| `CleanupOwed.CrashesCleanUp` | orchestrator/main.py:245-403 | over any number of crashes, each resumed with any executors: unless one falls in that window with DEPLOY not OK, the call that ends leaves no started DEPLOY without a later CLEANUP |
| `CleanupOwed.DefeatIsExact` | orchestrator/main.py:245-403 | for one crash, both directions: some executors of the resumed call leave a DEPLOY without cleanup exactly if the crash fell in that window with DEPLOY not OK |
| `CleanupOwed.DefeatLeaks` | orchestrator/main.py:303-337 | after such a crash there are executors with which the run ends with DEPLOY executed, OK and not cleaned up |
| `CleanupOwed.WindowIsReached` | orchestrator/main.py:375-397 | a new run whose DEPLOY fails and whose CLEANUP succeeds is saved in that window, with DEPLOY not OK |
| `CleanupOwed.LeakIsReached` | orchestrator/main.py:375-397 | resumed there with stages that succeed, it ends OK, deployed after its last cleanup |
| `CleanupOwed.OverOwes` | orchestrator/main.py:318-337 | a save at which the run is over owes the cleanup exactly if it was owed before or DEPLOY was started, and the call had more to save |
| `CleanupOwed.FailedWindow` | orchestrator/main.py:375-397 | before a cleaned-up failure is saved, the run is saved in progress with CLEANUP already OK |
| `CleanupOwed.CleanedOnce` | orchestrator/main.py:303-306 | after a crash there, no later call of any history executes CLEANUP |
| `CleanupOwed.LeakAfterCrash` | orchestrator/main.py:375-397 | and if the stages now succeed, the run ends OK having executed DEPLOY after its last cleanup |
| `Recovery.SweepOne` | orchestrator/main.py:590-614 | a listed run's file and row become aborted with the orphan reason; an unreadable file raises and changes nothing |
| `Recovery.SweptComesBack` | orchestrator/main.py:604-611 | a swept run is read back aborted as an orphan, in file and row, with nothing else changed, and a row not in progress changes nothing |
| `Recovery.SweepOrphans` | orchestrator/main.py:565-619 | exactly the listed rows with a file are aborted, in both stores; the rest is untouched, also when the sweep stops with an exception |
| `Recovery.SweepKeeps` | orchestrator/main.py:590-614 | the sweep leaves the state on file alone exactly when the index row does not say in progress |
| `Recovery.SweepOfCall` | orchestrator/main.py:590-614 | for every save of every call, whole or torn: the sweep aborts the saved run exactly if the row was written before the run was over, and leaves it alone otherwise |
| `Recovery.TornFinishIsLost` | orchestrator/store.py:80-104 | the save with which a run is over, be it OK, failed or aborted: whole it survives the sweep, torn it comes back aborted |
| `Recovery.SweepLosesCleanup` | orchestrator/main.py:590-614 | what the sweep leaves of a save owes the cleanup exactly if the save did, from before the call or from it, and is never resumed, but for a torn first save of a run not in progress before |
| `JobQueue.Queue.Enqueue` | orchestrator/main.py:493-524 | an id is appended exactly when it is neither queued nor active among the newest 500 rows and, on the cron path, neither recently OK nor last failed |
| `JobQueue.AdmitsIff` | orchestrator/main.py:493-524 | exactly when an id is taken on, told on the lines and the newest 500 rows: not waiting, not underway, and on the cron path none OK in thirty days and the newest of the last twelve hours not failed or aborted |
| `JobQueue.Queue.HasRecentFailed` | orchestrator/main.py:428-455 | only the newest run of the id inside the window decides |
| `JobQueue.Queue.PopAndSave` | orchestrator/main.py:527-540 | the head of the queue becomes the newest row, pending |
| `JobQueue.TraceSound` | orchestrator/main.py:493-540 | over every interleaving of enqueues, pops, saves and restarts: queued ids are distinct, none is active among the listed rows, what was popped is a prefix of what was enqueued, in order, and an id that waits or runs is not taken on again |
| `JobQueue.PendingOrphanBlocks` | orchestrator/main.py:590-606 | a crash right after the pop leaves a pending row that the sweep ignores, and its id is refused |
| `DeployRepair.ProposeAttempts` | orchestrator/deploy_repair.py:423-444 | the proposals of the applicable strategies, in list order |
| `DeployRepair.ProposalsInOrder` | orchestrator/deploy_repair.py:410-444 | each strategy at most once, in order, and present exactly when it applies |
| `DeployRepair.ProposalChanges` | orchestrator/deploy_repair.py:184-407 | a proposal never repeats the failed configuration, except use_gguf_file_path when its override is already in place on the stock image |
| `DeployRepair.FallbackProposed` | orchestrator/deploy_repair.py:387-407 | on vLLM and SGLang there is always a proposal and the last is the transformers runner; on that runner only the other two engines are proposed |
| `StrategyLaws.ClassIs` | orchestrator/deploy_repair.py:80-139 | every failure class: the kind decides first, then the first sign in the log in the order of the checks |
| `StrategyLaws.LowerIs` | orchestrator/deploy_repair.py:221-255 | proposed exactly on vLLM or SGLang, out of memory or for no visible reason, above 1024; then 4096 if the plan has no length, and otherwise half of it but at least 1024; nothing else changes |
| `StrategyLaws.TrustIs` | orchestrator/deploy_repair.py:184-218 | when the flag is proposed, and that it alone is set |
| `StrategyLaws.GgufIs` | orchestrator/deploy_repair.py:339-384 | when a file path is proposed, and that the override alone is set, to the hinted file below /model |
| `StrategyLaws.LatestIs` | orchestrator/deploy_repair.py:258-298 | when the latest image is proposed, that it is the only strategy with an image, and that the engine alone is set, to vLLM |
| `StrategyLaws.SglangIs` | orchestrator/deploy_repair.py:301-336 | when SGLang is proposed, and that the engine alone is set |
| `StrategyLaws.TransformersIs` | orchestrator/deploy_repair.py:387-407 | the same of the transformers runner |
| `StrategyLaws.RuleEffects` | orchestrator/stages_py.py:832-904 | over a whole search: every attempt is the plan of an earlier one with just that effect of its rule |
| `StrategyLaws.ContextNeverGrows` | orchestrator/deploy_repair.py:221-255 | so no rule lengthens the context of the attempt it derives from, and the one that sets it shortens it |
| `StrategyLaws.RuleCandidateIs` | orchestrator/stages_py.py:858-870 | what a proposal deploys: its plan, its engine, and its image or the one pinned for that engine |
| `StrategyLaws.AgentCandidateIs` | orchestrator/stages_py.py:1145-1154 | what an agent proposal deploys: its arguments over those of the last candidate, and its engine and image or the last engine and the image pinned for it |
| `Deploy.NameIsWhole` | orchestrator/stages_py.py:111-130 | the name keeps prefix, engine and suffix uncut, is at most 18 long, and differs between engines |
| `Deploy.ShortRunId` | orchestrator/stages_py.py:111-121 | always eight characters out of a-z and 0-9: the last eight of the cleaned id, or all of a shorter one and zeros |
| `Deploy.SelectionIsSafe` | orchestrator/stages_py.py:363-418 | selected GPUs are a prefix of the pool, as many as asked for, none of them production's, and the whole pool is idle |
| `Deploy.RefusedWhen` | orchestrator/stages_py.py:383-416 | the gate refuses exactly when the pool is empty, too small, of unknown load, shared with production or busy |
| `Deploy.DockerHost.ReuseOrRecreate` | orchestrator/stages_py.py:998-1023 | whatever bears the name is removed, as far as docker lets it |
| `Deploy.DockerHost.TryOnce` | orchestrator/stages_py.py:547-791 | what one spawn attempt leaves in docker and what kind of failure it reports |
| `Deploy.RunRound` | orchestrator/stages_py.py:858-902 | the fresh proposals are tried in turn up to the first that does not fail |
| `Deploy.RunRules` | orchestrator/stages_py.py:832-904 | the repair loop computes the iterated search, in at most seven iterations |
| `Deploy.RunAgent` | orchestrator/stages_py.py:1095-1217 | the agent's turns, each on the last candidate tried |
| `Deploy.SpawnAndRepair` | orchestrator/stages_py.py:793-959 | the attempts and the outcome of a deployment, and docker as the last attempt left it |
| `Deploy.ExecuteDeploy` | orchestrator/stages_py.py:447-995 | everything the gate stops leaves docker untouched; everything else is the specified search |
| `DeployCases.GateIs` | orchestrator/stages_py.py:480-540 | the gate answer for every request, in the order of the checks, and what is deployed once it is passed |
| `DeployCases.AttemptIs` | orchestrator/stages_py.py:547-791 | for everything docker can do: what one attempt reports, and the container that bears the name afterwards |
| `DeployCases.RepairStarts` | orchestrator/stages_py.py:793-801 | a first attempt is repaired exactly if repair is enabled, it failed, and not for want of a port |
| `DeployLaws.CapNeverBinds` | orchestrator/stages_py.py:832-855 | any iteration cap from 7 on gives the same attempts as 8 |
| `DeployLaws.TriesWellTried` | orchestrator/stages_py.py:793-933 | the record is the initial attempt, then rules, no rule twice, then agent proposals; all but possibly the last failed; at most 1 + 6 + agent attempts |
| `DeployLaws.ReportIsHonest` | orchestrator/stages_py.py:946-980 | success is reported exactly when an attempt serves, with that attempt's engine and image; a failure reports the first attempt's error |
| `DeployLaws.FallbackTried` | orchestrator/stages_py.py:832-904 | a repair that starts on vLLM or SGLang does not give up before trying the transformers runner |
| `DeployLaws.PlansShareTheirRoot` | orchestrator/stages_py.py:839-899 | every plan tried is one strategy away from the plan its iteration started with |
| `DeployLaws.SiblingsDoNotAccumulate` | orchestrator/stages_py.py:839-899 | so the shortened context is tried without the trust flag its sibling added |
| `DeployLaws.AgentChanges` | cc_agent/deploy_repair_agent.py:291-307 | what the agent's accepted proposal deploys is never what has just failed |
| `DeployLaws.TriesRan` | orchestrator/stages_py.py:793-933 | the attempts happen one after the other, each on what the one before left in docker |
| `DeployLaws.DeployIsConfined` | orchestrator/stages_py.py:547-606 | at every point only the container with the run's name has changed; a new one carries the run's label and the GPUs chosen at the start; what is reported as serving is there on the reported engine |
| `DeployLaws.DeployIsSafe` | orchestrator/stages_py.py:447-995 | execute_deploy past its gate: prefixed name, GPUs of the evaluation pool and none of production's, a bounded search that repeats no rule, and only the run's container changed at every attempt |
| `Cleanup.ExecuteCleanup` | orchestrator/stages_py.py:1346-1446 | each of the first n listed containers by name: without the prefix skipped and there, in a dry run reported and there, otherwise removed and gone if the removal works, failed if the retry does; it stops early exactly at the first removal that raises; the report accounts for all of them and docker has lost nothing else |
| `Cleanup.SucceedsIff` | orchestrator/stages_py.py:1385-1443 | a cleanup is a success exactly if it is a dry run or every prefixed container listed is removed, and abandoned exactly if the removal of one raises |
| `Cleanup.CleanupIsExact` | orchestrator/stages_py.py:1385-1441 | a successful cleanup removes exactly the containers with the run's label and the e9- prefix |
| `Cleanup.CleanupIsSafe` | orchestrator/stages_py.py:1352-1363 | whatever fails, nothing unlabelled and nothing without the prefix is removed, and a dry run removes nothing |
| `Cleanup.NothingLeftBehind` | orchestrator/stages_py.py:1346-1452 | after a deployment and a successful cleanup no container of the run is left but one that was there before under a name without the prefix |
| `LeakFreedom.DeploySteps` | orchestrator/stages_py.py:547-606 | a whole DEPLOY, repairs and agent included, changes docker only under the run's container name |
| `LeakFreedom.CleanupSteps` | orchestrator/stages_py.py:1346-1441 | a CLEANUP, complete or not, takes away only labelled e9- containers of the run, and all of them when it succeeds |
| `LeakFreedom.RunDeploy` | orchestrator/stages.py:835-880 | what the DEPLOY executor hands to the pipeline and leaves in docker |
| `LeakFreedom.RunCleanup` | orchestrator/stages_py.py:1366-1452 | the same for CLEANUP, docker out of reach included |
| `LeakFreedom.CallTrace` | orchestrator/main.py:209-239 | between the saves of a call docker changes only where DEPLOY or CLEANUP settles, derived from what the executors did |
| `LeakFreedom.CallLeaksNothing` | orchestrator/main.py:369-397 | over a whole uninterrupted call in which CLEANUP was due, with execute_deploy and execute_cleanup as executors: if CLEANUP ends OK, no e9- container of the run is left, whatever the stages did before |
| `LeakFreedom.CleanupSucceedsIff` | orchestrator/stages_py.py:1366-1452 | the CLEANUP executor returns success exactly if docker lists the containers and removes those with the prefix |
| `LeakFreedom.AnsweredCleanupCleans` | orchestrator/main.py:369-397 | a due CLEANUP that a call gets to, after its last stage or after one gave up, ends OK exactly if docker answers it, and then nothing of the run is left |
| `LeakFreedom.OthersUntouched` | orchestrator/stages_py.py:1346-1441 | at every save of any call a container that is not the run's and does not bear its container name is as it was |
| `Scanner.LayoutOf` | agent_driver/report_extractor.py:211-241 | every text is laid out as top-level groups, quoted strings, other characters and one unfinished tail |
| `Scanner.IterBalancedJsonObjects` | agent_driver/report_extractor.py:211-241 | the loop yields what the character-by-character scan emits |
| `Scanner.SlicesAreGroups` | agent_driver/report_extractor.py:211-241 | what is yielded is exactly the top-level braced groups of the text, in order |
| `Scanner.GroupsUnique` | agent_driver/report_extractor.py:211-241 | all layouts of a text have the same groups |
| `NestedScanner.FindBalancedJson` | cc_agent/deploy_repair_agent.py:180-222 | the quadratic scanner returns the first position at which a balanced group starts, and none exactly when there is no such position |
| `NestedScanner.FirstGroupExact` | cc_agent/deploy_repair_agent.py:180-222 | the group found starts at the earliest position at which any balanced group starts |
| `NestedScanner.SlicesIfClosed` | agent_driver/report_extractor.py:211-241 | with no quote before the first brace, the linear scanner yields something exactly if that brace is closed |
| `NestedScanner.ScannersAgree` | cc_agent/deploy_repair_agent.py:180-222 | with no quote before the first brace, both return the same first slice exactly if that brace is closed or there is no balanced group anywhere |
| `NestedScanner.UnclosedBrace` | cc_agent/deploy_repair_agent.py:180-222 | an unclosed brace in front hides a group from the linear scanner only |
| `NestedScanner.ScannersDisagree` | cc_agent/deploy_repair_agent.py:180-222 | with a quoted pair of braces first, they differ |
| `JsonText.TextSpelled` | agent_driver/report_extractor.py:211-241 | any JSON text, escapes and white space included, is a sequence of quoted strings, braced groups and other characters to the scanner |
| `JsonText.ObjectIsGroup` | agent_driver/report_extractor.py:211-241 | any printed JSON object is one braced group |
| `JsonLoads.LoadsReads` | agent_driver/report_extractor.py:147 | there is a json.loads for the concrete syntax: a recursive-descent reader that reads every text back as its value |
| `JsonLoads.Unambiguous` | agent_driver/report_extractor.py:147 | a string that is a JSON text in two ways denotes one value |
| `Report.ReportRoundTrip` | agent_driver/schema.py:130-240 | a report within the bounds is schema-valid as a dictionary and is rebuilt from it as it was |
| `Report.ValidIsBounded` | agent_driver/schema.py:165-245 | what the schema accepts is within the bounds |
| `Report.EnforceKeepsContract` | agent_driver/report_extractor.py:322-346 | a pass names a feature; anything but a featureless pass is left alone; enforcing twice changes nothing; the result stays within the bounds |
| `Extraction.SalvageReportPayload` | agent_driver/report_extractor.py:244-264 | the last slice that is report-shaped |
| `Extraction.ExtractReport` | agent_driver/report_extractor.py:92-178 | the fence, the salvage, the unwrapping, and the error for each way to fail |
| `ExtractionCases.ExtractionIs` | agent_driver/report_extractor.py:92-178 | over all texts: fence_missing exactly if neither a closed last fence nor, without any fence, a report-like slice is there; and for the text that is judged, each error in the order of the checks from what json.loads gives, or the report |
| `ExtractionCases.PayloadIs` | agent_driver/report_extractor.py:108-134 | which text is judged, told by the positions of the markers and the slices |
| `ExtractionCases.UnfinishedFence` | agent_driver/report_extractor.py:108-134 | a last fence that is not closed is answered with fence_missing, whatever complete draft stands before it |
| `ExtractionCases.UnwrapLeaves` | agent_driver/report_extractor.py:185-203 | a payload that is not a whole code block is judged as it is |
| `Extraction.AcceptedIsSound` | agent_driver/report_extractor.py:92-178 | whatever was printed, an accepted report is within the bounds, addressed to the caller, and names a feature if it claims a pass |
| `Extraction.FencePayload` | agent_driver/report_extractor.py:267-285 | the last fenced block is found whatever stands before it |
| `Extraction.FencedRoundTrip` | agent_driver/report_extractor.py:92-178 | any printing of a valid report in a final fence is extracted exactly, up to the downgrade |
| `Extraction.MarkdownRoundTrip` | agent_driver/report_extractor.py:185-203 | the same inside a markdown code block in the fence |
| `Extraction.UnfencedRoundTrip` | agent_driver/report_extractor.py:244-264 | unfenced in neutral prose after any drafts, the report is extracted exactly when its text spells the signature keys unescaped |
| `Extraction.PlainKeysSpell` | agent_driver/report_extractor.py:208-208 | a printer that escapes no letters spells them |
| `Extraction.ReportSurvivesFence` | agent_driver/schema.py:130-155 | end to end from the report: any printing of its dictionary inside a final fence |
| `ThinkBlocks.NoTagSurvives` | orchestrator/llm_text_utils.py:16-54 | no opening think tag is left, not even one that deletions spliced together |
| `ThinkBlocks.Idempotent` | orchestrator/llm_text_utils.py:29-51 | stripping twice is stripping once |
| `ThinkBlocks.TranscriptStripped` | orchestrator/llm_text_utils.py:29-51 | well-formed answers and think blocks, with no tag in the joined answers, yield the trimmed joined answers |
| `ThinkBlocks.SplicedTagCutsTail` | orchestrator/llm_text_utils.py:23-51 | the clause is needed: answers that splice a tag lose all that follows |
| `AgentPool.PickIdle` | agent_driver/pool_manager.py:264-272 | the first of the idle handles that are least by run count and then boot time; none exactly when none is idle |
| `AgentPool.PoolManager.MaybeRecycle` | agent_driver/pool_manager.py:283-328 | counters are reset only after a restart that worked; a container that does not recover is not leased |
| `AgentPool.PoolManager.Acquire` | agent_driver/pool_manager.py:170-210 | the pool and the result, for each way to fail |
| `AgentPool.PoolManager.Release` | agent_driver/pool_manager.py:212-233 | the lease ends only when the workspace is gone |
| `AgentPool.LeasingIs` | agent_driver/pool_manager.py:170-210 | which container is picked, when it is restarted and what that leaves of it, and the answer in the order of the checks |
| `AgentPool.ReleasingIs` | agent_driver/pool_manager.py:212-233 | when a release does nothing, when it fails, and that it otherwise ends that lease and takes away that workspace only |
| `AgentPool.TraceSound` | agent_driver/pool_manager.py:170-328 | over every trace, failures included: leased ids distinct, workspaces are the leases and what was there at the start, run counts at most max_runs when that is at least 1 |
| `AgentPool.BusyWhenAllLeased` | agent_driver/pool_manager.py:183-188 | PoolBusy exactly when all are leased |
| `AgentPool.NoDoubleLease` | agent_driver/pool_manager.py:203-204 | after any trace, an id that a container is leased to is refused, and the leases and workspaces stay as they are |
| `AgentPool.ReleaseUndoes` | agent_driver/pool_manager.py:212-233 | releasing a lease restores workspaces and idleness and touches no other handle |
| `AgentPool.ZeroMaxRunsExceeded` | agent_driver/pool_manager.py:301-325 | a lease keeps the count within max_runs exactly when max_runs is at least 1 |
| `Watchdog.BudgetGuard.Make` | agent_driver/budget_guard.py:71-89 | budgets that are not positive are rejected |
| `Watchdog.BudgetGuard.NoteTokens` | agent_driver/budget_guard.py:93-106 | negative deltas are rejected, others are added |
| `Watchdog.BudgetGuard.CheckNow` | agent_driver/budget_guard.py:110-141 | OK exactly below both limits; tokens are reported before the clock |
| `Watchdog.CheckIs` | agent_driver/budget_guard.py:110-141 | each decision exactly, tokens first, limits breached as soon as reached, and the figures reported with it |
| `Watchdog.EstimateIs` | agent_driver/exec_runner.py:397-400 | a token for every three bytes of a chunk, and at least one |
| `Watchdog.BreachLasts` | agent_driver/budget_guard.py:110-141 | with more tokens and a later clock a breach stays one |
| `Watchdog.InvAlways` | agent_driver/exec_runner.py:348-413 | the invariant of chunk loop and watchdog in every interleaving |
| `Watchdog.BreachForcesVerdict` | agent_driver/exec_runner.py:372-411 | a breach recorded before the loop made up its mind forces a verdict other than OK |
| `Watchdog.OkMeansWhole` | agent_driver/exec_runner.py:390-413 | an OK verdict means that the whole stream was kept |
| `Watchdog.KeptIsPrefix` | agent_driver/exec_runner.py:390-403 | what is kept is a prefix of what was printed, at every moment |
| `Watchdog.OverrunIsOneChunk` | agent_driver/exec_runner.py:397-403 | the tokens noted stay below the budget plus the last chunk's estimate |
| `Watchdog.VerdictIs` | agent_driver/exec_runner.py:372-411 | in every schedule, the exact line: a verdict is not OK exactly if at its deciding step a breach was recorded or the loop's own last check was not OK |
| `Watchdog.LateBreachIsMissed` | agent_driver/exec_runner.py:404-411 | a breach recorded after the join timed out leaves the verdict OK |
| `Lanes.RunAgent` | agent_driver/exec_runner.py:131-273 | the report for each way a task can end, and the pool after the release; only PoolBusy gets out |
| `LaneCases.TaskIs` | agent_driver/exec_runner.py:181-262 | PoolBusy gets out exactly if no container is idle; a task without a lease, with unwritable files or a broken stream is SANDBOX_DEAD; over its token budget BUDGET_EXCEEDED, over its time TIMEOUT, whatever it printed; within both the extracted report exactly if extraction accepts it, and REPORT_PARSE_ERROR otherwise |
| `Lanes.AssessedIsHonest` | agent_driver/exec_runner.py:181-250 | a report is addressed to the caller and claims a pass only with a feature, whoever made it |
| `Lanes.RanRestores` | agent_driver/exec_runner.py:265-273 | an agent task keeps the pool sound, and leaves leases and workspaces as they were exactly unless it got a lease whose workspace could not be removed |
| `Lanes.DetectCloneAttempt` | orchestrator/skill_lane.py:414-424 | a violation exactly when some line matches; the evidence is the first such line, cut to 240 characters |
| `Lanes.LaneStore.UpdateStatus` | orchestrator/project_lane.py:278-301 | status, first start and end stamp; file and row agree |
| `Lanes.LaneStore.WriteReportArtifacts` | orchestrator/project_lane.py:303-318 | report and log on file, summary on the run |
| `Lanes.ExecuteRun` | orchestrator/project_lane.py:606-680 | where a run ends, for each gate, lease, report and write |
| `Lanes.ExecutedIsFinished` | orchestrator/skill_lane.py:430-496 | a run that raises nothing is terminal and stamped; if DONE, a pass names a feature and, in the skill lane, the log is free of clone commands |
| `LaneCases.RunIsTold` | orchestrator/project_lane.py:620-707 | for every gate, pool, agent and disk: the status, stamps, summary and artifacts a run ends with, and in which status an exception leaves it |
| `LaneCases.DoneIsEarned` | orchestrator/project_lane.py:640-680 | a run is DONE only if the agent ran to its end within its budget and extraction accepted, from what it printed, the very report on file |
| `LaneCases.FailuresEndApart` | orchestrator/skill_lane.py:446-496 | a breach of either budget, a dead sandbox and a report that is not accepted each end in their own status, unless a skill log shows a clone command |
| `Lanes.RunPending` | orchestrator/project_lane.py:713-748 | every run picked ends terminal, stamped and filed, exceptions included; the count is the number of runs that raised nothing; leases and workspaces are as they were exactly if no run left its workspace behind |
| `CacheEvictor.IndexRuns` | orchestrator/cache_evictor.py:164-187 | the index holds, for each basename, its readable runs in order |
| `CacheEvictor.FindEvictable` | orchestrator/cache_evictor.py:192-275 | the entries, their total and the eviction order |
| `CacheEvictor.EvictableIs` | orchestrator/cache_evictor.py:264-270 | what is evictable is everything not in progress, each once, strictly by status, age and listing |
| `CacheEvictor.CacheDisk.EnforceQuota` | orchestrator/cache_evictor.py:278-330 | the plan, and exactly the evicted directories are gone; a dry run removes none |
| `CacheEvictor.EvictIs` | orchestrator/cache_evictor.py:298-329 | a prefix of the order is processed, each evicted or skipped; what is freed is what the evicted weigh; it stops exactly when the need is met or nothing is left |
| `EvictionLaws.EntriesAre` | orchestrator/cache_evictor.py:221-262 | exactly the folders without a leading dot have an entry, in the class that their age and the runs on them say |
| `EvictionLaws.EvictionOrder` | orchestrator/cache_evictor.py:264-270 | every orphan goes before every failed-only directory and those before every safe one; within a class the oldest first, then in listing order; nothing in use goes |
| `EvictionLaws.QuotaIs` | orchestrator/cache_evictor.py:293-329 | nothing goes within the quota; above it, a prefix of the order is worked off, before each of which the cache was still above the quota, and after which it is within or nothing is left; a dry run as if no removal failed |
| `EvictionLaws.TotalAdds` | orchestrator/cache_evictor.py:222-237 | the total is the sum of the sizes |
| `EvictionLaws.LeftHas` | orchestrator/cache_evictor.py:299-311 | what is left is exactly what bears no evicted name, and everything in a dry run |
| `CacheEvictor.DryRunPredicts` | orchestrator/cache_evictor.py:288-292 | a dry run plans what an apply without failures does |
| `CacheEvictor.FreedIsGone` | orchestrator/cache_evictor.py:298-329 | conservation: what the cache weighs afterwards and what was freed add up to what it weighed, failed removals included |
| `CacheEvictor.ActiveIsNeverEvicted` | orchestrator/model_stager.py:539-557 | nothing in its grace period and nothing a run in progress refers to is evicted, so a run cannot evict its own target |
| `ModelStager.ScanForWeights` | orchestrator/model_stager.py:134-164 | the stack search agrees with the recursive depth-bounded search |
| `ModelStager.HasWeightFile` | orchestrator/model_stager.py:85-131 | staged exactly when listable, not half-finished and with weights; the manifest test changes nothing |
| `ModelStager.StagedIs` | orchestrator/model_stager.py:85-183 | staged told by paths: readable, no unfinished file in the download ledger, and a weight at most three levels down through readable folders without dotted names, or an index file |
| `ModelStager.CacheSlot.EnsureStaged` | orchestrator/model_stager.py:474-717 | the outcome and the target, for every situation |
| `ModelStager.StagingOutcomes` | orchestrator/model_stager.py:474-717 | ready with weights in place, skipped with the target untouched, or failed with the target gone unless its removal fails |
| `ModelStager.StagingEnds` | orchestrator/model_stager.py:504-660 | each way to end, exactly: the oversize flag, what is there, the free space against floor and estimate, what the download brought and the link |
| `ModelStager.SecondCallIsNoop` | orchestrator/model_stager.py:511-529 | after a ready staging another one changes nothing |
| `ModelStager.DeeperFindsMore` | orchestrator/model_stager.py:134-164 | a larger depth bound finds everything a smaller one does |
| `Discovery.Paginate` | discover/tracker.py:429-479 | the rows yielded over the pages fetched |
| `Discovery.YieldPage` | discover/tracker.py:458-467 | a page is yielded up to and including its first row that is too old |
| `FeedLaws.PaginatedIs` | discover/tracker.py:401-478 | over all fetches: the rows of the pages up to the first that fails, is empty, has a too-old row or no next link, cut behind the first too-old row |
| `Discovery.Cursor.ScanBackfill` | discover/tracker.py:591-678 | what is admitted, the cursor's new fields, and finished exactly when the cutoff was crossed or nothing came |
| `Discovery.Cursor.ScanIncremental` | discover/tracker.py:681-724 | what is admitted since the last run; the completion flag is untouched |
| `Discovery.PaginatedIsWhole` | discover/tracker.py:429-479 | undisturbed, the whole feed up to the first row that is too old |
| `Discovery.BackfillIsComplete` | discover/tracker.py:591-678 | from an undisturbed newest-first feed: exactly the unseen wanted ids in the window, each once; every row consumed is counted once; complete exactly when a too-old row was reached or the feed was empty |
| `Discovery.FinishedWithoutBottom` | discover/tracker.py:429-479 | over all fetches: a backfill is finished without a too-old row exactly if the first fetch brings no row, and then nothing was scanned |
| `Discovery.FailedFetchFinishes` | discover/tracker.py:668-677 | a first fetch that fails finishes the backfill with nothing scanned |
| `Discovery.ScanIsComplete` | discover/tracker.py:641-660 | from any rows none of which is too old: exactly the unseen wanted ids, each once, every row in one bucket |
| `FeedLaws.ScanIsTold` | discover/tracker.py:632-676 | over all rows: what each count counts, row by row, up to the first too-old row, and that the backfill reports the least time stamp of all it took in |
| `Discovery.RescanAddsNothing` | discover/tracker.py:648-660 | a second scan of any rows admits nothing and leaves the cursor's ids alone |
| `Discovery.IncrementalAdmits` | discover/tracker.py:681-724 | from an undisturbed newest-first feed: exactly the unseen wanted ids not older than the last run, each once |
| `Discovery.IncrementalMisses` | discover/tracker.py:697-723 | a model changed before the last scan ended is never admitted by the next |
| `Backup.BackupDir.TakeSnapshot` | backup/snapshot.py:177-299 | the snapshots and the pointer, for each way to fail, and what the copy is linked against |
| `Backup.SnapshotIs` | backup/snapshot.py:177-299 | a snapshot touches only its own directory, which stays exactly if it was copied or its remains could not be removed, and moves the pointer only to itself |
| `Backup.BackupDir.PruneOldSnapshots` | backup/retention.py:35-81 | exactly the removed snapshots are gone |
| `Backup.PrunePartitions` | backup/retention.py:59-81 | removed, failed and kept partition the snapshots |
| `Backup.PruningIs` | backup/retention.py:63-79 | removed is exactly what is old enough, removable and not the greatest |
| `Backup.KeepingIs` | backup/retention.py:63-81 | kept is exactly the greatest and what is not older than the cutoff; failed is what of the rest has no readable time or cannot be removed |
| `Backup.SnapshotKeepsPointer` | backup/snapshot.py:214-290 | a later snapshot keeps the pointer right exactly when a completed copy gets its pointer and a failed one is cleaned up |
| `Backup.PointerAlwaysRight` | backup/retention.py:54-66 | over all sequences of passes with later stamps, latest names the greatest existing snapshot |
| `Backup.LinkDestIsLatest` | backup/snapshot.py:219-221 | while latest is right, it is what the copy is linked against |
| `Fixtures.FillRect` | scripts/build_capability_fixtures.py:85-93 | exactly the canvas pixels in the rectangle |
| `Fixtures.FillCircle` | scripts/build_capability_fixtures.py:72-82 | exactly the canvas pixels in the disc, none missed by the bounding box; nothing for a negative radius |
| `Fixtures.RenderText` | scripts/build_capability_fixtures.py:133-161 | foreground exactly where an ink cell covers, background elsewhere |
| `Fixtures.InkByDivision` | scripts/build_capability_fixtures.py:133-161 | the ink at a pixel read off by division: glyph, row and column |
| `Fixtures.CellInside` | scripts/build_capability_fixtures.py:147-160 | every glyph cell lies inside the canvas |
| `Png.WritePngRgb` | scripts/build_capability_fixtures.py:43-65 | the file written, or none when a dimension or the data does not fit into 32 bits |
| `Png.ScanlinesRoundTrip` | scripts/build_capability_fixtures.py:54-58 | the unfiltered scanlines are read back as the pixels, modulo 256 |
| `Png.ChunkRoundTrip` | scripts/build_capability_fixtures.py:34-40 | a chunk is read back with its length, type, data and CRC |
| `Png.PngRoundTrip` | scripts/build_capability_fixtures.py:43-65 | what is written can be read exactly when the image has between 1 and 2^31 - 1 rows and columns, and then the pixels come back |

## Left out

- Lanes.RunPending: every clock reading of one run is a single value, and the lanes' stores are taken to accept the final status update of a run; a store that fails there stops the round, as in the original.
- Pipeline.RunPipeline: time stamps, durations, notifications and the completion summary read from other artifacts are not modelled, and a store failure inside a call is not either.
- CrashResume.CrashTransparency: a save is atomic here; saves torn between the file and the index are in Recovery.
- CleanupOwed.CrashesCleanUp: a crash happens between two saves; what a stage that was cut short did to docker counts as started.
- LeakFreedom.CallLeaksNothing: stages other than DEPLOY and CLEANUP are taken not to create or remove containers, and nobody else does while the call runs.
- Recovery.SweepOrphans: the 200-row limit of the listing and the staleness test that force_all skips are not modelled; the listing is any list of in-progress rows.
- JobQueue.TraceSound: each enqueue, and each pop with its save, is one atomic step; run ids are fresh; ids that are empty or hold quotes, backslashes or control characters, which the hand-written JSON line does not carry, are outside the id type; `cmd_resume` is not a step.
- DeployRepair.ProposalsInOrder: which patterns a container log matches is an input; the patterns themselves, and real-valued arguments, are not modelled.
- Deploy.DockerHost.TryOnce: the poll of the early-crash window and the inference probe are one fate of the container; command lines, mounts and durations are not modelled, and no one but the deployment changes docker while it runs.
- Cleanup.ExecuteCleanup: the sweep of unlabelled containers only logs and is left out.
- Extraction.ExtractReport: error details and excerpts are not modelled; numbers are reals and lone surrogate escapes are not part of the concrete syntax.
- ThinkBlocks.TranscriptStripped: the regular expressions are hand-written matchers for the think tags.
- AgentPool.TraceSound: symbolic links under the workspace root, and directories removed by others, are not modelled.
- Watchdog.InvAlways: that the watchdog is scheduled at all is not claimed; the poll period and the join timeout are any number of steps.
- Lanes.RunAgent: task files, extra files and the texts of system reports are not modelled; decoding of the output is part of the oracle that yields it.
- CacheEvictor.CacheDisk.EnforceQuota: a removal that fails leaves its directory as it was, where the original may leave part of it; the hf_ids and the latest run of an entry, which only reports use, are left out.
- ModelStager.CacheSlot.EnsureStaged: a download thread that outlives its timeout may write again after the cleanup; allow patterns and the size estimate are inputs, and the eviction before a download is in CacheEvictor.
- Discovery.Paginate: a generator is run to its end; retries after HTTP 429 and unparsable time stamps are not modelled.
- Backup.BackupDir.TakeSnapshot: a clean-up that fails is taken to leave the whole directory; names without the snapshot form and the age report are left out.
- Fixtures.RenderText: the font's table is not modelled; padding and scale are natural numbers.
- Png.PngRoundTrip: the reader handles files of one IDAT chunk with unfiltered rows, which is what is written.
- The curated scan of organisations and the trending sweep, the audio and video fixtures, READY_WAIT, CAPABILITY, PERF_BENCH and SHOWCASE, the panel, heartbeat and notifications, the command line, engine and tag tables, prompts, and the agent's schema checks are not modelled: they are I/O, tables or single branches.
