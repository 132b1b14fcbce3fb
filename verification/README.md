# Twinwright: a verified model

Twinwright runs an agent as a state machine whose only lasting state is a database:
a run row, a transcript, saved tool results, an append-only ledger, chaos and
authorization counters, and a simulated world. This project models that machine, the
code that re-derives a run from its ledger, and the self-contained algorithms around
it, and proves what they keep.

How the model is laid out:

- `Protocol`, `Basics`, `Numbers`, `Floats`: the records of a run, JSON documents, how
  whole numbers are spelled and read back, and rounding to float64.
- `Dispatch`, `Chaos`, `Authz`, `Billing`: the one atomic tool transaction and the
  machines inside it. An aborted transaction leaves no trace.
- `Engine`: the durable steps of a run (`Apply`), histories of steps (`Exec`) and the
  loop that chooses them (`Execute`). A crash is a history that simply goes on from the
  rows, because everything a worker remembers is read again.
- `Lease`, `Runner`: fenced ownership, and the store with its guarded writes and the
  `Execute` loop as imperative code, proved equal to the engine.
- `Agreement`, `Execution`, `Workers`, `Takeover`: what every reachable state keeps,
  for one worker and for any interleaving of many.
- `Simulation`, `Resume`, `Replay`, `Checkpoint`, `Reconstruct`, `Rebuild`, `Derived`,
  `Fork`, `Counterfactual`: the re-derivations, each proved to agree with the engine.
- `Counters`, `Echo`, `Repeat`, `Exact`: exactly which boundaries are rebuilt, and with
  which rows. `Divergence`: runs of the built-in handlers on either side of that line.
- `Builtin`, `Crm`, `Contract`: the built-in handlers meet what is assumed of handlers, one
  of them that checks its arguments itself, and the fixed contract of an API manifest.
- `Accounting`, `ChaosRuns`, `ChaosCalls`, `Snapshots`: refunds, call numbers, chaos
  counters and stale reads over whole runs.
- `Rewrite`, `Queries`, `TailBuffer`, `Shadow`, `Routes`, `Trials`, `Gate`: the
  algorithms with a specification of their own.

A provider is any function of attempt number and request; a behavior handler is any
deterministic function of world, run ID, call ID, behavior and arguments as decoded.
Nothing else is assumed of either, except where a row below says so.

A turn carries the spelling of its numbers. The runner decodes float64 values, so its
calls are the values; the response event keeps what the provider wrote, and so does the
transcript until the next dispatch decodes and encodes it again. A rebuild keeps literals.

## Findings

Three statements turned out to hold only under a condition. In each case the code is
modelled as it is, a lemma exhibits the failure and another gives the condition.

- Rebuilding a boundary. `Reconstruct` keeps number literals
  (internal/checkpoint/reconstruct.go:209-213) where the runner decodes float64 values. A
  listed boundary is rebuilt if and only if every call before it repeats, that is, its
  literals dispatched on the run's own rows record what the run recorded, and it does not end
  in a turn with calls that spelled a number its own way: `Exact.BoundaryRebuildsIff`. A call
  the runner refused because a number was not a whole 64-bit value passes `validate` as a
  literal (internal/dispatch/dispatch.go:319-355). It repeats only where no policy, chaos rule
  or injected fault shows and the handler refuses it in the same words:
  `Repeat.RefusalRepeatsIff`. A refund of 1.5 cents does not, so its run cannot be rebuilt:
  `Divergence.FractionCannotBeRebuilt`. An account status of 1.5, which a world manifest may
  declare an integer, does, because internal/crm/crm.go:85-89 says "invalid status" as
  `validate` did: `Divergence.StatusIsRebuilt`. The rebuild has then shown the call to chaos
  rules the run never reached, so its counters are too high, and nothing compares them:
  `Divergence.StatusIsRebuiltMiscounted`; `Counters.CountersAreTheRuns` says when they agree.
  A turn that wrote 1000.0 no longer matches the transcript that the next dispatch respelled
  (internal/dispatch/dispatch.go:254-269): `Divergence.DecimalPointCannotBeRebuilt`. A whole
  number above 2^53 may come back as another integer: `Divergence.LargeAmountCannotBeRebuilt`.
  For manifests of the fixed contract, and calls both decoders read alike, the condition comes
  down to no refused call and no respelled last turn: `Contract.ContractRebuildsIff`.
- The gate at tolerance zero. The rounding allowance, together with float64 rounding, hides
  one lost trial from 999,999,973 trials on: `Gate.LossCanHide`, `Gate.LossIsReported`.
- Replaying a fork. It needs the parent to be listable at that moment, so it fails while
  the parent is running or after the parent recorded a failure, and otherwise always gives
  the same child: `Fork.ForkReplaysIff`, `Fork.ForkDeterminism`.

## Model

| member | source | states |
|---|---|---|
| Dispatch.ValidateAccepts | internal/dispatch/dispatch.go:319-355 | arguments are accepted if and only if nothing required is missing and every argument is declared and well typed |
| Dispatch.CheckArguments | internal/dispatch/dispatch.go:319-355 | the validation loops report exactly the first fault: missing names in declared order, then arguments in name order |
| Basics.CheckerTells | internal/dispatch/dispatch.go:319-355 | the argument check's error documents tell its faults apart; "invalid arguments" is also what it says of an argument called "arguments" |
| Dispatch.PerformFrames | internal/dispatch/dispatch.go:88-237 | no stage between cache lookup and commit touches step, transcript or saved results, or records anything but bracket events |
| Dispatch.CommitIsBracket | internal/dispatch/dispatch.go:238-279 | the committed events are one request, inner events with at most one mutation, and the matching response |
| Dispatch.InvokeAgrees | internal/dispatch/dispatch.go:41-289 | a committed call adds one saved result, one tool message and one bracket, all with the same status and body, for an ID that had none |
| Chaos.Decide | internal/chaos/state.go:21-79 | the rule loop computes the fold over the policy: counters advanced, at most one rule selected, stale-read rules collected |
| Chaos.DecideCounts | internal/chaos/state.go:41-79 | every matching rule counts the call once and only the selected rule counts an injection |
| Chaos.DecideSelectsFirstActive | internal/chaos/state.go:41-79 | the selected rule is the first active one in policy order, judged on the stored counters |
| Chaos.DecideCaptures | internal/chaos/state.go:41-79 | the capture list is exactly the matching stale-read rules, in policy order |
| Chaos.SaveSnapshots | internal/chaos/state.go:87-94 | first write wins: existing snapshots are kept, missing ones get the observed response |
| Authz.ExposedFrom | internal/authz/decision.go:255-273 | an operation is exposed if and only if it is mapped, granted at the next call and not broad for a scoped policy |
| Authz.HiddenIsRefused | internal/authz/decision.go:107-189 | an operation that is not exposed is denied or invalid at the next call, whatever its arguments and the world |
| Authz.DecideIsScreen | internal/authz/decision.go:147-189 | deciding is screening at the next call number, and only valid calls consume a number |
| Authz.CallNumbersAreConsecutive | internal/authz/decision.go:173-189 | the k-th judged call of a sequence has number k; invalid calls consume none |
| Authz.ScreenProposed | internal/shadow/simulate.go:119-149 | the read-only screen lists exactly the denials, reasons and numbers that repeated decisions give, and counts the invalid calls |
| Billing.Integer | internal/billing/billing.go:137-152 | the decoded amount always fits 64 bits, whichever way the number was decoded |
| Billing.IntegersAgree | internal/billing/billing.go:137-152 | both decodings read the same amount from every number below 2^53 in magnitude |
| Numbers.ReadersAgree | internal/authz/decision.go:238-251 | a strict reader gets the same 64-bit integer from a float64 value and from the literal an encoder writes for it, below 2^53 |
| Numbers.ShortestReadsBack | internal/dispatch/dispatch.go:254-269 | the shortest spelling of a whole float64 value still reads as that value |
| Numbers.SpelledApart | internal/billing/billing.go:137-152 | above 2^53 the literal can spell another integer: 2^60 is written 1152921504606847000 |
| Billing.Tables.IssueRefund | internal/billing/billing.go:83-121 | each refusal leaves the tables alone; otherwise one refund row is inserted and the charge raised by the same amount |
| Billing.CreateConserves | internal/billing/billing.go:83-121 | a refund keeps refunded equal to seed plus refund rows, within the charge amount |
| Accounting.InvokeConserves | internal/dispatch/dispatch.go:156-196 | a committed call conserves refunds through the chaos actor's write and its own |
| Accounting.ReachableConserves | internal/billing/billing.go:83-121 | over every run of calls, actor writes, retries and rollbacks, each charge's refunded amount is its seed value plus its refund rows, between zero and its amount, within 64 bits |
| Builtin.MeetsAssumptions | internal/billing/billing.go:83-152 | the built-in refund handler, beside handlers that leave the billing tables alone and write nothing they do not report as a mutation, changes the tables only the way a refund does, reads numbers below 2^53 alike, and gives the same outcome from both decodings whenever mutation and status are the same |
| Accounting.InvokeNumbers | internal/dispatch/dispatch.go:89-109 | a committed call records at most one authorization event, with the next call number, and advances the counter with it |
| Accounting.ReachableNumbered | internal/authz/decision.go:173-189 | in every reachable state the k-th authorization event carries call index k and the counter is the number of such events |
| ChaosRuns.InjectionIsFirstActive | internal/dispatch/dispatch.go:110-237 | an injection event comes from the first active rule on the counters as they stood, with its matching-call number |
| ChaosRuns.TrailAccount | internal/dispatch/dispatch.go:110-237 | one call records at most one injection and the counters move by exactly the recorded injections, an injection given back included |
| ChaosRuns.ReachableCounters | internal/chaos/state.go:41-79 | in every reachable state each rule's injection counter equals its injection events, and a positive limit is never exceeded |
| ChaosRuns.ReachableLawful | internal/dispatch/dispatch.go:110-237 | every finished call shows at most one injection, by a matching rule whose counter is past after_calls; a commit timeout always hides a committed mutation and shows status zero |
| ChaosCalls.ReachableCalls | internal/chaos/state.go:41-79 | in every reachable state the counter behind after_calls is the number of finished matching calls that got past argument check and authorization, and every injection carries that number, past after_calls |
| Snapshots.ReachableRemembers | internal/chaos/state.go:87-104 | every watching rule's snapshot is the first successful outcome the run had for that operation and those arguments, or absent |
| Snapshots.StaleReadIsFirstCapture | internal/dispatch/dispatch.go:135-142 | a stale read answers with the first successful outcome for those arguments, a concealed outcome counting as what it really was |
| Engine.CallsFaultNone | internal/agent/runner.go:200-223 | a turn is accepted if and only if every call is named, compiled, new to the run and new to the turn |
| Engine.CallFrom | internal/agent/runner.go:251-272 | a turn asks the provider at least once and at most twice |
| Engine.DispatchLowersBacklog | internal/agent/runner.go:111-126 | committing the pending call leaves one unanswered call fewer, so the loop cannot dispatch forever |
| Agreement.PendingIsNext | internal/agent/runner.go:335-352 | the pending call is the first call after the answered ones and has no saved result |
| Agreement.DispatchKeepsAgreement | internal/dispatch/dispatch.go:41-289 | dispatching answers the next call in order and keeps the three-way agreement |
| Agreement.TurnKeepsAgreement | internal/agent/runner.go:156-186 | saving an accepted turn keeps the agreement |
| Agreement.ReachableAgrees | internal/agent/runner.go:91-191 | in every reachable state saved results, tool messages and ledger brackets name the same calls in the same order with the same outcome, at most one mutation each, and every call of a turn is answered before the next turn |
| Agreement.HistoryIsPlain | internal/dispatch/dispatch.go:254-269 | by the time the model is asked, every number in the history has been respelled by a dispatch |
| Execution.PendingIsFresh | internal/dispatch/dispatch.go:59-70 | the pending call of an agreeing state is never answered from the cache: dispatch commits it or fails |
| Execution.ExecuteTakesMoves | internal/agent/runner.go:91-191 | whatever the provider answers, the loop returns, takes only durable engine steps, its verdict matches the state it leaves, and it never refuses a request it can repeat |
| Execution.ReachableResumable | internal/agent/runner.go:287-302 | in every reachable state an unanswered request equals the one the next attempt regenerates |
| Execution.ResumeIsSafe | internal/agent/runner.go:303-320 | a resumed worker never meets a differing abandoned request: from any reachable state the loop completes, pauses or records a failure |
| Runner.FindPending | internal/agent/runner.go:335-352 | the two loops find the first call in transcript order without a tool message |
| Runner.ValidateCalls | internal/agent/runner.go:200-223 | the validation loops report the same fault as the ordered rule |
| Runner.AskProvider | internal/agent/runner.go:251-272 | at most two attempts; interruptions are recorded ahead of the turn that follows them |
| Runner.Store.Admit | internal/store/lease.go:264-303 | a fenced write is admitted if and only if owner, token and expiry are current, and a refused one changes nothing |
| Runner.Store.AppendGuarded | internal/store/guarded.go:54-58 | appends one event under the guard, or changes no row |
| Runner.Store.SaveTurnGuarded | internal/store/guarded.go:68-79 | interruptions, response, step and transcript column are written together under the guard, or not at all |
| Runner.Store.FailModelTurnGuarded | internal/store/guarded.go:82-96 | the failed turn is recorded whole under the guard, or not at all |
| Runner.Store.SaveStatusGuarded | internal/store/guarded.go:99-106 | status and event are written together under the guard, or not at all |
| Runner.Store.Invoke | internal/dispatch/dispatch.go:41-289 | the transaction commits everything or nothing, the ownership record included |
| Runner.Store.DispatchPending | internal/agent/runner.go:111-126 | the pending call is committed, or the run is failed with its cause |
| Runner.Store.TakeTurn | internal/agent/runner.go:141-189 | request, provider, validation and the recorded outcome of one turn |
| Runner.Store.Execute | internal/agent/runner.go:91-191 | the loop commits exactly the engine's steps and returns its verdict, and terminates |
| Runner.Store.RepeatRequest | internal/checkpoint/reconstruct.go:85-107 | a recorded request is repeated only if the rebuilt rows would produce it |
| Workers.ActIsMove | internal/store/guarded.go:36-79 | no lost update: whatever worker acts, the rows stay or take exactly one engine step from their current value, and only the newest token can change them |
| Workers.TurnAppendsOne | internal/agent/runner.go:178-186 | a committed turn is the durable transcript plus exactly its message and raises the step by one; a refused one changes nothing |
| Workers.InterleavingIsRun | internal/store/lease.go:91-303 | every interleaving of any number of workers, with crashes and takeovers anywhere, leaves rows the single engine reaches |
| Takeover.TakeoverTransparency | internal/agent/runner.go:91-191 | a run completed by any number of workers with a provider that is a function of the request ends like one uninterrupted local execution |
| Takeover.TakeoverReplays | internal/replay/replay.go:61-256 | a completed run without failures replays verified whichever workers ran it |
| Simulation.SimulateStep | internal/agent/runner.go:303-320 | one durable step of an interrupted run is matched by at most one iteration of the uninterrupted loop; an open request is reused, not repeated |
| Simulation.StepsAreTurns | internal/store/guarded.go:68-79 | the step column counts the saved turns |
| Simulation.CrashTransparency | internal/agent/runner.go:91-191 | however often workers died, paused or took over, the completed run has the semantic ledger, transcript, results, counters and world of the uncrashed run |
| Resume.ResumeTransparency | internal/agent/runner.go:91-191 | whenever the uncrashed run completes, resuming from any state a crash, pause or takeover left completes too, with the same rows and semantic ledger |
| Resume.TakeoverResumes | internal/agent/runner.go:91-191 | the same for whatever any interleaving of workers left behind |
| Replay.ReadRecorded | internal/replay/replay.go:263-340 | the loop accepts exactly the ledgers with start first, completion last, answered requests and no failure, and returns their turns |
| Replay.CompareEvents | internal/replay/replay.go:360-381 | the loops accept exactly equal semantic event lists and count them |
| Replay.Verify | internal/replay/replay.go:61-256 | re-execution from the seed with the recorded turns, compared in events, results, chaos and authorization state, transcript and world |
| Replay.RecordedTurns | internal/replay/replay.go:263-340 | the recorded turns of a completed run are exactly the turns it saved |
| Replay.CompletedRunsVerify | internal/replay/replay.go:61-256 | every completed root run without a recorded failure replays verified, with its step, results and semantic events as the reported counts |
| Checkpoint.List | internal/checkpoint/checkpoint.go:32-181 | the scan with its flags, counters and list accepts and reports exactly what the automaton does |
| Checkpoint.PointsAreBoundaries | internal/checkpoint/checkpoint.go:161-181 | the reported points are exactly the prefixes that end in a boundary event |
| Checkpoint.PointsAscend | internal/checkpoint/checkpoint.go:218-227 | an event number selects at most one point |
| Checkpoint.ReachableTracks | internal/checkpoint/checkpoint.go:57-180 | on every reachable ledger without failures the scan's counters are the run's step and tool messages and its open flag is the unanswered request |
| Checkpoint.ListedIff | internal/checkpoint/checkpoint.go:32-181 | a reachable run is listed if and only if it has no recorded failure and completed, or paused with the pause as its last event |
| Checkpoint.ExecutedRunsHaveCheckpoints | internal/checkpoint/checkpoint.go:57-180 | whenever Execute returns paused or completed without a recorded failure, List accepts and its last point carries the run's step and tool-call count |
| Reconstruct.InvokeModesAgree | internal/dispatch/dispatch.go:319-355 | a call neither refused for a number nor read apart by the environment's code runs the same way from either number decoding |
| Reconstruct.WalkRebuilds | internal/checkpoint/reconstruct.go:79-173 | the index-skipping walk over a reachable ledger without such calls ends with exactly the run's rows, number spellings included |
| Reconstruct.BoundaryIsState | internal/checkpoint/checkpoint.go:161-181 | a boundary prefix is the ledger of an earlier state of the same run |
| Reconstruct.PrefixIffPlain | internal/checkpoint/reconstruct.go:226-244 | the transcript comparison passes if and only if the boundary does not end in a turn with calls whose numbers were not in shortest spelling |
| Reconstruct.BoundariesRebuild | internal/checkpoint/reconstruct.go:19-207 | at every such boundary the rebuild succeeds with the recorded prefix, the rows of that moment, a transcript prefix and equal results |
| Reconstruct.DivergingCallParts | internal/checkpoint/reconstruct.go:174-185 | a recorded bracket that the rebuild's own dispatch does not reproduce fails the walk or leaves an event in the generated ledger that differs from the recorded one at its place |
| Reconstruct.PartsForGood | internal/checkpoint/reconstruct.go:174-185 | such a difference is never made up for by later events |
| Counters.TrailMoves | internal/chaos/state.go:41-79 | one dispatch, from either number decoding, adds one call to each matching rule if and only if argument check and authorization let it through, and injections by what it records |
| Counters.CountersAreTheRuns | internal/chaos/state.go:41-79 | raised counters are the run's if and only if no refused call of the ledger matches a chaos rule, which under an authorization policy none does |
| Echo.SameEventsAlike | internal/dispatch/dispatch.go:88-237 | two dispatches of an accepted call, from different decodings and on different chaos counters, that record the same events leave the same rows apart from those counters, whichever rule each of them met |
| Repeat.RefusalRepeatsIff | internal/dispatch/dispatch.go:88-237 | a call the runner refused for a number is recorded alike by a rebuild if and only if its literal passes the argument check, no authorization policy, injected fault or showing chaos rule comes first and the handler answers 400 with the same document and no mutation; under a policy, if and only if the policy's own check fails and the argument is called "arguments" |
| Repeat.AcceptedRepeatsIff | internal/dispatch/dispatch.go:110-237 | a call that passed the argument check and reads alike is recorded alike if and only if the raised counters give it the injection it had |
| Repeat.RepeatStaysRaised | internal/dispatch/dispatch.go:238-289 | after a call recorded alike the rebuild's rows are again the run's, with the counters of matching rules raised by one if the call was refused |
| Exact.WalkEchoes | internal/checkpoint/reconstruct.go:79-173 | the walk over a reachable ledger follows the run while its calls repeat, with exactly these rows, and parts from the ledger for good at the first that does not |
| Exact.BoundaryRebuildsIff | internal/checkpoint/reconstruct.go:19-207 | for every run and listed boundary: it is rebuilt if and only if every call before it repeats and it does not end in a turn with calls whose number literals were not in shortest spelling, and then with the run's rows under raised chaos counters |
| Exact.RepeatableRebuildsIff | internal/checkpoint/reconstruct.go:19-207 | with handlers that never say of an integer argument what the argument check says, and calls read alike, it is rebuilt if and only if its prefix holds no refused number and it does not end in such a turn, and then with the run's own rows |
| Contract.OnlyAmountIsInteger | internal/compiler/compiler.go:200-240 | an operation the contract check accepts declares no integer argument except the amount of a refund |
| Contract.ContractRebuildsIff | internal/compiler/compiler.go:200-240 | for every manifest of the fixed contract with the built-in handlers, and calls read alike, that condition is exact and the rebuilt rows are the run's own |
| Reconstruct.SafeIsReadAlike | internal/checkpoint/reconstruct.go:209-213 | with code that reads numbers below 2^53 alike, only a call with a larger whole number can be read apart |
| Derived.ReachableIsTold | internal/agent/runner.go:91-191 | in every reachable run without failures the ledger alone determines transcript and saved results |
| Derived.RebuiltAsRecorded | internal/checkpoint/reconstruct.go:79-207 | whatever the handlers do, a boundary that is rebuilt has the transcript and saved results of the run at that boundary |
| Derived.RebuiltEndsPlainly | internal/checkpoint/reconstruct.go:226-244 | whatever the handlers do, a boundary that ends in a respelled turn is never rebuilt |
| Rebuild.SkipToResponse | internal/checkpoint/reconstruct.go:145-150 | the inner index loop skips exactly the events the dispatch reproduced |
| Rebuild.Replay | internal/checkpoint/reconstruct.go:79-173 | the hand-advanced loop over a fresh store computes the walk |
| Rebuild.Compare | internal/checkpoint/reconstruct.go:174-202 | events, saved results and transcript are accepted exactly when they match the recorded prefix, number spellings included |
| Rebuild.RebuildAt | internal/checkpoint/reconstruct.go:19-207 | select, replay and compare together give the rebuilt rows or an error |
| Divergence.FractionCannotBeRebuilt | internal/checkpoint/reconstruct.go:133-144 | a refund of 1.5 cents with the built-in handler: a completed run without failures whose final boundary is listed and cannot be rebuilt |
| Divergence.DecimalPointCannotBeRebuilt | internal/checkpoint/reconstruct.go:109-128 | a refund of 1000.0 cents with the built-in handler: the final boundary is rebuilt, the one right after that turn is not |
| Divergence.LargeAmountCannotBeRebuilt | internal/checkpoint/reconstruct.go:132-144 | a refund of 2^60 cents with the built-in handler: nothing refused or misspelled, and the boundary cannot be rebuilt |
| Divergence.StatusIsRebuilt | internal/crm/crm.go:66-90 | an account status of 1.5 declared an integer: the runner refuses the call, and the boundary is rebuilt with the run's own rows |
| Divergence.StatusIsRebuiltMiscounted | internal/chaos/state.go:41-79 | the same with a chaos rule that is not due yet: the boundary is rebuilt and the rule's call counter is one too high |
| Crm.UpdateTells | internal/crm/crm.go:66-95 | nothing is written without reporting a mutation, and never the billing tables; a status that is no string is answered 400 "invalid status" |
| Fork.CopyResults | internal/fork/fork.go:353-370 | every saved result is copied and the overridden one updated, or the override fails |
| Fork.OverrideSettles | internal/fork/observation.go:61-91 | replacing the final observation together with its saved result keeps transcript and results in agreement |
| Fork.Build | internal/fork/fork.go:78-180 | the child rows Create assembles from options and the rebuilt prefix |
| Fork.Database.Create | internal/fork/fork.go:78-243 | the transaction inserts child, lineage and override, or changes nothing |
| Fork.SelectNamed | internal/fork/replay.go:29-39 | the boundary lineage names is found by number and checked by digest |
| Fork.Restore | internal/fork/replay.go:18-162 | the child rows replay rebuilds from lineage and the stored run row |
| Fork.RebuildIsStable | internal/checkpoint/reconstruct.go:19-207 | a boundary rebuilds to the same rows however far its run has gone on |
| Fork.ForkDeterminism | internal/fork/replay.go:18-162 | creating a fork changes no parent row, and replay rebuilds exactly the child it wrote, override included, if and only if the parent can still be listed |
| Fork.ForkReplaysIff | internal/fork/replay.go:18-162 | a fork replays if and only if its parent by then has no recorded failure and has completed, or paused with the pause as its last event |
| Fork.ChildIsSettled | internal/fork/fork.go:245-254 | a child's transcript and saved results agree call by call, an override included, whatever the handlers do |
| Counterfactual.DiscoverCalls | internal/counterfactual/analyze.go:198-224 | on every accepted ledger the scan stays in range and computes the calls |
| Counterfactual.SearchStands | internal/counterfactual/analyze.go:198-224 | every discovered call is where its record says, answered by its own response, and its decision is the next turn unless another call comes first |
| Counterfactual.CallsAreTargets | internal/counterfactual/analyze.go:296-320 | on every engine ledger each call's response and the event before its request are boundaries and its decision follows with no tool call between |
| Counterfactual.EngineCallsAreReachable | internal/counterfactual/analyze.go:296-320 | every call of an engine ledger has the boundaries planning needs |
| Counterfactual.Targets | internal/counterfactual/analyze.go:238-252 | an intervention aims at all calls or at the ones it names, and a name the run does not have is reported |
| Counterfactual.PlanForks | internal/counterfactual/analyze.go:228-326 | with those boundaries planning never misses a checkpoint, plans everything it is aimed at, and refuses only unknown calls, missing decisions or empty plans |
| Rewrite.ScanQuoted | internal/pgsql/rewrite.go:106-118 | the loop stops after the first quote that is not doubled |
| Rewrite.ScanLineComment | internal/pgsql/rewrite.go:120-125 | the scan stops after the first newline |
| Rewrite.ScanBlockComment | internal/pgsql/rewrite.go:128-144 | the scan stops where the nesting depth returns to zero |
| Rewrite.DollarTag | internal/pgsql/rewrite.go:149-167 | a tag is letters, underscores and later digits between two dollar signs |
| Rewrite.ScanDollarQuoted | internal/pgsql/rewrite.go:169-175 | the body ends after the first repetition of its tag |
| Rewrite.ParseIndex | internal/pgsql/rewrite.go:179-188 | up to nine digits are read exactly, more are refused |
| Rewrite.Itoa | internal/pgsql/rewrite.go:191-203 | the buffer filled backwards holds exactly the decimal digits |
| Rewrite.DecimalIsExact | internal/pgsql/rewrite.go:179-203 | reading the written digits gives the number back, without leading zeros |
| Rewrite.LexIsLossless | internal/pgsql/rewrite.go:32-100 | the tokens of a query concatenate to the query |
| Rewrite.LargestIsMaximum | internal/pgsql/rewrite.go:68-92 | the tracked number is the maximum of the numbers bound so far |
| Rewrite.NoPlaceholderUnchanged | internal/pgsql/rewrite.go:28-35 | a query without placeholders is unchanged |
| Rewrite.RewriteQuery | internal/pgsql/rewrite.go:32-100 | the loop writes every token verbatim except placeholders, which get their number, and terminates |
| Queries.LexFindsPieces | internal/pgsql/rewrite.go:32-175 | quoted runs, line comments, nested comments, dollar-quoted bodies, placeholders and whatever is left open at the end are found again exactly as they were put together |
| Queries.EveryQueryDecomposes | internal/pgsql/rewrite.go:106-175 | every string is made of such pieces and at most one quote, comment or body left open at its end |
| Queries.PiecesAreRebound | internal/pgsql/rewrite.go:32-203 | any such composition is rewritten piece by piece and its open end copied |
| Queries.RewritePreservesBindings | internal/pgsql/rewrite.go:32-203 | for every query: everything but placeholders stands as it was, ?NNN keeps its number and a bare ? gets one past the largest before it |
| TailBuffer.Buffer.constructor | internal/agent/exec.go:533-539 | the buffer keeps the window plus the longest spelling |
| TailBuffer.Buffer.Write | internal/agent/exec.go:541-553 | whatever the pieces, the buffer holds exactly the last kept bytes of the stream |
| TailBuffer.MaskSpelling | internal/agent/exec.go:576-586 | occurrences are overwritten in place from left to right |
| TailBuffer.MaskAllRemoves | internal/agent/exec.go:576-586 | after masking no spelling occurs whole and only masked bytes changed |
| TailBuffer.MaskIsNeeded | internal/agent/exec.go:576-586 | a byte is masked only where a spelling stood |
| TailBuffer.FindStart | internal/agent/exec.go:587-590 | the window never begins inside a masked run |
| TailBuffer.ShowIsFaithful | internal/agent/exec.go:593-604 | what can be read is exactly the unmasked bytes and masks never stand side by side |
| TailBuffer.StraddlerEndsBeforeWindow | internal/agent/exec.go:516-522 | an occurrence that starts before the kept bytes ends before the window begins |
| TailBuffer.TailHides | internal/agent/exec.go:555-610 | no occurrence in the stream can be read whole from the tail, and one that starts before the kept bytes cannot be read at all |
| TailBuffer.TailNeverQuotes | internal/agent/exec.go:564-610 | no spelling can be read as consecutive bytes anywhere in the returned tail |
| TailBuffer.Buffer.Tail | internal/agent/exec.go:564-610 | the returned tail is the masked window of the last kept bytes of the stream, and no spelling can be read in it |
| Shadow.JoinIsExact | internal/shadow/compare.go:148-162 | keys joined at a zero byte are equal only for equal parts |
| Shadow.PairOn | internal/shadow/compare.go:272-337 | pairs and leftovers are a permutation of each stream, pairs agree on a non-empty key, no two leftovers share one, and within a key the smallest are paired first |
| Shadow.DivergingFields | internal/shadow/compare.go:341-392 | exactly the fields whose encodings differ, or that one side lacks, are reported, in name order, and none if and only if all encodings are equal |
| Shadow.TimingOf | internal/shadow/compare.go:395-415 | order divergences are exactly the inversions between the streams, each once |
| Shadow.CompareWith | internal/shadow/compare.go:134-183 | every action is matched, diverged or alone exactly once; diverged pairs share operation and resource and report at least one field |
| Routes.WorldPath | internal/compiler/world_compile.go:205-230 | a path is accepted if and only if it has only literal segments and distinct named arguments, and gets the shape with wildcards for arguments |
| Routes.SplitJoin | internal/compiler/world_compile.go:205-244 | splitting a joined shape gives its parts back |
| Routes.RoutesOverlap | internal/compiler/world_compile.go:232-244 | the segment loop decides overlap |
| Routes.OverlapMeansCommonPath | internal/compiler/world_compile.go:232-244 | two shapes overlap if and only if some concrete path of non-empty segments matches both |
| Routes.CheckRoutes | internal/compiler/world_compile.go:386-412 | a service is accepted if and only if its operation IDs rise, its paths are supported and no two routes of one method overlap |
| Routes.AtMostOneRoute | internal/compiler/world_compile.go:386-412 | in an accepted service each method and path matches at most one operation |
| Trials.FoldTrials | internal/bench/run.go:238-273 | the loop with its counters, maxima and first indices computes the fold, for any trials |
| Trials.FoldIsRight | internal/bench/run.go:238-273 | status, pass count, safety flags and maxima are those of all trials together, and the verdict names the first trial of its kind |
| Trials.FoldIgnoresOrder | internal/bench/run.go:238-273 | permuting the trials a benchmark writes changes neither status, passes nor any safety counter |
| Trials.StatusIgnoresOrderIff | internal/bench/run.go:244-273 | for any trials at all the folded status is independent of order if and only if one failed or there are not both an error and a trial marked passed that did not pass |
| Trials.PassedMeansAllPassed | internal/bench/run.go:238-273 | a folded case is passed if and only if passes equal trials |
| Gate.FoldedCases | internal/bench/run.go:238-273 | a folded case has between zero and its trials' count of passes and is passed if and only if all passed, which is what the gate's soundness builds on |
| Gate.Index | internal/gate/gate.go:195-231 | a report is indexed unless a case cannot be judged or repeats an ID |
| Gate.Compare | internal/gate/gate.go:108-188 | refuses what cannot be judged, otherwise lists the findings of every case of either report in ID order; passed means no regression |
| Gate.LossIsReported | internal/gate/gate.go:233-388 | at tolerance zero, in float64 arithmetic, a lost case is reported if and only if it was not rated or 18014399 times its trials is at most 2^54 times the trials lost |
| Gate.ShareShows | internal/gate/gate.go:379-410 | the float64 pass rate falls below one minus the allowance exactly at that bound |
| Gate.NoLossUnreported | internal/gate/gate.go:233-388 | up to 999,999,972 trials no loss goes unreported |
| Gate.LossCanHide | internal/gate/gate.go:48-51 | at 999,999,973 trials one lost trial is not reported |
| Gate.LostCaseIsRegression | internal/gate/gate.go:108-188 | between version 2 reports at tolerance zero, up to 999,999,972 trials, a non-control case that passed and no longer does is a regression |
| Gate.MissingCaseIsRegression | internal/gate/gate.go:170-176 | a case the candidate lacks is a regression |
| Gate.SelfGateIsClean | internal/gate/gate.go:108-188 | a report gated against itself has no regression |
| Gate.GateIsMonotone | internal/gate/gate.go:360-388 | raising the tolerance never adds a regression |

## Left out

- JSON text: documents are values, so key order and string escapes are not modelled. One spelling stands for all number literals of a turn, its raw provider output included; reading a history respells raw output only in `Invoke`, where the model respells it on every read, and by `Agreement.HistoryIsPlain` no history that is read for a request still needs it.
- Numbers outside float64's range: a literal such as 1e400 makes every later read of the transcript fail.
- Conversion of a float64 outside the 64-bit range to an integer: taken as not whole, as on amd64; the language leaves it to the platform.
- Event sequence numbers, world times and recorded times: events are identified by position, as every append numbers them.
- SHA-256: a prefix stands for its digest and a snapshot key for its argument digest.
- Policy, suite and intervention parsing: policies are values, and where a proof needs what parsing guarantees (distinct rule IDs, error statuses 400 to 599) the lemma says so.
- Manifest, scenario and policy-digest checks at the start of replay, listing and fork replay: they compare stored metadata and do not change what is re-executed.
- Runs with recorded provider or dispatch failures in the replay, checkpoint and counterfactual results: the code refuses them; they are covered by the agreement, accounting and takeover invariants.
- The world tables other than charges and refunds: one document store that handlers may change at will.
- Copying world tables row by row in a fork: the world is copied as a value.
- Exact.BoundaryRebuildsIff: assumes of handlers that a write is reported as a mutation and that the outcomes from both decodings are equal when mutation and status are; the built-in handlers do so by `Builtin.MeetsAssumptions`.
- Builtin.MeetsAssumptions: every handler but the refund is taken to read its arguments as strings; the billing reads bind theirs to a query, so a world manifest that declares such an argument an integer in a POST body could have it read apart.
- Accounting.ReachableConserves: assumes that handlers change charges and refunds only the way a refund does; the built-in handlers do, by `Builtin.MeetsAssumptions`.
- Billing.Tables.IssueRefund: the refund ID is a parameter, since it is a hash of run and call ID, and the creation time is left out.
- Snapshots.StaleReadIsFirstCapture: stated for GET operations, the only ones whose responses are captured.
- TailBuffer.Buffer.Tail: does not model trimming white space or replacing invalid UTF-8 at the very end, and shows a mask as one symbol.
- Shadow.CompareWith: how single encodings are put together to the encoding of all arguments is a parameter; labels, timestamps and the policy report are left out.
- Routes.CheckRoutes: the digest, behavior and required-order checks of the validator are left out.
- Gate.Compare: the final sort of findings and their texts are left out.
- Gate.LossIsReported: stated for fewer than 2^53 trials, which float64 counts exactly.
- Counterfactual.PlanForks: option and provider validation happen before this choice and are left out.
- Workers.InterleavingIsRun: queue order, heartbeats and waiting are left out; claims, renewals, releases and expiry with any clocks are in.
- HTTP providers, cassettes, process control, the command line, metrics and rendering: input and output.
- Scripted agents and scenario judges: fixed fixtures.
