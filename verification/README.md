# Govee BLE air purifier: a verified model of its control logic

This project models the deterministic control logic of the purifier integration and
proves what it keeps over whole runs. Each mutable object of the program is a class whose
methods are proved to compute a function on plain values; the run-level theorems are
lemmas about those functions. Verify everything with `dafny verify dfyconfig.toml`.

| files | part of the system |
|---|---|
| `CustomAutoPolicy`, `CustomAutoInvariant`, `CustomAutoHistory`, `CustomAutoStaleDwell`, `CustomAutoRetry`, `CustomAutoRetryRuns`, `CustomAutoTimers`, `CustomAutoConvergence`, `CustomAutoDiary`, `CustomAutoDiaryRefinement`, `CustomAutoPromptness` | the Custom Auto hysteresis policy |
| `CustomAutoActor`, `CustomAutoRuns`, `CustomAutoEngagement`, `CustomAutoWorkers`, `CustomAutoCommands`, `CustomAutoController` | the single-owner actor that drives the policy with sample, timer and command workers |
| `Operations`, `OperationsController`, `CommandLifecycle`, `CommandInvariant`, `EchoQuarantine`, `CommandRuns`, `CommandTheorems`, `CommandMeaning`, `CommandOutcomes`, `CommandQuiescence`, `EchoReservation` | the command queue and its execution across reconnects |
| `RegistryGate`, `RegistryGateSafety`, `RegistryGateProgress`, `RegistryGateCoordinator` | the safety gate of the coordinator and its cleanup loops |
| `Recovery`, `RecoveryRefinement` | reconnect backoff and the circuit floor |
| `Frame`, `Crypto`, `Protocol`, `ResponseMatcher`, `ResponseRules`, `StateReducer`, `Confirmation`, `StartupMode`, `WireMeaning` | frames, cipher, codec, response matching and state reduction |
| `Ownership` | exclusive ownership of Bluetooth addresses |
| `L2cap`, `L2capInverse` | reassembly of captured L2CAP traffic |

## Conventions

- Times are reals, and valid iff not negative. Revisions of observations and connection
  generations are integers; internal counters are naturals.
- A coroutine is a sequence of steps, one per stretch between two awaits; the steps of
  different coroutines interleave freely. An event that cannot occur in a state leaves it
  unchanged, so a theorem over all sequences of events covers every legal interleaving.
- What depends on the outside (the clock, whether a sample task has finished, whether
  the reducer already confirms a command, the outcome of a cleanup transaction, which
  tasks have ended) is part of the event.
- Custom Auto's five modes are fixed by the profile validation
  (`profiles/parsing.py:611-621`) and therefore constants.
- An operation is named by its place in the table of operations; the program's
  `operation_id` is that place plus one.
- A profile that passed validation gives every model all five command templates; the
  fan template and the startup strategy remain parameters.

## Where the code falls short of the plain claim

- **A retried command may lack support.** After a failed command the next reading is
  followed at once (`custom_auto_policy.py:323-333`), and three things can leave the
  retried or a later downshift unsupported by the readings:
  - the retry of a downshift filters the dwells by level only, not against the new
    reading, so that a contradicted dwell fires later (`CustomAutoStaleDwell.StaleDwellFires`);
    by `CustomAutoHistory.DwellsAreHeldExactly` this branch, with a lowest dwell below the
    new reading, is the only one that keeps an unsupported dwell;
  - after a failed upshift the next reading is followed without any dwell, down as well as
    up (`CustomAutoRetryRuns.FailedClimbDropsAtOnce`);
  - the failure drops the reading deferred while the command was in flight
    (`custom_auto_policy.py:154`), so that a downshift is repeated although that reading
    contradicts it (`CustomAutoRetryRuns.RetryForgetsTheReadingInFlight`).

  Short of the first, `CustomAutoRetry.CommandsAreWarrantedExactly` gives the exact
  condition for every emitted command: no retry, or a retry that the readings since the
  emission of the failed command sustain.
- **An outside cancellation strands a target.** A command worker that reports a
  cancellation the actor did not ask for is forgotten while its target stays pending
  (`custom_auto_controller.py:543-545`). `CustomAutoActor.StepKeepsActorInv` holds exactly
  without that; `CustomAutoRuns.OutsideCancellationStrands` proves the consequence for
  every run, and `StrandingIsReachable` gives one. A timer worker so cancelled leaves a
  boundary with no timer until the policy next changes; `CustomAutoWorkers.StepKeepsTimer`
  holds exactly without that.
- **An open gate can coexist with a required cleanup.** The startup sequence runs a
  cleanup loop of its own beside the owned task. If that loop succeeds and the owned task then
  exhausts its attempts, the callback marks cleanup as required under an open gate
  (`coordinator.py:776-784`). `RegistryGateSafety.StepKeepsCleanUnless` and
  `OpenGateIsClean` say exactly when; the stronger safety property, that the gate reopens
  only after a cleanup newer than the latest block, holds in every interleaving.
- **Large thresholds defeat the bounded windows.** Validation admits thresholds up to
  300 (`profiles/parsing.py:545-571`), but the windows hold 32 times: a failure threshold
  of 32 or more, or a wake threshold above 32, changes the floor.
  `RecoveryRefinement.BoundedWindowsRefineTheLog` gives the exact bound, profiles with
  zero or equal floors included.
- **A startup pair can be rebound.** `StartupMode.ModeIsTheLastVerdict` describes the
  reducer on all histories; only the client's discipline of invalidating before each new
  generation makes a pair belong to one generation
  (`LevelsCompleteTheirPair`, `RebindingCompletesAnOldPair`).
- The revision barrier of the actor is implied by the last seen revision: the checks on
  a reading reduce to `CustomAutoRuns.ReadingsAreFresh`.

## Model

| member | source | states |
|---|---|---|
| CustomAutoPolicy.LevelIsTheBand | custom_components/govee_ble_air_purifier/custom_auto_policy.py:174-178 | the level of a PM2.5 reading is the band it falls in: every boundary below the level index lies below the reading, every other at or above it |
| CustomAutoPolicy.ModeAndLevelAreInverse | custom_components/govee_ble_air_purifier/custom_auto_policy.py:163-171 | the five levels and the controlled modes correspond one to one; Auto has no level |
| CustomAutoPolicy.ComputeNextBoundary | custom_components/govee_ble_air_purifier/custom_auto_policy.py:190-204 | the loop over dwells returns the earliest boundary that has not asked for a sample |
| CustomAutoPolicy.FireBoundary | custom_components/govee_ble_air_purifier/custom_auto_policy.py:222-252 | the loop that marks due timers computes the specified boundary evaluation |
| CustomAutoInvariant.ReachableStatesSatisfyInv | custom_components/govee_ble_air_purifier/custom_auto_policy.py:107-160 | over all runs, failures included: dwells are a contiguous ascending range below the confirmed level; an upshift excludes dwells, a pending target and a failure marker; a deferred reading implies a pending target; no stored revision exceeds the last one; a pending target is never the confirmed mode |
| CustomAutoInvariant.AcknowledgeKeeps | custom_components/govee_ble_air_purifier/custom_auto_policy.py:107-144 | confirming the pending target succeeds and, together with reconciling the deferred reading, keeps the invariant |
| CustomAutoInvariant.HysteresisKeeps | custom_components/govee_ble_air_purifier/custom_auto_policy.py:335-386 | one evaluation against a known level keeps the invariant and emits only a level other than the confirmed one |
| CustomAutoInvariant.LowestMaturedIs | custom_components/govee_ble_air_purifier/custom_auto_policy.py:374-386 | the level chosen for a downshift is the lowest whose dwell has matured, and one is chosen exactly if some dwell has |
| CustomAutoHistory.StepIsJustified | custom_components/govee_ble_air_purifier/custom_auto_policy.py:309-386 | one operation keeps every dwell and upshift supported by the readings exactly when it is not a failed-downshift retry that carries a contradicted dwell over; targets outside retries are warranted |
| CustomAutoHistory.RunIsJustified | custom_components/govee_ble_air_purifier/custom_auto_policy.py:309-386 | the same over every run without such a retry |
| CustomAutoHistory.CommandsAreWarranted | custom_components/govee_ble_air_purifier/custom_auto_policy.py:279-406 | without command failures a downward target has dwelt its full delay with no accepted reading above it since, deferred readings included; an upward target has two readings at least the delay apart, all above the confirmed level, and is the latest level |
| CustomAutoHistory.CommandsAreWarrantedOutsideRetries | custom_components/govee_ble_air_purifier/custom_auto_policy.py:309-386 | the same with failures for every target that is not itself the retry of a failed command, until a retry carries a contradicted dwell over |
| CustomAutoHistory.DwellsAreHeldExactly | custom_components/govee_ble_air_purifier/custom_auto_policy.py:323-386 | over all runs, every stored dwell and upshift is supported by the readings after every operation exactly if no downshift retry ever carries a dwell over that its reading contradicts |
| CustomAutoRetry.RetriesRepeatTheLastCommand | custom_components/govee_ble_air_purifier/custom_auto_policy.py:323-333 | in every run a retry sends the latest command again if it leads below the confirmed level, and otherwise follows the new reading |
| CustomAutoRetry.RetryIsSustained | custom_components/govee_ble_air_purifier/custom_auto_policy.py:323-333 | a retried target is warranted exactly if, from the reading that emitted the failed command on, every reading stayed on its side (at or below its level, or above the confirmed one), or the readings since then warrant it on their own |
| CustomAutoRetry.CommandsAreWarrantedExactly | custom_components/govee_ble_air_purifier/custom_auto_policy.py:279-406 | over runs with failures on a clock that does not run backwards, until a retry carries a contradicted dwell over: every target emitted against a known level is warranted exactly if it is no retry or the readings since the emission of the failed command sustain it |
| CustomAutoRetryRuns.FailedClimbDropsAtOnce | custom_components/govee_ble_air_purifier/custom_auto_policy.py:330-332 | a concrete run without contradicted dwells in which the reading after a failed upshift drops the fan from Medium to Sleep one second after a reading of the highest band |
| CustomAutoRetryRuns.RetryForgetsTheReadingInFlight | custom_components/govee_ble_air_purifier/custom_auto_policy.py:147-160 | a concrete run without contradicted dwells in which a failed downshift is repeated one second after a reading of the highest band, which the failure dropped |
| CustomAutoStaleDwell.StaleDwellFires | custom_components/govee_ble_air_purifier/custom_auto_policy.py:323-333 | a concrete run in which such a retry later lets a downshift fire that the readings contradict |
| CustomAutoTimers.TimersNeverInfluenceCommands | custom_components/govee_ble_air_purifier/custom_auto_policy.py:222-252 | timer firings inserted anywhere change no emitted target and only the sample-requested flags of the state |
| CustomAutoTimers.StepStrip | custom_components/govee_ble_air_purifier/custom_auto_policy.py:255-386 | no operation depends on the sample-requested flags |
| CustomAutoTimers.FiringMakesProgress | custom_components/govee_ble_air_purifier/custom_auto_policy.py:190-252 | a firing asks for a sample exactly at or after the next boundary, then fewer timers wait and every remaining boundary lies ahead; otherwise nothing changes |
| CustomAutoConvergence.SteadyAirSettles | custom_components/govee_ble_air_purifier/custom_auto_policy.py:309-406 | readings in one band, spaced by the largest delay and each command confirmed, settle that level after two readings, or three with a failed command outstanding, and no command follows |
| CustomAutoConvergence.ReachableStatesSettle | custom_components/govee_ble_air_purifier/custom_auto_policy.py:107-144 | the same from every reachable state with no command pending |
| CustomAutoDiaryRefinement.PolicyFollowsTheDiary | custom_components/govee_ble_air_purifier/custom_auto_policy.py:255-406 | over all runs, failures included, the policy with its timers, failure marker and deferred reading sends exactly the commands called for by a diary of all readings that keeps no timers: the two are one machine |
| CustomAutoPromptness.NotesAreReadings | custom_components/govee_ble_air_purifier/custom_auto_policy.py:255-306 | the notes of that diary are the readings the policy has accepted since the level was last set from outside |
| CustomAutoDiary.ClimbStartIsFirst | custom_components/govee_ble_air_purifier/custom_auto_policy.py:349-362 | the diary times a climb from the earliest weighed reading from which on all lie above the held level and none has sent a command |
| CustomAutoDiary.DescentStartIsFirst | custom_components/govee_ble_air_purifier/custom_auto_policy.py:364-386 | it times a descent to a level from the earliest weighed reading from which on none lies above the level and none has sent a command to it or below |
| CustomAutoPromptness.CommandsArePrompt | custom_components/govee_ble_air_purifier/custom_auto_policy.py:349-386 | the converse of soundness: in every run without a failed command a reading sends one exactly if the delay is over, upward to its own level once the configured seconds have passed since the first reading above the held level, downward to the lowest level that has sufficed for its own minutes by two readings |
| CustomAutoPromptness.ParkedCommandsArePrompt | custom_components/govee_ble_air_purifier/custom_auto_policy.py:129-144 | the same for the reading deferred behind a command, once that command is confirmed |
| CustomAutoPromptness.TimersMeetTheReadings | custom_components/govee_ble_air_purifier/custom_auto_policy.py:190-204 | in every run, at rest, the next boundary over all running timers is the earliest time at which one more reading in the present band sends a command |
| CustomAutoActor.StepKeepsActorInv | custom_components/govee_ble_air_purifier/custom_auto_controller.py:531-655 | after a step a command worker exists iff the policy has a pending target and carries it with the current token, and an unusable actor has no workers and a fresh policy, exactly unless the running command reports a cancellation the actor did not ask for |
| CustomAutoActor.AdoptKeeps | custom_components/govee_ble_air_purifier/custom_auto_controller.py:602-626 | carrying out a policy result links the workers to the new policy state |
| CustomAutoActor.ConfirmedKeeps | custom_components/govee_ble_air_purifier/custom_auto_controller.py:553-575 | confirmation, reconciliation of the deferred reading and firing of matured timers keep the invariant |
| CustomAutoRuns.ReachableActorsSatisfyInv | custom_components/govee_ble_air_purifier/custom_auto_controller.py:359-388 | the invariant over every run from a fresh actor whose completions the actor spawned, short of an outside cancellation of the command worker |
| CustomAutoRuns.StepKeepsBooks | custom_components/govee_ble_air_purifier/custom_auto_controller.py:628-655 | which events invalidate, and that only those move the activation generation and the barriers |
| CustomAutoRuns.LateCompletionsAreIgnored | custom_components/govee_ble_air_purifier/custom_auto_controller.py:531-545 | a completion spawned before an invalidation changes nothing after it |
| CustomAutoRuns.CurrentCommandMatches | custom_components/govee_ble_air_purifier/custom_auto_controller.py:546-579 | a completion of the current command finds its own target pending: confirmation is never refused and the mismatch branch never taken |
| CustomAutoRuns.OutsideCancellationStrands | custom_components/govee_ble_air_purifier/custom_auto_controller.py:543-545 | after any run from a fresh actor, an outside cancellation of the running command leaves its target pending with no worker, and over all later events that do not invalidate it stays so and no command worker is spawned |
| CustomAutoRuns.StrandingIsReachable | custom_components/govee_ble_air_purifier/custom_auto_controller.py:543-545 | such a cancellation is possible four events after the start: activation, connection, power and a first reading |
| CustomAutoRuns.ReadingsAreFresh | custom_components/govee_ble_air_purifier/custom_auto_controller.py:448-493 | the readings evaluated are exactly those of the current connection, no older than any invalidation and newer than every revision received on it |
| CustomAutoRuns.PolicyChangesOnlyBy | custom_components/govee_ble_air_purifier/custom_auto_controller.py:367-388 | the policy changes only by such a reading, by current work completing, or by invalidation |
| CustomAutoEngagement.FlagsFollowTheInputs | custom_components/govee_ble_air_purifier/custom_auto_controller.py:390-446 | in every run ownership, connection, power, a power-off in progress, the options and the end of the actor are scans of its inputs, and it may act exactly if they engage it |
| CustomAutoEngagement.RestingActorsStartNothing | custom_components/govee_ble_air_purifier/custom_auto_controller.py:448-493 | in every run, as long as the inputs do not engage the actor, it starts no worker |
| CustomAutoEngagement.ReleasedActorsStartNothing | custom_components/govee_ble_air_purifier/custom_auto_controller.py:397-401 | after a deactivation, an override, a shutdown or a physical change of the fan nothing is started until the next activation, whatever happens |
| CustomAutoEngagement.PoweringOffStartsNothing | custom_components/govee_ble_air_purifier/custom_auto_controller.py:402-410 | from the beginning of a power-off nothing is started until it has finished or the owner of the fan has changed |
| CustomAutoWorkers.StepKeepsTimer | custom_components/govee_ble_air_purifier/custom_auto_controller.py:602-626 | a step keeps a timer worker running exactly while the policy has a boundary, sleeping until that boundary, exactly unless the timer reports a cancellation the actor did not ask for |
| CustomAutoWorkers.TimersFollowTheBoundary | custom_components/govee_ble_air_purifier/custom_auto_controller.py:602-626 | so it does over every run without such a cancellation |
| CustomAutoWorkers.FreshStartsSample | custom_components/govee_ble_air_purifier/custom_auto_controller.py:628-673 | in every run an invalidating event leaves a newly started sample running exactly if the inputs then engage the actor |
| CustomAutoWorkers.DueTimersSample | custom_components/govee_ble_air_purifier/custom_auto_controller.py:538-552 | in every run a timer that ends at or after its boundary leaves a sample running, a new one unless one is still at work |
| CustomAutoCommands.PolicyIsPlayed | custom_components/govee_ble_air_purifier/custom_auto_controller.py:448-579 | over every run from a fresh actor its policy is the run of the policy operations played since the latest invalidation, from an unknown level and under the current options |
| CustomAutoCommands.SpawnedCommandsAreEmitted | custom_components/govee_ble_air_purifier/custom_auto_controller.py:602-626 | every command worker the actor ever spawns carries the target that the policy emits next after those operations |
| CustomAutoCommands.SentCommandsAreWarranted | custom_components/govee_ble_air_purifier/custom_auto_controller.py:448-579 | so in every run of the actor a command sent while none has failed since the latest invalidation is warranted by the readings evaluated since then |
| CustomAutoCommands.SentCommandsAreWarrantedExactly | custom_components/govee_ble_air_purifier/custom_auto_controller.py:448-579 | with failures, on a clock that does not run backwards and until a retry carries a contradicted dwell over, a sent command is warranted exactly if it is no retry or a sustained one |
| CustomAutoController.Controller.Handle | custom_components/govee_ble_air_purifier/custom_auto_controller.py:367-388 | handling one queued event updates the fields as one step of the actor |
| CustomAutoController.Controller.RunQueue | custom_components/govee_ble_air_purifier/custom_auto_controller.py:359-366 | the actor loop is the run of its queued events |
| CustomAutoController.Controller.HandleControl | custom_components/govee_ble_air_purifier/custom_auto_controller.py:390-421 | control events: activation, yielding, power-off, reconfiguration, shutdown |
| CustomAutoController.Controller.HandleConnection | custom_components/govee_ble_air_purifier/custom_auto_controller.py:423-439 | connection events |
| CustomAutoController.Controller.HandleAirQuality | custom_components/govee_ble_air_purifier/custom_auto_controller.py:448-493 | the freshness checks and the policy evaluation of a reading |
| CustomAutoController.Controller.HandleFanMode | custom_components/govee_ble_air_purifier/custom_auto_controller.py:495-529 | physical fan changes take ownership away |
| CustomAutoController.Controller.HandleWorkDone | custom_components/govee_ble_air_purifier/custom_auto_controller.py:531-579 | completions of sample, timer and command workers |
| CustomAutoController.Controller.ApplyPolicyResult | custom_components/govee_ble_air_purifier/custom_auto_controller.py:602-626 | adoption of a policy result |
| CustomAutoController.Controller.InvalidateOperational | custom_components/govee_ble_air_purifier/custom_auto_controller.py:628-655 | invalidation: new activation, raised barriers, no workers, fresh policy |
| CommandTheorems.EveryCommandHasOnePlace | custom_components/govee_ble_air_purifier/operations.py:260-273 | in every run from an idle client an unsettled operation of a client that is not stopping is either active or waits, exactly once; the queue ascends by issue and lies behind the active operation |
| CommandTheorems.AtMostTwoPerType | custom_components/govee_ble_air_purifier/operations.py:674-686 | in every run from an idle client never three unsettled commands of one type |
| CommandTheorems.SettledOnce | custom_components/govee_ble_air_purifier/operations.py:564-579 | a settled operation keeps its outcome over every run |
| CommandTheorems.SendsStayWithinBudget | custom_components/govee_ble_air_purifier/operations.py:294-355 | the attempts count the sends across all reconnects and never exceed the budget |
| CommandTheorems.SendsFollowTheOrderOfIssue | custom_components/govee_ble_air_purifier/operations.py:497-515 | frames go out in order of issue, however often commands are requeued |
| CommandTheorems.NothingOvertakes | custom_components/govee_ble_air_purifier/operations.py:260-267 | over every run an operation that has left the line never returns into it, so nothing overtakes what waits |
| CommandTheorems.AbandonedCommandsSettle | custom_components/govee_ble_air_purifier/operations.py:537-562 | a command its caller gives up is settled |
| CommandTheorems.ShutDownCommandsSettle | custom_components/govee_ble_air_purifier/operations.py:597-612 | after shutdown no command is left unsettled |
| CommandTheorems.QuarantineStep | custom_components/govee_ble_air_purifier/operations.py:443-458 | cancelling a sent active fan command starts the quarantine of its echo; sending the mode again or forgetting the connection ends it; nothing else changes it |
| CommandTheorems.QuarantineIsStanding | custom_components/govee_ble_air_purifier/operations.py:537-552 | over every run the echo is quarantined precisely while such a cancellation stands |
| CommandTheorems.CancelledEchoesAreSwallowed | custom_components/govee_ble_air_purifier/operations.py:421-436 | meanwhile every exact echo is consumed, and consuming does not end it |
| CommandTheorems.OtherTemplatesSwallowNothing | custom_components/govee_ble_air_purifier/operations.py:425-426 | frames of the 33 05 template are never consumed |
| EchoReservation.ReservationStep | custom_components/govee_ble_air_purifier/operations.py:363-436 | a physical frame beside a sent fan command reserves its acknowledgement; that acknowledgement, a correlation, a forced send of the mode or a forgotten connection uses the reservation up; nothing else changes it |
| EchoReservation.ReservationIsStanding | custom_components/govee_ble_air_purifier/operations.py:391-441 | over every run an acknowledgement is reserved exactly while such a reservation stands |
| EchoReservation.EchoesAreSwallowedExactly | custom_components/govee_ble_air_purifier/operations.py:421-436 | over every run an acknowledgement is swallowed exactly if a cancellation or a reservation of its mode stands |
| CommandOutcomes.StepHasCause | custom_components/govee_ble_air_purifier/operations.py:294-361 | whatever happens, an unsettled command ends exactly as the event causes: done by its answer after a send or by the state it asks for before one, too late by its deadline or budget, superseded by a newer command of its type or by a physical change, cancelled by its caller, stopped by the end of a shutdown |
| CommandOutcomes.OutcomesHaveCauses | custom_components/govee_ble_air_purifier/operations.py:294-361 | in every run from an idle client a command has an outcome exactly if some event caused it while the command was unsettled |
| CommandOutcomes.SilentCommandsUseTheirBudget | custom_components/govee_ble_air_purifier/client.py:869-892 | a command that is never answered is sent again on the same connection until its budget is spent, then returns to the head of the line |
| CommandOutcomes.EndedCommandsAreReleased | custom_components/govee_ble_air_purifier/client.py:747-762 | an event that ends the active command lets the client go on |
| CommandOutcomes.SettledCommandsAreLeft | custom_components/govee_ble_air_purifier/client.py:846-862 | in every run a client whose active command was settled behind its back leaves it at its own next step |
| CommandQuiescence.CommandsComeToRest | custom_components/govee_ble_air_purifier/operations.py:269-273 | in every run a command that is neither active nor waiting has been marked as at rest, so that nobody waits for it in vain |
| CommandTheorems.Run | custom_components/govee_ble_air_purifier/client.py:747-762 | every client reachable from one that satisfies the invariant satisfies it |
| CommandMeaning.EnqueueSupersedes | custom_components/govee_ble_air_purifier/operations.py:231-258 | a new command supersedes exactly the pending commands of its type, waits last, and takes the confirmation duty of its mode over |
| CommandMeaning.TakesTheOldestLive | custom_components/govee_ble_air_purifier/operations.py:260-267 | exactly the expired commands fail and the oldest of the rest becomes active |
| CommandMeaning.EverySendIsChecked | custom_components/govee_ble_air_purifier/operations.py:322-342 | in every run each send uses up a clearance of its own for that very command, given before its deadline, and stays within the budget |
| CommandMeaning.InterruptedCommandsComeNext | custom_components/govee_ble_air_purifier/operations.py:497-515 | no interrupted command is lost: after a broken connection or an unanswered last send, whatever happens in between, the next command an idle client takes is this one, unless it was settled meanwhile or its time is over |
| CommandMeaning.PhysicalChangesTakeOver | custom_components/govee_ble_air_purifier/operations.py:363-407 | a physical change supersedes the sent fan command, reserves its echo and hands the confirmation duty to every pending command of the mode, else to the next one |
| CommandMeaning.ForcedCommandsAreSent | custom_components/govee_ble_air_purifier/operations.py:311-312 | in every run from an idle client a command with that duty is never done without having been sent |
| CommandRuns.StepKeepsInv | custom_components/govee_ble_air_purifier/client.py:788-916 | each step of execution, retry, requeue, cancellation and shutdown keeps order, place, pairing, budget and echo bounds |
| CommandRuns.StepMoves | custom_components/govee_ble_air_purifier/client.py:788-916 | a step keeps commands and deadlines, settles at most once, and counts a send exactly for the operation it puts on the air |
| CommandInvariant.SiftEffect | custom_components/govee_ble_air_purifier/operations.py:517-535 | expiry and superseding keep exactly the operations they should, in order, and settle the rest |
| CommandInvariant.RequeueKeeps | custom_components/govee_ble_air_purifier/operations.py:497-515 | an operation requeued as it is released stays at the head of the line |
| EchoQuarantine.AtMostSix | custom_components/govee_ble_air_purifier/operations.py:214-219 | at most six stale echoes exist, so the eight slots never drop a live one |
| EchoQuarantine.FramesTellModesApart | custom_components/govee_ble_air_purifier/protocol/codec.py:109-134 | two fan modes have the same frame only if they are the same |
| OperationsController.CommandOperationController.Enqueue | custom_components/govee_ble_air_purifier/operations.py:231-258 | queueing supersedes pending commands of the type and carries the confirmation duty over |
| OperationsController.CommandOperationController.TakeNext | custom_components/govee_ble_air_purifier/operations.py:260-267 | expires stale commands and activates the next |
| OperationsController.CommandOperationController.PrepareForExecution | custom_components/govee_ble_air_purifier/operations.py:294-320 | completion, expiry, reconciliation and budget before execution |
| OperationsController.CommandOperationController.PrepareForSend | custom_components/govee_ble_air_purifier/operations.py:322-342 | cancellation, budget and expiry before each send |
| OperationsController.CommandOperationController.RecordSend | custom_components/govee_ble_air_purifier/operations.py:443-485 | a send takes over its echoes and spends an attempt |
| OperationsController.CommandOperationController.RequeueForReconciliation | custom_components/govee_ble_air_purifier/operations.py:497-515 | an ambiguous command returns to the head of the queue unless settled or expired |
| OperationsController.CommandOperationController.DiscardExpired | custom_components/govee_ble_air_purifier/operations.py:517-535 | the loop that fails expired commands |
| OperationsController.CommandOperationController.CoalescePending | custom_components/govee_ble_air_purifier/operations.py:674-686 | the loop that supersedes pending commands of one type |
| OperationsController.CommandOperationController.Cancel | custom_components/govee_ble_air_purifier/operations.py:537-562 | cancellation settles, dequeues and quarantines |
| OperationsController.CommandOperationController.SupersedeActiveFanByPhysical | custom_components/govee_ble_air_purifier/operations.py:363-390 | a physical change supersedes the sent fan command and hands its confirmation duty on |
| OperationsController.CommandOperationController.ConsumeSupersededFanEcho | custom_components/govee_ble_air_purifier/operations.py:421-436 | whether a frame is swallowed, and what that uses up |
| OperationsController.CommandOperationController.FailForShutdown | custom_components/govee_ble_air_purifier/operations.py:597-612 | the captured and all queued commands fail |
| RegistryGateSafety.OpenGateIsSafe | custom_components/govee_ble_air_purifier/coordinator.py:644-748 | in every interleaving an open gate means allowed, not terminally blocked, and some cleanup that captured its generation at or after the latest block has succeeded |
| RegistryGateSafety.ThreeAttemptsPerGeneration | custom_components/govee_ble_air_purifier/coordinator.py:708-748 | a cleanup loop attempts a generation at most three times |
| RegistryGateSafety.NoBlockIsForgotten | custom_components/govee_ble_air_purifier/coordinator.py:766-797 | a required cleanup is always pursued by a loop or a terminal disable, or has used up its attempts |
| RegistryGateSafety.StepKeepsCleanUnless | custom_components/govee_ble_air_purifier/coordinator.py:766-797 | a step lets an open gate coexist with a required cleanup exactly if it observes the failure of the owned task while the gate is open |
| RegistryGateSafety.OpenGateIsClean | custom_components/govee_ble_air_purifier/coordinator.py:191-192 | without a startup cleanup beside it an open gate also means that no cleanup is required |
| RegistryGateSafety.LateFailureLeavesTheGateOpen | custom_components/govee_ble_air_purifier/coordinator.py:776-784 | a concrete interleaving of the startup loop and the owned task in which it does not |
| RegistryGateSafety.StepIsSafe | custom_components/govee_ble_air_purifier/coordinator.py:644-748 | one event keeps gate safety against the ledger of blocks and successful cleanups |
| RegistryGateProgress.GateReopens | custom_components/govee_ble_air_purifier/coordinator.py:651-656 | in every interleaving, once no cleanup task exists, a gate that is allowed, not terminally blocked, requires no cleanup and is not shut down is open |
| RegistryGateProgress.SuccessOpensTheGate | custom_components/govee_ble_air_purifier/coordinator.py:731-744 | the success of a cleanup that captured the current generation opens an allowed gate at once |
| RegistryGateProgress.GivingUpTakesThreeAttempts | custom_components/govee_ble_air_purifier/coordinator.py:712-724 | in every interleaving a loop that gives up has attempted its generation exactly three times |
| RegistryGateProgress.FailuresAreRetried | custom_components/govee_ble_air_purifier/coordinator.py:712-730 | in every interleaving a failed attempt is repeated until the third; then the loop gives up, or turns to a newer generation |
| RegistryGateProgress.RegistryEventsOutdateAttempts | custom_components/govee_ble_air_purifier/coordinator.py:649-650 | in every interleaving a registry event while cleanup is required outdates the attempts already running: their success still leaves cleanup required and opens nothing |
| RegistryGateCoordinator.Coordinator.SetRegistryAllowed | custom_components/govee_ble_air_purifier/coordinator.py:644-665 | the registry event as one step |
| RegistryGateCoordinator.Coordinator.DisableAndClear | custom_components/govee_ble_air_purifier/coordinator.py:676-682 | the synchronous part of a terminal disable |
| RegistryGateCoordinator.Coordinator.TerminalCleanupSettled | custom_components/govee_ble_air_purifier/coordinator.py:676-706 | the end of the terminal cleanup: success, failure, or a cancellation of its caller held back until then |
| RegistryGateCoordinator.Coordinator.LoopHead | custom_components/govee_ble_air_purifier/coordinator.py:710-744 | capture of a generation, or the tail of the loop |
| RegistryGateCoordinator.Coordinator.AttemptFinished | custom_components/govee_ble_air_purifier/coordinator.py:712-737 | what follows a cleanup transaction |
| RegistryGateCoordinator.Coordinator.Woken | custom_components/govee_ble_air_purifier/coordinator.py:725-730 | what follows a backoff |
| RegistryGateCoordinator.Coordinator.CleanupDone | custom_components/govee_ble_air_purifier/coordinator.py:766-797 | the completion callback of the owned task |
| RecoveryRefinement.BoundedWindowsRefineTheLog | custom_components/govee_ble_air_purifier/recovery.py:151-164 | for every validated profile, over all runs on a monotonic clock, the floor from the 32-slot windows equals the floor of the full log if and only if no failure is ever recorded, or there is no floor, or the wake threshold is at most 32 and the failure threshold is below 32 (or is 32 with equal floors) |
| RecoveryRefinement.FloorFollowsTheStorm | custom_components/govee_ble_air_purifier/recovery.py:151-164 | where the windows suffice, the floor is the initial one exactly at the failure threshold, the largest above it, and none below it or without enough wakes, counted in the full log |
| RecoveryRefinement.FailuresNeverLowerTheFloor | custom_components/govee_ble_air_purifier/recovery.py:151-164 | one more failure short of a stable session never lowers the floor |
| RecoveryRefinement.WindowsCountTheLog | custom_components/govee_ble_air_purifier/recovery.py:250-258 | after a trim a window holds as many times as the log has in the window, capped at 32 |
| RecoveryRefinement.BackoffIsCappedExponential | custom_components/govee_ble_air_purifier/recovery.py:202-218 | the requested backoff is min(max, initial * 2^k) for k completed waits since the last reset |
| RecoveryRefinement.PlannedDelays | custom_components/govee_ble_air_purifier/recovery.py:166-200 | where the windows suffice, a plan is refused exactly for a jitter out of range; otherwise the capped exponential of the completed waits, cut short by a recent advertisement, is multiplied by the jitter and raised to the floor of the full log |
| Recovery.RecoveryController.TrimToWindow | custom_components/govee_ble_air_purifier/recovery.py:250-258 | the two trimming loops |
| Recovery.RecoveryController.RecordFailure | custom_components/govee_ble_air_purifier/recovery.py:113-131 | a stable session resets, any other failure is recorded |
| Recovery.RecoveryController.FloorAt | custom_components/govee_ble_air_purifier/recovery.py:151-164 | the circuit floor |
| Recovery.RecoveryController.PlanBackoff | custom_components/govee_ble_air_purifier/recovery.py:166-200 | the planned delay |
| Recovery.RecoveryController.CompleteBackoff | custom_components/govee_ble_air_purifier/recovery.py:202-218 | a completed wait |
| Frame.BuiltFramesValidate | custom_components/govee_ble_air_purifier/frame.py:31-40 | a built frame validates and carries its content, padded with zeros |
| Frame.ValidFramesAreBuilt | custom_components/govee_ble_air_purifier/frame.py:43-56 | valid frames are exactly the frames built from nineteen bytes |
| Frame.FramesCancelOut | custom_components/govee_ble_air_purifier/frame.py:25-56 | a frame is valid exactly if it has twenty octets whose exclusive-or is zero |
| Frame.SingleByteChangesAreDetected | custom_components/govee_ble_air_purifier/frame.py:25-56 | changing any single byte of a valid frame fails the checksum |
| Crypto.ScheduleKeepsPermutation | custom_components/govee_ble_air_purifier/crypto.py:36-41 | the RC4 state stays a permutation of 0..255 through key scheduling |
| Crypto.KeystreamKeepsPermutation | custom_components/govee_ble_air_purifier/crypto.py:43-50 | and through generation |
| Crypto.ScheduleCursorIsASum | custom_components/govee_ble_air_purifier/crypto.py:36-41 | the second cursor of key scheduling is the running sum of the state and key bytes read |
| Crypto.ScheduleRounds | custom_components/govee_ble_air_purifier/crypto.py:36-41 | each of its rounds exchanges the values at its number and at that sum, from the identity on |
| Crypto.OutputRounds | custom_components/govee_ble_air_purifier/crypto.py:43-50 | each round of output exchanges the values at its number and at the running sum of the values read, and yields the value at the sum of the two |
| Crypto.Rc4Keystream | custom_components/govee_ble_air_purifier/crypto.py:30-50 | the in-place algorithm computes the specified keystream, with its two error cases |
| Crypto.DecryptInvertsEncrypt | custom_components/govee_ble_air_purifier/crypto.py:78-104 | under an invertible block cipher encryption and decryption are inverse to each other on valid frames |
| Crypto.SessionKeysComeFromStepOne | custom_components/govee_ble_air_purifier/crypto.py:107-128 | which negotiation frames are built and which yield a session key |
| Protocol.EncodedFramesAreFrames | custom_components/govee_ble_air_purifier/protocol/codec.py:47-95 | a command is refused only for its content; an accepted one becomes a valid frame carrying that content |
| Protocol.FanFrameBytes | custom_components/govee_ble_air_purifier/protocol/codec.py:109-134 | the bytes of an encoded fan frame |
| WireMeaning.PowerCommands | custom_components/govee_ble_air_purifier/protocol/codec.py:62-66 | the power command carries its value in octet 2, where a report of the power has it and the response rule looks for it |
| WireMeaning.LightPowerCommands | custom_components/govee_ble_air_purifier/protocol/codec.py:74-78 | the light power command carries its value in octet 4; a report has it in octet 3, where the response rule looks for it |
| WireMeaning.BrightnessCommands | custom_components/govee_ble_air_purifier/protocol/codec.py:79-87 | brightness is refused outside 1 to 100, and otherwise carried in octet 4, as in a report |
| WireMeaning.ColorCommands | custom_components/govee_ble_air_purifier/protocol/codec.py:88-95 | a colour command carries red, green and blue in the octets in which a report has them |
| WireMeaning.FanCommands | custom_components/govee_ble_air_purifier/protocol/codec.py:109-134 | a fan command and the report of its mode carry the same code, level and parameter, with the codes of the wire |
| WireMeaning.AirQualityReports | custom_components/govee_ble_air_purifier/protocol/codec.py:211-222 | a PM2.5 value up to 999 is read back from its two octets, the more significant first; filter life is octet 7 |
| WireMeaning.StartupAnswers | custom_components/govee_ble_air_purifier/protocol/codec.py:170-179 | which octets of the startup answers are the code, the level and the parameter |
| WireMeaning.OneAnswerRestoresTheMode | custom_components/govee_ble_air_purifier/state_reducer.py:233-251 | on models with a single startup answer, the answer that encodes a mode sets that mode |
| WireMeaning.TwoAnswersRestoreTheMode | custom_components/govee_ble_air_purifier/state_reducer.py:205-269 | on models with a pair, the first answer sets any other mode and leaves a manual one unknown, which the second sets |
| WireMeaning.StateIsTheLatestReport | custom_components/govee_ble_air_purifier/state_reducer.py:61-120 | after any history every attribute other than the fan mode is the one the device last reported |
| ResponseMatcher.Matcher.Offer | custom_components/govee_ble_air_purifier/protocol/matcher.py:33-79 | feeding a frame to the matcher object |
| ResponseMatcher.Matcher.OfferFragment | custom_components/govee_ble_air_purifier/protocol/matcher.py:81-98 | feeding one fragment |
| ResponseMatcher.MultipartIsSubsequenceMatching | custom_components/govee_ble_air_purifier/protocol/matcher.py:33-98 | a multipart matcher completes iff its fragment list is a subsequence of the ab-frame indices of the stream, and reports completion once |
| ResponseMatcher.CollectsThePrefix | custom_components/govee_ble_air_purifier/protocol/matcher.py:81-98 | the collected frames spell the accepted prefix, in stream order |
| ResponseMatcher.AcceptsGreedily | custom_components/govee_ble_air_purifier/protocol/matcher.py:81-98 | no stream carries more of the list than the matcher has accepted |
| ResponseMatcher.CompletesOnce | custom_components/govee_ble_air_purifier/protocol/matcher.py:38-39 | any request completes at most once |
| ResponseRules.ZeroPayloadRule | custom_components/govee_ble_air_purifier/protocol/matcher.py:55-56 | a zero-payload rule accepts exactly its alternatives and the frame built from its prefix alone |
| ResponseRules.ValueByteRule | custom_components/govee_ble_air_purifier/protocol/matcher.py:49-54 | a value-byte rule accepts exactly its alternatives and the frames built from its prefix and one allowed value |
| ResponseRules.PrefixRules | custom_components/govee_ble_air_purifier/protocol/matcher.py:57-64 | a prefix rule, with or without a selector, looks at the first octets only |
| ResponseRules.MetadataRule | custom_components/govee_ble_air_purifier/protocol/matcher.py:65-67 | the metadata rule looks for its marker anywhere between the prefix and the checksum |
| Confirmation.CompletionSatisfiesCommand | custom_components/govee_ble_air_purifier/protocol/requests.py:66-119 | if a frame completes a power, fan, night-light power or brightness command, reducing it and applying the acknowledgement satisfies the command |
| Confirmation.FanCompletion | custom_components/govee_ble_air_purifier/protocol/service.py:67-77 | SetFanMode completes exactly on its own echo and on fan reports that decode to the mode |
| Confirmation.FanReportsConfirmThemselves | custom_components/govee_ble_air_purifier/state_reducer.py:81-85 | a fan report completes SetFanMode(m) iff reducing it alone leaves mode m; the echo alone changes nothing |
| Confirmation.UnreadableCommandsChangeNothing | custom_components/govee_ble_air_purifier/protocol/codec.py:147-148 | on models without a light a completing light frame leaves the state as it was |
| Confirmation.OtherFramesLeaveTheMatcherFresh | custom_components/govee_ble_air_purifier/protocol/matcher.py:75-76 | frames that do not complete a request leave its matcher fresh |
| StateReducer.PurifierStateReducer.ReduceEvent | custom_components/govee_ble_air_purifier/state_reducer.py:61-120 | reduction of one decoded event |
| StateReducer.PurifierStateReducer.ApplyStartupFanMode | custom_components/govee_ble_air_purifier/state_reducer.py:185-269 | the startup fan-mode branch |
| StateReducer.PurifierStateReducer.ApplyConfirmedCommand | custom_components/govee_ble_air_purifier/state_reducer.py:122-138 | the acknowledgement step |
| StateReducer.PurifierStateReducer.InvalidateConnection | custom_components/govee_ble_air_purifier/state_reducer.py:157-166 | invalidation forgets the fan mode and the open pair, not the generation |
| StartupMode.ModeIsTheLastVerdict | custom_components/govee_ble_air_purifier/state_reducer.py:61-166 | after any history the fan mode is the verdict of the last deciding input, or unknown |
| StartupMode.AwaitingIsAnOpenPair | custom_components/govee_ble_air_purifier/state_reducer.py:205-257 | the awaiting flag holds iff a manual selector 00 answer is still open |
| StartupMode.GenerationIsBound | custom_components/govee_ble_air_purifier/state_reducer.py:200-237 | the stored generation is that of the last input carrying fan-mode information |
| StartupMode.LevelsCompleteTheirPair | custom_components/govee_ble_air_purifier/client.py:528-544 | when every generation change is preceded by an invalidation, a selector 01 answer decides iff its last predecessor in the conversation is a manual selector 00 answer |
| StartupMode.RebindingCompletesAnOldPair | custom_components/govee_ble_air_purifier/state_reducer.py:200-217 | without that discipline a selector 03 answer rebinds an open pair |
| Ownership.ClaimsAreExclusive | custom_components/govee_ble_air_purifier/bluetooth/ownership.py:52-62 | in every run a claim succeeds iff every earlier owner of the normalized address has requested release, owes no cleanup and has no tracked task running |
| Ownership.StaleTokensAreInert | custom_components/govee_ble_air_purifier/bluetooth/ownership.py:205-237 | a token that is no longer current never becomes current and changes nothing |
| Ownership.RunKeepsInv | custom_components/govee_ble_air_purifier/bluetooth/ownership.py:155-177 | every token issued is current, with a record that agrees with its past, or at rest |
| Ownership.AddressesAgree | custom_components/govee_ble_air_purifier/bluetooth/ownership.py:48-50 | two addresses are one exactly if, apart from outer blanks, they agree up to the case of their letters |
| Ownership.NormalFormsStay | custom_components/govee_ble_air_purifier/bluetooth/ownership.py:48-50 | a normalized address is its own normal form |
| Ownership.AddressOwnershipRegistry.TryClaim | custom_components/govee_ble_air_purifier/bluetooth/ownership.py:52-62 | claiming an address |
| Ownership.AddressOwnershipRegistry.MarkState | custom_components/govee_ble_air_purifier/bluetooth/ownership.py:77-91 | marking cancellation or late cleanup |
| Ownership.AddressOwnershipRegistry.TrackTask | custom_components/govee_ble_air_purifier/bluetooth/ownership.py:155-163 | tracking a task |
| Ownership.AddressOwnershipRegistry.RequestReleaseOf | custom_components/govee_ble_air_purifier/bluetooth/ownership.py:165-170 | requesting release |
| Ownership.AddressOwnershipRegistry.FinishCleanupOf | custom_components/govee_ble_air_purifier/bluetooth/ownership.py:172-177 | finishing cleanup |
| Ownership.AddressOwnershipRegistry.OnTaskDone | custom_components/govee_ble_air_purifier/bluetooth/ownership.py:215-237 | the done callback of a tracked task |
| L2cap.Reassemble | scripts/extract_air_purifier_trace.py:136-179 | the extractor loop computes the fold of single-record reception |
| L2capInverse.ReassemblyInvertsFragmentation | scripts/extract_air_purifier_trace.py:136-179 | for any interleaving of fragmented units and unrelated records, reassembly returns exactly the units with their fragment indices in order of completion, and holds exactly the unfinished ones |
| L2capInverse.ReceiveFollowsSending | scripts/extract_air_purifier_trace.py:141-178 | one record mirrors one sending |
| L2capInverse.FramedRecord | scripts/extract_air_purifier_trace.py:144-148 | the header fields survive packing, trailing bytes and the broadcast flag |

## Left out

- Operation records are values in a table, not heap objects; aliasing of a record held by
  a caller is modelled by its index.
- The controller accepts a command that the profile cannot encode, and `command_request`
  then raises inside it; the lifecycle model takes only commands that encode.
- The actor's `auto_redirect_state`, `command_state`, provenance and last error, which
  only feed snapshots.
- Diagnostics of every component (snapshots, counters, summaries, rounding, the last
  error), the event objects that wake waiting tasks, and `has_pending`.
- `AirQualityQueryController`, the refresh sweep and its preemption, initialization and
  the ready loop's polling: they would add easier members of the same kind as the
  command queue.
- Query commands and raw commands, and the request catalog: their response rules compare
  a fixed prefix or frame.
- `replace_state` of the reducer, and the startup evidence it keeps for diagnostics.
- Session negotiation, GATT transport, scanning and reconnection: foreign calls.
- The AES block cipher is any cipher whose block maps are inverse to each other.
- Profile parsing: its validated bounds appear as subset types and preconditions.
- Arguments of a wrong type, NaN and infinite times: excluded by typing.
- The identity of a token object: a token is its address and serial, which a registry
  never issues twice; forging one is not modelled.
- Address normalization covers ASCII letters and blanks, not the whole of Unicode.
- Home Assistant entities, configuration flows, translations and logging.
- Shutdown of the client is two steps, the interruption of the runner and the failing of
  what is left; cancellation by a caller during the interruption itself is not modelled.
