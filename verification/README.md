# Device agent command protocol: a Dafny model

The device agent receives commands from Cloud over a stream that drops and reconnects, runs each one
against Container Maker, and tells Cloud the result. Deliveries repeat, connections break, and the
process can be stopped at any point; the journal is the only state that survives. This project models
that protocol as a step system, ties the agent's objects to it, and proves what every run keeps.

`dafny verify dfyconfig.toml` checks everything.

## What is modelled

`Protocol.dfy` holds the step system. A `State` is the journal (durable), the pending resend ids, the
connection, the place of the serial dispatch loop and the placement cache (all lost when the process
stops), and a log of what has happened. A `Step` is one atomic thing: a journal write, a message on the
wire, one attempt of a remote call, a lost link, `Interrupt`. Steps carry everything the agent does not
decide, so a run is any list of steps that is `Legal`.

| file | models |
|---|---|
| `Retry.dfy`, `Clients.dfy` | bounded retry and the remote calls reduced to their attempts |
| `SaveExecution.dfy`, `Handlers.dfy` | confirmed save under a deadline, Save and Hibernate |
| `Journal.dfy`, `Placement.dfy` | the journal table and the placement cache, as objects and as functions |
| `Protocol.dfy` | the step system |
| `Invariants.dfy`, `Counting.dfy`, `Agreement.dfy`, `Delivery.dfy`, `CacheAgreement.dfy`, `Progress.dfy`, `EndToEnd.dfy` | what all runs keep |
| `Witnesses.dfy` | concrete runs that show the limits |
| `Agent.dfy` | the executor and the connection manager, each write checked against a step as it is made |
| `NameSuffix.dfy`, `Reconnect.dfy` | the container-name clean-up and the reconnect loop |

The main results are `EndToEnd.CloudHasTheOneOutcome` and `EndToEnd.OneSessionDeliversEverything`, on top of
`Invariants.RunRefines`, `Counting.EffectsBoundedByInterruptions`, `Counting.ExactlyOneOutcome`,
`Agreement.SpokenThroughoutExactly`, `Delivery.DeliveredThroughoutExactly`, `Delivery.ReportedIsDelivered`,
`Progress.HandlingFinishes` and `Progress.HandlingTells`.

### Hypotheses, and what happens without them

- *A raising report takes nothing back.* `report_result` lets exceptions other than HTTP errors through, and
  `execute` then journals a failure over the result. Runs on which this does not happen are called `Clean`:
  `Counting.ExactlyOneOutcome` shows that one verdict per command holds on exactly those. What is *said*
  about a command agrees on more runs: `Agreement.SpokenThroughoutExactly` shows that it does on exactly the
  `Agreeable` ones, where such an exception meets a result that nobody was told or queued yet, or that
  reads the same. `Progress.HandlingKeepsSpokenExactly` and `Progress.CloudHearsOneOutcomeExactly` say it for one
  handling. `Witnesses.RaisingReportContradictsItself` is a run that is not agreeable,
  `Witnesses.RaisedBeforePostingAgrees` one that is, without being clean.
- *Redeliveries of a command carry the same generation.* Needed only for the generation field:
  `Progress.GenerationAgreesExactly` gives the exact condition, `Witnesses.ChangedGenerationDisagrees` a
  run that breaks it.
- *A HelloAccepted is handled after Cloud has the whole batch*, if anything is pending. The source takes
  HelloAccepted as proof of this, but it answers the Hello, which is sent before the batch, and the pending
  ids of an earlier connection are not cleared. `Delivery.HelloKeepsDeliveryExactly` gives the exact condition
  for one HelloAccepted and `Delivery.DeliveredThroughoutExactly` for a run;
  `Witnesses.EarlyHelloLosesResult` and `Witnesses.StalePendingLosesResult` are two ways it fails. The order
  alone is not enough either: `Witnesses.OverwrittenResultIsNotDelivered` marks a failure that was journaled
  over the success that Cloud got.
- *UNAVAILABLE means that Container Maker did not process the request*, and a connect error that Cloud
  did not. Every other failure counts as one that may have been processed.
- Journal writes are atomic and do not fail.

### Where the source's comments and its code differ

The code is followed. The comment in `_finish` (`device_agent/commands/executor.py:97-110`) says that the
report only queues a stream message and that nothing is marked before a HelloAccepted; since
`device_agent/main.py:71-81` the report is an HTTP request, and a confirmed one marks the row at once. The
defensive acceptance in `execute` (`device_agent/commands/executor.py:52-58`) is proved to have nothing to do
for a command that came through `_handle_inbound`.

## Model

| member | source | states |
|---|---|---|
| Retry.CallWithRetry | device_agent/clients/retry.py:14-33 | the loop stops at the first attempt that succeeds, is not retryable or is the last allowed, and answers with that attempt; it sleeps the capped, jittered delay between attempts and nowhere else |
| Retry.VerdictExactly | device_agent/clients/retry.py:21-32 | a value, or an error, is the answer if and only if it is that of an attempt before which every attempt failed retryably within the budget |
| Retry.DelaysDouble | device_agent/clients/retry.py:31 | the delay is the base delay first, then twice the one before, and never more than the cap |
| Retry.SleepsWithinJitter | device_agent/clients/retry.py:32 | each sleep is between half and one and a half of its delay |
| Retry.ReachesAtMostOnce | device_agent/clients/container_maker_client.py:33-38 | if retryable failures never reach the other side, a whole retried call reaches it at most once |
| Retry.TotalSleepBound | device_agent/clients/retry.py:31-32 | n attempts sleep in all at most 1.5 times (n-1) times the cap, and at most 1.5 times base times (2^(n-1) - 1) |
| Clients.CallContainerMaker | device_agent/clients/container_maker_client.py:33-116 | a call goes on after an attempt if and only if that was UNAVAILABLE and one of the first two; it answers with its last attempt, gRPC errors become client errors, other exceptions escape; Container Maker has processed it once, or not at all if the last attempt was UNAVAILABLE; delays of 0.5 seconds up to 5 |
| Clients.ConsumeTerminalTicket | device_agent/clients/cloud_client.py:42-113 | a ticket is submitted again if and only if the connection failed and it was one of the first two attempts, so it reaches Cloud at most once; consumed exactly by a 200 |
| Clients.TransportRetryWouldResubmit | device_agent/clients/cloud_client.py:42-51 | with the other classifier the same ticket would reach Cloud twice |
| Clients.ReportCommandResult | device_agent/clients/cloud_client.py:34-186 | a result is posted again if and only if the transport failed and it was one of the first four attempts; confirmed exactly by a final 200; only exceptions that are not HTTP errors escape, with their own text; which POSTs reached Cloud |
| NameSuffix.StripInvertsTimestamp | device_agent/commands/_util.py:20-25 | removing the suffix undoes `<name>-pod-<digits>` for every name |
| NameSuffix.StripInvertsKind | device_agent/commands/_util.py:26-27 | and `<name>-pod`, `<name>-service`, `<name>-ingress` |
| NameSuffix.StripIsPrefix | device_agent/commands/_util.py:20-28 | the cleaned name is a prefix of the input, for every input |
| NameSuffix.StripLeavesAloneExactly | device_agent/commands/_util.py:24-28 | a name is left alone if and only if its last part is neither a kind nor an all-digit part with another before it |
| NameSuffix.StripIdempotentExactly | device_agent/commands/_util.py:20-28 | cleaning twice is cleaning once if and only if the parts kept of the name do not end in a suffix again |
| NameSuffix.StripIsNotIdempotent | device_agent/commands/_util.py:24-25 | cleaning a numbered name twice loses it |
| Reconnect.RunForever | device_agent/control/grpc_client.py:111-127 | each delay is the schedule's for the number of sessions since the last clean one; it ends only when stopped |
| Reconnect.ScheduleAlongStreak | device_agent/control/backoff.py:11-20 | along a streak of failures the base delay never decreases, reaches 30 seconds at the fifth and stays; after a clean session it is one second |
| Reconnect.JitterOrderExactly | device_agent/control/backoff.py:18-20 | jittered delays increase strictly up to the cap if and only if the jitter fraction is below 7/23 |
| Reconnect.ClimbsStrictlyExactly | device_agent/control/grpc_client.py:111-127 | over every process lifetime the delays slept along a streak of failures increase strictly up to the cap if and only if the fraction is below 7/23 |
| Reconnect.DefaultJitter | device_agent/config.py:28-29 | the default 0.2 is below it, and keeps the capped delay within 24 to 36 seconds |
| SaveExecution.PerformSave | device_agent/commands/save_execution.py:45-105 | one trigger; then polls until an answer is "Succeeded" with an image or "Failed", or the clock is the timeout past its first reading, and no longer; the outcome is that answer's; whatever the answers, at most ceil(timeout/interval) + 1 polls |
| SaveExecution.SaveVerdictExactly | device_agent/commands/save_execution.py:77-104 | success, failure and timeout are exactly: the first decisive reply before the deadline confirms, denies, or does not exist; they exclude each other |
| SaveExecution.ConfirmationInTimeCounts | device_agent/commands/save_execution.py:86-99 | a confirmation that comes while no earlier answer has decided and the clock is short of the timeout is what the polling ends with |
| SaveExecution.PollBound | device_agent/commands/save_execution.py:77-105 | with a positive interval at most ceil(timeout/interval) + 1 polls, for every reply stream |
| SaveExecution.DefaultPollBound | device_agent/config.py:52-53 | with the shipped settings at most 121 polls |
| Handlers.HandleSave | device_agent/commands/save.py:20-43 | saves once, polls for that save within the same bound, and never deletes; succeeds exactly on a confirmed save, with the confirmed image and its pod; error codes and texts for each failure |
| Handlers.HandleHibernate | device_agent/commands/hibernate.py:47-113 | unless the configuration sets skip_save the pod is deleted exactly when this save was confirmed, once, last, after the confirmation, and success carries the confirmed image and its pod; with skip_save the only call is one deletion |
| Handlers.HibernateWithSave | device_agent/commands/hibernate.py:77-113 | save, confirm, delete, with the error code of each failure and the polls within the same bound |
| Handlers.HibernateWithoutSave | device_agent/commands/hibernate.py:55-75 | with skip_save one deletion and no save; a pod already gone counts as deleted |
| Handlers.AlreadyGoneExactly | device_agent/commands/hibernate.py:43-66 | an error names a missing pod if and only if "404", "not found" or "notfound" stands in it, in small or capital letters |
| Journal.CommandJournal.Accept | device_agent/state/command_journal.py:110-124 | inserts an accepted row, or leaves the row that is there |
| Journal.CommandJournal.Run | device_agent/state/command_journal.py:126-127 | sets the row running and its update time, whatever it was, and nothing else |
| Journal.CommandJournal.Finish | device_agent/state/command_journal.py:129-140 | overwrites status, result and error texts and clears the reported mark; operation, generation and creation time stay |
| Journal.CommandJournal.Mark | device_agent/state/command_journal.py:142-148 | sets the reported mark and changes nothing else |
| Journal.CommandJournal.HasTerminal | device_agent/state/command_journal.py:89-103 | true exactly for a row with a result |
| Journal.CommandJournal.UnreportedTerminalEntries | device_agent/state/command_journal.py:150-159 | every unreported row with a result, each once, no other, oldest first |
| Commands.NamesTellApart | device_agent/commands/_util.py:4-17 | each operation is stored under its own name |
| Placement.PlacementCache.Put | device_agent/state/placement_cache.py:36-40 | sets the entry; an empty container id is never set |
| Placement.PlacementCache.Drop | device_agent/state/placement_cache.py:42-44 | removes the entry if there is one |
| Placement.PlacementCache.Get | device_agent/state/placement_cache.py:46-48 | the entry, or nothing |
| Placement.LookupExactly | device_agent/commands/executor.py:23-80 | after any list of successful commands a lookup answers exactly with the last Create or Resume of the container that no later one of these and no later Delete or Hibernate has overridden or undone |
| CacheAgreement.CacheAgrees | device_agent/commands/executor.py:61-80 | at every point of every run the cache answers so for this process's successful commands |
| Protocol.PostSays | device_agent/clients/cloud_client.py:172-175 | a report carries the verdict's status and texts unchanged, missing ones empty, and the delivered generation |
| Protocol.ResendSays | device_agent/control/grpc_client.py:98-109 | a resent result carries the row's status and texts unchanged, missing ones empty, and the stored generation |
| Protocol.MessagesTellApart | device_agent/control/grpc_client.py:98-109 | two rows of a command resend the same message if and only if status, generation, result and error texts read the same |
| Invariants.ReachableInv | device_agent/control/grpc_client.py:207-242 | in every reachable state reported rows are terminal, pending ids name terminal rows, and the dispatch loop is where the journal says |
| Invariants.StepRefines | device_agent/control/grpc_client.py:223-242 | each step moves a row along absent, accepted, running, finished, reported, only by its own command's step; redelivering a finished command changes nothing; stopping changes no row |
| Invariants.RunRefines | device_agent/state/command_journal.py:110-167 | over whole runs a finished result is never lost or changed and a reported mark never disappears |
| Invariants.LeadsExactly | device_agent/state/command_journal.py:28-33 | what RunRefines allows is exactly what the per-command machine can reach |
| Invariants.ReportedIsFrozen | device_agent/state/command_journal.py:129-148 | even if reports raise, a reported row is frozen, a terminal row stays terminal and no row changes its generation |
| Invariants.StepArrives | device_agent/state/command_journal.py:110-148 | where each journal write takes its row: accepted, running, finished, or reported with what it held |
| Invariants.RowsKeepTheirFirstDelivery | device_agent/state/command_journal.py:110-124 | on every run a row keeps the operation, the generation and the time of the first delivery of its command |
| Counting.MayCreateExactly | device_agent/clients/container_maker_client.py:33-91 | a handler calls Container Maker to create only for Create and Resume, and again exactly after UNAVAILABLE answers, three times at most |
| Counting.EventsAreCounted | device_agent/commands/executor.py:45-69 | the counters of the next results are raised by exactly the handler starts, processed creations, interruptions, verdicts and POSTs of their command |
| Counting.EffectsBoundedByInterruptions | device_agent/control/grpc_client.py:225-242 | creations processed for a command are at most the handler starts, which are at most one more than the interruptions while it had no result; without interruption at most one |
| Counting.NoStartAfterResult | device_agent/control/grpc_client.py:235-242 | no handler starts for a command with a result |
| Counting.MakerReachesAtMostOnce | device_agent/clients/container_maker_client.py:85-91 | one handler's creation call is processed at most once, retries included |
| Counting.VerdictsBounded | device_agent/commands/executor.py:60-69 | on any run at most two verdicts and ten POSTs per command, and one verdict at least if it is terminal |
| Counting.ExactlyOneOutcome | device_agent/commands/executor.py:60-69 | each command gets at most one verdict if and only if no report raises into the exception handler; then at most five POSTs |
| Counting.OneVerdictExactly | device_agent/commands/executor.py:82-111 | the same from any state that has kept it so far |
| Agreement.OverwriteKeepsSpokenExactly | device_agent/commands/executor.py:60-69 | a report that raises into the exception handler leaves everything sent and queued in agreement with the journal if and only if nothing was sent or queued for that command, or its result reads like the exception's |
| Agreement.SpokenThroughoutExactly | device_agent/commands/executor.py:60-111 | at every point of a run everything sent and queued agrees with the journal if and only if every such raising report on it meets that condition |
| Agreement.OutcomesAgree | device_agent/control/grpc_client.py:95-109 | on such runs, all clean ones among them, any two results sent for a command, by HTTP or resent, agree on status, result and error fields |
| Agreement.WhatIsSaidIsJournaled | device_agent/control/grpc_client.py:95-109 | on the same runs everything sent or queued carries the journaled status and texts |
| Agreement.MessagesAgree | device_agent/commands/executor.py:86-111 | with consistent deliveries they are the same message, with Cloud's generation |
| Agreement.FinishedResultIsResent | device_agent/control/grpc_client.py:138-143 | from its result on, across restarts, a command is either marked reported or in the next batch exactly once, with the status, texts and generation it had |
| Delivery.DeliveredThroughoutExactly | device_agent/main.py:71-81 | on any run, Cloud has at every point the journaled outcome of every reported command if and only if each HelloAccepted mark is made when Cloud has that command's |
| Delivery.ReportedIsDelivered | device_agent/control/grpc_client.py:214-222 | on an ordered stream, if no raising report takes back what was said, Cloud has the journaled outcome of every reported command |
| Delivery.DeliveredFromTheStart | device_agent/control/grpc_client.py:138-143 | the same at every point of every such run from the first start |
| Delivery.HelloKeepsDeliveryExactly | device_agent/control/grpc_client.py:214-222 | handling a HelloAccepted keeps the outcome of every reported command at Cloud if and only if Cloud already has that of every pending one |
| Delivery.HelloRuns | device_agent/control/grpc_client.py:220-222 | handling a HelloAccepted marks exactly the pending rows and clears the pending ids |
| Progress.HandlingFinishes | device_agent/control/grpc_client.py:223-242 | one uninterrupted handling of any command from any state leaves it with a result, reported exactly if its last report was confirmed, the connection given up exactly if that report raised, and no other row changed |
| Progress.HandlingTells | device_agent/commands/executor.py:45-69 | what one handling journals and reports, by what the world did: status, result and error texts for each of no handler, raised, rejected, returned and a report that raised; a success exactly if the handler returned and the report did not raise |
| Progress.HandlingKeepsSpokenExactly | device_agent/commands/executor.py:60-69 | one handling keeps everything said in agreement with the journal unless the report posted the result, then raised into the exception handler, and the result does not read like the exception's |
| Progress.CloudHearsOneOutcomeExactly | device_agent/commands/executor.py:60-69 | Cloud hears two outcomes from one handling exactly if a POST of the result and then one of the exception reach it, and they differ |
| Progress.GenerationAgreesExactly | device_agent/state/command_journal.py:110-124 | the posted result equals what a resend would say if and only if the journal had no row yet or one with the delivered generation |
| EndToEnd.CloudHasTheOneOutcome | device_agent/main.py:71-81 | under the stated hypotheses, at every point of every run, Cloud has for each command reported by then the result the journal holds in the end, and has heard nothing else about any command |
| EndToEnd.OneSessionDeliversEverything | device_agent/control/grpc_client.py:132-160 | from any state between sessions one orderly session reports and delivers everything that is finished, keeps the order, and changes nothing else |
| Agent.Boot | device_agent/main.py:66-91 | a new process starts in the state the protocol's Interrupt leaves: the stored journal, an empty cache, nothing pending, five handlers |
| Agent.Recorder.IsRun | device_agent/main.py:58-115 | what the objects have done is a legal run of the protocol and its state is the run's |
| Agent.LifetimesAreOneRun | device_agent/main.py:58-115 | a process started on the journal of an earlier run continues it: the earlier steps, the stop and what the objects did since are one run from the first start |
| Agent.CommandExecutor.ReportResult | device_agent/main.py:71-81 | posts the result and marks the row exactly on confirmation |
| Agent.CommandExecutor.FinishInside | device_agent/commands/executor.py:60-69 | an exception from the report inside the try is journaled and reported as the handler's |
| Agent.CommandExecutor.Execute | device_agent/commands/executor.py:45-69 | carries out exactly the protocol's steps, table and cache matching after each, and leaves the row with the status and texts of what happened |
| Agent.CommandExecutor.UpdatePlacement | device_agent/commands/executor.py:71-80 | records, forgets or leaves alone by the operation |
| Agent.ConnectionManager.Close | device_agent/control/grpc_client.py:153-160 | ends the connection; the pending ids stay for the next one |
| Agent.ConnectionManager.Snapshot | device_agent/control/grpc_client.py:138-143 | takes all unreported results as pending ids and as the batch, in the query's order, each with its journaled status and texts |
| Agent.ConnectionManager.AcknowledgePending | device_agent/control/grpc_client.py:209-222 | marks the pending ids in order, one write each, and clears them |
| Agent.ConnectionManager.Dispatch | device_agent/control/grpc_client.py:223-242 | a finished command changes nothing and is not acknowledged; any other is accepted, acknowledged and executed to the result that what happened calls for; raises exactly if the last report does |
| Agent.ConnectionManager.HandleInbound | device_agent/control/grpc_client.py:207-248 | each kind of message has exactly its steps and its queued answer; raises exactly if a command's last report does |
| Witnesses.TwoCreationsAfterInterruption | device_agent/commands/executor.py:59-66 | the creation bound is attained: two creations with one interruption |
| Witnesses.RaisingReportContradictsItself | device_agent/commands/executor.py:60-69 | a raising report makes Cloud hear success and failure for one command |
| Witnesses.RaisedBeforePostingAgrees | device_agent/commands/executor.py:60-69 | a report that raises before any POST leads to one failure message and no contradiction |
| Witnesses.EarlyHelloLosesResult | device_agent/control/grpc_client.py:138-143 | a HelloAccepted before the batch marks a result Cloud never got |
| Witnesses.StalePendingLosesResult | device_agent/control/grpc_client.py:136-143 | so does one that meets an earlier connection's pending ids |
| Witnesses.OverwrittenResultIsNotDelivered | device_agent/control/grpc_client.py:214-222 | on an ordered stream with a raising report a result is marked that Cloud does not have, though it has heard of the command |
| Witnesses.ChangedGenerationDisagrees | device_agent/state/command_journal.py:117-124 | a redelivery with another generation makes report and resend disagree |

## Left out

- PerformSave: assumes that some poll ends the polling, by its answer or by the clock; with an interval of zero, a clock that stands still and no answer the source would poll forever. PollBound derives such a poll for positive intervals.
- HandleHibernate: the text that combines the image and the error of a deletion that failed after the save is not JSON-encoded or cut to length.
- HandleInbound: one clock reading serves all the writes of one message, and inventory, cancel, active-state and credential messages are one kind that is ignored, as in the source.
- Execute: the executor always has a placement cache and main.py's handlers, as main.py wires it; the message of a command without a handler names the operation and not its wire number, which is defined in a package that is not part of this model.
- DeliveredFromTheStart: the ordering of the stream is a hypothesis; Cloud's side of the stream is not part of this model.
- UnreportedTerminalEntries: the order among rows with equal timestamps is not stated, and the query's sort is carried out by repeated selection.
- Handlers of Create, Resume and Delete: any outcome, with at most one retried creation call for Create and Resume; their configuration checks are single branches.
- Handlers running at the same time: the dispatch loop awaits each handling, so a step system with one place for the loop is the source's; threads inside the gRPC and SQLite libraries are not modelled.
- A command executed directly, not through `_handle_inbound`: the source then writes nothing for an operation without a handler; nothing in the agent does this.
- Heartbeats, progress, tunnel and local-event messages, the local API, the remaining Cloud requests, credentials, TLS, SQL, JSON, logging and the 1000-character cut: plumbing.
- Cloud's staleness check, quotas and the snapshot job: not in this repository.
- Rounding of floating-point delays: delays are real numbers.
