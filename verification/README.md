# Resident leader: a verified model

A Dafny model of a terminal workspace whose sessions outlive their clients. One resident
leader owns the sessions; clients attach to them over framed connections, reconnect, and
resume; a shell application runs inside each session and hands its commands to a durable
worker process. The model follows the program's structure:

| file | models |
|---|---|
| `Protocol.dfy`, `Sequences.dfy`, `Text.dfy` | identities, bounded sequences, text helpers |
| `Ledgers.dfy`, `EffectQueue.dfy`, `SessionLog.dfy` | one session: event numbers and the request table, the effect queue and its stored form, journal, checkpoint, loading |
| `Recovery.dfy`, `EffectHistory.dfy`, `RequestHistory.dfy`, `SessionRun.dfy` | what the journal says about a session, and theorems over all its runs, crashes at any point included |
| `ControlPlane.dfy`, `LeaderCore.dfy`, `Fencing.dfy` | connections, names, subscriptions and driver leases, as values and as the class that updates them; fencing over whole runs |
| `Fleets.dfy`, `Outbound.dfy`, `Host.dfy` | all sessions together, the bounded effect scheduler, client queues, and the host class with one method per mailbox message |
| `Client.dfy`, `Delivery.dfy` | the client library, and one client following one session through any failures |
| `Wake.dfy` | the wake protocol and effect cancellation as interleaved atomic steps |
| `ShellEvents.dfy`, `CommandSurface.dfy`, `ShellLaws.dfy` | the shell application's event sourcing |
| `Worker.dfy` | the command worker: spool, subscribers, command identities |
| `Journal.dfy`, `Framing.dfy` | journal files and wire frames as bytes |
| `TabRange.dfy`, `Shell.dfy` | the tab window search and the list of surfaces |

Code that updates fields in place is a class whose methods are tied to functions on values;
the theorems over whole runs are lemmas about those functions. The application inside a
session is a parameter: its handlers are only assumed to keep the contract that replaying
their events reaches the state they left (`Recovery.Lawful`), and `ShellLaws.dfy` proves that
the shell keeps it. Journal and checkpoint encodings, file contents and directory changes,
the texts of alias listings and exports, clocks and new identities are parameters too.

## What the model shows about the code

- A resend of any of the newest window of commits is answered with its first sequence, by the
  leader that applied it and by every later one, whatever its lease and whoever drives
  (`Hosts.HostState.Command`, `Hosts.AppliedThenResent`); a driver is displaced by another
  client with force only (`Fencing.DriverIsOnlyDisplacedByForce`).
- Deadlines are stored in whole milliseconds, so a recovered effect queue is the running one
  exactly when every deadline is a whole number of milliseconds (`EffectQueue.CanonExact`).
- Lease epochs are stored in checkpoints only. The first grant after a crash reuses an epoch
  exactly when two or more leases were granted since the checkpoint
  (`Fencing.EpochAfterCrash`). With at most one grant before every crash, fencing holds over
  any number of leaders; with two, two clients can apply commands under one epoch
  (`Fencing.TwoGrantsShareAnEpoch`); with three, epochs go back and a displaced driver's lease
  is let through (`Fencing.ThreeGrantsGoBack`).
- Stopping a session frees its effect slot without starting a waiting effect. A slot stays
  free while a session waits exactly when the stopped session was running an effect and the
  queue was not empty (`Fleets.RemovedConserves`, `Fleets.StoppingLeavesASlot`); the waiting
  one starts at the next transition (`Fleets.SettledKeeps`).
- An effect's cancellation has one waker slot. It wakes all its waiters in every run exactly
  when there is at most one (`Cancellation.WakesExactlyOneWaiter`).
- Whether a child runs is part of a client's snapshot but not of a session's durable state.
  A client that resumes by replay shows the wrong running flag exactly when the leader died
  while a child ran and the client has been sent nothing since
  (`ShellLaws.FlagIsStaleExactly`); any event corrects it (`ShellEvents.StaleFlagIsCorrected`).
- A shell without persistent workers loses a started command on restart, as it reports;
  restoring gives the stored state back exactly when a started command is recoverable
  (`CommandSurfaces.CommandSurface.Restore`).
- The tab window search is optimal below 65535 cells; at 65535 the saturated total always
  counts as fitting and all tabs are returned, which is optimal exactly when they truly fit
  (`TabRange.VisibleTabRange`, `TabRange.SaturationShowsTooMuch`).
- A worker that dies in mid-command restarts with a stale counter, so the completion it writes
  is numbered after that counter. A reader that rejoins is given the completion exactly when
  its position is at most the stored counter (`Workers.RuntimeState.RecoverIncompleteCommand`);
  every command accepted later is streamed without a break (`Workers.ServeAfterRestart`).

## Model

| member | source | states |
|---|---|---|
| `SessionRun.CrashAnywhereRecovers` | src/resident/host.rs:347-527 | over every run of commands, polls, completions, dispatches, checkpoints and crashes: whenever the leader dies, loading the checkpoint and the journal rebuilds sequence, request table, pending queue with attempts, log sequence, application state and event history as of the last completed append, also when it dies between an attempt record and the start of the execution; loading a second time changes nothing |
| `SessionRun.EffectsAreConserved` | src/resident/host.rs:910-921 | over every run: the pending queue is the durably enqueued effects minus the completed ones, in enqueue order, with their recorded attempts |
| `SessionRun.ExecutionsAreFenced` | src/resident/host.rs:1026-1098 | over every run with any number of crashes: two executions of one effect have strictly increasing attempt numbers, and only an at-least-once effect has two |
| `SessionRun.LateFinishIsIgnored` | src/resident/host.rs:956-972 | a completion or a deadline of an effect the journal already completed changes nothing |
| `SessionRun.RequestsApplyOnce` | src/resident/core.rs:512-607 | two journaled commits of one request have at least a whole window of other commits between them; inside the window a resend is answered with the first sequence, by the leader that applied it and by any leader that recovers the session |
| `SessionRun.EventsAreOrdered` | src/resident/host.rs:927-929 | the events ever recorded have strictly increasing sequences that never pass the control sequence, and the history in memory is the newest part of them |
| `SessionRun.LogsOnlyGrow` | src/resident/host.rs:1247-1287 | no step, crash included, unwrites a journal record or forgets an execution |
| `SessionRun.RunInv` | src/resident/host.rs:847-935 | every reachable state of a session keeps the recovery, effect and request invariants together |
| `SessionRun.StepInv` | src/resident/host.rs:847-1133 | each kind of step keeps those invariants |
| `SessionRun.NewestAreRemembered` | src/resident/core.rs:531-533 | at every moment of a run, crashes included, each of the newest window of commits is in the request table with its own sequence |
| `SessionRun.RunningIsCompleted` | src/resident/host.rs:963-981 | over every run: a completion of the running effect, whatever its attempt, is journaled as its completion and leaves nothing of it queued or running |
| `SessionRun.FinishCompletes` | src/resident/host.rs:963-981 | the same for one step from any state that keeps the invariants |
| `SessionRun.DispatchExecutes` | src/resident/host.rs:1026-1098 | the front effect is handed to the application when it is at-least-once or was never attempted, and then only; it is the running one either way |
| `SessionRun.NotRunningAgain` | src/resident/host.rs:963-968 | an effect the journal has completed is never the running one |
| `Recovery.TransitionKeeps` | src/resident/host.rs:847-935 | after one transition is appended, loading the disk gives the running session back |
| `Recovery.DispatchKeeps` | src/resident/host.rs:1018-1063 | after one dispatch, whether it records an attempt or only reports an unknown outcome, loading still gives the running session back |
| `Recovery.CheckpointKeeps` | src/resident/host.rs:1208-1229 | rewriting the checkpoint at any moment does not change what loading rebuilds; records it covers only refill the history and the activity stamp |
| `Recovery.RestartKeeps` | src/resident/host.rs:347-593 | a restarted leader holds the durable part of the session, and its refreshed checkpoint still recovers it |
| `Recovery.RestartIsIdempotent` | src/resident/host.rs:347-593 | a second restart changes neither the session nor its checkpoint |
| `Recovery.ReplayTransition` | src/resident/host.rs:445-489 | replaying one transition record onto the recovered state equals having applied the transition, for any lawful handler |
| `Recovery.ReplayNumbered` | src/resident/core.rs:583-607 | replaying the numbered events one by one reaches the ledger that allocating them reached, with only the first carrying the request |
| `Recovery.ReplayDispatch` | src/resident/host.rs:490-499 | replaying an attempt record raises exactly the attempt count of the effect at the front |
| `Recovery.ReplayCovered` | src/resident/host.rs:446-466 | replaying records the checkpoint already covers rebuilds only the bounded event history |
| `Recovery.AllocateFacts` | src/resident/host.rs:857-880 | what allocation does: the request takes the first number, the table keeps at most the window, everything else keeps its first sequence |
| `SessionLog.LoadSession` | src/resident/host.rs:439-511 | the record-by-record, event-by-event loop of loading computes exactly the fold that the recovery theorems are about |
| `SessionLog.Prune` | src/resident/host.rs:509-511 | dropping from the front leaves exactly the newest entries up to the limit |
| `EffectHistory.CompletedOnce` | src/resident/host.rs:956-981 | an effect identity has at most one completing transition in the whole journal |
| `EffectHistory.InOrder` | src/resident/host.rs:1018-1026 | a later effect of a session is never attempted before every earlier one has completed |
| `EffectHistory.AttemptNumbers` | src/resident/host.rs:1050-1063 | the attempt number in a record is one more than the attempts recorded before it |
| `EffectHistory.AttemptsIncrease` | src/resident/host.rs:1050-1063 | later attempt records of one effect carry strictly larger attempt numbers |
| `EffectHistory.AtMostOneAttempt` | src/resident/host.rs:1026-1048 | an at-most-once effect has at most one attempt record, over any number of leaders |
| `EffectHistory.FirstAttemptOnly` | src/resident/host.rs:1026-1048 | an attempt of an at-most-once effect is only recorded when none was |
| `EffectHistory.TransitionKeeps` | src/resident/host.rs:915-921 | a transition keeps the queue equal to what the journal leaves outstanding |
| `EffectHistory.DispatchKeeps` | src/resident/host.rs:1050-1072 | a dispatch keeps it, and whatever is running is the oldest outstanding effect with a recorded attempt |
| `EffectHistory.DurableKeeps` | src/resident/host.rs:439-511 | so does recovery |
| `EffectHistory.CompletedIsGone` | src/resident/host.rs:915-918 | an effect whose completion is journaled is neither queued nor running |
| `EffectQueue.DeadlineIsRoundedDown` | src/resident/host.rs:1579-1599 | a stored effect comes back as it was, its deadline less by under a millisecond, or at the largest number the field holds |
| `EffectQueue.CanonExact` | src/resident/host.rs:1579-1599 | a recovered queue equals the running one if and only if every deadline is a whole number of milliseconds that fits the stored field |
| `EffectQueue.CanonIdempotent` | src/resident/host.rs:1579-1599 | storing and loading a queue a second time changes nothing more |
| `EffectQueue.CanonRetain` | src/resident/host.rs:915-918 | removing a completed effect commutes with storing the queue |
| `EffectQueue.MarkFront` | src/resident/host.rs:490-498 | replaying an attempt onto the stored queue is the stored form of the queue after the attempt |
| `RequestHistory.TransitionKeeps` | src/resident/host.rs:857-880 | a transition keeps equal commits a window apart and the table equal to the newest commits |
| `RequestHistory.ResendFindsOriginal` | src/resident/core.rs:531-533 | a request among the newest commits is found in the table with the sequence it was first given |
| `RequestHistory.SeparatedAppend` | src/resident/core.rs:549-570 | committing a request the table has forgotten keeps equal commits a window apart |
| `Ledgers.RememberValid` | src/resident/core.rs:559-568 | committing keeps the order list and the table describing the same requests, the newest of them, without repeats |
| `Ledgers.SnapshotRoundTrip` | src/resident/core.rs:297-327 | writing the request table to a checkpoint and restoring it loses nothing |
| `ControlPlane.ConnectKeeps` | src/resident/core.rs:230-238 | a new connection keeps names in bijection with sessions, subscriptions symmetric, and every driver attached at the current epoch |
| `ControlPlane.WithoutKeeps` | src/resident/core.rs:241-264 | any set of connections leaving keeps names in bijection with sessions, subscriptions symmetric, and every driver attached at the current epoch |
| `ControlPlane.AddSessionKeeps` | src/resident/core.rs:267-327 | adding or restoring a session keeps names in bijection with sessions, subscriptions symmetric, and every driver attached at the current epoch |
| `ControlPlane.RenameKeeps` | src/resident/core.rs:355-379 | a rename keeps names in bijection with sessions, subscriptions symmetric, and every driver attached at the current epoch |
| `ControlPlane.AttachKeeps` | src/resident/core.rs:382-441 | an attachment, with or without a new lease keeps names in bijection with sessions, subscriptions symmetric, and every driver attached at the current epoch |
| `ControlPlane.DetachKeeps` | src/resident/core.rs:444-469 | a detachment keeps names in bijection with sessions, subscriptions symmetric, and every driver attached at the current epoch |
| `ControlPlane.ReleaseKeeps` | src/resident/core.rs:472-496 | releasing the driver keeps names in bijection with sessions, subscriptions symmetric, and every driver attached at the current epoch |
| `ControlPlane.RemoveSessionKeeps` | src/resident/core.rs:499-509 | removing a session keeps names in bijection with sessions, subscriptions symmetric, and every driver attached at the current epoch |
| `ControlPlane.LoadedFromKeeps` | src/resident/core.rs:297-327 | a restart from what the checkpoints stored keeps names in bijection with sessions, subscriptions symmetric, and every driver attached at the current epoch |
| `ControlPlane.AuthorizeRules` | src/resident/core.rs:512-546 | a request from its own client on an attached connection is answered with its first sequence when it is remembered, whatever the lease and the driver; when it is new it is let through if and only if that client drives under that lease; every refusal names its cause |
| `ControlPlane.AttachedAsRuled` | src/resident/core.rs:411-441 | an accepted attachment subscribes the connection and changes epoch and driver exactly as the answer says |
| `ControlPlane.WithoutDeparts` | src/resident/core.rs:241-264 | after connections leave, a session keeps its driver exactly when a connection of that client is still attached |
| `ControlPlane.WithoutCompose` | src/resident/core.rs:241-264 | connections leaving one by one, in any order, leave the same control plane as leaving together |
| `LeaderCores.LeaderCore.constructor` | src/resident/core.rs:213-227 | an empty control plane with a window of at least one |
| `LeaderCores.LeaderCore.Connect` | src/resident/core.rs:230-238 | registers the connection and nothing else; the invariants above are kept |
| `LeaderCores.LeaderCore.Disconnect` | src/resident/core.rs:241-264 | removes exactly that connection from every session, drops a driver exactly when no other connection of that client is attached, and reports each lost driver once, with the subscribers that remain; the invariants above are kept |
| `LeaderCores.LeaderCore.CreateSession` | src/resident/core.rs:267-294 | creates under the trimmed name, or refuses an invalid or duplicate one and changes nothing; the invariants above are kept |
| `LeaderCores.LeaderCore.RestoreSession` | src/resident/core.rs:297-327 | restores with no driver and the epoch one further, or refuses a duplicate name; the invariants above are kept |
| `LeaderCores.LeaderCore.RenameSession` | src/resident/core.rs:355-379 | renames in both tables, or refuses and changes nothing; the invariants above are kept |
| `LeaderCores.LeaderCore.Attach` | src/resident/core.rs:382-441 | an unforced driving attachment to a session that another client drives is refused with that driver and changes nothing; otherwise the connection subscribes, a viewer gets no lease, a driver keeps the lease it holds, and anyone else gets the next epoch; the invariants above are kept |
| `LeaderCores.LeaderCore.Detach` | src/resident/core.rs:444-469 | ends the subscription, and the lease if and only if this client held it; the invariants above are kept |
| `LeaderCores.LeaderCore.ReleaseDriver` | src/resident/core.rs:472-496 | clears the driver for its owner only; the invariants above are kept |
| `LeaderCores.LeaderCore.Authorize` | src/resident/core.rs:512-546 | a remembered request of an attached client is a duplicate whatever its lease and whoever drives; a new one is let through exactly for the current driver under its lease; every refusal names its cause |
| `LeaderCores.LeaderCore.RemoveSession` | src/resident/core.rs:499-509 | removes the session, its name and every subscription to it; the invariants above are kept |
| `LeaderCores.LeaderCore.StampActivity` | src/resident/core.rs:330-339 | the activity stamp never moves back; the invariants above are kept |
| `LeaderCores.LeaderCore.Commit` | src/resident/core.rs:549-570 | a new request takes the next sequence and the table forgets the oldest beyond the window; a known one gets its first sequence back; the invariants above are kept |
| `LeaderCores.LeaderCore.Publish` | src/resident/core.rs:573-580 | an unsolicited event takes the next sequence; the invariants above are kept |
| `LeaderCores.LeaderCore.Subscribers` | src/resident/core.rs:610-616 | each subscriber exactly once |
| `LeaderCores.DropConnection` | src/resident/core.rs:246-263 | the loop over the leaving connection's sessions changes exactly those sessions, each as a single departure does, and collects one change per lost driver |
| `Fencing.AppliedInEpochOrder` | src/resident/core.rs:382-441 | over every run of connections, commands, checkpoints, graceful restarts and crashes: when every crash finds at most two grants since the checkpoint, the epochs of applied commands never decrease; when it finds at most one, all commands of one epoch come from one client |
| `Fencing.DisplacedDriverIsRefused` | src/resident/core.rs:512-546 | over the same runs, at most two grants before each crash: once a session is past an epoch, no command carrying it is ever applied again |
| `Fencing.OnlyTheCurrentDriver` | src/resident/core.rs:512-546 | over any number of crashes: a command is let through only for the client that was granted the current epoch and still holds it, with a request that is not remembered |
| `Fencing.DriverIsOnlyDisplacedByForce` | src/resident/core.rs:399-441 | over every run: a driver keeps its lease until a connection of its client leaves, or gives it up, or the leader is replaced, or another client attaches with force |
| `Fencing.DriverIsLetThrough` | src/resident/core.rs:531-546 | over every run: a new request of an attached client is applied if and only if that client holds the session under that lease |
| `Fencing.StepKeepsDriver` | src/resident/core.rs:382-496 | the same displacement rule for one step from any state that keeps the invariants |
| `Fencing.DepartureKeepsDriver` | src/resident/core.rs:241-264 | a connection of another client that goes takes no lease with it |
| `Fencing.EpochAfterCrash` | src/resident/core.rs:297-324 | in a run whose earlier crashes found at most one grant, the first grant after a crash now would reuse an epoch if and only if two or more leases were granted since the checkpoint |
| `Fencing.TwoGrantsShareAnEpoch` | src/resident/core.rs:297-324 | a run with two grants before a crash in which two clients apply commands under one epoch |
| `Fencing.ThreeGrantsGoBack` | src/resident/core.rs:297-324 | a run with three grants before a crash in which epochs of applied commands go back and a lease the session was past is let through again |
| `Fencing.StepInv` | src/resident/core.rs:382-441 | after every step the session is as many epochs past its checkpoint as leases were granted since, each of those epochs was granted, and the driver holds the newest |
| `Fencing.StepReaches` | src/resident/core.rs:297-441 | no step takes a session below an epoch it had reached, a crash included that finds at most two grants |
| `Fleets.DispatchedKeeps` | src/resident/host.rs:1000-1016 | when the scheduler returns every invariant holds, and either the limit is reached or nothing is waiting |
| `Fleets.DispatchedInOrder` | src/resident/host.rs:1000-1016 | the sessions started are exactly a prefix of the queue, each started once; nobody is overtaken and no other session changes |
| `Fleets.SettledKeeps` | src/resident/host.rs:847-935 | a transition with the scheduling it triggers keeps the queue exact and the limit, and is work-conserving |
| `Fleets.NobodyIsOvertaken` | src/resident/host.rs:991-1016 | over a transition the queue loses sessions only at its front and gains at most the changed session, at its end |
| `Fleets.SettledRecords` | src/resident/host.rs:847-935 | a transition leaves the handler's state and exactly one record of it behind what the journal held: request, completed effect, numbered events and new effects |
| `Fleets.PolledRecords` | src/resident/host.rs:945-954 | a poll with events or effects is recorded like that, and one with neither changes nothing |
| `Fleets.FinishedRetires` | src/resident/host.rs:956-981 | when the running effect completes its completion is recorded and nothing of it stays queued or running |
| `Fleets.NewestAreKnown` | src/resident/core.rs:531-533 | each of the newest window of commits in a session's journal is in its request table with its own sequence |
| `Fleets.SettledCommits` | src/resident/host.rs:847-935 | a command that is applied is one more commit in its session's journal, under the sequence it is answered with |
| `Fleets.DispatchedCommits` | src/resident/host.rs:1050-1063 | starting effects adds no commit to any journal |
| `Fleets.StartOneQueue` | src/resident/host.rs:1009-1014 | starting the front session leaves a queue without repeats of exactly the idle sessions with pending effects |
| `Fleets.TransitionedKeeps` | src/resident/host.rs:847-921 | only the session that changed may be missing from the queue afterwards |
| `Fleets.ScheduleReady` | src/resident/host.rs:991-998 | queueing that session makes the queue exact again |
| `Fleets.RemovedKeeps` | src/resident/host.rs:1289-1320 | stopping a session keeps queue and limit |
| `Fleets.RemovedConserves` | src/resident/host.rs:1289-1320 | from a work-conserving scheduler, stopping a session leaves a slot free while a session waits if and only if the stopped session was running an effect and the queue is not empty |
| `Fleets.StoppingLeavesASlot` | src/resident/host.rs:1289-1320 | such a fleet: one slot, one running session, one waiting; stopping the first leaves the slot free and the other waiting |
| `Fleets.ExecutionsAreFenced` | src/resident/host.rs:1026-1098 | over all leaders of a session: two executions of one effect handed to the application carry increasing attempt numbers, and only an at-least-once effect has two |
| `Fleets.DiesBeforeStarting` | src/resident/host.rs:1050-1098 | a leader that dies between an attempt record and the start leaves files that account for every execution |
| `EffectHistory.AttemptedTwice` | src/resident/host.rs:1026-1063 | an effect with two attempt records is an at-least-once one |
| `Fleets.CheckpointedKeeps` | src/resident/host.rs:1208-1229 | so does a checkpoint |
| `Fleets.AddedKeeps` | src/resident/host.rs:758-778 | so does a new session |
| `Fleets.ReloadedKeeps` | src/resident/host.rs:347-607 | after a crash every session comes back as its last append left it, with nothing running |
| `Hosts.HostState.constructor` | src/resident/host.rs:576-590 | an empty host |
| `Hosts.HostState.Send` | src/resident/host.rs:1343-1350 | queues the message if and only if the client is reading and has room, else drops the client; other clients gain no state message, every lost driver is announced to the subscribers that remain, and the control plane is the old one without the dropped connections |
| `Hosts.HostState.Disconnect` | src/resident/host.rs:1352-1357 | removes the client; terminates although sends may disconnect further clients, because the clients strictly decrease; every lease released on the way is announced to every subscriber that remains; clients with room for one notice per session all stay |
| `Hosts.HostState.BroadcastAllChanges` | src/resident/host.rs:1354-1356 | every subscriber in every change that is still there afterwards was sent that change |
| `Hosts.HostState.BroadcastDriver` | src/resident/host.rs:1359-1369 | every listed subscriber that is still there was sent the new lease |
| `Hosts.HostState.AppendLog` | src/resident/host.rs:1247-1287 | one record with the next number is on disk |
| `Hosts.HostState.PersistCheckpoint` | src/resident/host.rs:1208-1229 | the checkpoint holds the session as it stands, its name and its epoch |
| `Hosts.HostState.CheckpointAll` | src/resident/host.rs:1377-1379 | every checkpoint is rewritten, whatever the order |
| `Hosts.HostState.ScheduleEffect` | src/resident/host.rs:991-998 | an idle session with pending effects goes to the end of the queue, once |
| `Hosts.HostState.CountActive` | src/resident/host.rs:1002-1007 | the number of running effects |
| `Hosts.HostState.DispatchEffects` | src/resident/host.rs:1000-1016 | starts queued sessions from the front while slots are free; afterwards every slot is taken or no idle session has a pending effect |
| `Hosts.HostState.DispatchOneEffect` | src/resident/host.rs:1018-1048 | the front effect becomes the running one; it is executed exactly when it is at-least-once or was never attempted |
| `Hosts.HostState.RecordAndStart` | src/resident/host.rs:1050-1098 | records the attempt, then starts the execution |
| `Hosts.HostState.EmitEvents` | src/resident/host.rs:857-880 | numbers the events, the first under the request |
| `Hosts.HostState.CommitEvents` | src/resident/host.rs:857-900 | numbers the events and stamps the activity |
| `Hosts.HostState.CommitTransition` | src/resident/host.rs:847-922 | ledger, journal record, application state and queue after the durable half of a transition |
| `Hosts.HostState.Requeue` | src/resident/host.rs:910-922 | retires the completed effect and appends the new ones |
| `Hosts.HostState.RecordAndBroadcast` | src/resident/host.rs:1135-1162 | the bounded history gains the event and every subscriber that is not dropped gains exactly it |
| `Hosts.HostState.BroadcastAll` | src/resident/host.rs:927-929 | all events of a transition, in order, to exactly the subscribers |
| `Hosts.HostState.RecordTransition` | src/resident/host.rs:847-929 | a transition up to the scheduler |
| `Hosts.HostState.ApplyTransition` | src/resident/host.rs:847-935 | the fleet after a transition and its scheduling, what subscribers received, and the reported sequence |
| `Hosts.HostState.Connected` | src/resident/host.rs:612-619 | a client with an empty queue |
| `Hosts.HostState.Disconnected` | src/resident/host.rs:620 | a dropped transport changes nothing but connections, and its released leases are announced |
| `Hosts.HostState.Respond` | src/resident/host.rs:754 | the requester, if still there, receives the answer; nobody's picture of a session changes |
| `Hosts.HostState.Command` | src/resident/host.rs:804-845 | a request of an attached client that is in the session's table, or among the newest window of commits in its journal, is answered with its first sequence, whatever its lease and whoever drives; a new one is put to the application exactly for the current driver and, when accepted, recorded once, broadcast, and answered with its sequence; everything else is refused; refusal, duplicate and rejection change no session, and clients with room for the messages all stay |
| `Hosts.HostState.ApplyCommand` | src/resident/host.rs:826-845 | an accepted command is one new record with its request, effects and numbered events, the handler's state, and the answer with the first of the sequences |
| `Hosts.HostState.PollSession` | src/resident/host.rs:945-954 | a poll that produced nothing leaves no trace, otherwise it is one transition; every remaining subscriber gains exactly its events, and of the control plane only the ledger moves |
| `Hosts.HostState.CompleteEffect` | src/resident/host.rs:956-981 | whenever the effect is the session's active one, whatever its attempt, its completion is recorded and nothing of it stays queued or running; otherwise nothing changes; one poll follows, and every remaining subscriber gains exactly the events of both, in order |
| `Hosts.HostState.TimeoutEffect` | src/resident/host.rs:1115-1133 | a deadline completes the effect like that if and only if it is still the active one |
| `Hosts.HostState.ReplayOrSnapshot` | src/resident/host.rs:1164-1206 | the attaching client gains exactly the events it missed, or the whole state when the history no longer reaches its cursor |
| `Hosts.HostState.Replay` | src/resident/host.rs:1183-1194 | one client is sent these events, in order, and stays when it has room |
| `Hosts.HostState.AnnounceDriver` | src/resident/host.rs:1359-1369 | every subscriber that remains is told the current driver |
| `Hosts.HostState.Welcome` | src/resident/host.rs:786-801 | announcement of a new driver, then catch-up |
| `Hosts.HostState.AttachSession` | src/resident/host.rs:780-802 | an unforced driving attachment to a session another client drives returns that driver and changes nothing at all; an accepted one subscribes, grants or keeps the lease as answered, announces a new driver, and catches the client up: the missed events when the history reaches its cursor, else one snapshot |
| `Hosts.HostState.AcquireDriver` | src/resident/host.rs:697-709 | the same without catch-up: refused when busy and not forced, else the lease as answered |
| `Hosts.HostState.DetachSession` | src/resident/host.rs:690-696 | detaches, ends the lease only of the client that held it, and announces that |
| `Hosts.HostState.ReleaseDriver` | src/resident/host.rs:710-722 | releases and announces |
| `Hosts.HostState.CreateSession` | src/resident/host.rs:758-778 | a new session with an empty journal and its checkpoint, name and epoch on disk, or a refusal that changes nothing |
| `Hosts.HostState.StopSession` | src/resident/host.rs:1289-1320 | the session, its files and its place in the queue are gone; no queued effect is started in its place, so the scheduler stays work-conserving exactly when nothing waited or the session was idle |
| `Hosts.HostState.RenameSession` | src/resident/host.rs:670-678 | renames and rewrites the checkpoint |
| `Hosts.HostState.Shutdown` | src/resident/host.rs:1371-1382 | every checkpoint is current, names and epochs included |
| `Hosts.HostState.Adopt` | src/resident/host.rs:384-396 | a recovered session joins, or nothing happens when its name is taken |
| `Hosts.HostState.AdoptAll` | src/resident/host.rs:357-527 | every stored session is loaded, or two of them claim one name |
| `Hosts.HostState.Resume` | src/resident/host.rs:591-593 | checkpoints are refreshed and outstanding effects resumed under the limit |
| `Hosts.HostState.ScheduleAll` | src/resident/host.rs:983-988 | the queue holds exactly the sessions with outstanding effects |
| `Hosts.LoadHost` | src/resident/host.rs:347-607 | a leader comes up from the files of any leader, wherever between two appends it died, with every session as last appended, its name, its stored epoch one further, nobody attached, and one round of scheduling done; it stays down if and only if two stored sessions claim one name |
| `Hosts.ReloadHost` | src/resident/host.rs:347-607 | the files of a valid leader always come up: same sessions, names and commits, each epoch one past the stored one, which the session had reached |
| `Hosts.ResendAfterCrash` | src/resident/host.rs:347-607 | a client whose command is among the newest window of commits of a leader that died attaches to the next leader as a viewer, over a connection with room for the history, and resends it under any lease: the answer is its first sequence |
| `Hosts.AppliedThenResent` | src/resident/host.rs:804-845 | end to end: whatever command a leader applies, when it dies and the client asks the next leader again, the answer is the sequence the first leader gave it |
| `Hosts.Resend` | src/resident/host.rs:812-825 | the same on any leader, for an attached connection |
| `Hosts.ResendsKnown` | src/resident/host.rs:812-825 | what the rules of authorization mean for the answer, given that the newest window of commits is in the table |
| `Hosts.CommitsSurvive` | src/resident/host.rs:347-593 | reloading and resuming leaves the commits of every journal as they were |
| `Outbounds.CatchUpCatchesUp` | src/resident/host.rs:1173-1205 | when the history reaches back to the cursor, exactly the events above it and no snapshot are sent; otherwise exactly one snapshot |
| `Outbounds.AboveIsFilter` | src/resident/host.rs:1175-1181 | an event of the history is sent if and only if it is above the cursor |
| `Hosts.AdvancedTwice` | src/resident/host.rs:956-981 | two transitions of one session in a row are told to subscribers and recorded like one |
| `Hosts.FromFirst` | src/resident/host.rs:1352-1369 | a lease lost at any depth of nested disconnects is announced to every subscriber that remains |
| `Deliveries.DeliveredExactly` | src/resident/client.rs:403-465 | over any number of disconnects, reconnects and leader crashes: after its latest snapshot the consumer was given exactly the events the leader ever recorded above it and up to the cursor, in strictly increasing order |
| `Deliveries.CaughtUpClientAgrees` | src/resident/host.rs:1164-1206 | an attached client that has read all it was sent shows exactly what the session shows, however it got there |
| `Deliveries.MoveKeeps` | src/resident/client.rs:317-374 | every move of leader, connection and client keeps the delivery invariant |
| `Deliveries.HistoryCatchesUp` | src/resident/host.rs:1173-1184 | when the bounded history reaches back to the cursor, what it holds above the cursor is everything the log holds above it |
| `Deliveries.ReachedIsReplayed` | src/resident/host.rs:1164-1206 | at every attachment of a run: a client whose cursor the bounded history reaches is sent exactly the recorded events above it and never the whole state; any other gets one snapshot |
| `Deliveries.ReplayedExactly` | src/resident/host.rs:1173-1205 | the same for any log: the condition is that the oldest event still held is at most one past the cursor |
| `Deliveries.CatchUpFlows` | src/resident/host.rs:1173-1205 | whether by replay or by snapshot, the answer to an attach request continues the client's position to the end of the log |
| `Deliveries.ReceiveKeeps` | src/resident/client.rs:429-440 | handing one message to the consumer and then acknowledging it moves the picture one message further |
| `Deliveries.StepExtends` | src/resident/host.rs:847-929 | a leader step extends the log by what it emits, and the events carry what clients show along |
| `Deliveries.AbsorbIsReattach` | src/resident/client.rs:425-461 | the cursor of the delivery system is the one the client library keeps while reattaching |
| `Deliveries.AbsorbIsAttach` | src/resident/client.rs:469-492 | and the one it takes from its first attachment |
| `Clients.ResidentClient.constructor` | src/resident/client.rs:124-160 | no attachments, requests numbered from one |
| `Clients.ResidentClient.Envelope` | src/resident/client.rs:254-263 | a request number that was never used before |
| `Clients.ResidentClient.BeginExchange` | src/resident/client.rs:298-315 | one exchange at a time; a failed send forgets the request |
| `Clients.ResidentClient.NextExchange` | src/resident/client.rs:317-336 | only the matching answer ends the exchange and is observed; everything else is a push |
| `Clients.ResidentClient.FinishExchange` | src/resident/client.rs:339-341 | forgets the request |
| `Clients.ResidentClient.ObserveResult` | src/resident/client.rs:467-534 | what each successful answer does to the attachments: join, leave, drive, release, rename, stop |
| `Clients.ResidentClient.RemoveAttachment` | src/resident/client.rs:576-585 | removes the attachment and falls back to the last one |
| `Clients.ResidentClient.ObserveDriver` | src/resident/client.rs:558-568 | this instance's own lease makes it the driver under that epoch; another's, or none, leaves it a viewer without lease; other sessions are not touched |
| `Clients.ResidentClient.SetCursor` | src/resident/client.rs:223-227 | the resume point never moves back |
| `Clients.ResidentClient.Acknowledge` | src/resident/client.rs:348-350 | a retained message moves exactly its session's cursor or driver |
| `Clients.ResidentClient.Reattach` | src/resident/client.rs:418-461 | a request that is not taken changes nothing else; otherwise as for waiting for its answer |
| `Clients.ResidentClient.AwaitAttachment` | src/resident/client.rs:425-461 | each push goes to the consumer first and is acknowledged after; a full consumer stops the exchange unacknowledged; the outcome is what the answer was, if it came |
| `Clients.ResidentClient.ReconnectStreaming` | src/resident/client.rs:403-465 | all state messages read before the first failure went to the consumer, in order; no cursor is behind where it was; a clean end means every session was answered with an attachment, and otherwise exactly the sessions before the last one tried were |
| `Clients.ObserveIs` | src/resident/client.rs:467-534 | each successful answer changes exactly the attachment it names: joined, forgotten, driving under the granted epoch, viewing, or renamed |
| `Clients.HandledKeeps` | src/resident/client.rs:457-460 | no single message of a reattachment moves a cursor behind its starting point |
| `WakeProtocol.NeverDoubled` | src/resident/application.rs:218-227 | over every interleaving: the bit is set exactly when one wake is in flight, the mailbox holds at most one, and the channel is never found full |
| `WakeProtocol.NeverLost` | src/resident/application.rs:218-227 | output written before a notify has been polled, or a poll that will see it is on its way, as long as the leader lives |
| `WakeProtocol.PollComesNearer` | src/resident/host.rs:1385-1415 | whenever a poll is due some step towards it is enabled, and taking it brings the poll nearer |
| `WakeProtocol.StepInv` | src/resident/host.rs:629-632 | every atomic step keeps the bit equal to the number of wakes in flight |
| `Cancellation.CancelledWakes` | src/resident/application.rs:139-146 | once the canceller is done, the waiting futures still asleep are exactly those whose waker a later registration pushed out |
| `Cancellation.WakesExactlyOneWaiter` | src/resident/application.rs:134-168 | no run leaves a waiter asleep after a cancellation if and only if at most one future waits on it |
| `Cancellation.OneWaiterIsNeverReplaced` | src/resident/application.rs:153-168 | a single waiter is always woken by a cancellation |
| `Cancellation.TwoWaitersCanSleep` | src/resident/application.rs:153-168 | of any two waiters on one effect, a run in which the first to wait sleeps through the cancellation |
| `ShellEvents.ReplayRebuilds` | cli/src/app.rs:145-176 | replaying the event of a transition onto the durable state it started from gives the durable state it ended in, across pruning and clears |
| `ShellEvents.ApplyRebuilds` | cli/src/app.rs:187-220 | applying it to the snapshot a client shows gives the next snapshot |
| `ShellEvents.BoardRebuilds` | cli/src/app.rs:187-220 | the same for the part of a snapshot that durable state determines |
| `ShellEvents.StaleFlagIsCorrected` | cli/src/app.rs:187-220 | an event of a session corrects the running flag of a client that shows the state it started from, however stale |
| `ShellLaws.FlagIsStaleExactly` | cli/src/app.rs:187-220 | over any run of handlers, leader deaths and whole snapshots: a client shows exactly what the session shows unless a leader died while a child ran and the client was sent nothing since; then only the flag differs |
| `ShellLaws.FlagCanBeStale` | cli/src/command.rs:394-437 | a run with such a client: a child runs, the leader dies, the replay has nothing to say |
| `ShellEvents.LimitIsNeeded` | cli/src/command.rs:315-326 | past the transcript limit the difference would not rebuild the state |
| `ShellEvents.TranscriptAppendCount` | cli/src/app.rs:497-513 | the number of new lines after front pruning, by the longest overlap |
| `ShellLaws.HandlersAreLawful` | src/resident/application.rs:421-422 | every handler of the shell keeps the replay contract the recovery theorems assume, and the picture contract the delivery theorems assume |
| `ShellLaws.WholeRunRebuilds` | cli/src/app.rs:372-446 | over any sequence of commands, polls and completions all events together rebuild the final durable state and the final snapshot |
| `ShellLaws.RestoreAfterHandler` | cli/src/command.rs:394-437 | between handlers of a persistent shell, storing and restoring a session loses nothing, and it shows no child running |
| `CommandSurfaces.CommandSurface.Push` | cli/src/command.rs:315-326 | one line, pruned at the limit, one revision |
| `CommandSurfaces.CommandSurface.PushAll` | cli/src/command.rs:567-588 | lines one by one prune as they would together |
| `CommandSurfaces.CommandSurface.AcceptLine` | cli/src/command.rs:354-371 | history without immediate repeats, transcript and queue |
| `CommandSurfaces.CommandSurface.ShowCommands` | cli/src/command.rs:630-643 | the alias table as lines |
| `CommandSurfaces.CommandSurface.ShowQueue` | cli/src/command.rs:645-659 | the numbered queue |
| `CommandSurfaces.CommandSurface.CancelQueued` | cli/src/command.rs:661-692 | removes the entry it names, or all, or complains and removes nothing |
| `CommandSurfaces.CommandSurface.AddCommand` | cli/src/command.rs:590-617 | defines the alias, or complains and changes nothing |
| `CommandSurfaces.CommandSurface.RemoveCommand` | cli/src/command.rs:619-628 | removes the alias if there is one |
| `CommandSurfaces.CommandSurface.ExportVariable` | cli/src/command.rs:719-738 | sets a well-named variable to the unquoted value |
| `CommandSurfaces.CommandSurface.UnsetVariable` | cli/src/command.rs:740-748 | removes a well-named variable |
| `CommandSurfaces.CommandSurface.AliasCommand` | cli/src/command.rs:750-764 | lists, complains or defines, and what it adds to the transcript |
| `CommandSurfaces.CommandSurface.Cd` | cli/src/command.rs:766-798 | moves, or stays and reports a failure |
| `CommandSurfaces.CommandSurface.RunBuiltin` | cli/src/command.rs:497-565 | which word does what to aliases, environment, queue, directory, failure flag and transcript; a line that is none of them changes nothing |
| `CommandSurfaces.CommandSurface.ChangeTables` | cli/src/command.rs:533-560 | the words that edit tables, and what they add to the transcript |
| `CommandSurfaces.CommandSurface.ShowLines` | cli/src/command.rs:500-532 | the words that only show something, or clear what is shown |
| `CommandSurfaces.CommandSurface.ClearTranscript` | cli/src/command.rs:1200-1204 | an empty transcript, one revision |
| `CommandSurfaces.CommandSurface.Interrupt` | cli/src/command.rs:913-927 | says what happened to the signal |
| `CommandSurfaces.CommandSurface.CommandLaunched` | cli/src/command.rs:1212-1225 | the child runs from the recorded position and its line leaves the queue |
| `CommandSurfaces.CommandSurface.CommandLaunchFailed` | cli/src/command.rs:1237-1254 | nothing is started, and the failure is reported |
| `CommandSurfaces.CommandSurface.CommandOutcomeUnknown` | cli/src/command.rs:1258-1272 | nothing is started, and the doubt is reported |
| `CommandSurfaces.CommandSurface.PollCommand` | cli/src/command.rs:808-911 | shows exactly the lines newer than the last shown, and settles a child that has ended |
| `CommandSurfaces.CommandSurface.Sift` | cli/src/command.rs:843-857 | the loop over arrived lines |
| `CommandSurfaces.CommandSurface.SettleChild` | cli/src/command.rs:882-905 | a finished child clears the started command and reports a failure |
| `CommandSurfaces.CommandSurface.SubmitLine` | cli/src/app.rs:389-392 | takes the line and starts what can start; an idle shell starts the line at once when it is not one of its own |
| `CommandSurfaces.CommandSurface.StartNextExternal` | cli/src/command.rs:1278-1316 | rejoins a recoverable command under its old number, or starts the next external line under a new one |
| `CommandSurfaces.CommandSurface.DrainQueue` | cli/src/command.rs:1294-1315 | built-in lines run until an external one starts or the queue is empty |
| `CommandSurfaces.CommandSurface.RunFront` | cli/src/command.rs:1294-1309 | one line of the queue |
| `CommandSurfaces.CommandSurface.AllocateCommandId` | cli/src/command.rs:1318-1322 | numbers are never reused |
| `CommandSurfaces.CommandSurface.ResidentEffects` | cli/src/app.rs:469-491 | at most one effect, which starts the started command, at least once under a worker and at most once without; without an effect nothing that could start is left, and a command a worker may still run is rejoined under its old number |
| `CommandSurfaces.CommandSurface.Report` | cli/src/app.rs:456-467 | an event exactly when something visible changed, and it rebuilds everything |
| `CommandSurfaces.CommandSurface.HandleCommand` | cli/src/app.rs:372-411 | what each command does, reported lawfully |
| `CommandSurfaces.CommandSurface.ApplyPlain` | cli/src/app.rs:385-409 | the commands that start nothing |
| `CommandSurfaces.CommandSurface.Poll` | cli/src/app.rs:413-421 | output shown once, reported lawfully; afterwards nothing that could start is left |
| `CommandSurfaces.CommandSurface.EffectCompleted` | cli/src/app.rs:423-442 | what each outcome does, reported lawfully; after a failure the line is off the queue, the failure is said, and an external next line is started |
| `CommandSurfaces.CommandSurface.Absorb` | cli/src/app.rs:429-440 | what each outcome does to child, queue, failure flag and transcript before anything new starts |
| `CommandSurfaces.CommandSurface.NotLaunched` | cli/src/app.rs:432-440 | which failure is said, and that the line of the started command leaves the queue |
| `CommandSurfaces.CommandSurface.constructor` | cli/src/command.rs:263-299 | a fresh surface |
| `CommandSurfaces.CommandSurface.Restore` | cli/src/command.rs:394-437 | restoring gives the stored state back if and only if a started command is one a worker can be asked about; a lost command is reported and its line leaves the queue |
| `CommandSurfaces.RepeatsAreHidden` | cli/src/command.rs:843-857 | two polls show what one poll of all their lines would show |
| `CommandSurfaces.ExpandIs` | cli/src/command.rs:694-704 | however a line is spaced: an alias runs its text and, behind one space, the arguments; a line whose first word is no alias runs as it is |
| `CommandSurfaces.ExpandPlain` | cli/src/command.rs:694-704 | a bare alias runs its text, an alias with arguments its text with them |
| `CommandSurfaces.SubmitRuns` | cli/src/app.rs:389-392 | what an idle shell runs for a submitted line that is not its own: the alias text and the arguments, or the line, behind the exports exactly when the environment is not empty, in the current directory |
| `CommandSurfaces.TablesChange` | cli/src/command.rs:590-764 | adding, aliasing and exporting set exactly the named entry to the text, unquoted where the word says so; removing and unsetting take exactly it away |
| `CommandSurfaces.CancelTakes` | cli/src/command.rs:661-692 | cancelling by a number removes exactly the line the queue lists under it, and `all` every line |
| `CommandSurfaces.FreshLinesAreShown` | cli/src/command.rs:843-857 | lines that bring nothing old are all shown, in order, and the newest number is remembered |
| `CommandSurfaces.RememberIs` | cli/src/command.rs:358-364 | an accepted line is the newest of the history, is not kept twice in a row, and only the oldest are forgotten |
| `CommandSurfaces.OldLinesShowNothing` | cli/src/command.rs:844-848 | a replay of lines that were shown before shows nothing |
| `Texts.SplitIs` | cli/src/command.rs:1823-1833 | a line of a word and arguments is split into them, however they are spaced |
| `Texts.TrimIs` | cli/src/command.rs:1824-1830 | trimming takes exactly the space around a text away |
| `Texts.AssignmentIs` | cli/src/command.rs:719-723 | an assignment is split at its first equals sign |
| `Texts.UnquoteIs` | cli/src/command.rs:1843-1852 | one pair of equal quotes is taken away, and nothing else is |
| `Texts.IndexForms` | cli/src/command.rs:675-678 | a plus sign before a queue number does not matter, and what is no number or too large is not read as one |
| `Texts.DecimalRoundTrip` | cli/src/command.rs:675-684 | a printed queue number is read back as itself |
| `Workers.FittingIsLongest` | cli/src/worker.rs:431-448 | the retained spool is the longest suffix within the byte limit |
| `Workers.FittingAppend` | cli/src/worker.rs:402-420 | pruning as events arrive keeps what pruning all of them at the end would keep |
| `Workers.ReplayContinues` | cli/src/worker.rs:684-700 | a replay numbers on from just after the reader's position, or from the first retained number with the gap announced, up to the newest |
| `Workers.LiveContinues` | cli/src/worker.rs:417-418 | live delivery continues it without a break |
| `Workers.MissingHas` | cli/src/worker.rs:694-700 | a retained event is replayed if and only if it has no number or is newer than the reader |
| `Workers.MissingSnoc` | cli/src/worker.rs:694-700 | events are replayed in the order they were retained |
| `Workers.TakersAreGiven` | cli/src/worker.rs:417-418 | every subscriber whose queue takes an event is given it, unless its stream had ended, and nobody else stays |
| `Workers.DispatchMayBeCutShort` | cli/src/worker.rs:668-682 | dying between emptying the spool and storing the command, or right after, leaves files from which nothing is started twice |
| `Workers.Restart` | cli/src/worker.rs:364-382 | from the files of any worker, wherever it died: nothing starts a second time, no command is active, nobody is subscribed, and the last command goes on without a break when its spool reaches the stored counter |
| `Workers.ServeAfterRestart` | cli/src/worker.rs:629-721 | the first command accepted after a restart, whatever the last life left behind, is streamed without a break from its first number |
| `Workers.RuntimeState.EnforceOutputLimit` | cli/src/worker.rs:431-448 | keeps exactly the longest suffix that fits, with its exact size |
| `Workers.RuntimeState.Append` | cli/src/worker.rs:402-420 | spool file, retained events and subscribers after one event |
| `Workers.RuntimeState.NextSequence` | cli/src/worker.rs:450-456 | the command's next number |
| `Workers.RuntimeState.Persist` | cli/src/worker.rs:384-390 | the state file holds the state |
| `Workers.RuntimeState.RecordOutput` | cli/src/worker.rs:943-962 | one more numbered chunk; spool and streams stay contiguous |
| `Workers.RuntimeState.Finish` | cli/src/worker.rs:458-468 | the command is done, stored, and every stream that takes it ends |
| `Workers.RuntimeState.Abandon` | cli/src/worker.rs:964-984 | says why and completes |
| `Workers.RuntimeState.Serve` | cli/src/worker.rs:629-721 | a request with the id, text and directory of the stored command is always given what it is missing, subscribed while the command is active, and changes nothing else; a request is refused as reused if and only if its id is the stored one and text or directory differ, as busy if and only if another command is active, as retired if and only if none is and its number is not new, and a refusal changes nothing; replay and subscription are one step, a new command is accepted only when none is active and its number is new, and its streams have no break once earlier subscribers have ended |
| `Workers.RuntimeState.Join` | cli/src/worker.rs:684-715 | what the reader is missing, and a place among the subscribers, from which only the oldest is let go when there are too many |
| `Workers.RuntimeState.SpawnActive` | cli/src/worker.rs:745-872 | an identity is on disk before it runs, and runs once |
| `Workers.RuntimeState.Load` | cli/src/worker.rs:364-382 | a new life holds what the files hold, however large the spool; its streams have no break exactly when the spool runs to the stored counter |
| `Workers.RuntimeState.RecoverIncompleteCommand` | cli/src/worker.rs:964-984 | a command the last life left unfinished is completed, not run; a rejoining reader is given the completion exactly when its position is at most the stored counter |
| `JournalFiles.LoadsCompleteRecords` | src/resident/journal.rs:149-178 | complete lines followed by a strict prefix of one more load as exactly the complete records |
| `JournalFiles.AppendIsAtomic` | src/resident/journal.rs:242-256 | however far an append got, the next load finds the old records, and the new one exactly if its line is complete |
| `JournalFiles.CompleteParses` | src/resident/journal.rs:164-170 | a torn tail neither adds a record nor spoils the file |
| `JournalFiles.AppendAndLoad` | src/resident/journal.rs:126-178 | appending to any file that loads and loading again gives the old records and the new one |
| `JournalFiles.JournalFile.Load` | src/resident/journal.rs:149-178 | the records of the complete lines, or the number of the first bad line |
| `JournalFiles.JournalFile.TruncateTornTail` | src/resident/journal.rs:258-286 | the block-wise backward scan cuts exactly after the last line break, for every length |
| `JournalFiles.JournalFile.Append` | src/resident/journal.rs:101-146 | repairs the tail, then adds one line |
| `Framing.FramesRoundTrip` | src/resident/framing.rs:47-91 | payloads within the limit, followed by part of one more frame, decode to exactly those payloads and leave exactly that part |
| `Framing.Transport` | src/resident/framing.rs:65-91 | the same through any split into chunks |
| `Framing.ReadAll` | src/resident/framing.rs:65-91 | what is decoded and what stays buffered depends on the bytes alone |
| `Framing.MoreBytes` | src/resident/framing.rs:65-91 | more bytes never change the frames that are already complete |
| `Framing.SizeOfHeader` | src/resident/framing.rs:47-58 | the four header bytes are the size, big end first |
| `Framing.OversizedIsRefused` | src/resident/framing.rs:76-91 | a header that announces more than the limit is refused as soon as it is there |
| `Framing.FrameDecoder.NextPayload` | src/resident/framing.rs:76-91 | the next frame, a partial one, or one that is too large |
| `Framing.FrameDecoder.Push` | src/resident/framing.rs:67-69 | bytes are appended |
| `TabRange.VisibleTabRange` | src/render.rs:255-299 | below the largest cell count: a window with the active tab that fits and is best by tab count, then occupied cells, then balance, then start, over all fitting windows; the active tab alone exactly when none fits; at the largest cell count all tabs are shown, which is the best window exactly when the true width is at most 65535 |
| `TabRange.ImbalanceIs` | src/render.rs:288-290 | the balance of a window counts nothing but the difference between the tabs left and right of the active one |
| `TabRange.WidthJoins` | src/render.rs:275-280 | two neighbouring stretches of tabs are one cell apart |
| `TabRange.SaturationShowsTooMuch` | src/render.rs:260-266 | a row too wide for 65535 cells whose saturated total counts as fitting, though only a smaller window fits |
| `TabRange.FullWidth` | src/render.rs:260-266 | all widths with separators, saturating |
| `TabRange.Exact` | src/render.rs:282-287 | saturation never decides a comparison below the largest cell count |
| `Shells.Shell.constructor` | src/shell.rs:434-452 | an empty shell; afterwards the shell is empty exactly when nothing is active and exactly the active surface was last told to focus |
| `Shells.Shell.AddSurface` | src/shell.rs:476-492 | a new identity at the end, active, the only one told to focus; afterwards the shell is empty exactly when nothing is active and exactly the active surface was last told to focus |
| `Shells.Shell.SelectIndex` | src/shell.rs:1338-1348 | moves focus if the index is open; afterwards the shell is empty exactly when nothing is active and exactly the active surface was last told to focus |
| `Shells.Shell.SelectKey` | src/shell.rs:1350-1363 | the first surface with the key; afterwards the shell is empty exactly when nothing is active and exactly the active surface was last told to focus |
| `Shells.Shell.RemoveIndex` | src/shell.rs:1285-1316 | removes one surface; the right neighbour, or the last, takes over; afterwards the shell is empty exactly when nothing is active and exactly the active surface was last told to focus |
| `Shells.Shell.CloseActive` | src/shell.rs:1278-1283 | closes exactly the active one; its right neighbour, or the last, takes over; afterwards the shell is empty exactly when nothing is active and exactly the active surface was last told to focus |
| `Shells.Shell.ApplySurfaceAction` | src/shell.rs:993-1041 | what each request of a surface does to the list and to the active surface; opening an open key focuses it; afterwards the shell is empty exactly when nothing is active and exactly the active surface was last told to focus |
| `Shells.Shell.CloseAll` | src/shell.rs:1083-1085 | exactly the surfaces that did not ask stay, in order; the active one is the nearest that stays to the right, else the last; afterwards the shell is empty exactly when nothing is active and exactly the active surface was last told to focus |
| `Shells.Shell.DispatchToAll` | src/shell.rs:1051-1108 | the surfaces that did not close, in order, then the opened ones, in order; the last one opened is active, else the one that remains nearest, unless a focus request names an open surface: the last such request decides; afterwards the shell is empty exactly when nothing is active and exactly the active surface was last told to focus |
| `Shells.Shell.OpenAll` | src/shell.rs:1086-1088 | the opened surfaces at the end, in order, the last one active; afterwards the shell is empty exactly when nothing is active and exactly the active surface was last told to focus |
| `Shells.Shell.FocusOn` | src/shell.rs:1089-1091 | one focus request moves to the first surface with its key, if there is one; afterwards the shell is empty exactly when nothing is active and exactly the active surface was last told to focus |
| `Shells.Shell.FocusAll` | src/shell.rs:1089-1091 | the last focus request that names an open surface decides, and the list stays; afterwards the shell is empty exactly when nothing is active and exactly the active surface was last told to focus |
| `Shells.Shell.PollBackground` | src/shell.rs:974-991 | the first ready surface from the cursor on |
| `Shells.NobodyStarves` | src/shell.rs:974-991 | a surface that stays ready is served within as many polls as it has surfaces ahead plus one, at most one round |
| `Shells.PassedOverMovesUp` | src/shell.rs:974-991 | a ready surface that is passed over comes strictly nearer to its turn |

## Left out

- Append and checkpoint writes that fail while the host keeps running: an append either reaches the disk or ends the leader.
- Storage of host versions 0 and 1, the root checkpoint import, the manifest, and recovery from a manifest when a checkpoint is damaged.
- JSON, CRC-32, UUIDs and version comparison: encodings are an injective function into lines without a line break, and new identities are new.
- Sockets, files, permissions, process spawning and signalling, election and supervision.
- Saturation of 64-bit and 32-bit counters: numbers are unbounded, except cells in `TabRange.dfy`, the stored deadline and the parsed queue number.
- The periodic tick that polls every session: it is a sequence of single polls.
- The cache of open journal writers: every append opens, repairs and writes the file.
- Status, list, ping and version requests, stopping and replacing the leader apart from its checkpoints, and the notice that closes client queues.
- Selecting a session by name when attaching, and session summaries in answers apart from name and sequence.
- A reconnect whose handshake fails: it changes nothing.
- The buffering reconnect and the pending-message overflow of a buffered send, which can drop pushes; delivery is stated for the streaming path.
- The order of driver notices under nested disconnects: every subscriber is told, but an older notice may come after a newer one.
- A second attach request for one session on one connection, which may replay events still under way on it.
- Memory orderings weaker than sequential consistency in the wake protocol.
- Input editing in the command surface: the input line, scrollback, bindings and the local, non-resident way of running commands.
- Which queue entry a launched command belongs to when several lines are equal: entries are matched by text, as in the code.
- Versions of shell events that carry a whole state instead of a recovery record.
- Worker authentication, process groups, interrupts and the completion code they override, and the split of output into lines and chunks.
- Workers.RuntimeState.RecoverIncompleteCommand: does not claim contiguous numbers for a command whose worker died, because the counter is stored only at dispatch and at the end of a command.
- A torn frame at the end of a worker's spool file.
- Compacting a journal, and checkpoints as files.
- Rendering, themes, dashboards, key bindings, palette search, settings, and the backwards wrap of screen selection.
- Redraw flags and notices of the shell, and reconfiguring surfaces.
