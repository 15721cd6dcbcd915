# Certificate rotation on the reference device: a verification project

A device in this system rotates its own TLS credential on command. The service publishes a command
on the device's MQTT topic, the broker's plugin checks and signs it, the device agent verifies the
signature, installs the named credential durably, acknowledges, reconnects with the new credential
and only then reports the certificate. Everything must survive a crash between any two file-system
steps, a lost connection at any moment, redelivery of any command and any order of the broker's
answers. This project models that path and proves what it is meant to guarantee.

    dafny verify dfyconfig.toml

## How it is organised

| file | what it holds |
|---|---|
| Bytes, Identities | machine integers, byte strings, identities and topics in ideal form |
| Rotation | the durable state, its `verify` predicate and every transition, on values |
| Verified | what `verify` accepts, on the fields of the state |
| RotationInvariant | the inductive strengthening of `verify`; for each transition, exactly when its result validates |
| Operations, Answers | every outcome of every public call, from any state the invariant allows; what each call records and leaves alone |
| Runs, PhaseOrder, Drain, Conservation | properties of whole histories of calls |
| FileSystem, CrashStore, CrashRuns | the store as small file-system steps; process stops and power losses between any two; runs over them |
| Durability, Numbers, Losses | what is done for good across stops and power losses, and exactly when, for answers and for sequence numbers; what can be lost, as a history |
| DurableState, StateStore, DeviceAgent | the state, the store and the agent as objects updated in place, proved against Rotation and FileSystem |
| Driver, DriverSafety, DriverRuns | session driver, packet correlation and broker, and what all their runs keep |
| DriverBranches, DriverExit, Strandings | each handler on the fields; when the session leaves for the new credential, that it does, and the one way it does not |
| SessionDriver | driver and transport as objects, proved against Driver |
| DeviceRuns | driver, agent and broker over a store that may be cut off at any step |
| Utf8, Topics, Base64, CanonicalFrame | the C side and the Rust side of each shared format |
| BrokerPath, BrokerAgreement, BrokerBranches, Assumptions | what the plugin passes and what the agent accepts; what soundness assumes of a signature, and that it can be met |
| Preimages, Fingerprints, Catalog | the hashed byte strings, the identifiers they stand for, and what the artifact catalog resolves |
| Histories | concrete histories in which the code does not do what is wanted of it |

The state machine appears twice. `Rotation` and `Driver` describe each transition as a function, so
that histories can be quantified over. `DurableState`, `DeviceAgent` and `SessionDriver` are the
code's own form (fields, loops, clone-change-validate-write-swap), and each method's contract says
it performs the function of the same step; `DeviceAgent.PerformedIsAttempt` makes every call of the
object a step of the runs over the store. `DeviceRuns.DeviceRunKeeps` covers the whole device, with
connections failing, processes stopping and power failing anywhere.

A power loss can take the device back. What runs is always what some of the calls made, in order, lead
to (`CrashRuns.Traced`), so results about one state hold at every moment; results that compare two
moments of one history need that nothing between them was taken back. The notion they need is a pinned
moment: nothing but the running state can come back. A completed call is pinned exactly when it wrote
or found no other manifest left (`Durability.CompletionPinsExactly`). It writes exactly when it changed
the state, or is a confirmation, reconnect or settlement that succeeded (`FileSystem.WritesFit`).
From a pinned moment on no coordinate falls, queued answers stay until confirmed, unexpired entries
stay, a handed-out sequence number keeps its fact, and facts conform; completed acceptances increase
from the first start on (`Durability`, and over sessions `DeviceRuns`).

`verify` alone is not preserved by the operations. The invariant that is (`RotationInvariant.Inv`)
adds who owns each sequence number, which journal entry a queued acknowledgement answers, and that
the journal entry of the rotation in flight records exactly what the report announces.

## What the proofs brought to light

- **A commit over an unsynced directory is not atomic.** If the process stops between the rename of
  a revision directory and the sync that follows, the next `install_revision` of that revision finds
  the directory and returns without the sync. The manifest written next is durable, the directory is
  not, and a power loss before the next installation leaves a device that cannot start
  (`CrashStore.StopThenLossFails`). `CrashStore.CommitIsAtomic` gives the exact condition, and
  `CrashRuns.RunsStayRecoverable` that nothing else breaks recovery; safety does not depend on it.
- **A refused commit leaves its directory behind.** The installation comes before the validation, so
  a command that fails validation leaves an orphan without any interruption
  (`CrashStore.RefusedLeavesOrphan`, and from the initial state `CrashStore.RefusedHistory`); a process
  stop leaves one exactly between the two renames (`CrashStore.StopLeavesOrphan`). Either way that
  revision can only be installed again with the same files (`CrashStore.OrphanPinsMaterial`).
- **A leftover makes a fresh answer impossible.** When a command's journal entry has expired but its
  acknowledgement is still queued, or its entry is kept because its delivery is pending, a redelivery
  is answered with `InvalidState` instead of a rejection. `Operations.LeftoverAnswerRefused` and
  `Histories.PendingLeftoverRefused` show both from the initial state;
  `Operations.InvalidStateExactly` gives the exact condition. The only other source of
  `InvalidState`, with clock and counters in range, is confirming a blocked report.
- **The clock is clamped on one side only.** `observed_at` is clamped to `i64::MAX` while
  `command_match` compares with the raw time (agent.rs:134-140). Past that time an entry is expired
  when it is written, and the same delivery is refused (`Histories.ClampedEntryIsExpired`);
  `Operations.AnswerIsQueued` states exactly when an entry is still live.
- **A redelivery can be settled over another payload's rejection.** Any queued acknowledgement of the
  command id counts as an answer, so a redelivered command may be acknowledged to the broker while
  only the rejection of a conflicting payload is queued (`Operations.OwnAnswerExactly`).
- **A session can be left waiting for nothing.** With the journal full, a redelivery that arrives after the
  unsubscription is held behind a second one for want of room. If the activating acknowledgement is confirmed
  before that UNSUBACK, the session is ready to leave, but the UNSUBACK only releases the delivery and its
  PUBACK carries no token: the session stays connected, publishes nothing and never reconnects with the new
  credential (main.rs:292-299 and 324-335). `DriverExit.ConfirmationStrandsExactly` gives the exact condition,
  `DriverExit.ReadyLeaves` that every other session ready to leave does leave, `DriverExit.StrandedForGood`
  that a stranded one waits for another delivery, a shutdown or a transport failure, and
  `Strandings.StrandedHistory` a run from the start that gets there.
- **A settled answer can be lost.** A call cut between the rename of the manifest and the sync runs on
  in memory after a process stop. A redelivery is then answered as a duplicate without writing
  (agent.rs:136-149), its PUBACK is sent, and a power loss brings the old manifest back, without answer
  or journal entry; the next fact takes the sequence number already handed out for another command
  (`Losses.LostAnswerHistory`, from any completed first start, without any unsynced directory).
  `Durability.DurableExactly` and, over all runs that follow, `Durability.AnswerKeptExactly` give the
  exact condition: the call wrote, or every manifest that could come back held the answer already.
  `Numbers.NumberKeptExactly` is the same for the sequence number of a published fact.
- **The first start is not atomic.** If it is interrupted after the first credential directory is
  there and before the manifest is, every later start fails, because a committed revision without a
  manifest is never reset (`CrashStore.BootstrapInterrupted`, `CrashStore.OrphansAreNotReset`). The name
  of `credentials` itself is only synced with the root, at the end of the first manifest write: until
  then a power loss may take all revisions, even under a manifest (`CrashStore.ManifestAlone`).
- **A subscription can be requested during a rotation.** After an UNSUBACK, the confirmation of an
  older acknowledgement re-subscribes without asking whether a rotation is in flight
  (`DriverRuns.SubscribesDuringRotation`; a run from the start that gets there is
  `Histories.SubscribesDuringRotationHistory`). A new command delivered then is an agent error, which
  `main` does not retry: it ends the session and with it the process (main.rs:72,
  `DriverRuns.FreshCommandDuringRotation`). Durable state is not affected.
- Saturating counters are modelled as written; the invariant holds at saturation too, and the exact
  outcomes say which calls are refused there.

## Model

| member | source | states |
|---|---|---|
| RotationInvariant.ExpireKeepsInvariant | crates/reference-device-agent-core/src/state.rs:457-466 | expiring the journal at any time keeps the invariant, because the pending command's entry is kept |
| RotationInvariant.RejectExact | crates/reference-device-agent-core/src/state.rs:577-609 | a rejection validates if and only if no answer or entry of that command is left and the sequence is not exhausted; then the invariant holds again |
| RotationInvariant.ConflictExact | crates/reference-device-agent-core/src/state.rs:611-637 | a conflicting replay's answer validates exactly unless the saturated sequence number is already queued |
| RotationInvariant.ReplayExact | crates/reference-device-agent-core/src/state.rs:653-674 | repeating a journalled answer keeps sequence numbers apart, exactly unless two answers share the saturated number |
| RotationInvariant.AcceptExact | crates/reference-device-agent-core/src/state.rs:491-575 | an acceptance validates if and only if the counters have room, the expiry is positive and the command left nothing behind |
| RotationInvariant.OneActivation | crates/reference-device-agent-core/src/state.rs:346-388 | at most one queued acknowledgement activates a revision, though `verify` does not count them |
| RotationInvariant.ConfirmExact | crates/reference-device-agent-core/src/state.rs:691-721 | a confirmation commits if and only if the entry is one that may be handed out; a blocked report is always refused by validation |
| RotationInvariant.ReconnectExact | crates/reference-device-agent-core/src/state.rs:723-734 | a reconnect succeeds exactly for the awaited revision and keeps the invariant |
| RotationInvariant.SettleExact | crates/reference-device-agent-core/src/state.rs:736-747 | a settlement succeeds exactly for the pending delivery, by its token or without one |
| Verified.VerifiesExactly | crates/reference-device-agent-core/src/state.rs:258-390 | `verify` accepts exactly the states sound in every respect: coordinates, each entry, one report at most, the pending delivery, and the order of a rotation's phases |
| Operations.InitialInvariant | crates/reference-device-agent-core/src/state.rs:233-255 | the initial state satisfies the strengthened invariant |
| Operations.CapacityExact | crates/reference-device-agent-core/src/state.rs:474-483 | the journal has capacity at a time if and only if expiring it at that time leaves room |
| Operations.RejectionExact | crates/reference-device-agent-core/src/agent.rs:490-551 | which of full outbox, full journal, leftover or recorded rejection a refusal ends in |
| Operations.ReplayKnownExact | crates/reference-device-agent-core/src/agent.rs:136-149 | redelivery of a journalled command changes at most the outbox, by its own recorded answer, and only when none is queued |
| Operations.RefuseConflictExact | crates/reference-device-agent-core/src/agent.rs:150-167 | the outcome of a reused command id with another payload, in every case |
| Operations.CommitExact | crates/reference-device-agent-core/src/agent.rs:460-488 | exactly when an installable command is accepted, and why it is refused otherwise |
| Operations.DeliverExact | crates/reference-device-agent-core/src/agent.rs:128-228 | the outcome of a decoded command on every branch, one clause for each reason in the order of the checks, on the fields of command, catalog answer and state |
| Operations.MalformedExact | crates/reference-device-agent-core/src/agent.rs:235-276 | the outcome of an undecodable delivery on every branch |
| Operations.NextKeepsInvariant | crates/reference-device-agent-core/src/agent.rs:514-519 | every public call, allowed or refused, leaves a state the invariant accepts |
| Operations.InvalidStateExactly | crates/reference-device-agent-core/src/agent.rs:514-519 | with clock and counters in range, validation fails if and only if a recordable command left something behind or a blocked report is confirmed |
| Operations.LeftoverAnswerRefused | crates/reference-device-agent-core/src/state.rs:275-311 | a concrete history in which a redelivered command is refused as invalid state |
| Operations.AdmissionSound | crates/reference-device-agent-core/src/agent.rs:318-321 | with intake open, no delivery on any branch is refused for a full outbox or journal |
| Operations.AnswerIsQueued | crates/reference-device-agent-core/src/agent.rs:128-276 | in the state it leaves, a delivery that is not refused has a queued acknowledgement for its id, and an unexpired entry exactly when its deadline lies ahead; when that state is on the disk for good is AnswerKeptExactly of Durability |
| Operations.OwnAnswerExactly | crates/reference-device-agent-core/src/agent.rs:136-167 | the queued acknowledgement is the command's own answer if and only if one was queued before, the command was new, or it was replayed |
| Answers.RejectionRecorded | crates/reference-device-agent-core/src/state.rs:577-609 | the reason a rejection reports is the one it queues and journals, with the command's coordinates (the state's, for an undecodable delivery), the next number and the clamped time; nothing else changes |
| Answers.ConflictRecorded | crates/reference-device-agent-core/src/state.rs:611-637 | a conflicting payload is answered as malformed under an event id of its own, with its coordinates, and the journal is left alone |
| Answers.AcceptanceRecorded | crates/reference-device-agent-core/src/state.rs:491-575 | the whole state an acceptance leaves: coordinates, answer, report, pending delivery and journal entry, field by field |
| Answers.ReplayRecorded | crates/reference-device-agent-core/src/state.rs:653-674 | a redelivery queues exactly the recorded answer, no longer activating, unless an answer of its id is queued |
| Answers.ConfirmationRecorded | crates/reference-device-agent-core/src/state.rs:691-721 | a confirmed entry leaves the outbox in place; an activating one makes its revision awaited, a report ends the rotation |
| Answers.ReconnectRecorded | crates/reference-device-agent-core/src/state.rs:723-734 | a reconnect releases the blocked report as it stands and nothing else |
| Answers.SettlementRecorded | crates/reference-device-agent-core/src/state.rs:736-747 | a settlement marks the pending delivery, named by its token or not at all, and nothing else |
| Answers.ExpiryKeepsOrder | crates/reference-device-agent-core/src/state.rs:457-466 | expiry keeps the order of the entries it keeps |
| Histories.ClampedEntryIsExpired | crates/reference-device-agent-core/src/agent.rs:134-140 | past the clamp, an entry is expired when written and the same delivery at the same time is refused |
| Histories.PendingLeftoverRefused | crates/reference-device-agent-core/src/state.rs:457-466 | an accepted and confirmed command, whose expired entry is kept as pending, makes a malformed redelivery fail as invalid state |
| Runs.RunKeepsInvariant | crates/reference-device-agent-core/src/state.rs:257-390 | every state reached by any sequence of calls satisfies the invariant, hence `verify` |
| Runs.RunTracksGrants | crates/reference-device-agent-core/src/state.rs:491-575 | over any run the installed position is the last acceptance; generations strictly grow, the fence never falls, the revision grows by one |
| Runs.InstalledAtMostOnce | crates/reference-device-agent-core/src/agent.rs:200-227 | two acceptances of one run never install the same generation or the same command, even after its journal entry expired |
| Runs.FactsConform | journeys/secure-device-rotation/src/lib.rs:82-118 | any received answer and any report of the same generation handed out in a run meet the consumer's device-side conditions, replays included |
| Runs.EntryEndures | crates/reference-device-agent-core/src/state.rs:457-466 | an unexpired journal entry survives every interleaving of calls unchanged |
| Runs.ReplayIsIdempotent | crates/reference-device-agent-core/src/agent.rs:136-149 | after any run within its retention, redelivery adds at most one entry and every queued answer repeats the recorded fact and event id |
| PhaseOrder.ReportOnlyAfterItsPhases | crates/reference-device-agent-core/src/state.rs:676-734 | a report handed out has, in its history and in order, its acceptance, the confirmation of its activating acknowledgement and the reconnect of its revision, and its settlement after the acceptance |
| Drain.SomethingProgresses | crates/reference-device-agent-core/src/state.rs:343-388 | with anything queued, some confirmation, reconnect or settlement succeeds |
| Drain.ProgressFalls | crates/reference-device-agent-core/src/state.rs:676-747 | every effective call shrinks the remaining work |
| Drain.Drains | crates/reference-device-agent-core/src/state.rs:676-747 | from any reachable state a bounded number of broker answers empties the outbox and ends the rotation |
| Drain.EveryDrainEnds | crates/reference-device-agent-core/src/state.rs:676-747 | in whatever order, effective calls number at most the initial work, and a run that cannot go on has nothing queued |
| Conservation.OutboxConserved | crates/reference-device-agent-core/src/state.rs:485-489 | over any run the entries pushed are the entries queued plus the entries confirmed, and never more than 128 are queued |
| Conservation.OutboxKeepsPushOrder | crates/reference-device-agent-core/src/state.rs:691-721 | the queued entries stand in the order they were pushed |
| Conservation.OldestIsHandedOut | crates/reference-device-agent-core/src/state.rs:676-689 | what is handed out is the oldest publishable entry, with no acknowledgement before it |
| CrashStore.RecoversExactly | crates/reference-device-agent-core/src/agent.rs:86-121 | every power loss can be recovered from if and only if every manifest that may come back names a directory that cannot go away and holds its material |
| CrashStore.InstallReached | crates/reference-device-agent-core/src/agent.rs:460-488 | exactly the calls that reach the installation are accepted or fail validation after it |
| CrashStore.CutReopens | crates/reference-device-agent-core/src/state.rs:135-178 | a call cut after any step: a stopped process starts again in the old or new state; after a power loss a state that starts is one the disk could keep or the new one, with its material; no directory changed |
| CrashStore.CompletedServes | crates/reference-device-agent-core/src/state.rs:135-142 | a completed call leaves its result running over the disk, with its material; if it wrote, no other manifest can come back, and if not, exactly those that could before |
| CrashStore.CommitIsAtomic | crates/reference-device-agent-core/src/state.rs:144-178 | a call survives a power loss at every step if and only if it is not an acceptance over a directory whose name was never synced |
| CrashStore.StopThenLossFails | crates/reference-device-agent-core/src/state.rs:149-151 | from any settled disk: a stop after the rename, the same acceptance again, a power loss, and the device cannot start |
| CrashStore.RefusedLeavesOrphan | crates/reference-device-agent-core/src/agent.rs:471-486 | an uninterrupted call leaves a new orphan if and only if it reached the installation and was refused by validation, and when that is |
| CrashStore.StopLeavesOrphan | crates/reference-device-agent-core/src/state.rs:158-173 | a stop leaves an orphan exactly between the rename of the directory and the rename of the manifest |
| CrashStore.OrphanPinsMaterial | crates/reference-device-agent-core/src/state.rs:1099-1107 | over an orphan the revision installs again with exactly the same files and conflicts with any other |
| CrashStore.RefusedHistory | crates/reference-device-agent-core/src/agent.rs:189-199 | a history from the initial state, without interruption, that leaves an orphan behind a refused command |
| CrashStore.BootstrapInterrupted | crates/reference-device-agent-core/src/state.rs:107-133 | which interruptions of the first start can be repeated, which leave the device unable to start, the loss of the whole credentials directory included, and that a completed one is recoverable |
| CrashStore.ManifestAlone | crates/reference-device-agent-core/src/state.rs:107-142 | until the root is synced, a power loss can leave the first manifest without any credential directory, and the device unable to start |
| CrashStore.OrphansAreNotReset | crates/reference-device-agent-core/src/state.rs:124-126 | however often the device is started and interrupted, a directory without a manifest keeps its contents and every start fails |
| CrashRuns.CrashesRefineRuns | crates/reference-device-agent-core/src/agent.rs:86-121 | over any calls, stops and power losses, orphans or not, what runs and what may come back is what some of the calls made lead to, in order, from a state that could come back at the start (from a pinned one: the state that ran), with its material installed |
| CrashRuns.RunsStayRecoverable | crates/reference-device-agent-core/src/state.rs:144-178 | a run without an acceptance over an unsynced directory can be recovered from a power loss at every moment |
| Durability.CompletionPinsExactly | crates/reference-device-agent-core/src/state.rs:135-142 | after a completed call nothing but its result can come back if and only if it wrote or found nothing else that could |
| Durability.DurableExactly | crates/reference-device-agent-core/src/agent.rs:136-149 | every power loss after a completed call is recovered from in the state the call left if and only if it wrote or found nothing else that could come back |
| Durability.KeptExactly | crates/reference-device-agent-core/src/state.rs:691-721 | an acknowledgement is queued or confirmed at every later moment of every run if and only if every state that may come back has it queued |
| Durability.AnswerKeptExactly | crates/reference-device-agent-core/src/agent.rs:128-276 | the acknowledgement a completed call leaves is kept for good, in every run that follows, if and only if the call wrote or every manifest that could come back had it queued |
| Durability.QueuedUntilConfirmed | crates/reference-device-agent-core/src/state.rs:691-721 | from a pinned moment on, a queued acknowledgement is queued at every later restart until the broker confirmed it |
| Durability.AnswerSurvives | crates/reference-device-agent-core/src/agent.rs:128-276 | the answer of a completed delivery, once pinned, is queued at every later restart until the broker confirmed it |
| Durability.EntrySurvives | crates/reference-device-agent-core/src/state.rs:457-466 | from a pinned moment on, an unexpired journal entry is there after every stop, loss and restart |
| Durability.NeverFallsBelow | crates/reference-device-agent-core/src/agent.rs:200-227 | no restart after a pinned moment falls below it in generation, fence, revision, credential generation or sequence |
| Durability.AcceptancesIncrease | crates/reference-device-agent-core/src/agent.rs:200-227 | across stops and power losses, completed acceptances ask for strictly increasing generations and never a lower fence, and no later moment falls below one |
| Durability.PublishedFactsStayUnique | crates/reference-device-agent-core/src/state.rs:676-689 | the sequence number of a fact handed out at a pinned moment never stands for another fact, whatever is cut or lost afterwards |
| Durability.FactsConformAcrossRestarts | journeys/secure-device-rotation/src/lib.rs:82-118 | a received answer and a report of the same generation, handed out at two moments of which the earlier is pinned, meet the consumer's device-side conditions across stops and losses |
| Durability.PhasesSurvive | crates/reference-device-agent-core/src/state.rs:676-734 | a report handed out after any stops and losses has its acceptance, confirmation, reconnect and settlement among the calls of the run, in order |
| Numbers.NumberKeptExactly | crates/reference-device-agent-core/src/state.rs:676-689 | below saturation, a sequence number is handed out for its fact alone in every run that follows if and only if every state that may come back has it reserved for that fact; otherwise a run that hands it out for another fact is constructed |
| Numbers.FactKeptExactly | crates/reference-device-agent-core/src/agent.rs:128-276 | the number of an entry a completed call leaves queued is kept for good if and only if the call wrote or every manifest that could come back had reserved it |
| Numbers.HandsOut | crates/reference-device-agent-core/src/state.rs:676-734 | from any state the invariant allows, every queued entry can be brought to be handed out, by broker answers alone |
| Losses.LostAnswerHistory | crates/reference-device-agent-core/src/agent.rs:136-149 | from a completed first start: a duplicate answered from a manifest not yet synced is lost with its journal entry, and the sequence number it was handed out with is used for another command |
| DurableState.StateV1.VerifyAgainst | crates/reference-device-agent-core/src/state.rs:258-390 | the loops over outbox and journal with their growing sets decide exactly the `verify` predicate |
| DurableState.StateV1.VerifyEntries | crates/reference-device-agent-core/src/state.rs:273-306 | the first loop accepts exactly entries valid one by one with pairwise distinct event ids and sequence numbers |
| DurableState.StateV1.CountReports | crates/reference-device-agent-core/src/state.rs:335-345 | the count distinguishes no report, one report and more than one |
| DurableState.StateV1.JournalHasCapacity | crates/reference-device-agent-core/src/state.rs:474-483 | the search decides whether some entry would be expired or room is left |
| DurableState.StateV1.Next | crates/reference-device-agent-core/src/state.rs:676-689 | the search returns the first entry that may be published |
| DurableState.StateV1.ExpireCommandJournal | crates/reference-device-agent-core/src/state.rs:457-466 | the in-place filter performs the expiry transition and nothing else |
| DurableState.StateV1.AcceptCommand | crates/reference-device-agent-core/src/state.rs:491-575 | the field updates amount to the acceptance transition, or to nothing for an invalid identity |
| DurableState.StateV1.RejectCommand | crates/reference-device-agent-core/src/state.rs:577-609 | the updates amount to the rejection transition |
| DurableState.StateV1.RejectConflictingReplay | crates/reference-device-agent-core/src/state.rs:611-637 | the updates amount to the conflict transition |
| DurableState.StateV1.ReplayCommand | crates/reference-device-agent-core/src/state.rs:653-674 | the recorded entry is replayed, or nothing changes when there is none |
| DurableState.StateV1.ConfirmOutbound | crates/reference-device-agent-core/src/state.rs:691-721 | removal and phase update amount to the confirmation transition, or nothing changes |
| DurableState.StateV1.Reconnect | crates/reference-device-agent-core/src/state.rs:723-734 | the loop releases every blocked report in place, exactly for the awaited revision |
| DurableState.StateV1.SettleInbound | crates/reference-device-agent-core/src/state.rs:736-747 | the pending delivery is marked settled, or nothing changes |
| StateStore.Store.InstallRevision | crates/reference-device-agent-core/src/state.rs:144-178 | performs the installation steps until one fails, and may then clear the staging directory; an existing directory is only compared, and other material changes nothing |
| StateStore.Store.PersistManifest | crates/reference-device-agent-core/src/state.rs:135-142 | performs the manifest steps until one fails |
| DeviceAgent.ReferenceDeviceAgent.PersistCandidate | crates/reference-device-agent-core/src/agent.rs:514-519 | an invalid candidate is refused unwritten; a valid one is written step by step and swapped in exactly when every step succeeded |
| DeviceAgent.ReferenceDeviceAgent.ApplyDeviceCommand | crates/reference-device-agent-core/src/agent.rs:128-228 | clone, change, install, validate, write and swap perform the delivery transition and exactly its file-system steps; after a failed step the earlier ones remain and the state is unchanged |
| DeviceAgent.ReferenceDeviceAgent.RejectMalformedDelivery | crates/reference-device-agent-core/src/agent.rs:235-276 | the same for an undecodable delivery |
| DeviceAgent.ReferenceDeviceAgent.CommitRotation | crates/reference-device-agent-core/src/agent.rs:460-488 | the same for an installation: its directory is installed before the candidate is validated, and stays when that fails |
| DeviceAgent.ReferenceDeviceAgent.ConfirmPublished | crates/reference-device-agent-core/src/agent.rs:288-295 | the same for a broker confirmation |
| DeviceAgent.ReferenceDeviceAgent.MarkCurrentCredentialConnected | crates/reference-device-agent-core/src/agent.rs:434-444 | the same for a reconnect |
| DeviceAgent.ReferenceDeviceAgent.PersistInboundSettlement | crates/reference-device-agent-core/src/agent.rs:521-527 | the same for a settlement |
| DeviceAgent.PerformedIsAttempt | crates/reference-device-agent-core/src/agent.rs:86-121 | an answered call of the object is a completed call of the runs over the store, and a failed one followed by a restart is a call cut short |
| DeviceAgent.PerformedKeepsInvariant | crates/reference-device-agent-core/src/agent.rs:514-519 | whatever the store does, a call leaves a state the invariant accepts |
| DriverSafety.HappenKeepsInvariant | apps/reference-device-agent/src/main.rs:188-335 | every event the broker and transport may produce keeps the system invariant: correlation, held delivery, session credential |
| DriverRuns.RunKeepsSystemInvariant | apps/reference-device-agent/src/main.rs:124-147 | in every run of driver, agent and broker, over any number of sessions, the system invariant holds |
| DriverRuns.ReportsOnlyUnderTheirRevision | apps/reference-device-agent/src/main.rs:80-158 | a certificate report is published only in a session opened with exactly the revision it reports, on the report topic of that revision's identity and no other |
| DriverRuns.ReconnectOnlyWhenAllowed | apps/reference-device-agent/src/main.rs:268-335 | the driver leaves to reconnect only with the current revision awaited, the delivery settled and no unsubscribe pending |
| DriverBranches.ConnectionExactly | apps/reference-device-agent/src/main.rs:205-223 | a connection marks the awaited revision, drains a recovered subscription, and otherwise subscribes if and only if there is no shutdown, no rotation and room |
| DriverBranches.DeliveryExactly | apps/reference-device-agent/src/main.rs:225-266 | a delivery is acknowledged at once unless it was accepted, no room is left or the session shuts down, and carries a token exactly if it is the pending one; a refused one ends the session |
| DriverBranches.ConfirmationExactly | apps/reference-device-agent/src/main.rs:268-290 | a confirmation leaves the session if and only if a reconnect is then awaited, the pending delivery is settled and no unsubscription is pending; otherwise exactly what is asked for and remembered |
| DriverBranches.UnsubscriptionExactly | apps/reference-device-agent/src/main.rs:292-322 | an UNSUBACK releases a held delivery; with none it settles one not seen again and leaves if and only if the session is ready to and the delivery is settled |
| DriverBranches.SettlementExactly | apps/reference-device-agent/src/main.rs:324-335 | a written PUBACK settles the pending delivery by its own token, and leaves if and only if the session is ready to and no unsubscription is pending |
| DriverBranches.WritingExactly | apps/reference-device-agent/src/mqtt.rs:323-343 | what writing each kind of request moves between the queues, and that a fact without an awaiting event id, on a packet id still in flight, or an unknown acknowledgement ends the session with the agent unchanged |
| DriverBranches.PublishingExactly | apps/reference-device-agent/src/main.rs:149-158 | exactly when a session may publish, it hands out the oldest publishable fact on the topic of its kind and of the session's identity |
| DriverBranches.ShutdownExactly | apps/reference-device-agent/src/main.rs:179-186 | a shutdown unsubscribes exactly a subscribed session |
| DriverBranches.FactsOnTheirTopics | apps/reference-device-agent/src/main.rs:149-158 | in every run every fact, acknowledgement or report, is published on the topic of its kind and of its session's identity |
| DriverExit.HappenTracks | apps/reference-device-agent/src/main.rs:225-335 | every event keeps track of what is owed: a pending delivery's PUBACK is held or queued, or the recovery will settle it |
| DriverExit.ConfirmationStrandsExactly | apps/reference-device-agent/src/main.rs:268-299 | a confirmation leaves a session that will never leave if and only if it awaits a reconnect while a delivery without a token is held behind the only unsubscription |
| DriverExit.ExpectationStays | apps/reference-device-agent/src/main.rs:188-335 | no event but a confirmation takes away what a session ready to leave waits for |
| DriverExit.ReadyLeaves | apps/reference-device-agent/src/main.rs:268-335 | a session ready to leave that is not stranded is left within a bounded number of writes and broker answers |
| DriverExit.StrandedForGood | apps/reference-device-agent/src/main.rs:292-335 | a stranded session neither leaves nor publishes until another delivery, a shutdown or a transport failure |
| Strandings.StrandedHistory | apps/reference-device-agent/src/main.rs:292-299 | a run of the whole system from its start, without failure, that ends stranded |
| DriverRuns.ConfirmationNeverUnknown | apps/reference-device-agent/src/mqtt.rs:316-332 | every PUBACK names the one event in flight, still queued, and its confirmation commits |
| DriverRuns.DeliveryFindsNothingHeld | apps/reference-device-agent/src/main.rs:252-264 | with Receive Maximum 1 a held delivery is never overwritten |
| DriverRuns.HeldUntilUnsubscribed | apps/reference-device-agent/src/main.rs:292-299 | a held delivery is acknowledged only after an UNSUBACK, with its own token |
| DriverRuns.SubscribesOnlyWhenOpen | apps/reference-device-agent/src/main.rs:205-322 | a subscription is requested only with intake open and no shutdown, and during a rotation only by the confirmation handler |
| DriverRuns.SubscribesDuringRotation | apps/reference-device-agent/src/main.rs:286-288 | the confirmation of an acknowledgement asks for a subscription during a rotation if and only if it is not the activating one, no reconnect is awaited, the session is unsubscribed and not shutting down, and outbox and journal have room once it is confirmed |
| DriverRuns.FreshCommandDuringRotation | apps/reference-device-agent/src/main.rs:233-247 | a command that is no redelivery, arriving during a rotation, is refused by the agent as in flight, which ends the session, and leaves the durable state as it was |
| Histories.SubscribesDuringRotationHistory | apps/reference-device-agent/src/main.rs:286-288 | a run of the system from the start ends with a subscription queued while a rotation is in flight |
| DriverRuns.HappeningIsACall | apps/reference-device-agent/src/main.rs:188-203 | every event makes at most one call of the agent |
| DriverRuns.SystemRunIsAgentRun | apps/reference-device-agent/src/main.rs:124-147 | every run of the system is a run of the agent alone |
| DeviceRuns.DeviceRunKeeps | apps/reference-device-agent/src/main.rs:37-78 | over any sessions, stops, power losses and cut commits, the system invariant holds, and what runs and may come back is what some of the calls made lead to in order, with its material |
| DeviceRuns.AcknowledgementsStay | apps/reference-device-agent/src/main.rs:37-78 | from a pinned device on, a queued acknowledgement stays queued over all sessions until the device called for its confirmation |
| DeviceRuns.NothingIsUndone | apps/reference-device-agent/src/main.rs:37-78 | from a pinned device on, no installed coordinate falls and no sequence number is handed out for another fact |
| DeviceRuns.AnswersAreKept | apps/reference-device-agent/src/main.rs:225-266 | a delivery answered with a change of state has an acknowledgement that outlasts every stop, loss and session until its confirmation |
| DeviceRuns.ReportsSurviveCrashes | apps/reference-device-agent/src/main.rs:80-158 | wherever calls are cut, a report was published only under the revision it reports, on that identity's report topic and no other |
| SessionDriver.SessionDriver.constructor | apps/reference-device-agent/src/main.rs:80-122 | a session opens with the identity, revision and recovery scope current at that moment |
| SessionDriver.SessionDriver.PublishNext | apps/reference-device-agent/src/main.rs:149-158 | queues the next fact, on the topic of its kind and of the session's identity, exactly when the session may publish and the fact can be encoded; one that cannot ends the session, with nothing queued |
| SessionDriver.SessionDriver.OnConnected | apps/reference-device-agent/src/main.rs:205-223 | performs the connection handler, or ends the session on a store failure with the durable state unchanged |
| SessionDriver.SessionDriver.OnCommand | apps/reference-device-agent/src/main.rs:225-266 | performs the delivery handler, whichever way the payload decodes |
| SessionDriver.SessionDriver.OnOutboundAcknowledged | apps/reference-device-agent/src/main.rs:268-290 | performs the confirmation handler |
| SessionDriver.SessionDriver.OnUnsubscribed | apps/reference-device-agent/src/main.rs:292-322 | performs the unsubscribe handler |
| SessionDriver.SessionDriver.OnInboundAcknowledged | apps/reference-device-agent/src/main.rs:324-335 | performs the settlement handler |
| SessionDriver.SessionDriver.StartShutdown | apps/reference-device-agent/src/main.rs:179-186 | starts the shutdown, with an unsubscribe exactly when subscribed |
| SessionDriver.SessionDriver.OnPubAck | apps/reference-device-agent/src/mqtt.rs:316-322 | confirms the event of that packet id and forgets the id, or ends the session for an unknown id |
| SessionDriver.SessionDriver.OnWritten | apps/reference-device-agent/src/mqtt.rs:323-339 | one written request moves the system exactly as the model of the outgoing half of `poll` says |
| Utf8.CanonicalCommandId | deploy/mosquitto/plugin.c:129-183 | the plugin's loop accepts exactly the byte strings the agent accepts: the encodings of 1 to 256 scalar values without a control character |
| Utf8.DecodeExact | apps/reference-device-agent/src/mqtt.rs:356-359 | decoding succeeds exactly on encodings, and re-encoding what was decoded returns the input |
| Utf8.TakeSound | deploy/mosquitto/plugin.c:141-174 | one turn of the loop consumes exactly the encoding of the scalar value it computes |
| Utf8.TakeComplete | deploy/mosquitto/plugin.c:141-174 | every encoded scalar value is taken back, whatever follows |
| Utf8.AcceptedIsNulFree | crates/reference-device-agent-core/src/types.rs:304-314 | an accepted command id is non-empty and holds no NUL, so joining with NUL is unambiguous |
| Topics.CanonicalUuid | deploy/mosquitto/plugin.c:37-54 | the loop accepts exactly the hyphenated prints of the non-nil UUIDs |
| Topics.CanonicalGeneration | deploy/mosquitto/plugin.c:56-72 | the loop and `strtoull` accept exactly the decimal prints of 1 to 2^64-1 |
| Topics.CommandPrincipal | deploy/mosquitto/plugin.c:74-101 | the parser succeeds exactly on command topics printed for valid identities and yields that identity's principal within the buffer |
| Topics.ScanSound | deploy/mosquitto/plugin.c:81-91 | four scanned fields reassemble the scanned topic |
| Topics.ScanComplete | deploy/mosquitto/plugin.c:81-91 | any four fitting fields are scanned back from the topic they form |
| Topics.ParsePrinted | crates/reference-device-agent-core/src/types.rs:138-151 | a UUID is recovered from its print |
| Topics.DecimalOfValue | deploy/mosquitto/plugin.c:68-71 | digits without a leading zero are the decimal print of their value |
| Topics.CommandTopicInjective | crates/reference-device-agent-core/src/types.rs:138-151 | two identities never print the same command topic |
| Topics.UplinkTopicInjective | crates/reference-device-agent-core/src/types.rs:138-151 | neither two identities nor the two kinds of fact share an uplink topic |
| Base64.EncodeSignature | deploy/mosquitto/plugin.c:289-302 | encoding, in-place rewriting and cutting give exactly the unpadded URL-safe text of 86 characters |
| Base64.DecodeUrlText | crates/reference-device-agent-core/src/assertion.rs:96-101 | the agent's decoder inverts that text |
| Base64.GroupIsOneNumber | deploy/mosquitto/plugin.c:289-302 | the four digits written for three bytes are the same number, most significant first |
| CanonicalFrame.AppendToBuffer | deploy/mosquitto/plugin.c:203-223 | writes one length-prefixed field at the cursor exactly when it fits, and otherwise nothing |
| CanonicalFrame.PluginBytes | deploy/mosquitto/plugin.c:248-273 | the buffer is filled exactly to its end, never beyond, with the canonical bytes |
| CanonicalFrame.AgentBytes | crates/reference-device-agent-core/src/assertion.rs:143-164 | the agent computes the same bytes, and fails exactly for a field whose length exceeds 32 bits |
| CanonicalFrame.CapacityExact | deploy/mosquitto/plugin.c:250-251 | the allocated capacity is the length of the canonical bytes |
| CanonicalFrame.CanonicalBytesInjective | crates/reference-device-agent-core/src/assertion.rs:143-157 | the signed bytes determine every signed coordinate |
| BrokerPath.HasReservedProperty | deploy/mosquitto/plugin.c:103-127 | the loop finds a reserved key if and only if there is one, an unreadable property counting as one |
| BrokerPath.ExactCorrelationData | deploy/mosquitto/plugin.c:185-201 | yields a value exactly when there is one correlation property and it is an acceptable command id |
| BrokerPath.OnMessage | deploy/mosquitto/plugin.c:311-360 | which messages are denied, passed unchanged or signed, and the properties a signed one ends with; a fault inside the broker only ever holds a message back |
| BrokerPath.AssertionProperties | crates/reference-device-agent-core/src/assertion.rs:114-141 | the slot-filling loop succeeds exactly when the reserved properties are the three of an assertion, each once, in any order |
| BrokerPath.VerifyCommand | crates/reference-device-agent-core/src/assertion.rs:83-106 | accepts exactly unretained frames asserting the identity's principal with a verifying signature |
| BrokerPath.CommandDelivery | apps/reference-device-agent/src/mqtt.rs:344-395 | which deliveries become commands, and for which identity, on every branch |
| BrokerAgreement.CommandTopicsAreGuarded | deploy/mosquitto/plugin.c:319-336 | nothing reaches a device's command topic unsigned |
| BrokerAgreement.SignedMessageAccepted | deploy/mosquitto/plugin.c:344-359 | every message the plugin signs, whatever other properties it carries, is accepted as its command by the session of its identity and by one recovering exactly this command, as the identity it was signed for |
| BrokerBranches.ContainsExactly | deploy/mosquitto/plugin.c:322-324 | the substring search succeeds if and only if the part occurs |
| BrokerBranches.PassedExactly | deploy/mosquitto/plugin.c:313-324 | a message is passed as it is if and only if it has a client, no reserved property and no downlink segment in its topic |
| BrokerBranches.UplinksPassUnchanged | deploy/mosquitto/plugin.c:322-324 | what any client sends on a device's acknowledgement or report topic, without reserved property, is passed as it is |
| BrokerBranches.OnlyTheServiceSigns | deploy/mosquitto/plugin.c:325-336 | a message is signed if and only if it comes from the service user, unretained at quality of service 1, on some device's command topic, with one acceptable command id and no reserved property |
| BrokerBranches.SignedSpelledOut | deploy/mosquitto/plugin.c:240-302 | the three properties a signed message ends with, and the signed bytes, field by field |
| BrokerBranches.DeliveryScope | apps/reference-device-agent/src/mqtt.rs:360-374 | an accepted delivery is the own identity's on its command topic or the recovered identity's with exactly the recovered command id; any other topic or id is an invalid frame |
| BrokerBranches.VerifiedFrames | crates/reference-device-agent-core/src/assertion.rs:83-141 | a frame is accepted if and only if it is not retained and carries the three properties once each, with the identity's principal and a 64-byte signature over the canonical bytes |
| BrokerBranches.PrintedSpelledOut | crates/reference-device-agent-core/src/types.rs:105-152 | the printed topics and the principal, segment by segment |
| Assumptions.BindingMet | crates/reference-device-agent-core/src/assertion.rs:96-106 | the assumptions about signing and verifying can be met, for the signature of any text |
| BrokerAgreement.AcceptedIsWhatWasSigned | crates/reference-device-agent-core/src/assertion.rs:96-106 | a delivery accepted on the signature made for a message, if that signature verifies for nothing else, has that message's topic, command id, payload digest and identity |
| BrokerAgreement.PrincipalInjective | crates/reference-device-agent-core/src/types.rs:105-112 | two identities never share a principal |
| Preimages.HashArtifact | crates/reference-device-agent-core/src/catalog.rs:113-127 | the loop hashes the domain and each file after its length |
| Preimages.ArtifactPreimageInjective | crates/reference-device-agent-core/src/catalog.rs:113-127 | the hashed bytes determine the three files |
| Preimages.CommandPreimageInjective | crates/reference-device-agent-core/src/agent.rs:560-583 | the hashed bytes determine every fingerprinted field of a command |
| Preimages.MalformedPreimageInjective | crates/reference-device-agent-core/src/agent.rs:585-594 | the hashed bytes determine topic, command id and payload digest of an undecodable delivery |
| Preimages.FingerprintDomainsDisjoint | crates/reference-device-agent-core/src/agent.rs:560-594 | a decoded and an undecodable delivery never hash the same bytes |
| Preimages.EventPreimageInjective | crates/reference-device-agent-core/src/state.rs:1025-1032 | event ids of different kinds or causes hash different bytes |
| Preimages.ConflictSourceInjective | crates/reference-device-agent-core/src/state.rs:620-622 | a conflict's event source determines command id and fingerprint |
| Preimages.TokenSourceInjective | crates/reference-device-agent-core/src/state.rs:1034-1042 | a settlement token's source determines topic, command id and fingerprint |
| Preimages.StatePreimageInjective | crates/reference-device-agent-core/src/state.rs:1044-1062 | a state hash's bytes determine every hashed coordinate |
| Preimages.HashedBytes | crates/reference-device-agent-core/src/agent.rs:560-594 | the bytes hashed for artifacts, commands, undecodable deliveries, events, tokens and states, domain and fields in order |
| Fingerprints.TextsSpelledOut | crates/reference-device-agent-core/src/state.rs:1025-1061 | the hashed texts of a command, of events, of a token and of a state, field by field |
| Fingerprints.FingerprintExact | crates/reference-device-agent-core/src/agent.rs:560-583 | two commands have the same fingerprint if and only if they agree in every field |
| Fingerprints.RedeliveryIsRecognised | crates/reference-device-agent-core/src/agent.rs:134-167 | within its retention, a delivery under a command's id is a replay if and only if it is that command, and a conflict otherwise |
| Fingerprints.UndecodableNeverReplays | crates/reference-device-agent-core/src/agent.rs:560-594 | a decoded and an undecodable delivery never have the same fingerprint |
| Fingerprints.EventTextInjective | crates/reference-device-agent-core/src/state.rs:1025-1032 | the hashed text determines the event id, for causes free of NUL |
| Fingerprints.EventTextsApart | crates/reference-device-agent-core/src/state.rs:273-280 | in every run, no two queued entries are published under the same event id text |
| Fingerprints.TokenTextInjective | crates/reference-device-agent-core/src/state.rs:1034-1042 | the hashed text determines the settlement token |
| Fingerprints.StateTextInjective | crates/reference-device-agent-core/src/state.rs:1044-1062 | the hashed text determines the state hash |
| Catalog.ResolvesExactly | crates/reference-device-agent-core/src/catalog.rs:47-97 | a command resolves if and only if the first entry with its artifact id is live, bound to device and command, hashes to the commanded digest and passes the credential check |
| Catalog.CatalogErrors | crates/reference-device-agent-core/src/catalog.rs:47-68 | a missing, unreadable or unsupported catalog and an unknown id each have their error |
| Catalog.EntryErrors | crates/reference-device-agent-core/src/catalog.rs:69-96 | the checks of the first entry with the id, in their order, and the error of each |
| Catalog.CatalogDecides | crates/reference-device-agent-core/src/agent.rs:596-612 | what the catalog finds decides the reason a new command in scope and in time is turned away with |
| Catalog.AcceptedIsWhatWasCommanded | crates/reference-device-agent-core/src/agent.rs:189-227 | an accepted command arrived in time on the device's own topic, raises both generations without lowering the fence, and installed exactly such an entry, whose digest, generation and expiry the new state records |
| Catalog.DigestNamesOneMaterial | crates/reference-device-agent-core/src/catalog.rs:73-78 | commands with the same digest install the same files, byte for byte, and others do not |

## Left out

- Cryptography: SHA-256 values are represented by the bytes they were computed from, and Preimages proves those byte strings injective; the broker modules take any hash and any signature scheme as functions and name the two assumptions they use: what is signed verifies, in the sizes of SHA-256 and Ed25519, and the signature in question verifies for no other text (`Assumptions.BindingMet`: both can be met). Fingerprints assumes that the digests it compares print differently (`Fingerprints.FaithfulMet`: prints of 64 bytes can).
- X.509 chain, key and name checks (material.rs): an arbitrary function from material, identity and time to an expiry or an error.
- JSON: the manifest is the state it encodes; a torn or unparsable manifest appears only as the temporary file of an interrupted write.
- Opening also checks the installed certificate against the current time; a start that fails because it expired is not part of this model.
- Path walking, permissions and the owner lock: the store is a set of directories with atomic rename and explicit syncing.
- DeviceAgent.ReferenceDeviceAgent.ApplyDeviceCommand: takes the command's fingerprint, the catalog's answer and the material it read as arguments; Fingerprints and Catalog say what they are.
- SessionDriver.SessionDriver.OnCommand: takes the decoded payload as an argument; the wire mapping (wire.rs) is an enumeration of fields against a contract crate outside this repository.
- SessionDriver.SessionDriver.PublishNext: takes as an argument whether the fact can be encoded; the JSON text (wire.rs) is not part of this model, the topic is.
- Driver: a session that ends with an error and the process it ends are not told apart; either way the next session opens from the stored state.
- BrokerPath.OnMessage: a fault inside the broker may turn a message away; which error code it then returns is not told apart.
- Masks and shifts of the source are written as remainders and products.
- Utf8.CanonicalCommandId: `str::from_utf8` is taken to accept exactly the encodings of scalar values, as section 3 of RFC 3629 defines them.
- Driver: retry delays, jitter, keep-alive and the shutdown deadline are real-time behaviour; ending a session for any of these reasons is the transport failing.
- Driver liveness: nothing in the driver re-subscribes when only the journal was full, and no timer does; progress is proved for the agent's state machine.
- apps/rotation-control, crates/rss-device-security-client, crates/rotation-model, scripts and deployment configuration: plumbing and constructors over unseen services, with no state of their own worth an invariant.
