/**
 The agent over its durable state and its store: each public operation copies the state, changes the
 copy, validates it, writes it and only then replaces the state; an installation comes before the
 validation. Which file-system step fails, if any, is the store's business.
 */
module DeviceAgent {
  import opened Bytes
  import opened Identities
  import opened Rotation
  import opened Preimages
  import opened FileSystem
  import opened StateStore
  import opened DurableState
  import RotationInvariant
  import Operations
  import CrashRuns

  datatype Reply = Answered(outcome: Outcome) | StoreFailed

  function Written(step: Step, writes: bool): seq<Action> {
    if writes then PersistActions(step.state) else []
  }

  /**
   The steps of the call are performed in order. With all of them done the call answers and the state
   is replaced; after a failed one the earlier steps remain and the state stays what it was.
   */
  predicate Performs(x: View, before: State, y: View, after: State, prefix: seq<Action>, step: Step, writes: bool, reply: Reply) {
    && WritesFit(before, step, writes)
    && Ran(x, prefix + Written(step, writes), y, !reply.StoreFailed?)
    && (if reply.StoreFailed? then after == before else reply == Answered(step.outcome) && after == step.state)
  }

  lemma WritesNothing(x: View, s: State, outcome: Outcome)
    requires !outcome.Done?
    ensures Performs(x, s, x, s, [], Step(s, outcome), false, Answered(outcome))
  {
    RanNothing(x);
  }

  class ReferenceDeviceAgent {
    var state: StateV1
    const store: Store
    const retention: u64

    /** Every state the agent holds was verified when it was loaded or swapped in. */
    ghost predicate Valid()
      reads this, state
    {
      retention > 0 && Validate(state.View())
    }

    constructor (loaded: StateV1, directory: Store, seconds: u64)
      requires seconds > 0 && Validate(loaded.View())
      ensures Valid() && state == loaded && store == directory && retention == seconds
    {
      state, store, retention := loaded, directory, seconds;
    }

    twostate predicate Did(prefix: seq<Action>, step: Step, writes: bool, reply: Reply)
      reads this, state, store
    {
      Performs(old(store.Seen()), old(state.View()), store.Seen(), state.View(), prefix, step, writes, reply)
    }

    /** `persist_candidate`: validate, write, then swap. */
    method PersistCandidate(candidate: StateV1, outcome: Outcome) returns (reply: Reply, ghost writes: bool)
      requires Valid() && !outcome.Refused? && (outcome.Done? || candidate.View().outbox != state.View().outbox)
      modifies this`state, store
      ensures Valid() && Did([], Persist(old(state.View()), old(candidate.View()), outcome), writes, reply)
    {
      hide Validate, PerformAll, PersistActions;
      WritesNothing(store.Seen(), state.View(), Refused(InvalidState));
      var valid := candidate.ValidateSelf();
      if !valid { return Answered(Refused(InvalidState)), false; }
      var image := candidate.View();
      assert [] + PersistActions(image) == PersistActions(image);
      var persisted := store.PersistManifest(image);
      if !persisted { return StoreFailed, true; }
      state := candidate;
      return Answered(outcome), true;
    }

    method ReplayKnownCommand(commandId: Text, fingerprint: Digest) returns (reply: Reply, ghost writes: bool)
      requires Valid()
      modifies this`state, store
      ensures Valid() && Did([], ReplayKnown(old(state.View()), commandId, fingerprint), writes, reply)
    {
      hide Validate, Performs;
      WritesNothing(store.Seen(), state.View(), Duplicate);
      WritesNothing(store.Seen(), state.View(), Refused(OutboxFull));
      WritesNothing(store.Seen(), state.View(), Refused(InvalidState));
      if HasCommandAck(state.outbox, commandId) { return Answered(Duplicate), false; }
      var candidate := new StateV1.Clone(state);
      if |candidate.outbox| + 1 > OUTBOX_LIMIT { return Answered(Refused(OutboxFull)), false; }
      var replayed := candidate.ReplayCommand(commandId, fingerprint);
      if !replayed { return Answered(Refused(InvalidState)), false; }
      reply, writes := PersistCandidate(candidate, Duplicate);
    }

    method RefuseConflictingReplay(commandId: Text, fingerprint: Digest, generation: u64, fence: u64, now: u64)
      returns (reply: Reply, ghost writes: bool)
      requires Valid()
      modifies this`state, store
      ensures Valid() && Did([], RefuseConflict(old(state.View()), commandId, fingerprint, generation, fence, now), writes, reply)
    {
      hide Validate, Performs;
      WritesNothing(store.Seen(), state.View(), Rejected(MalformedCommand));
      WritesNothing(store.Seen(), state.View(), Refused(OutboxFull));
      if HasConflictingReplay(state.outbox, commandId, fingerprint) { return Answered(Rejected(MalformedCommand)), false; }
      var candidate := new StateV1.Clone(state);
      if |candidate.outbox| + 1 > OUTBOX_LIMIT { return Answered(Refused(OutboxFull)), false; }
      candidate.RejectConflictingReplay(commandId, fingerprint, generation, fence, ClampToI64(now));
      reply, writes := PersistCandidate(candidate, Rejected(MalformedCommand));
    }

    method PersistRefusal(r: Refusal, expireAt: u64) returns (reply: Reply, ghost writes: bool)
      requires Valid()
      modifies this`state, store
      ensures Valid() && Did([], PersistRejection(old(state.View()), r, expireAt), writes, reply)
    {
      hide Validate, Performs;
      WritesNothing(store.Seen(), state.View(), Refused(OutboxFull));
      WritesNothing(store.Seen(), state.View(), Refused(CommandJournalFull));
      var candidate := new StateV1.Clone(state);
      candidate.ExpireCommandJournal(expireAt);
      if |candidate.outbox| + 1 > OUTBOX_LIMIT { return Answered(Refused(OutboxFull)), false; }
      if |candidate.commandJournal| >= JOURNAL_LIMIT { return Answered(Refused(CommandJournalFull)), false; }
      candidate.RejectCommand(r);
      reply, writes := PersistCandidate(candidate, Rejected(r.rejection));
    }

    method PersistCommandRejection(c: DeviceCommand, fingerprint: Digest, reason: Rejection, now: u64)
      returns (reply: Reply, ghost writes: bool)
      requires Valid()
      modifies this`state, store
      ensures Valid() && Did([], Rotation.RejectCommand(old(state.View()), retention, c, fingerprint, reason, now), writes, reply)
    {
      hide PersistRejection, Performs, Validate;
      var observedAt := ClampToI64(now);
      reply, writes := PersistRefusal(
        Refusal(c.commandId, fingerprint, c.desiredGeneration, c.fenceEpoch, reason, observedAt,
                RetentionDeadline(retention, observedAt)), observedAt);
    }

    /** How `commit` ends short of the installation. */
    predicate CommitStopsShort(now: u64)
      reads this, state
    {
      || |state.outbox| + 2 > OUTBOX_LIMIT
      || |Expire(state.View(), ClampToI64(now)).journal| >= JOURNAL_LIMIT
      || state.current.credentialRevision == U64_MAX
    }

    /** `commit`: the directory is installed, then the candidate is validated, written and swapped in. */
    method CommitRotation(c: DeviceCommand, fingerprint: Digest, artifact: Resolution, m: Material, now: u64)
      returns (reply: Reply, ghost writes: bool)
      requires Valid() && artifact.Resolved?
      modifies this`state, store
      ensures Valid()
      ensures var step := Commit(old(state.View()), retention, c, fingerprint, artifact, now);
              if old(CommitStopsShort(now)) then Did([], step, writes, reply)
              else
                var revision := old(state.current.credentialRevision) + 1;
                if !Installs(old(store.disk), revision, m)
                then reply == StoreFailed && state.View() == old(state.View()) && store.Seen() == old(store.Seen()).(failed := true)
                else Did(InstallActions(old(store.disk), revision, m), step, writes, reply)
    {
      hide Validate, Accept, Retain, ValidIdentity, RetentionDeadline, Performs;
      ValidatedIdentity(state.View());
      WritesNothing(store.Seen(), state.View(), Refused(OutboxFull));
      WritesNothing(store.Seen(), state.View(), Refused(CommandJournalFull));
      WritesNothing(store.Seen(), state.View(), Refused(InvalidState));
      var observedAt := ClampToI64(now);
      var candidate := new StateV1.Clone(state);
      candidate.ExpireCommandJournal(observedAt);
      if |candidate.outbox| + 2 > OUTBOX_LIMIT { return Answered(Refused(OutboxFull)), false; }
      if |candidate.commandJournal| >= JOURNAL_LIMIT { return Answered(Refused(CommandJournalFull)), false; }
      if candidate.current.credentialRevision == U64_MAX { return Answered(Refused(InvalidState)), false; }
      var revision := candidate.current.credentialRevision + 1;
      reply, writes := InstallAndSwap(
        candidate, revision, m,
        Acceptance(c.commandId, fingerprint, c.desiredGeneration, c.fenceEpoch, artifact.credentialGeneration, revision,
                   artifact.digest, artifact.expiresAt, observedAt, RetentionDeadline(retention, observedAt)));
    }

    method InstallAndSwap(candidate: StateV1, revision: u64, m: Material, a: Acceptance)
      returns (reply: Reply, ghost writes: bool)
      requires Valid() && candidate != state && ValidIdentity(candidate.identity) && candidate.outbox == state.outbox
      modifies this`state, candidate, store
      ensures Valid()
      ensures if !Installs(old(store.disk), revision, m)
              then reply == StoreFailed && state == old(state) && state.View() == old(state.View())
                   && store.Seen() == old(store.Seen()).(failed := true)
              else Did(InstallActions(old(store.disk), revision, m),
                       Persist(old(state.View()), Accept(old(candidate.View()), a), Accepted), writes, reply)
    {
      hide Validate, Accept, InstallActions, Installs;
      ghost var x, before := store.Seen(), state.View();
      var installed := store.InstallRevision(revision, m);
      ghost var y := store.Seen();
      ghost var step := Persist(before, Accept(candidate.View(), a), Accepted);
      if !installed {
        writes := step.state != before;
        if Installs(x.disk, revision, m) {
          FailedInstall(x, before, y, InstallActions(x.disk, revision, m), step, writes);
        }
        return StoreFailed, writes;
      }
      AcceptPushes(candidate.View(), a);
      var accepted := candidate.AcceptCommand(a);
      reply, writes := PersistCandidate(candidate, Accepted);
      InstalledFirst(x, before, y, store.Seen(), state.View(), InstallActions(x.disk, revision, m), step, writes, reply);
    }

    lemma AcceptPushes(s: State, a: Acceptance)
      ensures |Accept(s, a).outbox| == |s.outbox| + 2
    {}

    lemma ValidatedIdentity(s: State)
      requires Validate(s)
      ensures ValidIdentity(s.identity)
    {}

    twostate predicate DidCall(e: Event, m: Material, writes: bool, reply: Reply)
      reads this, state, store
    {
      PerformsCall(old(store.Seen()), old(state.View()), store.Seen(), state.View(), retention, e, m, writes, reply)
    }

    /** `apply_command`. `resolution` and `m` are what the catalog answers and read for this command. */
    method ApplyDeviceCommand(topic: Topic, c: DeviceCommand, fingerprint: Digest, resolution: Resolution, m: Material, now: u64)
      returns (reply: Reply, ghost writes: bool)
      requires Valid()
      modifies this`state, store
      ensures Valid() && DidCall(Deliver(topic, c, fingerprint, resolution, now), m, writes, reply)
    {
      hide ReplayKnown, RefuseConflict, Rotation.RejectCommand, Commit, Performs, Validate, InstallActions, Installs;
      ghost var s, e := state.View(), Deliver(topic, c, fingerprint, resolution, now);
      WritesNothing(store.Seen(), s, Refused(InFlight));
      var known := state.MatchCommand(c.commandId, fingerprint, now);
      if known.Some? {
        assert !ReachesInstall(s, e);
        if known.value {
          reply, writes := ReplayKnownCommand(c.commandId, fingerprint);
          return;
        }
        reply, writes := RefuseConflictingReplay(c.commandId, fingerprint, c.desiredGeneration, c.fenceEpoch, now);
        return;
      }
      if HasReport(state.outbox) { return Answered(Refused(InFlight)), false; }
      var turn: Option<Rejection> := None;
      if topic != CommandTopic(state.identity) || c.deviceId != state.identity.device {
        turn := Some(MalformedCommand);
      } else if c.deadline <= now {
        turn := Some(PolicyRejected);
      } else if resolution.Unresolved? {
        turn := Some(resolution.rejection);
      } else if c.fenceEpoch < state.current.fenceEpoch {
        turn := Some(FenceEpochStale);
      } else if c.desiredGeneration < state.current.desiredGeneration {
        turn := Some(GenerationStale);
      } else if c.desiredGeneration == state.current.desiredGeneration
             || resolution.credentialGeneration <= state.identity.generation {
        turn := Some(MalformedCommand);
      }
      if turn.Some? {
        reply, writes := PersistCommandRejection(c, fingerprint, turn.value, now);
        return;
      }
      assert FindLive(s.journal, c.commandId, now).None?;
      assert ReachesInstall(s, e) <==> !CommitStopsShort(now);
      reply, writes := CommitRotation(c, fingerprint, resolution, m, now);
    }

    /** `reject_malformed_delivery`. */
    method RejectMalformedDelivery(topic: Topic, commandId: Text, fingerprint: Digest, now: u64)
      returns (reply: Reply, ghost writes: bool)
      requires Valid()
      modifies this`state, store
      ensures Valid() && Did([], Next(old(state.View()), retention, DeliverMalformed(topic, commandId, fingerprint, now)), writes, reply)
    {
      hide ReplayKnown, RefuseConflict, PersistRejection, CommandMatch, Performs, Validate;
      WritesNothing(store.Seen(), state.View(), Refused(UnexpectedDelivery));
      if topic != CommandTopic(state.identity)
         && !(state.pendingInbound.Some? && state.pendingInbound.value.topic == topic) {
        return Answered(Refused(UnexpectedDelivery)), false;
      }
      var known := state.MatchCommand(commandId, fingerprint, now);
      if known.Some? {
        if known.value {
          reply, writes := ReplayKnownCommand(commandId, fingerprint);
          return;
        }
        reply, writes := RefuseConflictingReplay(commandId, fingerprint, state.current.desiredGeneration,
                                                 state.current.fenceEpoch, now);
        return;
      }
      var observedAt := ClampToI64(now);
      reply, writes := PersistRefusal(
        Refusal(commandId, fingerprint, state.current.desiredGeneration, state.current.fenceEpoch, MalformedCommand,
                observedAt, RetentionDeadline(retention, observedAt)), now);
    }

    method ConfirmPublished(id: EventId) returns (reply: Reply, ghost writes: bool)
      requires Valid()
      modifies this`state, store
      ensures Valid() && Did([], Next(old(state.View()), retention, BrokerConfirmed(id)), writes, reply)
    {
      hide Validate, Confirm, Performs;
      WritesNothing(store.Seen(), state.View(), Refused(UnknownOutbound));
      var candidate := new StateV1.Clone(state);
      var confirmed := candidate.ConfirmOutbound(id);
      if !confirmed { return Answered(Refused(UnknownOutbound)), false; }
      reply, writes := PersistCandidate(candidate, Done);
    }

    method MarkCurrentCredentialConnected(revision: u64) returns (reply: Reply, ghost writes: bool)
      requires Valid()
      modifies this`state, store
      ensures Valid() && Did([], Next(old(state.View()), retention, Reconnected(revision)), writes, reply)
    {
      hide Validate, MarkReconnected, Performs;
      WritesNothing(store.Seen(), state.View(), Refused(UnexpectedReconnect));
      var candidate := new StateV1.Clone(state);
      var marked := candidate.Reconnect(revision);
      if !marked { return Answered(Refused(UnexpectedReconnect)), false; }
      reply, writes := PersistCandidate(candidate, Done);
    }

    /** With a token, the delivery it names was acknowledged; without one, it was not redelivered. */
    method PersistInboundSettlement(token: Option<Token>) returns (reply: Reply, ghost writes: bool)
      requires Valid()
      modifies this`state, store
      ensures Valid() && Did([], Next(old(state.View()), retention, Settled(token)), writes, reply)
    {
      hide Validate, MarkSettled, Performs;
      WritesNothing(store.Seen(), state.View(), Refused(UnexpectedDelivery));
      var candidate := new StateV1.Clone(state);
      var settled := candidate.SettleInbound(token);
      if !settled { return Answered(Refused(UnexpectedDelivery)), false; }
      reply, writes := PersistCandidate(candidate, Done);
    }

    method IntakeOpen(now: u64) returns (open: bool)
      ensures open <==> CommandIntakeOpen(state.View(), now)
    {
      if |state.outbox| + 2 > OUTBOX_LIMIT { return false; }
      open := state.JournalHasCapacity(now);
    }
  }

  lemma FailedInstall(x: View, before: State, y: View, prefix: seq<Action>, step: Step, writes: bool)
    requires WritesFit(before, step, writes) && Ran(x, prefix, y, false)
    ensures Performs(x, before, y, before, prefix, step, writes, StoreFailed)
  {
    RanBoth(x, prefix, y, false, Written(step, writes), y, false);
  }

  lemma InstalledFirst(x: View, before: State, y: View, z: View, after: State, prefix: seq<Action>, step: Step, writes: bool, reply: Reply)
    requires Ran(x, prefix, y, true) && Performs(y, before, z, after, [], step, writes, reply)
    ensures Performs(x, before, z, after, prefix, step, writes, reply)
  {
    hide Ran, WritesFit;
    assert [] + Written(step, writes) == Written(step, writes);
    RanBoth(x, prefix, y, true, Written(step, writes), z, !reply.StoreFailed?);
  }

  /** One call of the public interface over the store, the refused installation included. */
  predicate PerformsCall(x: View, before: State, y: View, after: State, retention: u64, e: Event, m: Material,
                         writes: bool, reply: Reply) {
    if Conflicted(x.disk, before, e, m)
    then reply == StoreFailed && after == before && y == x.(failed := true)
    else Performs(x, before, y, after, InstallSteps(x.disk, before, e, m), Next(before, retention, e), writes, reply)
  }

  /** A call other than an installing delivery needs no material. */
  lemma WithoutInstall(x: View, before: State, y: View, after: State, retention: u64, e: Event, m: Material, writes: bool, reply: Reply)
    requires !ReachesInstall(before, e) && Performs(x, before, y, after, [], Next(before, retention, e), writes, reply)
    ensures PerformsCall(x, before, y, after, retention, e, m, writes, reply)
  {}

  /**
   What the object does is a step of the runs over the store: an answered call is a completed one, and
   whatever a start finds after a failed one is what it finds after a call cut short.
   */
  lemma PerformedIsAttempt(x: View, before: State, y: View, after: State, retention: u64, e: Event, m: Material,
                           writes: bool, reply: Reply)
    requires PerformsCall(x, before, y, after, retention, e, m, writes, reply)
    ensures reply.Answered? ==>
              CrashRuns.Completes(CrashRuns.Moment(x.disk, before), retention, e, m, CrashRuns.Moment(y.disk, after))
    ensures reply.StoreFailed? && !Conflicted(x.disk, before, e, m) ==>
              forall f :: Interrupts(y.disk, f) && Open(f, before.identity).Running? ==>
                CrashRuns.Restarts(CrashRuns.Moment(x.disk, before), retention, e, m,
                                   CrashRuns.Moment(f, Open(f, before.identity).state))
  {
    hide Next, PerformAll, ReachesInstall, Conflicted, InstallActions, PersistActions, Interrupts, Open;
    var actions := CallActions(x.disk, before, retention, e, m, writes);
    if !Conflicted(x.disk, before, e, m) {
      assert actions == InstallSteps(x.disk, before, e, m) + Written(Next(before, retention, e), writes);
      var k := Least(x.budget, |actions|);
      assert Cleared(y.disk, PerformAll(x.disk, actions[..k]));
      forall f ensures Interrupts(y.disk, f) <==> Interrupts(PerformAll(x.disk, actions[..k]), f) {
        ClearedInterrupts(y.disk, PerformAll(x.disk, actions[..k]), f);
      }
    }
  }

  /** Whatever the store does, a call leaves a state in which every later call is again covered. */
  lemma PerformedKeepsInvariant(x: View, before: State, y: View, after: State, retention: u64, e: Event, m: Material,
                                writes: bool, reply: Reply)
    requires RotationInvariant.Inv(before) && retention > 0 && WellTyped(e)
    requires PerformsCall(x, before, y, after, retention, e, m, writes, reply)
    ensures RotationInvariant.Inv(after)
  {
    hide RotationInvariant.Inv, Next, Ran;
    Operations.NextKeepsInvariant(before, retention, e);
  }
}
