/**
 What each public operation of the agent answers from any state the invariant allows:
 the outcome of every branch in terms of the state before the call.
 */
module Operations {
  import opened Bytes
  import opened Identities
  import opened Rotation
  import opened RotationInvariant

  // ----- Rejections -----

  function RejectionOutcome(s: State, commandId: Text, reason: Rejection, expireAt: u64): Outcome {
    if |s.outbox| == OUTBOX_LIMIT then Refused(OutboxFull)
    else if !HasJournalCapacity(s, expireAt) then Refused(CommandJournalFull)
    else if AnswerQueued(s, commandId) || EntryKept(s, commandId, expireAt) || SequenceExhausted(s)
    then Refused(InvalidState)
    else Rejected(reason)
  }

  lemma {:induction false} RetainLength(journal: seq<StoredCommand>, pending: Option<Settlement>, now: u64)
    ensures |Retain(journal, pending, now)| < |journal| <==>
            exists c :: c in journal && !Kept(pending, now, c)
  {
    if journal != [] {
      RetainLength(journal[1..], pending, now);
      assert forall c :: c in journal <==> c == journal[0] || c in journal[1..];
    }
  }

  /** `command_journal_has_capacity(now)` holds exactly when expiring at `now` leaves room. */
  lemma CapacityExact(s: State, now: u64)
    requires |s.journal| <= JOURNAL_LIMIT
    ensures HasJournalCapacity(s, now) <==> |Expire(s, now).journal| < JOURNAL_LIMIT
  {
    RetainLength(s.journal, s.pendingInbound, now);
  }

  lemma RejectionExact(s: State, r: Refusal, expireAt: u64)
    requires Inv(s) && RefusalTyped(r)
    ensures PersistRejection(s, r, expireAt).outcome == RejectionOutcome(s, r.commandId, r.rejection, expireAt)
    ensures Inv(PersistRejection(s, r, expireAt).state)
  {
    CapacityExact(s, expireAt);
    ExpireKeepsInvariant(s, expireAt);
    var candidate := Expire(s, expireAt);
    if |s.outbox| < OUTBOX_LIMIT && |candidate.journal| < JOURNAL_LIMIT {
      RejectExact(candidate, r);
      assert EntryQueued(candidate, r.commandId) <==> EntryKept(s, r.commandId, expireAt);
    }
  }

  // ----- Replays and conflicts -----

  lemma LiveEntryUnique(s: State, c: StoredCommand, now: u64)
    requires Inv(s) && c in s.journal && c.retainUntil > now
    ensures FindLive(s.journal, c.commandId, now) == Some(c)
    ensures FindCommand(s.journal, c.commandId, c.fingerprint) == Some(c)
  {}

  function ReplayOutcome(s: State, c: StoredCommand): Outcome {
    if exists x :: x in s.outbox && x.AckEntry? && x.ack.commandId == c.commandId then Duplicate
    else if |s.outbox| == OUTBOX_LIMIT then Refused(OutboxFull)
    else if c.acknowledgement.deviceSequence == U64_MAX && SequenceQueued(s, U64_MAX)
    then Refused(InvalidState)
    else Duplicate
  }

  /** Redelivering a journalled command touches nothing but the outbox, and adds at most its own answer. */
  lemma ReplayKnownExact(s: State, c: StoredCommand, now: u64)
    requires Inv(s) && c in s.journal && c.retainUntil > now
    ensures var step := ReplayKnown(s, c.commandId, c.fingerprint);
      && step.outcome == ReplayOutcome(s, c)
      && Inv(step.state)
      && (|| step.state == s
          || (!HasCommandAck(s.outbox, c.commandId) && step.outcome == Duplicate
              && step.state == s.(outbox := s.outbox + [AckEntry(EventId(AckEvent, Direct(c.commandId)),
                                                                   ReplayedAck(c.acknowledgement))])))
  {
    LiveEntryUnique(s, c, now);
    if !HasCommandAck(s.outbox, c.commandId) && |s.outbox| < OUTBOX_LIMIT {
      ReplayExact(s, c);
    }
  }

  function ConflictOutcome(s: State, commandId: Text, fingerprint: Digest): Outcome {
    if exists x :: x in s.outbox && x.eventId == EventId(RejectedEvent, Conflict(commandId, fingerprint))
    then Rejected(MalformedCommand)
    else if |s.outbox| == OUTBOX_LIMIT then Refused(OutboxFull)
    else if SequenceExhausted(s) then Refused(InvalidState)
    else Rejected(MalformedCommand)
  }

  lemma RefuseConflictExact(s: State, commandId: Text, fingerprint: Digest, generation: u64, fence: u64, now: u64)
    requires Inv(s) && commandId != [] && generation > 0 && fence > 0
    ensures RefuseConflict(s, commandId, fingerprint, generation, fence, now).outcome
         == ConflictOutcome(s, commandId, fingerprint)
    ensures Inv(RefuseConflict(s, commandId, fingerprint, generation, fence, now).state)
  {
    if !HasConflictingReplay(s.outbox, commandId, fingerprint) && |s.outbox| < OUTBOX_LIMIT {
      ConflictExact(s, commandId, fingerprint, generation, fence, ClampToI64(now));
    }
  }

  // ----- Installation -----

  function CommitOutcome(s: State, c: DeviceCommand, res: Resolution, now: u64): Outcome
    requires res.Resolved?
  {
    if |s.outbox| + 2 > OUTBOX_LIMIT then Refused(OutboxFull)
    else if !HasJournalCapacity(s, ClampToI64(now)) then Refused(CommandJournalFull)
    else if || s.current.credentialRevision == U64_MAX
            || s.deviceSequence > U64_MAX - 2
            || res.expiresAt <= 0
            || AnswerQueued(s, c.commandId)
            || EntryKept(s, c.commandId, ClampToI64(now))
    then Refused(InvalidState)
    else Accepted
  }

  lemma CommitExact(s: State, retention: u64, c: DeviceCommand, fingerprint: Digest, res: Resolution, now: u64)
    requires Inv(s) && !RotationInFlight(s) && retention > 0
    requires c.commandId != [] && c.desiredGeneration > 0 && c.fenceEpoch > 0 && fingerprint.Sha256?
    requires res.Resolved? && res.digest.Sha256? && res.credentialGeneration > s.identity.generation
    ensures Commit(s, retention, c, fingerprint, res, now).outcome == CommitOutcome(s, c, res, now)
    ensures Inv(Commit(s, retention, c, fingerprint, res, now).state)
  {
    var at := ClampToI64(now);
    CapacityExact(s, at);
    ExpireKeepsInvariant(s, at);
    var t := Expire(s, at);
    if |t.outbox| + 2 <= OUTBOX_LIMIT && |t.journal| < JOURNAL_LIMIT && t.current.credentialRevision < U64_MAX {
      var a := CommandAcceptance(t, c, fingerprint, res, retention, now);
      AcceptExact(t, a);
      assert EntryQueued(t, c.commandId) <==> EntryKept(s, c.commandId, at);
    }
  }

  // ----- One call of the public interface -----

  /** The outcomes are written on the fields alone, in the order of the checks. */
  function DeliverOutcome(s: State, topic: Topic, c: DeviceCommand, fingerprint: Digest, res: Resolution, now: u64): Outcome {
    var live := FindLive(s.journal, c.commandId, now);
    var at := if now <= I64_MAX then now else I64_MAX;
    if live.Some? then
      if live.value.fingerprint == fingerprint then ReplayOutcome(s, live.value)
      else ConflictOutcome(s, c.commandId, fingerprint)
    else if exists x :: x in s.outbox && !x.AckEntry? then Refused(InFlight)
    else if topic != CommandTopic(s.identity) || c.deviceId != s.identity.device
    then RejectionOutcome(s, c.commandId, MalformedCommand, at)
    else if c.deadline <= now then RejectionOutcome(s, c.commandId, PolicyRejected, at)
    else if res.Unresolved? then RejectionOutcome(s, c.commandId, res.rejection, at)
    else if c.fenceEpoch < s.current.fenceEpoch then RejectionOutcome(s, c.commandId, FenceEpochStale, at)
    else if c.desiredGeneration < s.current.desiredGeneration then RejectionOutcome(s, c.commandId, GenerationStale, at)
    else if c.desiredGeneration == s.current.desiredGeneration || res.credentialGeneration <= s.identity.generation
    then RejectionOutcome(s, c.commandId, MalformedCommand, at)
    else CommitOutcome(s, c, res, now)
  }

  function MalformedOutcome(s: State, topic: Topic, commandId: Text, fingerprint: Digest, now: u64): Outcome {
    if topic != CommandTopic(s.identity) && !(s.pendingInbound.Some? && s.pendingInbound.value.topic == topic)
    then Refused(UnexpectedDelivery)
    else
      var live := FindLive(s.journal, commandId, now);
      if live.Some? then
        if live.value.fingerprint == fingerprint then ReplayOutcome(s, live.value)
        else ConflictOutcome(s, commandId, fingerprint)
      else RejectionOutcome(s, commandId, MalformedCommand, now)
  }

  lemma DeliverExact(s: State, retention: u64, e: Event)
    requires Inv(s) && retention > 0 && WellTyped(e) && e.Deliver?
    ensures Next(s, retention, e).outcome
         == DeliverOutcome(s, e.topic, e.command, e.fingerprint, e.resolution, e.now)
    ensures Inv(Next(s, retention, e).state)
  {
    var live := FindLive(s.journal, e.command.commandId, e.now);
    if live.Some? {
      if live.value.fingerprint == e.fingerprint {
        ReplayKnownExact(s, live.value, e.now);
      } else {
        RefuseConflictExact(s, e.command.commandId, e.fingerprint, e.command.desiredGeneration,
                            e.command.fenceEpoch, e.now);
      }
    } else if !RotationInFlight(s) {
      match Decide(s, e.topic, e.command, e.resolution, e.now)
      case Install => CommitExact(s, retention, e.command, e.fingerprint, e.resolution, e.now);
      case Turn(reason) =>
        RejectionExact(s, CommandRefusal(e.command, e.fingerprint, reason, retention, e.now), ClampToI64(e.now));
    }
  }

  lemma MalformedExact(s: State, retention: u64, e: Event)
    requires Inv(s) && retention > 0 && WellTyped(e) && e.DeliverMalformed?
    ensures Next(s, retention, e).outcome
         == MalformedOutcome(s, e.topic, e.commandId, e.fingerprint, e.now)
    ensures Inv(Next(s, retention, e).state)
  {
    var live := FindLive(s.journal, e.commandId, e.now);
    if InScope(s, e.topic) {
      if live.Some? {
        if live.value.fingerprint == e.fingerprint {
          ReplayKnownExact(s, live.value, e.now);
        } else {
          RefuseConflictExact(s, e.commandId, e.fingerprint, s.current.desiredGeneration,
                              s.current.fenceEpoch, e.now);
        }
      } else {
        RejectionExact(s, MalformedRefusal(s, e.commandId, e.fingerprint, retention, e.now), e.now);
      }
    }
  }

  /** Every call, allowed or refused, leaves a state the invariant (hence `verify`) accepts. */
  lemma NextKeepsInvariant(s: State, retention: u64, e: Event)
    requires Inv(s) && retention > 0 && WellTyped(e)
    ensures Inv(Next(s, retention, e).state)
  {
    match e
    case Deliver(_, _, _, _, _) => DeliverExact(s, retention, e);
    case DeliverMalformed(_, _, _, _) => MalformedExact(s, retention, e);
    case BrokerConfirmed(id) => ConfirmExact(s, id);
    case Reconnected(revision) => ReconnectExact(s, revision);
    case Settled(token) => SettleExact(s, token);
  }

  // ----- When `persist_candidate` reports InvalidState -----

  function DeliveredId(e: Event): Text
    requires IsDelivery(e)
  {
    if e.Deliver? then e.command.commandId else e.commandId
  }

  /** An expired command left something behind: an unconfirmed answer, or an entry kept as pending. */
  predicate Leftover(s: State, commandId: Text) {
    || AnswerQueued(s, commandId)
    || (s.pendingInbound.Some? && s.pendingInbound.value.commandId == commandId)
  }

  /** The clock and the counters are inside the ranges the operations were written for. */
  predicate InRange(s: State, e: Event) {
    match e
    case Deliver(_, _, _, res, now) =>
      && now <= I64_MAX
      && s.deviceSequence <= U64_MAX - 2 && s.current.credentialRevision < U64_MAX
      && (res.Resolved? ==> res.expiresAt > 0)
    case DeliverMalformed(_, _, _, _) => s.deviceSequence < U64_MAX
    case _ => true
  }

  /** The delivery gets past every earlier check: no unexpired entry answers it, and there is room for its own. */
  predicate Recordable(s: State, e: Event)
    requires IsDelivery(e)
  {
    && FindLive(s.journal, DeliveredId(e), e.now).None?
    && HasJournalCapacity(s, e.now)
    && (if e.DeliverMalformed? then InScope(s, e.topic) && |s.outbox| < OUTBOX_LIMIT
        else
          && !RotationInFlight(s)
          && |s.outbox| + (if Decide(s, e.topic, e.command, e.resolution, e.now).Install? then 2 else 1) <= OUTBOX_LIMIT)
  }

  /** When, with clock and counters in range, a call fails only because its result does not validate. */
  predicate Hindered(s: State, e: Event) {
    match e
    case Deliver(_, c, _, _, _) => Recordable(s, e) && Leftover(s, c.commandId)
    case DeliverMalformed(_, id, _, _) => Recordable(s, e) && Leftover(s, id)
    case BrokerConfirmed(id) => exists x :: x in s.outbox && x.eventId == id && x.ReportBlocked?
    case Reconnected(_) => false
    case Settled(_) => false
  }

  /**
   `persist_candidate` reports InvalidState in exactly these cases: a new answer to a command that
   left something behind, and the confirmation of a report that is still blocked.
   */
  lemma InvalidStateExactly(s: State, retention: u64, e: Event)
    requires Inv(s) && retention > 0 && WellTyped(e) && InRange(s, e)
    ensures Next(s, retention, e).outcome == Refused(InvalidState) <==> Hindered(s, e)
  {
    hide Verify, Owned, ApplyCommand, RejectMalformed, ConfirmOutbound, CredentialConnected, InboundSettled;
    match e
    case Deliver(_, _, _, _, _) => InvalidDeliveryExactly(s, retention, e);
    case DeliverMalformed(_, _, _, _) => InvalidMalformedExactly(s, retention, e);
    case BrokerConfirmed(id) => ConfirmExact(s, id);
    case Reconnected(revision) => ReconnectExact(s, revision);
    case Settled(token) => SettleExact(s, token);
  }

  lemma InvalidMalformedExactly(s: State, retention: u64, e: Event)
    requires Inv(s) && retention > 0 && WellTyped(e) && e.DeliverMalformed? && InRange(s, e)
    ensures Next(s, retention, e).outcome == Refused(InvalidState) <==> Hindered(s, e)
  {
    hide Next, Verify, Owned;
    InvariantParts(s);
    MalformedExact(s, retention, e);
    SequenceBelow(s, e.commandId, e.now);
    if FindLive(s.journal, e.commandId, e.now).None? { KeptIsPending(s, e.commandId, e.now); }
  }

  lemma InvalidDeliveryExactly(s: State, retention: u64, e: Event)
    requires Inv(s) && retention > 0 && WellTyped(e) && e.Deliver? && InRange(s, e)
    ensures Next(s, retention, e).outcome == Refused(InvalidState) <==> Hindered(s, e)
  {
    hide Next, Verify, Owned;
    InvariantParts(s);
    DeliverExact(s, retention, e);
    SequenceBelow(s, e.command.commandId, e.now);
    if FindLive(s.journal, e.command.commandId, e.now).None? { KeptIsPending(s, e.command.commandId, e.now); }
  }

  /** Without an unexpired entry, the only entry expiry keeps for an id is the pending one. */
  lemma KeptIsPending(s: State, commandId: Text, now: u64)
    requires Inv(s) && FindLive(s.journal, commandId, now).None?
    ensures EntryKept(s, commandId, now) <==>
            s.pendingInbound.Some? && s.pendingInbound.value.commandId == commandId
  {}

  lemma SequenceBelow(s: State, commandId: Text, now: u64)
    requires Inv(s) && s.deviceSequence < U64_MAX
    ensures !SequenceExhausted(s)
    ensures var live := FindLive(s.journal, commandId, now);
      live.Some? ==> live.value.acknowledgement.deviceSequence < U64_MAX
  {}

  /** A malformed command redelivered after its entry expired, while its answer is still queued, is refused. */
  lemma LeftoverAnswerRefused(s: State, retention: u64, commandId: Text, fingerprint: Digest, now: u64)
    requires Initial(s) && 0 < retention && now + retention <= I64_MAX
    requires commandId != [] && fingerprint.Sha256?
    ensures var first := DeliverMalformed(CommandTopic(s.identity), commandId, fingerprint, now);
            var again := DeliverMalformed(CommandTopic(s.identity), commandId, fingerprint, now + retention);
            var t := Next(s, retention, first);
      && t.outcome == Rejected(MalformedCommand)
      && Next(t.state, retention, again).outcome == Refused(InvalidState)
      && Leftover(t.state, commandId)
  {
    InitialInvariant(s);
    var first := DeliverMalformed(CommandTopic(s.identity), commandId, fingerprint, now);
    MalformedExact(s, retention, first);
    var t := Next(s, retention, first).state;
    assert t == Reject(Expire(s, now), MalformedRefusal(s, commandId, fingerprint, retention, now));
    assert |t.journal| == 1 && |t.outbox| == 1;
    var answer := t.outbox[0];
    assert answer in t.outbox && IsDirectAck(answer, commandId);
    var again := DeliverMalformed(CommandTopic(s.identity), commandId, fingerprint, now + retention);
    assert FindLive(t.journal, commandId, now + retention).None?;
    MalformedExact(t, retention, again);
    assert HasJournalCapacity(t, now + retention);
  }

  lemma InitialInvariant(s: State)
    requires Initial(s)
    ensures Inv(s)
  {}

  // ----- What a delivery does to the state -----

  datatype Effect =
    | Nothing
    | Replaying(entry: StoredCommand)
    | Conflicting(generation: u64, fence: u64)
    | Rejecting(refusal: Refusal, at: u64)
    | Installing(acceptance: Acceptance, at: u64)

  function Effected(s: State, e: Event, f: Effect): State
    requires IsDelivery(e)
  {
    match f
    case Nothing => s
    case Replaying(c) => Replay(s, c)
    case Conflicting(generation, fence) =>
      RejectConflict(s, DeliveredId(e), e.fingerprint, generation, fence, ClampToI64(e.now))
    case Rejecting(r, at) => Reject(Expire(s, at), r)
    case Installing(a, at) => Accept(Expire(s, at), a)
  }

  predicate EffectFits(s: State, retention: u64, e: Event, f: Effect)
    requires IsDelivery(e)
  {
    var live := FindLive(s.journal, DeliveredId(e), e.now);
    match f
    case Nothing => true
    case Replaying(c) =>
      && live == Some(c) && c in s.journal && c.fingerprint == e.fingerprint
      && !HasCommandAck(s.outbox, c.commandId)
    case Conflicting(_, _) => live.Some? && live.value.fingerprint != e.fingerprint
    case Rejecting(r, at) =>
      && live.None? && r.commandId == DeliveredId(e) && r.fingerprint == e.fingerprint
      && r.retainUntil == RetentionDeadline(retention, ClampToI64(e.now))
      && at <= e.now
    case Installing(a, at) =>
      && e.Deliver? && live.None? && !RotationInFlight(s)
      && Decide(s, e.topic, e.command, e.resolution, e.now).Install? && e.resolution.Resolved?
      && s.current.credentialRevision < U64_MAX && s.deviceSequence <= U64_MAX - 2
      && at == ClampToI64(e.now)
      && a == CommandAcceptance(s, e.command, e.fingerprint, e.resolution, retention, e.now)
  }

  lemma EffectOf(s: State, retention: u64, e: Event) returns (f: Effect)
    requires Inv(s) && retention > 0 && WellTyped(e) && IsDelivery(e)
    ensures Next(s, retention, e).state == Effected(s, e, f)
    ensures EffectFits(s, retention, e, f)
    ensures f.Installing? <==> Next(s, retention, e).outcome == Accepted
    ensures Next(s, retention, e).outcome.Refused? ==> f.Nothing?
    ensures f.Nothing? && !Next(s, retention, e).outcome.Refused? ==>
            HasLiveEntry(s, DeliveredId(e), e.now) && HasCommandAck(s.outbox, DeliveredId(e))
  {
    if Next(s, retention, e).outcome.Refused? {
      RefusedUnchanged(s, retention, e);
      f := Nothing;
    } else if FindLive(s.journal, DeliveredId(e), e.now).Some? {
      f := KnownEffect(s, retention, e);
    } else {
      f := FreshEffect(s, retention, e);
    }
  }

  /** A refused call leaves the state as it was. */
  lemma RefusedUnchanged(s: State, retention: u64, e: Event)
    requires Next(s, retention, e).outcome.Refused?
    ensures Next(s, retention, e).state == s
  {}

  lemma FreshEffect(s: State, retention: u64, e: Event) returns (f: Effect)
    requires Inv(s) && retention > 0 && WellTyped(e) && IsDelivery(e)
    requires FindLive(s.journal, DeliveredId(e), e.now).None? && !Next(s, retention, e).outcome.Refused?
    ensures Next(s, retention, e).state == Effected(s, e, f)
    ensures EffectFits(s, retention, e, f)
    ensures f.Installing? <==> Next(s, retention, e).outcome == Accepted
    ensures f.Installing? || f.Rejecting?
  {
    hide Next, Verify, Owned;
    if e.Deliver? && Decide(s, e.topic, e.command, e.resolution, e.now).Install? {
      DeliverExact(s, retention, e);
      f := InstallEffect(s, retention, e);
    } else {
      f := RejectEffect(s, retention, e);
    }
  }

  lemma InstallEffect(s: State, retention: u64, e: Event) returns (f: Effect)
    requires e.Deliver? && FindLive(s.journal, e.command.commandId, e.now).None?
    requires Decide(s, e.topic, e.command, e.resolution, e.now).Install?
    requires s.deviceSequence <= U64_MAX - 2 && !Next(s, retention, e).outcome.Refused?
    ensures Next(s, retention, e) == Step(Effected(s, e, f), Accepted)
    ensures EffectFits(s, retention, e, f) && f.Installing?
  {
    hide Validate, Accept, HasCommandAck;
    f := Installing(CommandAcceptance(s, e.command, e.fingerprint, e.resolution, retention, e.now),
                    ClampToI64(e.now));
  }

  lemma RejectEffect(s: State, retention: u64, e: Event) returns (f: Effect)
    requires IsDelivery(e) && FindLive(s.journal, DeliveredId(e), e.now).None?
    requires e.Deliver? ==> Decide(s, e.topic, e.command, e.resolution, e.now).Turn?
    requires !Next(s, retention, e).outcome.Refused?
    ensures Next(s, retention, e).state == Effected(s, e, f)
    ensures EffectFits(s, retention, e, f) && f.Rejecting? && Next(s, retention, e).outcome.Rejected?
  {
    f := if e.Deliver? then
           Rejecting(CommandRefusal(e.command, e.fingerprint,
                                    Decide(s, e.topic, e.command, e.resolution, e.now).reason, retention, e.now),
                     ClampToI64(e.now))
         else Rejecting(MalformedRefusal(s, e.commandId, e.fingerprint, retention, e.now), e.now);
  }

  /** A queued conflict rejection is an acknowledgement of its command id. */
  lemma ConflictIsAnswered(s: State, commandId: Text, fingerprint: Digest)
    requires Inv(s) && HasConflictingReplay(s.outbox, commandId, fingerprint)
    ensures HasCommandAck(s.outbox, commandId)
  {
    var x :| x in s.outbox && x.eventId == EventId(RejectedEvent, Conflict(commandId, fingerprint));
    assert EntryValid(s, x) && CauseOwned(x);
  }

  lemma KnownEffect(s: State, retention: u64, e: Event) returns (f: Effect)
    requires Inv(s) && retention > 0 && WellTyped(e) && IsDelivery(e)
    requires FindLive(s.journal, DeliveredId(e), e.now).Some? && !Next(s, retention, e).outcome.Refused?
    ensures Next(s, retention, e).state == Effected(s, e, f)
    ensures EffectFits(s, retention, e, f) && !f.Installing? && !f.Rejecting?
    ensures Next(s, retention, e).outcome != Accepted
    ensures f.Nothing? ==>
            HasLiveEntry(s, DeliveredId(e), e.now) && HasCommandAck(s.outbox, DeliveredId(e))
  {
    hide Verify, Owned;
    var id := DeliveredId(e);
    var c := FindLive(s.journal, id, e.now).value;
    assert c in s.journal && Live(c, id, e.now);
    if c.fingerprint == e.fingerprint {
      LiveEntryUnique(s, c, e.now);
      ReplayKnownExact(s, c, e.now);
      f := if HasCommandAck(s.outbox, id) then Nothing else Replaying(c);
    } else if HasConflictingReplay(s.outbox, id, e.fingerprint) {
      ConflictIsAnswered(s, id, e.fingerprint);
      f := Nothing;
    } else {
      f := if e.Deliver? then Conflicting(e.command.desiredGeneration, e.command.fenceEpoch)
           else Conflicting(s.current.desiredGeneration, s.current.fenceEpoch);
    }
  }

  // ----- Admission -----

  /** With intake open no delivery, on any branch, is refused for lack of room. */
  lemma AdmissionSound(s: State, retention: u64, e: Event)
    requires Inv(s) && retention > 0 && WellTyped(e) && IsDelivery(e)
    requires CommandIntakeOpen(s, e.now) && (e.Deliver? ==> e.now <= I64_MAX)
    ensures Next(s, retention, e).outcome != Refused(OutboxFull)
    ensures Next(s, retention, e).outcome != Refused(CommandJournalFull)
  {
    hide Next, Verify, Owned, AnswerQueued, EntryKept, SequenceExhausted;
    if e.Deliver? { DeliverExact(s, retention, e); } else { MalformedExact(s, retention, e); }
  }

  // ----- Answer before settlement -----

  lemma JournalValid(s: State, c: StoredCommand)
    requires Inv(s) && c in s.journal
    ensures CommandValid(c)
  {}

  predicate HasLiveEntry(s: State, commandId: Text, now: u64) {
    exists c :: c in s.journal && Live(c, commandId, now)
  }

  /**
   In the state it leaves, a delivery that is not refused has a queued acknowledgement for its command id, and an
   unexpired journal entry exactly when one was there or the retention deadline lies past `now`.
   */
  lemma AnswerIsQueued(s: State, retention: u64, e: Event)
    requires Inv(s) && retention > 0 && WellTyped(e) && IsDelivery(e)
    requires !Next(s, retention, e).outcome.Refused?
    ensures var t := Next(s, retention, e).state;
      && HasCommandAck(t.outbox, DeliveredId(e))
      && (HasLiveEntry(t, DeliveredId(e), e.now) <==>
            HasLiveEntry(s, DeliveredId(e), e.now)
            || RetentionDeadline(retention, ClampToI64(e.now)) > e.now)
  {
    hide Next, Verify, Owned;
    var id := DeliveredId(e);
    var f := EffectOf(s, retention, e);
    var t := Effected(s, e, f);
    match f
    case Nothing =>
    case Replaying(c) =>
      JournalValid(s, c);
      assert Live(c, id, e.now);
      assert t.outbox[|s.outbox|] in t.outbox;
    case Conflicting(_, _) =>
      assert t.outbox[|s.outbox|] in t.outbox;
    case Rejecting(r, at) =>
      assert t.outbox[|s.outbox|] in t.outbox;
      var c := t.journal[|t.journal| - 1];
      assert c in t.journal && Live(c, id, e.now) == (r.retainUntil > e.now);
      assert forall d :: d in t.journal ==> d in s.journal || d == c;
    case Installing(a, at) =>
      assert t.outbox[|s.outbox|] in t.outbox;
      var c := t.journal[|t.journal| - 1];
      assert c in t.journal && Live(c, id, e.now) == (a.retainUntil > e.now);
      assert forall d :: d in t.journal ==> d in s.journal || d == c;
  }

  /**
   The acknowledgement so queued is the command's own answer exactly when one was queued before, the
   command was new, or it was replayed; a redelivery may also be settled over nothing but a queued
   rejection of another payload under its id.
   */
  lemma OwnAnswerExactly(s: State, retention: u64, e: Event)
    requires Inv(s) && retention > 0 && WellTyped(e) && IsDelivery(e)
    requires !Next(s, retention, e).outcome.Refused?
    ensures var live := FindLive(s.journal, DeliveredId(e), e.now);
      AnswerQueued(Next(s, retention, e).state, DeliveredId(e)) <==>
        || AnswerQueued(s, DeliveredId(e))
        || live.None?
        || (live.value.fingerprint == e.fingerprint && !HasCommandAck(s.outbox, DeliveredId(e)))
  {
    hide Next, Verify;
    var f := EffectOf(s, retention, e);
    var t := Effected(s, e, f);
    assert f.Nothing? ==> FindLive(s.journal, DeliveredId(e), e.now).Some?;
    if f.Nothing? {
    } else {
      var x := t.outbox[|s.outbox|];
      assert forall y :: y in s.outbox ==> y in t.outbox;
      assert x in t.outbox;
      if f.Replaying? { assert Recorded(s, f.entry); }
      if f.Conflicting? {
        assert t.outbox == s.outbox + [x];
        assert AnswerQueued(t, DeliveredId(e)) <==> AnswerQueued(s, DeliveredId(e));
      }
    }
  }
}
