/**
 What each call leaves behind, written out on the fields: the answer that is queued and journalled,
 with its reason, coordinates and number, and everything the call does not touch.
 */
module Answers {
  import opened Bytes
  import opened Identities
  import opened Rotation
  import opened RotationInvariant
  import opened Operations

  function ObservedAt(now: u64): i64 { if now <= I64_MAX then now else I64_MAX }

  function RetainedUntil(now: u64, retention: u64): u64 {
    if ObservedAt(now) + retention <= U64_MAX then ObservedAt(now) + retention else U64_MAX
  }

  predicate NoLiveEntry(s: State, e: Event)
    requires IsDelivery(e)
  {
    forall c :: c in s.journal && c.commandId == DeliveredId(e) ==> c.retainUntil <= e.now
  }

  predicate LiveEntry(s: State, e: Event, c: StoredCommand)
    requires IsDelivery(e)
  {
    c in s.journal && c.commandId == DeliveredId(e) && c.retainUntil > e.now
  }

  /** The answers carry the command's coordinates, or those of the state when there was no command to read. */
  function AnsweredGeneration(s: State, e: Event): u64
    requires IsDelivery(e)
  {
    if e.Deliver? then e.command.desiredGeneration else s.current.desiredGeneration
  }

  function AnsweredFence(s: State, e: Event): u64
    requires IsDelivery(e)
  {
    if e.Deliver? then e.command.fenceEpoch else s.current.fenceEpoch
  }

  /** `chosen` is what stands in `from` at the positions `at`, in order. */
  predicate InOrder(from: seq<StoredCommand>, at: seq<nat>, chosen: seq<StoredCommand>) {
    && |at| == |chosen| && (forall i :: 0 <= i < |at| ==> at[i] < |from| && from[at[i]] == chosen[i])
    && forall i, j :: 0 <= i < j < |at| ==> at[i] < at[j]
  }

  lemma OneLater(head: StoredCommand, tail: seq<StoredCommand>, at: seq<nat>, chosen: seq<StoredCommand>) returns (shifted: seq<nat>)
    requires InOrder(tail, at, chosen)
    ensures InOrder([head] + tail, shifted, chosen) && InOrder([head] + tail, [0] + shifted, [head] + chosen)
  {
    shifted := seq(|at|, i requires 0 <= i < |at| => at[i] + 1);
  }

  /** Expiry keeps the order of what it keeps. */
  lemma {:induction false} ExpiryKeepsOrder(journal: seq<StoredCommand>, pending: Option<Settlement>, now: u64) returns (at: seq<nat>)
    ensures InOrder(journal, at, Retain(journal, pending, now))
  {
    if journal == [] {
      at := [];
    } else {
      var rest := ExpiryKeepsOrder(journal[1..], pending, now);
      hide InOrder;
      var shifted := OneLater(journal[0], journal[1..], rest, Retain(journal[1..], pending, now));
      assert [journal[0]] + journal[1..] == journal;
      at := if Kept(pending, now, journal[0]) then [0] + shifted else shifted;
    }
  }

  /** The journal in its order, without what is expired at `now`, except the entry of the pending delivery. */
  ghost predicate Unexpired(s: State, now: u64, journal: seq<StoredCommand>) {
    && (forall c :: c in journal <==>
          c in s.journal && (c.retainUntil > now || (s.pendingInbound.Some? && s.pendingInbound.value.commandId == c.commandId)))
    && exists at :: InOrder(s.journal, at, journal)
  }

  lemma RetainedUnexpired(s: State, now: u64)
    ensures Unexpired(s, now, Retain(s.journal, s.pendingInbound, now))
  {
    hide InOrder;
    var at := ExpiryKeepsOrder(s.journal, s.pendingInbound, now);
  }

  // ----- Rejections -----

  function RejectionAnswer(s: State, e: Event, reason: Rejection): Ack
    requires IsDelivery(e) && s.deviceSequence < U64_MAX
  {
    Ack(DeliveredId(e), Direct(DeliveredId(e)), AnsweredGeneration(s, e), AnsweredFence(s, e), s.deviceSequence + 1,
        ObservedAt(e.now), Some(reason), None, false)
  }

  /** The reason a call reports is the reason it queues and journals, under the next number, and nothing else changes. */
  lemma RejectionRecorded(s: State, retention: u64, e: Event, reason: Rejection)
    requires Inv(s) && retention > 0 && IsDelivery(e) && NoLiveEntry(s, e) && s.deviceSequence < U64_MAX
    requires Next(s, retention, e).outcome == Rejected(reason)
    ensures var t := Next(s, retention, e).state;
            var answer := RejectionAnswer(s, e, reason);
      && t == s.(deviceSequence := s.deviceSequence + 1, journal := t.journal,
                 outbox := s.outbox + [AckEntry(EventId(AckEvent, Direct(DeliveredId(e))), answer)])
      && t.journal != []
      && t.journal[|t.journal| - 1] == StoredCommand(DeliveredId(e), e.fingerprint, answer, RetainedUntil(e.now, retention))
      && Unexpired(s, if e.Deliver? then ObservedAt(e.now) else e.now, t.journal[..|t.journal| - 1])
  {
    hide Validate, Retain, HasReport, Unexpired, Inv, Next;
    var at := if e.Deliver? then ObservedAt(e.now) else e.now;
    assert FindLive(s.journal, DeliveredId(e), e.now).None?;
    RetainedUnexpired(s, at);
    if e.Deliver? { CommandTurnedAway(s, retention, e, reason); } else { MalformedTurnedAway(s, retention, e, reason); }
    var t := Next(s, retention, e).state;
    assert t.journal[..|t.journal| - 1] == Retain(s.journal, s.pendingInbound, at);
  }

  lemma CommandTurnedAway(s: State, retention: u64, e: Event, reason: Rejection)
    requires e.Deliver? && FindLive(s.journal, e.command.commandId, e.now).None? && Next(s, retention, e).outcome == Rejected(reason)
    ensures Next(s, retention, e).state
            == Reject(Expire(s, ObservedAt(e.now)), CommandRefusal(e.command, e.fingerprint, reason, retention, e.now))
  {
    hide Validate, Retain, HasReport, Reject;
  }

  lemma MalformedTurnedAway(s: State, retention: u64, e: Event, reason: Rejection)
    requires e.DeliverMalformed? && FindLive(s.journal, e.commandId, e.now).None? && Next(s, retention, e).outcome == Rejected(reason)
    ensures reason == MalformedCommand
    ensures Next(s, retention, e).state
            == Reject(Expire(s, e.now), MalformedRefusal(s, e.commandId, e.fingerprint, retention, e.now))
  {
    hide Validate, Retain, HasReport, Reject;
  }

  /** A conflicting payload is answered under its own event id, and leaves the journal alone. */
  lemma ConflictRecorded(s: State, retention: u64, e: Event, c: StoredCommand)
    requires Inv(s) && retention > 0 && IsDelivery(e) && LiveEntry(s, e, c) && c.fingerprint != e.fingerprint
    requires s.deviceSequence < U64_MAX && !Next(s, retention, e).outcome.Refused?
    ensures Next(s, retention, e).outcome == Rejected(MalformedCommand)
    ensures var cause := Conflict(DeliveredId(e), e.fingerprint);
            var t := Next(s, retention, e).state;
      t == if exists x :: x in s.outbox && x.eventId == EventId(RejectedEvent, cause) then s
           else s.(deviceSequence := s.deviceSequence + 1,
                   outbox := s.outbox + [AckEntry(EventId(RejectedEvent, cause),
                                                  Ack(DeliveredId(e), cause, AnsweredGeneration(s, e), AnsweredFence(s, e),
                                                      s.deviceSequence + 1, ObservedAt(e.now), Some(MalformedCommand), None, false))])
  {
    hide Validate, Verify, Owned, HasReport;
    LiveEntryUnique(s, c, e.now);
  }

  // ----- Acceptances -----

  function AcceptanceAnswer(s: State, c: DeviceCommand, now: u64): Ack
    requires s.deviceSequence < U64_MAX && s.current.credentialRevision < U64_MAX
  {
    Ack(c.commandId, Direct(c.commandId), c.desiredGeneration, c.fenceEpoch, s.deviceSequence + 1, ObservedAt(now), None,
        Some(s.current.credentialRevision + 1), false)
  }

  function AcceptanceReport(s: State, c: DeviceCommand, res: Resolution, now: u64): Report
    requires s.deviceSequence <= U64_MAX - 2 && s.current.credentialRevision < U64_MAX && res.Resolved?
  {
    Report(c.commandId, c.desiredGeneration, c.fenceEpoch, s.deviceSequence + 2, ObservedAt(now),
           StateHash(s.identity.tenant, s.identity.device, res.credentialGeneration, c.desiredGeneration, c.fenceEpoch,
                     s.current.credentialRevision + 1, res.digest),
           res.digest, Some(res.expiresAt), res.credentialGeneration, s.current.credentialRevision + 1)
  }

  /** The whole state an acceptance leaves. */
  lemma AcceptanceRecorded(s: State, retention: u64, e: Event)
    requires Inv(s) && retention > 0 && WellTyped(e) && IsDelivery(e) && Next(s, retention, e).outcome == Accepted
    ensures e.Deliver? && e.resolution.Resolved? && s.deviceSequence <= U64_MAX - 2 && s.current.credentialRevision < U64_MAX
    ensures var t := Next(s, retention, e).state;
            var c, res := e.command, e.resolution;
            var answer := AcceptanceAnswer(s, c, e.now);
      && t == State(s.schemaVersion, DeviceIdentity(s.identity.tenant, s.identity.device, res.credentialGeneration),
                    Current(c.desiredGeneration, c.fenceEpoch, s.current.credentialRevision + 1, res.digest, res.expiresAt),
                    s.deviceSequence + 2, t.journal,
                    s.outbox + [AckEntry(EventId(AckEvent, Direct(c.commandId)), answer),
                                ReportBlocked(EventId(ReportEvent, Direct(c.commandId)), AcceptanceReport(s, c, res, e.now))],
                    None,
                    Some(Settlement(CommandTopic(s.identity), c.commandId, e.fingerprint, s.identity.generation,
                                    Token(CommandTopic(s.identity), c.commandId, e.fingerprint), false)))
      && t.journal != []
      && t.journal[|t.journal| - 1] == StoredCommand(c.commandId, e.fingerprint, answer, RetainedUntil(e.now, retention))
      && Unexpired(s, ObservedAt(e.now), t.journal[..|t.journal| - 1])
  {
    hide Next, Validate, Verify, Owned, Retain, HasReport, Unexpired;
    RetainedUnexpired(s, ObservedAt(e.now));
    var f := EffectOf(s, retention, e);
    NothingAwaited(s);
    var t := Next(s, retention, e).state;
    assert t.journal[..|t.journal| - 1] == Retain(s.journal, s.pendingInbound, ObservedAt(e.now));
  }

  lemma NothingAwaited(s: State)
    requires Inv(s) && !RotationInFlight(s)
    ensures s.reconnectRevision.None?
  {}

  // ----- Replays -----

  /** A redelivery queues the recorded answer, no longer activating, unless some answer of its id is queued. */
  lemma ReplayRecorded(s: State, retention: u64, e: Event, c: StoredCommand)
    requires Inv(s) && retention > 0 && IsDelivery(e) && LiveEntry(s, e, c) && c.fingerprint == e.fingerprint
    requires !Next(s, retention, e).outcome.Refused?
    ensures Next(s, retention, e).outcome == Duplicate
    ensures var a := c.acknowledgement;
            var t := Next(s, retention, e).state;
      t == if exists x :: x in s.outbox && x.AckEntry? && x.ack.commandId == DeliveredId(e) then s
           else s.(outbox := s.outbox + [AckEntry(EventId(AckEvent, Direct(DeliveredId(e))),
                                                  Ack(DeliveredId(e), Direct(DeliveredId(e)), a.desiredGeneration, a.fenceEpoch,
                                                      a.deviceSequence, a.observedAt, a.rejection, None, a.rejection.None?))])
  {
    hide Validate, Verify, Owned, HasReport;
    LiveEntryUnique(s, c, e.now);
    RecordedAnswer(s, c);
  }

  lemma RecordedAnswer(s: State, c: StoredCommand)
    requires Inv(s) && c in s.journal
    ensures var a := c.acknowledgement;
      && a.commandId == c.commandId && a.eventCause == Direct(c.commandId) && !a.settledReplay
      && (a.rejection.Some? ==> a.activatesRevision.None?)
  {
    assert Recorded(s, c) && CommandValid(c);
  }

  // ----- Confirmations, reconnects, settlements -----

  /** A confirmed entry leaves the outbox; an activating one makes its revision the awaited one, a report ends the rotation. */
  lemma ConfirmationRecorded(s: State, id: EventId) returns (i: nat)
    requires Inv(s) && ConfirmOutbound(s, id).outcome == Done
    ensures i < |s.outbox| && s.outbox[i].eventId == id
    ensures var x := s.outbox[i];
      ConfirmOutbound(s, id).state
      == s.(outbox := s.outbox[..i] + s.outbox[i + 1..],
            reconnectRevision := if x.AckEntry? && x.ack.activatesRevision.Some? then x.ack.activatesRevision else s.reconnectRevision,
            pendingInbound := if x.AckEntry? then s.pendingInbound else None)
  {
    hide Verify, Owned;
    InvariantParts(s);
    i := PositionOf(s.outbox, id);
    ConfirmExact(s, id);
    var x := s.outbox[i];
    assert x in s.outbox;
    if x.AckEntry? && x.ack.activatesRevision.Some? { ActivationKeepsReport(s, i); }
    if x.ReportBlocked? { BlockedNeverConfirms(s, x); }
  }

  lemma BlockedNeverConfirms(s: State, x: Outbound)
    requires Inv(s) && x in s.outbox && x.ReportBlocked?
    ensures ConfirmOutbound(s, x.eventId).outcome != Done
  {
    hide Verify, Owned;
    InvariantParts(s);
    ConfirmExact(s, x.eventId);
    var i := PositionOf(s.outbox, x.eventId);
    SameEntry(s, s.outbox[i], x);
  }

  lemma ActivationKeepsReport(s: State, i: nat)
    requires Inv(s) && i < |s.outbox| && s.outbox[i].AckEntry? && s.outbox[i].ack.activatesRevision.Some?
    ensures HasBlockedRevision(RemoveAt(s.outbox, i), s.outbox[i].ack.activatesRevision.value)
  {
    hide Owned;
    InvariantParts(s);
    RemovedMembers(s, i);
    assert PhaseValid(s, s.outbox[i]);
    var b :| b in s.outbox && IsBlockedFor(b, s.outbox[i].ack.activatesRevision.value, s.outbox[i].ack.commandId);
    assert b in RemoveAt(s.outbox, i);
  }

  /** A reconnect releases the blocked report, as it stands, and nothing else. */
  lemma ReconnectRecorded(s: State, revision: u64)
    requires Inv(s) && CredentialConnected(s, revision).outcome == Done
    ensures s.reconnectRevision == Some(revision)
    ensures var t := CredentialConnected(s, revision).state;
      && t == s.(outbox := t.outbox, reconnectRevision := None) && |t.outbox| == |s.outbox|
      && forall i :: 0 <= i < |s.outbox| ==>
           t.outbox[i] == if s.outbox[i].ReportBlocked? then ReportReady(s.outbox[i].eventId, s.outbox[i].report) else s.outbox[i]
  {
    hide Validate;
  }

  /** A settlement marks the pending delivery, named by its token or not at all, and nothing else. */
  lemma SettlementRecorded(s: State, token: Option<Token>)
    requires Inv(s)
    ensures InboundSettled(s, token).outcome == Done <==>
            s.pendingInbound.Some? && (token.Some? ==> token.value == s.pendingInbound.value.token)
    ensures InboundSettled(s, token).outcome == Done ==>
            InboundSettled(s, token).state == s.(pendingInbound := Some(s.pendingInbound.value.(settled := true)))
    ensures InboundSettled(s, token).outcome != Done ==> InboundSettled(s, token).state == s
  {
    hide Verify, Owned;
    SettleExact(s, token);
  }
}
