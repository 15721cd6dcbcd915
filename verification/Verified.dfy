/**
 What `verify` accepts, on the fields of the state: which states a start loads, and which no operation commits.
 */
module Verified {
  import opened Bytes
  import opened Identities
  import opened Rotation

  /** An acknowledgement is a rejection, an activating acceptance, or the replay of a settled one. */
  predicate SoundAck(a: Ack) {
    && a.commandId != [] && (a.eventCause.Direct? ==> a.eventCause.commandId != [])
    && a.desiredGeneration > 0 && a.fenceEpoch > 0 && a.deviceSequence > 0 && a.observedAt >= 0
    && (a.activatesRevision.Some? ==> a.activatesRevision.value > 0)
    && (a.rejection.Some? ==> a.activatesRevision.None? && !a.settledReplay)
    && (a.rejection.None? ==> a.settledReplay == a.activatesRevision.None?)
  }

  /** A report describes the installed credential of this device completely. */
  predicate SoundReport(s: State, r: Report) {
    && r.commandId != [] && r.deviceSequence > 0 && r.observedAt >= 0 && r.credentialGeneration > 0
    && r.expiresAt.Some? && r.expiresAt.value > 0 && r.artifactDigest.Sha256?
    && r.observedGeneration == s.current.desiredGeneration && r.fenceEpoch == s.current.fenceEpoch
    && r.credentialRevision == s.current.credentialRevision && r.artifactDigest == s.current.artifactDigest
    && r.stateHash == StateHash(s.identity.tenant, s.identity.device, r.credentialGeneration, r.observedGeneration, r.fenceEpoch,
                                r.credentialRevision, r.artifactDigest)
  }

  function NumberOf(x: Outbound): u64 { if x.AckEntry? then x.ack.deviceSequence else x.report.deviceSequence }

  /** The event id names the kind of entry and its cause. */
  predicate SoundEntry(s: State, x: Outbound) {
    && NumberOf(x) <= s.deviceSequence
    && (if x.AckEntry?
        then SoundAck(x.ack) && x.eventId.source == x.ack.eventCause
             && x.eventId.kind == (if x.ack.eventCause == Direct(x.ack.commandId) then AckEvent else RejectedEvent)
        else SoundReport(s, x.report) && x.eventId == EventId(ReportEvent, Direct(x.report.commandId)))
  }

  predicate Positive(s: State) { s.current.desiredGeneration > 0 && s.current.fenceEpoch > 0 && s.current.credentialRevision > 0 }

  predicate SoundCoordinates(s: State, id: DeviceIdentity) {
    && s.schemaVersion == 1 && s.identity.tenant == id.tenant && s.identity.device == id.device && s.identity.generation > 0
    && Positive(s) && s.current.expiresAt > 0 && s.current.artifactDigest.Sha256?
    && |s.outbox| <= 128 && |s.journal| <= 1024
  }

  predicate SoundJournal(s: State) {
    && (forall c :: c in s.journal ==>
          c.commandId != [] && c.commandId == c.acknowledgement.commandId && c.fingerprint.Sha256? && c.retainUntil > 0
          && SoundAck(c.acknowledgement))
    && forall i, j :: 0 <= i < j < |s.journal| ==> s.journal[i].commandId != s.journal[j].commandId
  }

  /** The pending delivery came on a topic of this device, is journalled, and has the token of what it is. */
  predicate SoundPending(s: State, p: Settlement) {
    && p.credentialGeneration > 0 && p.commandId != [] && p.fingerprint.Sha256?
    && p.topic == CommandTopic(DeviceIdentity(s.identity.tenant, s.identity.device, p.credentialGeneration))
    && p.token == Token(p.topic, p.commandId, p.fingerprint)
    && exists c :: c in s.journal && c.commandId == p.commandId && c.fingerprint == p.fingerprint
  }

  predicate SoundOutbox(s: State) {
    && (forall x :: x in s.outbox ==> SoundEntry(s, x))
    && forall i, j :: 0 <= i < j < |s.outbox| ==>
         && s.outbox[i].eventId != s.outbox[j].eventId && NumberOf(s.outbox[i]) != NumberOf(s.outbox[j])
         && (s.outbox[i].AckEntry? || s.outbox[j].AckEntry?)
  }

  /** The acknowledgement that activates the report's revision for its command is queued. */
  predicate Activating(s: State, x: Outbound) {
    !x.AckEntry? && exists y :: y in s.outbox && y.AckEntry? && y.ack.commandId == x.report.commandId
                            && y.ack.activatesRevision == Some(x.report.credentialRevision)
  }

  /**
   A report is blocked until its acknowledgement is confirmed, then until its revision has connected, then
   ready; nothing activates or is awaited without it, and a delivery is pending exactly with it.
   */
  predicate SoundPhases(s: State) {
    && (s.pendingInbound.Some? <==> exists x :: x in s.outbox && !x.AckEntry?)
    && (s.reconnectRevision.Some? ==>
          s.reconnectRevision.value == s.current.credentialRevision && exists x :: x in s.outbox && x.ReportBlocked?)
    && (forall x :: x in s.outbox && x.ReportBlocked? ==> (Activating(s, x) <==> s.reconnectRevision.None?))
    && (forall y :: y in s.outbox && y.AckEntry? && y.ack.activatesRevision.Some? ==>
          && y.ack.activatesRevision.value == s.current.credentialRevision
          && exists x :: x in s.outbox && x.ReportBlocked? && x.report.commandId == y.ack.commandId
                         && x.report.credentialRevision == y.ack.activatesRevision.value)
  }

  lemma EntryExactly(s: State, x: Outbound)
    requires Positive(s)
    ensures EntryValid(s, x) <==> SoundEntry(s, x)
  {}

  lemma CommandExactly(c: StoredCommand)
    ensures CommandValid(c) <==>
      c.commandId != [] && c.commandId == c.acknowledgement.commandId && c.fingerprint.Sha256? && c.retainUntil > 0
      && SoundAck(c.acknowledgement)
  {}

  lemma OutboxExactly(s: State)
    requires Positive(s)
    ensures (forall x :: x in s.outbox ==> EntryValid(s, x)) && EntriesApart(s.outbox) && AtMostOneReport(s.outbox) <==> SoundOutbox(s)
  {
    hide EntryValid, SoundEntry;
    forall x | x in s.outbox ensures EntryValid(s, x) <==> SoundEntry(s, x) { EntryExactly(s, x); }
  }

  lemma PhasesExactly(s: State)
    requires SoundOutbox(s)
    ensures && s.pendingInbound.Some? == HasReport(s.outbox) && (forall e :: e in s.outbox ==> PhaseValid(s, e))
            && (s.reconnectRevision.Some? ==> HasReport(s.outbox) && s.reconnectRevision.value == s.current.credentialRevision)
            <==> SoundPhases(s)
  {
    hide SoundAck;
  }

  /** `verify` accepts exactly the states that are sound in every one of these respects. */
  lemma VerifiesExactly(s: State, id: DeviceIdentity)
    ensures Verify(s, id) <==>
      && SoundCoordinates(s, id) && SoundOutbox(s) && SoundJournal(s) && SoundPhases(s)
      && (s.pendingInbound.Some? ==> SoundPending(s, s.pendingInbound.value))
  {
    hide EntryValid, CommandValid, SoundAck, PhaseValid, SoundPhases, SoundOutbox, EntriesApart, AtMostOneReport, HasReport;
    forall c ensures CommandValid(c) <==>
      c.commandId != [] && c.commandId == c.acknowledgement.commandId && c.fingerprint.Sha256? && c.retainUntil > 0
      && SoundAck(c.acknowledgement) { CommandExactly(c); }
    if Positive(s) {
      OutboxExactly(s);
      if SoundOutbox(s) { PhasesExactly(s); }
    }
  }
}
