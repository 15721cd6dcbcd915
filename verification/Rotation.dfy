/**
 The durable rotation state of the reference device agent and the transition each
 public operation performs on it, as functions on values. Hash outputs (event ids,
 settlement tokens, state hashes, fingerprints) are represented by what was hashed.
 */
module Rotation {
  import opened Bytes
  import opened Identities

  const OUTBOX_LIMIT: int := 128
  const JOURNAL_LIMIT: int := 1024

  datatype Rejection =
    | ArtifactUnavailable
    | ArtifactDigestMismatch
    | PolicyRejected
    | GenerationStale
    | FenceEpochStale
    | MalformedCommand
    | DeviceFailure

  datatype EventKind = AckEvent | ReportEvent | RejectedEvent

  /** The text an event id is derived from: a command id, or a command id joined to a fingerprint. */
  datatype Cause = Direct(commandId: Text) | Conflict(commandId: Text, fingerprint: Digest)

  datatype EventId = EventId(kind: EventKind, source: Cause)

  datatype Token = Token(topic: Topic, commandId: Text, fingerprint: Digest)

  datatype StateHash = StateHash(
    tenant: Uuid, device: Uuid, credentialGeneration: u64, desiredGeneration: u64,
    fenceEpoch: u64, revision: u64, artifactDigest: Digest)

  datatype Current = Current(
    desiredGeneration: u64, fenceEpoch: u64, credentialRevision: u64,
    artifactDigest: Digest, expiresAt: i64)

  datatype Ack = Ack(
    commandId: Text, eventCause: Cause, desiredGeneration: u64, fenceEpoch: u64,
    deviceSequence: u64, observedAt: i64, rejection: Option<Rejection>,
    activatesRevision: Option<u64>, settledReplay: bool)

  datatype Report = Report(
    commandId: Text, observedGeneration: u64, fenceEpoch: u64, deviceSequence: u64,
    observedAt: i64, stateHash: StateHash, artifactDigest: Digest, expiresAt: Option<i64>,
    credentialGeneration: u64, credentialRevision: u64)

  datatype Outbound =
    | AckEntry(eventId: EventId, ack: Ack)
    | ReportBlocked(eventId: EventId, report: Report)
    | ReportReady(eventId: EventId, report: Report)

  datatype StoredCommand = StoredCommand(
    commandId: Text, fingerprint: Digest, acknowledgement: Ack, retainUntil: u64)

  datatype Settlement = Settlement(
    topic: Topic, commandId: Text, fingerprint: Digest, credentialGeneration: u64,
    token: Token, settled: bool)

  datatype State = State(
    schemaVersion: int, identity: DeviceIdentity, current: Current, deviceSequence: u64,
    journal: seq<StoredCommand>, outbox: seq<Outbound>, reconnectRevision: Option<u64>,
    pendingInbound: Option<Settlement>)

  // ----- What is published -----

  datatype AckFact = AckFact(
    commandId: Text, desiredGeneration: u64, fenceEpoch: u64, deviceSequence: u64,
    observedAt: i64, rejection: Option<Rejection>)

  datatype OutboundFact =
    | CommandAcknowledged(eventId: EventId, ack: AckFact)
    | CertificateReported(eventId: EventId, report: Report)

  function FactOf(a: Ack): AckFact {
    AckFact(a.commandId, a.desiredGeneration, a.fenceEpoch, a.deviceSequence, a.observedAt, a.rejection)
  }

  predicate IsReport(e: Outbound) { !e.AckEntry? }

  function Sequence(e: Outbound): u64 {
    if e.AckEntry? then e.ack.deviceSequence else e.report.deviceSequence
  }

  predicate IsDirectAck(e: Outbound, commandId: Text) {
    e.AckEntry? && e.ack.eventCause == Direct(commandId)
  }

  // ----- verify -----

  predicate AckValid(a: Ack) {
    && a.commandId != [] && (a.eventCause.Direct? ==> a.eventCause.commandId != [])
    && a.desiredGeneration > 0 && a.fenceEpoch > 0 && a.deviceSequence > 0
    && a.observedAt >= 0
    && (a.activatesRevision.Some? ==> a.activatesRevision.value > 0)
    && (|| (a.rejection.Some? && a.activatesRevision.None? && !a.settledReplay)
        || (a.rejection.None? && a.activatesRevision.Some? && !a.settledReplay)
        || (a.rejection.None? && a.activatesRevision.None? && a.settledReplay))
  }

  predicate ReportValid(r: Report) {
    && r.commandId != []
    && r.observedGeneration > 0 && r.fenceEpoch > 0 && r.deviceSequence > 0
    && r.observedAt >= 0
    && r.expiresAt.Some? && r.expiresAt.value > 0
    && r.credentialGeneration > 0 && r.credentialRevision > 0
    && r.artifactDigest.Sha256?
  }

  predicate SemanticValid(e: Outbound) {
    match e
    case AckEntry(id, a) =>
      && id == EventId(if a.eventCause == Direct(a.commandId) then AckEvent else RejectedEvent, a.eventCause)
      && AckValid(a)
    case ReportBlocked(id, r) => id == EventId(ReportEvent, Direct(r.commandId)) && ReportValid(r)
    case ReportReady(id, r) => id == EventId(ReportEvent, Direct(r.commandId)) && ReportValid(r)
  }

  predicate CommandValid(c: StoredCommand) {
    && c.commandId == c.acknowledgement.commandId
    && c.commandId != []
    && c.fingerprint.Sha256?
    && AckValid(c.acknowledgement)
    && c.retainUntil > 0
  }

  function ExpectedHash(s: State, r: Report): StateHash {
    StateHash(s.identity.tenant, s.identity.device, r.credentialGeneration, r.observedGeneration,
              r.fenceEpoch, r.credentialRevision, r.artifactDigest)
  }

  predicate ReportMatches(s: State, r: Report) {
    && r.stateHash == ExpectedHash(s, r)
    && r.credentialRevision == s.current.credentialRevision
    && r.observedGeneration == s.current.desiredGeneration
    && r.fenceEpoch == s.current.fenceEpoch
    && r.artifactDigest == s.current.artifactDigest
  }

  predicate CoordinatesValid(s: State, id: DeviceIdentity) {
    && s.schemaVersion == 1
    && s.identity.tenant == id.tenant && s.identity.device == id.device
    && s.identity.generation > 0
    && s.current.desiredGeneration > 0 && s.current.fenceEpoch > 0
    && s.current.credentialRevision > 0 && s.current.expiresAt > 0
    && s.current.artifactDigest.Sha256?
    && |s.outbox| <= OUTBOX_LIMIT && |s.journal| <= JOURNAL_LIMIT
  }

  predicate EntryValid(s: State, e: Outbound) {
    && 0 < Sequence(e) <= s.deviceSequence
    && SemanticValid(e)
    && (IsReport(e) ==> ReportMatches(s, e.report))
  }

  predicate EntriesApart(outbox: seq<Outbound>) {
    forall i, j :: 0 <= i < j < |outbox| ==>
      outbox[i].eventId != outbox[j].eventId && Sequence(outbox[i]) != Sequence(outbox[j])
  }

  predicate IdsApart(journal: seq<StoredCommand>) {
    forall i, j :: 0 <= i < j < |journal| ==> journal[i].commandId != journal[j].commandId
  }

  predicate PendingValid(s: State, p: Settlement) {
    && p.credentialGeneration > 0
    && p.commandId != [] && p.fingerprint.Sha256?
    && p.topic == CommandTopic(DeviceIdentity(s.identity.tenant, s.identity.device, p.credentialGeneration))
    && p.token == Token(p.topic, p.commandId, p.fingerprint)
    && exists c :: c in s.journal && c.commandId == p.commandId && c.fingerprint == p.fingerprint
  }

  predicate HasReport(outbox: seq<Outbound>) {
    exists e :: e in outbox && IsReport(e)
  }

  predicate AtMostOneReport(outbox: seq<Outbound>) {
    forall i, j :: 0 <= i < j < |outbox| ==> !(IsReport(outbox[i]) && IsReport(outbox[j]))
  }

  predicate IsBlockedFor(e: Outbound, revision: u64, commandId: Text) {
    e.ReportBlocked? && e.report.credentialRevision == revision && e.report.commandId == commandId
  }

  predicate IsActivationFor(e: Outbound, revision: u64, commandId: Text) {
    e.AckEntry? && e.ack.activatesRevision == Some(revision) && e.ack.commandId == commandId
  }

  predicate HasBlockedFor(outbox: seq<Outbound>, revision: u64, commandId: Text) {
    exists e :: e in outbox && IsBlockedFor(e, revision, commandId)
  }

  predicate HasActivationFor(outbox: seq<Outbound>, revision: u64, commandId: Text) {
    exists e :: e in outbox && IsActivationFor(e, revision, commandId)
  }

  predicate PhaseValid(s: State, e: Outbound) {
    match e
    case AckEntry(_, a) =>
      a.activatesRevision.Some? ==>
        && a.activatesRevision.value == s.current.credentialRevision
        && HasBlockedFor(s.outbox, a.activatesRevision.value, a.commandId)
        && s.reconnectRevision.None?
    case ReportBlocked(_, r) =>
      && HasActivationFor(s.outbox, r.credentialRevision, r.commandId) == s.reconnectRevision.None?
      && (s.reconnectRevision.Some? ==> s.reconnectRevision.value == r.credentialRevision)
    case ReportReady(_, r) => s.reconnectRevision.None?
  }

  /** `StateV1::verify`: what a loaded or candidate state must satisfy. */
  predicate Verify(s: State, id: DeviceIdentity) {
    && CoordinatesValid(s, id)
    && (forall e :: e in s.outbox ==> EntryValid(s, e))
    && EntriesApart(s.outbox)
    && (forall c :: c in s.journal ==> CommandValid(c))
    && IdsApart(s.journal)
    && (s.pendingInbound.Some? ==> PendingValid(s, s.pendingInbound.value))
    && AtMostOneReport(s.outbox)
    && s.pendingInbound.Some? == HasReport(s.outbox)
    && (forall e :: e in s.outbox ==> PhaseValid(s, e))
    && (s.reconnectRevision.Some? ==>
          HasReport(s.outbox) && s.reconnectRevision.value == s.current.credentialRevision)
  }

  /** `StateV1::validate`: the state verified against its own identity. */
  predicate Validate(s: State) {
    ValidIdentity(s.identity) && Verify(s, s.identity)
  }

  // ----- Queries -----

  predicate Live(c: StoredCommand, commandId: Text, now: u64) {
    c.commandId == commandId && c.retainUntil > now
  }

  function FindLive(journal: seq<StoredCommand>, commandId: Text, now: u64): (r: Option<StoredCommand>)
    ensures r.Some? ==> r.value in journal && Live(r.value, commandId, now)
    ensures r.None? ==> forall c :: c in journal ==> !Live(c, commandId, now)
  {
    if journal == [] then None
    else if Live(journal[0], commandId, now) then Some(journal[0])
    else FindLive(journal[1..], commandId, now)
  }

  function FindCommand(journal: seq<StoredCommand>, commandId: Text, fingerprint: Digest): (r: Option<StoredCommand>)
    ensures r.Some? ==>
      r.value in journal && r.value.commandId == commandId && r.value.fingerprint == fingerprint
    ensures r.None? ==>
      forall c :: c in journal ==> !(c.commandId == commandId && c.fingerprint == fingerprint)
  {
    if journal == [] then None
    else if journal[0].commandId == commandId && journal[0].fingerprint == fingerprint then Some(journal[0])
    else FindCommand(journal[1..], commandId, fingerprint)
  }

  /** `command_match`: whether an unexpired entry for the id exists, and if its payload is the same. */
  function CommandMatch(s: State, commandId: Text, fingerprint: Digest, now: u64): Option<bool> {
    var found := FindLive(s.journal, commandId, now);
    if found.Some? then Some(found.value.fingerprint == fingerprint) else None
  }

  predicate HasCommandAck(outbox: seq<Outbound>, commandId: Text) {
    exists e :: e in outbox && e.AckEntry? && e.ack.commandId == commandId
  }

  predicate HasEvent(outbox: seq<Outbound>, id: EventId) {
    exists e :: e in outbox && e.eventId == id
  }

  predicate HasConflictingReplay(outbox: seq<Outbound>, commandId: Text, fingerprint: Digest) {
    HasEvent(outbox, EventId(RejectedEvent, Conflict(commandId, fingerprint)))
  }

  predicate RotationInFlight(s: State) { HasReport(s.outbox) }

  predicate PendingSettled(s: State) {
    s.pendingInbound.Some? && s.pendingInbound.value.settled
  }

  /** Whether `next_outbound` and `confirm_outbound` may treat the entry as publishable. */
  predicate Publishable(s: State, e: Outbound) {
    match e
    case AckEntry(_, _) => true
    case ReportBlocked(_, _) => false
    case ReportReady(_, _) => PendingSettled(s)
  }

  function FirstPublishable(s: State, entries: seq<Outbound>): (r: Option<Outbound>)
    ensures r.Some? ==> r.value in entries && Publishable(s, r.value)
    ensures r.None? ==> forall e :: e in entries ==> !Publishable(s, e)
  {
    if entries == [] then None
    else if Publishable(s, entries[0]) then Some(entries[0])
    else FirstPublishable(s, entries[1..])
  }

  function Publish(e: Outbound): OutboundFact
    requires !e.ReportBlocked?
  {
    if e.AckEntry? then CommandAcknowledged(e.eventId, FactOf(e.ack))
    else CertificateReported(e.eventId, e.report)
  }

  function NextOutbound(s: State): Option<OutboundFact> {
    var e := FirstPublishable(s, s.outbox);
    if e.Some? then Some(Publish(e.value)) else None
  }

  // ----- Journal expiry and capacity -----

  predicate Kept(pending: Option<Settlement>, now: u64, c: StoredCommand) {
    c.retainUntil > now || (pending.Some? && pending.value.commandId == c.commandId)
  }

  function Retain(journal: seq<StoredCommand>, pending: Option<Settlement>, now: u64): (r: seq<StoredCommand>)
    ensures forall c :: c in r <==> c in journal && Kept(pending, now, c)
    ensures |r| <= |journal|
  {
    if journal == [] then []
    else
      var rest := Retain(journal[1..], pending, now);
      if Kept(pending, now, journal[0]) then [journal[0]] + rest else rest
  }

  function Expire(s: State, now: u64): State {
    s.(journal := Retain(s.journal, s.pendingInbound, now))
  }

  predicate HasJournalCapacity(s: State, now: u64) {
    || |s.journal| < JOURNAL_LIMIT
    || exists c :: c in s.journal && !Kept(s.pendingInbound, now, c)
  }

  predicate CommandIntakeOpen(s: State, now: u64) {
    |s.outbox| + 2 <= OUTBOX_LIMIT && HasJournalCapacity(s, now)
  }

  // ----- Candidate transitions -----

  datatype Acceptance = Acceptance(
    commandId: Text, fingerprint: Digest, generation: u64, fence: u64, credentialGeneration: u64,
    revision: u64, artifactDigest: Digest, expiresAt: i64, observedAt: i64, retainUntil: u64)

  function AcceptedAck(s: State, a: Acceptance): Ack {
    Ack(a.commandId, Direct(a.commandId), a.generation, a.fence, SaturatingAdd(s.deviceSequence, 1),
        a.observedAt, None, Some(a.revision), false)
  }

  function AcceptedReport(s: State, a: Acceptance): Report {
    Report(a.commandId, a.generation, a.fence, SaturatingAdd(SaturatingAdd(s.deviceSequence, 1), 1),
           a.observedAt,
           StateHash(s.identity.tenant, s.identity.device, a.credentialGeneration, a.generation,
                     a.fence, a.revision, a.artifactDigest),
           a.artifactDigest, Some(a.expiresAt), a.credentialGeneration, a.revision)
  }

  function AcceptedSettlement(s: State, a: Acceptance): Settlement {
    var topic := CommandTopic(s.identity);
    Settlement(topic, a.commandId, a.fingerprint, s.identity.generation,
               Token(topic, a.commandId, a.fingerprint), false)
  }

  function Accept(s: State, a: Acceptance): State {
    var ack := AcceptedAck(s, a);
    State(s.schemaVersion,
          s.identity.(generation := a.credentialGeneration),
          Current(a.generation, a.fence, a.revision, a.artifactDigest, a.expiresAt),
          SaturatingAdd(SaturatingAdd(s.deviceSequence, 1), 1),
          s.journal + [StoredCommand(a.commandId, a.fingerprint, ack, a.retainUntil)],
          s.outbox + [AckEntry(EventId(AckEvent, Direct(a.commandId)), ack),
                      ReportBlocked(EventId(ReportEvent, Direct(a.commandId)), AcceptedReport(s, a))],
          s.reconnectRevision,
          Some(AcceptedSettlement(s, a)))
  }

  datatype Refusal = Refusal(
    commandId: Text, fingerprint: Digest, generation: u64, fence: u64, rejection: Rejection,
    observedAt: i64, retainUntil: u64)

  function RejectedAck(s: State, r: Refusal): Ack {
    Ack(r.commandId, Direct(r.commandId), r.generation, r.fence, SaturatingAdd(s.deviceSequence, 1),
        r.observedAt, Some(r.rejection), None, false)
  }

  function Reject(s: State, r: Refusal): State {
    var ack := RejectedAck(s, r);
    s.(deviceSequence := SaturatingAdd(s.deviceSequence, 1),
       journal := s.journal + [StoredCommand(r.commandId, r.fingerprint, ack, r.retainUntil)],
       outbox := s.outbox + [AckEntry(EventId(AckEvent, Direct(r.commandId)), ack)])
  }

  function ConflictAck(s: State, commandId: Text, fingerprint: Digest, generation: u64, fence: u64,
                       observedAt: i64): Ack {
    Ack(commandId, Conflict(commandId, fingerprint), generation, fence,
        SaturatingAdd(s.deviceSequence, 1), observedAt, Some(MalformedCommand), None, false)
  }

  function RejectConflict(s: State, commandId: Text, fingerprint: Digest, generation: u64, fence: u64,
                          observedAt: i64): State {
    s.(deviceSequence := SaturatingAdd(s.deviceSequence, 1),
       outbox := s.outbox + [AckEntry(EventId(RejectedEvent, Conflict(commandId, fingerprint)),
                                      ConflictAck(s, commandId, fingerprint, generation, fence, observedAt))])
  }

  function ReplayedAck(a: Ack): Ack {
    if a.rejection.None? then a.(activatesRevision := None, settledReplay := true) else a
  }

  function Replay(s: State, c: StoredCommand): State {
    s.(outbox := s.outbox + [AckEntry(EventId(AckEvent, Direct(c.commandId)), ReplayedAck(c.acknowledgement))])
  }

  /** Index of the first entry with this event id, or the length of the outbox. */
  function PositionOf(outbox: seq<Outbound>, id: EventId): (i: nat)
    ensures i <= |outbox|
    ensures i < |outbox| ==> outbox[i].eventId == id
    ensures forall k :: 0 <= k < i ==> outbox[k].eventId != id
  {
    if outbox == [] then 0
    else if outbox[0].eventId == id then 0
    else 1 + PositionOf(outbox[1..], id)
  }

  predicate HasBlockedRevision(outbox: seq<Outbound>, revision: u64) {
    exists e :: e in outbox && e.ReportBlocked? && e.report.credentialRevision == revision
  }

  /** `confirm_outbound`: None when the event is unknown or not yet publishable. */
  function Confirm(s: State, id: EventId): Option<State> {
    var index := PositionOf(s.outbox, id);
    if index == |s.outbox| then None
    else
      var confirmed := s.outbox[index];
      if confirmed.ReportReady? && !PendingSettled(s) then None
      else Some(Confirmed(s, index))
  }

  function Confirmed(s: State, index: nat): State
    requires index < |s.outbox|
  {
    var confirmed := s.outbox[index];
    var rest := RemoveAt(s.outbox, index);
    var reconnect :=
      if confirmed.AckEntry? && confirmed.ack.activatesRevision.Some?
         && HasBlockedRevision(rest, confirmed.ack.activatesRevision.value)
      then confirmed.ack.activatesRevision else s.reconnectRevision;
    var pending := if confirmed.ReportReady? then None else s.pendingInbound;
    s.(outbox := rest, reconnectRevision := reconnect, pendingInbound := pending)
  }

  function Released(e: Outbound): Outbound {
    if e.ReportBlocked? then ReportReady(e.eventId, e.report) else e
  }

  function MarkReconnected(s: State, revision: u64): Option<State> {
    if s.reconnectRevision != Some(revision) then None
    else Some(s.(outbox := seq(|s.outbox|, i requires 0 <= i < |s.outbox| => Released(s.outbox[i])),
                 reconnectRevision := None))
  }

  function MarkSettled(s: State, token: Option<Token>): Option<State> {
    if s.pendingInbound.None? then None
    else if token.Some? && token.value != s.pendingInbound.value.token then None
    else Some(s.(pendingInbound := Some(s.pendingInbound.value.(settled := true))))
  }

  // ----- The agent's operations -----

  datatype Fault =
    | OutboxFull
    | CommandJournalFull
    | InvalidState
    | UnknownOutbound
    | UnexpectedReconnect
    | UnexpectedDelivery
    | InFlight

  datatype Outcome =
    | Accepted
    | Duplicate
    | Rejected(reason: Rejection)
    | Done
    | Refused(fault: Fault)

  datatype Step = Step(state: State, outcome: Outcome)

  /** A decoded command, as `DeviceCommand::new` receives it. */
  datatype DeviceCommand = DeviceCommand(
    commandId: Text, deviceId: Uuid, artifactId: Text, artifactDigest: Digest, receiptId: Uuid,
    deadline: u64, desiredGeneration: u64, fenceEpoch: u64, intentDigest: Digest, policyHash: Digest)

  /** What the artifact catalog answered for a command. */
  datatype Resolution =
    | Resolved(credentialGeneration: u64, digest: Digest, expiresAt: i64)
    | Unresolved(rejection: Rejection)

  /** `persist_candidate` when the store accepts the write: keep the old state unless the new one validates. */
  function Persist(s: State, candidate: State, outcome: Outcome): Step {
    if Validate(candidate) then Step(candidate, outcome) else Step(s, Refused(InvalidState))
  }

  function RetentionDeadline(retention: u64, observedAt: i64): u64 {
    if observedAt < 0 then U64_MAX else SaturatingAdd(observedAt, retention)
  }

  function PersistRejection(s: State, r: Refusal, expireAt: u64): Step {
    var candidate := Expire(s, expireAt);
    if |candidate.outbox| + 1 > OUTBOX_LIMIT then Step(s, Refused(OutboxFull))
    else if |candidate.journal| >= JOURNAL_LIMIT then Step(s, Refused(CommandJournalFull))
    else Persist(s, Reject(candidate, r), Rejected(r.rejection))
  }

  function CommandRefusal(c: DeviceCommand, fingerprint: Digest, reason: Rejection, retention: u64, now: u64): Refusal {
    Refusal(c.commandId, fingerprint, c.desiredGeneration, c.fenceEpoch, reason, ClampToI64(now),
            RetentionDeadline(retention, ClampToI64(now)))
  }

  function RejectCommand(s: State, retention: u64, c: DeviceCommand, fingerprint: Digest,
                         reason: Rejection, now: u64): Step {
    PersistRejection(s, CommandRefusal(c, fingerprint, reason, retention, now), ClampToI64(now))
  }

  function CommandAcceptance(s: State, c: DeviceCommand, fingerprint: Digest, res: Resolution,
                             retention: u64, now: u64): Acceptance
    requires res.Resolved? && s.current.credentialRevision < U64_MAX
  {
    Acceptance(c.commandId, fingerprint, c.desiredGeneration, c.fenceEpoch, res.credentialGeneration,
               s.current.credentialRevision + 1, res.digest, res.expiresAt, ClampToI64(now),
               RetentionDeadline(retention, ClampToI64(now)))
  }

  function Commit(s: State, retention: u64, c: DeviceCommand, fingerprint: Digest, res: Resolution, now: u64): Step
    requires res.Resolved?
  {
    var candidate := Expire(s, ClampToI64(now));
    if |candidate.outbox| + 2 > OUTBOX_LIMIT then Step(s, Refused(OutboxFull))
    else if |candidate.journal| >= JOURNAL_LIMIT then Step(s, Refused(CommandJournalFull))
    else if candidate.current.credentialRevision == U64_MAX then Step(s, Refused(InvalidState))
    else Persist(s, Accept(candidate, CommandAcceptance(candidate, c, fingerprint, res, retention, now)), Accepted)
  }

  function ReplayKnown(s: State, commandId: Text, fingerprint: Digest): Step {
    if HasCommandAck(s.outbox, commandId) then Step(s, Duplicate)
    else if |s.outbox| + 1 > OUTBOX_LIMIT then Step(s, Refused(OutboxFull))
    else
      var found := FindCommand(s.journal, commandId, fingerprint);
      if found.None? then Step(s, Refused(InvalidState))
      else Persist(s, Replay(s, found.value), Duplicate)
  }

  function RefuseConflict(s: State, commandId: Text, fingerprint: Digest, generation: u64, fence: u64, now: u64): Step {
    if HasConflictingReplay(s.outbox, commandId, fingerprint) then Step(s, Rejected(MalformedCommand))
    else if |s.outbox| + 1 > OUTBOX_LIMIT then Step(s, Refused(OutboxFull))
    else Persist(s, RejectConflict(s, commandId, fingerprint, generation, fence, ClampToI64(now)),
                 Rejected(MalformedCommand))
  }

  /** How a command with no unexpired journal entry is answered once no rotation is in flight. */
  datatype Decision = Install | Turn(reason: Rejection)

  function Decide(s: State, topic: Topic, c: DeviceCommand, res: Resolution, now: u64): Decision {
    if topic != CommandTopic(s.identity) || c.deviceId != s.identity.device then Turn(MalformedCommand)
    else if c.deadline <= now then Turn(PolicyRejected)
    else if res.Unresolved? then Turn(res.rejection)
    else if c.fenceEpoch < s.current.fenceEpoch then Turn(FenceEpochStale)
    else if c.desiredGeneration < s.current.desiredGeneration then Turn(GenerationStale)
    else if c.desiredGeneration == s.current.desiredGeneration
         || res.credentialGeneration <= s.identity.generation then Turn(MalformedCommand)
    else Install
  }

  function ApplyCommand(s: State, retention: u64, topic: Topic, c: DeviceCommand, fingerprint: Digest,
                        res: Resolution, now: u64): Step {
    match CommandMatch(s, c.commandId, fingerprint, now)
    case Some(same) =>
      if same then ReplayKnown(s, c.commandId, fingerprint)
      else RefuseConflict(s, c.commandId, fingerprint, c.desiredGeneration, c.fenceEpoch, now)
    case None =>
      if RotationInFlight(s) then Step(s, Refused(InFlight))
      else
        match Decide(s, topic, c, res, now)
        case Turn(reason) => RejectCommand(s, retention, c, fingerprint, reason, now)
        case Install =>
          if res.Resolved? then Commit(s, retention, c, fingerprint, res, now)
          else Step(s, Refused(InvalidState))
  }

  predicate InScope(s: State, topic: Topic) {
    || topic == CommandTopic(s.identity)
    || (s.pendingInbound.Some? && s.pendingInbound.value.topic == topic)
  }

  function MalformedRefusal(s: State, commandId: Text, fingerprint: Digest, retention: u64, now: u64): Refusal {
    Refusal(commandId, fingerprint, s.current.desiredGeneration, s.current.fenceEpoch, MalformedCommand,
            ClampToI64(now), RetentionDeadline(retention, ClampToI64(now)))
  }

  function RejectMalformed(s: State, retention: u64, topic: Topic, commandId: Text, fingerprint: Digest, now: u64): Step {
    if !InScope(s, topic) then Step(s, Refused(UnexpectedDelivery))
    else
      match CommandMatch(s, commandId, fingerprint, now)
      case Some(same) =>
        if same then ReplayKnown(s, commandId, fingerprint)
        else RefuseConflict(s, commandId, fingerprint, s.current.desiredGeneration, s.current.fenceEpoch, now)
      case None =>
        PersistRejection(s, MalformedRefusal(s, commandId, fingerprint, retention, now), now)
  }

  function ConfirmOutbound(s: State, id: EventId): Step {
    var candidate := Confirm(s, id);
    if candidate.None? then Step(s, Refused(UnknownOutbound))
    else Persist(s, candidate.value, Done)
  }

  function CredentialConnected(s: State, revision: u64): Step {
    var candidate := MarkReconnected(s, revision);
    if candidate.None? then Step(s, Refused(UnexpectedReconnect))
    else Persist(s, candidate.value, Done)
  }

  function InboundSettled(s: State, token: Option<Token>): Step {
    var candidate := MarkSettled(s, token);
    if candidate.None? then Step(s, Refused(UnexpectedDelivery))
    else Persist(s, candidate.value, Done)
  }

  // ----- Runs -----

  datatype Event =
    | Deliver(topic: Topic, command: DeviceCommand, fingerprint: Digest, resolution: Resolution, now: u64)
    | DeliverMalformed(topic: Topic, commandId: Text, fingerprint: Digest, now: u64)
    | BrokerConfirmed(eventId: EventId)
    | Reconnected(revision: u64)
    | Settled(token: Option<Token>)

  /** What the constructors of the Rust argument types guarantee. */
  predicate WellTyped(e: Event) {
    match e
    case Deliver(_, c, f, res, _) =>
      && c.commandId != [] && c.desiredGeneration > 0 && c.fenceEpoch > 0 && f.Sha256?
      && (res.Resolved? ==> res.credentialGeneration > 0 && res.digest.Sha256?)
    case DeliverMalformed(_, id, f, _) => id != [] && f.Sha256?
    case _ => true
  }

  predicate IsDelivery(e: Event) { e.Deliver? || e.DeliverMalformed? }

  /** One call of the agent's public interface. */
  function Next(s: State, retention: u64, e: Event): Step {
    match e
    case Deliver(topic, c, f, res, now) => ApplyCommand(s, retention, topic, c, f, res, now)
    case DeliverMalformed(topic, id, f, now) => RejectMalformed(s, retention, topic, id, f, now)
    case BrokerConfirmed(id) => ConfirmOutbound(s, id)
    case Reconnected(revision) => CredentialConnected(s, revision)
    case Settled(token) => InboundSettled(s, token)
  }

  /** `StateV1::initial` over arguments the configuration loader admits. */
  predicate Initial(s: State) {
    && ValidIdentity(s.identity)
    && s.schemaVersion == 1
    && s.current.desiredGeneration > 0 && s.current.fenceEpoch > 0
    && s.current.credentialRevision > 0 && s.current.expiresAt > 0
    && s.current.artifactDigest.Sha256?
    && s.deviceSequence == 0 && s.journal == [] && s.outbox == []
    && s.reconnectRevision.None? && s.pendingInbound.None?
  }
}
