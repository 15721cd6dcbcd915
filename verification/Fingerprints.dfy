/**
 The identifiers of the model as the texts they stand for: fingerprints, event ids, settlement tokens
 and state hashes. The only assumption is that the digests a theorem compares print differently and
 that no print holds a NUL.
 */
module Fingerprints {
  import opened Bytes
  import opened Identities
  import opened Rotation
  import opened RotationInvariant
  import opened Operations
  import opened Runs
  import opened Preimages
  import Topics

  /** Digests print without a NUL, and these print differently. */
  ghost predicate Faithful(hex: Digest -> Text, ds: seq<Digest>) {
    (forall d, e :: d in ds && e in ds && hex(d) == hex(e) ==> d == e) && forall d :: 0 !in hex(d)
  }

  function IndexOf(ds: seq<Digest>, d: Digest): (i: nat)
    ensures i <= |ds| && (d in ds ==> i < |ds| && ds[i] == d)
  {
    if ds == [] then 0 else if ds[0] == d then 0 else 1 + IndexOf(ds[1..], d)
  }

  /** The assumption can be met by prints of 64 bytes, for any few digests; for all of them at once it could not. */
  lemma FaithfulMet(ds: seq<Digest>) returns (hex: Digest -> Text)
    requires |ds| <= 200
    ensures Faithful(hex, ds) && forall d :: |hex(d)| == 64
  {
    hex := d => seq(64, i => if IndexOf(ds, d) <= 200 then 1 + IndexOf(ds, d) else 1);
    forall d, e | d in ds && e in ds && hex(d) == hex(e) ensures d == e {
      assert hex(d)[0] == hex(e)[0];
    }
  }

  function CommandDigests(c: DeviceCommand): seq<Digest> { [c.artifactDigest, c.intentDigest, c.policyHash] }

  function CauseDigests(cause: Cause): seq<Digest> { if cause.Conflict? then [cause.fingerprint] else [] }

  // ----- Fingerprints of deliveries -----

  function TextOf(hex: Digest -> Text, c: DeviceCommand): CommandText {
    CommandText(c.commandId, c.artifactId, hex(c.artifactDigest), hex(c.intentDigest), hex(c.policyHash),
                c.deviceId, c.receiptId, c.deadline, c.desiredGeneration, c.fenceEpoch)
  }

  function CommandFingerprint(hex: Digest -> Text, c: DeviceCommand): Digest {
    Sha256(CommandPreimage(TextOf(hex, c)))
  }

  function MalformedFingerprint(topic: Text, commandId: Text, payloadDigest: Text): Digest {
    Sha256(MalformedPreimage(topic, commandId, payloadDigest))
  }

  predicate Printable(c: DeviceCommand) { c.commandId != [] && 0 !in c.commandId && 0 !in c.artifactId }

  lemma FingerprintExact(hex: Digest -> Text, c: DeviceCommand, d: DeviceCommand)
    requires Faithful(hex, CommandDigests(c) + CommandDigests(d)) && Printable(c) && Printable(d)
    ensures CommandFingerprint(hex, c) == CommandFingerprint(hex, d) <==> c == d
  {
    hide CommandPreimage;
    if CommandFingerprint(hex, c) == CommandFingerprint(hex, d) {
      CommandPreimageInjective(TextOf(hex, c), TextOf(hex, d));
    }
  }

  /**
   While a command's entry is unexpired, a delivery under its id is a replay if and only if it is the
   same command in every field; any other command is answered as a conflict.
   */
  lemma RedeliveryIsRecognised(hex: Digest -> Text, s: State, retention: u64, entry: StoredCommand, c: DeviceCommand,
                               topic: Topic, d: DeviceCommand, res: Resolution, now: u64)
    requires Faithful(hex, CommandDigests(c) + CommandDigests(d)) && Printable(c) && Printable(d) && d.commandId == c.commandId
    requires Inv(s) && retention > 0 && entry in s.journal && entry.retainUntil > now
    requires entry.commandId == c.commandId && entry.fingerprint == CommandFingerprint(hex, c)
    requires WellTyped(Deliver(topic, d, CommandFingerprint(hex, d), res, now))
    ensures Next(s, retention, Deliver(topic, d, CommandFingerprint(hex, d), res, now)).outcome
            == if d == c then ReplayOutcome(s, entry) else ConflictOutcome(s, c.commandId, CommandFingerprint(hex, d))
  {
    hide Next, CommandFingerprint, Verify, Owned;
    FingerprintExact(hex, c, d);
    LiveEntryUnique(s, entry, now);
    DeliverExact(s, retention, Deliver(topic, d, CommandFingerprint(hex, d), res, now));
  }

  /** An undecodable delivery under the id of a decoded command is a conflict, and the other way round. */
  lemma UndecodableNeverReplays(hex: Digest -> Text, c: DeviceCommand, topic: Text, commandId: Text, payloadDigest: Text)
    ensures CommandFingerprint(hex, c) != MalformedFingerprint(topic, commandId, payloadDigest)
  {
    FingerprintDomainsDisjoint(TextOf(hex, c), topic, commandId, payloadDigest);
  }

  // ----- Event ids -----

  function KindText(k: EventKind): Text {
    match k
    case AckEvent => Ascii("ack")
    case ReportEvent => Ascii("report")
    case RejectedEvent => Ascii("rejected")
  }

  function CauseText(hex: Digest -> Text, cause: Cause): Text {
    match cause
    case Direct(id) => id
    case Conflict(id, f) => id + [0] + hex(f)
  }

  /** The text hashed into an event id, after its kind. */
  function EventText(hex: Digest -> Text, id: EventId): Text {
    EventPreimage(KindText(id.kind), CauseText(hex, id.source))
  }

  predicate CleanCause(cause: Cause) { 0 !in cause.commandId }

  lemma KindsApart(a: EventKind, b: EventKind)
    ensures 0 !in KindText(a)
    ensures KindText(a) == KindText(b) <==> a == b
  {
    assert |KindText(AckEvent)| == 3 && |KindText(ReportEvent)| == 6 && |KindText(RejectedEvent)| == 8;
    assert forall c :: c in "ack" || c in "report" || c in "rejected" ==> 0 < (c as int) < 128;
  }

  lemma CauseExact(hex: Digest -> Text, a: Cause, b: Cause)
    requires Faithful(hex, CauseDigests(a) + CauseDigests(b)) && CleanCause(a) && CleanCause(b) && CauseText(hex, a) == CauseText(hex, b)
    ensures a == b
  {
    match (a, b) {
      case (Direct(_), Direct(_)) =>
      case (Conflict(i, f), Conflict(j, g)) => ConflictSourceInjective(i, hex(f), j, hex(g));
      case (Direct(i), Conflict(j, g)) => ConflictSourceInjective(j, hex(g), i, []);
      case (Conflict(i, f), Direct(j)) => ConflictSourceInjective(i, hex(f), j, []);
    }
  }

  lemma EventTextInjective(hex: Digest -> Text, a: EventId, b: EventId)
    requires Faithful(hex, CauseDigests(a.source) + CauseDigests(b.source)) && CleanCause(a.source) && CleanCause(b.source)
    requires EventText(hex, a) == EventText(hex, b)
    ensures a == b
  {
    hide KindText, CauseText, EventPreimage;
    KindsApart(a.kind, b.kind);
    KindsApart(b.kind, a.kind);
    EventPreimageInjective(KindText(a.kind), CauseText(hex, a.source), KindText(b.kind), CauseText(hex, b.source));
    CauseExact(hex, a.source, b.source);
  }

  // ----- The causes a run can reach -----

  /** Delivered ids are accepted command ids, which hold no control character. */
  predicate CleanEvents(events: seq<Event>) {
    forall i :: 0 <= i < |events| && IsDelivery(events[i]) ==> 0 !in DeliveredId(events[i])
  }

  predicate Clean(s: State) {
    && (forall x :: x in s.outbox ==> CleanCause(x.eventId.source))
    && (forall c :: c in s.journal ==> 0 !in c.commandId)
  }

  lemma StepStaysClean(s: State, retention: u64, e: Event)
    requires Inv(s) && retention > 0 && WellTyped(e) && Clean(s) && (IsDelivery(e) ==> 0 !in DeliveredId(e))
    ensures Clean(Next(s, retention, e).state)
  {
    hide Verify, Owned, Next;
    InvariantParts(s);
    if IsDelivery(e) {
      var f := EffectOf(s, retention, e);
    } else {
      SettlementCarries(s, retention, e);
      forall x | x in Next(s, retention, e).state.outbox ensures CleanCause(x.eventId.source) {
        SettlementIds(s, retention, e, x);
      }
    }
  }

  lemma SettlementIds(s: State, retention: u64, e: Event, x: Outbound)
    requires Inv(s) && !IsDelivery(e) && x in Next(s, retention, e).state.outbox
    ensures exists y :: y in s.outbox && y.eventId == x.eventId
  {
    hide Verify, Owned;
    match e
    case BrokerConfirmed(id) =>
    case Reconnected(revision) =>
      var i :| 0 <= i < |Next(s, retention, e).state.outbox| && Next(s, retention, e).state.outbox[i] == x;
      assert s.outbox[i] in s.outbox && s.outbox[i].eventId == x.eventId;
    case Settled(_) =>
  }

  lemma {:induction false} RunStaysClean(s: State, retention: u64, events: seq<Event>)
    requires Initial(s) && retention > 0 && AllTyped(events) && CleanEvents(events)
    ensures Clean(After(s, retention, events))
    decreases |events|
  {
    hide Next;
    if events != [] {
      var n := |events| - 1;
      RunStaysClean(s, retention, events[..n]);
      InitialInvariant(s);
      RunKeepsInvariant(s, retention, events[..n]);
      StepStaysClean(After(s, retention, events[..n]), retention, events[n]);
    }
  }

  /** In every run, no two queued entries are published under the same event id text. */
  lemma EventTextsApart(hex: Digest -> Text, s: State, retention: u64, events: seq<Event>, x: Outbound, y: Outbound)
    requires Faithful(hex, CauseDigests(x.eventId.source) + CauseDigests(y.eventId.source)) && Initial(s) && retention > 0 && AllTyped(events) && CleanEvents(events)
    requires x in After(s, retention, events).outbox && y in After(s, retention, events).outbox
    ensures EventText(hex, x.eventId) == EventText(hex, y.eventId) ==> x == y
  {
    hide EventText;
    RunStaysClean(s, retention, events);
    InitialInvariant(s);
    RunKeepsInvariant(s, retention, events);
    InvariantParts(After(s, retention, events));
    if EventText(hex, x.eventId) == EventText(hex, y.eventId) {
      EventTextInjective(hex, x.eventId, y.eventId);
      SameEntry(After(s, retention, events), x, y);
    }
  }

  // ----- Settlement tokens and state hashes -----

  /** The text hashed into the settlement token of a delivery on an identity's command topic. */
  function TokenText(hex: Digest -> Text, id: DeviceIdentity, commandId: Text, fingerprint: Digest): Text {
    TokenSource(Topics.CommandTopicText(id), commandId, hex(fingerprint))
  }

  lemma TokenTextInjective(hex: Digest -> Text, a: DeviceIdentity, c: Text, f: Digest, b: DeviceIdentity, d: Text, g: Digest)
    requires Faithful(hex, [f, g]) && 0 !in c && 0 !in d && TokenText(hex, a, c, f) == TokenText(hex, b, d, g)
    ensures Token(CommandTopic(a), c, f) == Token(CommandTopic(b), d, g)
  {
    hide Topics.CommandTopicText, TokenSource;
    Topics.TopicNulFree(a);
    Topics.TopicNulFree(b);
    TokenSourceInjective(Topics.CommandTopicText(a), c, hex(f), Topics.CommandTopicText(b), d, hex(g));
    Topics.CommandTopicInjective(a, b);
  }

  function StateText(hex: Digest -> Text, h: StateHash): Text {
    StatePreimage(Hashed(h.tenant, h.device, h.credentialGeneration, h.desiredGeneration, h.fenceEpoch, h.revision,
                         hex(h.artifactDigest)))
  }

  lemma StateTextInjective(hex: Digest -> Text, h: StateHash, k: StateHash)
    requires Faithful(hex, [h.artifactDigest, k.artifactDigest]) && StateText(hex, h) == StateText(hex, k)
    ensures h == k
  {
    hide StatePreimage;
    StatePreimageInjective(Hashed(h.tenant, h.device, h.credentialGeneration, h.desiredGeneration, h.fenceEpoch, h.revision, hex(h.artifactDigest)),
                           Hashed(k.tenant, k.device, k.credentialGeneration, k.desiredGeneration, k.fenceEpoch, k.revision, hex(k.artifactDigest)));
  }

  // ----- The texts, spelled out -----

  lemma TextsSpelledOut(hex: Digest -> Text, c: DeviceCommand, id: Text, f: Digest, owner: DeviceIdentity, h: StateHash)
    ensures CommandFingerprint(hex, c) == Sha256(
      Ascii("rss.reference-device-agent.command.v1") + [0] + c.commandId + [0] + c.artifactId + [0] + hex(c.artifactDigest) + [0]
      + hex(c.intentDigest) + [0] + hex(c.policyHash) + [0] + c.deviceId + c.receiptId + BigEndian(c.deadline, 8)
      + BigEndian(c.desiredGeneration, 8) + BigEndian(c.fenceEpoch, 8))
    ensures EventText(hex, EventId(AckEvent, Direct(id))) ==
      Ascii("rss.reference-device-agent.event.v1") + [0] + Ascii("ack") + [0] + id
    ensures EventText(hex, EventId(ReportEvent, Direct(id))) ==
      Ascii("rss.reference-device-agent.event.v1") + [0] + Ascii("report") + [0] + id
    ensures EventText(hex, EventId(RejectedEvent, Conflict(id, f))) ==
      Ascii("rss.reference-device-agent.event.v1") + [0] + Ascii("rejected") + [0] + id + [0] + hex(f)
    ensures TokenText(hex, owner, id, f) == Topics.CommandTopicText(owner) + [0] + id + [0] + hex(f)
    ensures StateText(hex, h) ==
      Ascii("rss.reference-device-agent.state.v1") + [0] + h.tenant + h.device + BigEndian(h.credentialGeneration, 8)
      + BigEndian(h.desiredGeneration, 8) + BigEndian(h.fenceEpoch, 8) + BigEndian(h.revision, 8) + hex(h.artifactDigest)
  {
    hide CommandPreimage, EventPreimage, StatePreimage, TokenSource, Ascii, BigEndian, Topics.CommandTopicText;
    var m, topic := Material([], [], []), Topics.CommandTopicText(owner);
    var t := Hashed(h.tenant, h.device, h.credentialGeneration, h.desiredGeneration, h.fenceEpoch, h.revision, hex(h.artifactDigest));
    HashedBytes(m, TextOf(hex, c), t, topic, id, hex(f), Ascii("ack"), id);
    HashedBytes(m, TextOf(hex, c), t, topic, id, hex(f), Ascii("report"), id);
    HashedBytes(m, TextOf(hex, c), t, topic, id, hex(f), Ascii("rejected"), id + [0] + hex(f));
  }
}
