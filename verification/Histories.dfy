/** Concrete histories in which the code does not do what is wanted of it, each from an initial state. */
module Histories {
  import opened Bytes
  import opened Identities
  import opened Rotation
  import opened RotationInvariant
  import opened Operations
  import opened Driver
  import DriverRuns

  // ----- The clock past i64::MAX -----

  /**
   Past the clamp the entry a call writes is expired when it is written: the same delivery at the same
   time is not recognised, and is refused because its first answer is still queued.
   */
  lemma ClampedEntryIsExpired(s: State, retention: u64, commandId: Text, fingerprint: Digest, now: u64)
    requires Initial(s) && 0 < retention && I64_MAX + retention <= now
    requires commandId != [] && fingerprint.Sha256?
    ensures var e := DeliverMalformed(CommandTopic(s.identity), commandId, fingerprint, now);
            var step := Next(s, retention, e);
      && step.outcome == Rejected(MalformedCommand) && HasCommandAck(step.state.outbox, commandId)
      && !HasLiveEntry(step.state, commandId, now)
      && Next(step.state, retention, e) == Step(step.state, Refused(InvalidState))
  {
    InitialInvariant(s);
    var e := DeliverMalformed(CommandTopic(s.identity), commandId, fingerprint, now);
    MalformedExact(s, retention, e);
    assert HasJournalCapacity(s, now);
    var t := Next(s, retention, e).state;
    assert t == Reject(Expire(s, now), MalformedRefusal(s, commandId, fingerprint, retention, now));
    assert |t.journal| == 1 && |t.outbox| == 1;
    assert t.outbox[0] in t.outbox && IsDirectAck(t.outbox[0], commandId);
    MalformedExact(t, retention, e);
    assert HasJournalCapacity(t, now);
    RefusedUnchanged(t, retention, e);
  }

  // ----- A rotation and what it leaves -----

  /** An installable command for an initial state. */
  predicate Installable(s: State, c: DeviceCommand, fingerprint: Digest, res: Resolution, now: u64) {
    && c.commandId != [] && fingerprint.Sha256? && c.deviceId == s.identity.device && c.deadline > now
    && c.desiredGeneration > s.current.desiredGeneration && c.fenceEpoch >= s.current.fenceEpoch
    && res.Resolved? && res.digest.Sha256? && res.credentialGeneration > s.identity.generation && res.expiresAt > 0
    && s.current.credentialRevision < U64_MAX && now <= I64_MAX
  }

  /** An acceptance over an empty or singly filled outbox, spelled out. */
  lemma AcceptanceSpelledOut(s: State, retention: u64, c: DeviceCommand, fingerprint: Digest, res: Resolution, now: u64)
    requires Inv(s) && retention > 0 && Installable(s, c, fingerprint, res, now) && s.pendingInbound.None?
    requires s.deviceSequence <= 1 && |s.outbox| <= 1 && |s.journal| <= 1
    requires (forall x :: x in s.outbox ==> x.AckEntry? && x.ack.commandId != c.commandId && x.ack.eventCause.Direct?)
    requires (forall x :: x in s.journal ==> x.commandId != c.commandId && x.retainUntil > now)
    ensures var step := Next(s, retention, Deliver(CommandTopic(s.identity), c, fingerprint, res, now));
            var a := CommandAcceptance(s, c, fingerprint, res, retention, now);
      && step == Step(Accept(s, a), Accepted)
      && CommandIntakeOpen(step.state, now)
  {
    InvariantParts(s);
    var e := Deliver(CommandTopic(s.identity), c, fingerprint, res, now);
    assert Expire(s, now) == s by { KeepsAll(s.journal, s.pendingInbound, now); }
    assert FindLive(s.journal, c.commandId, now).None?;
    assert !RotationInFlight(s);
    assert !AnswerQueued(s, c.commandId);
    DeliverExact(s, retention, e);
    assert HasJournalCapacity(s, now);
  }

  lemma KeepsAll(journal: seq<StoredCommand>, pending: Option<Settlement>, now: u64)
    requires |journal| <= 1 && forall x :: x in journal ==> x.retainUntil > now
    ensures Retain(journal, pending, now) == journal
  {
    if journal != [] { assert journal[0] in journal; }
  }

  /** Confirming the first of several entries, an acknowledgement, leaves the others. */
  lemma FirstConfirmed(s: State, id: EventId)
    requires Inv(s) && s.outbox != [] && s.outbox[0].AckEntry? && s.outbox[0].eventId == id
    ensures ConfirmOutbound(s, id) == Step(Confirmed(s, 0), Done)
    ensures Confirmed(s, 0).outbox == s.outbox[1..] && Confirmed(s, 0).journal == s.journal
    ensures s.outbox[0].ack.activatesRevision.None? ==> Confirmed(s, 0).reconnectRevision == s.reconnectRevision
  {
    assert s.outbox[0] in s.outbox && Publishable(s, s.outbox[0]);
    ConfirmExact(s, id);
    assert PositionOf(s.outbox, id) == 0;
  }

  /**
   The other leftover: the command's acknowledgement is confirmed and its entry expired, but kept
   because its delivery is pending. A malformed delivery of the same id is then refused.
   */
  lemma PendingLeftoverRefused(s: State, retention: u64, c: DeviceCommand, fingerprint: Digest, res: Resolution, now: u64, malformed: Digest)
    requires Initial(s) && 0 < retention && now + retention <= I64_MAX && Installable(s, c, fingerprint, res, now)
    requires malformed.Sha256?
    ensures var topic := CommandTopic(s.identity);
            var first := Next(s, retention, Deliver(topic, c, fingerprint, res, now));
            var second := Next(first.state, retention, BrokerConfirmed(EventId(AckEvent, Direct(c.commandId))));
      && first.outcome == Accepted && second.outcome == Done
      && !AnswerQueued(second.state, c.commandId) && Leftover(second.state, c.commandId)
      && Next(second.state, retention, DeliverMalformed(topic, c.commandId, malformed, now + retention))
         == Step(second.state, Refused(InvalidState))
  {
    hide Next, Inv, AnswerQueued;
    var e := Deliver(CommandTopic(s.identity), c, fingerprint, res, now);
    AcceptedThenConfirmed(s, retention, c, fingerprint, res, now);
    var t := Next(s, retention, e).state;
    PendingRefuses(s, Next(t, retention, BrokerConfirmed(EventId(AckEvent, Direct(c.commandId)))).state, retention, c.commandId,
                   malformed, now + retention);
  }

  /** Accepted, then confirmed: the blocked report alone is queued, the entry retained, the delivery pending. */
  lemma AcceptedThenConfirmed(s: State, retention: u64, c: DeviceCommand, fingerprint: Digest, res: Resolution, now: u64)
    requires Initial(s) && 0 < retention && now + retention <= I64_MAX && Installable(s, c, fingerprint, res, now)
    ensures var topic := CommandTopic(s.identity);
            var first := Next(s, retention, Deliver(topic, c, fingerprint, res, now));
            var second := Next(first.state, retention, BrokerConfirmed(EventId(AckEvent, Direct(c.commandId))));
            var u := second.state;
      && first.outcome == Accepted && second.outcome == Done && Inv(u) && u.deviceSequence == 2
      && u.pendingInbound.Some? && u.pendingInbound.value.commandId == c.commandId && u.pendingInbound.value.topic == topic
      && |u.outbox| == 1 && u.outbox[0].ReportBlocked? && |u.journal| == 1 && u.journal[0].retainUntil == now + retention
  {
    hide Next, Inv, ConfirmOutbound;
    InitialInvariant(s);
    AcceptanceSpelledOut(s, retention, c, fingerprint, res, now);
    var e := Deliver(CommandTopic(s.identity), c, fingerprint, res, now);
    var t := Next(s, retention, e).state;
    NextKeepsInvariant(s, retention, e);
    var id := EventId(AckEvent, Direct(c.commandId));
    FirstConfirmed(t, id);
    ConfirmingIs(t, retention, id);
    NextKeepsInvariant(t, retention, BrokerConfirmed(id));
  }

  lemma ConfirmingIs(s: State, retention: u64, id: EventId)
    ensures Next(s, retention, BrokerConfirmed(id)) == ConfirmOutbound(s, id)
  {}

  lemma PendingRefuses(s: State, u: State, retention: u64, commandId: Text, malformed: Digest, now: u64)
    requires Inv(u) && retention > 0 && commandId != [] && malformed.Sha256? && u.deviceSequence < U64_MAX
    requires u.pendingInbound.Some? && u.pendingInbound.value.commandId == commandId
    requires u.pendingInbound.value.topic == CommandTopic(s.identity)
    requires |u.outbox| == 1 && u.outbox[0].ReportBlocked? && |u.journal| == 1 && u.journal[0].retainUntil <= now
    ensures !AnswerQueued(u, commandId)
    ensures Next(u, retention, DeliverMalformed(CommandTopic(s.identity), commandId, malformed, now))
            == Step(u, Refused(InvalidState))
  {
    hide Next, Verify, Owned;
    var e := DeliverMalformed(CommandTopic(s.identity), commandId, malformed, now);
    assert FindLive(u.journal, commandId, now).None?;
    InvalidStateExactly(u, retention, e);
    RefusedUnchanged(u, retention, e);
  }

  // ----- A subscription during a rotation -----

  /** What the history is about: a malformed delivery of one id, then an installable command of another. */
  datatype Scene = Scene(
    start: State, retention: u64, badId: Text, badFingerprint: Digest, command: DeviceCommand, fingerprint: Digest,
    resolution: Resolution, now: u64, first: u16, second: u16, published: u16)

  predicate Staged(x: Scene) {
    && Initial(x.start) && x.retention > 0 && x.now + x.retention <= I64_MAX
    && x.badId != [] && x.badId != x.command.commandId && x.badFingerprint.Sha256?
    && Installable(x.start, x.command, x.fingerprint, x.resolution, x.now)
  }

  function BadCall(x: Scene): Event { DeliverMalformed(CommandTopic(x.start.identity), x.badId, x.badFingerprint, x.now) }

  function GoodCall(x: Scene): Event {
    Deliver(CommandTopic(x.start.identity), x.command, x.fingerprint, x.resolution, x.now)
  }

  function BadEvent(x: Scene): EventId { EventId(AckEvent, Direct(x.badId)) }

  /** The agent after the rejection, after the acceptance, and after the confirmation of the rejection. */
  function Turned(x: Scene): State {
    Reject(x.start, MalformedRefusal(x.start, x.badId, x.badFingerprint, x.retention, x.now))
  }

  function Rotating(x: Scene): State
    requires x.resolution.Resolved? && x.start.current.credentialRevision < U64_MAX
  {
    Accept(Turned(x), CommandAcceptance(Turned(x), x.command, x.fingerprint, x.resolution, x.retention, x.now))
  }

  function Answering(x: Scene): State
    requires x.resolution.Resolved? && x.start.current.credentialRevision < U64_MAX
  {
    Rotating(x).(outbox := Rotating(x).outbox[1..])
  }

  lemma TurnedCall(x: Scene)
    requires Staged(x)
    ensures Next(x.start, x.retention, BadCall(x)) == Step(Turned(x), Rejected(MalformedCommand))
    ensures Inv(Turned(x)) && CommandIntakeOpen(x.start, x.now) && CommandIntakeOpen(Turned(x), x.now)
    ensures NextOutbound(Turned(x)) == Some(Fact(x))
  {
    InitialInvariant(x.start);
    assert HasJournalCapacity(x.start, x.now);
    MalformedExact(x.start, x.retention, BadCall(x));
    assert Expire(x.start, x.now) == x.start;
  }

  lemma RotatingCall(x: Scene)
    requires Staged(x) && Inv(Turned(x))
    ensures Next(Turned(x), x.retention, GoodCall(x)) == Step(Rotating(x), Accepted)
    ensures Inv(Rotating(x)) && CommandIntakeOpen(Rotating(x), x.now)
    ensures Rotating(x).outbox[0] == Turned(x).outbox[0]
  {
    AcceptanceSpelledOut(Turned(x), x.retention, x.command, x.fingerprint, x.resolution, x.now);
    NextKeepsInvariant(Turned(x), x.retention, GoodCall(x));
  }

  lemma AnsweringCall(x: Scene)
    requires Staged(x) && Inv(Rotating(x)) && CommandIntakeOpen(Rotating(x), x.now)
    ensures ConfirmOutbound(Rotating(x), BadEvent(x)) == Step(Answering(x), Done)
    ensures RotationInFlight(Answering(x)) && CommandIntakeOpen(Answering(x), x.now) && Answering(x).reconnectRevision.None?
  {
    FirstConfirmed(Rotating(x), BadEvent(x));
    assert Answering(x).outbox[1] in Answering(x).outbox;
  }

  function Fact(x: Scene): OutboundFact {
    CommandAcknowledged(BadEvent(x), FactOf(RejectedAck(x.start, MalformedRefusal(x.start, x.badId, x.badFingerprint, x.retention, x.now))))
  }

  /** Connected and subscribed, nothing delivered yet. */
  function Ready(x: Scene): Session { OpenSession(x.start).(connected := true, subscription := Active) }

  function Idle(x: Scene, s: Session): System { System(x.start, Some(s), None, [], {}, []) }

  function Before(x: Scene): System { System(x.start, None, None, [], {}, []) }

  function Joined(x: Scene): Session { OpenSession(x.start).(connected := true) }

  lemma Connecting(x: Scene)
    requires Staged(x) && CommandIntakeOpen(x.start, x.now)
    ensures Leads(Before(x), x.retention, Opens, Idle(x, OpenSession(x.start)))
    ensures Leads(Idle(x, OpenSession(x.start)), x.retention, Connects(x.now), Idle(x, Joined(x).(requests := [SendSubscribe])))
    ensures Leads(Idle(x, Joined(x).(requests := [SendSubscribe])), x.retention, Writes(0),
                  Idle(x, Joined(x)).(replies := [SubscribeReply]))
    ensures Leads(Idle(x, Joined(x)).(replies := [SubscribeReply]), x.retention, Subscribes, Idle(x, Ready(x)))
  {
    hide CommandIntakeOpen;
    Small(SendSubscribe, SendSubscribe);
    Small(SubscribeReply, SubscribeReply);
  }

  /** Queues, maps and sets of one or two elements. */
  lemma Small<T>(a: T, b: T)
    ensures [] + [a] == [a] && [a][1..] == [] && [a] + [b] == [a, b] && [a, b][1..] == [b]
  {}

  lemma SmallMap<T, U>(k: T, v: U)
    ensures map[][k := v] == map[k := v] && map[k := v] - {k} == map[] && {} + {k} == {k} && {k} - {k} == {}
  {}

  predicate Leads(y: System, retention: u64, h: Happening, z: System) {
    Possible(y, h) && Happen(y, retention, h) == z
  }

  function OwnTopic(x: Scene): Topic { CommandTopic(x.start.identity) }

  /** The malformed delivery is answered; its PUBACK waits in the transport. */
  function AfterBad(x: Scene): System {
    System(Turned(x), Some(Ready(x).(requests := [SendPubAck(x.first)], inbound := map[x.first := None])),
           Some(x.first), [], {}, [])
  }

  lemma TurnedPending(x: Scene)
    requires Staged(x)
    ensures Turned(x).pendingInbound.None?
  {}

  lemma Refusing(x: Scene)
    requires Staged(x) && Next(x.start, x.retention, BadCall(x)) == Step(Turned(x), Rejected(MalformedCommand))
    requires CommandIntakeOpen(Turned(x), x.now)
    ensures Leads(Idle(x, Ready(x)), x.retention, Delivers(Delivery(x.first, OwnTopic(x), x.badId), BadCall(x), x.now), AfterBad(x))
  {
    TurnedPending(x);
    hide CommandIntakeOpen, Next, Turned;
    Small(SendPubAck(x.first), SendPubAck(x.first));
    SmallMap<u16, Option<Token>>(x.first, None);
  }

  function Log(x: Scene): seq<Published> {
    [Published(Fact(x), TopicFor(x.start.identity, Fact(x)), x.start.current.credentialRevision, x.start.identity)]
  }

  function Sending(x: Scene): Request { SendPublish(BadEvent(x), TopicFor(x.start.identity, Fact(x))) }

  /** The rejection is published under its packet id, and that publish not yet confirmed. */
  function InFlight(x: Scene): System {
    System(Turned(x), Some(Ready(x).(publishing := true, packets := map[x.published := BadEvent(x)])), None, [], {x.published}, Log(x))
  }

  function Queued(x: Scene): Session {
    Ready(x).(publishing := true, awaiting := [BadEvent(x)], requests := [SendPubAck(x.first), Sending(x)], inbound := map[x.first := None])
  }

  function Queueing(x: Scene): System { System(Turned(x), Some(Queued(x)), Some(x.first), [], {}, Log(x)) }

  function Settling(x: Scene): System {
    System(Turned(x), Some(Queued(x).(requests := [Sending(x)], inbound := map[])), None, [], {}, Log(x))
  }

  lemma PublishingIt(x: Scene)
    requires Staged(x) && NextOutbound(Turned(x)) == Some(Fact(x))
    ensures Leads(AfterBad(x), x.retention, Publishes, Queueing(x))
  {
    hide NextOutbound, TopicFor, Turned;
    Small(SendPubAck(x.first), Sending(x));
    Small(BadEvent(x), BadEvent(x));
  }

  lemma SettlingIt(x: Scene)
    requires Staged(x)
    ensures Leads(Queueing(x), x.retention, Writes(0), Settling(x))
  {
    hide TopicFor, Turned;
    Small(SendPubAck(x.first), Sending(x));
    SmallMap<u16, Option<Token>>(x.first, None);
  }

  lemma WritingIt(x: Scene)
    requires Staged(x)
    ensures Leads(Settling(x), x.retention, Writes(x.published), InFlight(x))
  {
    hide TopicFor, Turned;
    Small(Sending(x), Sending(x));
    Small(BadEvent(x), BadEvent(x));
    SmallMap(x.published, BadEvent(x));
  }

  function GoodDelivery(x: Scene): Delivery { Delivery(x.second, OwnTopic(x), x.command.commandId) }

  function Holding(x: Scene): Held
    requires Staged(x)
  {
    Held(GoodDelivery(x), DeliveryToken(Rotating(x), GoodDelivery(x)))
  }

  /** The command is accepted, the unsubscription answered and the held delivery released. */
  function Released(x: Scene): System
    requires Staged(x)
  {
    InFlight(x).(agent := Rotating(x), delivering := Some(x.second),
                 session := Some(InFlight(x).session.value.(subscription := Inactive, requests := [SendPubAck(x.second)],
                                                            inbound := map[x.second := Holding(x).token])))
  }

  function HeldSession(x: Scene): Session
    requires Staged(x)
  {
    InFlight(x).session.value.(subscription := Unsubscribing, held := Some(Holding(x)))
  }

  function Asking(x: Scene): System
    requires Staged(x)
  {
    InFlight(x).(agent := Rotating(x), delivering := Some(x.second), session := Some(HeldSession(x).(requests := [SendUnsubscribe])))
  }

  function Asked(x: Scene): System
    requires Staged(x)
  {
    Asking(x).(session := Some(HeldSession(x)), replies := [UnsubscribeReply])
  }

  lemma Accepting(x: Scene)
    requires Staged(x) && Next(Turned(x), x.retention, GoodCall(x)) == Step(Rotating(x), Accepted)
    ensures Leads(InFlight(x), x.retention, Delivers(GoodDelivery(x), GoodCall(x), x.now), Asking(x))
  {
    hide CommandIntakeOpen, Next, DeliveryToken, Rotating, Turned;
    Small(SendUnsubscribe, SendUnsubscribe);
  }

  lemma AskingIt(x: Scene)
    requires Staged(x)
    ensures Leads(Asking(x), x.retention, Writes(0), Asked(x))
  {
    hide DeliveryToken, Rotating, Turned;
    Small(SendUnsubscribe, SendUnsubscribe);
    Small(UnsubscribeReply, UnsubscribeReply);
  }

  lemma Releasing(x: Scene)
    requires Staged(x)
    ensures Leads(Asked(x), x.retention, Unsubscribes(x.now), Released(x))
  {
    hide CommandIntakeOpen, DeliveryToken, Rotating, Turned;
    Small(UnsubscribeReply, UnsubscribeReply);
    Small(SendPubAck(x.second), SendPubAck(x.second));
    SmallMap(x.second, Holding(x).token);
  }

  /** After the late PUBACK: a subscription is queued, and the rotation is in flight. */
  function Subscribing(x: Scene): System
    requires Staged(x)
  {
    Released(x).(agent := Answering(x), unconfirmed := {},
                 session := Some(Released(x).session.value.(publishing := false, packets := map[],
                                                            requests := [SendPubAck(x.second), SendSubscribe])))
  }

  lemma Confirming(x: Scene)
    requires Staged(x) && ConfirmOutbound(Rotating(x), BadEvent(x)) == Step(Answering(x), Done)
    requires CommandIntakeOpen(Answering(x), x.now) && Answering(x).reconnectRevision.None?
    ensures Leads(Released(x), x.retention, Confirms(x.published, x.now), Subscribing(x))
  {
    hide CommandIntakeOpen, ConfirmOutbound, DeliveryToken, Turned, Rotating, Answering;
    SmallMap(x.published, BadEvent(x));
    Small(SendPubAck(x.second), SendSubscribe);
  }

  /**
   A run of the system that asks for a subscription during a rotation: a rejection is published and
   its PUBACK late, a command is accepted, the UNSUBACK arrives, and then that PUBACK.
   */
  lemma SubscribesDuringRotationHistory(x: Scene) returns (happenings: seq<Happening>, systems: seq<System>)
    requires Staged(x)
    ensures DriverRuns.SystemRun(x.retention, happenings, systems) && DriverRuns.Begins(systems[0])
    ensures var last := systems[|happenings|];
      && RotationInFlight(last.agent) && last.session.Some?
      && last.session.value.requests == [SendPubAck(x.second), SendSubscribe]
  {
    hide *;
    TurnedCall(x);
    RotatingCall(x);
    AnsweringCall(x);
    Connecting(x);
    Refusing(x);
    PublishingIt(x);
    SettlingIt(x);
    WritingIt(x);
    Accepting(x);
    AskingIt(x);
    Releasing(x);
    Confirming(x);
    happenings := [Opens, Connects(x.now), Writes(0), Subscribes, Delivers(Delivery(x.first, OwnTopic(x), x.badId), BadCall(x), x.now),
                   Publishes, Writes(0), Writes(x.published), Delivers(GoodDelivery(x), GoodCall(x), x.now), Writes(0),
                   Unsubscribes(x.now), Confirms(x.published, x.now)];
    systems := [Before(x), Idle(x, OpenSession(x.start)), Idle(x, Joined(x).(requests := [SendSubscribe])),
                Idle(x, Joined(x)).(replies := [SubscribeReply]), Idle(x, Ready(x)), AfterBad(x), Queueing(x), Settling(x),
                InFlight(x), Asking(x), Asked(x), Released(x), Subscribing(x)];
    LeadsAlong(x.retention, happenings, systems);
    StartsRight(x);
    EndsRight(x);
  }

  lemma LeadsAlong(retention: u64, happenings: seq<Happening>, systems: seq<System>)
    requires |systems| == |happenings| + 1
    requires forall i :: 0 <= i < |happenings| ==> Leads(systems[i], retention, happenings[i], systems[i + 1])
    ensures DriverRuns.SystemRun(retention, happenings, systems)
  {
    hide Possible, Happen;
    forall i | 0 <= i < |happenings|
      ensures Possible(systems[i], happenings[i]) && systems[i + 1] == Happen(systems[i], retention, happenings[i])
    {
      assert Leads(systems[i], retention, happenings[i], systems[i + 1]);
    }
  }

  lemma EndsRight(x: Scene)
    requires Staged(x) && RotationInFlight(Answering(x))
    ensures var last := Subscribing(x);
      && RotationInFlight(last.agent) && last.session.Some?
      && last.session.value.requests == [SendPubAck(x.second), SendSubscribe]
  {
    hide RotationInFlight, Answering;
  }

  lemma StartsRight(x: Scene)
    requires Staged(x)
    ensures DriverRuns.Begins(Before(x))
  {}
}
