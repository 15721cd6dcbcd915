/**
 A run of the whole system, from its start and without any failure, that ends stranded: the journal fills up, a
 command is accepted and settled, an old command is redelivered while its unsubscription is out of the way
 but no room is left, and the activating acknowledgement is confirmed before the second UNSUBACK.
 */
module Strandings {
  import opened Bytes
  import opened Identities
  import opened Rotation
  import opened RotationInvariant
  import opened Operations
  import opened Answers
  import opened Driver
  import opened DriverSafety
  import opened DriverRuns
  import opened DriverBranches
  import opened DriverExit
  import Topics

  // ----- The scene -----

  /** Where it starts, when, and the payload digest of the commands that fill the journal. */
  datatype Base = Base(start: State, retention: u64, now: u64, payload: Digest)

  predicate Fits(x: Base) {
    Initial(x.start) && x.retention > 0 && x.now + x.retention <= I64_MAX && x.payload.Sha256?
  }

  // ----- Reaching a system -----

  ghost predicate Reached(x: Base, z: System) {
    exists happenings, systems: seq<System> ::
      SystemRun(x.retention, happenings, systems) && DriverRuns.Begins(systems[0]) && systems[0].agent == x.start
      && systems[|happenings|] == z
  }

  lemma ReachedNext(x: Base, y: System, h: Happening)
    requires Reached(x, y) && Possible(y, h)
    ensures Reached(x, Happen(y, x.retention, h))
  {
    hide Possible, Happen, DriverRuns.Begins;
    var happenings, systems: seq<System> :| SystemRun(x.retention, happenings, systems) && DriverRuns.Begins(systems[0])
      && systems[0].agent == x.start && systems[|happenings|] == y;
    assert SystemRun(x.retention, happenings + [h], systems + [Happen(y, x.retention, h)]);
  }

  lemma ReachedKeeps(x: Base, z: System)
    requires x.retention > 0 && Reached(x, z)
    ensures SystemInv(z) && ExitInv(z)
  {
    hide SystemInv, ExitInv, DriverRuns.Begins, Happen, Possible;
    var happenings, systems: seq<System> :| SystemRun(x.retention, happenings, systems) && DriverRuns.Begins(systems[0])
      && systems[0].agent == x.start && systems[|happenings|] == z;
    RunTracks(x.retention, happenings, systems);
  }

  /** The k-th command id: two letters. */
  function Tag(k: nat): Text
    requires k < 1024
  {
    [65 + k / 32, 65 + k % 32]
  }

  function TagIndex(t: Text): int
    requires |t| == 2
  {
    32 * (t[0] as int - 65) + (t[1] as int - 65)
  }

  function Filler(x: Base, k: nat): Event
    requires k < 1024
  {
    DeliverMalformed(CommandTopic(x.start.identity), Tag(k), x.payload, x.now)
  }

  function Subscribed(x: Base): Session { OpenSession(x.start).(connected := true, subscription := Active) }

  /** The journal holds the first k of them, all unexpired. */
  predicate Entries(x: Base, journal: seq<StoredCommand>, k: nat) {
    && |journal| == k
    && (forall c :: c in journal ==> |c.commandId| == 2 && TagIndex(c.commandId) < k && c.retainUntil == x.now + x.retention)
    && (k > 0 ==> journal[0].commandId == Tag(0) && journal[0].fingerprint == x.payload)
  }

  predicate Rested(x: Base, a: State, k: nat) {
    && Inv(a) && a.identity == x.start.identity && a.current == x.start.current && a.outbox == [] && a.pendingInbound.None?
    && a.reconnectRevision.None? && a.deviceSequence == k && Entries(x, a.journal, k)
  }

  ghost predicate Idle(x: Base, y: System, k: nat) {
    && y == System(y.agent, Some(Subscribed(x)), None, [], {}, y.published)
    && Rested(x, y.agent, k) && Reached(x, y)
  }

  // ----- Connecting -----

  lemma Begun(x: Base) returns (y: System)
    requires Fits(x)
    ensures Idle(x, y, 0)
  {
    hide SystemRun, Happen, Possible, OnConnected, Inv, Verify;
    InitialInvariant(x.start);
    var y0 := System(x.start, None, None, [], {}, []);
    Start(x, y0);
    var y1 := Opened(x, y0);
    var y2 := Connected(x, y1);
    y := Joined(x, y2);
  }

  lemma Start(x: Base, y0: System)
    requires Fits(x) && y0 == System(x.start, None, None, [], {}, [])
    ensures Reached(x, y0)
  {
    assert SystemRun(x.retention, [], [y0]) && DriverRuns.Begins([y0][0]) && [y0][0] == y0;
  }

  lemma Opened(x: Base, y: System) returns (z: System)
    requires Reached(x, y) && y == System(x.start, None, None, [], {}, [])
    ensures Reached(x, z) && z == System(x.start, Some(OpenSession(x.start)), None, [], {}, [])
  {
    hide Reached;
    z := Happen(y, x.retention, Opens);
    ReachedNext(x, y, Opens);
  }

  lemma Connected(x: Base, y: System) returns (z: System)
    requires Fits(x) && Reached(x, y) && y == System(x.start, Some(OpenSession(x.start)), None, [], {}, [])
    ensures Reached(x, z)
    ensures z == System(x.start, Some(OpenSession(x.start).(connected := true, requests := [SendSubscribe])), None, [], {}, [])
  {
    hide Reached, OnConnected, SystemInv;
    ReachedKeeps(x, y);
    ConnectionExactly(y, x.now);
    z := Happen(y, x.retention, Connects(x.now));
    ReachedNext(x, y, Connects(x.now));
    assert [] + [SendSubscribe] == [SendSubscribe];
  }

  lemma Joined(x: Base, y: System) returns (z: System)
    requires Fits(x) && Reached(x, y)
    requires y == System(x.start, Some(OpenSession(x.start).(connected := true, requests := [SendSubscribe])), None, [], {}, [])
    ensures Idle(x, z, 0)
  {
    hide Reached, Inv;
    InitialInvariant(x.start);
    var w := Happen(y, x.retention, Writes(0));
    ReachedNext(x, y, Writes(0));
    assert [SendSubscribe][1..] == [] && [] + [SubscribeReply] == [SubscribeReply];
    z := Happen(w, x.retention, Subscribes);
    ReachedNext(x, w, Subscribes);
    assert [SubscribeReply][1..] == [];
  }

  // ----- One round of filling -----

  /** The agent after one rejection, its answer queued. */
  predicate Answered(x: Base, a: State, b: State, k: nat)
    requires k < 1024
  {
    && Inv(b) && b.identity == a.identity && b.current == a.current && b.pendingInbound.None? && b.reconnectRevision.None?
    && b.deviceSequence == k + 1 && Entries(x, b.journal, k + 1)
    && |b.outbox| == 1 && b.outbox[0].AckEntry? && b.outbox[0].ack.activatesRevision.None?
    && b.outbox[0].eventId == EventId(AckEvent, Direct(Tag(k)))
  }

  lemma FillerAnswered(x: Base, a: State, k: nat)
    requires Fits(x) && Rested(x, a, k) && k < 1023
    ensures Next(a, x.retention, Filler(x, k)).outcome == Rejected(MalformedCommand)
    ensures Answered(x, a, Next(a, x.retention, Filler(x, k)).state, k)
  {
    hide Next, Verify, Owned, Retain;
    var e := Filler(x, k);
    assert TagIndex(Tag(k)) == k;
    assert FindLive(a.journal, Tag(k), x.now).None?;
    assert HasJournalCapacity(a, x.now);
    MalformedExact(a, x.retention, e);
    KeepsEvery(a.journal, a.pendingInbound, x.now);
    FillerSpelledOut(x, a, k);
  }

  lemma FillerSpelledOut(x: Base, a: State, k: nat)
    requires Fits(x) && k < 1023 && Next(a, x.retention, Filler(x, k)).outcome == Rejected(MalformedCommand)
    requires FindLive(a.journal, Tag(k), x.now).None?
    ensures Next(a, x.retention, Filler(x, k)).state
            == Reject(Expire(a, x.now), MalformedRefusal(a, Tag(k), x.payload, x.retention, x.now))
  {
    hide Validate, Retain;
  }

  lemma {:induction false} KeepsEvery(journal: seq<StoredCommand>, pending: Option<Settlement>, now: u64)
    requires forall c :: c in journal ==> c.retainUntil > now
    ensures Retain(journal, pending, now) == journal
  {
    if journal != [] {
      KeepsEvery(journal[1..], pending, now);
      assert [journal[0]] + journal[1..] == journal;
    }
  }

  // ----- Delivering, publishing, confirming -----

  /** A delivery that is acknowledged at once, and its PUBACK written. */
  lemma DeliveredAndWritten(x: Base, y: System, k: nat) returns (z: System)
    requires Fits(x) && Idle(x, y, k) && k < 1023
    ensures Reached(x, z) && z == y.(agent := z.agent) && Answered(x, y.agent, z.agent, k)
  {
    hide Reached, OnCommand, OnInboundAcknowledged, Next, Inv, Tag;
    var d, h := Delivery(0, CommandTopic(x.start.identity), Tag(k)), Filler(x, k);
    FillerAnswered(x, y.agent, k);
    RoomLeft(x, y.agent, Next(y.agent, x.retention, h).state, k);
    DeliveryExactly(y.agent, y.session.value, x.retention, d, h, x.now);
    FillerPossible(x, y, k);
    var w := Happen(y, x.retention, Delivers(d, h, x.now));
    ReachedNext(x, y, Delivers(d, h, x.now));
    var s := w.session.value;
    assert s.requests == [SendPubAck(0)] && s.inbound == map[0 := None];
    var t := s.(requests := s.requests[1..], inbound := s.inbound - {0});
    SettlementExactly(w.agent, t, None);
    z := Happen(w, x.retention, Writes(0));
    ReachedNext(x, w, Writes(0));
    assert t == Subscribed(x);
  }

  lemma FillerPossible(x: Base, y: System, k: nat)
    requires Fits(x) && Idle(x, y, k) && k < 1023
    ensures Possible(y, Delivers(Delivery(0, CommandTopic(x.start.identity), Tag(k)), Filler(x, k), x.now))
    ensures Deliverable(y.session.value, Delivery(0, CommandTopic(x.start.identity), Tag(k)))
  {
    hide Reached, Inv;
  }

  lemma RoomLeft(x: Base, a: State, b: State, k: nat)
    requires k < 1023 && Answered(x, a, b, k)
    ensures RoomForAny(b, x.now)
  {}

  lemma FirstIsNext(a: State)
    requires a.outbox != [] && a.outbox[0].AckEntry?
    ensures NextOutbound(a) == Some(CommandAcknowledged(a.outbox[0].eventId, FactOf(a.outbox[0].ack)))
  {}

  /** With an acknowledgement at the head and nothing in flight, it is published and written under packet id 0. */
  lemma PublishedAndWritten(x: Base, y: System) returns (z: System)
    requires Reached(x, y) && y.session.Some? && y.agent.outbox != [] && y.agent.outbox[0].AckEntry?
    requires var s := y.session.value;
      s.connected && !s.publishing && !s.reconnectReady && !s.subscription.Unsubscribing? && s.requests == [] && s.awaiting == []
      && s.packets == map[] && y.unconfirmed == {}
    ensures Reached(x, z)
    ensures z == y.(session := Some(y.session.value.(publishing := true, packets := map[0 := y.agent.outbox[0].eventId])),
                    unconfirmed := {0}, published := z.published)
  {
    hide Reached, NextOutbound, Publishing, Topics.UplinkTopicText;
    FirstIsNext(y.agent);
    PublishingExactly(y);
    var w := Happen(y, x.retention, Publishes);
    ReachedNext(x, y, Publishes);
    var id, s := y.agent.outbox[0].eventId, w.session.value;
    assert s.awaiting == [id] && |s.requests| == 1 && s.requests[0].SendPublish?;
    z := Happen(w, x.retention, Writes(0));
    ReachedNext(x, w, Writes(0));
    assert s.awaiting[1..] == [] && s.requests[1..] == [] && map[][0 := id] == map[0 := id] && {} + {0} == {0};
  }

  /** One more entry in the journal, and the system idle again. */
  lemma Round(x: Base, y: System, k: nat) returns (z: System)
    requires Fits(x) && Idle(x, y, k) && k < 1023
    ensures Idle(x, z, k + 1)
  {
    hide Reached, Inv, OnOutboundAcknowledged, ConfirmOutbound, Entries;
    var u := DeliveredAndWritten(x, y, k);
    var w := PublishedAndWritten(x, u);
    ReachedKeeps(x, w);
    z := Happen(w, x.retention, Confirms(0, x.now));
    ReachedNext(x, w, Confirms(0, x.now));
    var e := ConfirmationExactly(w, 0, x.now);
    TheOnlyEntry(w.agent, e);
    assert map[0 := e.eventId] - {0} == map[] && {0} - {0} == {};
    var none: seq<Request> := [];
    assert w.session.value.requests + none == none;
    assert Rested(x, z.agent, k + 1);
    assert z.session == Some(Subscribed(x));
  }

  lemma TheOnlyEntry(a: State, e: Outbound)
    requires Inv(a) && |a.outbox| == 1 && a.outbox[0].AckEntry? && a.outbox[0].ack.activatesRevision.None? && e in a.outbox
    ensures e == a.outbox[0]
    ensures ConfirmOutbound(a, e.eventId).state == a.(outbox := []) && Inv(a.(outbox := []))
    ensures ConfirmOutbound(a, e.eventId).outcome == Done
  {
    hide Verify, Owned, ConfirmOutbound;
    ConfirmExact(a, e.eventId);
    assert Publishable(a, e);
    var i := ConfirmationRecorded(a, e.eventId);
    assert a.outbox[..i] + a.outbox[i + 1..] == [];
  }

  lemma {:induction false} Rounds(x: Base, k: nat) returns (y: System)
    requires Fits(x) && k <= 1023
    ensures Idle(x, y, k)
  {
    hide Idle, Fits;
    if k == 0 {
      y := Begun(x);
    } else {
      var z := Rounds(x, k - 1);
      y := Round(x, z, k - 1);
    }
  }

  // ----- The command -----

  datatype Order = Order(command: DeviceCommand, fingerprint: Digest, resolution: Resolution)

  /** A command that can be installed from the start, with an id of another length than the fillers'. */
  predicate Ordered(x: Base, o: Order) {
    && o.command.commandId != [] && |o.command.commandId| != 2 && o.fingerprint.Sha256?
    && o.command.deviceId == x.start.identity.device && o.command.deadline > x.now
    && o.command.desiredGeneration > x.start.current.desiredGeneration && o.command.fenceEpoch >= x.start.current.fenceEpoch
    && o.resolution.Resolved? && o.resolution.digest.Sha256? && o.resolution.expiresAt > 0
    && o.resolution.credentialGeneration > x.start.identity.generation && x.start.current.credentialRevision < U64_MAX
  }

  function Ordering(x: Base, o: Order): Event {
    Deliver(CommandTopic(x.start.identity), o.command, o.fingerprint, o.resolution, x.now)
  }

  /** The journal is full of unexpired entries, and the rotation waits for its acknowledgement to be confirmed. */
  predicate Loaded(x: Base, o: Order, b: State, settled: bool) {
    && Inv(b) && |b.journal| == 1024 && (forall c :: c in b.journal ==> c.retainUntil > x.now)
    && b.journal[0].commandId == Tag(0) && b.journal[0].fingerprint == x.payload
    && |b.outbox| == 2 && b.outbox[0].AckEntry? && b.outbox[0].ack.activatesRevision.Some?
    && b.outbox[0].ack.commandId == o.command.commandId && b.outbox[1].ReportBlocked?
    && b.pendingInbound.Some? && b.pendingInbound.value.topic == CommandTopic(x.start.identity)
    && b.pendingInbound.value.commandId == o.command.commandId && b.pendingInbound.value.settled == settled
    && b.deviceSequence == 1025
  }

  lemma OrderAccepted(x: Base, o: Order, a: State)
    requires Fits(x) && Ordered(x, o) && Rested(x, a, 1023)
    ensures Next(a, x.retention, Ordering(x, o)).outcome == Accepted
    ensures Loaded(x, o, Next(a, x.retention, Ordering(x, o)).state, false)
  {
    hide Next, Verify, Owned, Retain, Unexpired, Inv;
    var e := Ordering(x, o);
    OrderOutcome(x, o, a);
    NextKeepsInvariant(a, x.retention, e);
    AcceptanceRecorded(a, x.retention, e);
    var b := Next(a, x.retention, e).state;
    OrderJournal(x, o, a, b);
  }

  lemma OrderOutcome(x: Base, o: Order, a: State)
    requires Fits(x) && Ordered(x, o) && Rested(x, a, 1023)
    ensures Next(a, x.retention, Ordering(x, o)).outcome == Accepted
  {
    hide Next, Verify, Owned, Retain;
    assert FindLive(a.journal, o.command.commandId, x.now).None?;
    assert HasJournalCapacity(a, x.now);
    DeliverExact(a, x.retention, Ordering(x, o));
  }

  lemma OrderJournal(x: Base, o: Order, a: State, b: State)
    requires Fits(x) && Ordered(x, o) && Rested(x, a, 1023) && b == Next(a, x.retention, Ordering(x, o)).state
    requires Next(a, x.retention, Ordering(x, o)).outcome == Accepted
    ensures |b.journal| == 1024 && b.journal[..1023] == a.journal && b.journal[0] == a.journal[0]
    ensures b.journal[1023].retainUntil > x.now
  {
    hide Next, Verify, Owned, Retain, FindLive;
    var f := EffectOf(a, x.retention, Ordering(x, o));
    KeepsEvery(a.journal, a.pendingInbound, x.now);
  }

  // ----- Accepted and settled -----

  lemma OrderPossible(x: Base, y: System, o: Order)
    requires Fits(x) && Ordered(x, o) && Idle(x, y, 1023)
    ensures Possible(y, Delivers(Delivery(0, CommandTopic(x.start.identity), o.command.commandId), Ordering(x, o), x.now))
    ensures Deliverable(y.session.value, Delivery(0, CommandTopic(x.start.identity), o.command.commandId))
  {
    hide Reached, Verify, Owned;
  }

  lemma HeldAndAsked(x: Base, y: System, o: Order) returns (z: System, held: Held)
    requires Fits(x) && Ordered(x, o) && Idle(x, y, 1023)
    ensures Reached(x, z) && Loaded(x, o, z.agent, false)
    ensures held.delivery.packetId == 0 && held.token == Some(z.agent.pendingInbound.value.token)
    ensures z == y.(agent := z.agent, delivering := Some(0), replies := [UnsubscribeReply],
                    session := Some(Subscribed(x).(subscription := Unsubscribing, held := Some(held))))
  {
    hide Reached, OnCommand, Next, Inv, RoomForAny, Tag;
    var d, e := Delivery(0, CommandTopic(x.start.identity), o.command.commandId), Ordering(x, o);
    OrderPossible(x, y, o);
    OrderAccepted(x, o, y.agent);
    DeliveryExactly(y.agent, y.session.value, x.retention, d, e, x.now);
    var w := Happen(y, x.retention, Delivers(d, e, x.now));
    ReachedNext(x, y, Delivers(d, e, x.now));
    held := w.session.value.held.value;
    assert w.session.value.requests == [SendUnsubscribe] && [SendUnsubscribe][1..] == [];
    z := Happen(w, x.retention, Writes(0));
    ReachedNext(x, w, Writes(0));
    assert [] + [UnsubscribeReply] == [UnsubscribeReply];
  }

  lemma ReleasedAndSettled(x: Base, y: System, o: Order, held: Held) returns (z: System)
    requires Fits(x) && Reached(x, y) && Loaded(x, o, y.agent, false)
    requires held.delivery.packetId == 0 && held.token == Some(y.agent.pendingInbound.value.token)
    requires y == System(y.agent, Some(Subscribed(x).(subscription := Unsubscribing, held := Some(held))), Some(0),
                         [UnsubscribeReply], {}, y.published)
    ensures Reached(x, z) && Loaded(x, o, z.agent, true)
    ensures z == System(z.agent, Some(Subscribed(x).(subscription := Inactive)), None, [], {}, z.published)
  {
    hide Reached, OnUnsubscribed, OnInboundAcknowledged, Inv, RoomForAny, Tag, Rotates;
    ReachedKeeps(x, y);
    UnsubscriptionExactly(y, x.now);
    var w := Happen(y, x.retention, Happening.Unsubscribes(x.now));
    ReachedNext(x, y, Happening.Unsubscribes(x.now));
    assert [UnsubscribeReply][1..] == [];
    var s := w.session.value;
    assert s.requests == [SendPubAck(0)] && s.inbound == map[0 := held.token] && s.requests[1..] == [];
    var t := s.(requests := s.requests[1..], inbound := s.inbound - {0});
    SettlementExactly(w.agent, t, held.token);
    assert t.inbound == map[];
    z := Happen(w, x.retention, Writes(0));
    ReachedNext(x, w, Writes(0));
    ReachedKeeps(x, z);
  }

  // ----- Redelivered and confirmed -----

  lemma Redelivered(x: Base, o: Order, b: State)
    requires Fits(x) && Loaded(x, o, b, true) && Ordered(x, o)
    ensures var step := Next(b, x.retention, Filler(x, 0));
      && step.outcome == Duplicate && !RoomForAny(step.state, x.now)
      && step.state == b.(outbox := step.state.outbox) && b.outbox <= step.state.outbox
  {
    hide Next, Verify, Owned;
    InvariantParts(b);
    var c, e := b.journal[0], Filler(x, 0);
    assert c in b.journal && LiveEntry(b, e, c);
    LiveEntryUnique(b, c, x.now);
    RecordedBelow(b, c);
    MalformedExact(b, x.retention, e);
    ReplayRecorded(b, x.retention, e, c);
  }

  lemma RecordedBelow(b: State, c: StoredCommand)
    requires Inv(b) && c in b.journal
    ensures c.acknowledgement.deviceSequence <= b.deviceSequence
  {
    assert Recorded(b, c);
  }

  lemma HeldAgain(x: Base, y: System, o: Order) returns (z: System, held: Held)
    requires Fits(x) && Ordered(x, o) && Reached(x, y) && Loaded(x, o, y.agent, true) && y.delivering.None?
    requires y.session.Some? && y.replies == []
    requires var s := y.session.value;
      s.connected && s.requests == [] && s.identity == x.start.identity && !s.shuttingDown && s.recovery.None?
    ensures Reached(x, z) && held.token.None?
    ensures z == y.(agent := y.agent.(outbox := z.agent.outbox), delivering := Some(0),
                    session := Some(y.session.value.(subscription := Unsubscribing, requests := [SendUnsubscribe], held := Some(held))))
    ensures y.agent.outbox <= z.agent.outbox
  {
    hide Reached, OnCommand, Next, Inv, RoomForAny;
    var d, e := Delivery(0, CommandTopic(x.start.identity), Tag(0)), Filler(x, 0);
    Redelivered(x, o, y.agent);
    DeliveryExactly(y.agent, y.session.value, x.retention, d, e, x.now);
    z := Happen(y, x.retention, Delivers(d, e, x.now));
    ReachedNext(x, y, Delivers(d, e, x.now));
    held := z.session.value.held.value;
    assert [] + [SendUnsubscribe] == [SendUnsubscribe];
  }

  lemma OneDue(y: System, s: Session)
    requires s.requests == [SendUnsubscribe] && y.replies == []
    ensures UnsubAcksDue(y, s) == 1
  {
    assert [SendUnsubscribe][1..] == [];
  }

  lemma Strands(x: Base, o: Order, idle: System) returns (z: System)
    requires Fits(x) && Ordered(x, o) && Idle(x, idle, 1023)
    ensures Reached(x, z) && Stranded(z)
  {
    hide Reached, Inv, Happen, OnOutboundAcknowledged;
    var asked, first := HeldAndAsked(x, idle, o);
    var settled := ReleasedAndSettled(x, asked, o, first);
    var written := PublishedAndWritten(x, settled);
    var again, second := HeldAgain(x, written, o);
    z := ConfirmedLast(x, o, again, second);
  }

  lemma ConfirmedLast(x: Base, o: Order, y: System, held: Held) returns (z: System)
    requires Fits(x) && Reached(x, y) && held.token.None? && y.session.Some? && y.replies == [] && y.unconfirmed == {0}
    requires y.agent.outbox != [] && y.agent.outbox[0].AckEntry? && y.agent.outbox[0].ack.activatesRevision.Some?
    requires var s := y.session.value;
      s.connected && s.requests == [SendUnsubscribe] && s.held == Some(held) && s.subscription.Unsubscribing?
      && s.packets == map[0 := y.agent.outbox[0].eventId]
    ensures Reached(x, z) && Stranded(z)
  {
    hide Reached, SystemInv, ExitInv, OnOutboundAcknowledged, Stranded;
    ReachedKeeps(x, y);
    OneDue(y, y.session.value);
    z := Happen(y, x.retention, Confirms(0, x.now));
    ReachedNext(x, y, Confirms(0, x.now));
    var e := ConfirmationStrandsExactly(y, 0, x.now);
    TheFirst(y, e);
  }

  lemma TheFirst(y: System, e: Outbound)
    requires SystemInv(y) && y.agent.outbox != [] && e in y.agent.outbox && e.eventId == y.agent.outbox[0].eventId
    ensures e == y.agent.outbox[0]
  {
    hide SessionInv;
    InvariantParts(y.agent);
    SameEntry(y.agent, e, y.agent.outbox[0]);
  }

  /**
   The run: 1023 rejections fill the journal, the command takes its last place and is settled, the first of
   the rejected commands is redelivered and held for want of room, and the acceptance is confirmed.
   */
  lemma StrandedHistory(x: Base, o: Order) returns (happenings: seq<Happening>, systems: seq<System>)
    requires Fits(x) && Ordered(x, o)
    ensures SystemRun(x.retention, happenings, systems) && DriverRuns.Begins(systems[0]) && systems[0].agent == x.start
    ensures Stranded(systems[|happenings|])
  {
    hide Fits, Ordered, Idle, Stranded, Happen, Possible, DriverRuns.Begins;
    var idle := Rounds(x, 1023);
    var z := Strands(x, o, idle);
    happenings, systems :| SystemRun(x.retention, happenings, systems) && DriverRuns.Begins(systems[0])
      && systems[0].agent == x.start && systems[|happenings|] == z;
  }
}
