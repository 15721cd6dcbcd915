/** Runs of the driver, the agent and the broker: reports, exits, held deliveries, and refinement. */
module DriverRuns {
  import opened Bytes
  import opened Identities
  import opened Rotation
  import opened RotationInvariant
  import opened Operations
  import opened Runs
  import opened Drain
  import opened Driver
  import Topics
  import opened DriverSafety

  predicate SystemRun(retention: u64, happenings: seq<Happening>, systems: seq<System>) {
    && |systems| == |happenings| + 1
    && forall i :: 0 <= i < |happenings| ==>
         Possible(systems[i], happenings[i]) && systems[i + 1] == Happen(systems[i], retention, happenings[i])
  }

  predicate Begins(y: System) {
    Initial(y.agent) && y.session.None? && y.published == []
  }

  lemma {:induction false} RunKeepsSystemInvariant(retention: u64, happenings: seq<Happening>, systems: seq<System>)
    requires retention > 0 && SystemRun(retention, happenings, systems) && Begins(systems[0])
    ensures SystemInv(systems[|happenings|])
    decreases |happenings|
  {
    hide Happen, SessionInv;
    if happenings == [] {
      InitialInvariant(systems[0].agent);
    } else {
      var n := |happenings| - 1;
      RunKeepsSystemInvariant(retention, happenings[..n], systems[..n + 1]);
      HappenKeepsInvariant(systems[n], retention, happenings[n]);
    }
  }

  /**
   In every run, across restarts and transport errors, a certificate report was published only in a
   session opened with exactly the revision it reports, and under that revision's identity.
   */
  lemma ReportsOnlyUnderTheirRevision(retention: u64, happenings: seq<Happening>, systems: seq<System>, p: Published)
    requires retention > 0 && SystemRun(retention, happenings, systems) && Begins(systems[0])
    requires p in systems[|happenings|].published && p.fact.CertificateReported?
    ensures p.revision == p.fact.report.credentialRevision
    ensures p.identity == DeviceIdentity(p.fact.report.stateHash.tenant, p.fact.report.stateHash.device,
                                         p.fact.report.credentialGeneration)
    ensures forall id, report :: p.topic == Topics.UplinkTopicText(id, report) <==> id == p.identity && report
  {
    hide Topics.UplinkTopicText, SessionInv;
    RunKeepsSystemInvariant(retention, happenings, systems);
    assert Rightful(p);
    forall id, report | p.topic == Topics.UplinkTopicText(id, report) ensures id == p.identity && report {
      Topics.UplinkTopicInjective(p.identity, id, true, report);
    }
  }

  // ----- Confirmations and exits -----

  /** The handler a happening runs, when it runs one that may end the session. */
  function HandlerOf(y: System, retention: u64, h: Happening): Option<Handled>
    requires Possible(y, h)
  {
    match h
    case Connects(now) => Some(OnConnected(y.agent, y.session.value, now))
    case Delivers(d, e, now) =>
      if Deliverable(y.session.value, d) then Some(OnCommand(y.agent, y.session.value, retention, d, e, now)) else None
    case Confirms(p, now) =>
      var s := y.session.value;
      if p in s.packets
      then Some(OnOutboundAcknowledged(y.agent, s.(packets := s.packets - {p}), s.packets[p], now)) else None
    case Unsubscribes(now) => Some(OnUnsubscribed(y.agent, y.session.value, now))
    case Writes(_) =>
      var s := y.session.value;
      if s.requests[0].SendPubAck? && s.requests[0].packetId in s.inbound
      then Some(OnInboundAcknowledged(y.agent,
                  s.(requests := s.requests[1..], inbound := s.inbound - {s.requests[0].packetId}),
                  s.inbound[s.requests[0].packetId]))
      else None
    case _ => None
  }

  /** The session is left for reconnect only with the current revision awaited and the delivery settled. */
  lemma ReconnectOnlyWhenAllowed(y: System, retention: u64, h: Happening)
    requires SystemInv(y) && retention > 0 && Possible(y, h)
    requires HandlerOf(y, retention, h).Some? && HandlerOf(y, retention, h).value.control == Reconnect
    ensures ExitAllowed(HandlerOf(y, retention, h).value)
  {
    hide Inv, OnConnected, OnCommand, OnOutboundAcknowledged, OnUnsubscribed, SessionOk;
    match h
    case Connects(now) => ConnectKeeps(y, now);
    case Delivers(d, e, now) => CommandKeeps(y, retention, d, e, now);
    case Confirms(p, now) => ConfirmsKeeps(y, p, now);
    case Unsubscribes(now) => UnsubscribeKeeps(y, now);
    case Writes(p) => WriteExit(y);
    case _ =>
  }

  lemma WriteExit(y: System)
    requires SystemInv(y) && y.session.Some? && y.session.value.requests != []
    requires y.session.value.requests[0].SendPubAck? && y.session.value.requests[0].packetId in y.session.value.inbound
    ensures var s := y.session.value;
            var q := s.requests[0].packetId;
            var h := OnInboundAcknowledged(y.agent, s.(requests := s.requests[1..], inbound := s.inbound - {q}), s.inbound[q]);
      h.control == Reconnect ==> ExitAllowed(h)
  {
    hide Verify, Owned, PublishIds, PubAckIds, Outstanding, HasBlocked;
    var s := y.session.value;
    var token := s.inbound[s.requests[0].packetId];
    if token.Some? && s.reconnectReady && InboundSettled(y.agent, token).outcome == Done {
      SettleKeeps(y.agent, token);
      ReconnectIsCurrent(y.agent);
    }
  }

  /** Every PUBACK the broker sends is for the one event published, still queued, and its confirmation commits. */
  lemma ConfirmationNeverUnknown(y: System, p: u16, now: u64)
    requires SystemInv(y) && Possible(y, Confirms(p, now))
    ensures var s := y.session.value;
      && p in s.packets && s.packets.Keys == {p} && s.publishing && s.awaiting == []
      && Outstanding(y.agent, s.packets[p])
      && ConfirmOutbound(y.agent, s.packets[p]).outcome == Done
      && OnOutboundAcknowledged(y.agent, s.(packets := s.packets - {p}), s.packets[p], now).control != Stop
  {
    hide Verify, Owned, ConfirmOutbound, PublishIds, PubAckIds;
    ConfirmsKeeps(y, p, now);
    ConfirmKeeps(y.agent, y.session.value.packets[p]);
  }

  // ----- Subscriptions -----

  /** The handler asked the transport for a subscription. */
  predicate AsksToSubscribe(before: Session, h: Handled) {
    h.control == Continue && |h.session.requests| > |before.requests|
    && h.session.requests[|h.session.requests| - 1] == SendSubscribe
  }

  function TimeOf(h: Happening): u64 {
    if h.Connects? || h.Delivers? || h.Confirms? || h.Unsubscribes? then h.now else 0
  }

  /** A subscription is requested only with intake open and no shutdown, and during a rotation only by a confirmation. */
  lemma SubscribesOnlyWhenOpen(y: System, retention: u64, h: Happening)
    requires Possible(y, h) && HandlerOf(y, retention, h).Some?
    requires AsksToSubscribe(y.session.value, HandlerOf(y, retention, h).value)
    ensures var r := HandlerOf(y, retention, h).value;
      && !r.session.shuttingDown && r.session.subscription.Inactive?
      && CommandIntakeOpen(r.agent, TimeOf(h))
      && (RotationInFlight(r.agent) ==> h.Confirms? && r.agent.reconnectRevision.None?)
  {
    hide OnConnected, OnCommand, OnOutboundAcknowledged, OnUnsubscribed, InboundSettled, CommandIntakeOpen, RotationInFlight;
    var s := y.session.value;
    match h
    case Connects(now) => ConnectionAsks(y.agent, s, now);
    case Delivers(d, e, now) => DeliveryNeverAsks(y.agent, s, retention, d, e, now);
    case Confirms(p, now) => ConfirmationAsks(y.agent, s.(packets := s.packets - {p}), s.packets[p], now);
    case Unsubscribes(now) => UnsubscribeAsks(y.agent, s, now);
    case Writes(_) =>
    case _ =>
  }

  predicate MayAsk(h: Handled, now: u64) {
    !h.session.shuttingDown && h.session.subscription.Inactive? && CommandIntakeOpen(h.agent, now)
  }

  lemma ConnectionAsks(a: State, s: Session, now: u64)
    ensures AsksToSubscribe(s, OnConnected(a, s, now)) ==>
            MayAsk(OnConnected(a, s, now), now) && !RotationInFlight(OnConnected(a, s, now).agent)
  {
    hide CredentialConnected, CommandIntakeOpen, RotationInFlight;
  }

  lemma DeliveryNeverAsks(a: State, s: Session, retention: u64, d: Delivery, e: Event, now: u64)
    ensures !AsksToSubscribe(s, OnCommand(a, s, retention, d, e, now))
  {
    hide Next, CommandIntakeOpen, DeliveryToken, Carries;
  }

  lemma ConfirmationAsks(a: State, s: Session, id: EventId, now: u64)
    ensures var r := OnOutboundAcknowledged(a, s, id, now);
      AsksToSubscribe(s, r) ==> MayAsk(r, now) && r.agent.reconnectRevision.None?
  {
    hide ConfirmOutbound, CommandIntakeOpen;
  }

  lemma UnsubscribeAsks(a: State, s: Session, now: u64)
    ensures AsksToSubscribe(s, OnUnsubscribed(a, s, now)) ==>
            MayAsk(OnUnsubscribed(a, s, now), now) && !RotationInFlight(OnUnsubscribed(a, s, now).agent)
  {
    hide InboundSettled, CommandIntakeOpen, RotationInFlight;
  }

  /**
   The confirmation handler does not look at the rotation: confirming any acknowledgement but the
   activating one, once unsubscribed, asks for a subscription although a rotation is in flight.
   */
  lemma SubscribesDuringRotation(y: System, p: u16, now: u64, e: Outbound)
    requires SystemInv(y) && Possible(y, Confirms(p, now)) && RotationInFlight(y.agent)
    requires e in y.agent.outbox && e.AckEntry? && y.session.value.packets[p := e.eventId] == y.session.value.packets
    ensures var s := y.session.value;
            var r := OnOutboundAcknowledged(y.agent, s.(packets := s.packets - {p}), e.eventId, now);
      && RotationInFlight(r.agent)
      && (AsksToSubscribe(s, r) <==>
            && e.ack.activatesRevision.None? && y.agent.reconnectRevision.None?
            && s.subscription.Inactive? && !s.shuttingDown
            && |y.agent.outbox| + 1 <= OUTBOX_LIMIT && HasJournalCapacity(y.agent, now))
  {
    hide Verify, Owned, ConfirmOutbound, PublishIds, PubAckIds, Outstanding, HasReport, Rooted;
    ConfirmationNeverUnknown(y, p, now);
    ConfirmedAnswer(y.agent, e);
  }

  lemma Activated(a: State, index: nat)
    requires Inv(a) && index < |a.outbox| && a.outbox[index].AckEntry? && a.outbox[index].ack.activatesRevision.Some?
    ensures Confirmed(a, index).reconnectRevision.Some?
  {
    hide Verify, Owned;
    InvariantParts(a);
    RemovedMembers(a, index);
    var b := ActivationReport(a, a.outbox[index]);
    assert b in RemoveAt(a.outbox, index);
  }

  /** Confirming an acknowledgement leaves the report, and awaits a reconnect exactly if it activated or one was awaited. */
  lemma ConfirmedAnswer(a: State, e: Outbound)
    requires Inv(a) && e in a.outbox && e.AckEntry? && RotationInFlight(a)
    ensures var t := ConfirmOutbound(a, e.eventId).state;
      && RotationInFlight(t)
      && (t.reconnectRevision.Some? <==> a.reconnectRevision.Some? || e.ack.activatesRevision.Some?)
      && |t.outbox| + 1 == |a.outbox| && t.journal == a.journal && t.pendingInbound == a.pendingInbound
  {
    hide Verify, Owned;
    InvariantParts(a);
    var index := PositionOf(a.outbox, e.eventId);
    assert index < |a.outbox|;
    SameEntry(a, a.outbox[index], e);
    ConfirmExact(a, e.eventId);
    RemovedMembers(a, index);
    var x :| x in a.outbox && IsReport(x);
    var t := ConfirmOutbound(a, e.eventId).state;
    assert x in t.outbox;
    if e.ack.activatesRevision.Some? { Activated(a, index); }
  }

  /**
   A command that is not a redelivery, arriving during a rotation, is refused by the agent and changes
   nothing durable. An agent error is none the transport recovers from: it ends the session, and with it
   the process.
   */
  lemma FreshCommandDuringRotation(y: System, retention: u64, d: Delivery, e: Event, now: u64)
    requires Possible(y, Delivers(d, e, now)) && e.Deliver? && RotationInFlight(y.agent)
    requires FindLive(y.agent.journal, e.command.commandId, e.now).None?
    ensures Happen(y, retention, Delivers(d, e, now)).session.None?
    ensures Happen(y, retention, Delivers(d, e, now)).agent == y.agent
    ensures Next(y.agent, retention, e) == Step(y.agent, Refused(InFlight))
    ensures Deliverable(y.session.value, d) ==> OnCommand(y.agent, y.session.value, retention, d, e, now).control == Stop
  {
    hide CommandIntakeOpen, HasReport;
  }

  // ----- Held deliveries -----

  /** A delivery arrives only when none is held, so a held one is never overwritten. */
  lemma DeliveryFindsNothingHeld(y: System, d: Delivery, e: Event, now: u64)
    requires SystemInv(y) && Possible(y, Delivers(d, e, now))
    ensures y.session.value.held.None? && PubAckIds(y.session.value.requests) == []
  {}

  /** While the session lives a held delivery stays held, unacknowledged, until an UNSUBACK releases it. */
  lemma HeldUntilUnsubscribed(y: System, retention: u64, h: Happening)
    requires SystemInv(y) && retention > 0 && Possible(y, h) && y.session.Some? && y.session.value.held.Some?
    ensures var held := y.session.value.held.value;
            var next := Happen(y, retention, h).session;
      next.Some? ==>
        if h.Unsubscribes? then
          && next.value.held.None?
          && next.value.requests == y.session.value.requests + [SendPubAck(held.delivery.packetId)]
          && next.value.inbound[held.delivery.packetId := held.token] == next.value.inbound
        else
          && next.value.held == Some(held)
          && held.delivery.packetId !in next.value.inbound
          && SendPubAck(held.delivery.packetId) !in next.value.requests
  {
    HappenKeepsInvariant(y, retention, h);
    hide Inv, SessionOk, Happen;
    if !h.Unsubscribes? && Happen(y, retention, h).session.Some? {
      HeldStays(y, retention, h);
      var next := Happen(y, retention, h);
      assert SessionInv(next, next.session.value);
      HeldIsApart(next.agent, next.session.value, next.delivering, next.unconfirmed);
    } else if h.Unsubscribes? {
      HeldReleased(y, retention, h);
    }
  }

  lemma HeldStays(y: System, retention: u64, h: Happening)
    requires SystemInv(y) && Possible(y, h) && !h.Unsubscribes? && y.session.Some? && y.session.value.held.Some?
    ensures var next := Happen(y, retention, h).session;
      next.Some? ==> next.value.held == y.session.value.held
  {
    hide Inv, NextOutbound, CommandIntakeOpen, Correlated, Rooted, OnCommand, OnConnected, OnOutboundAcknowledged,
         OnUnsubscribed, OnInboundAcknowledged, PublishIds, PubAckIds;
    var s := y.session.value;
    match h
    case Connects(now) => ConnectionHolds(y.agent, s, now);
    case Confirms(p, now) => if p in s.packets { ConfirmationHolds(y.agent, s.(packets := s.packets - {p}), s.packets[p], now); }
    case Writes(_) => HeldNotQueued(s.requests, s.held.value.delivery.packetId);
    case _ =>
  }

  lemma ConnectionHolds(a: State, s: Session, now: u64)
    ensures OnConnected(a, s, now).session.held == s.held
  {
    hide CredentialConnected, CommandIntakeOpen, RotationInFlight, CanPublish, HasReport;
  }

  lemma ConfirmationHolds(a: State, s: Session, id: EventId, now: u64)
    ensures OnOutboundAcknowledged(a, s, id, now).session.held == s.held
  {
    hide ConfirmOutbound, CommandIntakeOpen;
  }

  lemma HeldReleased(y: System, retention: u64, h: Happening)
    requires Possible(y, h) && h.Unsubscribes? && y.session.Some? && y.session.value.held.Some?
    ensures var held := y.session.value.held.value;
            var next := Happen(y, retention, h).session;
      && next.Some? && next.value.held.None?
      && next.value.requests == y.session.value.requests + [SendPubAck(held.delivery.packetId)]
      && next.value.inbound[held.delivery.packetId := held.token] == next.value.inbound
  {}

  lemma HeldIsApart(a: State, s: Session, delivering: Option<u16>, unconfirmed: set<u16>)
    requires SessionOk(a, s, delivering, unconfirmed) && s.held.Some?
    ensures s.held.value.delivery.packetId !in s.inbound
    ensures SendPubAck(s.held.value.delivery.packetId) !in s.requests
  {
    HeldNotQueued(s.requests, s.held.value.delivery.packetId);
  }

  lemma {:induction false} HeldNotQueued(requests: seq<Request>, p: u16)
    requires PubAckIds(requests) == []
    ensures SendPubAck(p) !in requests
    ensures requests != [] ==> !requests[0].SendPubAck?
  {
    if requests != [] {
      HeldNotQueued(requests[1..], p);
      assert forall r :: r in requests <==> r == requests[0] || r in requests[1..];
    }
  }

  // ----- The agent underneath -----

  /** The call of the agent's public interface that a happening makes, if it makes one. */
  function CallOf(y: System, h: Happening): Option<Event>
    requires Possible(y, h)
  {
    match h
    case Connects(_) =>
      if y.agent.reconnectRevision.Some? then Some(Reconnected(y.agent.reconnectRevision.value)) else None
    case Delivers(d, e, _) => if Deliverable(y.session.value, d) then Some(e) else None
    case Confirms(p, _) =>
      if p in y.session.value.packets then Some(BrokerConfirmed(y.session.value.packets[p])) else None
    case Unsubscribes(_) =>
      if y.session.value.held.None? && y.session.value.recovery.Some? && !y.session.value.observed && !InboundFlushed(y.agent)
      then Some(Settled(None)) else None
    case Writes(_) =>
      var s := y.session.value;
      if s.requests[0].SendPubAck? && s.requests[0].packetId in s.inbound && s.inbound[s.requests[0].packetId].Some?
      then Some(Settled(s.inbound[s.requests[0].packetId])) else None
    case _ => None
  }

  function Called(a: State, retention: u64, call: Option<Event>): State {
    if call.Some? then Next(a, retention, call.value).state else a
  }

  /** Whatever happens, the agent makes at most that one call. */
  lemma HappeningIsACall(y: System, retention: u64, h: Happening)
    requires SystemInv(y) && retention > 0 && Possible(y, h)
    ensures Happen(y, retention, h).agent == Called(y.agent, retention, CallOf(y, h))
    ensures CallOf(y, h).Some? ==> WellTyped(CallOf(y, h).value)
  {
    hide SystemInv, OnConnected, OnOutboundAcknowledged, OnUnsubscribed, OnInboundAcknowledged, OnCommand, NextOutbound,
         Outstanding, Next, ConfirmOutbound, DeliveryToken, InboundFlushed, Deliverable, TopicFor, StartShutdown, OpenSession, Carries, PublishNext;
    var s := if y.session.Some? then y.session.value else OpenSession(y.agent);
    match h {
      case Connects(now) => ConnectionCalls(y.agent, s, retention, now);
      case Delivers(d, e, now) => DeliveryCalls(y.agent, s, retention, d, e, now);
      case Confirms(p, now) =>
        ConfirmationNeverUnknown(y, p, now);
        ConfirmationCalls(y.agent, s.(packets := s.packets - {p}), retention, s.packets[p], now);
      case Unsubscribes(now) => UnsubscribeCalls(y.agent, s, retention, now);
      case Writes(_) =>
        if s.requests[0].SendPubAck? && s.requests[0].packetId in s.inbound {
          AcknowledgementCalls(y.agent, s.(requests := s.requests[1..], inbound := s.inbound - {s.requests[0].packetId}), retention,
                               s.inbound[s.requests[0].packetId]);
        }
      case _ =>
    }
  }

  lemma ConnectionCalls(a: State, s: Session, retention: u64, now: u64)
    ensures OnConnected(a, s, now).agent ==
            if a.reconnectRevision.Some? then Next(a, retention, Reconnected(a.reconnectRevision.value)).state else a
  {
    hide CommandIntakeOpen, RotationInFlight, Validate, MarkReconnected;
  }

  lemma DeliveryCalls(a: State, s: Session, retention: u64, d: Delivery, e: Event, now: u64)
    ensures OnCommand(a, s, retention, d, e, now).agent == Next(a, retention, e).state
  {
    hide Next, CommandIntakeOpen;
  }

  lemma ConfirmationCalls(a: State, s: Session, retention: u64, id: EventId, now: u64)
    requires s.publishing
    ensures OnOutboundAcknowledged(a, s, id, now).agent == Next(a, retention, BrokerConfirmed(id)).state
  {
    hide ConfirmOutbound, CommandIntakeOpen;
  }

  lemma UnsubscribeCalls(a: State, s: Session, retention: u64, now: u64)
    ensures OnUnsubscribed(a, s, now).agent ==
            if s.held.None? && s.recovery.Some? && !s.observed && !InboundFlushed(a)
            then Next(a, retention, Settled(None)).state else a
  {
    hide CommandIntakeOpen, RotationInFlight, Validate, MarkSettled;
  }

  lemma AcknowledgementCalls(a: State, s: Session, retention: u64, token: Option<Token>)
    ensures OnInboundAcknowledged(a, s, token).agent ==
            if token.Some? then Next(a, retention, Settled(token)).state else a
  {
    hide InboundSettled;
  }

  /** A run of the whole system is a run of the agent, so every property of agent runs holds in it. */
  lemma {:induction false} SystemRunIsAgentRun(retention: u64, happenings: seq<Happening>, systems: seq<System>)
    returns (calls: seq<Event>)
    requires retention > 0 && SystemRun(retention, happenings, systems) && Begins(systems[0])
    ensures AllTyped(calls)
    ensures systems[|happenings|].agent == After(systems[0].agent, retention, calls)
    decreases |happenings|
  {
    hide Happen, SystemInv, Next;
    if happenings == [] {
      calls := [];
    } else {
      var n := |happenings| - 1;
      var earlier := SystemRunIsAgentRun(retention, happenings[..n], systems[..n + 1]);
      RunKeepsSystemInvariant(retention, happenings[..n], systems[..n + 1]);
      HappeningIsACall(systems[n], retention, happenings[n]);
      var call := CallOf(systems[n], happenings[n]);
      calls := if call.Some? then earlier + [call.value] else earlier;
      assert call.Some? ==> calls[..|calls| - 1] == earlier;
    }
  }
}
