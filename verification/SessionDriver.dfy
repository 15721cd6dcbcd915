/**
 The session driver and its MQTT transport as objects: each handler updates the session fields, the
 transport's correlation maps and the agent, and is proved to perform the handler on values.
 */
module SessionDriver {
  import opened Bytes
  import opened Identities
  import opened Rotation
  import opened Preimages
  import opened FileSystem
  import opened DeviceAgent
  import Driver
  import Topics

  class MqttSession {
    /** The identity whose topics the session uses. */
    const topics: DeviceIdentity
    var awaitingPacketId: seq<EventId>
    var packetEvents: map<u16, EventId>
    var inboundAcknowledgements: map<u16, Option<Token>>
    /** Requests handed to the client and not yet written. */
    var requests: seq<Driver.Request>

    constructor (id: DeviceIdentity)
      ensures topics == id && awaitingPacketId == [] && packetEvents == map[] && inboundAcknowledgements == map[] && requests == []
    {
      topics := id;
      awaitingPacketId, packetEvents, inboundAcknowledgements, requests := [], map[], map[], [];
    }

    method Publish(fact: OutboundFact)
      modifies this`requests, this`awaitingPacketId
      ensures requests == old(requests) + [Driver.SendPublish(fact.eventId, Driver.TopicFor(topics, fact))]
      ensures awaitingPacketId == old(awaitingPacketId) + [fact.eventId]
    {
      var topic := match fact
        case CommandAcknowledged(_, _) => Topics.UplinkTopicText(topics, false)
        case CertificateReported(_, _) => Topics.UplinkTopicText(topics, true);
      requests := requests + [Driver.SendPublish(fact.eventId, topic)];
      awaitingPacketId := awaitingPacketId + [fact.eventId];
    }

    method AcknowledgeCommand(delivery: Driver.Delivery, token: Option<Token>)
      modifies this`requests, this`inboundAcknowledgements
      ensures requests == old(requests) + [Driver.SendPubAck(delivery.packetId)]
      ensures inboundAcknowledgements == old(inboundAcknowledgements)[delivery.packetId := token]
    {
      requests := requests + [Driver.SendPubAck(delivery.packetId)];
      inboundAcknowledgements := inboundAcknowledgements[delivery.packetId := token];
    }

    method Request(r: Driver.Request)
      modifies this`requests
      ensures requests == old(requests) + [r]
    {
      requests := requests + [r];
    }

    /** `Outgoing::Publish`: the oldest published event gets the packet id; false for an id already in use. */
    method PacketAssigned(packetId: u16) returns (ok: bool)
      modifies this`awaitingPacketId, this`packetEvents
      ensures ok <==> old(awaitingPacketId) != [] && packetId !in old(packetEvents)
      ensures ok ==> awaitingPacketId == old(awaitingPacketId)[1..]
      ensures ok ==> packetEvents == old(packetEvents)[packetId := old(awaitingPacketId)[0]]
    {
      if awaitingPacketId == [] { return false; }
      var eventId := awaitingPacketId[0];
      awaitingPacketId := awaitingPacketId[1..];
      ok := packetId !in packetEvents;
      packetEvents := packetEvents[packetId := eventId];
    }

    /** An incoming PUBACK: the event published under that packet id, which is then forgotten. */
    method TakeEvent(packetId: u16) returns (eventId: Option<EventId>)
      modifies this`packetEvents
      ensures eventId == if packetId in old(packetEvents) then Some(old(packetEvents)[packetId]) else None
      ensures packetEvents == old(packetEvents) - {packetId}
    {
      if packetId !in packetEvents {
        assert packetEvents == packetEvents - {packetId};
        return None;
      }
      eventId := Some(packetEvents[packetId]);
      packetEvents := packetEvents - {packetId};
    }

    /** `Outgoing::PubAck`: the settlement token of the acknowledged delivery. */
    method TakeToken(packetId: u16) returns (token: Option<Option<Token>>)
      modifies this`inboundAcknowledgements
      ensures token == if packetId in old(inboundAcknowledgements) then Some(old(inboundAcknowledgements)[packetId]) else None
      ensures inboundAcknowledgements == old(inboundAcknowledgements) - {packetId}
    {
      if packetId !in inboundAcknowledgements {
        assert inboundAcknowledgements == inboundAcknowledgements - {packetId};
        return None;
      }
      token := Some(inboundAcknowledgements[packetId]);
      inboundAcknowledgements := inboundAcknowledgements - {packetId};
    }
  }

  /** What `decode_command` made of a payload; the fingerprint is that of the call it leads to. */
  datatype Decoded =
    | Readable(command: DeviceCommand, fingerprint: Digest, resolution: Resolution, material: Material)
    | Unreadable(fingerprint: Digest)

  function CallFor(delivery: Driver.Delivery, decoded: Decoded, now: u64): Event {
    match decoded
    case Readable(c, f, r, _) => Deliver(delivery.topic, c, f, r, now)
    case Unreadable(f) => DeliverMalformed(delivery.topic, delivery.commandId, f, now)
  }

  class SessionDriver {
    const agent: ReferenceDeviceAgent
    const session: MqttSession
    const sessionIdentity: DeviceIdentity
    /** The credential revision the session was opened with; the source holds it as the TLS files. */
    const sessionRevision: u64
    const recovery: Option<Driver.Scope>
    var publishing: bool
    var subscription: Driver.Subscription
    var connected: bool
    var pendingCommandAck: Option<Driver.Held>
    var observed: bool
    var reconnectReady: bool
    var shuttingDown: bool

    ghost function View(): Driver.Session
      reads this, session
    {
      Driver.Session(sessionIdentity, sessionRevision, recovery, publishing, subscription, connected, pendingCommandAck,
                     observed, reconnectReady, shuttingDown, session.awaitingPacketId, session.packetEvents,
                     session.inboundAcknowledgements, session.requests)
    }

    ghost function Agent(): State
      reads this, agent, agent.state
    {
      agent.state.View()
    }

    /** The handler's effect is the one on values, unless the store failed: then the agent's state is unchanged and the session ends. */
    ghost predicate Handles(before: State, expected: Driver.Handled, control: Driver.Control)
      reads this, session, agent, agent.state, agent.store
    {
      || Driver.Handled(Agent(), View(), control) == expected
      || (agent.store.failed && Agent() == before && control == Driver.Stop)
    }

    /** `run_session`: credentials, topics and recovery scope are those current when the session opens. */
    constructor (device: ReferenceDeviceAgent)
      ensures agent == device && fresh(session) && session.topics == sessionIdentity && View() == Driver.OpenSession(device.state.View())
    {
      agent := device;
      session := new MqttSession(device.state.identity);
      sessionIdentity := device.state.identity;
      sessionRevision := device.state.current.credentialRevision;
      var pending := device.state.pendingInbound;
      recovery := if pending.Some? then Some(Driver.Scope(pending.value.topic, pending.value.commandId)) else None;
      publishing, subscription, connected, pendingCommandAck := false, Driver.Inactive, false, None;
      observed, reconnectReady, shuttingDown := false, false, false;
    }

    predicate CanSubscribe()
      reads this
    {
      subscription.Inactive? && !shuttingDown
    }

    predicate CanUnsubscribe()
      reads this
    {
      connected && subscription.Active?
    }

    /** `encodes`: the fact can be encoded; one that cannot ends the session, and nothing was queued. */
    method PublishNext(encodes: bool) returns (control: Driver.Control)
      requires session.topics == sessionIdentity
      modifies this, session
      ensures agent.state == old(agent.state)
      ensures control == if !encodes && Driver.CanPublish(old(View())) && NextOutbound(Agent()).Some? then Driver.Stop else Driver.Continue
      ensures View() == if control == Driver.Stop then old(View()) else Driver.PublishNext(Agent(), old(View()))
    {
      hide NextOutbound;
      if !(connected && !publishing && !reconnectReady && !subscription.Unsubscribing?) { return Driver.Continue; }
      var outbound := agent.state.Next();
      if outbound.None? { return Driver.Continue; }
      if !encodes { return Driver.Stop; }
      session.Publish(outbound.value);
      publishing := true;
      return Driver.Continue;
    }

    method SubscribeIfOpen(now: u64)
      modifies session
      ensures View() == if CommandIntakeOpen(Agent(), now) then Driver.Queue(old(View()), Driver.SendSubscribe) else old(View())
    {
      hide CommandIntakeOpen;
      ghost var a := Agent();
      var open := agent.IntakeOpen(now);
      if open { session.Request(Driver.SendSubscribe); }
      assert Agent() == a;
    }

    method Unsubscribe()
      modifies this, session
      ensures View() == Driver.Queue(old(View()), Driver.SendUnsubscribe).(subscription := Driver.Unsubscribing)
    {
      session.Request(Driver.SendUnsubscribe);
      subscription := Driver.Unsubscribing;
    }

    method OnConnected(now: u64) returns (control: Driver.Control)
      requires agent.Valid()
      modifies this, session, agent, agent.store
      ensures agent.Valid() && Handles(old(Agent()), Driver.OnConnected(old(Agent()), old(View()), now), control)
    {
      hide Validate, MarkReconnected, CommandIntakeOpen, HasReport, Driver.Queue;
      connected := true;
      subscription := Driver.Inactive;
      if agent.state.reconnectRevision.Some? {
        var reply, _ := agent.MarkCurrentCredentialConnected(agent.state.reconnectRevision.value);
        if reply != Answered(Done) { return Driver.Stop; }
      }
      if recovery.Some? {
        Unsubscribe();
      } else if !shuttingDown && !HasReport(agent.state.outbox) {
        SubscribeIfOpen(now);
      }
      return Driver.Continue;
    }

    method Apply(delivery: Driver.Delivery, decoded: Decoded, appliedAt: u64) returns (reply: Reply)
      requires agent.Valid()
      modifies agent, agent.store
      ensures agent.Valid()
      ensures if reply.StoreFailed? then Agent() == old(Agent()) && agent.store.failed
              else Step(Agent(), reply.outcome) == Next(old(Agent()), agent.retention, CallFor(delivery, decoded, appliedAt))
    {
      hide Validate, Next, PerformAll, Written, Conflicted, InstallSteps;
      ghost var writes;
      match decoded {
        case Readable(c, f, r, m) => reply, writes := agent.ApplyDeviceCommand(delivery.topic, c, f, r, m, appliedAt);
        case Unreadable(f) => reply, writes := agent.RejectMalformedDelivery(delivery.topic, delivery.commandId, f, appliedAt);
      }
    }

    method OnCommand(delivery: Driver.Delivery, decoded: Decoded, appliedAt: u64, now: u64)
      returns (control: Driver.Control)
      requires agent.Valid()
      modifies this, session, agent, agent.store
      ensures agent.Valid()
      ensures Handles(old(Agent()), Driver.OnCommand(old(Agent()), old(View()), agent.retention, delivery,
                                                     CallFor(delivery, decoded, appliedAt), now), control)
    {
      hide Validate, Next, CommandIntakeOpen, CallFor, Driver.DeliveryToken, Driver.Acknowledge, Driver.Queue;
      if recovery.Some? && recovery.value.topic == delivery.topic { observed := true; }
      var reply := Apply(delivery, decoded, appliedAt);
      if reply.StoreFailed? || reply.outcome.Refused? { return Driver.Stop; }
      HoldOrAcknowledge(delivery, reply.outcome == Accepted, now);
      return Driver.Continue;
    }

    /** An accepted command, a full store or a shutdown holds the PUBACK until the UNSUBACK. */
    method HoldOrAcknowledge(delivery: Driver.Delivery, accepted: bool, now: u64)
      modifies this, session
      ensures var held := Driver.Held(delivery, Driver.DeliveryToken(Agent(), delivery));
              var open := CommandIntakeOpen(Agent(), now);
              View() == if Driver.HoldsCommandAck(accepted, open, old(shuttingDown))
                        then Driver.Queue(old(View()), Driver.SendUnsubscribe).(subscription := Driver.Unsubscribing, held := Some(held))
                        else Driver.Acknowledge(old(View()), held)
    {
      hide CommandIntakeOpen, Driver.DeliveryToken;
      var token := TokenOf(delivery);
      var open := agent.IntakeOpen(now);
      ghost var a := Agent();
      if accepted || !open || shuttingDown {
        session.Request(Driver.SendUnsubscribe);
        subscription := Driver.Unsubscribing;
        pendingCommandAck := Some(Driver.Held(delivery, token));
      } else {
        session.AcknowledgeCommand(delivery, token);
      }
      assert Agent() == a;
    }

    /** `pending_delivery_settlement_token`. */
    method TokenOf(delivery: Driver.Delivery) returns (token: Option<Token>)
      ensures token == Driver.DeliveryToken(Agent(), delivery)
    {
      var pending := agent.state.pendingInbound;
      if pending.None? || pending.value.topic != delivery.topic || pending.value.commandId != delivery.commandId { return None; }
      return Some(pending.value.token);
    }

    method OnOutboundAcknowledged(eventId: EventId, now: u64) returns (control: Driver.Control)
      requires agent.Valid()
      modifies this, session, agent, agent.store
      ensures agent.Valid()
      ensures Handles(old(Agent()), Driver.OnOutboundAcknowledged(old(Agent()), old(View()), eventId, now), control)
    {
      hide Validate, Rotation.ConfirmOutbound, CommandIntakeOpen, Driver.InboundFlushed, Driver.Queue;
      if !publishing { return Driver.Stop; }
      publishing := false;
      var reply, _ := agent.ConfirmPublished(eventId);
      if reply != Answered(Done) { return Driver.Stop; }
      if agent.state.reconnectRevision.Some? {
        var flushed := InboundFlushed();
        if !subscription.Unsubscribing? && flushed { return Driver.Reconnect; }
        reconnectReady := true;
        if CanUnsubscribe() { Unsubscribe(); }
      } else if CanSubscribe() {
        SubscribeIfOpen(now);
      }
      return Driver.Continue;
    }

    /** `pending_inbound_settled`. */
    method InboundFlushed() returns (flushed: bool)
      ensures flushed <==> Driver.InboundFlushed(Agent())
    {
      var pending := agent.state.pendingInbound;
      return pending.None? || pending.value.settled;
    }

    method ReleaseHeld()
      requires pendingCommandAck.Some?
      modifies this, session
      ensures View() == Driver.Acknowledge(old(View()).(held := None), old(pendingCommandAck).value)
    {
      var held := pendingCommandAck.value;
      pendingCommandAck := None;
      session.AcknowledgeCommand(held.delivery, held.token);
    }

    /** A recovery that saw no redelivery settles the pending delivery without a token. */
    method SettleAbsent() returns (ok: bool)
      requires agent.Valid()
      modifies agent, agent.store
      ensures agent.Valid()
      ensures var step := if recovery.Some? && !observed && !Driver.InboundFlushed(old(Agent())) then InboundSettled(old(Agent()), None)
                          else Step(old(Agent()), Done);
              if ok then Step(Agent(), Done) == step
              else (Agent() == step.state && step.outcome != Done) || (agent.store.failed && Agent() == old(Agent()))
    {
      hide Validate, InboundSettled, Driver.InboundFlushed;
      var flushed := InboundFlushed();
      if !recovery.Some? || observed || flushed { return true; }
      var reply, _ := agent.PersistInboundSettlement(None);
      return reply == Answered(Done);
    }

    method OnUnsubscribed(now: u64) returns (control: Driver.Control)
      requires agent.Valid()
      modifies this, session, agent, agent.store
      ensures agent.Valid() && Handles(old(Agent()), Driver.OnUnsubscribed(old(Agent()), old(View()), now), control)
    {
      hide Validate, InboundSettled, CommandIntakeOpen, HasReport, Driver.InboundFlushed, Driver.Acknowledge, Driver.Queue;
      subscription := Driver.Inactive;
      if pendingCommandAck.Some? {
        ReleaseHeld();
        return Driver.Continue;
      }
      var ok := SettleAbsent();
      if !ok { return Driver.Stop; }
      var flushed := InboundFlushed();
      if reconnectReady && flushed { return Driver.Reconnect; }
      if !HasReport(agent.state.outbox) && CanSubscribe() {
        SubscribeIfOpen(now);
      }
      return Driver.Continue;
    }

    method OnInboundAcknowledged(token: Option<Token>) returns (control: Driver.Control)
      requires agent.Valid()
      modifies this, session, agent, agent.store
      ensures agent.Valid()
      ensures Handles(old(Agent()), Driver.OnInboundAcknowledged(old(Agent()), old(View()), token), control)
    {
      hide Validate, InboundSettled;
      if token.None? { return Driver.Continue; }
      var reply, _ := agent.PersistInboundSettlement(token);
      if reply != Answered(Done) { return Driver.Stop; }
      if reconnectReady && !subscription.Unsubscribing? { return Driver.Reconnect; }
      return Driver.Continue;
    }

    // ----- Transport events -----

    /** An incoming PUBACK confirms the event published under its packet id; an unknown one ends the session. */
    method OnPubAck(packetId: u16, now: u64) returns (control: Driver.Control)
      requires agent.Valid()
      modifies this, session, agent, agent.store
      ensures agent.Valid()
      ensures var before := old(View());
              if packetId !in before.packets then control == Driver.Stop && Agent() == old(Agent())
              else Handles(old(Agent()), Driver.OnOutboundAcknowledged(old(Agent()), before.(packets := before.packets - {packetId}),
                                                                       before.packets[packetId], now), control)
    {
      hide Validate, Driver.OnOutboundAcknowledged;
      var eventId := session.TakeEvent(packetId);
      if eventId.None? { return Driver.Stop; }
      control := OnOutboundAcknowledged(eventId.value, now);
    }

    ghost predicate Refines(y: Driver.System, control: Driver.Control)
      reads this, session, agent, agent.state
    {
      && y.agent == Agent()
      && y.session == if control == Driver.Continue then Some(View()) else None
    }

    /** The transport reports its oldest request as written. `y` is the system the session runs in. */
    method OnWritten(packetId: u16, ghost y: Driver.System) returns (control: Driver.Control)
      requires agent.Valid() && session.requests != []
      requires y.agent == Agent() && y.session == Some(View())
      modifies this, session, agent, agent.store
      ensures agent.Valid()
      ensures Refines(Driver.Write(y, packetId), control) || (agent.store.failed && Agent() == old(Agent()) && control == Driver.Stop)
    {
      hide Validate, Driver.OnInboundAcknowledged;
      var request := session.requests[0];
      session.requests := session.requests[1..];
      match request {
        case SendPublish(_, _) =>
          var tracked := session.PacketAssigned(packetId);
          return if tracked then Driver.Continue else Driver.Stop;
        case SendPubAck(acknowledged) =>
          var token := session.TakeToken(acknowledged);
          if token.None? { return Driver.Stop; }
          control := OnInboundAcknowledged(token.value);
        case _ =>
          return Driver.Continue;
      }
    }

    method StartShutdown()
      modifies this, session
      ensures View() == Driver.StartShutdown(old(View()))
    {
      shuttingDown := true;
      if CanUnsubscribe() { Unsubscribe(); }
    }
  }
}
