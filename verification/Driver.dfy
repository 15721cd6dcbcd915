/**
 One MQTT session over the agent: the event handlers of the session driver, the packet correlation
 of the transport, and a broker that sends CONNACK once and first, answers requests in order and
 has at most one unacknowledged delivery (Receive Maximum 1, section 4.9 of MQTT Version 5.0).
 It may deliver before SUBACK and after UNSUBACK.
 */
module Driver {
  import opened Bytes
  import opened Identities
  import opened Rotation
  import Topics

  datatype Subscription = Inactive | Active | Unsubscribing

  datatype Scope = Scope(topic: Topic, commandId: Text)

  datatype Delivery = Delivery(packetId: u16, topic: Topic, commandId: Text)

  datatype Held = Held(delivery: Delivery, token: Option<Token>)

  /** What the driver queued for the transport and the transport has not written yet. */
  datatype Request =
    | SendPublish(eventId: EventId, topic: Text)
    | SendSubscribe
    | SendUnsubscribe
    | SendPubAck(packetId: u16)

  /** Fixed at creation: the identity and credential revision the session was opened with. */
  datatype Session = Session(
    identity: DeviceIdentity, revision: u64, recovery: Option<Scope>,
    publishing: bool, subscription: Subscription, connected: bool, held: Option<Held>,
    observed: bool, reconnectReady: bool, shuttingDown: bool,
    awaiting: seq<EventId>, packets: map<u16, EventId>, inbound: map<u16, Option<Token>>,
    requests: seq<Request>)

  datatype Control = Continue | Reconnect | Stop

  datatype Handled = Handled(agent: State, session: Session, control: Control)

  /** What left the device: the fact, its topic, and the credential revision and identity of the session. */
  datatype Published = Published(fact: OutboundFact, topic: Text, revision: u64, identity: DeviceIdentity)

  // ----- Predicates of SessionState and the pure decisions -----

  predicate CanPublish(s: Session) {
    s.connected && !s.publishing && !s.reconnectReady && !s.subscription.Unsubscribing?
  }

  predicate CanUnsubscribe(s: Session) { s.connected && s.subscription.Active? }

  predicate CanSubscribe(s: Session) { s.subscription.Inactive? && !s.shuttingDown }

  predicate HoldsCommandAck(accepted: bool, intakeOpen: bool, shuttingDown: bool) {
    accepted || !intakeOpen || shuttingDown
  }

  /** `pending_inbound_settled`: nothing is pending, or it is settled. */
  predicate InboundFlushed(a: State) {
    a.pendingInbound.None? || a.pendingInbound.value.settled
  }

  // ----- Session creation -----

  function OpenSession(a: State): Session {
    var recovery := if a.pendingInbound.Some?
                    then Some(Scope(a.pendingInbound.value.topic, a.pendingInbound.value.commandId)) else None;
    Session(a.identity, a.current.credentialRevision, recovery, false, Inactive, false, None,
            false, false, false, [], map[], map[], [])
  }

  function Queue(s: Session, r: Request): Session { s.(requests := s.requests + [r]) }

  // ----- Handlers -----

  /** The topic by the kind of fact, from the topics of the session. */
  function TopicFor(id: DeviceIdentity, fact: OutboundFact): Text {
    Topics.UplinkTopicText(id, fact.CertificateReported?)
  }

  function PublishNext(a: State, s: Session): Session {
    var next := NextOutbound(a);
    if CanPublish(s) && next.Some?
    then Queue(s, SendPublish(next.value.eventId, TopicFor(s.identity, next.value))).(awaiting := s.awaiting + [next.value.eventId], publishing := true)
    else s
  }

  function OnConnected(a: State, s: Session, now: u64): Handled {
    var s1 := s.(connected := true, subscription := Inactive);
    var step := if a.reconnectRevision.Some? then CredentialConnected(a, a.reconnectRevision.value) else Step(a, Done);
    if step.outcome != Done then Handled(a, s1, Stop)
    else if s.recovery.Some? then
      Handled(step.state, Queue(s1, SendUnsubscribe).(subscription := Unsubscribing), Continue)
    else if !s.shuttingDown && !RotationInFlight(step.state) && CommandIntakeOpen(step.state, now) then
      Handled(step.state, Queue(s1, SendSubscribe), Continue)
    else Handled(step.state, s1, Continue)
  }

  /** `acknowledge_command`: the PUBACK request and its settlement token. */
  function Acknowledge(s: Session, h: Held): Session {
    Queue(s, SendPubAck(h.delivery.packetId)).(inbound := s.inbound[h.delivery.packetId := h.token])
  }

  function DeliveryToken(a: State, d: Delivery): Option<Token> {
    if a.pendingInbound.Some? && a.pendingInbound.value.topic == d.topic
       && a.pendingInbound.value.commandId == d.commandId
    then Some(a.pendingInbound.value.token) else None
  }

  /** The scope check of `command_delivery`: the session's topic, or the exact recovery delivery. */
  predicate Deliverable(s: Session, d: Delivery) {
    || d.topic == CommandTopic(s.identity)
    || (s.recovery.Some? && s.recovery.value.topic == d.topic && s.recovery.value.commandId == d.commandId)
  }

  /** The agent call a delivery becomes: decoded or not, it keeps its topic and command id. */
  predicate Carries(d: Delivery, e: Event) {
    match e
    case Deliver(topic, c, _, _, _) => topic == d.topic && c.commandId == d.commandId
    case DeliverMalformed(topic, id, _, _) => topic == d.topic && id == d.commandId
    case _ => false
  }

  function OnCommand(a: State, s: Session, retention: u64, d: Delivery, e: Event, now: u64): Handled {
    var s1 := if s.recovery.Some? && s.recovery.value.topic == d.topic then s.(observed := true) else s;
    var step := Next(a, retention, e);
    if step.outcome.Refused? then Handled(step.state, s1, Stop)
    else
      var h := Held(d, DeliveryToken(step.state, d));
      if HoldsCommandAck(step.outcome == Accepted, CommandIntakeOpen(step.state, now), s.shuttingDown) then
        Handled(step.state, Queue(s1, SendUnsubscribe).(subscription := Unsubscribing, held := Some(h)), Continue)
      else Handled(step.state, Acknowledge(s1, h), Continue)
  }

  function OnOutboundAcknowledged(a: State, s: Session, id: EventId, now: u64): Handled {
    if !s.publishing then Handled(a, s, Stop)
    else
      var s1 := s.(publishing := false);
      var step := ConfirmOutbound(a, id);
      if step.outcome != Done then Handled(step.state, s1, Stop)
      else if step.state.reconnectRevision.Some? then
        if !s1.subscription.Unsubscribing? && InboundFlushed(step.state) then Handled(step.state, s1, Reconnect)
        else
          var s2 := s1.(reconnectReady := true);
          if CanUnsubscribe(s2)
          then Handled(step.state, Queue(s2, SendUnsubscribe).(subscription := Unsubscribing), Continue)
          else Handled(step.state, s2, Continue)
      else if CanSubscribe(s1) && CommandIntakeOpen(step.state, now)
      then Handled(step.state, Queue(s1, SendSubscribe), Continue)
      else Handled(step.state, s1, Continue)
  }

  function OnUnsubscribed(a: State, s: Session, now: u64): Handled {
    var s1 := s.(subscription := Inactive);
    if s.held.Some? then Handled(a, Acknowledge(s1.(held := None), s.held.value), Continue)
    else
      var step := if s.recovery.Some? && !s.observed && !InboundFlushed(a) then InboundSettled(a, None) else Step(a, Done);
      if step.outcome != Done then Handled(step.state, s1, Stop)
      else if s.reconnectReady && InboundFlushed(step.state) then Handled(step.state, s1, Reconnect)
      else if !RotationInFlight(step.state) && CanSubscribe(s1) && CommandIntakeOpen(step.state, now)
      then Handled(step.state, Queue(s1, SendSubscribe), Continue)
      else Handled(step.state, s1, Continue)
  }

  function OnInboundAcknowledged(a: State, s: Session, token: Option<Token>): Handled {
    if token.None? then Handled(a, s, Continue)
    else
      var step := InboundSettled(a, token);
      if step.outcome != Done then Handled(step.state, s, Stop)
      else if s.reconnectReady && !s.subscription.Unsubscribing? then Handled(step.state, s, Reconnect)
      else Handled(step.state, s, Continue)
  }

  function StartShutdown(s: Session): Session {
    var s1 := s.(shuttingDown := true);
    if CanUnsubscribe(s1) then Queue(s1, SendUnsubscribe).(subscription := Unsubscribing) else s1
  }

  // ----- The device, its session and the broker -----

  datatype Reply = SubscribeReply | UnsubscribeReply

  /** `delivering` is the one unacknowledged delivery, `unconfirmed` the publishes not yet PUBACKed. */
  datatype System = System(
    agent: State, session: Option<Session>, delivering: Option<u16>, replies: seq<Reply>,
    unconfirmed: set<u16>, published: seq<Published>)

  datatype Happening =
    | Opens
    | Connects(now: u64)
    | Publishes
    | Delivers(delivery: Delivery, call: Event, now: u64)
    | Writes(packetId: u16)
    | Confirms(packetId: u16, now: u64)
    | Subscribes
    | Unsubscribes(now: u64)
    | ShutsDown
    | Fails

  /** What the broker and the transport may do next. */
  predicate Possible(y: System, h: Happening) {
    if y.session.None? then h.Opens?
    else
      var s := y.session.value;
      match h
      case Opens => false
      case Connects(_) => !s.connected
      case Publishes => true
      case Delivers(d, e, _) => s.connected && y.delivering.None? && Carries(d, e) && WellTyped(e)
      case Writes(p) => s.connected && s.requests != [] && (s.requests[0].SendPublish? ==> p !in y.unconfirmed)
      case Confirms(p, _) => s.connected && p in y.unconfirmed
      case Subscribes => s.connected && y.replies != [] && y.replies[0].SubscribeReply?
      case Unsubscribes(_) => s.connected && y.replies != [] && y.replies[0].UnsubscribeReply?
      case ShutsDown => true
      case Fails => true
  }

  function Close(y: System, a: State): System {
    y.(agent := a, session := None, delivering := None, replies := [], unconfirmed := {})
  }

  function Settle(y: System, h: Handled): System {
    if h.control == Continue then y.(agent := h.agent, session := Some(h.session)) else Close(y, h.agent)
  }

  /** Writing one queued request: the outgoing half of `poll`. */
  function Write(y: System, p: u16): System
    requires y.session.Some? && y.session.value.requests != []
  {
    var s := y.session.value.(requests := y.session.value.requests[1..]);
    match y.session.value.requests[0]
    case SendPublish(_, _) =>
      if s.awaiting == [] || p in s.packets then Close(y, y.agent)
      else y.(session := Some(s.(awaiting := s.awaiting[1..], packets := s.packets[p := s.awaiting[0]])),
              unconfirmed := y.unconfirmed + {p})
    case SendSubscribe => y.(session := Some(s), replies := y.replies + [SubscribeReply])
    case SendUnsubscribe => y.(session := Some(s), replies := y.replies + [UnsubscribeReply])
    case SendPubAck(q) =>
      if q !in s.inbound then Close(y, y.agent)
      else
        var h := OnInboundAcknowledged(y.agent, s.(inbound := s.inbound - {q}), s.inbound[q]);
        Settle(y, h).(delivering := None)
  }

  function Publishing(y: System): System
    requires y.session.Some?
  {
    var s := y.session.value;
    var t := PublishNext(y.agent, s);
    var next := NextOutbound(y.agent);
    if CanPublish(s) && next.Some?
    then y.(session := Some(t), published := y.published + [Published(next.value, TopicFor(s.identity, next.value), s.revision, s.identity)])
    else y.(session := Some(t))
  }

  function Happen(y: System, retention: u64, h: Happening): System
    requires Possible(y, h)
  {
    match h
    case Opens => y.(session := Some(OpenSession(y.agent)), delivering := None, replies := [], unconfirmed := {})
    case Connects(now) => Settle(y, OnConnected(y.agent, y.session.value, now))
    case Publishes => Publishing(y)
    case Delivers(d, e, now) =>
      if !Deliverable(y.session.value, d) then Close(y, y.agent)
      else
        var next := Settle(y, OnCommand(y.agent, y.session.value, retention, d, e, now));
        if next.session.Some? then next.(delivering := Some(d.packetId)) else next
    case Writes(p) => Write(y, p)
    case Confirms(p, now) =>
      var s := y.session.value;
      if p !in s.packets then Close(y, y.agent)
      else Settle(y.(unconfirmed := y.unconfirmed - {p}),
                  OnOutboundAcknowledged(y.agent, s.(packets := s.packets - {p}), s.packets[p], now))
    case Subscribes =>
      y.(session := Some(y.session.value.(subscription := Active)), replies := y.replies[1..])
    case Unsubscribes(now) =>
      Settle(y.(replies := y.replies[1..]), OnUnsubscribed(y.agent, y.session.value, now))
    case ShutsDown => y.(session := Some(StartShutdown(y.session.value)))
    case Fails => Close(y, y.agent)
  }
}
