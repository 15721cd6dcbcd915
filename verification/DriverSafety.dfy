/** What every run of the driver over the agent keeps, across restarts and transport errors. */
module DriverSafety {
  import opened Bytes
  import opened Identities
  import opened Rotation
  import opened RotationInvariant
  import opened Operations
  import opened Runs
  import opened Drain
  import opened Driver

  // ----- The invariant -----

  /** A report was published under the revision it reports and on that revision's topics. */
  predicate Rightful(p: Published) {
    p.fact.CertificateReported? ==>
      && p.topic == TopicFor(p.identity, p.fact)
      && p.revision == p.fact.report.credentialRevision
      && p.identity.generation == p.fact.report.credentialGeneration
      && p.identity.tenant == p.fact.report.stateHash.tenant
      && p.identity.device == p.fact.report.stateHash.device
  }

  /** The session runs on the installed credential, unless a newer one waits for the next session. */
  predicate Rooted(a: State, s: Session) {
    || (s.revision == a.current.credentialRevision && s.identity == a.identity)
    || (s.connected && HasBlocked(a.outbox))
  }

  function PublishIds(requests: seq<Request>): seq<EventId> {
    if requests == [] then []
    else (if requests[0].SendPublish? then [requests[0].eventId] else []) + PublishIds(requests[1..])
  }

  function PubAckIds(requests: seq<Request>): seq<u16> {
    if requests == [] then []
    else (if requests[0].SendPubAck? then [requests[0].packetId] else []) + PubAckIds(requests[1..])
  }

  predicate Outstanding(a: State, id: EventId) {
    exists e :: e in a.outbox && e.eventId == id && Publishable(a, e)
  }

  /** At most one publish is in flight: queued, or written and unconfirmed, never both. */
  predicate Correlated(a: State, s: Session, unconfirmed: set<u16>) {
    && PublishIds(s.requests) == s.awaiting
    && s.packets.Keys == unconfirmed
    && (if !s.publishing then s.awaiting == [] && s.packets == map[]
        else || (|s.awaiting| == 1 && s.packets == map[])
             || (s.awaiting == [] && exists p :: p in s.packets && s.packets.Keys == {p}))
    && (forall id :: id in s.awaiting ==> Outstanding(a, id))
    && (forall p :: p in s.packets ==> Outstanding(a, s.packets[p]))
  }

  /** The one unacknowledged delivery is held, or its PUBACK is queued with its token. */
  predicate Receives(s: Session, delivering: Option<u16>) {
    match delivering
    case None => s.held.None? && PubAckIds(s.requests) == [] && s.inbound == map[]
    case Some(p) =>
      if s.held.Some?
      then s.held.value.delivery.packetId == p && PubAckIds(s.requests) == [] && s.inbound == map[]
      else PubAckIds(s.requests) == [p] && s.inbound.Keys == {p}
  }

  predicate Disciplined(a: State, s: Session) {
    && (s.reconnectReady ==> s.connected && a.reconnectRevision.Some?)
    && (!s.connected ==> s.requests == [] && !s.publishing && s.held.None?)
  }

  predicate SessionOk(a: State, s: Session, delivering: Option<u16>, unconfirmed: set<u16>) {
    Rooted(a, s) && Correlated(a, s, unconfirmed) && Receives(s, delivering) && Disciplined(a, s)
  }

  predicate SessionInv(y: System, s: Session) {
    SessionOk(y.agent, s, y.delivering, y.unconfirmed)
  }

  predicate SystemInv(y: System) {
    && Inv(y.agent)
    && (forall p :: p in y.published ==> Rightful(p))
    && (y.session.Some? ==> SessionInv(y, y.session.value))
  }

  // ----- Request queues -----

  lemma {:induction false} QueueIds(requests: seq<Request>, r: Request)
    ensures PublishIds(requests + [r]) == PublishIds(requests) + (if r.SendPublish? then [r.eventId] else [])
    ensures PubAckIds(requests + [r]) == PubAckIds(requests) + (if r.SendPubAck? then [r.packetId] else [])
  {
    if requests == [] {
      assert requests + [r] == [r] && [r][1..] == [];
    } else {
      var all := requests + [r];
      assert all[0] == requests[0] && all[1..] == requests[1..] + [r];
      QueueIds(requests[1..], r);
      var head := requests[0];
      assert PublishIds(all) == (if head.SendPublish? then [head.eventId] else []) + PublishIds(all[1..]);
      assert PubAckIds(all) == (if head.SendPubAck? then [head.packetId] else []) + PubAckIds(all[1..]);
    }
  }

  // ----- What an agent step keeps for the session -----

  /** A delivery never takes anything out of the outbox, nor unsettles or unblocks the rotation. */
  lemma DeliveryKeeps(a: State, retention: u64, e: Event)
    requires Inv(a) && retention > 0 && WellTyped(e) && IsDelivery(e)
    ensures var step := Next(a, retention, e);
      && (forall x :: x in a.outbox ==> x in step.state.outbox)
      && (a.reconnectRevision.Some? ==> step.state.reconnectRevision.Some?)
      && (PendingSettled(a) ==> PendingSettled(step.state))
      && (HasBlocked(a.outbox) ==> HasBlocked(step.state.outbox))
      && (step.outcome == Accepted ==> HasBlocked(step.state.outbox))
      && (step.outcome != Accepted ==> step.state.current == a.current && step.state.identity == a.identity)
  {
    hide Verify, Owned, Next;
    var f := EffectOf(a, retention, e);
    var t := Next(a, retention, e).state;
    if f.Installing? {
      NothingInFlight(a);
      assert t.outbox[|a.outbox| + 1] in t.outbox && t.outbox[|a.outbox| + 1].ReportBlocked?;
    } else {
      DeliveryCarries(a, retention, e);
    }
  }

  lemma ReadyMeansNotBlocked(a: State, e: Outbound)
    requires Inv(a) && e in a.outbox && e.ReportReady?
    ensures !HasBlocked(a.outbox)
  {}

  /** Confirming a publishable entry succeeds, keeps the credential, and keeps a blocked report blocked. */
  lemma ConfirmKeeps(a: State, id: EventId)
    requires Inv(a) && Outstanding(a, id)
    ensures var step := ConfirmOutbound(a, id);
      && step.outcome == Done && Inv(step.state)
      && step.state.current == a.current && step.state.identity == a.identity
      && (a.reconnectRevision.Some? ==> step.state.reconnectRevision.Some?)
      && (HasBlocked(a.outbox) ==> HasBlocked(step.state.outbox))
      && (step.state.reconnectRevision.Some? ==>
            step.state.reconnectRevision.value == step.state.current.credentialRevision)
  {
    hide Verify, Owned;
    InvariantParts(a);
    ConfirmExact(a, id);
    ConfirmCarries(a, id);
    var index := PositionOf(a.outbox, id);
    RemovedMembers(a, index);
    var t := ConfirmOutbound(a, id).state;
    if HasBlocked(a.outbox) {
      var b :| b in a.outbox && b.ReportBlocked?;
      assert b in t.outbox;
    }
    if t.reconnectRevision.Some? { ReconnectIsCurrent(t); }
  }

  lemma SettleKeeps(a: State, token: Option<Token>)
    requires Inv(a) && InboundSettled(a, token).outcome == Done
    ensures var b := InboundSettled(a, token).state;
      && Inv(b) && InboundFlushed(b) && PendingSettled(b)
      && b.current == a.current && b.identity == a.identity && b.outbox == a.outbox
      && b.reconnectRevision == a.reconnectRevision
  {
    hide Verify, Owned;
    SettleExact(a, token);
  }

  lemma ReconnectKeeps(a: State)
    requires Inv(a) && a.reconnectRevision.Some?
    ensures var step := CredentialConnected(a, a.reconnectRevision.value);
      && step.outcome == Done && Inv(step.state)
      && step.state.current == a.current && step.state.identity == a.identity
  {
    hide Verify, Owned;
    ReconnectExact(a, a.reconnectRevision.value);
    ReconnectCarries(a, a.reconnectRevision.value);
  }

  lemma ReconnectIsCurrent(a: State)
    requires Inv(a) && a.reconnectRevision.Some?
    ensures a.reconnectRevision.value == a.current.credentialRevision && RotationInFlight(a)
  {}

  // ----- Session-level preservation -----

  lemma SessionKept(y: System, s: Session, a: State)
    requires SessionInv(y, s)
    requires (a.current == y.agent.current && a.identity == y.agent.identity) || (s.connected && HasBlocked(a.outbox))
    requires HasBlocked(y.agent.outbox) ==> HasBlocked(a.outbox)
    requires forall e :: e in y.agent.outbox ==> e in a.outbox
    requires PendingSettled(y.agent) ==> PendingSettled(a)
    requires y.agent.reconnectRevision.Some? ==> a.reconnectRevision.Some?
    ensures SessionInv(y.(agent := a), s)
  {}

  lemma QueueKept(y: System, s: Session, r: Request)
    requires SessionInv(y, s) && s.connected && !r.SendPublish? && !r.SendPubAck?
    ensures SessionInv(y, Queue(s, r))
  {
    QueueIds(s.requests, r);
  }

  /** The report in flight names the installed credential. */
  lemma ReportIsInstalled(a: State, e: Outbound)
    requires Inv(a) && e in a.outbox && IsReport(e)
    ensures e.report.credentialRevision == a.current.credentialRevision && e.report.credentialGeneration == a.identity.generation
    ensures e.report.stateHash.tenant == a.identity.tenant && e.report.stateHash.device == a.identity.device
  {
    assert EntryValid(a, e) && ReportOwned(a, a.pendingInbound.value, e.report);
  }

  /** Publishing hands out only a report the session is entitled to. */
  lemma PublishKeeps(y: System)
    requires SystemInv(y) && y.session.Some?
    ensures SystemInv(Publishing(y))
  {
    hide Inv, PublishIds, PubAckIds, NextOutbound, HasBlocked, TopicFor;
    var s, a := y.session.value, y.agent;
    var next := NextOutbound(a);
    if CanPublish(s) && next.Some? {
      QueueIds(s.requests, SendPublish(next.value.eventId, TopicFor(s.identity, next.value)));
      HandedOut(y, s);
    }
  }

  /** What is handed out is outstanding, and a report handed out is the session's own. */
  lemma HandedOut(y: System, s: Session)
    requires Inv(y.agent) && SessionInv(y, s) && NextOutbound(y.agent).Some?
    ensures var fact := NextOutbound(y.agent).value;
      Outstanding(y.agent, fact.eventId) && Rightful(Published(fact, TopicFor(s.identity, fact), s.revision, s.identity))
  {
    hide Verify, Owned, PublishIds, PubAckIds, TopicFor, Correlated, Receives, Disciplined;
    var a := y.agent;
    var e := FirstPublishable(a, a.outbox).value;
    assert e in a.outbox;
    if e.ReportReady? {
      ReadyMeansNotBlocked(a, e);
      ReportIsInstalled(a, e);
    }
  }

  lemma NothingQueued()
    ensures PublishIds([]) == [] && PubAckIds([]) == []
  {}

  lemma ConnectKeeps(y: System, now: u64)
    requires SystemInv(y) && y.session.Some? && !y.session.value.connected
    ensures SystemInv(Settle(y, OnConnected(y.agent, y.session.value, now)))
    ensures OnConnected(y.agent, y.session.value, now).control == Continue
  {
    hide Inv, CredentialConnected, CommandIntakeOpen, PublishIds, PubAckIds, Outstanding, HasReport;
    NothingQueued();
    var s, a := y.session.value, y.agent;
    if a.reconnectRevision.Some? { ReconnectKeeps(a); }
    var h := OnConnected(a, s, now);
    QueueIds([], SendUnsubscribe);
    QueueIds([], SendSubscribe);
    assert s.requests == [];
    assert s.requests + [SendUnsubscribe] == [SendUnsubscribe] && s.requests + [SendSubscribe] == [SendSubscribe];
    assert [SendUnsubscribe] == [] + [SendUnsubscribe] && [SendSubscribe] == [] + [SendSubscribe];
  }

  lemma HoldKept(y: System, s: Session, h: Held)
    requires SessionInv(y, s) && s.connected && y.delivering.None?
    ensures SessionInv(y.(delivering := Some(h.delivery.packetId)),
                       Queue(s, SendUnsubscribe).(subscription := Unsubscribing, held := Some(h)))
  {
    hide Inv, PublishIds, PubAckIds, Outstanding, HasBlocked;
    QueueIds(s.requests, SendUnsubscribe);
  }

  lemma AcknowledgeKept(y: System, s: Session, h: Held)
    requires SessionInv(y, s) && s.connected && y.delivering.None?
    ensures SessionInv(y.(delivering := Some(h.delivery.packetId)), Acknowledge(s, h))
  {
    hide Inv, PublishIds, PubAckIds, Outstanding, HasBlocked;
    QueueIds(s.requests, SendPubAck(h.delivery.packetId));
  }

  lemma ReleaseKept(y: System, s: Session)
    requires SessionInv(y, s) && s.connected && s.held.Some?
    ensures SessionInv(y, Acknowledge(s.(subscription := Inactive, held := None), s.held.value))
  {
    hide Inv, PublishIds, PubAckIds, Outstanding, HasBlocked;
    QueueIds(s.requests, SendPubAck(s.held.value.delivery.packetId));
  }

  lemma ObservedKept(y: System, s: Session)
    requires SessionInv(y, s)
    ensures SessionInv(y, s.(observed := true))
  {}

  lemma CommandKeeps(y: System, retention: u64, d: Delivery, e: Event, now: u64)
    requires SystemInv(y) && y.session.Some? && y.session.value.connected && y.delivering.None?
    requires retention > 0 && Carries(d, e) && WellTyped(e)
    ensures var h := OnCommand(y.agent, y.session.value, retention, d, e, now);
      && Inv(h.agent)
      && (h.control == Continue ==>
            SessionInv(y.(agent := h.agent, delivering := Some(d.packetId)), h.session))
      && h.control != Reconnect
  {
    hide Inv, Next, CommandIntakeOpen, SessionOk, HasBlocked;
    var a, s := y.agent, y.session.value;
    NextKeepsInvariant(a, retention, e);
    DeliveryKeeps(a, retention, e);
    var b := Next(a, retention, e).state;
    ObservedKept(y, s);
    var s1 := if s.recovery.Some? && s.recovery.value.topic == d.topic then s.(observed := true) else s;
    SessionKept(y, s1, b);
    var h := Held(d, DeliveryToken(b, d));
    HoldKept(y.(agent := b), s1, h);
    AcknowledgeKept(y.(agent := b), s1, h);
  }

  lemma ConfirmsKeeps(y: System, p: u16, now: u64)
    requires SystemInv(y) && y.session.Some? && y.session.value.connected && p in y.unconfirmed
    ensures var s := y.session.value;
            var s' := s.(packets := s.packets - {p});
            var h := OnOutboundAcknowledged(y.agent, s', s.packets[p], now);
      && p in s.packets
      && h.control != Stop
      && Inv(h.agent)
      && (h.control == Continue ==> SessionInv(y.(agent := h.agent, unconfirmed := y.unconfirmed - {p}), h.session))
      && (h.control == Reconnect ==> ExitAllowed(h))
  {
    hide Inv, ConfirmOutbound, CommandIntakeOpen, PublishIds, PubAckIds, Outstanding, HasBlocked, Correlated, Receives, Rooted;
    ConfirmedKept(y, p);
    var b, s1 := ConfirmOutbound(y.agent, y.session.value.packets[p]).state, AfterPubAck(y.session.value, p);
    var z := y.(agent := b, unconfirmed := y.unconfirmed - {p});
    if b.reconnectRevision.Some? {
      ReadyKept(z, s1);
      QueueKept(z, s1.(reconnectReady := true), SendUnsubscribe);
      UnsubscribingKept(z, Queue(s1.(reconnectReady := true), SendUnsubscribe));
    }
    QueueKept(z, s1, SendSubscribe);
  }

  /** The session once the PUBACK for its one publish has arrived. */
  function AfterPubAck(s: Session, p: u16): Session { s.(packets := s.packets - {p}, publishing := false) }

  lemma ConfirmedKept(y: System, p: u16)
    requires SystemInv(y) && y.session.Some? && y.session.value.connected && p in y.unconfirmed
    ensures var s := y.session.value;
      && p in s.packets && s.publishing
      && (var step := ConfirmOutbound(y.agent, s.packets[p]);
          && step.outcome == Done && Inv(step.state)
          && (step.state.reconnectRevision.Some? ==>
                step.state.reconnectRevision.value == step.state.current.credentialRevision)
          && SessionInv(y.(agent := step.state, unconfirmed := y.unconfirmed - {p}), AfterPubAck(s, p)))
  {
    hide Inv, ConfirmOutbound, CommandIntakeOpen, PublishIds, PubAckIds, Outstanding, HasBlocked;
    var s := y.session.value;
    ConfirmKeeps(y.agent, s.packets[p]);
    assert s.packets.Keys == {p};
    assert AfterPubAck(s, p).packets == map[];
  }

  lemma UnsubscribingKept(y: System, s: Session)
    requires SessionInv(y, s)
    ensures SessionInv(y, s.(subscription := Unsubscribing))
  {
    hide Inv, PublishIds, PubAckIds, Outstanding, HasBlocked;
  }

  lemma ReadyKept(y: System, s: Session)
    requires SessionInv(y, s) && s.connected && y.agent.reconnectRevision.Some?
    ensures SessionInv(y, s.(reconnectReady := true))
  {
    hide Inv, PublishIds, PubAckIds, Outstanding, HasBlocked;
  }

  /** When the driver may leave the session to reconnect. */
  predicate ExitAllowed(h: Handled) {
    && h.agent.reconnectRevision == Some(h.agent.current.credentialRevision)
    && InboundFlushed(h.agent)
    && !h.session.subscription.Unsubscribing?
  }

  /** The agent once a recovery delivery that was not seen again is taken as settled. */
  function AfterAbsence(a: State, s: Session): State {
    if s.recovery.Some? && !s.observed && !InboundFlushed(a) then InboundSettled(a, None).state else a
  }

  lemma AbsenceKept(y: System, s: Session)
    requires SystemInv(y) && SessionInv(y, s)
    ensures var b := AfterAbsence(y.agent, s);
      && Inv(b) && SessionInv(y.(agent := b), s.(subscription := Inactive))
      && (s.recovery.Some? && !s.observed && !InboundFlushed(y.agent) ==> InboundSettled(y.agent, None).outcome == Done)
  {
    hide Inv, InboundSettled, PublishIds, PubAckIds, Outstanding, HasBlocked;
    if s.recovery.Some? && !s.observed && !InboundFlushed(y.agent) {
      SettleExact(y.agent, None);
      SettleKeeps(y.agent, None);
      SessionKept(y, s, InboundSettled(y.agent, None).state);
    }
  }

  lemma UnsubscribeKeeps(y: System, now: u64)
    requires SystemInv(y) && y.session.Some? && y.session.value.connected
    ensures var h := OnUnsubscribed(y.agent, y.session.value, now);
      && Inv(h.agent)
      && (h.control == Continue ==> SessionInv(y.(agent := h.agent), h.session))
      && (h.control == Reconnect ==> ExitAllowed(h))
      && h.control != Stop
  {
    hide Inv, InboundSettled, CommandIntakeOpen, PublishIds, PubAckIds, Outstanding, HasBlocked, HasReport;
    var a, s := y.agent, y.session.value;
    var h := OnUnsubscribed(a, s, now);
    if s.held.Some? {
      ReleaseKept(y, s);
    } else {
      AbsenceKept(y, s);
      var b := AfterAbsence(a, s);
      if b.reconnectRevision.Some? { ReconnectIsCurrent(b); }
      QueueKept(y.(agent := b), s.(subscription := Inactive), SendSubscribe);
    }
  }

  lemma InboundAckKeeps(y: System, s: Session, token: Option<Token>)
    requires Inv(y.agent) && SessionInv(y, s) && s.connected
    ensures var h := OnInboundAcknowledged(y.agent, s, token);
      && Inv(h.agent)
      && (h.control == Continue ==> SessionInv(y.(agent := h.agent), h.session))
      && (h.control == Reconnect ==> ExitAllowed(h))
  {
    hide Verify, Owned, InboundSettled;
    if token.Some? {
      if InboundSettled(y.agent, token).outcome == Done {
        SettleKeeps(y.agent, token);
        SessionKept(y, s, InboundSettled(y.agent, token).state);
        if y.agent.reconnectRevision.Some? { ReconnectIsCurrent(InboundSettled(y.agent, token).state); }
      } else {
        RefusedSettlement(y.agent, token);
      }
    }
  }

  lemma RefusedSettlement(a: State, token: Option<Token>)
    requires Inv(a) && InboundSettled(a, token).outcome != Done
    ensures InboundSettled(a, token).state == a
  {}

  lemma WritePublishKeeps(y: System, p: u16)
    requires SystemInv(y) && y.session.Some? && y.session.value.requests != []
    requires y.session.value.requests[0].SendPublish? && p !in y.unconfirmed
    ensures SystemInv(Write(y, p)) && Write(y, p).session.Some?
  {
    hide Inv, Outstanding, HasBlocked;
    var was := y.session.value;
    var s := was.(requests := was.requests[1..]);
    assert PublishIds(was.requests) == [was.requests[0].eventId] + PublishIds(s.requests);
    assert PubAckIds(was.requests) == PubAckIds(s.requests);
    assert s.awaiting[1..] == PublishIds(s.requests);
    assert |s.awaiting| == 1 && s.packets == map[] && s.awaiting[0] in was.awaiting;
    var t := s.(awaiting := s.awaiting[1..], packets := s.packets[p := s.awaiting[0]]);
    assert t.packets.Keys == {p};
  }

  lemma WritePubAckKeeps(y: System, p: u16)
    requires SystemInv(y) && y.session.Some? && y.session.value.connected
    requires y.session.value.requests != [] && y.session.value.requests[0].SendPubAck?
    ensures SystemInv(Write(y, p))
  {
    hide Inv, Outstanding, HasBlocked, OnInboundAcknowledged;
    var was := y.session.value;
    var s := was.(requests := was.requests[1..]);
    var q := was.requests[0].packetId;
    assert PublishIds(was.requests) == PublishIds(s.requests);
    assert PubAckIds(was.requests) == [q] + PubAckIds(s.requests);
    assert PubAckIds(was.requests)[0] == q && |PubAckIds(was.requests)| == 1;
    assert y.delivering == Some(q) && PubAckIds(s.requests) == [];
    var t := s.(inbound := s.inbound - {q});
    assert t.inbound == map[];
    InboundAckKeeps(y.(delivering := None), t, s.inbound[q]);
  }

  lemma WriteKeeps(y: System, p: u16)
    requires SystemInv(y) && y.session.Some? && y.session.value.connected && y.session.value.requests != []
    requires y.session.value.requests[0].SendPublish? ==> p !in y.unconfirmed
    ensures SystemInv(Write(y, p))
  {
    match y.session.value.requests[0]
    case SendPublish(_, _) => WritePublishKeeps(y, p);
    case SendPubAck(_) => WritePubAckKeeps(y, p);
    case SendSubscribe => hide Inv, Outstanding, HasBlocked;
    case SendUnsubscribe => hide Inv, Outstanding, HasBlocked;
  }

  lemma ShutdownKeeps(y: System)
    requires SystemInv(y) && y.session.Some?
    ensures SystemInv(y.(session := Some(StartShutdown(y.session.value))))
  {
    hide Inv, PublishIds, PubAckIds, Outstanding, HasBlocked;
    QueueIds(y.session.value.requests, SendUnsubscribe);
  }

  lemma HappenKeepsInvariant(y: System, retention: u64, h: Happening)
    requires SystemInv(y) && retention > 0 && Possible(y, h)
    ensures SystemInv(Happen(y, retention, h))
  {
    hide Inv, SessionOk, OnConnected, OnCommand, OnOutboundAcknowledged, OnUnsubscribed, Write, Publishing, StartShutdown;
    match h
    case Opens => OpenKeeps(y);
    case Connects(now) => ConnectKeeps(y, now);
    case Publishes => PublishKeeps(y);
    case Delivers(d, e, now) => CommandKeeps(y, retention, d, e, now);
    case Writes(p) => WriteKeeps(y, p);
    case Confirms(p, now) => ConfirmsKeeps(y, p, now);
    case Subscribes => SubscribeKeeps(y);
    case Unsubscribes(now) => UnsubscribeKeeps(y, now);
    case ShutsDown => ShutdownKeeps(y);
    case Fails =>
  }

  lemma OpenKeeps(y: System)
    requires SystemInv(y)
    ensures SessionInv(y.(delivering := None, replies := [], unconfirmed := {}), OpenSession(y.agent))
  {}

  lemma SubscribeKeeps(y: System)
    requires SystemInv(y) && y.session.Some?
    ensures SessionInv(y, y.session.value.(subscription := Active))
  {}
}
