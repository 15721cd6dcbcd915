/**
 What each handler of the session driver does, on the fields of the system before the event: when the
 session is left, what is asked of the transport, what is held, released and remembered.
 */
module DriverBranches {
  import opened Bytes
  import opened Identities
  import opened Rotation
  import opened RotationInvariant
  import opened Operations
  import opened Answers
  import opened Driver
  import opened DriverSafety
  import opened DriverRuns
  import Topics

  /** Nothing pending, or its PUBACK is written. */
  predicate Flushed(a: State) { a.pendingInbound.Some? ==> a.pendingInbound.value.settled }

  /** Two more entries fit the outbox, and the journal has room or something to expire. */
  predicate RoomForAny(a: State, now: u64) {
    && |a.outbox| + 2 <= 128
    && (|a.journal| < 1024
        || exists c :: c in a.journal && c.retainUntil <= now
                       && (a.pendingInbound.Some? ==> a.pendingInbound.value.commandId != c.commandId))
  }

  /** A report is queued. */
  predicate Rotates(a: State) { exists x :: x in a.outbox && !x.AckEntry? }

  lemma RoomIsIntake(a: State, now: u64)
    ensures CommandIntakeOpen(a, now) <==> RoomForAny(a, now)
    ensures RotationInFlight(a) <==> Rotates(a)
    ensures InboundFlushed(a) <==> Flushed(a)
  {}

  // ----- Connection -----

  /**
   A connection marks the awaited revision connected, drains a recovered subscription, and otherwise
   subscribes if there is no shutdown, no rotation and room; it never ends the session.
   */
  lemma ConnectionExactly(y: System, now: u64)
    requires SystemInv(y) && Possible(y, Connects(now)) && y.session.Some?
    ensures var s := y.session.value;
            var h := OnConnected(y.agent, s, now);
            var opens := s.recovery.None? && !s.shuttingDown && !Rotates(y.agent) && RoomForAny(y.agent, now);
      && h.control == Continue
      && h.session == s.(connected := true, subscription := if s.recovery.Some? then Unsubscribing else Inactive,
                         requests := s.requests + (if s.recovery.Some? then [SendUnsubscribe] else if opens then [SendSubscribe] else []))
      && (if y.agent.reconnectRevision.None? then h.agent == y.agent
          else h.agent == CredentialConnected(y.agent, y.agent.reconnectRevision.value).state && h.agent.reconnectRevision.None?)
  {
    hide Verify, Owned, CommandIntakeOpen, SessionOk, CredentialConnected, RoomForAny, HasReport;
    var a, s := y.agent, y.session.value;
    RoomIsIntake(a, now);
    if a.reconnectRevision.Some? {
      ReconnectExact(a, a.reconnectRevision.value);
      ReconnectRecorded(a, a.reconnectRevision.value);
      SameRoom(a, CredentialConnected(a, a.reconnectRevision.value).state, now);
    }
    assert s.requests + [] == s.requests;
  }

  /** Releasing the report changes neither room nor rotation. */
  lemma SameRoom(a: State, b: State, now: u64)
    requires |b.outbox| == |a.outbox| && b.journal == a.journal && b.pendingInbound == a.pendingInbound
    requires forall i :: 0 <= i < |a.outbox| ==> b.outbox[i].AckEntry? == a.outbox[i].AckEntry?
    ensures CommandIntakeOpen(b, now) <==> CommandIntakeOpen(a, now)
    ensures RotationInFlight(b) <==> RotationInFlight(a)
  {
    if RotationInFlight(a) {
      var i :| 0 <= i < |a.outbox| && IsReport(a.outbox[i]);
      assert b.outbox[i] in b.outbox;
    }
    if RotationInFlight(b) {
      var i :| 0 <= i < |b.outbox| && IsReport(b.outbox[i]);
      assert a.outbox[i] in a.outbox;
    }
  }

  // ----- Deliveries -----

  /**
   A delivery the agent refuses ends the session. Any other is acknowledged at once, unless it was accepted,
   no room is left or the session shuts down: then it is held behind an unsubscription. Its token is the
   pending delivery's if it is that delivery.
   */
  lemma DeliveryExactly(a: State, s: Session, retention: u64, d: Delivery, e: Event, now: u64)
    ensures var h := OnCommand(a, s, retention, d, e, now);
            var t := Next(a, retention, e).state;
            var outcome := Next(a, retention, e).outcome;
            var seen := s.(observed := s.observed || (s.recovery.Some? && s.recovery.value.topic == d.topic));
            var token := if t.pendingInbound.Some? && t.pendingInbound.value.topic == d.topic && t.pendingInbound.value.commandId == d.commandId
                         then Some(t.pendingInbound.value.token) else None;
      && h.agent == t
      && (outcome.Refused? ==> h.control == Stop)
      && (!outcome.Refused? ==>
            && h.control == Continue
            && h.session ==
               if outcome == Accepted || !RoomForAny(t, now) || s.shuttingDown
               then seen.(requests := s.requests + [SendUnsubscribe], subscription := Unsubscribing, held := Some(Held(d, token)))
               else seen.(requests := s.requests + [SendPubAck(d.packetId)], inbound := s.inbound[d.packetId := token]))
  {
    hide Next, CommandIntakeOpen, RoomForAny;
    RoomIsIntake(Next(a, retention, e).state, now);
  }

  // ----- Confirmations -----

  /** Whether the reconnect is awaited once this entry is confirmed. */
  predicate WillAwait(a: State, x: Outbound) {
    a.reconnectRevision.Some? || (x.AckEntry? && x.ack.activatesRevision.Some?)
  }

  /** The system after the PUBACK of the one publish, and the entry that was confirmed. */
  function Confirming(y: System, p: u16, now: u64): Handled
    requires y.session.Some? && p in y.session.value.packets
  {
    var s := y.session.value;
    OnOutboundAcknowledged(y.agent, s.(packets := s.packets - {p}), s.packets[p], now)
  }

  lemma ConfirmedState(a: State, id: EventId) returns (x: Outbound)
    requires Inv(a) && ConfirmOutbound(a, id).outcome == Done
    ensures x in a.outbox && x.eventId == id
    ensures var b := ConfirmOutbound(a, id).state;
      && (b.reconnectRevision.Some? <==> WillAwait(a, x))
      && (WillAwait(a, x) ==> b.pendingInbound == a.pendingInbound)
      && b.journal == a.journal && |b.outbox| + 1 == |a.outbox|
      && b.pendingInbound == (if x.AckEntry? then a.pendingInbound else None)
  {
    hide Verify, Owned, ConfirmOutbound;
    var i := ConfirmationRecorded(a, id);
    x := a.outbox[i];
    if !x.AckEntry? && a.reconnectRevision.Some? { ReadyNotAwaited(a, id, x); }
  }

  lemma ReadyNotAwaited(a: State, id: EventId, x: Outbound)
    requires Inv(a) && x in a.outbox && x.eventId == id && !x.AckEntry? && ConfirmOutbound(a, id).outcome == Done
    ensures a.reconnectRevision.None?
  {
    hide Owned, ConfirmOutbound;
    if x.ReportBlocked? { BlockedNeverConfirms(a, x); }
    assert PhaseValid(a, x);
  }

  /**
   The confirmation of a publish leaves the session if and only if a reconnect is then awaited, the pending
   delivery is settled and no unsubscription is pending. If one is awaited and the session is not left, it is
   ready to leave, and unsubscribes if it is subscribed. If none is, it subscribes if it is unsubscribed and
   has room.
   */
  lemma ConfirmationExactly(y: System, p: u16, now: u64) returns (x: Outbound)
    requires SystemInv(y) && Possible(y, Confirms(p, now))
    ensures y.session.Some? && p in y.session.value.packets
    ensures x in y.agent.outbox && x.eventId == y.session.value.packets[p]
    ensures var s := y.session.value;
            var h := Confirming(y, p, now);
            var b := ConfirmOutbound(y.agent, x.eventId).state;
            var leaves := WillAwait(y.agent, x) && Flushed(y.agent) && !s.subscription.Unsubscribing?;
            var unsubscribes := WillAwait(y.agent, x) && !leaves && s.subscription.Active?;
            var subscribes := !WillAwait(y.agent, x) && s.subscription.Inactive? && !s.shuttingDown && RoomForAny(b, now);
      && h.agent == b
      && (h.control == Reconnect <==> leaves) && (h.control == Continue <==> !leaves)
      && (!leaves ==>
            h.session == s.(packets := s.packets - {p}, publishing := false,
                            reconnectReady := s.reconnectReady || WillAwait(y.agent, x),
                            subscription := if unsubscribes then Unsubscribing else s.subscription,
                            requests := s.requests + (if unsubscribes then [SendUnsubscribe]
                                                      else if subscribes then [SendSubscribe] else [])))
  {
    hide Verify, Owned, ConfirmOutbound, PublishIds, PubAckIds, Outstanding, CommandIntakeOpen, RoomForAny, Rooted;
    ConfirmationNeverUnknown(y, p, now);
    var s := y.session.value;
    x := ConfirmedState(y.agent, s.packets[p]);
    RoomIsIntake(ConfirmOutbound(y.agent, x.eventId).state, now);
    assert s.requests + [] == s.requests;
  }

  // ----- Unsubscriptions and settlements -----

  /**
   An UNSUBACK first releases a held delivery. With none held it settles a recovered delivery that was not
   seen again, leaves if the session is ready to and the delivery is settled, and otherwise subscribes if
   nothing rotates and there is room.
   */
  lemma UnsubscriptionExactly(y: System, now: u64)
    requires SystemInv(y) && y.session.Some?
    ensures var s := y.session.value;
            var h := OnUnsubscribed(y.agent, s, now);
            var absent := s.held.None? && s.recovery.Some? && !s.observed && !Flushed(y.agent);
            var leaves := s.held.None? && s.reconnectReady && (Flushed(y.agent) || absent);
            var subscribes := s.held.None? && !leaves && !Rotates(y.agent) && !s.shuttingDown && RoomForAny(y.agent, now);
      && h.agent == (if absent then y.agent.(pendingInbound := Some(y.agent.pendingInbound.value.(settled := true))) else y.agent)
      && h.control == (if leaves then Reconnect else Continue)
      && (!leaves ==>
            h.session == if s.held.Some?
                         then s.(subscription := Inactive, held := None,
                                 requests := s.requests + [SendPubAck(s.held.value.delivery.packetId)],
                                 inbound := s.inbound[s.held.value.delivery.packetId := s.held.value.token])
                         else s.(subscription := Inactive, requests := s.requests + (if subscribes then [SendSubscribe] else [])))
  {
    hide Verify, Owned, InboundSettled, CommandIntakeOpen, RoomForAny, SessionOk, HasReport;
    var a, s := y.agent, y.session.value;
    RoomIsIntake(a, now);
    SettlementRecorded(a, None);
    if a.pendingInbound.Some? {
      var b := a.(pendingInbound := Some(a.pendingInbound.value.(settled := true)));
      RoomIsIntake(b, now);
      SettledRoom(a, b, now);
    }
    assert s.requests + [] == s.requests;
  }

  lemma SettledRoom(a: State, b: State, now: u64)
    requires a.pendingInbound.Some? && b == a.(pendingInbound := Some(a.pendingInbound.value.(settled := true)))
    ensures RoomForAny(b, now) <==> RoomForAny(a, now)
  {}

  /**
   A written PUBACK without a token changes nothing. With one it settles the pending delivery if the token is
   its own, and then leaves if the session is ready to and no unsubscription is pending; any other token ends
   the session.
   */
  lemma SettlementExactly(a: State, s: Session, token: Option<Token>)
    requires Inv(a)
    ensures var h := OnInboundAcknowledged(a, s, token);
            var own := a.pendingInbound.Some? && token == Some(a.pendingInbound.value.token);
      && h.session == s
      && h.agent == (if own then a.(pendingInbound := Some(a.pendingInbound.value.(settled := true))) else a)
      && (h.control == Reconnect <==> own && s.reconnectReady && !s.subscription.Unsubscribing?)
      && (h.control == Stop <==> token.Some? && !own)
  {
    hide Verify, Owned, InboundSettled;
    SettlementRecorded(a, token);
  }

  // ----- The transport -----

  /**
   Writing the oldest request: a publish gets its packet id, which must be free and awaited; subscriptions
   will be answered; a PUBACK settles what it acknowledges, and one for no delivery ends the session.
   */
  lemma WritingExactly(y: System, p: u16)
    requires y.session.Some? && y.session.value.requests != []
    ensures var s := y.session.value;
            var r, left := s.requests[0], s.(requests := s.requests[1..]);
            var z := Write(y, p);
      && (r.SendPublish? && (s.awaiting == [] || p in s.packets) ==> z.session.None? && z.agent == y.agent)
      && (r.SendPublish? && s.awaiting != [] && p !in s.packets ==>
            z == y.(session := Some(left.(awaiting := s.awaiting[1..], packets := s.packets[p := s.awaiting[0]])),
                    unconfirmed := y.unconfirmed + {p}))
      && (r.SendSubscribe? ==> z == y.(session := Some(left), replies := y.replies + [SubscribeReply]))
      && (r.SendUnsubscribe? ==> z == y.(session := Some(left), replies := y.replies + [UnsubscribeReply]))
      && (r.SendPubAck? && r.packetId !in s.inbound ==> z.session.None? && z.agent == y.agent)
      && (r.SendPubAck? && r.packetId in s.inbound ==>
            var h := OnInboundAcknowledged(y.agent, left.(inbound := s.inbound - {r.packetId}), s.inbound[r.packetId]);
            && z.agent == h.agent && z.delivering.None? && z.published == y.published
            && z.session == (if h.control == Continue then Some(h.session) else None))
  {
    hide OnInboundAcknowledged;
  }

  // ----- Publishing and shutting down -----

  /**
   Publishing hands out the oldest publishable fact, on the acknowledgement or report topic of the session's
   identity, if and only if the session is connected, publishes nothing, is not ready to leave and has no
   unsubscription pending.
   */
  lemma PublishingExactly(y: System)
    requires y.session.Some?
    ensures var s, next := y.session.value, NextOutbound(y.agent);
            var z := Publishing(y);
            var may := s.connected && !s.publishing && !s.reconnectReady && !s.subscription.Unsubscribing?;
      if may && next.Some? then
        var topic := Topics.UplinkTopicText(s.identity, next.value.CertificateReported?);
        z == y.(session := Some(s.(publishing := true, awaiting := s.awaiting + [next.value.eventId],
                                   requests := s.requests + [SendPublish(next.value.eventId, topic)])),
                published := y.published + [Published(next.value, topic, s.revision, s.identity)])
      else z == y
  {
    hide NextOutbound, Topics.UplinkTopicText;
  }

  /** A shutdown unsubscribes exactly a subscribed session. */
  lemma ShutdownExactly(s: Session)
    ensures var subscribed := s.connected && s.subscription.Active?;
      StartShutdown(s) == s.(shuttingDown := true, subscription := if subscribed then Unsubscribing else s.subscription,
                             requests := s.requests + (if subscribed then [SendUnsubscribe] else []))
  {
    assert s.requests + [] == s.requests;
  }

  /** Every fact of every run was published on the topic of its kind, of the identity its session was opened with. */
  lemma {:induction false} FactsOnTheirTopics(retention: u64, happenings: seq<Happening>, systems: seq<System>, p: Published)
    requires retention > 0 && SystemRun(retention, happenings, systems) && DriverRuns.Begins(systems[0])
    requires p in systems[|happenings|].published
    ensures p.topic == Topics.UplinkTopicText(p.identity, p.fact.CertificateReported?)
    decreases |happenings|
  {
    hide Happen, Topics.UplinkTopicText;
    if happenings != [] {
      var n := |happenings| - 1;
      assert systems[n + 1] == Happen(systems[n], retention, happenings[n]);
      PublishedBy(systems[n], retention, happenings[n], p);
      if p in systems[n].published { FactsOnTheirTopics(retention, happenings[..n], systems[..n + 1], p); }
    }
  }

  lemma PublishedBy(y: System, retention: u64, h: Happening, p: Published)
    requires Possible(y, h) && p in Happen(y, retention, h).published
    ensures p in y.published || p.topic == Topics.UplinkTopicText(p.identity, p.fact.CertificateReported?)
  {
    hide OnConnected, OnCommand, OnOutboundAcknowledged, OnUnsubscribed, OnInboundAcknowledged, StartShutdown, NextOutbound,
         Topics.UplinkTopicText, Publishing;
    if h.Publishes? { PublishingExactly(y); }
  }
}
