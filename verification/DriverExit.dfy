/**
 Leaving for the new credential: once the session is ready to leave, what still has to arrive for it to
 leave, that it then leaves, and the one way in which it is left waiting for nothing.
 */
module DriverExit {
  import opened Bytes
  import opened Identities
  import opened Rotation
  import opened RotationInvariant
  import opened Operations
  import opened Runs
  import opened Drain
  import opened Answers
  import opened Driver
  import opened DriverSafety
  import opened DriverRuns
  import opened DriverBranches
  import Topics

  // ----- What is outstanding -----

  function UnsubscribesQueued(requests: seq<Request>): nat {
    if requests == [] then 0 else (if requests[0] == SendUnsubscribe then 1 else 0) + UnsubscribesQueued(requests[1..])
  }

  function UnsubscribesSent(replies: seq<Reply>): nat {
    if replies == [] then 0 else (if replies[0] == UnsubscribeReply then 1 else 0) + UnsubscribesSent(replies[1..])
  }

  /** UNSUBACKs that will still arrive. */
  function UnsubAcksDue(y: System, s: Session): nat { UnsubscribesQueued(s.requests) + UnsubscribesSent(y.replies) }

  function HeldCount(s: Session): nat { if s.held.Some? then 1 else 0 }

  /** A PUBACK with this token is held or queued. */
  predicate Owed(s: Session, token: Token) {
    || (s.held.Some? && s.held.value.token == Some(token))
    || exists q :: q in s.inbound && s.inbound[q] == Some(token)
  }

  predicate OwesAny(s: Session) {
    || (s.held.Some? && s.held.value.token.Some?)
    || exists q :: q in s.inbound && s.inbound[q].Some?
  }

  lemma {:induction false} QueuedAppend(requests: seq<Request>, r: Request)
    ensures UnsubscribesQueued(requests + [r]) == UnsubscribesQueued(requests) + (if r == SendUnsubscribe then 1 else 0)
  {
    if requests == [] {
      assert requests + [r] == [r] && [r][1..] == [];
    } else {
      assert (requests + [r])[1..] == requests[1..] + [r];
      QueuedAppend(requests[1..], r);
    }
  }

  lemma {:induction false} SentAppend(replies: seq<Reply>, r: Reply)
    ensures UnsubscribesSent(replies + [r]) == UnsubscribesSent(replies) + (if r == UnsubscribeReply then 1 else 0)
  {
    if replies == [] {
      assert replies + [r] == [r] && [r][1..] == [];
    } else {
      assert (replies + [r])[1..] == replies[1..] + [r];
      SentAppend(replies[1..], r);
    }
  }

  // ----- What every session keeps -----

  /** The recovered delivery may still be seen again, and an UNSUBACK will say if it was not. */
  predicate Recovering(y: System, s: Session, pending: Settlement) {
    && s.recovery == Some(Scope(pending.topic, pending.commandId)) && !s.observed && s.identity == y.agent.identity
    && (s.connected ==> UnsubAcksDue(y, s) > HeldCount(s))
  }

  predicate Tracked(y: System, s: Session) {
    && (s.subscription.Unsubscribing? || s.held.Some? ==> UnsubAcksDue(y, s) > 0)
    && (s.reconnectReady ==> !s.publishing)
    && (y.agent.pendingInbound.Some? && !y.agent.pendingInbound.value.settled ==>
          Owed(s, y.agent.pendingInbound.value.token) || Recovering(y, s, y.agent.pendingInbound.value))
  }

  /** Nothing pending is forgotten: its PUBACK is owed, or the recovery will settle it. */
  predicate ExitInv(y: System) { y.session.Some? ==> Tracked(y, y.session.value) }

  lemma OpenTracks(y: System)
    requires SystemInv(y)
    ensures ExitInv(y.(session := Some(OpenSession(y.agent)), delivering := None, replies := [], unconfirmed := {}))
  {
    hide Inv;
  }

  lemma ConnectTracks(y: System, now: u64)
    requires SystemInv(y) && Possible(y, Connects(now)) && y.session.Some? && ExitInv(y)
    ensures ExitInv(Settle(y, OnConnected(y.agent, y.session.value, now)))
  {
    hide Inv, OnConnected, CredentialConnected, RoomForAny, Rotates, PublishIds, PubAckIds, Outstanding, HasBlocked;
    var a, s := y.agent, y.session.value;
    ConnectionExactly(y, now);
    QueuedAppend(s.requests, SendUnsubscribe);
    QueuedAppend(s.requests, SendSubscribe);
    assert s.requests + [] == s.requests;
    if a.reconnectRevision.Some? { ConnectedKeeps(a); }
  }

  lemma ConnectedKeeps(a: State)
    requires Inv(a) && a.reconnectRevision.Some?
    ensures var b := CredentialConnected(a, a.reconnectRevision.value).state;
      b.pendingInbound == a.pendingInbound && b.identity == a.identity
  {
    hide Verify, Owned;
    ReconnectCarries(a, a.reconnectRevision.value);
  }

  /** A delivery leaves the pending one alone, or is accepted and is the pending one. */
  lemma DeliveredPending(a: State, retention: u64, d: Delivery, e: Event)
    requires Inv(a) && retention > 0 && Carries(d, e) && WellTyped(e)
    ensures var t := Next(a, retention, e).state;
      if Next(a, retention, e).outcome == Accepted
      then t.pendingInbound.Some? && t.pendingInbound.value.topic == d.topic && t.pendingInbound.value.commandId == d.commandId
      else t.pendingInbound == a.pendingInbound && t.identity == a.identity
  {
    hide Next, Verify, Owned;
    if Next(a, retention, e).outcome == Accepted {
      AcceptanceRecorded(a, retention, e);
      var f := EffectOf(a, retention, e);
    } else {
      DeliveryCarries(a, retention, e);
    }
  }

  /** The pending delivery came on the topic of an older identity. */
  lemma PendingIsOlder(a: State)
    requires Inv(a) && a.pendingInbound.Some?
    ensures a.pendingInbound.value.topic != CommandTopic(a.identity)
  {}

  lemma DeliverTracks(y: System, retention: u64, d: Delivery, e: Event, now: u64)
    requires SystemInv(y) && retention > 0 && Possible(y, Delivers(d, e, now)) && ExitInv(y)
    requires Deliverable(y.session.value, d)
    ensures ExitInv(Settle(y, OnCommand(y.agent, y.session.value, retention, d, e, now)))
  {
    hide Inv, OnCommand, Next, RoomForAny, SessionOk, Tracked;
    var a, s := y.agent, y.session.value;
    DeliveryExactly(a, s, retention, d, e, now);
    DeliveredPending(a, retention, d, e);
    NothingDelivering(y);
    if a.pendingInbound.Some? { PendingIsOlder(a); }
    var b := Next(a, retention, e).state;
    var z := y.(agent := b);
    var seen := s.(observed := s.observed || (s.recovery.Some? && s.recovery.value.topic == d.topic));
    var token := if b.pendingInbound.Some? && b.pendingInbound.value.topic == d.topic && b.pendingInbound.value.commandId == d.commandId
                 then Some(b.pendingInbound.value.token) else None;
    HoldTracks(y, z, s, seen, d, token);
    AcknowledgeTracks(y, z, s, seen, d, token);
    var w := Settle(y, OnCommand(a, s, retention, d, e, now));
    if w.session.Some? { SameTracks(z, w, w.session.value); }
  }

  lemma SameTracks(z: System, w: System, s: Session)
    requires z.agent == w.agent && z.replies == w.replies && Tracked(z, s)
    ensures Tracked(w, s)
  {}

  lemma NothingDelivering(y: System)
    requires SystemInv(y) && y.session.Some? && y.delivering.None?
    ensures y.session.value.held.None? && y.session.value.inbound == map[]
  {
    hide Inv, Rooted, Correlated;
  }

  /** What a delivery finds, and what it makes of the pending one. */
  predicate Meets(y: System, z: System, s: Session, seen: Session, d: Delivery, token: Option<Token>) {
    && Tracked(y, s) && s.connected && s.held.None? && s.inbound == map[] && z == y.(agent := z.agent)
    && seen == s.(observed := seen.observed)
    && (z.agent.pendingInbound.Some? ==>
          if z.agent.pendingInbound.value.topic == d.topic && z.agent.pendingInbound.value.commandId == d.commandId
          then token == Some(z.agent.pendingInbound.value.token)
          else z.agent.pendingInbound == y.agent.pendingInbound && z.agent.identity == y.agent.identity
               && (s.identity == y.agent.identity
                   && s.recovery == Some(Scope(z.agent.pendingInbound.value.topic, z.agent.pendingInbound.value.commandId))
                   ==> seen.observed == s.observed))
  }

  lemma HoldTracks(y: System, z: System, s: Session, seen: Session, d: Delivery, token: Option<Token>)
    requires Meets(y, z, s, seen, d, token)
    ensures Tracked(z, seen.(requests := s.requests + [SendUnsubscribe], subscription := Unsubscribing, held := Some(Held(d, token))))
  {
    QueuedAppend(s.requests, SendUnsubscribe);
    assert forall t :: !Owed(s, t);
  }

  lemma AcknowledgeTracks(y: System, z: System, s: Session, seen: Session, d: Delivery, token: Option<Token>)
    requires Meets(y, z, s, seen, d, token)
    ensures Tracked(z, seen.(requests := s.requests + [SendPubAck(d.packetId)], inbound := s.inbound[d.packetId := token]))
  {
    QueuedAppend(s.requests, SendPubAck(d.packetId));
    assert forall t :: !Owed(s, t);
    assert d.packetId in s.inbound[d.packetId := token];
  }

  lemma ConfirmTracks(y: System, p: u16, now: u64)
    requires SystemInv(y) && Possible(y, Confirms(p, now)) && ExitInv(y)
    ensures p in y.session.value.packets
    ensures ExitInv(Settle(y.(unconfirmed := y.unconfirmed - {p}), Confirming(y, p, now)))
  {
    hide Inv, Confirming, ConfirmOutbound, RoomForAny, PublishIds, PubAckIds, Outstanding, HasBlocked, Correlated, Rooted;
    ConfirmationNeverUnknown(y, p, now);
    var x := ConfirmationExactly(y, p, now);
    ConfirmedPending(y.agent, x);
    QueuedAppend(y.session.value.requests, SendUnsubscribe);
    QueuedAppend(y.session.value.requests, SendSubscribe);
    assert y.session.value.requests + [] == y.session.value.requests;
  }

  lemma ConfirmedPending(a: State, x: Outbound)
    requires Inv(a) && x in a.outbox && ConfirmOutbound(a, x.eventId).outcome == Done
    ensures var b := ConfirmOutbound(a, x.eventId).state;
      b.identity == a.identity && (b.pendingInbound.None? || b.pendingInbound == a.pendingInbound)
  {
    hide Verify, Owned, ConfirmOutbound;
    var i := ConfirmationRecorded(a, x.eventId);
  }

  lemma UnsubscribeTracks(y: System, now: u64)
    requires SystemInv(y) && Possible(y, Unsubscribes(now)) && ExitInv(y)
    ensures ExitInv(Settle(y.(replies := y.replies[1..]), OnUnsubscribed(y.agent, y.session.value, now)))
  {
    hide Inv, OnUnsubscribed, RoomForAny, Rotates, PublishIds, PubAckIds, Outstanding, HasBlocked, Correlated, Rooted;
    var s := y.session.value;
    UnsubscriptionExactly(y, now);
    QueuedAppend(s.requests, SendSubscribe);
    assert s.requests + [] == s.requests;
    if s.held.Some? { Released(s); }
  }

  /** Releasing a held delivery owes the same PUBACK. */
  lemma Released(s: Session)
    requires s.held.Some?
    ensures var held := s.held.value;
            var t := s.(subscription := Inactive, held := None, requests := s.requests + [SendPubAck(held.delivery.packetId)],
                        inbound := s.inbound[held.delivery.packetId := held.token]);
      && UnsubscribesQueued(t.requests) == UnsubscribesQueued(s.requests)
      && (s.inbound == map[] ==> (forall token :: Owed(s, token) ==> Owed(t, token)) && (OwesAny(s) <==> OwesAny(t)))
  {
    QueuedAppend(s.requests, SendPubAck(s.held.value.delivery.packetId));
    assert s.held.value.delivery.packetId in s.inbound[s.held.value.delivery.packetId := s.held.value.token];
  }

  /** The PUBACK about to be written is the one delivery's, and nothing is held. */
  lemma WritingPubAck(y: System)
    requires SystemInv(y) && y.session.Some? && y.session.value.requests != [] && y.session.value.requests[0].SendPubAck?
    ensures var s := y.session.value;
            var q := s.requests[0].packetId;
      && q in s.inbound && s.inbound == map[q := s.inbound[q]] && s.held.None?
  {
    hide Inv, Outstanding, HasBlocked, Correlated, Rooted;
    var s := y.session.value;
    assert PubAckIds(s.requests) == [s.requests[0].packetId] + PubAckIds(s.requests[1..]);
    assert PubAckIds(s.requests)[0] == s.requests[0].packetId;
  }

  lemma WritePubAckTracks(y: System, p: u16)
    requires SystemInv(y) && Possible(y, Writes(p)) && y.session.Some? && y.session.value.requests[0].SendPubAck? && ExitInv(y)
    ensures ExitInv(Write(y, p))
  {
    hide Inv, OnInboundAcknowledged, PublishIds, PubAckIds, Outstanding, HasBlocked, Correlated, Rooted, Receives;
    WritingPubAck(y);
    var s := y.session.value;
    var q := s.requests[0].packetId;
    var t := s.(requests := s.requests[1..], inbound := s.inbound - {q});
    SettlementExactly(y.agent, t, s.inbound[q]);
  }

  lemma WriteTracks(y: System, p: u16)
    requires SystemInv(y) && Possible(y, Writes(p)) && y.session.Some? && ExitInv(y)
    ensures ExitInv(Write(y, p))
  {
    hide SystemInv, Write, Tracked;
    match y.session.value.requests[0]
    case SendPubAck(_) => WritePubAckTracks(y, p);
    case SendPublish(_, _) => WritePublishTracks(y, p);
    case _ => WriteSubscriptionTracks(y, p);
  }

  lemma WritePublishTracks(y: System, p: u16)
    requires y.session.Some? && y.session.value.requests != [] && y.session.value.requests[0].SendPublish? && ExitInv(y)
    ensures ExitInv(Write(y, p))
  {
    hide OnInboundAcknowledged;
  }

  lemma WriteSubscriptionTracks(y: System, p: u16)
    requires y.session.Some? && y.session.value.requests != [] && ExitInv(y)
    requires y.session.value.requests[0].SendSubscribe? || y.session.value.requests[0].SendUnsubscribe?
    ensures ExitInv(Write(y, p))
  {
    hide OnInboundAcknowledged;
    SentAppend(y.replies, SubscribeReply);
    SentAppend(y.replies, UnsubscribeReply);
  }

  lemma PublishTracks(y: System)
    requires y.session.Some? && ExitInv(y)
    ensures ExitInv(Publishing(y))
  {
    hide Publishing, NextOutbound, Topics.UplinkTopicText;
    PublishingExactly(y);
    var s := y.session.value;
    if NextOutbound(y.agent).Some? {
      var fact := NextOutbound(y.agent).value;
      QueuedAppend(s.requests, SendPublish(fact.eventId, Topics.UplinkTopicText(s.identity, fact.CertificateReported?)));
    }
  }

  lemma ShutdownTracks(y: System)
    requires y.session.Some? && ExitInv(y)
    ensures ExitInv(y.(session := Some(StartShutdown(y.session.value))))
  {
    hide StartShutdown;
    ShutdownExactly(y.session.value);
    QueuedAppend(y.session.value.requests, SendUnsubscribe);
    assert y.session.value.requests + [] == y.session.value.requests;
  }

  lemma HappenTracks(y: System, retention: u64, h: Happening)
    requires SystemInv(y) && retention > 0 && Possible(y, h) && ExitInv(y)
    ensures ExitInv(Happen(y, retention, h))
  {
    hide SystemInv, Tracked, OnConnected, OnCommand, OnOutboundAcknowledged, OnUnsubscribed, Write, Publishing, StartShutdown;
    match h
    case Opens => OpenTracks(y);
    case Connects(now) => ConnectTracks(y, now);
    case Publishes => PublishTracks(y);
    case Delivers(d, e, now) => if Deliverable(y.session.value, d) { DeliverTracks(y, retention, d, e, now); DeliveringKeeps(y, retention, d, e, now); }
    case Writes(p) => WriteTracks(y, p);
    case Confirms(p, now) => ConfirmTracks(y, p, now);
    case Subscribes => SubscribeTracks(y);
    case Unsubscribes(now) => UnsubscribeTracks(y, now);
    case ShutsDown => ShutdownTracks(y);
    case Fails =>
  }

  lemma SubscribeTracks(y: System)
    requires y.session.Some? && y.replies != [] && y.replies[0].SubscribeReply? && ExitInv(y)
    ensures ExitInv(y.(session := Some(y.session.value.(subscription := Active)), replies := y.replies[1..]))
  {}

  lemma DeliveringKeeps(y: System, retention: u64, d: Delivery, e: Event, now: u64)
    requires y.session.Some? && ExitInv(Settle(y, OnCommand(y.agent, y.session.value, retention, d, e, now)))
    ensures var next := Settle(y, OnCommand(y.agent, y.session.value, retention, d, e, now));
      ExitInv(if next.session.Some? then next.(delivering := Some(d.packetId)) else next)
  {
    hide OnCommand;
  }

  lemma {:induction false} RunTracks(retention: u64, happenings: seq<Happening>, systems: seq<System>)
    requires retention > 0 && SystemRun(retention, happenings, systems) && DriverRuns.Begins(systems[0])
    ensures SystemInv(systems[|happenings|]) && ExitInv(systems[|happenings|])
    decreases |happenings|
  {
    hide Happen, SessionInv, Tracked;
    RunKeepsSystemInvariant(retention, happenings, systems);
    if happenings != [] {
      var n := |happenings| - 1;
      RunTracks(retention, happenings[..n], systems[..n + 1]);
      HappenTracks(systems[n], retention, happenings[n]);
    }
  }

  // ----- Ready to leave -----

  /** The session is ready to leave, and something that makes it leave will still arrive. */
  predicate Expects(y: System, s: Session) { UnsubAcksDue(y, s) > HeldCount(s) || OwesAny(s) }

  predicate Ready(y: System) { y.session.Some? && y.session.value.reconnectReady }

  /** Ready to leave, and waiting for nothing that would make it leave. */
  predicate Stranded(y: System) { Ready(y) && !Expects(y, y.session.value) }

  /**
   A confirmation strands the session if and only if it awaits a reconnect while a delivery without a
   token is held behind the only unsubscription: its UNSUBACK releases the delivery, and neither that nor
   the PUBACK then leaves.
   */
  lemma ConfirmationStrandsExactly(y: System, p: u16, now: u64) returns (x: Outbound)
    requires SystemInv(y) && Possible(y, Confirms(p, now)) && ExitInv(y)
    ensures p in y.session.value.packets && x in y.agent.outbox && x.eventId == y.session.value.packets[p]
    ensures var s := y.session.value;
      Stranded(Settle(y.(unconfirmed := y.unconfirmed - {p}), Confirming(y, p, now))) <==>
        WillAwait(y.agent, x) && s.subscription.Unsubscribing? && s.held.Some? && s.held.value.token.None? && UnsubAcksDue(y, s) == 1
  {
    hide Inv, Confirming, ConfirmOutbound, RoomForAny, PublishIds, PubAckIds, Outstanding, HasBlocked, Rooted;
    x := ConfirmationExactly(y, p, now);
    var s := y.session.value;
    QueuedAppend(s.requests, SendUnsubscribe);
    QueuedAppend(s.requests, SendSubscribe);
    assert s.requests + [] == s.requests;
    assert s.held.Some? ==> s.inbound == map[];
  }

  /** Nothing but a confirmation strands a session. */
  lemma ExpectationStays(y: System, retention: u64, h: Happening)
    requires SystemInv(y) && ExitInv(y) && retention > 0 && Possible(y, h) && !h.Confirms? && !Stranded(y)
    ensures !Stranded(Happen(y, retention, h))
  {
    hide SystemInv, Tracked, Expects, OnConnected, OnCommand, OnOutboundAcknowledged, OnUnsubscribed, Write, Publishing, StartShutdown;
    match h
    case Opens => NotReadyAtFirst(y.agent);
    case Connects(now) => ConnectNotReady(y, now);
    case Publishes => PublishExpects(y);
    case Delivers(d, e, now) => if Deliverable(y.session.value, d) { DeliverExpects(y, retention, d, e, now); }
    case Writes(p) => WriteExpects(y, p);
    case Subscribes => SubscribeExpects(y);
    case Unsubscribes(now) => UnsubscribeExpects(y, now);
    case ShutsDown => ShutdownExpects(y);
    case Fails =>
  }

  lemma NotReadyAtFirst(a: State)
    ensures !OpenSession(a).reconnectReady
  {}

  lemma ConnectNotReady(y: System, now: u64)
    requires SystemInv(y) && Possible(y, Connects(now)) && y.session.Some?
    ensures !Ready(Settle(y, OnConnected(y.agent, y.session.value, now)))
  {
    hide Inv, OnConnected, CredentialConnected, RoomForAny, Rotates, PublishIds, PubAckIds, Outstanding, HasBlocked, Rooted, Correlated;
    ConnectionExactly(y, now);
  }

  lemma PublishExpects(y: System)
    requires y.session.Some? && !Stranded(y)
    ensures !Stranded(Publishing(y))
  {
    hide Publishing, NextOutbound, Topics.UplinkTopicText;
    PublishingExactly(y);
  }

  lemma DeliverExpects(y: System, retention: u64, d: Delivery, e: Event, now: u64)
    requires SystemInv(y) && retention > 0 && Possible(y, Delivers(d, e, now)) && y.session.Some? && !Stranded(y)
    ensures var next := Settle(y, OnCommand(y.agent, y.session.value, retention, d, e, now));
      !Stranded(if next.session.Some? then next.(delivering := Some(d.packetId)) else next)
  {
    hide SystemInv, OnCommand, Next, RoomForAny;
    DeliveryExactly(y.agent, y.session.value, retention, d, e, now);
    NothingDelivering(y);
    QueuedAppend(y.session.value.requests, SendUnsubscribe);
    QueuedAppend(y.session.value.requests, SendPubAck(d.packetId));
  }

  lemma WriteExpects(y: System, p: u16)
    requires SystemInv(y) && Possible(y, Writes(p)) && y.session.Some? && ExitInv(y) && !Stranded(y)
    ensures !Stranded(Write(y, p))
  {
    hide SystemInv, OnInboundAcknowledged;
    SentAppend(y.replies, SubscribeReply);
    SentAppend(y.replies, UnsubscribeReply);
    if y.session.value.requests[0].SendPubAck? { WritePubAckExpects(y, p); }
  }

  lemma WritePubAckExpects(y: System, p: u16)
    requires SystemInv(y) && Possible(y, Writes(p)) && y.session.Some? && y.session.value.requests[0].SendPubAck?
    requires ExitInv(y) && !Stranded(y)
    ensures !Stranded(Write(y, p))
  {
    hide Inv, OnInboundAcknowledged, SessionOk, Owed, Recovering;
    WritingPubAck(y);
    var s := y.session.value;
    var q := s.requests[0].packetId;
    var t := s.(requests := s.requests[1..], inbound := s.inbound - {q});
    SettlementExactly(y.agent, t, s.inbound[q]);
    assert OwesAny(s) ==> s.inbound[q].Some?;
  }

  lemma SubscribeExpects(y: System)
    requires y.session.Some? && y.replies != [] && y.replies[0].SubscribeReply? && !Stranded(y)
    ensures !Stranded(y.(session := Some(y.session.value.(subscription := Active)), replies := y.replies[1..]))
  {}

  /** An awaited reconnect means a report is queued. */
  lemma AwaitingRotates(a: State)
    requires Inv(a) && a.reconnectRevision.Some?
    ensures Rotates(a)
  {
    ReconnectIsCurrent(a);
  }

  lemma UnsubscribeExpects(y: System, now: u64)
    requires SystemInv(y) && Possible(y, Unsubscribes(now)) && ExitInv(y) && !Stranded(y)
    ensures !Stranded(Settle(y.(replies := y.replies[1..]), OnUnsubscribed(y.agent, y.session.value, now)))
  {
    hide Inv, OnUnsubscribed, RoomForAny, Rotates, PublishIds, PubAckIds, Outstanding, HasBlocked, Correlated, Rooted;
    var s := y.session.value;
    UnsubscriptionExactly(y, now);
    if s.reconnectReady { AwaitingRotates(y.agent); }
    assert s.requests + [] == s.requests;
    if s.held.Some? { Released(s); }
  }

  lemma ShutdownExpects(y: System)
    requires y.session.Some? && !Stranded(y)
    ensures !Stranded(y.(session := Some(StartShutdown(y.session.value))))
  {
    hide StartShutdown;
    ShutdownExactly(y.session.value);
    QueuedAppend(y.session.value.requests, SendUnsubscribe);
    assert y.session.value.requests + [] == y.session.value.requests;
  }

  // ----- Leaving -----

  /** The transport writes, the broker answers: neither delivers, fails nor confirms. */
  predicate Routine(h: Happening) { h.Writes? || h.Subscribes? || h.Unsubscribes? }

  function Remaining(y: System): nat
    requires y.session.Some?
  {
    2 * |y.session.value.requests| + |y.replies| + 3 * HeldCount(y.session.value)
  }

  lemma NothingQueuedNothingDue(y: System, s: Session)
    requires s.requests == [] && y.replies == []
    ensures UnsubAcksDue(y, s) == 0
  {}

  /** What is expected can happen next. */
  lemma SomethingNext(y: System, now: u64) returns (h: Happening)
    requires SystemInv(y) && ExitInv(y) && Ready(y) && !Stranded(y)
    ensures Possible(y, h) && Routine(h)
  {
    hide Inv, Outstanding, HasBlocked, Rooted;
    var s := y.session.value;
    if y.replies != [] {
      h := if y.replies[0].SubscribeReply? then Happening.Subscribes else Happening.Unsubscribes(now);
    } else {
      if s.requests == [] { NothingQueuedNothingDue(y, s); }
      h := Happening.Writes(if 0 in y.unconfirmed then 1 else 0);
    }
  }

  lemma RoutineFalls(y: System, retention: u64, h: Happening)
    requires SystemInv(y) && ExitInv(y) && retention > 0 && Ready(y) && Possible(y, h) && Routine(h)
    ensures var z := Happen(y, retention, h);
      z.session.Some? ==> Ready(z) && Remaining(z) < Remaining(y)
    ensures Remaining(y) > 0
  {
    hide SystemInv, Tracked, OnInboundAcknowledged, OnUnsubscribed;
    match h
    case Writes(p) => WriteFalls(y, p);
    case Subscribes =>
    case Unsubscribes(now) => UnsubscribeFalls(y, now);
  }

  lemma UnsubscribeFalls(y: System, now: u64)
    requires SystemInv(y) && ExitInv(y) && Ready(y) && Possible(y, Happening.Unsubscribes(now))
    ensures var z := Settle(y.(replies := y.replies[1..]), OnUnsubscribed(y.agent, y.session.value, now));
      z.session.Some? ==> Ready(z) && Remaining(z) < Remaining(y)
  {
    hide Inv, OnUnsubscribed, RoomForAny, Rotates, PublishIds, PubAckIds, Outstanding, HasBlocked, Correlated, Rooted;
    UnsubscriptionExactly(y, now);
    AwaitingRotates(y.agent);
  }

  lemma WriteFalls(y: System, p: u16)
    requires SystemInv(y) && Ready(y) && Possible(y, Happening.Writes(p))
    ensures Write(y, p).session.Some? ==> Ready(Write(y, p)) && Remaining(Write(y, p)) < Remaining(y)
  {
    hide Inv, OnInboundAcknowledged, PublishIds, PubAckIds, Outstanding, HasBlocked, Correlated, Rooted, Receives;
    var s := y.session.value;
    if s.requests[0].SendPubAck? && s.requests[0].packetId in s.inbound {
      var q := s.requests[0].packetId;
      SettlementExactly(y.agent, s.(requests := s.requests[1..], inbound := s.inbound - {q}), s.inbound[q]);
    }
  }

  /**
   A session that is ready to leave and not stranded leaves: writing what is queued and answering what is
   asked, without any further delivery, ends it.
   */
  lemma {:induction false} ReadyLeaves(y: System, retention: u64, now: u64)
    returns (happenings: seq<Happening>, systems: seq<System>)
    requires SystemInv(y) && ExitInv(y) && retention > 0 && Ready(y) && !Stranded(y)
    ensures SystemRun(retention, happenings, systems) && systems[0] == y && |happenings| <= Remaining(y)
    ensures forall i :: 0 <= i < |happenings| ==> Routine(happenings[i])
    ensures systems[|happenings|].session.None?
    decreases Remaining(y)
  {
    hide SystemInv, ExitInv, Stranded, Ready, Remaining, Happen, Possible;
    var h := SomethingNext(y, now);
    var z := Happen(y, retention, h);
    RoutineFalls(y, retention, h);
    if z.session.None? {
      happenings, systems := [h], [y, z];
    } else {
      HappenKeepsInvariant(y, retention, h);
      HappenTracks(y, retention, h);
      ExpectationStays(y, retention, h);
      var rest, others := ReadyLeaves(z, retention, now);
      happenings, systems := [h] + rest, [y] + others;
      Prepended(y, retention, h, rest, others);
    }
  }

  lemma Prepended(y: System, retention: u64, h: Happening, rest: seq<Happening>, others: seq<System>)
    requires Possible(y, h) && SystemRun(retention, rest, others) && others[0] == Happen(y, retention, h)
    ensures SystemRun(retention, [h] + rest, [y] + others)
  {
    hide Possible, Happen;
    var happenings, systems := [h] + rest, [y] + others;
    forall i | 0 <= i < |happenings|
      ensures Possible(systems[i], happenings[i]) && systems[i + 1] == Happen(systems[i], retention, happenings[i])
    {
      if i > 0 { assert systems[i] == others[i - 1] && happenings[i] == rest[i - 1]; }
    }
  }

  // ----- Stranded -----

  /** What could still move a stranded session: a delivery, a shutdown, a transport failure. */
  predicate Outside(h: Happening) { h.Delivers? || h.ShutsDown? || h.Fails? }

  lemma StrandedStep(y: System, retention: u64, h: Happening)
    requires SystemInv(y) && ExitInv(y) && retention > 0 && Stranded(y) && Possible(y, h) && !Outside(h)
    ensures var z := Happen(y, retention, h);
      Stranded(z) && z.published == y.published && z.agent.outbox == y.agent.outbox
  {
    hide SystemInv, Tracked, Expects, OnInboundAcknowledged, OnUnsubscribed, OnOutboundAcknowledged, OnConnected, Publishing, Write;
    match h
    case Connects(_) => ReadyIsConnected(y);
    case Publishes => StrandedPublishes(y);
    case Writes(p) => StrandedWrites(y, p);
    case Confirms(p, _) => NothingUnconfirmed(y, p);
    case Subscribes => StrandedSubscribes(y);
    case Unsubscribes(now) => StrandedUnsubscribes(y, now);
  }

  lemma ReadyIsConnected(y: System)
    requires SystemInv(y) && Ready(y)
    ensures y.session.value.connected
  {}

  lemma NothingUnconfirmed(y: System, p: u16)
    requires SystemInv(y) && ExitInv(y) && Ready(y)
    ensures p !in y.unconfirmed
  {
    hide Inv, Receives, Outstanding, Rooted;
    assert y.session.value.packets == map[];
  }

  lemma StrandedPublishes(y: System)
    requires Stranded(y)
    ensures Publishing(y) == y
  {
    hide Publishing, Expects, NextOutbound;
    PublishingExactly(y);
  }

  lemma StrandedSubscribes(y: System)
    requires Stranded(y) && y.replies != [] && y.replies[0].SubscribeReply?
    ensures Stranded(y.(session := Some(y.session.value.(subscription := Active)), replies := y.replies[1..]))
  {}

  lemma StrandedWrites(y: System, p: u16)
    requires SystemInv(y) && ExitInv(y) && Stranded(y) && Possible(y, Happening.Writes(p))
    ensures Stranded(Write(y, p)) && Write(y, p).published == y.published && Write(y, p).agent == y.agent
  {
    hide Inv, OnInboundAcknowledged, Outstanding, HasBlocked, Rooted, Owed, Recovering;
    var s := y.session.value;
    SentAppend(y.replies, SubscribeReply);
    SentAppend(y.replies, UnsubscribeReply);
    if s.requests[0].SendPubAck? {
      WritingPubAck(y);
      var q := s.requests[0].packetId;
      SettlementExactly(y.agent, s.(requests := s.requests[1..], inbound := s.inbound - {q}), s.inbound[q]);
      assert OwesAny(s) <==> s.inbound[q].Some?;
    }
  }

  lemma StrandedUnsubscribes(y: System, now: u64)
    requires SystemInv(y) && ExitInv(y) && Stranded(y) && Possible(y, Happening.Unsubscribes(now))
    ensures var z := Settle(y.(replies := y.replies[1..]), OnUnsubscribed(y.agent, y.session.value, now));
      Stranded(z) && z.published == y.published && z.agent == y.agent
  {
    hide Inv, OnUnsubscribed, RoomForAny, Rotates, PublishIds, PubAckIds, Outstanding, HasBlocked, Correlated, Rooted;
    UnsubscriptionExactly(y, now);
    Released(y.session.value);
  }

  /** Without a further delivery, a shutdown or a failing transport a stranded session never leaves and never publishes. */
  lemma {:induction false} StrandedForGood(retention: u64, happenings: seq<Happening>, systems: seq<System>)
    requires retention > 0 && SystemRun(retention, happenings, systems) && Stranded(systems[0])
    requires SystemInv(systems[0]) && ExitInv(systems[0])
    requires forall i :: 0 <= i < |happenings| ==> !Outside(happenings[i])
    ensures var last := systems[|happenings|];
      && SystemInv(last) && ExitInv(last) && Stranded(last)
      && last.published == systems[0].published && last.agent.outbox == systems[0].agent.outbox
    decreases |happenings|
  {
    hide SystemInv, ExitInv, Stranded, Happen, Possible;
    if happenings != [] {
      var n := |happenings| - 1;
      StrandedForGood(retention, happenings[..n], systems[..n + 1]);
      HappenKeepsInvariant(systems[n], retention, happenings[n]);
      HappenTracks(systems[n], retention, happenings[n]);
      StrandedStep(systems[n], retention, happenings[n]);
    }
  }
}
