/**
 Progress with command intake paused: while anything is queued some confirmation, reconnect or
 settlement is possible, each one shrinks the remaining work, and the work runs out with an
 empty outbox and no rotation in flight.
 */
module Drain {
  import opened Bytes
  import opened Rotation
  import opened RotationInvariant
  import opened Operations
  import opened Runs

  predicate HasBlocked(outbox: seq<Outbound>) {
    exists e :: e in outbox && e.ReportBlocked?
  }

  function Unsettled(s: State): nat {
    if s.pendingInbound.Some? && !s.pendingInbound.value.settled then 1 else 0
  }

  /** Entries left, plus one while the report is blocked, plus one while the delivery is unsettled. */
  function Work(s: State): nat {
    |s.outbox| + (if HasBlocked(s.outbox) then 1 else 0) + Unsettled(s)
  }

  predicate Progresses(s: State, retention: u64, e: Event) {
    !IsDelivery(e) && Next(s, retention, e).state != s
  }

  lemma ConfirmFalls(s: State, id: EventId)
    requires Inv(s) && ConfirmOutbound(s, id).state != s
    ensures Work(ConfirmOutbound(s, id).state) < Work(s)
  {
    hide Verify, Owned;
    InvariantParts(s);
    var t := ConfirmOutbound(s, id).state;
    RemovedMembers(s, PositionOf(s.outbox, id));
    assert HasBlocked(t.outbox) ==> HasBlocked(s.outbox);
  }

  lemma ReconnectFalls(s: State, revision: u64)
    requires Inv(s) && CredentialConnected(s, revision).state != s
    ensures Work(CredentialConnected(s, revision).state) < Work(s)
  {}

  /** Every effective call strictly reduces the work left. */
  lemma ProgressFalls(s: State, retention: u64, e: Event)
    requires Inv(s) && Progresses(s, retention, e)
    ensures Work(Next(s, retention, e).state) < Work(s)
  {
    match e
    case BrokerConfirmed(id) => ConfirmFalls(s, id);
    case Reconnected(revision) => ReconnectFalls(s, revision);
    case Settled(_) =>
  }

  /** No deadlock: with anything queued, some call makes progress. */
  lemma SomethingProgresses(s: State, retention: u64) returns (e: Event)
    requires Inv(s) && s.outbox != []
    ensures Progresses(s, retention, e) && WellTyped(e)
    ensures Next(s, retention, e).outcome == Done
    ensures var next := FirstPublishable(s, s.outbox);
            if next.Some? then e == BrokerConfirmed(next.value.eventId) else !e.BrokerConfirmed?
  {
    hide Verify, Owned;
    var next := FirstPublishable(s, s.outbox);
    if next.Some? {
      e := BrokerConfirmed(next.value.eventId);
      ConfirmProgresses(s, next.value);
    } else {
      var x := s.outbox[0];
      assert x in s.outbox;
      if x.ReportBlocked? {
        e := Reconnected(s.current.credentialRevision);
        BlockedProgresses(s, x);
      } else {
        e := Settled(None);
        UnsettledProgresses(s, x);
      }
    }
  }

  lemma BlockedProgresses(s: State, x: Outbound)
    requires Inv(s) && x in s.outbox && x.ReportBlocked? && forall e :: e in s.outbox ==> !e.AckEntry?
    ensures CredentialConnected(s, s.current.credentialRevision).outcome == Done
    ensures CredentialConnected(s, s.current.credentialRevision).state != s
  {
    assert PhaseValid(s, x) && EntryValid(s, x);
    assert !HasActivationFor(s.outbox, x.report.credentialRevision, x.report.commandId);
    ReconnectExact(s, s.current.credentialRevision);
  }

  lemma UnsettledProgresses(s: State, x: Outbound)
    requires Inv(s) && x in s.outbox && x.ReportReady? && !Publishable(s, x)
    ensures InboundSettled(s, None).outcome == Done && InboundSettled(s, None).state != s
  {
    assert IsReport(x);
    SettleExact(s, None);
  }

  lemma ConfirmProgresses(s: State, x: Outbound)
    requires Inv(s) && x in s.outbox && Publishable(s, x)
    ensures ConfirmOutbound(s, x.eventId).outcome == Done && ConfirmOutbound(s, x.eventId).state != s
  {
    hide Verify, Owned;
    ConfirmExact(s, x.eventId);
  }

  lemma NothingQueuedIsIdle(s: State)
    requires Inv(s) && s.outbox == []
    ensures s.pendingInbound.None? && s.reconnectRevision.None? && !RotationInFlight(s)
  {}

  lemma {:induction false} AfterCons(s: State, retention: u64, e: Event, rest: seq<Event>)
    ensures After(s, retention, [e] + rest) == After(Next(s, retention, e).state, retention, rest)
    decreases |rest|
  {
    hide Next;
    var events := [e] + rest;
    var n := |events| - 1;
    if rest == [] {
      assert events == [e] && events[..0] == [];
    } else {
      assert events[..n] == [e] + rest[..|rest| - 1];
      assert events[n] == rest[|rest| - 1];
      AfterCons(s, retention, e, rest[..|rest| - 1]);
    }
  }

  /** From any reachable state a bounded number of broker-side calls empties the outbox. */
  lemma {:induction false} Drains(s: State, retention: u64) returns (events: seq<Event>)
    requires Inv(s) && retention > 0
    ensures AllTyped(events) && |events| <= Work(s)
    ensures forall i :: 0 <= i < |events| ==> !IsDelivery(events[i])
    ensures var t := After(s, retention, events);
      Inv(t) && t.outbox == [] && t.pendingInbound.None? && t.reconnectRevision.None?
    decreases Work(s)
  {
    hide Verify, Owned, Next;
    if s.outbox == [] {
      events := [];
      NothingQueuedIsIdle(s);
    } else {
      var e := SomethingProgresses(s, retention);
      ProgressFalls(s, retention, e);
      NextKeepsInvariant(s, retention, e);
      var rest := Drains(Next(s, retention, e).state, retention);
      events := [e] + rest;
      AfterCons(s, retention, e, rest);
    }
  }

  predicate EachProgresses(s: State, retention: u64, events: seq<Event>) {
    forall i :: 0 <= i < |events| ==> Progresses(After(s, retention, events[..i]), retention, events[i])
  }

  /**
   However the broker orders them, effective calls number at most the initial work, and a run that
   cannot be extended has an empty outbox and no rotation in flight.
   */
  lemma {:induction false} EveryDrainEnds(s: State, retention: u64, events: seq<Event>)
    requires Inv(s) && retention > 0 && AllTyped(events) && EachProgresses(s, retention, events)
    ensures |events| + Work(After(s, retention, events)) <= Work(s)
    ensures (forall e :: WellTyped(e) ==> !Progresses(After(s, retention, events), retention, e)) ==>
            After(s, retention, events).outbox == [] && !RotationInFlight(After(s, retention, events))
    decreases |events|
  {
    hide Verify, Owned, Next;
    RunKeepsInvariant(s, retention, events);
    var t := After(s, retention, events);
    if t.outbox == [] {
      NothingQueuedIsIdle(t);
    } else {
      var e := SomethingProgresses(t, retention);
    }
    if events != [] {
      var n := |events| - 1;
      var earlier := events[..n];
      assert forall i :: 0 <= i < n ==> earlier[..i] == events[..i] && earlier[i] == events[i];
      EveryDrainEnds(s, retention, earlier);
      RunKeepsInvariant(s, retention, earlier);
      ProgressFalls(After(s, retention, earlier), retention, events[n]);
    }
  }
}
