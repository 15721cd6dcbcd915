/** The order of a rotation's phases, read off the whole history of calls. */
module PhaseOrder {
  import opened Bytes
  import opened Rotation
  import opened RotationInvariant
  import opened Operations
  import opened Runs

  /** Call `i` accepted this command and installed this revision. */
  predicate AcceptsAt(s: State, retention: u64, events: seq<Event>, i: nat, r: Report) {
    && i < |events|
    && events[i].Deliver? && events[i].command.commandId == r.commandId
    && OutcomeAt(s, retention, events, i) == Accepted
    && After(s, retention, events[..i]).current.credentialRevision + 1 == r.credentialRevision
  }

  /** Call `j` is the broker's confirmation of the acknowledgement that activates this command's revision. */
  predicate ConfirmsAt(s: State, retention: u64, events: seq<Event>, j: nat, r: Report) {
    && j < |events|
    && events[j] == BrokerConfirmed(EventId(AckEvent, Direct(r.commandId)))
    && OutcomeAt(s, retention, events, j) == Done
    && HasActivationFor(After(s, retention, events[..j]).outbox, r.credentialRevision, r.commandId)
  }

  predicate ReconnectsAt(s: State, retention: u64, events: seq<Event>, k: nat, r: Report) {
    && k < |events|
    && events[k] == Reconnected(r.credentialRevision)
    && OutcomeAt(s, retention, events, k) == Done
  }

  /** Call `m` settled the pending delivery of this command. */
  predicate SettlesAt(s: State, retention: u64, events: seq<Event>, m: nat, r: Report) {
    && m < |events|
    && events[m].Settled?
    && OutcomeAt(s, retention, events, m) == Done
    && var p := After(s, retention, events[..m]).pendingInbound;
       p.Some? && p.value.commandId == r.commandId
  }

  /** The positions at which the rotation in flight passed its phases so far. */
  datatype Phases = Phases(accepted: nat, confirmed: nat, reconnected: nat, settled: nat)

  predicate Documented(s: State, retention: u64, events: seq<Event>, p: Phases, e: Outbound)
    requires IsReport(e)
  {
    var t := After(s, retention, events);
    && AcceptsAt(s, retention, events, p.accepted, e.report)
    && (t.reconnectRevision.Some? || e.ReportReady? ==>
          p.accepted < p.confirmed && ConfirmsAt(s, retention, events, p.confirmed, e.report))
    && (e.ReportReady? ==>
          p.confirmed < p.reconnected && ReconnectsAt(s, retention, events, p.reconnected, e.report))
    && (PendingSettled(t) ==>
          p.accepted < p.settled && SettlesAt(s, retention, events, p.settled, e.report))
  }

  /** What held of a shorter history still holds of a longer one. */
  lemma HistoryExtends(s: State, retention: u64, events: seq<Event>, i: nat, r: Report)
    requires i < |events| - 1
    ensures var earlier := events[..|events| - 1];
      && (AcceptsAt(s, retention, earlier, i, r) ==> AcceptsAt(s, retention, events, i, r))
      && (ConfirmsAt(s, retention, earlier, i, r) ==> ConfirmsAt(s, retention, events, i, r))
      && (ReconnectsAt(s, retention, earlier, i, r) ==> ReconnectsAt(s, retention, events, i, r))
      && (SettlesAt(s, retention, earlier, i, r) ==> SettlesAt(s, retention, events, i, r))
  {
    hide Next;
    var earlier := events[..|events| - 1];
    assert earlier[..i] == events[..i];
  }

  lemma PhasesExtend(s: State, retention: u64, events: seq<Event>, p: Phases, e: Outbound, x: Outbound)
    requires events != [] && IsReport(e) && IsReport(x) && x.report == e.report
    requires Documented(s, retention, events[..|events| - 1], p, x)
    requires e.ReportReady? ==> x.ReportReady?
    requires After(s, retention, events).reconnectRevision
          == After(s, retention, events[..|events| - 1]).reconnectRevision
    requires PendingSettled(After(s, retention, events)) ==>
             PendingSettled(After(s, retention, events[..|events| - 1]))
    ensures Documented(s, retention, events, p, e)
  {
    hide Next;
    HistoryExtends(s, retention, events, p.accepted, e.report);
    if p.confirmed < |events| - 1 { HistoryExtends(s, retention, events, p.confirmed, e.report); }
    if p.reconnected < |events| - 1 { HistoryExtends(s, retention, events, p.reconnected, e.report); }
    if p.settled < |events| - 1 { HistoryExtends(s, retention, events, p.settled, e.report); }
  }

  // ----- What the three settlement calls do -----

  predicate Activates(s: State, id: EventId, a: Outbound) {
    && a in s.outbox && a.eventId == id && a.AckEntry?
    && id == EventId(AckEvent, Direct(a.ack.commandId))
    && IsActivationFor(a, s.current.credentialRevision, a.ack.commandId)
  }

  lemma ConfirmFacts(s: State, retention: u64, id: EventId)
    requires Inv(s)
    ensures var step := Next(s, retention, BrokerConfirmed(id));
      && (forall x :: x in step.state.outbox ==> x in s.outbox)
      && (PendingSettled(step.state) ==> PendingSettled(s))
      && (step.state.reconnectRevision != s.reconnectRevision ==>
            step.outcome == Done && exists a :: Activates(s, id, a))
  {
    InvariantParts(s);
    ConfirmCarries(s, id);
    var index := PositionOf(s.outbox, id);
    if index < |s.outbox| {
      var a := s.outbox[index];
      assert a in s.outbox && EntryValid(s, a) && PhaseValid(s, a) && CauseOwned(a);
      if a.AckEntry? && a.ack.activatesRevision.Some? { assert Activates(s, id, a); }
    }
  }

  lemma ReconnectFacts(s: State, retention: u64, revision: u64)
    requires Inv(s)
    ensures var step := Next(s, retention, Reconnected(revision));
      && (step.outcome == Done <==> s.reconnectRevision == Some(revision))
      && (step.outcome != Done ==> step.state == s)
      && (step.outcome == Done ==> step.state.reconnectRevision.None?)
      && step.state.pendingInbound == s.pendingInbound
      && (forall x :: x in step.state.outbox && IsReport(x) ==>
            x in s.outbox || (x.ReportReady? && ReportBlocked(x.eventId, x.report) in s.outbox))
  {
    ReconnectExact(s, revision);
    ReconnectCarries(s, revision);
  }

  lemma SettleFacts(s: State, retention: u64, token: Option<Token>)
    requires Inv(s)
    ensures var step := Next(s, retention, Settled(token));
      && (step.outcome != Done ==> step.state == s)
      && (step.outcome == Done ==>
            s.pendingInbound.Some?
            && step.state == s.(pendingInbound := Some(s.pendingInbound.value.(settled := true))))
  {
    SettleExact(s, token);
  }

  /** Every report in the outbox has its phases in the history, in order. */
  lemma {:induction false} ReportDocumented(s: State, retention: u64, events: seq<Event>, e: Outbound)
    returns (p: Phases)
    requires Initial(s) && retention > 0 && AllTyped(events)
    requires e in After(s, retention, events).outbox && IsReport(e)
    ensures Documented(s, retention, events, p, e)
    decreases |events|
  {
    hide Verify, Owned, Next;
    var n := |events| - 1;
    var earlier := events[..n];
    InitialInvariant(s);
    RunKeepsInvariant(s, retention, earlier);
    RunKeepsInvariant(s, retention, events);
    var before := After(s, retention, earlier);
    var last := events[n];
    if OutcomeAt(s, retention, events, n) == Accepted {
      FreshlyAccepted(s, retention, events, e);
      p := Phases(n, 0, 0, 0);
    } else if IsDelivery(last) {
      DeliveryCarries(before, retention, last);
      p := ReportDocumented(s, retention, earlier, e);
      PhasesExtend(s, retention, events, p, e, e);
    } else {
      p := SettlementDocumented(s, retention, events, e);
    }
  }

  lemma FreshlyAccepted(s: State, retention: u64, events: seq<Event>, e: Outbound)
    requires events != [] && retention > 0 && AllTyped(events)
    requires Inv(After(s, retention, events[..|events| - 1]))
    requires OutcomeAt(s, retention, events, |events| - 1) == Accepted
    requires e in After(s, retention, events).outbox && IsReport(e)
    ensures Documented(s, retention, events, Phases(|events| - 1, 0, 0, 0), e)
  {
    var n := |events| - 1;
    var before := After(s, retention, events[..n]);
    if !IsDelivery(events[n]) { SettlementCarries(before, retention, events[n]); }
    var f := EffectOf(before, retention, events[n]);
    NothingInFlight(before);
  }

  lemma SettlementDocumented(s: State, retention: u64, events: seq<Event>, e: Outbound) returns (p: Phases)
    requires Initial(s) && retention > 0 && AllTyped(events) && events != []
    requires !IsDelivery(events[|events| - 1])
    requires Inv(After(s, retention, events[..|events| - 1]))
    requires e in After(s, retention, events).outbox && IsReport(e)
    ensures Documented(s, retention, events, p, e)
    decreases |events|, 0
  {
    hide Verify, Owned, Next;
    var n := |events| - 1;
    var earlier := events[..n];
    var before := After(s, retention, earlier);
    InvariantParts(before);
    match events[n]
    case BrokerConfirmed(id) =>
      ConfirmFacts(before, retention, id);
      p := ReportDocumented(s, retention, earlier, e);
      p := ConfirmDocumented(s, retention, events, e, p);
    case Reconnected(revision) =>
      ReconnectFacts(before, retention, revision);
      var x := if e in before.outbox then e else ReportBlocked(e.eventId, e.report);
      p := ReportDocumented(s, retention, earlier, x);
      p := ReconnectDocumented(s, retention, events, e, x, p);
    case Settled(token) =>
      SettleFacts(before, retention, token);
      p := ReportDocumented(s, retention, earlier, e);
      p := SettleDocumented(s, retention, events, e, p);
  }

  lemma SettleDocumented(s: State, retention: u64, events: seq<Event>, e: Outbound, p: Phases) returns (q: Phases)
    requires events != [] && events[|events| - 1].Settled?
    requires Inv(After(s, retention, events[..|events| - 1]))
    requires IsReport(e) && e in After(s, retention, events[..|events| - 1]).outbox
    requires Documented(s, retention, events[..|events| - 1], p, e)
    ensures Documented(s, retention, events, q, e)
  {
    hide Verify, Owned, Next;
    var n := |events| - 1;
    var before := After(s, retention, events[..n]);
    InvariantParts(before);
    SettleFacts(before, retention, events[n].token);
    if PendingSettled(before) || OutcomeAt(s, retention, events, n) != Done {
      PhasesExtend(s, retention, events, p, e, e);
      q := p;
    } else {
      assert ReportOwned(before, before.pendingInbound.value, e.report);
      HistoryExtends(s, retention, events, p.accepted, e.report);
      if p.confirmed < n { HistoryExtends(s, retention, events, p.confirmed, e.report); }
      if p.reconnected < n { HistoryExtends(s, retention, events, p.reconnected, e.report); }
      q := p.(settled := n);
    }
  }

  lemma ConfirmDocumented(s: State, retention: u64, events: seq<Event>, e: Outbound, p: Phases) returns (q: Phases)
    requires events != [] && events[|events| - 1].BrokerConfirmed?
    requires Inv(After(s, retention, events[..|events| - 1]))
    requires e in After(s, retention, events).outbox && IsReport(e)
    requires e in After(s, retention, events[..|events| - 1]).outbox
    requires Documented(s, retention, events[..|events| - 1], p, e)
    ensures Documented(s, retention, events, q, e)
  {
    hide Verify, Owned, Next;
    var n := |events| - 1;
    var before := After(s, retention, events[..n]);
    var t := After(s, retention, events);
    InvariantParts(before);
    ConfirmFacts(before, retention, events[n].eventId);
    if t.reconnectRevision == before.reconnectRevision {
      PhasesExtend(s, retention, events, p, e, e);
      q := p;
    } else {
      var a :| Activates(before, events[n].eventId, a);
      var b := ActivationReport(before, a);
      assert e == b;
      HistoryExtends(s, retention, events, p.accepted, e.report);
      if p.settled < n { HistoryExtends(s, retention, events, p.settled, e.report); }
      q := p.(confirmed := n);
    }
  }

  lemma ReconnectDocumented(s: State, retention: u64, events: seq<Event>, e: Outbound, x: Outbound, p: Phases)
    returns (q: Phases)
    requires events != [] && events[|events| - 1].Reconnected?
    requires Inv(After(s, retention, events[..|events| - 1]))
    requires IsReport(e) && IsReport(x) && x.report == e.report
    requires x in After(s, retention, events[..|events| - 1]).outbox && e in After(s, retention, events).outbox
    requires x == e || (x.ReportBlocked? && e.ReportReady?)
    requires Documented(s, retention, events[..|events| - 1], p, x)
    ensures Documented(s, retention, events, q, e)
  {
    hide Verify, Owned, Next, Documented;
    if OutcomeAt(s, retention, events, |events| - 1) != Done {
      ReconnectRefusedDocumented(s, retention, events, e, x, p);
      q := p;
    } else {
      ReconnectReleasedDocumented(s, retention, events, e, x, p);
      q := p.(reconnected := |events| - 1);
    }
  }

  lemma ReconnectRefusedDocumented(s: State, retention: u64, events: seq<Event>, e: Outbound, x: Outbound, p: Phases)
    requires events != [] && events[|events| - 1].Reconnected? && OutcomeAt(s, retention, events, |events| - 1) != Done
    requires Inv(After(s, retention, events[..|events| - 1]))
    requires IsReport(e) && IsReport(x) && x.report == e.report
    requires x in After(s, retention, events[..|events| - 1]).outbox && e in After(s, retention, events).outbox
    requires x == e || (x.ReportBlocked? && e.ReportReady?)
    requires Documented(s, retention, events[..|events| - 1], p, x)
    ensures Documented(s, retention, events, p, e)
  {
    hide Verify, Owned, Next;
    var n := |events| - 1;
    var before := After(s, retention, events[..n]);
    InvariantParts(before);
    ReconnectFacts(before, retention, events[n].revision);
    if x != e { SoleReport(before, x, e); }
    PhasesExtend(s, retention, events, p, e, x);
  }

  lemma SoleReport(s: State, x: Outbound, e: Outbound)
    requires AtMostOneReport(s.outbox) && x in s.outbox && e in s.outbox && IsReport(x) && IsReport(e)
    ensures x == e
  {}

  lemma ReconnectReleasedDocumented(s: State, retention: u64, events: seq<Event>, e: Outbound, x: Outbound, p: Phases)
    requires events != [] && events[|events| - 1].Reconnected? && OutcomeAt(s, retention, events, |events| - 1) == Done
    requires Inv(After(s, retention, events[..|events| - 1]))
    requires IsReport(e) && IsReport(x) && x.report == e.report
    requires x in After(s, retention, events[..|events| - 1]).outbox && e in After(s, retention, events).outbox
    requires x == e || (x.ReportBlocked? && e.ReportReady?)
    requires Documented(s, retention, events[..|events| - 1], p, x)
    ensures Documented(s, retention, events, p.(reconnected := |events| - 1), e)
  {
    hide Verify, Owned, Next;
    var n := |events| - 1;
    var before := After(s, retention, events[..n]);
    ReconnectFacts(before, retention, events[n].revision);
    AwaitedReport(before, x);
    HistoryExtends(s, retention, events, p.accepted, e.report);
    HistoryExtends(s, retention, events, p.confirmed, e.report);
    if p.settled < n { HistoryExtends(s, retention, events, p.settled, e.report); }
  }

  /** While a reconnect is awaited, the report is blocked and names the awaited revision. */
  lemma AwaitedReport(s: State, x: Outbound)
    requires Inv(s) && x in s.outbox && IsReport(x)
    ensures s.reconnectRevision.Some? ==> x.ReportBlocked? && s.reconnectRevision.value == x.report.credentialRevision
  {
    assert PhaseValid(s, x) && EntryValid(s, x);
  }

  /**
   `next_outbound` hands out a report only after its command was accepted, the broker then confirmed
   the acknowledgement activating that very command, and the session then reconnected with that very
   revision; and the command's own delivery was settled after its acceptance.
   */
  lemma ReportOnlyAfterItsPhases(s: State, retention: u64, events: seq<Event>, id: EventId, r: Report)
    returns (p: Phases)
    requires Initial(s) && retention > 0 && AllTyped(events)
    requires NextOutbound(After(s, retention, events)) == Some(CertificateReported(id, r))
    ensures p.accepted < p.confirmed < p.reconnected && p.accepted < p.settled
    ensures AcceptsAt(s, retention, events, p.accepted, r)
    ensures ConfirmsAt(s, retention, events, p.confirmed, r)
    ensures ReconnectsAt(s, retention, events, p.reconnected, r)
    ensures SettlesAt(s, retention, events, p.settled, r)
  {
    var t := After(s, retention, events);
    var e := FirstPublishable(t, t.outbox).value;
    p := ReportDocumented(s, retention, events, e);
  }
}
