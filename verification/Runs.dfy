/**
 Whole runs of the agent: every sequence of calls from an initial state, in any order and
 with any arguments. A restart that finds the last written state is no step of its own; what
 stops and power losses can take back is the subject of CrashRuns and Durability.
 */
module Runs {
  import opened Bytes
  import opened Identities
  import opened Rotation
  import opened RotationInvariant
  import opened Operations

  predicate AllTyped(events: seq<Event>) {
    forall i :: 0 <= i < |events| ==> WellTyped(events[i])
  }

  /** The state after the calls, refused ones included. */
  function After(s: State, retention: u64, events: seq<Event>): State
    decreases |events|
  {
    if events == [] then s
    else
      var n := |events| - 1;
      Next(After(s, retention, events[..n]), retention, events[n]).state
  }

  function OutcomeAt(s: State, retention: u64, events: seq<Event>, i: nat): Outcome
    requires i < |events|
  {
    Next(After(s, retention, events[..i]), retention, events[i]).outcome
  }

  /** In every run, every state reached satisfies the invariant and therefore `verify`. */
  lemma {:induction false} RunKeepsInvariant(s: State, retention: u64, events: seq<Event>)
    requires Inv(s) && retention > 0 && AllTyped(events)
    ensures Inv(After(s, retention, events))
    decreases |events|
  {
    if events != [] {
      var n := |events| - 1;
      RunKeepsInvariant(s, retention, events[..n]);
      NextKeepsInvariant(After(s, retention, events[..n]), retention, events[n]);
    }
  }

  // ----- What a step that accepts nothing can change -----

  /** The entry was queued before, was released, or repeats a journalled answer. */
  predicate Carried(s: State, x: Outbound) {
    || x in s.outbox
    || (x.ReportReady? && ReportBlocked(x.eventId, x.report) in s.outbox)
    || (x.AckEntry? && x.ack.rejection.Some?)
    || (x.AckEntry? && exists c :: c in s.journal && FactOf(c.acknowledgement) == FactOf(x.ack))
  }

  lemma DeliveryCarries(s: State, retention: u64, e: Event)
    requires Inv(s) && retention > 0 && WellTyped(e) && IsDelivery(e)
    requires Next(s, retention, e).outcome != Accepted
    ensures var t := Next(s, retention, e).state;
      && t.identity == s.identity && t.current == s.current
      && t.pendingInbound == s.pendingInbound && t.reconnectRevision == s.reconnectRevision
      && (forall x :: x in t.outbox ==> Carried(s, x))
      && (forall x :: x in t.outbox && !x.AckEntry? ==> x in s.outbox)
      && (forall x :: x in s.outbox ==> x in t.outbox)
      && (forall c :: c in t.journal ==> c in s.journal || c.acknowledgement.rejection.Some?)
  {
    hide Verify, Owned, Next;
    var f := EffectOf(s, retention, e);
    var t := Effected(s, e, f);
    if !f.Nothing? {
      var x := t.outbox[|s.outbox|];
      assert t.outbox == s.outbox + [x];
      if f.Replaying? { assert FactOf(f.entry.acknowledgement) == FactOf(x.ack); }
    }
  }

  lemma ConfirmCarries(s: State, id: EventId)
    requires EntriesApart(s.outbox)
    ensures var t := ConfirmOutbound(s, id).state;
      && t.identity == s.identity && t.current == s.current && t.journal == s.journal
      && t.deviceSequence == s.deviceSequence
      && (forall x :: x in t.outbox ==> x in s.outbox)
  {}

  lemma ReconnectCarries(s: State, revision: u64)
    ensures var t := CredentialConnected(s, revision).state;
      && t.identity == s.identity && t.current == s.current && t.journal == s.journal
      && t.deviceSequence == s.deviceSequence && t.pendingInbound == s.pendingInbound
      && (forall x :: x in t.outbox ==> Carried(s, x))
  {}

  lemma SettlementCarries(s: State, retention: u64, e: Event)
    requires EntriesApart(s.outbox) && !IsDelivery(e)
    ensures var t := Next(s, retention, e).state;
      && t.identity == s.identity && t.current == s.current && t.journal == s.journal
      && t.deviceSequence == s.deviceSequence
      && (forall x :: x in t.outbox ==> Carried(s, x))
      && Next(s, retention, e).outcome != Accepted
  {
    match e
    case BrokerConfirmed(id) => ConfirmCarries(s, id);
    case Reconnected(revision) => ReconnectCarries(s, revision);
    case Settled(_) =>
  }

  // ----- The log of installations -----

  datatype Grant = Grant(
    commandId: Text, generation: int, fence: int, credentialGeneration: int, revision: int,
    ackSequence: int, reportSequence: int)

  function GrantOf(s: State, c: DeviceCommand, res: Resolution): Grant
    requires res.Resolved?
  {
    Grant(c.commandId, c.desiredGeneration, c.fenceEpoch, res.credentialGeneration,
          s.current.credentialRevision + 1, s.deviceSequence + 1, s.deviceSequence + 2)
  }

  /** One entry per accepted command, oldest first. */
  function Grants(s: State, retention: u64, events: seq<Event>): seq<Grant>
    decreases |events|
  {
    if events == [] then []
    else
      var n := |events| - 1;
      var before := After(s, retention, events[..n]);
      var log := Grants(s, retention, events[..n]);
      var e := events[n];
      if Next(before, retention, e).outcome == Accepted && e.Deliver? && e.resolution.Resolved?
      then log + [GrantOf(before, e.command, e.resolution)]
      else log
  }

  predicate Precedes(g: Grant, h: Grant) {
    && g.generation < h.generation
    && g.credentialGeneration < h.credentialGeneration
    && g.fence <= h.fence
    && g.ackSequence < g.reportSequence < h.ackSequence < h.reportSequence
  }

  /** Generations strictly increase, the fence never decreases, the revision grows by one each time. */
  predicate Chained(s: State, log: seq<Grant>) {
    && (forall i, j :: 0 <= i < j < |log| ==> Precedes(log[i], log[j]))
    && (forall i :: 0 <= i < |log| ==>
          && log[i].revision == s.current.credentialRevision + 1 + i
          && log[i].generation > s.current.desiredGeneration
          && log[i].credentialGeneration > s.identity.generation
          && log[i].fence >= s.current.fenceEpoch
          && log[i].ackSequence < log[i].reportSequence)
  }

  predicate Announces(g: Grant, f: AckFact) {
    && f.rejection.None? && f.commandId == g.commandId && f.desiredGeneration == g.generation
    && f.fenceEpoch == g.fence && f.deviceSequence == g.ackSequence
  }

  predicate Reports(g: Grant, r: Report) {
    && r.commandId == g.commandId && r.observedGeneration == g.generation && r.fenceEpoch == g.fence
    && r.deviceSequence == g.reportSequence && r.credentialGeneration == g.credentialGeneration
    && r.credentialRevision == g.revision
  }

  predicate Logged(log: seq<Grant>, f: AckFact) {
    exists g :: g in log && Announces(g, f)
  }

  /** The installed position is the last grant, and every received answer or report belongs to one. */
  predicate Tracks(s: State, t: State, log: seq<Grant>) {
    && (log == [] ==>
          t.current == s.current && t.identity == s.identity)
    && (log != [] ==>
          var g := log[|log| - 1];
          && t.current.desiredGeneration == g.generation && t.current.fenceEpoch == g.fence
          && t.current.credentialRevision == g.revision && t.identity.generation == g.credentialGeneration
          && g.reportSequence <= t.deviceSequence)
    && (forall x :: x in t.outbox && x.AckEntry? && x.ack.rejection.None? ==> Logged(log, FactOf(x.ack)))
    && (forall c :: c in t.journal && c.acknowledgement.rejection.None? ==> Logged(log, FactOf(c.acknowledgement)))
    && (forall x :: x in t.outbox && IsReport(x) ==> log != [] && Reports(log[|log| - 1], x.report))
  }

  lemma {:induction false} RunTracksGrants(s: State, retention: u64, events: seq<Event>)
    requires Initial(s) && retention > 0 && AllTyped(events)
    ensures Inv(After(s, retention, events))
    ensures Chained(s, Grants(s, retention, events))
    ensures Tracks(s, After(s, retention, events), Grants(s, retention, events))
    decreases |events|
  {
    InitialInvariant(s);
    RunKeepsInvariant(s, retention, events);
    if events != [] {
      var n := |events| - 1;
      RunTracksGrants(s, retention, events[..n]);
      var before := After(s, retention, events[..n]);
      var log := Grants(s, retention, events[..n]);
      if Next(before, retention, events[n]).outcome == Accepted {
        AcceptedStep(s, before, retention, events[n], log);
      } else {
        CarriedStep(s, before, retention, events[n], log);
      }
    }
  }

  lemma CarriedStep(s: State, before: State, retention: u64, e: Event, log: seq<Grant>)
    requires Inv(before) && retention > 0 && WellTyped(e) && Tracks(s, before, log)
    requires Next(before, retention, e).outcome != Accepted
    ensures Tracks(s, Next(before, retention, e).state, log)
  {
    hide Verify, Owned, Next;
    InvariantParts(before);
    var t := Next(before, retention, e).state;
    if IsDelivery(e) {
      DeliveryCarries(before, retention, e);
      var f := EffectOf(before, retention, e);
      assert before.deviceSequence <= t.deviceSequence;
    } else {
      SettlementCarries(before, retention, e);
    }
    forall x | x in t.outbox && x.AckEntry? && x.ack.rejection.None? ensures Logged(log, FactOf(x.ack)) {
      assert Carried(before, x);
    }
    forall x | x in t.outbox && IsReport(x) ensures log != [] && Reports(log[|log| - 1], x.report) {
      assert Carried(before, x);
    }
  }

  lemma AcceptedStep(s: State, before: State, retention: u64, e: Event, log: seq<Grant>)
    requires Initial(s) && Inv(before) && retention > 0 && WellTyped(e)
    requires Chained(s, log) && Tracks(s, before, log)
    requires Next(before, retention, e).outcome == Accepted
    ensures e.Deliver? && e.resolution.Resolved?
    ensures Chained(s, log + [GrantOf(before, e.command, e.resolution)])
    ensures Tracks(s, Next(before, retention, e).state, log + [GrantOf(before, e.command, e.resolution)])
  {
    hide Verify, Owned, Next, Logged, Precedes, Announces, FindLive, Retain, EntryValid, PhaseValid, CauseOwned;
    InvariantParts(before);
    if !IsDelivery(e) { SettlementCarries(before, retention, e); }
    var f := EffectOf(before, retention, e);
    var t := Next(before, retention, e).state;
    var g := GrantOf(before, e.command, e.resolution);
    var full := log + [g];
    assert full[|full| - 1] == g;
    GrantExtends(s, before, log, g);
    AcceptedEntries(before, e, f, t, g);
    NothingInFlight(before);
    AcceptedLogged(before, t, log, g);
  }

  lemma AcceptedLogged(before: State, t: State, log: seq<Grant>, g: Grant)
    requires forall x :: x in before.outbox && x.AckEntry? && x.ack.rejection.None? ==> Logged(log, FactOf(x.ack))
    requires forall c :: c in before.journal && c.acknowledgement.rejection.None? ==> Logged(log, FactOf(c.acknowledgement))
    requires forall x :: x in t.outbox && x.AckEntry? ==> x in before.outbox || Announces(g, FactOf(x.ack))
    requires forall c :: c in t.journal ==> c in before.journal || Announces(g, FactOf(c.acknowledgement))
    ensures forall x :: x in t.outbox && x.AckEntry? && x.ack.rejection.None? ==> Logged(log + [g], FactOf(x.ack))
    ensures forall c :: c in t.journal && c.acknowledgement.rejection.None? ==> Logged(log + [g], FactOf(c.acknowledgement))
  {
    var full := log + [g];
    forall x | x in t.outbox && x.AckEntry? && x.ack.rejection.None? ensures Logged(full, FactOf(x.ack)) {
      if x in before.outbox { LogGrows(log, g, FactOf(x.ack)); } else { assert g in full; }
    }
    forall c | c in t.journal && c.acknowledgement.rejection.None? ensures Logged(full, FactOf(c.acknowledgement)) {
      if c in before.journal { LogGrows(log, g, FactOf(c.acknowledgement)); } else { assert g in full; }
    }
  }

  lemma LogGrows(log: seq<Grant>, g: Grant, f: AckFact)
    requires Logged(log, f)
    ensures Logged(log + [g], f)
  {}

  lemma GrantExtends(s: State, before: State, log: seq<Grant>, g: Grant)
    requires Initial(s) && Chained(s, log) && Tracks(s, before, log)
    requires g.generation > before.current.desiredGeneration && g.fence >= before.current.fenceEpoch
    requires g.credentialGeneration > before.identity.generation
    requires g.revision == before.current.credentialRevision + 1
    requires before.deviceSequence < g.ackSequence < g.reportSequence
    ensures Chained(s, log + [g])
  {}

  /** The entries an acceptance adds are exactly those its grant announces. */
  lemma AcceptedEntries(before: State, e: Event, f: Effect, t: State, g: Grant)
    requires e.Deliver? && e.resolution.Resolved? && f.Installing?
    requires t == Effected(before, e, f) && g == GrantOf(before, e.command, e.resolution)
    requires before.current.credentialRevision < U64_MAX && before.deviceSequence <= U64_MAX - 2
    requires exists retention: u64 :: f.acceptance == CommandAcceptance(before, e.command, e.fingerprint, e.resolution, retention, e.now)
    ensures forall x :: x in t.outbox ==>
              (x in before.outbox
               || (x.AckEntry? && Announces(g, FactOf(x.ack)))
               || (x.ReportBlocked? && Reports(g, x.report)))
    ensures forall c :: c in t.journal ==> c in before.journal || Announces(g, FactOf(c.acknowledgement))
  {}

  // ----- At-most-once installation -----

  lemma {:induction false} GrantsPrefix(s: State, retention: u64, events: seq<Event>, i: nat)
    requires i <= |events|
    ensures Grants(s, retention, events[..i]) <= Grants(s, retention, events)
    decreases |events|
  {
    hide Next;
    if i == |events| {
      assert events[..i] == events;
    } else {
      var n := |events| - 1;
      GrantsPrefix(s, retention, events[..n], i);
      assert events[..n][..i] == events[..i];
    }
  }

  /** Two accepted deliveries of one run never ask for the same generation; the later one asks for more. */
  lemma InstalledAtMostOnce(s: State, retention: u64, events: seq<Event>, i: nat, j: nat)
    requires Initial(s) && retention > 0 && AllTyped(events) && i < j < |events|
    requires OutcomeAt(s, retention, events, i) == Accepted && OutcomeAt(s, retention, events, j) == Accepted
    ensures events[i].Deliver? && events[j].Deliver?
    ensures events[i].command.desiredGeneration < events[j].command.desiredGeneration
    ensures events[i].command.fenceEpoch <= events[j].command.fenceEpoch
    ensures events[i].command != events[j].command
  {
    hide Verify, Owned, Next;
    var mid, before := events[..i + 1], events[..j];
    assert mid[..i] == events[..i];
    RunTracksGrants(s, retention, events[..i]);
    AcceptedStep(s, After(s, retention, events[..i]), retention, events[i], Grants(s, retention, events[..i]));
    RunTracksGrants(s, retention, mid);
    RunTracksGrants(s, retention, before);
    GrantsPrefix(s, retention, before, i + 1);
    assert before[..i + 1] == mid;
    var g := Grants(s, retention, mid)[|Grants(s, retention, mid)| - 1];
    var log := Grants(s, retention, before);
    assert g == log[|Grants(s, retention, mid)| - 1];
    AcceptedStep(s, After(s, retention, before), retention, events[j], log);
    var h := GrantOf(After(s, retention, before), events[j].command, events[j].resolution);
    assert Precedes((log + [h])[|Grants(s, retention, mid)| - 1], (log + [h])[|log|]);
  }

  // ----- Consumer-side conformance -----

  lemma GrantIsUnique(s: State, log: seq<Grant>, g: Grant, h: Grant)
    requires Chained(s, log) && g in log && h in log && g.generation == h.generation
    ensures g == h && g.ackSequence < g.reportSequence
  {}

  /**
   Whenever a run hands out a received answer and a report for the same generation, at any two
   moments and in any order, they meet the device-side conditions of the consumer's positive trace.
   */
  lemma FactsConform(s: State, retention: u64, events: seq<Event>, i: nat, j: nat,
                     ackId: EventId, ack: AckFact, reportId: EventId, report: Report)
    requires Initial(s) && retention > 0 && AllTyped(events) && i <= |events| && j <= |events|
    requires NextOutbound(After(s, retention, events[..i])) == Some(CommandAcknowledged(ackId, ack))
    requires NextOutbound(After(s, retention, events[..j])) == Some(CertificateReported(reportId, report))
    requires ack.rejection.None? && ack.desiredGeneration == report.observedGeneration
    ensures ack.commandId == report.commandId
    ensures ack.fenceEpoch == report.fenceEpoch
    ensures ack.deviceSequence < report.deviceSequence
    ensures ackId == EventId(AckEvent, Direct(ack.commandId)) && ackId != reportId
  {
    HandedOutAnswer(s, retention, events, i, ackId, ack);
    HandedOutReport(s, retention, events, j, reportId, report);
    RunTracksGrants(s, retention, events);
    var log := Grants(s, retention, events);
    var g :| g in log && Announces(g, ack);
    var h :| h in log && Reports(h, report);
    GrantIsUnique(s, log, g, h);
  }

  lemma HandedOutAnswer(s: State, retention: u64, events: seq<Event>, i: nat, id: EventId, ack: AckFact)
    requires Initial(s) && retention > 0 && AllTyped(events) && i <= |events|
    requires NextOutbound(After(s, retention, events[..i])) == Some(CommandAcknowledged(id, ack))
    requires ack.rejection.None?
    ensures Logged(Grants(s, retention, events), ack)
    ensures id == EventId(AckEvent, Direct(ack.commandId))
  {
    RunTracksGrants(s, retention, events[..i]);
    GrantsPrefix(s, retention, events, i);
    var t := After(s, retention, events[..i]);
    var x := FirstPublishable(t, t.outbox).value;
    assert x in t.outbox && EntryValid(t, x) && CauseOwned(x);
    var g :| g in Grants(s, retention, events[..i]) && Announces(g, ack);
    assert g in Grants(s, retention, events);
  }

  lemma HandedOutReport(s: State, retention: u64, events: seq<Event>, j: nat, id: EventId, report: Report)
    requires Initial(s) && retention > 0 && AllTyped(events) && j <= |events|
    requires NextOutbound(After(s, retention, events[..j])) == Some(CertificateReported(id, report))
    ensures exists g :: g in Grants(s, retention, events) && Reports(g, report)
    ensures id == EventId(ReportEvent, Direct(report.commandId))
  {
    RunTracksGrants(s, retention, events[..j]);
    GrantsPrefix(s, retention, events, j);
    var u := After(s, retention, events[..j]);
    var y := FirstPublishable(u, u.outbox).value;
    assert y in u.outbox && EntryValid(u, y);
    var reported := Grants(s, retention, events[..j]);
    assert reported[|reported| - 1] in Grants(s, retention, events);
  }

  // ----- Replay idempotence -----

  /** No delivery of the run reaches the retention deadline of the entry. */
  predicate Within(events: seq<Event>, deadline: u64) {
    forall i :: 0 <= i < |events| && IsDelivery(events[i]) ==> events[i].now < deadline
  }

  /** An unexpired journal entry survives every interleaving of calls, unchanged. */
  lemma {:induction false} EntryEndures(s: State, retention: u64, events: seq<Event>, c: StoredCommand)
    requires Inv(s) && retention > 0 && AllTyped(events) && Within(events, c.retainUntil) && c in s.journal
    ensures c in After(s, retention, events).journal
    decreases |events|
  {
    if events != [] {
      var n := |events| - 1;
      RunKeepsInvariant(s, retention, events[..n]);
      EntryEndures(s, retention, events[..n], c);
      var before := After(s, retention, events[..n]);
      if IsDelivery(events[n]) {
        var f := EffectOf(before, retention, events[n]);
      } else {
        SettlementCarries(before, retention, events[n]);
      }
    }
  }

  /**
   After any run within its retention, redelivering a journalled command changes nothing but the
   outbox, adds at most one entry and only when none is queued, and that entry and every other
   queued answer to the command carry the fact and event id first recorded.
   */
  lemma ReplayIsIdempotent(s: State, retention: u64, events: seq<Event>, c: StoredCommand, e: Event)
    requires Inv(s) && retention > 0 && AllTyped(events + [e]) && Within(events + [e], c.retainUntil)
    requires c in s.journal
    requires IsDelivery(e) && DeliveredId(e) == c.commandId && e.fingerprint == c.fingerprint
    requires e.DeliverMalformed? ==> InScope(After(s, retention, events), e.topic)
    ensures var t := After(s, retention, events);
            var step := Next(t, retention, e);
      && step.outcome == ReplayOutcome(t, c)
      && step.state == t.(outbox := step.state.outbox)
      && t.outbox <= step.state.outbox && |step.state.outbox| <= |t.outbox| + 1
      && (|step.state.outbox| > |t.outbox| ==> !HasCommandAck(t.outbox, c.commandId))
      && (forall x :: x in step.state.outbox && IsDirectAck(x, c.commandId) ==>
            FactOf(x.ack) == FactOf(c.acknowledgement) && x.eventId == EventId(AckEvent, Direct(c.commandId)))
  {
    assert (events + [e])[|events|] == e;
    assert forall i :: 0 <= i < |events| ==> (events + [e])[i] == events[i];
    RunKeepsInvariant(s, retention, events);
    EntryEndures(s, retention, events, c);
    var t := After(s, retention, events);
    LiveEntryUnique(t, c, e.now);
    ReplayKnownExact(t, c, e.now);
    var u := Next(t, retention, e).state;
    assert u == ReplayKnown(t, c.commandId, c.fingerprint).state;
    assert c in u.journal;
    forall x | x in u.outbox && IsDirectAck(x, c.commandId)
      ensures FactOf(x.ack) == FactOf(c.acknowledgement) && x.eventId == EventId(AckEvent, Direct(c.commandId))
    {
      assert Answers(c, x);
      DirectAckEvent(u, x, c.commandId);
    }
  }
}
