/**
 Sequence numbers over everything that may follow: exactly when the number of a fact can never be
 handed out for another one. The other direction constructs the run that hands it out.
 */
module Numbers {
  import opened Bytes
  import opened Identities
  import opened Rotation
  import opened RotationInvariant
  import opened Operations
  import opened Runs
  import opened Drain
  import opened Preimages
  import opened FileSystem
  import opened CrashStore
  import opened CrashRuns
  import opened Durability

  /** What is published for the entry once it may be. */
  function FactFor(x: Outbound): OutboundFact {
    if x.AckEntry? then CommandAcknowledged(x.eventId, FactOf(x.ack)) else CertificateReported(x.eventId, x.report)
  }

  lemma NextIsFirst(s: State)
    ensures var next := FirstPublishable(s, s.outbox);
      NextOutbound(s) == if next.Some? then Some(FactFor(next.value)) else None
    ensures forall x :: FactSequence(FactFor(x)) == Sequence(x)
  {}

  // ----- Calls that install nothing always complete -----

  predicate InstallsNothing(events: seq<Event>) {
    AllTyped(events) && forall i :: 0 <= i < |events| ==> !events[i].Deliver?
  }

  lemma StepCompletes(now: Moment, retention: u64, e: Event, m: Material) returns (next: Moment)
    requires !e.Deliver?
    ensures Attempt(now, retention, e, m, next) && next.state == Next(now.state, retention, e).state
  {
    hide Next, Attempt, Completes;
    if Next(now.state, retention, e).state == now.state && !Next(now.state, retention, e).outcome.Done? {
      next := now;
      CompletesInPlace(now, retention, e, m);
    } else {
      if Next(now.state, retention, e).outcome.Refused? { RefusedUnchanged(now.state, retention, e); }
      next := CompletesWriting(now, retention, e, m);
    }
  }

  lemma {:induction false} RunCompletes(now: Moment, retention: u64, events: seq<Event>, m: Material)
    returns (materials: seq<Material>, moments: seq<Moment>)
    requires InstallsNothing(events)
    ensures CrashRun(retention, events, materials, moments) && moments[0] == now
    ensures moments[|events|].state == After(now.state, retention, events)
    decreases |events|
  {
    hide Next, Attempt, WellTyped;
    if events == [] {
      materials, moments := [], [now];
    } else {
      var n := |events| - 1;
      var materials', moments' := RunCompletes(now, retention, events[..n], m);
      var next := StepCompletes(moments'[n], retention, events[n], m);
      materials, moments := materials' + [m], moments' + [next];
    }
  }

  /** A loss to any state that may come back, and then any such calls, is a run. */
  lemma LossThenRun(now: Moment, retention: u64, s: State, events: seq<Event>, m: Material)
    returns (all: seq<Event>, materials: seq<Material>, moments: seq<Moment>)
    requires Sound(now) && Recoverable(now.disk, now.state.identity) && MayKeep(now.disk, Some(s)) && InstallsNothing(events)
    ensures CrashRun(retention, all, materials, moments) && moments[0] == now
    ensures moments[|all|].state == After(s, retention, events)
  {
    hide Attempt, Holds, Verify, Owned, Next, After, WellTyped;
    assert Verify(s, now.state.identity);
    SameDevice(s, now.state.identity);
    var next := LossBetweenCalls(now, retention, m, s);
    var materials', moments' := RunCompletes(next, retention, events, m);
    all, materials, moments := [Settled(None)] + events, [m] + materials', [now] + moments';
    SettledIsTyped();
    forall i | 0 <= i < |all| ensures Attempt(moments[i], retention, all[i], materials[i], moments[i + 1]) && WellTyped(all[i]) {
      if i > 0 { assert moments[i] == moments'[i - 1] && moments[i + 1] == moments'[i] && all[i] == events[i - 1]; }
    }
  }

  lemma SettledIsTyped()
    ensures WellTyped(Settled(None))
  {}

  // ----- Whatever is queued is handed out -----

  lemma StaysQueued(s: State, retention: u64, e: Event, y: Outbound) returns (z: Outbound)
    requires Inv(s) && y in s.outbox && !IsDelivery(e) && e != BrokerConfirmed(y.eventId)
    ensures z in Next(s, retention, e).state.outbox && FactFor(z) == FactFor(y)
  {
    hide Verify, Owned;
    InvariantParts(s);
    z := y;
    match e {
      case BrokerConfirmed(id) => if PositionOf(s.outbox, id) < |s.outbox| { RemovedMembers(s, PositionOf(s.outbox, id)); }
      case Reconnected(revision) =>
        if s.reconnectRevision == Some(revision) {
          var t := MarkReconnected(s, revision).value;
          ReconnectExact(s, revision);
          var i :| 0 <= i < |s.outbox| && s.outbox[i] == y;
          assert t.outbox[i] == Released(y);
          z := t.outbox[i];
        }
      case Settled(_) =>
    }
  }

  /** Confirming what stands before it, and settling and reconnecting when nothing is publishable, gets to every entry. */
  lemma {:induction false} HandsOut(s: State, retention: u64, y: Outbound) returns (events: seq<Event>)
    requires Inv(s) && retention > 0 && y in s.outbox
    ensures InstallsNothing(events) && forall i :: 0 <= i < |events| ==> !IsDelivery(events[i])
    ensures NextOutbound(After(s, retention, events)) == Some(FactFor(y))
    decreases Work(s)
  {
    hide Verify, Owned, Next, NextOutbound;
    NextIsFirst(s);
    var next := FirstPublishable(s, s.outbox);
    if next.Some? && next.value == y {
      events := [];
    } else {
      var e := SomethingProgresses(s, retention);
      InvariantParts(s);
      if next.Some? && next.value.eventId == y.eventId { SameEntry(s, next.value, y); }
      var z := StaysQueued(s, retention, e, y);
      ProgressFalls(s, retention, e);
      NextKeepsInvariant(s, retention, e);
      var rest := HandsOut(Next(s, retention, e).state, retention, z);
      events := [e] + rest;
      AfterCons(s, retention, e, rest);
    }
  }

  // ----- From an empty outbox -----

  /** Draining keeps journal, identity and counter. */
  lemma {:induction false} DrainKeeps(s: State, retention: u64, events: seq<Event>)
    requires Inv(s) && retention > 0 && AllTyped(events) && forall i :: 0 <= i < |events| ==> !IsDelivery(events[i])
    ensures var t := After(s, retention, events);
      t.journal == s.journal && t.identity == s.identity && t.deviceSequence == s.deviceSequence
    decreases |events|
  {
    hide Next, Inv, WellTyped;
    if events != [] {
      var n := |events| - 1;
      DrainKeeps(s, retention, events[..n]);
      RunKeepsInvariant(s, retention, events[..n]);
      InvariantParts(After(s, retention, events[..n]));
      SettlementCarries(After(s, retention, events[..n]), retention, events[n]);
    }
  }

  predicate Empty(t: State) { t.outbox == [] && t.pendingInbound.None? }

  function Own(s: State, commandId: Text, fingerprint: Digest): Event {
    DeliverMalformed(CommandTopic(s.identity), commandId, fingerprint, 0)
  }

  /** After draining, one more delivery on the device's own topic. */
  lemma DrainThen(s: State, retention: u64, commandId: Text, fingerprint: Digest) returns (events: seq<Event>, t: State)
    requires Inv(s) && retention > 0 && commandId != [] && fingerprint.Sha256?
    ensures Inv(t) && Empty(t) && t.journal == s.journal && t.identity == s.identity && t.deviceSequence == s.deviceSequence
    ensures InstallsNothing(events) && After(s, retention, events) == Next(t, retention, Own(t, commandId, fingerprint)).state
  {
    hide Next, Inv, After;
    var drained := Drains(s, retention);
    DrainKeeps(s, retention, drained);
    t := After(s, retention, drained);
    var e := Own(t, commandId, fingerprint);
    events := drained + [e];
    AfterNext(s, retention, drained, e);
  }

  /** A journalled answer is handed out again when its command is delivered again. */
  lemma ReplayHandsOut(t: State, retention: u64, c: StoredCommand)
    requires Inv(t) && retention > 0 && Empty(t) && c in t.journal
    ensures NextOutbound(Next(t, retention, Own(t, c.commandId, c.fingerprint)).state)
            == Some(CommandAcknowledged(EventId(AckEvent, Direct(c.commandId)), FactOf(c.acknowledgement)))
  {
    hide Verify, Owned;
    JournalValid(t, c);
    LiveEntryUnique(t, c, 0);
    ReplayKnownExact(t, c, 0);
    ReplayChanges(t, c);
    assert Next(t, retention, Own(t, c.commandId, c.fingerprint)).state == Replay(t, c);
  }

  lemma ReplayChanges(t: State, c: StoredCommand)
    requires Inv(t) && Empty(t) && FindCommand(t.journal, c.commandId, c.fingerprint) == Some(c)
    requires ReplayKnown(t, c.commandId, c.fingerprint).outcome == Duplicate
    ensures ReplayKnown(t, c.commandId, c.fingerprint).state == Replay(t, c)
  {
    hide Verify, Owned;
  }

  /** A new number for an answer whose event id is not the one to avoid. */
  predicate TakesNext(t: State, u: State, avoid: EventId) {
    && u.deviceSequence == t.deviceSequence + 1
    && NextOutbound(u).Some? && FactSequence(NextOutbound(u).value) == t.deviceSequence + 1
    && NextOutbound(u).value.eventId != avoid
  }

  lemma RejectTakesNext(t: State, retention: u64, avoid: EventId, commandId: Text)
    requires Inv(t) && retention > 0 && Empty(t) && t.journal == [] && t.deviceSequence < U64_MAX
    requires commandId != [] && avoid != EventId(AckEvent, Direct(commandId))
    ensures TakesNext(t, Next(t, retention, Own(t, commandId, Sha256([]))).state, avoid)
  {
    hide Verify, Owned;
    var e := Own(t, commandId, Sha256([]));
    assert HasJournalCapacity(t, 0);
    MalformedExact(t, retention, e);
    assert Next(t, retention, e).state == Reject(Expire(t, 0), MalformedRefusal(t, commandId, Sha256([]), retention, 0));
  }

  lemma ConflictTakesNext(t: State, retention: u64, avoid: EventId, c: StoredCommand, fingerprint: Digest)
    requires Inv(t) && retention > 0 && Empty(t) && c in t.journal && t.deviceSequence < U64_MAX
    requires fingerprint.Sha256? && fingerprint != c.fingerprint
    requires avoid != EventId(RejectedEvent, Conflict(c.commandId, fingerprint))
    ensures TakesNext(t, Next(t, retention, Own(t, c.commandId, fingerprint)).state, avoid)
  {
    hide Verify, Owned;
    var e := Own(t, c.commandId, fingerprint);
    JournalValid(t, c);
    LiveEntryUnique(t, c, 0);
    MalformedExact(t, retention, e);
    assert Next(t, retention, e).state
        == RejectConflict(t, c.commandId, fingerprint, t.current.desiredGeneration, t.current.fenceEpoch, 0);
  }

  /** Drained, the device takes the next number for a rejection of one's choice: its journal is empty, or an entry conflicts. */
  lemma OneMore(s: State, retention: u64, avoid: EventId) returns (events: seq<Event>)
    requires Inv(s) && retention > 0 && s.deviceSequence < U64_MAX
    ensures InstallsNothing(events) && TakesNext(s, After(s, retention, events), avoid)
  {
    hide Next, Inv, After, InstallsNothing;
    if s.journal == [] {
      var id: Text := if avoid == EventId(AckEvent, Direct([1])) then [2] else [1];
      assert id[0] == 1 || id[0] == 2;
      var t;
      events, t := DrainThen(s, retention, id, Sha256([]));
      RejectTakesNext(t, retention, avoid, id);
    } else {
      var c := s.journal[0];
      var f := Unused(c.fingerprint, avoid);
      JournalValid(s, c);
      var t;
      events, t := DrainThen(s, retention, c.commandId, f);
      ConflictTakesNext(t, retention, avoid, c, f);
    }
  }

  /** A fingerprint that is neither the given one nor in the event id. */
  function Unused(taken: Digest, avoid: EventId): (f: Digest)
    ensures f.Sha256? && f != taken && forall id :: avoid != EventId(RejectedEvent, Conflict(id, f))
  {
    var other := if avoid.source.Conflict? then avoid.source.fingerprint else taken;
    var a, b, c := Sha256([]), Sha256([0]), Sha256([0, 0]);
    assert a != b && a != c && |b.preimage| != |c.preimage|;
    if a != taken && a != other then a else if b != taken && b != other then b else c
  }

  /** Every number above the counter can be reached, for an event id of one's choice. */
  lemma {:induction false} Reaches(s: State, retention: u64, n: u64, avoid: EventId) returns (events: seq<Event>)
    requires Inv(s) && retention > 0 && s.deviceSequence < n
    ensures InstallsNothing(events)
    ensures var next := NextOutbound(After(s, retention, events));
      next.Some? && FactSequence(next.value) == n && next.value.eventId != avoid
    decreases n - s.deviceSequence
  {
    hide Next, Inv, After, NextOutbound, WellTyped;
    events := OneMore(s, retention, avoid);
    var t := After(s, retention, events);
    RunKeepsInvariant(s, retention, events);
    if t.deviceSequence < n {
      var rest := Reaches(t, retention, n, avoid);
      AfterBoth(s, retention, events, rest);
      events := events + rest;
    }
  }

  // ----- The exact condition -----

  /** In every run from here, whatever is handed out with the number of the entry is the entry's fact. */
  ghost predicate NumberKept(now: Moment, retention: u64, x: Outbound) {
    forall events, materials, moments: seq<Moment> :: CrashRun(retention, events, materials, moments) && moments[0] == now ==>
      var next := NextOutbound(moments[|events|].state);
      next.Some? && FactSequence(next.value) == Sequence(x) ==> next.value == FactFor(x)
  }

  ghost predicate ReservedInAll(d: Disk, x: Outbound) {
    forall y :: MayKeep(d, y) ==> y.Some? && Reserved(y.value, x)
  }

  /** A state that has not reserved the number has a run that hands it out for another fact. */
  lemma NumberTaken(s: State, retention: u64, x: Outbound) returns (events: seq<Event>)
    requires Inv(s) && retention > 0 && !Reserved(s, x)
    ensures InstallsNothing(events)
    ensures var next := NextOutbound(After(s, retention, events));
      next.Some? && FactSequence(next.value) == Sequence(x) && next.value != FactFor(x)
  {
    hide Next, Inv, After, NextOutbound, InstallsNothing;
    NextIsFirst(s);
    if s.deviceSequence < Sequence(x) {
      events := Reaches(s, retention, Sequence(x), x.eventId);
    } else if y :| y in s.outbox && Sequence(y) == Sequence(x) && !SameFact(x, y) {
      events := HandsOut(s, retention, y);
    } else {
      var c :| c in s.journal && c.acknowledgement.deviceSequence == Sequence(x)
        && !(x.AckEntry? && FactOf(c.acknowledgement) == FactOf(x.ack) && x.eventId == EventId(AckEvent, Direct(c.commandId)));
      JournalValid(s, c);
      var t;
      events, t := DrainThen(s, retention, c.commandId, c.fingerprint);
      ReplayHandsOut(t, retention, c);
    }
  }

  lemma TracedNumber(s: State, retention: u64, log: seq<Event>, t: State, x: Outbound)
    requires Inv(s) && retention > 0 && Traced(s, retention, log, t) && Reserved(s, x) && Sequence(x) < U64_MAX
    ensures var next := NextOutbound(t);
      next.Some? && FactSequence(next.value) == Sequence(x) ==> next.value == FactFor(x)
  {
    hide Inv, Among, Reserved, NextOutbound;
    var kept :| Among(kept, log) && AllTyped(kept) && After(s, retention, kept) == t;
    ReservedStays(s, retention, kept, x);
    NextIsFirst(t);
    var next := FirstPublishable(t, t.outbox);
    if next.Some? && Sequence(next.value) == Sequence(x) { ReservedSame(t, x, next.value); }
  }

  /**
   Below saturation, a sequence number stays with its fact in every run that follows if and only if every
   state that may come back has it reserved for that fact.
   */
  lemma NumberKeptExactly(now: Moment, retention: u64, x: Outbound, m: Material)
    requires Sound(now) && Recoverable(now.disk, now.state.identity) && retention > 0 && Sequence(x) < U64_MAX
    ensures NumberKept(now, retention, x) <==> ReservedInAll(now.disk, x)
  {
    hide Attempt, Inv, Serves, Recoverable, Traced, MayKeep, Reserved, NextOutbound, InstallsNothing, After;
    if ReservedInAll(now.disk, x) {
      forall events, materials, moments: seq<Moment> | CrashRun(retention, events, materials, moments) && moments[0] == now
        ensures var next := NextOutbound(moments[|events|].state);
          next.Some? && FactSequence(next.value) == Sequence(x) ==> next.value == FactFor(x)
      {
        CrashesRefineRuns(retention, events, materials, moments);
        var s :| MayKeep(now.disk, Some(s)) && Traced(s, retention, events, moments[|events|].state);
        TracedNumber(s, retention, events, moments[|events|].state, x);
      }
    } else {
      var y :| MayKeep(now.disk, y) && !(y.Some? && Reserved(y.value, x));
      var events := NumberTaken(y.value, retention, x);
      var all, materials, moments := LossThenRun(now, retention, y.value, events, m);
      assert CrashRun(retention, all, materials, moments);
    }
  }

  /**
   The number of an entry a completed call leaves queued is kept for good if and only if the call wrote or
   every manifest that could come back had reserved it already.
   */
  lemma FactKeptExactly(now: Moment, retention: u64, e: Event, m: Material, writes: bool, x: Outbound)
    requires Sound(now) && Recoverable(now.disk, now.state.identity) && Called(now.state, retention, e, m, writes)
    requires !Conflicted(now.disk, now.state, e, m)
    requires !(Next(now.state, retention, e).outcome == Accepted && ReusesUnsynced(now.disk, now.state))
    requires x in Next(now.state, retention, e).state.outbox && Sequence(x) < U64_MAX
    ensures NumberKept(Moment(PerformAll(now.disk, CallActions(now.disk, now.state, retention, e, m, writes)),
                              Next(now.state, retention, e).state), retention, x)
            <==> writes || forall y :: y in now.disk.earlier ==> y.Some? && Reserved(y.value, x)
  {
    hide Next, PerformAll, CallActions, NumberKept, Recoverable, Sound, Inv, Supplies, Conflicted, MayKeep, Reserved;
    CompletedMoment(now, retention, e, m, writes);
    NextKeepsInvariant(now.state, retention, e);
    var next := Moment(PerformAll(now.disk, CallActions(now.disk, now.state, retention, e, m, writes)), Next(now.state, retention, e).state);
    QueuedIsReserved(next.state, x);
    NumberKeptExactly(next, retention, x, m);
  }
}
