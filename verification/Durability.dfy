/**
 What the device has done for good. A completed call can still be lost if it answered from a state
 whose manifest is not on the disk; from a pinned moment on, nothing done before it is ever undone.
 */
module Durability {
  import opened Bytes
  import opened Identities
  import opened Rotation
  import opened RotationInvariant
  import opened Operations
  import opened Runs
  import opened PhaseOrder
  import opened Preimages
  import opened FileSystem
  import opened CrashStore
  import opened CrashRuns

  // ----- One completed call -----

  /** Everything that may come back is the running state. */
  predicate NothingElse(d: Disk, s: State) { forall x :: x in d.earlier ==> x == Some(s) }

  /** A completed call is pinned if and only if it wrote, or found nothing else that could come back. */
  lemma CompletionPinsExactly(d: Disk, s: State, retention: u64, e: Event, m: Material, writes: bool)
    requires Serves(d, s) && Called(s, retention, e, m, writes) && !Conflicted(d, s, e, m)
    ensures Pinned(Moment(PerformAll(d, CallActions(d, s, retention, e, m, writes)), Next(s, retention, e).state))
            <==> writes || NothingElse(d, s)
  {
    hide Next, Verify, Owned, PerformAll, CallActions, Holds, Supplies;
    CompletedServes(d, s, retention, e, m, writes);
    NextKeepsInvariant(s, retention, e);
    var f := PerformAll(d, CallActions(d, s, retention, e, m, writes));
    if !writes {
      assert forall x :: x in d.earlier ==> MayKeep(d, x) && MayKeep(f, x);
      assert Next(s, retention, e).state == s;
    }
  }

  /**
   After a completed call every power loss is recovered from in the very state the call left, if and
   only if the call wrote or found nothing else that could come back. A duplicate answered from a
   manifest that was renamed and not yet synced does neither.
   */
  lemma DurableExactly(d: Disk, s: State, retention: u64, e: Event, m: Material, writes: bool)
    requires Serves(d, s) && Recoverable(d, s.identity) && Called(s, retention, e, m, writes) && !Conflicted(d, s, e, m)
    requires !(Next(s, retention, e).outcome == Accepted && ReusesUnsynced(d, s))
    ensures (forall f :: LosesPower(PerformAll(d, CallActions(d, s, retention, e, m, writes)), f) ==>
               Open(f, s.identity) == Running(Next(s, retention, e).state))
            <==> writes || NothingElse(d, s)
  {
    hide Next, Verify, Owned, PerformAll, CallActions, Holds, Supplies, Open, ReusesUnsynced;
    var t := Next(s, retention, e).state;
    var actions := CallActions(d, s, retention, e, m, writes);
    var p := PerformAll(d, actions);
    assert actions[..|actions|] == actions;
    CutStaysRecoverable(d, s, retention, e, m, writes, |actions|);
    CompletedServes(d, s, retention, e, m, writes);
    if writes || NothingElse(d, s) {
      forall f | LosesPower(p, f) ensures Open(f, s.identity) == Running(t) {
        assert MayKeep(p, f.manifest);
        LossOpens(p, f, s.identity, t);
      }
    } else {
      var x :| x in d.earlier && x != Some(s);
      assert MayKeep(p, x);
      LossBringsBack(p, x, s.identity, s);
    }
  }

  lemma LossOpens(p: Disk, f: Disk, id: DeviceIdentity, t: State)
    requires Shaped(p) && Recoverable(p, id) && LosesPower(p, f) && f.manifest == Some(t)
    ensures Open(f, id) == Running(t)
  {
    hide Verify, ArtifactDigest;
  }

  lemma LossBringsBack(p: Disk, x: Option<State>, id: DeviceIdentity, s: State)
    requires Shaped(p) && Recoverable(p, id) && MayKeep(p, x) && x != Some(s)
    ensures exists f :: LosesPower(p, f) && Open(f, id) != Running(s)
  {
    hide Verify, ArtifactDigest;
    var f := Disk(map[], p.revisions, p.revisions.Keys, true, NoTemporary, x, []);
    assert LosesPower(p, f);
  }

  /** A delivery that changed the state wrote it. */
  lemma ChangePins(now: Moment, retention: u64, e: Event, m: Material, next: Moment)
    requires Inv(now.state) && retention > 0 && WellTyped(e) && Supplies(e, m) && Serves(now.disk, now.state)
    requires Completes(now, retention, e, m, next) && !Conflicted(now.disk, now.state, e, m)
    requires Next(now.state, retention, e).state != now.state
    ensures Pinned(next)
  {
    hide Next, Inv, Serves, PerformAll, CallActions, Supplies, Pinned, Conflicted;
    var writes :| WritesFit(now.state, Next(now.state, retention, e), writes)
      && next.disk == PerformAll(now.disk, CallActions(now.disk, now.state, retention, e, m, writes))
      && next.state == Next(now.state, retention, e).state;
    CompletionPinsExactly(now.disk, now.state, retention, e, m, writes);
  }

  // ----- Calls that complete -----

  /** A call that writes nothing completes where it started. */
  lemma CompletesInPlace(now: Moment, retention: u64, e: Event, m: Material)
    requires Next(now.state, retention, e).state == now.state && !Next(now.state, retention, e).outcome.Done? && !e.Deliver?
    ensures Attempt(now, retention, e, m, now) && Completes(now, retention, e, m, now)
  {
    hide Next, PersistActions;
    assert CallActions(now.disk, now.state, retention, e, m, false) == [];
    PerformNothing(now.disk);
    assert WritesFit(now.state, Next(now.state, retention, e), false);
  }

  /** A writing call over a served disk completes. */
  lemma CompletesWriting(now: Moment, retention: u64, e: Event, m: Material) returns (next: Moment)
    requires !e.Deliver? && !Next(now.state, retention, e).outcome.Refused?
    requires Next(now.state, retention, e).outcome.Done? || Next(now.state, retention, e).state != now.state
    ensures Attempt(now, retention, e, m, next) && Completes(now, retention, e, m, next)
    ensures next.state == Next(now.state, retention, e).state
  {
    hide Next, PersistActions, PerformAll;
    next := Moment(PerformAll(now.disk, CallActions(now.disk, now.state, retention, e, m, true)), Next(now.state, retention, e).state);
    assert WritesFit(now.state, Next(now.state, retention, e), true);
  }

  // ----- Losses between calls -----

  /** Between two calls the power fails, and any manifest that may come back does. */
  lemma LossBetweenCalls(now: Moment, retention: u64, m: Material, s: State) returns (next: Moment)
    requires Shaped(now.disk) && now.disk.rooted && MayKeep(now.disk, Some(s)) && Validate(s) && Holds(now.disk.revisions, s)
    requires s.identity.tenant == now.state.identity.tenant && s.identity.device == now.state.identity.device
    ensures Attempt(now, retention, Settled(None), m, next) && next.state == s && Serves(next.disk, s)
  {
    hide Verify, PersistActions, PerformAll, Next, Open;
    var e := Settled(None);
    var writes := Next(now.state, retention, e).outcome.Done? || Next(now.state, retention, e).state != now.state;
    var actions := CallActions(now.disk, now.state, retention, e, m, writes);
    assert actions[..0] == [];
    PerformNothing(now.disk);
    if Next(now.state, retention, e).outcome.Refused? { RefusedUnchanged(now.state, retention, e); }
    next := Moment(Disk(map[], now.disk.revisions, now.disk.revisions.Keys, true, NoTemporary, Some(s), []), s);
    OpensAs(next.disk, s, now.state.identity);
    assert Interrupts(PerformAll(now.disk, actions[..0]), next.disk);
  }

  // ----- From a pinned moment to a later one -----

  lemma Between(retention: u64, events: seq<Event>, materials: seq<Material>, moments: seq<Moment>, i: nat, j: nat)
    requires retention > 0 && CrashRun(retention, events, materials, moments) && i <= j <= |events| && Pinned(moments[i])
    ensures Traced(moments[i].state, retention, events[i..j], moments[j].state)
    ensures Inv(moments[j].state) && Serves(moments[j].disk, moments[j].state)
  {
    hide Attempt, Pinned, Traced, Stems, Inv, Serves, Grounded;
    RunTail(retention, events, materials, moments, i, j);
    PinnedIsSound(moments[i]);
    CrashesRefineRuns(retention, events[i..j], materials[i..j], moments[i..j + 1]);
  }

  // ----- Answers -----

  lemma {:induction false} AckStays(s: State, retention: u64, kept: seq<Event>, x: Outbound)
    requires Inv(s) && retention > 0 && AllTyped(kept) && x in s.outbox && x.AckEntry?
    ensures x in After(s, retention, kept).outbox || BrokerConfirmed(x.eventId) in kept
    decreases |kept|
  {
    hide Next, Verify, Owned;
    if kept != [] {
      var n := |kept| - 1;
      AckStays(s, retention, kept[..n], x);
      RunKeepsInvariant(s, retention, kept[..n]);
      if x in After(s, retention, kept[..n]).outbox { AckStep(After(s, retention, kept[..n]), retention, kept[n], x); }
    }
  }

  lemma AckStep(s: State, retention: u64, e: Event, x: Outbound)
    requires Inv(s) && retention > 0 && WellTyped(e) && x in s.outbox && x.AckEntry?
    ensures x in Next(s, retention, e).state.outbox || e == BrokerConfirmed(x.eventId)
  {
    hide Verify, Owned;
    InvariantParts(s);
    match e
    case BrokerConfirmed(id) => if PositionOf(s.outbox, id) < |s.outbox| { RemovedMembers(s, PositionOf(s.outbox, id)); }
    case Reconnected(revision) => if s.reconnectRevision == Some(revision) { ReleasedMembers(s, MarkReconnected(s, revision).value); }
    case Settled(_) =>
    case _ => DeliveredStays(s, retention, e, x);
  }

  lemma DeliveredStays(s: State, retention: u64, e: Event, x: Outbound)
    requires Inv(s) && retention > 0 && WellTyped(e) && IsDelivery(e) && x in s.outbox
    ensures x in Next(s, retention, e).state.outbox
  {
    hide Next, Verify, Owned;
    var f := EffectOf(s, retention, e);
  }

  lemma TracedKeepsAck(s: State, retention: u64, log: seq<Event>, t: State, x: Outbound)
    requires Inv(s) && retention > 0 && Traced(s, retention, log, t) && x in s.outbox && x.AckEntry?
    ensures x in t.outbox || BrokerConfirmed(x.eventId) in log
  {
    hide Inv, Among;
    var kept :| Among(kept, log) && AllTyped(kept) && After(s, retention, kept) == t;
    AckStays(s, retention, kept, x);
    var at := Positions(kept, log);
  }

  /** In every run from here the entry is queued until the broker has confirmed it. */
  ghost predicate KeptForGood(now: Moment, retention: u64, x: Outbound) {
    forall events, materials, moments: seq<Moment> :: CrashRun(retention, events, materials, moments) && moments[0] == now ==>
      x in moments[|events|].state.outbox || BrokerConfirmed(x.eventId) in events
  }

  ghost predicate QueuedInAll(d: Disk, x: Outbound) {
    forall y :: MayKeep(d, y) ==> y.Some? && x in y.value.outbox
  }

  /** An acknowledgement is kept for good if and only if every state that may come back has it queued. */
  lemma KeptExactly(now: Moment, retention: u64, x: Outbound, m: Material)
    requires Sound(now) && Recoverable(now.disk, now.state.identity) && retention > 0 && x.AckEntry?
    ensures KeptForGood(now, retention, x) <==> QueuedInAll(now.disk, x)
  {
    hide Attempt, Inv, Serves, Recoverable, Traced, MayKeep;
    if QueuedInAll(now.disk, x) {
      forall events, materials, moments: seq<Moment> | CrashRun(retention, events, materials, moments) && moments[0] == now
        ensures x in moments[|events|].state.outbox || BrokerConfirmed(x.eventId) in events
      {
        CrashesRefineRuns(retention, events, materials, moments);
        var s :| MayKeep(now.disk, Some(s)) && Traced(s, retention, events, moments[|events|].state);
        TracedKeepsAck(s, retention, events, moments[|events|].state, x);
      }
    } else {
      var y :| MayKeep(now.disk, y) && !(y.Some? && x in y.value.outbox);
      LossIsARun(now, retention, m, y.value, x);
    }
  }

  lemma LossIsARun(now: Moment, retention: u64, m: Material, s: State, x: Outbound)
    requires Sound(now) && Recoverable(now.disk, now.state.identity) && MayKeep(now.disk, Some(s)) && x !in s.outbox && x.AckEntry?
    ensures !KeptForGood(now, retention, x)
  {
    hide Attempt, Holds, Verify, Owned;
    assert Verify(s, now.state.identity);
    SameDevice(s, now.state.identity);
    var next := LossBetweenCalls(now, retention, m, s);
    assert CrashRun(retention, [Settled(None)], [m], [now, next]);
  }

  lemma SameDevice(s: State, id: DeviceIdentity)
    requires Verify(s, id)
    ensures s.identity.tenant == id.tenant && s.identity.device == id.device
  {}

  /** After a completed call: what may come back, and that it is sound and recoverable. */
  lemma CompletedMoment(now: Moment, retention: u64, e: Event, m: Material, writes: bool)
    requires Sound(now) && Recoverable(now.disk, now.state.identity) && Called(now.state, retention, e, m, writes)
    requires !Conflicted(now.disk, now.state, e, m)
    requires !(Next(now.state, retention, e).outcome == Accepted && ReusesUnsynced(now.disk, now.state))
    ensures var next := Moment(PerformAll(now.disk, CallActions(now.disk, now.state, retention, e, m, writes)),
                               Next(now.state, retention, e).state);
      && Sound(next) && Recoverable(next.disk, next.state.identity)
      && forall y :: MayKeep(next.disk, y) <==> y == Some(next.state) || (!writes && y in now.disk.earlier)
  {
    hide Next, Verify, Owned, PerformAll, CallActions, Holds, Supplies, ReusesUnsynced, Recoverable, Conflicted;
    var d, s, t := now.disk, now.state, Next(now.state, retention, e).state;
    var actions := CallActions(d, s, retention, e, m, writes);
    var p := PerformAll(d, actions);
    assert actions[..|actions|] == actions;
    CompletedServes(d, s, retention, e, m, writes);
    NextKeepsInvariant(s, retention, e);
    CutStaysRecoverable(d, s, retention, e, m, writes, |actions|);
    InstallReached(s, retention, e);
    RecoverableFor(p, s.identity, t.identity);
  }

  /**
   Answer before settlement, on the disk: an acknowledgement a completed call leaves queued is kept for
   good, whatever follows, if and only if the call wrote or every manifest that could come back had it
   queued already.
   */
  lemma AnswerKeptExactly(now: Moment, retention: u64, e: Event, m: Material, writes: bool, x: Outbound)
    requires Sound(now) && Recoverable(now.disk, now.state.identity) && Called(now.state, retention, e, m, writes)
    requires !Conflicted(now.disk, now.state, e, m)
    requires !(Next(now.state, retention, e).outcome == Accepted && ReusesUnsynced(now.disk, now.state))
    requires x in Next(now.state, retention, e).state.outbox && x.AckEntry?
    ensures KeptForGood(Moment(PerformAll(now.disk, CallActions(now.disk, now.state, retention, e, m, writes)),
                               Next(now.state, retention, e).state), retention, x)
            <==> writes || forall y :: y in now.disk.earlier ==> y.Some? && x in y.value.outbox
  {
    hide Next, PerformAll, CallActions, KeptForGood, Recoverable, Sound, Inv, Supplies, Conflicted, MayKeep;
    CompletedMoment(now, retention, e, m, writes);
    var next := Moment(PerformAll(now.disk, CallActions(now.disk, now.state, retention, e, m, writes)), Next(now.state, retention, e).state);
    KeptExactly(next, retention, x, m);
  }

  /** From a pinned moment on, a queued acknowledgement stays queued until the broker has confirmed it. */
  lemma QueuedUntilConfirmed(retention: u64, events: seq<Event>, materials: seq<Material>, moments: seq<Moment>, i: nat, j: nat, x: Outbound)
    requires retention > 0 && CrashRun(retention, events, materials, moments) && i <= j <= |events| && Pinned(moments[i])
    requires x in moments[i].state.outbox && x.AckEntry?
    ensures x in moments[j].state.outbox || exists k :: i <= k < j && events[k] == BrokerConfirmed(x.eventId)
  {
    hide Attempt, Inv, Serves, Traced;
    Between(retention, events, materials, moments, i, j);
    TracedKeepsAck(moments[i].state, retention, events[i..j], moments[j].state, x);
    if BrokerConfirmed(x.eventId) in events[i..j] {
      var n :| 0 <= n < j - i && events[i..j][n] == BrokerConfirmed(x.eventId);
      assert events[i + n] == BrokerConfirmed(x.eventId);
    }
  }

  /**
   Answer before settlement, on the disk: a delivery completed without being refused, once pinned, has
   its acknowledgement queued after every later stop, loss and restart, until the broker confirms it.
   */
  lemma AnswerSurvives(retention: u64, events: seq<Event>, materials: seq<Material>, moments: seq<Moment>, i: nat, j: nat)
    returns (x: Outbound)
    requires retention > 0 && CrashRun(retention, events, materials, moments) && i < j <= |events|
    requires Inv(moments[i].state) && IsDelivery(events[i]) && !Next(moments[i].state, retention, events[i]).outcome.Refused?
    requires moments[i + 1].state == Next(moments[i].state, retention, events[i]).state && Pinned(moments[i + 1])
    ensures x.AckEntry? && x.ack.commandId == DeliveredId(events[i]) && x in moments[i + 1].state.outbox
    ensures x in moments[j].state.outbox || exists k :: i < k < j && events[k] == BrokerConfirmed(x.eventId)
  {
    hide Next, Attempt, Inv, Serves, Pinned, Completes;
    AnswerIsQueued(moments[i].state, retention, events[i]);
    x :| x in moments[i + 1].state.outbox && x.AckEntry? && x.ack.commandId == DeliveredId(events[i]);
    QueuedUntilConfirmed(retention, events, materials, moments, i + 1, j, x);
  }

  /** A delivery that changes the state leaves an acknowledgement of its command id queued. */
  lemma ChangeAnswers(s: State, retention: u64, e: Event) returns (x: Outbound)
    requires Inv(s) && retention > 0 && WellTyped(e) && IsDelivery(e) && Next(s, retention, e).state != s
    ensures x in Next(s, retention, e).state.outbox && x.AckEntry? && x.ack.commandId == DeliveredId(e)
  {
    hide Next, Inv;
    if Next(s, retention, e).outcome.Refused? { RefusedUnchanged(s, retention, e); }
    AnswerIsQueued(s, retention, e);
    x :| x in Next(s, retention, e).state.outbox && x.AckEntry? && x.ack.commandId == DeliveredId(e);
  }

  lemma {:induction false} WithinAmong(kept: seq<Event>, log: seq<Event>, deadline: u64)
    requires Among(kept, log) && Within(log, deadline)
    ensures Within(kept, deadline)
  {
    var at := Positions(kept, log);
  }

  /** From a pinned moment on, a journal entry is there after every restart within its retention. */
  lemma EntrySurvives(retention: u64, events: seq<Event>, materials: seq<Material>, moments: seq<Moment>, i: nat, j: nat, c: StoredCommand)
    requires retention > 0 && CrashRun(retention, events, materials, moments) && i <= j <= |events| && Pinned(moments[i])
    requires c in moments[i].state.journal && Within(events[i..j], c.retainUntil)
    ensures c in moments[j].state.journal
  {
    hide Attempt, Inv, Serves, Among;
    Between(retention, events, materials, moments, i, j);
    var kept :| Among(kept, events[i..j]) && AllTyped(kept) && After(moments[i].state, retention, kept) == moments[j].state;
    WithinAmong(kept, events[i..j], c.retainUntil);
    EntryEndures(moments[i].state, retention, kept, c);
  }

  // ----- Acceptances -----

  /** `t` stands no lower than `s` in any coordinate of the installed credential. */
  predicate NoLower(s: State, t: State) {
    && s.current.desiredGeneration <= t.current.desiredGeneration && s.current.fenceEpoch <= t.current.fenceEpoch
    && s.current.credentialRevision <= t.current.credentialRevision && s.identity.generation <= t.identity.generation
    && s.deviceSequence <= t.deviceSequence
  }

  lemma StepNeverFalls(s: State, retention: u64, e: Event)
    requires Inv(s) && retention > 0 && WellTyped(e)
    ensures NoLower(s, Next(s, retention, e).state)
  {
    hide Next, Verify, Owned;
    InvariantParts(s);
    if IsDelivery(e) { var f := EffectOf(s, retention, e); } else { SettlementCarries(s, retention, e); }
  }

  lemma {:induction false} RunNeverFalls(s: State, retention: u64, kept: seq<Event>)
    requires Inv(s) && retention > 0 && AllTyped(kept)
    ensures NoLower(s, After(s, retention, kept))
    decreases |kept|
  {
    hide Next, Inv;
    if kept != [] {
      var n := |kept| - 1;
      RunNeverFalls(s, retention, kept[..n]);
      RunKeepsInvariant(s, retention, kept[..n]);
      StepNeverFalls(After(s, retention, kept[..n]), retention, kept[n]);
    }
  }

  lemma TracedNeverFalls(s: State, retention: u64, log: seq<Event>, t: State)
    requires Inv(s) && retention > 0 && Traced(s, retention, log, t)
    ensures NoLower(s, t)
  {
    hide Inv, Among, NoLower;
    var kept :| Among(kept, log) && AllTyped(kept) && After(s, retention, kept) == t;
    RunNeverFalls(s, retention, kept);
  }

  /** No restart after a pinned moment falls below it in any coordinate. */
  lemma NeverFallsBelow(retention: u64, events: seq<Event>, materials: seq<Material>, moments: seq<Moment>, i: nat, j: nat)
    requires retention > 0 && CrashRun(retention, events, materials, moments) && i <= j <= |events| && Pinned(moments[i])
    ensures NoLower(moments[i].state, moments[j].state)
  {
    hide Attempt, Inv, Serves, Traced;
    Between(retention, events, materials, moments, i, j);
    TracedNeverFalls(moments[i].state, retention, events[i..j], moments[j].state);
  }

  predicate CompletesAccepted(retention: u64, events: seq<Event>, materials: seq<Material>, moments: seq<Moment>, i: nat)
    requires |materials| == |events| && |moments| == |events| + 1 && i < |events|
  {
    && Supplies(events[i], materials[i]) && Completes(moments[i], retention, events[i], materials[i], moments[i + 1])
    && !Conflicted(moments[i].disk, moments[i].state, events[i], materials[i])
    && Next(moments[i].state, retention, events[i]).outcome == Accepted
  }

  /** A completed acceptance is pinned, and raises both generations. */
  lemma AcceptancePins(now: Moment, retention: u64, e: Event, m: Material, next: Moment)
    requires Inv(now.state) && retention > 0 && WellTyped(e) && Supplies(e, m) && Serves(now.disk, now.state)
    requires Completes(now, retention, e, m, next) && !Conflicted(now.disk, now.state, e, m)
    requires Next(now.state, retention, e).outcome == Accepted
    ensures Pinned(next) && e.Deliver? && next.state.current.desiredGeneration == e.command.desiredGeneration
    ensures next.state.current.fenceEpoch == e.command.fenceEpoch
    ensures now.state.current.desiredGeneration < e.command.desiredGeneration && now.state.current.fenceEpoch <= e.command.fenceEpoch
    ensures now.state.identity.generation < next.state.identity.generation
    ensures next.state.current.credentialRevision == now.state.current.credentialRevision + 1
  {
    hide Next, Verify, Owned, Serves, PerformAll, CallActions, Supplies, Pinned, Conflicted, Retain;
    InvariantParts(now.state);
    if !IsDelivery(e) { SettlementCarries(now.state, retention, e); }
    var f := EffectOf(now.state, retention, e);
    ChangePins(now, retention, e, m, next);
  }

  /**
   Across stops and power losses, completed acceptances ask for strictly increasing generations, never
   for a lower fence, and each installs a higher credential generation and revision than all before.
   */
  lemma AcceptancesIncrease(retention: u64, events: seq<Event>, materials: seq<Material>, moments: seq<Moment>, i: nat, j: nat)
    requires retention > 0 && CrashRun(retention, events, materials, moments) && Pinned(moments[0]) && i < j < |events|
    requires CompletesAccepted(retention, events, materials, moments, i)
    requires CompletesAccepted(retention, events, materials, moments, j)
    ensures events[i].Deliver? && events[j].Deliver?
    ensures events[i].command.desiredGeneration < events[j].command.desiredGeneration
    ensures events[i].command.fenceEpoch <= events[j].command.fenceEpoch
    ensures moments[i + 1].state.identity.generation < moments[j + 1].state.identity.generation
    ensures moments[i + 1].state.current.credentialRevision < moments[j + 1].state.current.credentialRevision
    ensures forall l :: i < l <= |events| ==> NoLower(moments[i + 1].state, moments[l].state)
  {
    hide Attempt, Next, Inv, Serves, Pinned, Completes, Conflicted, Supplies, NoLower, Traced;
    Between(retention, events, materials, moments, 0, i);
    AcceptancePins(moments[i], retention, events[i], materials[i], moments[i + 1]);
    Between(retention, events, materials, moments, 0, j);
    AcceptancePins(moments[j], retention, events[j], materials[j], moments[j + 1]);
    forall l | i < l <= |events| ensures NoLower(moments[i + 1].state, moments[l].state) {
      NeverFallsBelow(retention, events, materials, moments, i + 1, l);
    }
    LowerBound(moments[i + 1].state, moments[j].state);
  }

  lemma LowerBound(s: State, t: State)
    requires NoLower(s, t)
    ensures s.current.desiredGeneration <= t.current.desiredGeneration && s.current.fenceEpoch <= t.current.fenceEpoch
    ensures s.current.credentialRevision <= t.current.credentialRevision && s.identity.generation <= t.identity.generation
  {}

  // ----- Published facts -----

  function FactSequence(f: OutboundFact): u64 {
    match f
    case CommandAcknowledged(_, a) => a.deviceSequence
    case CertificateReported(_, r) => r.deviceSequence
  }

  predicate SameFact(x: Outbound, y: Outbound) {
    && x.eventId == y.eventId && x.AckEntry? == y.AckEntry?
    && (if x.AckEntry? then FactOf(x.ack) == FactOf(y.ack) else x.report == y.report)
  }

  /** The sequence number of `x` is spoken for: whoever carries it carries the same fact. */
  predicate Reserved(s: State, x: Outbound) {
    && Sequence(x) <= s.deviceSequence
    && (forall y :: y in s.outbox && Sequence(y) == Sequence(x) ==> SameFact(x, y))
    && (forall c :: c in s.journal && c.acknowledgement.deviceSequence == Sequence(x) ==>
          x.AckEntry? && FactOf(c.acknowledgement) == FactOf(x.ack) && x.eventId == EventId(AckEvent, Direct(c.commandId)))
  }

  lemma QueuedIsReserved(s: State, x: Outbound)
    requires Inv(s) && x in s.outbox && Sequence(x) < U64_MAX
    ensures Reserved(s, x)
  {
    assert EntryValid(s, x);
    forall c | c in s.journal && c.acknowledgement.deviceSequence == Sequence(x)
      ensures x.AckEntry? && FactOf(c.acknowledgement) == FactOf(x.ack) && x.eventId == EventId(AckEvent, Direct(c.commandId))
    {
      assert Answers(c, x);
      DirectAckEvent(s, x, c.commandId);
    }
  }

  lemma ReservedStep(s: State, retention: u64, e: Event, x: Outbound)
    requires Inv(s) && retention > 0 && WellTyped(e) && Reserved(s, x) && Sequence(x) < U64_MAX
    ensures Reserved(Next(s, retention, e).state, x)
  {
    hide Next, Verify, Owned;
    InvariantParts(s);
    if IsDelivery(e) {
      ReservedDelivery(s, retention, e, x);
    } else {
      SettlementCarries(s, retention, e);
      forall y | y in Next(s, retention, e).state.outbox && Sequence(y) == Sequence(x) ensures SameFact(x, y) {
        var z := SettledFrom(s, retention, e, y);
      }
    }
  }

  /** Outside deliveries an entry is one that was there, released or not. */
  lemma SettledFrom(s: State, retention: u64, e: Event, y: Outbound) returns (z: Outbound)
    requires Inv(s) && !IsDelivery(e) && y in Next(s, retention, e).state.outbox
    ensures z in s.outbox && SameFact(z, y) && Sequence(z) == Sequence(y)
  {
    hide Verify, Owned;
    match e {
      case BrokerConfirmed(id) => z := y;
      case Reconnected(revision) =>
        var t := Next(s, retention, e).state;
        var i :| 0 <= i < |t.outbox| && t.outbox[i] == y;
        z := s.outbox[i];
      case Settled(_) => z := y;
    }
  }

  lemma ReservedDelivery(s: State, retention: u64, e: Event, x: Outbound)
    requires Inv(s) && retention > 0 && WellTyped(e) && IsDelivery(e) && Reserved(s, x) && Sequence(x) < U64_MAX
    ensures Reserved(Next(s, retention, e).state, x)
  {
    hide Next, Verify, Owned, Reserved, Retain;
    var f := EffectOf(s, retention, e);
    match f {
      case Nothing =>
      case Replaying(c) => ReservedReplay(s, c, x);
      case _ => ReservedFresh(s, e, f, x);
    }
  }

  lemma ReservedReplay(s: State, c: StoredCommand, x: Outbound)
    requires Inv(s) && c in s.journal && Reserved(s, x)
    ensures Reserved(Replay(s, c), x)
  {
    hide Verify;
    assert Recorded(s, c);
  }

  /** New entries take numbers past the counter. */
  lemma ReservedFresh(s: State, e: Event, f: Effect, x: Outbound)
    requires IsDelivery(e) && !f.Nothing? && !f.Replaying? && Reserved(s, x) && Sequence(x) < U64_MAX
    ensures Reserved(Effected(s, e, f), x)
  {
    var t := Effected(s, e, f);
    assert forall y :: y in t.outbox && Sequence(y) == Sequence(x) ==> y in s.outbox;
    assert forall c :: c in t.journal && c.acknowledgement.deviceSequence == Sequence(x) ==> c in s.journal;
  }

  lemma {:induction false} ReservedStays(s: State, retention: u64, kept: seq<Event>, x: Outbound)
    requires Inv(s) && retention > 0 && AllTyped(kept) && Reserved(s, x) && Sequence(x) < U64_MAX
    ensures Reserved(After(s, retention, kept), x)
    decreases |kept|
  {
    hide Next, Inv, Reserved;
    if kept != [] {
      var n := |kept| - 1;
      ReservedStays(s, retention, kept[..n], x);
      RunKeepsInvariant(s, retention, kept[..n]);
      ReservedStep(After(s, retention, kept[..n]), retention, kept[n], x);
    }
  }

  lemma TracedFacts(s: State, retention: u64, log: seq<Event>, t: State, f: OutboundFact, g: OutboundFact)
    requires Inv(s) && retention > 0 && Traced(s, retention, log, t)
    requires NextOutbound(s) == Some(f) && NextOutbound(t) == Some(g) && FactSequence(f) == FactSequence(g) < U64_MAX
    ensures f == g
  {
    hide Inv, Among, Reserved;
    var kept :| Among(kept, log) && AllTyped(kept) && After(s, retention, kept) == t;
    var x, y := FirstPublishable(s, s.outbox).value, FirstPublishable(t, t.outbox).value;
    QueuedIsReserved(s, x);
    ReservedStays(s, retention, kept, x);
    ReservedSame(t, x, y);
  }

  /**
   A fact handed out at a pinned moment is the only one its sequence number ever stands for: whatever is
   handed out with that number at any later moment, across stops and losses, is the same fact.
   */
  lemma PublishedFactsStayUnique(retention: u64, events: seq<Event>, materials: seq<Material>, moments: seq<Moment>,
                                 i: nat, j: nat, f: OutboundFact, g: OutboundFact)
    requires retention > 0 && CrashRun(retention, events, materials, moments) && i <= j <= |events| && Pinned(moments[i])
    requires NextOutbound(moments[i].state) == Some(f) && NextOutbound(moments[j].state) == Some(g)
    requires FactSequence(f) == FactSequence(g) < U64_MAX
    ensures f == g
  {
    hide Attempt, Inv, Serves, Traced;
    Between(retention, events, materials, moments, i, j);
    TracedFacts(moments[i].state, retention, events[i..j], moments[j].state, f, g);
  }

  lemma {:induction false} AfterBoth(s: State, retention: u64, a: seq<Event>, b: seq<Event>)
    ensures After(s, retention, a + b) == After(After(s, retention, a), retention, b)
    decreases |b|
  {
    hide Next;
    if b == [] {
      assert a + b == a;
    } else {
      var n := |b| - 1;
      AfterBoth(s, retention, a, b[..n]);
      assert (a + b)[..|a| + n] == a + b[..n];
    }
  }

  /** Two moments of a run, the earlier one pinned, lie on one history of calls. */
  lemma OneHistory(retention: u64, events: seq<Event>, materials: seq<Material>, moments: seq<Moment>, i: nat, j: nat)
    returns (kept: seq<Event>, n: nat)
    requires retention > 0 && CrashRun(retention, events, materials, moments) && Pinned(moments[0])
    requires i <= j <= |events| && Pinned(moments[i])
    ensures AllTyped(kept) && n <= |kept|
    ensures After(moments[0].state, retention, kept[..n]) == moments[i].state
    ensures After(moments[0].state, retention, kept) == moments[j].state
  {
    hide Attempt, Inv, Serves, Among, Pinned, Next, After, WellTyped;
    Between(retention, events, materials, moments, 0, i);
    Between(retention, events, materials, moments, i, j);
    var a :| Among(a, events[0..i]) && AllTyped(a) && After(moments[0].state, retention, a) == moments[i].state;
    var b :| Among(b, events[i..j]) && AllTyped(b) && After(moments[i].state, retention, b) == moments[j].state;
    AfterBoth(moments[0].state, retention, a, b);
    kept, n := a + b, |a|;
    assert kept[..n] == a;
  }

  /**
   A received answer and a report for the same generation, handed out at two moments of a run the earlier
   of which is pinned, meet the consumer's device-side conditions, whatever was cut or lost in between.
   */
  lemma FactsConformAcrossRestarts(retention: u64, events: seq<Event>, materials: seq<Material>, moments: seq<Moment>, i: nat, j: nat,
                                   ackId: EventId, ack: AckFact, reportId: EventId, report: Report)
    requires retention > 0 && CrashRun(retention, events, materials, moments) && Installed(moments[0])
    requires i <= |events| && j <= |events| && Pinned(moments[if i <= j then i else j])
    requires NextOutbound(moments[i].state) == Some(CommandAcknowledged(ackId, ack))
    requires NextOutbound(moments[j].state) == Some(CertificateReported(reportId, report))
    requires ack.rejection.None? && ack.desiredGeneration == report.observedGeneration
    ensures ack.commandId == report.commandId && ack.fenceEpoch == report.fenceEpoch
    ensures ack.deviceSequence < report.deviceSequence
    ensures ackId == EventId(AckEvent, Direct(ack.commandId)) && ackId != reportId
  {
    hide Attempt, Inv, Pinned, NextOutbound, Next, After;
    InstalledPins(moments[0]);
    var s := moments[0].state;
    if i <= j {
      var kept, n := OneHistory(retention, events, materials, moments, i, j);
      assert kept[..|kept|] == kept;
      FactsConform(s, retention, kept, n, |kept|, ackId, ack, reportId, report);
    } else {
      var kept, n := OneHistory(retention, events, materials, moments, j, i);
      assert kept[..|kept|] == kept;
      FactsConform(s, retention, kept, |kept|, n, ackId, ack, reportId, report);
    }
  }

  lemma ReservedSame(s: State, x: Outbound, y: Outbound)
    requires Reserved(s, x) && y in s.outbox && Sequence(y) == Sequence(x)
    ensures SameFact(x, y)
  {}

  // ----- Phases -----

  /**
   A report handed out after any stops and losses has its phases among the calls of the run, in order:
   its acceptance, the confirmation of its activating acknowledgement, the reconnect of its revision,
   and a settlement after the acceptance.
   */
  lemma PhasesSurvive(retention: u64, events: seq<Event>, materials: seq<Material>, moments: seq<Moment>, j: nat,
                      id: EventId, r: Report) returns (p: Phases)
    requires retention > 0 && CrashRun(retention, events, materials, moments) && Installed(moments[0]) && j <= |events|
    requires NextOutbound(moments[j].state) == Some(CertificateReported(id, r))
    ensures p.accepted < p.confirmed < p.reconnected < j && p.accepted < p.settled < j
    ensures events[p.accepted].Deliver? && events[p.accepted].command.commandId == r.commandId
    ensures events[p.confirmed] == BrokerConfirmed(EventId(AckEvent, Direct(r.commandId)))
    ensures events[p.reconnected] == Reconnected(r.credentialRevision) && events[p.settled].Settled?
  {
    hide Attempt, Inv, Serves, Among, Pinned, Next, NextOutbound;
    InstalledPins(moments[0]);
    Between(retention, events, materials, moments, 0, j);
    var s := moments[0].state;
    var kept :| Among(kept, events[0..j]) && AllTyped(kept) && After(s, retention, kept) == moments[j].state;
    var q := ReportOnlyAfterItsPhases(s, retention, kept, id, r);
    var at := Positions(kept, events[0..j]);
    p := Phases(at[q.accepted], at[q.confirmed], at[q.reconnected], at[q.settled]);
  }
}
