/** What a power loss can take back although the broker was answered, from the first start on. */
module Losses {
  import opened Bytes
  import opened Identities
  import opened Rotation
  import opened RotationInvariant
  import opened Operations
  import opened Runs
  import opened Preimages
  import opened FileSystem
  import opened CrashStore
  import opened CrashRuns
  import opened Durability

  function Malformed(s: State, commandId: Text, fingerprint: Digest, now: u64): Event {
    DeliverMalformed(CommandTopic(s.identity), commandId, fingerprint, now)
  }

  /** The first malformed delivery is rejected and recorded; delivered again it is a duplicate. */
  lemma RejectedOnce(s: State, retention: u64, commandId: Text, fingerprint: Digest, now: u64)
    requires Initial(s) && 0 < retention && now + retention <= I64_MAX && commandId != [] && fingerprint.Sha256?
    ensures var e := Malformed(s, commandId, fingerprint, now);
            var t := Next(s, retention, e).state;
      && Next(s, retention, e).outcome == Rejected(MalformedCommand) && t.identity == s.identity && Inv(t)
      && HasCommandAck(t.outbox, commandId) && Next(t, retention, e) == Step(t, Duplicate)
      && NextOutbound(t).Some? && NextOutbound(t).value.CommandAcknowledged?
      && NextOutbound(t).value.ack.commandId == commandId && FactSequence(NextOutbound(t).value) == 1
  {
    InitialInvariant(s);
    var e := Malformed(s, commandId, fingerprint, now);
    MalformedExact(s, retention, e);
    assert HasJournalCapacity(s, now);
    var t := Next(s, retention, e).state;
    assert t == Reject(Expire(s, now), MalformedRefusal(s, commandId, fingerprint, retention, now));
    assert t.outbox[0] in t.outbox && t.journal[0] in t.journal;
  }

  /** Cut after the rename of the manifest: the new state is seen, the old one may come back. */
  lemma CutAfterRename(now: Moment, retention: u64, e: Event, m: Material) returns (next: Moment)
    requires Installed(now) && retention > 0 && WellTyped(e) && !e.Deliver?
    requires Next(now.state, retention, e).state != now.state && !Next(now.state, retention, e).outcome.Refused?
    ensures Attempt(now, retention, e, m, next) && next.state == Next(now.state, retention, e).state
    ensures Shaped(next.disk) && next.disk.earlier == [Some(now.state)] && next.disk.rooted
    ensures next.disk.revisions == now.disk.revisions && next.disk.durable == now.disk.durable
  {
    hide Next, Verify, Owned, PerformAll, Open;
    InitialInvariant(now.state);
    var t := Next(now.state, retention, e).state;
    var actions := CallActions(now.disk, now.state, retention, e, m, true);
    assert actions == PersistActions(t);
    PersistStages(now.disk, t, 3);
    next := Moment(PerformAll(now.disk, actions[..3]), t);
    assert Interrupts(next.disk, next.disk);
    InstallReached(now.state, retention, e);
    StillHolds(now.disk.revisions, next.disk.revisions, t);
    OpensAs(next.disk, t, now.state.identity);
  }

  /**
   An answer the broker was settled on is lost, and its sequence number is used again, without any reuse
   of an unsynced directory: a rejection is cut between the rename of the manifest and the sync, the
   restarted process answers the redelivery as a duplicate from memory and hands the answer out, the
   power fails, and the next rejection carries the same number for another command.
   */
  lemma LostAnswerHistory(start: Moment, retention: u64, id: Text, fingerprint: Digest, other: Text, otherFingerprint: Digest,
                          now: u64, m: Material) returns (events: seq<Event>, materials: seq<Material>, moments: seq<Moment>)
    requires Installed(start) && 0 < retention && now + retention <= I64_MAX
    requires id != [] && fingerprint.Sha256? && other != [] && other != id && otherFingerprint.Sha256?
    ensures CrashRun(retention, events, materials, moments) && |events| == 4 && moments[0] == start
    ensures NeverReusesUnsynced(retention, events, moments)
    ensures events[0] == events[1] == Malformed(start.state, id, fingerprint, now)
    ensures Completes(moments[1], retention, events[1], m, moments[2]) && materials[1] == m
    ensures Next(moments[1].state, retention, events[1]).outcome == Duplicate
    ensures HasCommandAck(moments[2].state.outbox, id)
    ensures moments[3].state == start.state && !HasCommandAck(start.state.outbox, id)
            && forall t :: !HasLiveEntry(start.state, id, t)
    ensures NextOutbound(moments[2].state).Some? && NextOutbound(moments[4].state).Some?
    ensures var f, g := NextOutbound(moments[2].state).value, NextOutbound(moments[4].state).value;
      && f.CommandAcknowledged? && f.ack.commandId == id && g.CommandAcknowledged? && g.ack.commandId == other
      && FactSequence(f) == FactSequence(g)
  {
    hide Next, Verify, Owned, PerformAll, Open, Attempt, Completes, NextOutbound, ReusesUnsynced;
    var s := start.state;
    var e, e2 := Malformed(s, id, fingerprint, now), Malformed(s, other, otherFingerprint, now);
    RejectedOnce(s, retention, id, fingerprint, now);
    RejectedOnce(s, retention, other, otherFingerprint, now);
    var stopped := CutAfterRename(start, retention, e, m);
    CompletesInPlace(stopped, retention, e, m);
    InitialInvariant(s);
    var back := LossBetweenCalls(stopped, retention, m, s);
    var last := CompletesWriting(back, retention, e2, m);
    events, materials, moments := [e, e, Settled(None), e2], [m, m, m, m], [start, stopped, stopped, back, last];
    NotAccepted(stopped.state, retention);
  }

  lemma NotAccepted(s: State, retention: u64)
    ensures Next(s, retention, Settled(None)).outcome != Accepted
  {}
}
