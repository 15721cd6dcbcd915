/**
 The durable state as the agent holds it: an object whose operations change its fields in place.
 Each operation is proved to perform the transition of the same name on values.
 */
module DurableState {
  import opened Bytes
  import opened Identities
  import opened Rotation

  class StateV1 {
    var schemaVersion: int
    var identity: DeviceIdentity
    var current: Current
    var deviceSequence: u64
    var commandJournal: seq<StoredCommand>
    var outbox: seq<Outbound>
    var reconnectRevision: Option<u64>
    var pendingInbound: Option<Settlement>

    function View(): State
      reads this
    {
      State(schemaVersion, identity, current, deviceSequence, commandJournal, outbox, reconnectRevision, pendingInbound)
    }

    constructor New(id: DeviceIdentity, position: Current)
      requires ValidIdentity(id) && position.desiredGeneration > 0 && position.fenceEpoch > 0
      requires position.credentialRevision > 0 && position.expiresAt > 0 && position.artifactDigest.Sha256?
      ensures Initial(View()) && View().identity == id && View().current == position
    {
      schemaVersion, identity, current, deviceSequence := 1, id, position, 0;
      commandJournal, outbox, reconnectRevision, pendingInbound := [], [], None, None;
    }

    constructor Clone(other: StateV1)
      ensures View() == other.View()
    {
      schemaVersion, identity, current := other.schemaVersion, other.identity, other.current;
      deviceSequence, commandJournal, outbox := other.deviceSequence, other.commandJournal, other.outbox;
      reconnectRevision, pendingInbound := other.reconnectRevision, other.pendingInbound;
    }

    // ----- verify -----

    /** The first loop: ids and sequence numbers collected in growing sets, each entry checked on its own. */
    method VerifyEntries() returns (ok: bool)
      ensures ok <==> EntriesApart(outbox) && forall e :: e in outbox ==> EntryValid(View(), e)
    {
      hide EntryValid;
      ghost var s := View();
      var eventIds: set<EventId>, sequences: set<u64> := {}, {};
      var i := 0;
      while i < |outbox|
        invariant 0 <= i <= |outbox|
        invariant forall x :: x in eventIds <==> exists k :: 0 <= k < i && outbox[k].eventId == x
        invariant forall x :: x in sequences <==> exists k :: 0 <= k < i && Sequence(outbox[k]) == x
        invariant EntriesApart(outbox[..i])
        invariant forall k :: 0 <= k < i ==> EntryValid(s, outbox[k])
      {
        var entry := outbox[i];
        if entry.eventId in eventIds { return false; }
        eventIds := eventIds + {entry.eventId};
        var sequence := Sequence(entry);
        var repeated := sequence in sequences;
        var valid := VerifyEntry(entry);
        if repeated || !valid {
          assert entry in outbox;
          return false;
        }
        sequences := sequences + {sequence};
        i := i + 1;
      }
      assert outbox[..i] == outbox;
      return true;
    }

    method VerifyEntry(entry: Outbound) returns (ok: bool)
      ensures ok <==> EntryValid(View(), entry)
    {
      var sequence := Sequence(entry);
      if sequence == 0 || sequence > deviceSequence || !SemanticValid(entry) { return false; }
      if entry.AckEntry? { return true; }
      var report := entry.report;
      var expected := StateHash(identity.tenant, identity.device, report.credentialGeneration, report.observedGeneration,
                                report.fenceEpoch, report.credentialRevision, report.artifactDigest);
      return !(|| report.stateHash != expected
               || report.credentialRevision != current.credentialRevision
               || report.observedGeneration != current.desiredGeneration
               || report.fenceEpoch != current.fenceEpoch
               || report.artifactDigest != current.artifactDigest);
    }

    method VerifyJournal() returns (ok: bool)
      ensures ok <==> IdsApart(commandJournal) && forall c :: c in commandJournal ==> CommandValid(c)
    {
      var commandIds: set<Text> := {};
      var i := 0;
      while i < |commandJournal|
        invariant 0 <= i <= |commandJournal|
        invariant forall x :: x in commandIds <==> exists k :: 0 <= k < i && commandJournal[k].commandId == x
        invariant IdsApart(commandJournal[..i])
        invariant forall k :: 0 <= k < i ==> CommandValid(commandJournal[k])
      {
        var command := commandJournal[i];
        if command.commandId in commandIds { return false; }
        if !CommandValid(command) {
          assert command in commandJournal;
          return false;
        }
        commandIds := commandIds + {command.commandId};
        i := i + 1;
      }
      assert commandJournal[..i] == commandJournal;
      return true;
    }

    method CountReports() returns (reports: nat)
      ensures reports == 0 <==> !HasReport(outbox)
      ensures reports <= 1 <==> AtMostOneReport(outbox)
    {
      reports := 0;
      var i := 0;
      while i < |outbox|
        invariant 0 <= i <= |outbox| && 0 <= reports
        invariant reports == 0 <==> forall k :: 0 <= k < i ==> !IsReport(outbox[k])
        invariant reports <= 1 <==> AtMostOneReport(outbox[..i])
      {
        ghost var before := outbox[..i];
        assert outbox[..i + 1] == before + [outbox[i]];
        if IsReport(outbox[i]) {
          reports := reports + 1;
        }
        i := i + 1;
      }
      assert outbox[..i] == outbox;
      assert HasReport(outbox) <==> exists k :: 0 <= k < |outbox| && IsReport(outbox[k]);
    }

    method VerifyPhases() returns (ok: bool)
      ensures ok <==> forall e :: e in outbox ==> PhaseValid(View(), e)
    {
      var i := 0;
      while i < |outbox|
        invariant 0 <= i <= |outbox|
        invariant forall k :: 0 <= k < i ==> PhaseValid(View(), outbox[k])
      {
        var valid := VerifyPhase(outbox[i]);
        if !valid {
          assert outbox[i] in outbox;
          return false;
        }
        i := i + 1;
      }
      return true;
    }

    method VerifyPhase(entry: Outbound) returns (ok: bool)
      ensures ok <==> PhaseValid(View(), entry)
    {
      match entry {
        case AckEntry(_, payload) =>
          if payload.activatesRevision.None? { return true; }
          var revision := payload.activatesRevision.value;
          return revision == current.credentialRevision
            && HasBlockedFor(outbox, revision, payload.commandId)
            && reconnectRevision.None?;
        case ReportBlocked(_, payload) =>
          var activation := HasActivationFor(outbox, payload.credentialRevision, payload.commandId);
          return !(activation == reconnectRevision.Some?
                   || (reconnectRevision.Some? && reconnectRevision.value != payload.credentialRevision));
        case ReportReady(_, _) =>
          return reconnectRevision.None?;
      }
    }

    /** `verify`, in the order the source checks. */
    method VerifyAgainst(id: DeviceIdentity) returns (ok: bool)
      ensures ok <==> Verify(View(), id)
    {
      hide EntryValid, CommandValid, PhaseValid, EntriesApart, IdsApart, AtMostOneReport, HasReport;
      var coordinates :=
        && schemaVersion == 1
        && identity.tenant == id.tenant && identity.device == id.device
        && identity.generation > 0
        && current.desiredGeneration > 0 && current.fenceEpoch > 0
        && current.credentialRevision > 0 && current.expiresAt > 0
        && current.artifactDigest.Sha256?
        && |outbox| <= OUTBOX_LIMIT && |commandJournal| <= JOURNAL_LIMIT;
      if !coordinates { return false; }
      var entries := VerifyEntries();
      if !entries { return false; }
      var commands := VerifyJournal();
      if !commands { return false; }
      if pendingInbound.Some? {
        var pending := pendingInbound.value;
        if pending.credentialGeneration == 0 { return false; }
        var scope := DeviceIdentity(identity.tenant, identity.device, pending.credentialGeneration);
        var valid := pending.commandId != [] && pending.fingerprint.Sha256? && pending.topic == CommandTopic(scope)
          && pending.token == Token(pending.topic, pending.commandId, pending.fingerprint)
          && FindCommand(commandJournal, pending.commandId, pending.fingerprint).Some?;
        if !valid { return false; }
      }
      var reports := CountReports();
      if reports > 1 { return false; }
      if pendingInbound.Some? != (reports == 1) { return false; }
      var phases := VerifyPhases();
      if !phases { return false; }
      if reconnectRevision.Some? && reports != 1 { return false; }
      return !(reconnectRevision.Some? && reconnectRevision.value != current.credentialRevision);
    }

    method ValidateSelf() returns (ok: bool)
      ensures ok <==> Validate(View())
    {
      hide Verify;
      if !ValidIdentity(identity) { return false; }
      ok := VerifyAgainst(identity);
    }

    // ----- Queries -----

    method MatchCommand(commandId: Text, fingerprint: Digest, now: u64) returns (r: Option<bool>)
      ensures r == CommandMatch(View(), commandId, fingerprint, now)
    {
      var found := FindLive(commandJournal, commandId, now);
      if found.None? { return None; }
      return Some(found.value.fingerprint == fingerprint);
    }

    method JournalHasCapacity(now: u64) returns (r: bool)
      ensures r <==> HasJournalCapacity(View(), now)
    {
      if |commandJournal| < JOURNAL_LIMIT { return true; }
      var i := 0;
      while i < |commandJournal|
        invariant 0 <= i <= |commandJournal|
        invariant forall k :: 0 <= k < i ==> Kept(pendingInbound, now, commandJournal[k])
      {
        if commandJournal[i].retainUntil <= now
           && (pendingInbound.None? || pendingInbound.value.commandId != commandJournal[i].commandId) {
          assert commandJournal[i] in commandJournal && !Kept(pendingInbound, now, commandJournal[i]);
          return true;
        }
        i := i + 1;
      }
      return false;
    }

    /** `next_outbound`: the first entry that is an acknowledgement, or a released report once settled. */
    method Next() returns (fact: Option<OutboundFact>)
      ensures fact == NextOutbound(View())
    {
      ghost var s := View();
      var i := 0;
      while i < |outbox|
        invariant 0 <= i <= |outbox|
        invariant FirstPublishable(s, outbox) == FirstPublishable(s, outbox[i..])
      {
        var entry := outbox[i];
        assert outbox[i..][0] == entry && outbox[i..][1..] == outbox[i + 1..];
        var withheld := entry.ReportReady? && !(pendingInbound.Some? && pendingInbound.value.settled);
        if !withheld && !entry.ReportBlocked? {
          return Some(Publish(entry));
        }
        i := i + 1;
      }
      return None;
    }

    // ----- Operations -----

    method ExpireCommandJournal(now: u64)
      modifies this`commandJournal
      ensures View() == Expire(old(View()), now)
    {
      var kept: seq<StoredCommand> := [];
      var i := |commandJournal|;
      while i > 0
        invariant 0 <= i <= |commandJournal|
        invariant kept == Retain(commandJournal[i..], pendingInbound, now)
      {
        i := i - 1;
        var command := commandJournal[i];
        assert commandJournal[i..][0] == command && commandJournal[i..][1..] == commandJournal[i + 1..];
        if command.retainUntil > now || (pendingInbound.Some? && pendingInbound.value.commandId == command.commandId) {
          kept := [command] + kept;
        }
      }
      assert commandJournal[0..] == commandJournal;
      commandJournal := kept;
    }

    method AcceptCommand(a: Acceptance) returns (ok: bool)
      modifies this
      ensures ok <==> ValidIdentity(old(identity))
      ensures View() == if ok then Accept(old(View()), a) else old(View())
    {
      if !ValidIdentity(identity) { return false; }
      var previous := identity;
      deviceSequence := SaturatingAdd(deviceSequence, 1);
      var ackSequence := deviceSequence;
      deviceSequence := SaturatingAdd(deviceSequence, 1);
      var reportSequence := deviceSequence;
      var hash := StateHash(identity.tenant, identity.device, a.credentialGeneration, a.generation, a.fence,
                            a.revision, a.artifactDigest);
      identity := identity.(generation := a.credentialGeneration);
      current := Current(a.generation, a.fence, a.revision, a.artifactDigest, a.expiresAt);
      var acknowledgement := Ack(a.commandId, Direct(a.commandId), a.generation, a.fence, ackSequence, a.observedAt,
                                 None, Some(a.revision), false);
      commandJournal := commandJournal + [StoredCommand(a.commandId, a.fingerprint, acknowledgement, a.retainUntil)];
      var topic := CommandTopic(previous);
      pendingInbound := Some(Settlement(topic, a.commandId, a.fingerprint, previous.generation,
                                        Token(topic, a.commandId, a.fingerprint), false));
      outbox := outbox + [AckEntry(EventId(AckEvent, Direct(a.commandId)), acknowledgement)];
      outbox := outbox + [ReportBlocked(
        EventId(ReportEvent, Direct(a.commandId)),
        Report(a.commandId, a.generation, a.fence, reportSequence, a.observedAt, hash, a.artifactDigest,
               Some(a.expiresAt), a.credentialGeneration, a.revision))];
      assert outbox == old(outbox) + [outbox[|outbox| - 2], outbox[|outbox| - 1]];
      return true;
    }

    method RejectCommand(r: Refusal)
      modifies this`deviceSequence, this`commandJournal, this`outbox
      ensures View() == Reject(old(View()), r)
    {
      deviceSequence := SaturatingAdd(deviceSequence, 1);
      var acknowledgement := Ack(r.commandId, Direct(r.commandId), r.generation, r.fence, deviceSequence, r.observedAt,
                                 Some(r.rejection), None, false);
      commandJournal := commandJournal + [StoredCommand(r.commandId, r.fingerprint, acknowledgement, r.retainUntil)];
      outbox := outbox + [AckEntry(EventId(AckEvent, Direct(r.commandId)), acknowledgement)];
    }

    method RejectConflictingReplay(commandId: Text, fingerprint: Digest, generation: u64, fence: u64, observedAt: i64)
      modifies this`deviceSequence, this`outbox
      ensures View() == RejectConflict(old(View()), commandId, fingerprint, generation, fence, observedAt)
    {
      deviceSequence := SaturatingAdd(deviceSequence, 1);
      var source := Conflict(commandId, fingerprint);
      outbox := outbox + [AckEntry(EventId(RejectedEvent, source),
                                   Ack(commandId, source, generation, fence, deviceSequence, observedAt,
                                       Some(MalformedCommand), None, false))];
    }

    method ReplayCommand(commandId: Text, fingerprint: Digest) returns (ok: bool)
      modifies this`outbox
      ensures var found := FindCommand(old(commandJournal), commandId, fingerprint);
              ok == found.Some? && View() == if ok then Replay(old(View()), found.value) else old(View())
    {
      var found := FindCommand(commandJournal, commandId, fingerprint);
      if found.None? { return false; }
      var acknowledgement := found.value.acknowledgement;
      if acknowledgement.rejection.None? {
        acknowledgement := acknowledgement.(activatesRevision := None);
        acknowledgement := acknowledgement.(settledReplay := true);
      }
      outbox := outbox + [AckEntry(EventId(AckEvent, Direct(found.value.commandId)), acknowledgement)];
      return true;
    }

    method ConfirmOutbound(id: EventId) returns (ok: bool)
      modifies this`outbox, this`reconnectRevision, this`pendingInbound
      ensures ok <==> Confirm(old(View()), id).Some?
      ensures View() == if ok then Confirm(old(View()), id).value else old(View())
    {
      var index := PositionOf(outbox, id);
      if index == |outbox| { return false; }
      if outbox[index].ReportReady? && !(pendingInbound.Some? && pendingInbound.value.settled) { return false; }
      var confirmed := outbox[index];
      outbox := outbox[..index] + outbox[index + 1..];
      if confirmed.AckEntry? && confirmed.ack.activatesRevision.Some?
         && HasBlockedRevision(outbox, confirmed.ack.activatesRevision.value) {
        reconnectRevision := confirmed.ack.activatesRevision;
      }
      if confirmed.ReportReady? {
        pendingInbound := None;
      }
      return true;
    }

    method Reconnect(revision: u64) returns (ok: bool)
      modifies this`outbox, this`reconnectRevision
      ensures ok <==> MarkReconnected(old(View()), revision).Some?
      ensures View() == if ok then MarkReconnected(old(View()), revision).value else old(View())
    {
      if reconnectRevision != Some(revision) { return false; }
      ghost var before := outbox;
      var i := 0;
      while i < |outbox|
        invariant 0 <= i <= |outbox| == |before|
        invariant forall k :: 0 <= k < i ==> outbox[k] == Released(before[k])
        invariant forall k :: i <= k < |outbox| ==> outbox[k] == before[k]
        modifies this`outbox
      {
        if outbox[i].ReportBlocked? {
          outbox := outbox[i := ReportReady(outbox[i].eventId, outbox[i].report)];
        }
        i := i + 1;
      }
      reconnectRevision := None;
      assert outbox == seq(|before|, i requires 0 <= i < |before| => Released(before[i]));
      return true;
    }

    method SettleInbound(token: Option<Token>) returns (ok: bool)
      modifies this`pendingInbound
      ensures ok <==> MarkSettled(old(View()), token).Some?
      ensures View() == if ok then MarkSettled(old(View()), token).value else old(View())
    {
      if pendingInbound.None? { return false; }
      if token.Some? && token.value != pendingInbound.value.token { return false; }
      pendingInbound := Some(pendingInbound.value.(settled := true));
      return true;
    }
  }
}
