/**
 The inductive strengthening of `verify` and, for every operation, the exact condition
 under which its candidate state validates. `verify` by itself is not preserved: it does
 not say who owns a sequence number nor which journal entry an acknowledgement answers.
 */
module RotationInvariant {
  import opened Bytes
  import opened Identities
  import opened Rotation

  // ----- The strengthened invariant -----

  predicate Recorded(s: State, c: StoredCommand) {
    && c.acknowledgement.eventCause == Direct(c.commandId)
    && !c.acknowledgement.settledReplay
    && c.acknowledgement.deviceSequence <= s.deviceSequence
  }

  predicate SequenceApart(c: StoredCommand, d: StoredCommand) {
    c.acknowledgement.deviceSequence == d.acknowledgement.deviceSequence ==>
      c.acknowledgement.deviceSequence == U64_MAX
  }

  /** Below saturation no two journal entries share a sequence number. */
  predicate SequencesApart(journal: seq<StoredCommand>) {
    forall i, j :: 0 <= i < j < |journal| ==> SequenceApart(journal[i], journal[j])
  }

  predicate CauseOwned(e: Outbound) {
    e.AckEntry? ==>
      && e.ack.eventCause.commandId == e.ack.commandId
      && (e.ack.eventCause.Conflict? ==> e.ack.rejection == Some(MalformedCommand))
  }

  /** A queued answer to the journalled command repeats its fact, and only it may carry its sequence. */
  predicate Answers(c: StoredCommand, e: Outbound) {
    && (IsDirectAck(e, c.commandId) ==> FactOf(e.ack) == FactOf(c.acknowledgement))
    && (Sequence(e) == c.acknowledgement.deviceSequence && Sequence(e) < U64_MAX ==>
          IsDirectAck(e, c.commandId))
  }

  predicate ReportOwned(s: State, p: Settlement, r: Report) {
    && r.commandId == p.commandId
    && r.credentialGeneration == s.identity.generation
    && r.expiresAt == Some(s.current.expiresAt)
  }

  /** The journal entry of the rotation in flight records the acceptance the report announces. */
  predicate AcceptanceOwned(s: State, c: StoredCommand, r: Report) {
    && c.acknowledgement.rejection.None?
    && c.acknowledgement.activatesRevision == Some(s.current.credentialRevision)
    && c.acknowledgement.desiredGeneration == r.observedGeneration
    && c.acknowledgement.fenceEpoch == r.fenceEpoch
    && c.acknowledgement.deviceSequence < r.deviceSequence
  }

  predicate RotationOwned(s: State) {
    s.pendingInbound.Some? ==>
      var p := s.pendingInbound.value;
      && p.credentialGeneration < s.identity.generation
      && (forall e :: e in s.outbox && IsReport(e) ==> ReportOwned(s, p, e.report))
      && (forall c, e :: c in s.journal && e in s.outbox && c.commandId == p.commandId && IsReport(e) ==>
            AcceptanceOwned(s, c, e.report))
  }

  predicate Owned(s: State) {
    && (forall c :: c in s.journal ==> Recorded(s, c))
    && SequencesApart(s.journal)
    && (forall e :: e in s.outbox ==> CauseOwned(e))
    && (forall c, e :: c in s.journal && e in s.outbox ==> Answers(c, e))
    && RotationOwned(s)
  }

  predicate Inv(s: State) { Validate(s) && Owned(s) }

  /** The parts of the invariant other modules argue from. */
  lemma InvariantParts(s: State)
    requires Inv(s)
    ensures |s.outbox| <= OUTBOX_LIMIT && |s.journal| <= JOURNAL_LIMIT
    ensures EntriesApart(s.outbox) && AtMostOneReport(s.outbox)
    ensures forall e :: e in s.outbox ==> EntryValid(s, e) && PhaseValid(s, e) && CauseOwned(e)
    ensures s.pendingInbound.Some? <==> HasReport(s.outbox)
    ensures s.pendingInbound.Some? ==>
              forall e :: e in s.outbox && IsReport(e) ==> ReportOwned(s, s.pendingInbound.value, e.report)
  {}

  // ----- Conditions a caller can check before an operation -----

  predicate AnswerQueued(s: State, commandId: Text) {
    exists e :: e in s.outbox && IsDirectAck(e, commandId)
  }

  predicate EntryQueued(s: State, commandId: Text) {
    exists c :: c in s.journal && c.commandId == commandId
  }

  predicate SequenceQueued(s: State, n: u64) {
    exists e :: e in s.outbox && Sequence(e) == n
  }

  /** A journal entry for the id that expiry at `now` would keep. */
  predicate EntryKept(s: State, commandId: Text, now: u64) {
    exists c :: c in s.journal && c.commandId == commandId && Kept(s.pendingInbound, now, c)
  }

  /** The next sequence number is saturated and already queued. */
  predicate SequenceExhausted(s: State) {
    s.deviceSequence == U64_MAX && SequenceQueued(s, U64_MAX)
  }

  // ----- Expiry -----

  lemma {:induction false} RetainKeepsIdsApart(journal: seq<StoredCommand>, pending: Option<Settlement>, now: u64)
    requires IdsApart(journal)
    ensures IdsApart(Retain(journal, pending, now))
  {
    if journal != [] {
      var tail := journal[1..];
      RetainKeepsIdsApart(tail, pending, now);
      var rest := Retain(tail, pending, now);
      forall c | c in rest ensures c.commandId != journal[0].commandId {
        var k :| 0 <= k < |tail| && tail[k] == c;
        assert journal[k + 1] == c;
      }
      ConsIdsApart(journal[0], rest);
    }
  }

  lemma ConsIdsApart(head: StoredCommand, rest: seq<StoredCommand>)
    requires IdsApart(rest) && forall c :: c in rest ==> c.commandId != head.commandId
    ensures IdsApart([head] + rest)
  {}

  lemma {:induction false} RetainKeepsSequencesApart(journal: seq<StoredCommand>, pending: Option<Settlement>, now: u64)
    requires SequencesApart(journal)
    ensures SequencesApart(Retain(journal, pending, now))
  {
    if journal != [] {
      var tail := journal[1..];
      RetainKeepsSequencesApart(tail, pending, now);
      var rest := Retain(tail, pending, now);
      forall c | c in rest ensures SequenceApart(journal[0], c) {
        var k :| 0 <= k < |tail| && tail[k] == c;
        assert journal[k + 1] == c;
      }
      ConsSequencesApart(journal[0], rest);
    }
  }

  lemma ConsSequencesApart(head: StoredCommand, rest: seq<StoredCommand>)
    requires SequencesApart(rest) && forall c :: c in rest ==> SequenceApart(head, c)
    ensures SequencesApart([head] + rest)
  {}

  lemma ExpireKeepsInvariant(s: State, now: u64)
    requires Inv(s)
    ensures Inv(Expire(s, now))
  {
    RetainKeepsIdsApart(s.journal, s.pendingInbound, now);
    RetainKeepsSequencesApart(s.journal, s.pendingInbound, now);
    var t := Expire(s, now);
    if s.pendingInbound.Some? {
      var p := s.pendingInbound.value;
      var c :| c in s.journal && c.commandId == p.commandId && c.fingerprint == p.fingerprint;
      assert c in t.journal;
    }
    assert forall e :: e in t.outbox ==> EntryValid(s, e) && PhaseValid(s, e);
  }

  // ----- Appending one acknowledgement that activates nothing -----

  function Push(s: State, e: Outbound, sequence: u64, extra: seq<StoredCommand>): State {
    s.(deviceSequence := sequence, outbox := s.outbox + [e], journal := s.journal + extra)
  }

  predicate Pushable(s: State, e: Outbound, sequence: u64, extra: seq<StoredCommand>) {
    && e.AckEntry? && e.ack.activatesRevision.None? && SemanticValid(e) && CauseOwned(e)
    && s.deviceSequence <= sequence && Sequence(e) <= sequence
    && |s.outbox| < OUTBOX_LIMIT && |s.journal| + |extra| <= JOURNAL_LIMIT
    && |extra| <= 1
    && (forall c :: c in extra ==> CommandValid(c))
  }

  predicate Fresh(s: State, e: Outbound) {
    forall x :: x in s.outbox ==> x.eventId != e.eventId && Sequence(x) != Sequence(e)
  }

  lemma PushApart(outbox: seq<Outbound>, e: Outbound)
    requires EntriesApart(outbox)
    ensures EntriesApart(outbox + [e]) <==>
            forall x :: x in outbox ==> x.eventId != e.eventId && Sequence(x) != Sequence(e)
  {
    var t := outbox + [e];
    assert t[|outbox|] == e;
    if EntriesApart(t) {
      forall x | x in outbox ensures x.eventId != e.eventId && Sequence(x) != Sequence(e) {
        var i :| 0 <= i < |outbox| && outbox[i] == x;
        assert t[i] == x;
      }
    }
  }

  lemma PushIdsApart(journal: seq<StoredCommand>, extra: seq<StoredCommand>)
    requires IdsApart(journal) && |extra| <= 1
    ensures IdsApart(journal + extra) <==>
            forall c, d :: c in journal && d in extra ==> c.commandId != d.commandId
  {
    var t := journal + extra;
    if IdsApart(t) {
      forall c, d | c in journal && d in extra ensures c.commandId != d.commandId {
        var i :| 0 <= i < |journal| && journal[i] == c;
        assert t[i] == c && t[|journal|] == d;
      }
    }
  }

  lemma PushReports(s: State, e: Outbound, sequence: u64, extra: seq<StoredCommand>)
    requires e.AckEntry? && e.ack.activatesRevision.None?
    ensures var t := Push(s, e, sequence, extra);
      && HasReport(t.outbox) == HasReport(s.outbox)
      && (AtMostOneReport(t.outbox) <==> AtMostOneReport(s.outbox))
      && (forall x :: x in t.outbox ==> (PhaseValid(t, x) <==> (x == e || PhaseValid(s, x))))
  {
    var t := Push(s, e, sequence, extra);
    assert forall x :: x in t.outbox <==> x in s.outbox || x == e;
    assert forall i :: 0 <= i < |s.outbox| ==> t.outbox[i] == s.outbox[i];
    forall x | x in t.outbox ensures PhaseValid(t, x) <==> (x == e || PhaseValid(s, x)) {
      match x
      case AckEntry(_, a) =>
        if a.activatesRevision.Some? {
          assert HasBlockedFor(t.outbox, a.activatesRevision.value, a.commandId)
            == HasBlockedFor(s.outbox, a.activatesRevision.value, a.commandId);
        }
      case ReportBlocked(_, r) =>
        assert HasActivationFor(t.outbox, r.credentialRevision, r.commandId)
          == HasActivationFor(s.outbox, r.credentialRevision, r.commandId);
      case ReportReady(_, _) =>
    }
  }

  /** The pushed state validates exactly when neither its event, its sequence nor its journal id is taken. */
  lemma PushExact(s: State, e: Outbound, sequence: u64, extra: seq<StoredCommand>)
    requires Inv(s) && Pushable(s, e, sequence, extra)
    ensures Validate(Push(s, e, sequence, extra)) <==>
            Fresh(s, e) && forall c, d :: c in s.journal && d in extra ==> c.commandId != d.commandId
  {
    var t := Push(s, e, sequence, extra);
    PushApart(s.outbox, e);
    PushIdsApart(s.journal, extra);
    PushReports(s, e, sequence, extra);
    assert forall x :: x in t.outbox <==> x in s.outbox || x == e;
    assert forall x :: x in s.outbox ==> EntryValid(s, x) && EntryValid(t, x);
    assert EntryValid(t, e);
    assert forall c :: c in t.journal <==> c in s.journal || c in extra;
    if s.pendingInbound.Some? {
      var p := s.pendingInbound.value;
      var c :| c in s.journal && c.commandId == p.commandId && c.fingerprint == p.fingerprint;
      assert c in t.journal;
      assert PendingValid(t, p);
    }
  }

  // ----- Direct acknowledgements are found by their event id -----

  lemma DirectAckEvent(s: State, e: Outbound, commandId: Text)
    requires Inv(s) && e in s.outbox
    ensures e.eventId == EventId(AckEvent, Direct(commandId)) <==> IsDirectAck(e, commandId)
  {}

  // ----- reject -----

  predicate RefusalTyped(r: Refusal) {
    && r.commandId != [] && r.generation > 0 && r.fence > 0 && r.observedAt >= 0
    && r.fingerprint.Sha256? && r.retainUntil > 0
  }

  lemma RejectExact(s: State, r: Refusal)
    requires Inv(s) && RefusalTyped(r)
    requires |s.outbox| < OUTBOX_LIMIT && |s.journal| < JOURNAL_LIMIT
    ensures Validate(Reject(s, r)) <==>
            !AnswerQueued(s, r.commandId) && !EntryQueued(s, r.commandId) && !SequenceExhausted(s)
    ensures Validate(Reject(s, r)) ==> Inv(Reject(s, r))
  {
    var ack := RejectedAck(s, r);
    var e := AckEntry(EventId(AckEvent, Direct(r.commandId)), ack);
    var c := StoredCommand(r.commandId, r.fingerprint, ack, r.retainUntil);
    var t := Reject(s, r);
    assert t == Push(s, e, SaturatingAdd(s.deviceSequence, 1), [c]);
    PushExact(s, e, SaturatingAdd(s.deviceSequence, 1), [c]);
    forall x | x in s.outbox
      ensures x.eventId == e.eventId <==> IsDirectAck(x, r.commandId)
      ensures Sequence(x) <= s.deviceSequence
    {
      DirectAckEvent(s, x, r.commandId);
      assert EntryValid(s, x);
    }
    assert forall d :: d in [c] <==> d == c;
    if Validate(t) {
      PushedAnswersOwned(s, t, e, c);
    }
  }

  /** The fresh answer takes a sequence number and a command id no one else has. */
  lemma PushedAnswers(s: State, e: Outbound, c: StoredCommand, d: StoredCommand, x: Outbound)
    requires Inv(s) && IsDirectAck(e, c.commandId) && FactOf(e.ack) == FactOf(c.acknowledgement)
    requires Sequence(e) == SaturatingAdd(s.deviceSequence, 1)
    requires !AnswerQueued(s, c.commandId) && !EntryQueued(s, c.commandId)
    requires (d in s.journal && x == e) || (d == c && (x in s.outbox || x == e))
    ensures Answers(d, x)
  {
    if d in s.journal {
      assert Recorded(s, d);
    } else if x in s.outbox {
      assert !IsDirectAck(x, c.commandId);
      assert EntryValid(s, x);
    }
  }

  /** The entry of the fresh answer takes a number past every journalled one. */
  lemma PushedSequences(s: State, t: State, c: StoredCommand)
    requires Inv(s) && t.journal == s.journal + [c] && c.acknowledgement.deviceSequence == SaturatingAdd(s.deviceSequence, 1)
    ensures SequencesApart(t.journal)
    ensures t.deviceSequence == SaturatingAdd(s.deviceSequence, 1) ==> forall d :: d in s.journal ==> Recorded(t, d)
  {
    hide Verify, Answers, RotationOwned;
    forall d | d in s.journal ensures d.acknowledgement.deviceSequence <= s.deviceSequence { assert Recorded(s, d); }
    forall i, j | 0 <= i < j < |t.journal| ensures SequenceApart(t.journal[i], t.journal[j]) {
      assert t.journal[i] == s.journal[i];
      assert s.journal[i] in s.journal;
      if j < |s.journal| { assert t.journal[j] == s.journal[j]; } else { assert t.journal[j] == c; }
    }
    forall d | d in s.journal ensures t.deviceSequence == SaturatingAdd(s.deviceSequence, 1) ==> Recorded(t, d) { assert Recorded(s, d); }
  }

  /** Appending a fresh answer together with its journal entry keeps ownership. */
  lemma PushedAnswersOwned(s: State, t: State, e: Outbound, c: StoredCommand)
    requires Inv(s) && Validate(t)
    requires t == Push(s, e, SaturatingAdd(s.deviceSequence, 1), [c])
    requires e.AckEntry? && CauseOwned(e) && Recorded(t, c)
    requires IsDirectAck(e, c.commandId) && FactOf(e.ack) == FactOf(c.acknowledgement)
    requires Sequence(e) == SaturatingAdd(s.deviceSequence, 1) && Fresh(s, e)
    requires !AnswerQueued(s, c.commandId) && !EntryQueued(s, c.commandId)
    ensures Owned(t)
  {
    hide SequencesApart;
    PushedSequences(s, t, c);
    assert forall x :: x in t.outbox <==> x in s.outbox || x == e;
    assert forall d :: d in t.journal <==> d in s.journal || d == c;
    forall d, x | d in t.journal && x in t.outbox ensures Answers(d, x) {
      if d in s.journal && x in s.outbox {
        assert Answers(d, x);
      } else {
        PushedAnswers(s, e, c, d, x);
      }
    }
    if t.pendingInbound.Some? {
      var p := t.pendingInbound.value;
      var d :| d in s.journal && d.commandId == p.commandId && d.fingerprint == p.fingerprint;
      assert c.commandId != p.commandId;
    }
  }

  // ----- reject_conflicting_replay -----

  /** A conflict's answer is no direct answer, and takes a number no journal entry has. */
  lemma ConflictOwned(s: State, t: State, e: Outbound)
    requires Inv(s) && t == s.(deviceSequence := SaturatingAdd(s.deviceSequence, 1), outbox := s.outbox + [e])
    requires e.AckEntry? && e.ack.eventCause.Conflict? && CauseOwned(e) && Sequence(e) == SaturatingAdd(s.deviceSequence, 1)
    ensures Owned(t)
  {
    hide Verify;
    assert forall x :: x in t.outbox <==> x in s.outbox || x == e;
    forall d, x | d in t.journal && x in t.outbox ensures Answers(d, x) {
      assert Recorded(s, d);
      if x in s.outbox { assert Answers(d, x); }
    }
    assert forall d :: d in t.journal ==> Recorded(s, d) && Recorded(t, d);
  }

  lemma ConflictExact(s: State, commandId: Text, fingerprint: Digest, generation: u64, fence: u64, observedAt: i64)
    requires Inv(s) && |s.outbox| < OUTBOX_LIMIT
    requires commandId != [] && generation > 0 && fence > 0 && observedAt >= 0
    requires !HasConflictingReplay(s.outbox, commandId, fingerprint)
    ensures var t := RejectConflict(s, commandId, fingerprint, generation, fence, observedAt);
      && (Validate(t) <==> !SequenceExhausted(s))
      && (Validate(t) ==> Inv(t))
  {
    var t := RejectConflict(s, commandId, fingerprint, generation, fence, observedAt);
    var e := AckEntry(EventId(RejectedEvent, Conflict(commandId, fingerprint)),
                      ConflictAck(s, commandId, fingerprint, generation, fence, observedAt));
    assert s.journal + [] == s.journal;
    assert t == Push(s, e, SaturatingAdd(s.deviceSequence, 1), []);
    PushExact(s, e, SaturatingAdd(s.deviceSequence, 1), []);
    assert forall x :: x in s.outbox ==> EntryValid(s, x);
    if Validate(t) { ConflictOwned(s, t, e); }
  }

  // ----- replay_command -----

  lemma ReplayExact(s: State, c: StoredCommand)
    requires Inv(s) && |s.outbox| < OUTBOX_LIMIT
    requires c in s.journal && !HasCommandAck(s.outbox, c.commandId)
    ensures Validate(Replay(s, c)) <==>
            !(c.acknowledgement.deviceSequence == U64_MAX && SequenceQueued(s, U64_MAX))
    ensures Validate(Replay(s, c)) ==> Inv(Replay(s, c))
  {
    var t := Replay(s, c);
    var e := AckEntry(EventId(AckEvent, Direct(c.commandId)), ReplayedAck(c.acknowledgement));
    assert Recorded(s, c) && CommandValid(c);
    assert s.journal + [] == s.journal;
    assert t == Push(s, e, s.deviceSequence, []);
    PushExact(s, e, s.deviceSequence, []);
    forall x | x in s.outbox
      ensures x.eventId != e.eventId
      ensures Sequence(x) == Sequence(e) ==> Sequence(e) == U64_MAX
    {
      DirectAckEvent(s, x, c.commandId);
      assert CauseOwned(x) && Answers(c, x);
    }
    assert forall x :: x in t.outbox <==> x in s.outbox || x == e;
    if Validate(t) { ReplayOwned(s, c); }
  }

  lemma ReplayOwned(s: State, c: StoredCommand)
    requires Inv(s) && c in s.journal
    ensures Owned(Replay(s, c))
  {
    var t := Replay(s, c);
    var e := AckEntry(EventId(AckEvent, Direct(c.commandId)), ReplayedAck(c.acknowledgement));
    assert Recorded(s, c) && CommandValid(c);
    assert forall x :: x in t.outbox <==> x in s.outbox || x == e;
    forall d, x | d in t.journal && x in t.outbox ensures Answers(d, x) {
      if x in s.outbox {
        assert Answers(d, x);
      } else if d != c {
        JournalEntriesApart(s, c, d);
      }
    }
    assert forall d :: d in t.journal ==> Recorded(s, d) && Recorded(t, d);
  }

  lemma JournalEntriesApart(s: State, c: StoredCommand, d: StoredCommand)
    requires IdsApart(s.journal) && SequencesApart(s.journal)
    requires c in s.journal && d in s.journal && c != d
    ensures c.commandId != d.commandId && SequenceApart(c, d)
  {}

  // ----- accept -----

  predicate AcceptanceTyped(s: State, a: Acceptance) {
    && a.commandId != [] && a.generation > 0 && a.fence > 0 && a.observedAt >= 0
    && a.fingerprint.Sha256? && a.artifactDigest.Sha256? && a.retainUntil > 0
    && a.credentialGeneration > s.identity.generation
    && s.current.credentialRevision < U64_MAX && a.revision == s.current.credentialRevision + 1
  }

  /** With no rotation in flight nothing queued is a report or activates a revision. */
  lemma NothingInFlight(s: State)
    requires Validate(s) && !RotationInFlight(s)
    ensures s.pendingInbound.None? && s.reconnectRevision.None?
    ensures forall e :: e in s.outbox ==> e.AckEntry? && e.ack.activatesRevision.None?
  {}

  predicate Installable(s: State, a: Acceptance) {
    && !AnswerQueued(s, a.commandId) && !EntryQueued(s, a.commandId)
    && s.deviceSequence <= U64_MAX - 2
    && a.expiresAt > 0
  }

  lemma AcceptExact(s: State, a: Acceptance)
    requires Inv(s) && !RotationInFlight(s) && AcceptanceTyped(s, a)
    requires |s.outbox| + 2 <= OUTBOX_LIMIT && |s.journal| < JOURNAL_LIMIT
    ensures Validate(Accept(s, a)) <==> Installable(s, a)
    ensures Validate(Accept(s, a)) ==> Inv(Accept(s, a))
  {
    NothingInFlight(s);
    if Installable(s, a) {
      AcceptValidates(s, a);
      AcceptOwned(s, a);
    } else {
      AcceptRefused(s, a);
    }
  }

  lemma AcceptApart(s: State, a: Acceptance)
    requires Inv(s) && !RotationInFlight(s) && AcceptanceTyped(s, a) && Installable(s, a)
    ensures EntriesApart(Accept(s, a).outbox) && IdsApart(Accept(s, a).journal)
    ensures AtMostOneReport(Accept(s, a).outbox)
  {
    NothingInFlight(s);
    var t := Accept(s, a);
    var n := |s.outbox|;
    var ackEntry, blocked := t.outbox[n], t.outbox[n + 1];
    forall x | x in s.outbox
      ensures x.eventId != ackEntry.eventId && x.eventId != blocked.eventId
      ensures Sequence(x) < Sequence(ackEntry) < Sequence(blocked)
    {
      DirectAckEvent(s, x, a.commandId);
      assert EntryValid(s, x);
    }
    assert forall i :: 0 <= i < n ==> t.outbox[i] == s.outbox[i] && t.outbox[i] in s.outbox;
    PushIdsApart(s.journal, [t.journal[|s.journal|]]);
  }

  lemma AcceptValidates(s: State, a: Acceptance)
    requires Inv(s) && !RotationInFlight(s) && AcceptanceTyped(s, a) && Installable(s, a)
    requires |s.outbox| + 2 <= OUTBOX_LIMIT && |s.journal| < JOURNAL_LIMIT
    ensures Validate(Accept(s, a))
  {
    NothingInFlight(s);
    AcceptApart(s, a);
    var t := Accept(s, a);
    var n := |s.outbox|;
    var ackEntry, blocked := t.outbox[n], t.outbox[n + 1];
    assert forall x :: x in t.outbox <==> x in s.outbox || x == ackEntry || x == blocked;
    assert IsBlockedFor(blocked, a.revision, a.commandId);
    assert IsActivationFor(ackEntry, a.revision, a.commandId);
    forall x | x in t.outbox ensures EntryValid(t, x) && PhaseValid(t, x) {
      if x in s.outbox { assert EntryValid(s, x); }
    }
    var c := t.journal[|s.journal|];
    assert forall d :: d in t.journal <==> d in s.journal || d == c;
    assert c in t.journal && c.commandId == a.commandId && c.fingerprint == a.fingerprint;
    assert PendingValid(t, t.pendingInbound.value);
    assert blocked in t.outbox && IsReport(blocked);
  }

  lemma AcceptOwned(s: State, a: Acceptance)
    requires Inv(s) && !RotationInFlight(s) && AcceptanceTyped(s, a) && Installable(s, a)
    ensures Owned(Accept(s, a))
  {
    NothingInFlight(s);
    var t := Accept(s, a);
    var n := |s.outbox|;
    var ackEntry, blocked := t.outbox[n], t.outbox[n + 1];
    var c := t.journal[|s.journal|];
    assert forall x :: x in t.outbox <==> x in s.outbox || x == ackEntry || x == blocked;
    assert forall d :: d in t.journal <==> d in s.journal || d == c;
    forall d | d in t.journal ensures Recorded(t, d) {
      if d in s.journal { assert Recorded(s, d); }
    }
    forall d, x | d in t.journal && x in t.outbox ensures Answers(d, x) {
      if d in s.journal {
        assert Recorded(s, d) && d.commandId != a.commandId;
        if x in s.outbox { assert Answers(d, x); }
      } else if x in s.outbox {
        assert EntryValid(s, x) && !IsDirectAck(x, a.commandId);
      }
    }
    forall i, j | 0 <= i < j < |t.journal|
      ensures SequenceApart(t.journal[i], t.journal[j])
    {
      assert t.journal[i] == s.journal[i] && Recorded(s, s.journal[i]);
      if j < |s.journal| { assert t.journal[j] == s.journal[j]; } else { assert t.journal[j] == c; }
    }
    assert forall x :: x in s.outbox ==> CauseOwned(x);
    assert forall x :: x in t.outbox && IsReport(x) ==> x == blocked;
    assert forall d :: d in t.journal && d.commandId == a.commandId ==> d == c;
  }

  lemma AcceptRefused(s: State, a: Acceptance)
    requires Inv(s) && !RotationInFlight(s) && AcceptanceTyped(s, a) && !Installable(s, a)
    ensures !Validate(Accept(s, a))
  {
    var t := Accept(s, a);
    var n := |s.outbox|;
    assert forall i :: 0 <= i < n ==> t.outbox[i] == s.outbox[i];
    if AnswerQueued(s, a.commandId) {
      var x :| x in s.outbox && IsDirectAck(x, a.commandId);
      DirectAckEvent(s, x, a.commandId);
      var i :| 0 <= i < n && s.outbox[i] == x;
      assert t.outbox[i].eventId == t.outbox[n].eventId;
    } else if EntryQueued(s, a.commandId) {
      var c :| c in s.journal && c.commandId == a.commandId;
      var i :| 0 <= i < |s.journal| && s.journal[i] == c;
      assert t.journal[i] == c && t.journal[|s.journal|].commandId == a.commandId;
    } else if s.deviceSequence > U64_MAX - 2 {
      assert Sequence(t.outbox[n]) == Sequence(t.outbox[n + 1]) == U64_MAX;
    }
  }

  // ----- confirm_outbound -----

  /** At most one queued acknowledgement activates a revision. */
  lemma OneActivation(s: State, x: Outbound, y: Outbound)
    requires Inv(s) && x in s.outbox && y in s.outbox
    requires x.AckEntry? && y.AckEntry? && x.ack.activatesRevision.Some? && y.ack.activatesRevision.Some?
    ensures x == y
  {}

  lemma SameReport(s: State, b: Outbound, d: Outbound)
    requires AtMostOneReport(s.outbox) && b in s.outbox && d in s.outbox && IsReport(b) && IsReport(d)
    ensures b == d
  {}

  lemma SameEntry(s: State, x: Outbound, y: Outbound)
    requires EntriesApart(s.outbox) && x in s.outbox && y in s.outbox && x.eventId == y.eventId
    ensures x == y
  {}

  /** Removing the entry at `index` leaves exactly the other entries. */
  lemma RemovedMembers(s: State, index: nat)
    requires EntriesApart(s.outbox) && index < |s.outbox|
    ensures var rest := RemoveAt(s.outbox, index);
      && EntriesApart(rest)
      && forall x :: x in rest <==> x in s.outbox && x != s.outbox[index]
  {}

  lemma RemovedReports(s: State, index: nat)
    requires AtMostOneReport(s.outbox) && index < |s.outbox|
    ensures AtMostOneReport(RemoveAt(s.outbox, index))
  {}

  /** Removing an entry that is neither a report nor an activation changes no phase. */
  lemma ConfirmQuietAck(s: State, index: nat)
    requires Inv(s) && index < |s.outbox|
    requires s.outbox[index].AckEntry? && s.outbox[index].ack.activatesRevision.None?
    ensures Inv(Confirmed(s, index))
  {
    RemovedMembers(s, index);
    RemovedReports(s, index);
    var t := Confirmed(s, index);
    assert HasReport(t.outbox) == HasReport(s.outbox);
    forall x | x in t.outbox ensures EntryValid(t, x) && PhaseValid(t, x) {
      assert EntryValid(s, x) && PhaseValid(s, x);
      match x
      case AckEntry(_, a) =>
        if a.activatesRevision.Some? {
          assert HasBlockedFor(t.outbox, a.activatesRevision.value, a.commandId);
        }
      case ReportBlocked(_, r) =>
        assert HasActivationFor(t.outbox, r.credentialRevision, r.commandId)
          == HasActivationFor(s.outbox, r.credentialRevision, r.commandId);
      case ReportReady(_, _) =>
    }
    RemovedOwned(s, t);
  }

  lemma RemovedOwned(s: State, t: State)
    requires Inv(s)
    requires forall x :: x in t.outbox ==> x in s.outbox
    requires t.journal == s.journal && t.deviceSequence == s.deviceSequence
    requires t.identity == s.identity && t.current == s.current
    requires t.pendingInbound == s.pendingInbound || t.pendingInbound.None?
    ensures Owned(t)
  {}

  /** The blocked report an activating acknowledgement waits for is the report in flight. */
  lemma ActivationReport(s: State, e: Outbound) returns (b: Outbound)
    requires Inv(s) && e in s.outbox && e.AckEntry? && e.ack.activatesRevision.Some?
    ensures b in s.outbox && IsBlockedFor(b, s.current.credentialRevision, e.ack.commandId)
    ensures e.ack.activatesRevision.value == s.current.credentialRevision
    ensures forall x :: x in s.outbox && IsReport(x) ==> x == b
    ensures s.reconnectRevision.None?
  {
    assert PhaseValid(s, e);
    b :| b in s.outbox && IsBlockedFor(b, e.ack.activatesRevision.value, e.ack.commandId);
    forall x | x in s.outbox && IsReport(x) ensures x == b { SameReport(s, x, b); }
  }

  lemma ActivationPhases(s: State, t: State, e: Outbound)
    requires Inv(s) && e in s.outbox && e.AckEntry? && e.ack.activatesRevision.Some?
    requires forall x :: x in t.outbox <==> x in s.outbox && x != e
    requires t.reconnectRevision == Some(s.current.credentialRevision) && t.current == s.current
    ensures forall x :: x in t.outbox ==> PhaseValid(t, x)
    ensures HasReport(t.outbox)
  {
    var b := ActivationReport(s, e);
    assert b in t.outbox && IsReport(b);
    forall x | x in t.outbox ensures PhaseValid(t, x) {
      if x.AckEntry? {
        if x.ack.activatesRevision.Some? { OneActivation(s, x, e); }
      } else {
        assert x == b;
        if HasActivationFor(t.outbox, b.report.credentialRevision, b.report.commandId) {
          var y :| y in t.outbox && IsActivationFor(y, b.report.credentialRevision, b.report.commandId);
          OneActivation(s, y, e);
        }
      }
    }
  }

  /** Confirming the activating acknowledgement moves the rotation to its reconnect phase. */
  lemma ConfirmActivation(s: State, index: nat)
    requires Inv(s) && index < |s.outbox|
    requires s.outbox[index].AckEntry? && s.outbox[index].ack.activatesRevision.Some?
    ensures Inv(Confirmed(s, index))
    ensures Confirmed(s, index).reconnectRevision == Some(s.current.credentialRevision)
  {
    RemovedMembers(s, index);
    RemovedReports(s, index);
    var t := Confirmed(s, index);
    var e := s.outbox[index];
    var b := ActivationReport(s, e);
    assert b in t.outbox && b.ReportBlocked?;
    ActivationPhases(s, t, e);
    forall x | x in t.outbox ensures EntryValid(t, x) { assert EntryValid(s, x); }
    RemovedOwned(s, t);
  }

  lemma ConfirmReady(s: State, index: nat)
    requires Inv(s) && index < |s.outbox| && s.outbox[index].ReportReady?
    ensures Inv(Confirmed(s, index))
    ensures !RotationInFlight(Confirmed(s, index))
  {
    RemovedMembers(s, index);
    RemovedReports(s, index);
    var t := Confirmed(s, index);
    var e := s.outbox[index];
    assert PhaseValid(s, e);
    forall x | x in t.outbox ensures x.AckEntry? {
      if IsReport(x) { SameReport(s, x, e); }
    }
    forall x | x in t.outbox ensures EntryValid(t, x) && PhaseValid(t, x) {
      assert EntryValid(s, x) && PhaseValid(s, x);
      if x.ack.activatesRevision.Some? {
        var b :| b in s.outbox && IsBlockedFor(b, x.ack.activatesRevision.value, x.ack.commandId);
        SameReport(s, b, e);
      }
    }
    RemovedOwned(s, t);
  }

  lemma ConfirmBlocked(s: State, index: nat)
    requires Inv(s) && index < |s.outbox| && s.outbox[index].ReportBlocked?
    ensures !Validate(Confirmed(s, index))
  {
    RemovedMembers(s, index);
    var t := Confirmed(s, index);
    var e := s.outbox[index];
    if HasReport(t.outbox) {
      var x :| x in t.outbox && IsReport(x);
      SameReport(s, x, e);
    }
    assert e in s.outbox && IsReport(e);
  }

  /** A confirmation commits exactly for an entry `next_outbound` may hand out. */
  lemma ConfirmExact(s: State, id: EventId)
    requires Inv(s)
    ensures ConfirmOutbound(s, id).outcome == Done <==>
            exists e :: e in s.outbox && e.eventId == id && Publishable(s, e)
    ensures ConfirmOutbound(s, id).outcome == Refused(InvalidState) <==>
            exists e :: e in s.outbox && e.eventId == id && e.ReportBlocked?
    ensures Inv(ConfirmOutbound(s, id).state)
  {
    var index := PositionOf(s.outbox, id);
    if index == |s.outbox| {
      assert forall e :: e in s.outbox ==> e.eventId != id;
    } else {
      var e := s.outbox[index];
      forall x | x in s.outbox && x.eventId == id ensures x == e { SameEntry(s, x, e); }
      match e
      case AckEntry(_, a) =>
        if a.activatesRevision.Some? { ConfirmActivation(s, index); } else { ConfirmQuietAck(s, index); }
      case ReportBlocked(_, _) => ConfirmBlocked(s, index);
      case ReportReady(_, _) => ConfirmReady(s, index);
    }
  }

  // ----- mark_reconnected and mark_inbound_settled -----

  lemma ReleasedMembers(s: State, t: State)
    requires |t.outbox| == |s.outbox|
    requires forall k :: 0 <= k < |s.outbox| ==> t.outbox[k] == Released(s.outbox[k])
    ensures forall x :: x in t.outbox ==> exists y :: y in s.outbox && x == Released(y)
    ensures forall y :: y in s.outbox ==> Released(y) in t.outbox
    ensures HasReport(t.outbox) == HasReport(s.outbox)
  {}

  lemma ReleasedValidates(s: State, t: State)
    requires Inv(s) && s.reconnectRevision.Some?
    requires MarkReconnected(s, s.reconnectRevision.value) == Some(t)
    ensures Validate(t)
  {
    ReleasedMembers(s, t);
    forall x | x in t.outbox ensures EntryValid(t, x) && PhaseValid(t, x) {
      var y :| y in s.outbox && x == Released(y);
      assert EntryValid(s, y) && PhaseValid(s, y);
    }
    assert PendingValid(t, t.pendingInbound.value);
  }

  lemma ReleasedOwned(s: State, t: State)
    requires Inv(s) && s.reconnectRevision.Some?
    requires MarkReconnected(s, s.reconnectRevision.value) == Some(t)
    ensures Owned(t)
  {
    hide Verify;
    ReleasedMembers(s, t);
    forall d | d in t.journal ensures Recorded(t, d) { assert Recorded(s, d); }
    forall x | x in t.outbox
      ensures CauseOwned(x)
      ensures forall d :: d in t.journal ==> Answers(d, x)
      ensures IsReport(x) ==> exists y :: y in s.outbox && IsReport(y) && y.report == x.report
    {
      var y :| y in s.outbox && x == Released(y);
      assert CauseOwned(y);
      forall d | d in t.journal ensures Answers(d, x) { assert Answers(d, y); }
    }
  }

  lemma ReconnectExact(s: State, revision: u64)
    requires Inv(s)
    ensures CredentialConnected(s, revision).outcome ==
            if s.reconnectRevision == Some(revision) then Done else Refused(UnexpectedReconnect)
    ensures Inv(CredentialConnected(s, revision).state)
  {
    if s.reconnectRevision == Some(revision) {
      var t := MarkReconnected(s, revision).value;
      ReleasedValidates(s, t);
      ReleasedOwned(s, t);
    }
  }

  lemma SettleExact(s: State, token: Option<Token>)
    requires Inv(s)
    ensures InboundSettled(s, token).outcome ==
            if s.pendingInbound.Some? && (token.Some? ==> token.value == s.pendingInbound.value.token)
            then Done else Refused(UnexpectedDelivery)
    ensures Inv(InboundSettled(s, token).state)
  {
    hide Verify, Owned;
    var candidate := MarkSettled(s, token);
    if candidate.Some? { SettledKeeps(s, candidate.value); }
  }

  lemma SettledKeeps(s: State, t: State)
    requires Inv(s) && s.pendingInbound.Some? && t == s.(pendingInbound := Some(s.pendingInbound.value.(settled := true)))
    ensures Inv(t)
  {
    var p := s.pendingInbound.value;
    var c :| c in s.journal && c.commandId == p.commandId && c.fingerprint == p.fingerprint;
    assert c in t.journal;
    assert PendingValid(t, t.pendingInbound.value);
    assert forall x :: x in t.outbox ==> EntryValid(s, x) && PhaseValid(s, x);
    assert forall x :: x in t.outbox ==> EntryValid(t, x) && PhaseValid(t, x);
    SettledOwned(s, t);
  }

  lemma SettledOwned(s: State, t: State)
    requires Owned(s) && s.pendingInbound.Some? && t == s.(pendingInbound := Some(s.pendingInbound.value.(settled := true)))
    ensures Owned(t)
  {
    assert forall d :: d in t.journal ==> Recorded(s, d) && Recorded(t, d);
  }
}
