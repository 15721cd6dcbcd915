/** Over any run the outbox is what was pushed minus what was confirmed, in push order. */
module Conservation {
  import opened Bytes
  import opened Rotation
  import opened RotationInvariant
  import opened Operations
  import opened Runs

  /** Entries up to the release of a report, which changes its phase and not its content. */
  function Contents(outbox: seq<Outbound>): (r: seq<Outbound>)
    ensures |r| == |outbox| && forall i :: 0 <= i < |r| ==> r[i] == Released(outbox[i])
  {
    seq(|outbox|, i requires 0 <= i < |outbox| => Released(outbox[i]))
  }

  /** Everything the run appended to the outbox, oldest first. */
  function Pushed(s: State, retention: u64, events: seq<Event>): seq<Outbound>
    decreases |events|
  {
    if events == [] then []
    else
      var n := |events| - 1;
      var before := After(s, retention, events[..n]);
      var after := After(s, retention, events);
      Pushed(s, retention, events[..n]) +
      (if IsDelivery(events[n]) && |before.outbox| <= |after.outbox|
       then Contents(after.outbox[|before.outbox|..]) else [])
  }

  /** Everything the broker confirmed, oldest first. */
  function Removed(s: State, retention: u64, events: seq<Event>): seq<Outbound>
    decreases |events|
  {
    if events == [] then []
    else
      var n := |events| - 1;
      var before := After(s, retention, events[..n]);
      Removed(s, retention, events[..n]) +
      (if events[n].BrokerConfirmed? && OutcomeAt(s, retention, events, n) == Done
          && PositionOf(before.outbox, events[n].eventId) < |before.outbox|
       then [Released(before.outbox[PositionOf(before.outbox, events[n].eventId)])] else [])
  }

  lemma DeliveryAppends(s: State, retention: u64, e: Event)
    requires Inv(s) && retention > 0 && WellTyped(e) && IsDelivery(e)
    ensures s.outbox <= Next(s, retention, e).state.outbox
  {
    hide Verify, Owned, Next;
    var f := EffectOf(s, retention, e);
  }

  /** What the other calls do to the contents of the outbox. */
  lemma SettlementContents(s: State, retention: u64, e: Event)
    requires Inv(s) && !IsDelivery(e)
    ensures var step := Next(s, retention, e);
      if e.BrokerConfirmed? && step.outcome == Done then
        && PositionOf(s.outbox, e.eventId) < |s.outbox|
        && Contents(step.state.outbox) == RemoveAt(Contents(s.outbox), PositionOf(s.outbox, e.eventId))
      else Contents(step.state.outbox) == Contents(s.outbox)
  {
    hide Verify, Owned;
  }

  lemma RemoveAtCounts<T>(s: seq<T>, index: nat)
    requires index < |s|
    ensures multiset(s) == multiset(RemoveAt(s, index)) + multiset{s[index]}
  {
    assert s == s[..index] + [s[index]] + s[index + 1..];
  }

  /** Nothing is lost and nothing is invented: pushed is queued plus confirmed, entry by entry. */
  lemma {:induction false} OutboxConserved(s: State, retention: u64, events: seq<Event>)
    requires Initial(s) && retention > 0 && AllTyped(events)
    ensures multiset(Pushed(s, retention, events))
         == multiset(Contents(After(s, retention, events).outbox)) + multiset(Removed(s, retention, events))
    ensures |After(s, retention, events).outbox| <= OUTBOX_LIMIT
    decreases |events|
  {
    hide Inv, Next, Contents, WellTyped, EntryValid, PhaseValid, CauseOwned, EntriesApart, AtMostOneReport, HasReport, ReportOwned;
    InitialInvariant(s);
    RunKeepsInvariant(s, retention, events);
    InvariantParts(After(s, retention, events));
    if events != [] {
      var n := |events| - 1;
      OutboxConserved(s, retention, events[..n]);
      RunKeepsInvariant(s, retention, events[..n]);
      var before := After(s, retention, events[..n]);
      var after := After(s, retention, events);
      if IsDelivery(events[n]) {
        DeliveryAppends(before, retention, events[n]);
        AppendConserves(before.outbox, after.outbox, Pushed(s, retention, events[..n]), Removed(s, retention, events[..n]));
      } else {
        SettlementContents(before, retention, events[n]);
        if events[n].BrokerConfirmed? && OutcomeAt(s, retention, events, n) == Done {
          RemoveConserves(before.outbox, after.outbox, Pushed(s, retention, events[..n]), Removed(s, retention, events[..n]),
                          PositionOf(before.outbox, events[n].eventId));
        }
      }
    }
  }

  lemma RemoveConserves(before: seq<Outbound>, after: seq<Outbound>, pushed: seq<Outbound>, removed: seq<Outbound>, index: nat)
    requires index < |before| && Contents(after) == RemoveAt(Contents(before), index)
    requires multiset(pushed) == multiset(Contents(before)) + multiset(removed)
    ensures multiset(pushed + []) == multiset(Contents(after)) + multiset(removed + [Released(before[index])])
  {
    RemoveAtCounts(Contents(before), index);
    assert pushed + [] == pushed;
  }

  lemma AppendConserves(before: seq<Outbound>, after: seq<Outbound>, pushed: seq<Outbound>, removed: seq<Outbound>)
    requires before <= after
    requires multiset(pushed) == multiset(Contents(before)) + multiset(removed)
    ensures multiset(pushed + Contents(after[|before|..])) == multiset(Contents(after)) + multiset(removed)
  {
    assert Contents(after) == Contents(before) + Contents(after[|before|..]);
  }

  predicate Increasing(at: seq<nat>) {
    forall i, j :: 0 <= i < j < |at| ==> at[i] < at[j]
  }

  /** The queued entries sit in push order: each at its place in the log of pushes. */
  lemma {:induction false} OutboxKeepsPushOrder(s: State, retention: u64, events: seq<Event>) returns (at: seq<nat>)
    requires Initial(s) && retention > 0 && AllTyped(events)
    ensures Placed(After(s, retention, events).outbox, Pushed(s, retention, events), at)
    decreases |events|
  {
    if events == [] {
      at := [];
    } else {
      hide Verify, Owned, Next, Placed, Contents;
      var n := |events| - 1;
      InitialInvariant(s);
      RunKeepsInvariant(s, retention, events[..n]);
      var earlier := OutboxKeepsPushOrder(s, retention, events[..n]);
      var before := After(s, retention, events[..n]);
      var after := After(s, retention, events);
      if IsDelivery(events[n]) {
        DeliveryAppends(before, retention, events[n]);
        at := AppendOrder(before.outbox, after.outbox, Pushed(s, retention, events[..n]), earlier);
      } else {
        SettlementContents(before, retention, events[n]);
        if events[n].BrokerConfirmed? && OutcomeAt(s, retention, events, n) == Done {
          at := RemoveOrder(before.outbox, after.outbox, Pushed(s, retention, events[..n]), earlier,
                            PositionOf(before.outbox, events[n].eventId));
        } else {
          at := earlier;
          KeepOrder(before.outbox, after.outbox, Pushed(s, retention, events[..n]), earlier);
        }
      }
    }
  }

  /** What is handed out is the oldest entry that may be published, so acknowledgements leave in push order. */
  lemma {:induction false} OldestIsHandedOut(s: State, entries: seq<Outbound>) returns (i: nat)
    requires FirstPublishable(s, entries).Some?
    ensures i < |entries| && entries[i] == FirstPublishable(s, entries).value
    ensures forall k :: 0 <= k < i ==> !Publishable(s, entries[k]) && !entries[k].AckEntry?
  {
    if Publishable(s, entries[0]) {
      i := 0;
    } else {
      var j := OldestIsHandedOut(s, entries[1..]);
      i := j + 1;
    }
  }

  predicate Placed(outbox: seq<Outbound>, pushed: seq<Outbound>, at: seq<nat>) {
    && |at| == |outbox| && Increasing(at)
    && forall k :: 0 <= k < |at| ==> at[k] < |pushed| && pushed[at[k]] == Contents(outbox)[k]
  }

  lemma RemoveOrder(before: seq<Outbound>, after: seq<Outbound>, pushed: seq<Outbound>, earlier: seq<nat>, index: nat)
    returns (at: seq<nat>)
    requires index < |before| && Placed(before, pushed, earlier)
    requires Contents(after) == RemoveAt(Contents(before), index)
    ensures Placed(after, pushed + [], at)
  {
    at := RemoveAt(earlier, index);
  }

  lemma KeepOrder(before: seq<Outbound>, after: seq<Outbound>, pushed: seq<Outbound>, at: seq<nat>)
    requires Placed(before, pushed, at) && Contents(after) == Contents(before)
    ensures Placed(after, pushed + [], at)
  {}

  lemma AppendOrder(before: seq<Outbound>, after: seq<Outbound>, pushed: seq<Outbound>, earlier: seq<nat>)
    returns (at: seq<nat>)
    requires before <= after && Placed(before, pushed, earlier)
    ensures Placed(after, pushed + Contents(after[|before|..]), at)
  {
    at := earlier + seq(|after| - |before|, i requires i >= 0 => |pushed| + i);
    var added := Contents(after[|before|..]);
    forall k | 0 <= k < |at| ensures at[k] < |pushed + added| && (pushed + added)[at[k]] == Contents(after)[k] {
      if k >= |before| {
        assert at[k] == |pushed| + (k - |before|);
        assert after[|before|..][k - |before|] == after[k];
      } else {
        assert before[k] == after[k];
      }
    }
  }
}
