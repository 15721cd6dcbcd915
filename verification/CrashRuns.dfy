/**
 Runs over the store: calls that complete, calls cut short, process stops and power losses, in any
 order, over directories left behind by earlier ones. What runs is always what some of the calls of
 the run, performed in order, lead to.
 */
module CrashRuns {
  import opened Bytes
  import opened Identities
  import opened Rotation
  import opened RotationInvariant
  import opened Operations
  import opened Runs
  import opened Preimages
  import opened FileSystem
  import opened CrashStore

  // ----- What survives of a run -----

  /** `kept` is what is left of `log` after dropping some of its calls. */
  predicate Among(kept: seq<Event>, log: seq<Event>)
    decreases |log|
  {
    if log == [] then kept == []
    else
      var n := |log| - 1;
      || Among(kept, log[..n])
      || (kept != [] && kept[|kept| - 1] == log[n] && Among(kept[..|kept| - 1], log[..n]))
  }

  /** Some of the calls of the log, performed in order, lead from `s` to `t`. */
  ghost predicate Traced(s: State, retention: u64, log: seq<Event>, t: State) {
    exists kept: seq<Event> :: Among(kept, log) && AllTyped(kept) && After(s, retention, kept) == t
  }

  lemma TracedNothing(s: State, retention: u64)
    ensures Traced(s, retention, [], s)
  {
    assert Among([], []) && AllTyped([]) && After(s, retention, []) == s;
  }

  lemma AmongNext(kept: seq<Event>, log: seq<Event>, e: Event)
    requires Among(kept, log)
    ensures Among(kept, log + [e]) && Among(kept + [e], log + [e])
  {
    hide WellTyped;
    var all, longer := log + [e], kept + [e];
    assert all[..|all| - 1] == log && longer[..|longer| - 1] == kept && longer[|longer| - 1] == e;
  }

  lemma AfterNext(s: State, retention: u64, kept: seq<Event>, e: Event)
    ensures After(s, retention, kept + [e]) == Next(After(s, retention, kept), retention, e).state
  {
    hide Next;
    assert (kept + [e])[..|kept|] == kept;
  }

  lemma TracedNext(s: State, retention: u64, log: seq<Event>, t: State, e: Event)
    requires Traced(s, retention, log, t) && WellTyped(e)
    ensures Traced(s, retention, log + [e], t)
    ensures Traced(s, retention, log + [e], Next(t, retention, e).state)
  {
    hide Next, Among, After, WellTyped;
    var kept :| Among(kept, log) && AllTyped(kept) && After(s, retention, kept) == t;
    AmongNext(kept, log, e);
    AfterNext(s, retention, kept, e);
    assert AllTyped(kept + [e]);
  }

  lemma TracedInv(s: State, retention: u64, log: seq<Event>, t: State)
    requires Inv(s) && retention > 0 && Traced(s, retention, log, t)
    ensures Inv(t)
  {
    var kept :| Among(kept, log) && AllTyped(kept) && After(s, retention, kept) == t;
    RunKeepsInvariant(s, retention, kept);
  }

  /** Where the calls that were kept stand in the log. */
  lemma {:induction false} Positions(kept: seq<Event>, log: seq<Event>) returns (at: seq<nat>)
    requires Among(kept, log)
    ensures |at| == |kept| && forall i :: 0 <= i < |at| ==> at[i] < |log| && log[at[i]] == kept[i]
    ensures forall i, j :: 0 <= i < j < |at| ==> at[i] < at[j]
    decreases |log|
  {
    if log == [] {
      at := [];
    } else {
      var n := |log| - 1;
      if Among(kept, log[..n]) {
        at := Positions(kept, log[..n]);
      } else {
        var earlier := Positions(kept[..|kept| - 1], log[..n]);
        at := earlier + [n];
      }
    }
  }

  // ----- Steps -----

  datatype Moment = Moment(disk: Disk, state: State)

  /** The call completes: its steps are all performed, unless the installation was refused. */
  predicate Completes(now: Moment, retention: u64, e: Event, m: Material, next: Moment) {
    exists writes: bool ::
      && WritesFit(now.state, Next(now.state, retention, e), writes)
      && next.disk == PerformAll(now.disk, CallActions(now.disk, now.state, retention, e, m, writes))
      && next.state == if Conflicted(now.disk, now.state, e, m) then now.state else Next(now.state, retention, e).state
  }

  /** The call is cut after any of its steps, the process stops or the power fails, and a start succeeds. */
  predicate Restarts(now: Moment, retention: u64, e: Event, m: Material, next: Moment) {
    exists writes: bool, k: nat ::
      && WritesFit(now.state, Next(now.state, retention, e), writes)
      && k <= |CallActions(now.disk, now.state, retention, e, m, writes)|
      && Interrupts(PerformAll(now.disk, CallActions(now.disk, now.state, retention, e, m, writes)[..k]), next.disk)
      && Open(next.disk, now.state.identity) == Running(next.state)
  }

  predicate Attempt(now: Moment, retention: u64, e: Event, m: Material, next: Moment) {
    Supplies(e, m) && (Completes(now, retention, e, m, next) || Restarts(now, retention, e, m, next))
  }

  predicate CrashRun(retention: u64, events: seq<Event>, materials: seq<Material>, moments: seq<Moment>) {
    && |materials| == |events| && |moments| == |events| + 1 && AllTyped(events)
    && forall i :: 0 <= i < |events| ==> Attempt(moments[i], retention, events[i], materials[i], moments[i + 1])
  }

  lemma RunTail(retention: u64, events: seq<Event>, materials: seq<Material>, moments: seq<Moment>, i: nat, j: nat)
    requires CrashRun(retention, events, materials, moments) && i <= j <= |events|
    ensures CrashRun(retention, events[i..j], materials[i..j], moments[i..j + 1])
  {
    hide Attempt;
  }

  // ----- Where a run starts -----

  /** Whatever can come back is a state the invariant covers, and what runs is served by the disk. */
  ghost predicate Sound(now: Moment) {
    Serves(now.disk, now.state) && forall x :: MayKeep(now.disk, x) ==> x.Some? && Inv(x.value)
  }

  /** Nothing but the running state can come back. */
  ghost predicate Pinned(now: Moment) {
    && Inv(now.state) && Serves(now.disk, now.state)
    && forall x :: MayKeep(now.disk, x) ==> x == Some(now.state)
  }

  lemma PinnedIsSound(now: Moment)
    requires Pinned(now)
    ensures Sound(now)
  {}

  /** Some of the calls of the log, performed in order, lead to `t` from a state that could come back at the start. */
  ghost predicate Stems(start: Disk, retention: u64, log: seq<Event>, t: State) {
    exists s :: MayKeep(start, Some(s)) && Traced(s, retention, log, t)
  }

  lemma StemsNext(start: Disk, retention: u64, log: seq<Event>, t: State, e: Event)
    requires Stems(start, retention, log, t) && WellTyped(e)
    ensures Stems(start, retention, log + [e], t)
    ensures Stems(start, retention, log + [e], Next(t, retention, e).state)
  {
    hide Next, Traced, MayKeep;
    var s :| MayKeep(start, Some(s)) && Traced(s, retention, log, t);
    TracedNext(s, retention, log, t, e);
  }

  lemma StemsFromPinned(now: Moment, retention: u64, log: seq<Event>, t: State)
    requires Pinned(now) && Stems(now.disk, retention, log, t)
    ensures Traced(now.state, retention, log, t)
  {
    hide Traced, Inv, Serves;
  }

  /** Whatever can come back stems from the start, and what runs is served by the disk. */
  ghost predicate Grounded(start: Disk, retention: u64, log: seq<Event>, now: Moment) {
    && Serves(now.disk, now.state)
    && forall x :: MayKeep(now.disk, x) ==> x.Some? && Stems(start, retention, log, x.value)
  }

  lemma SoundGrounds(now: Moment, retention: u64)
    requires Sound(now)
    ensures Grounded(now.disk, retention, [], now)
  {
    hide Serves, Inv, Traced;
    forall x | MayKeep(now.disk, x) ensures Stems(now.disk, retention, [], x.value) { TracedNothing(x.value, retention); }
  }

  lemma GroundedParts(start: Moment, retention: u64, log: seq<Event>, now: Moment)
    requires Sound(start) && retention > 0 && Grounded(start.disk, retention, log, now)
    ensures Stems(start.disk, retention, log, now.state) && Sound(now) && Inv(now.state)
  {
    hide Traced, Inv, Serves;
    forall x | MayKeep(now.disk, x) ensures Inv(x.value) {
      var s :| MayKeep(start.disk, Some(s)) && Traced(s, retention, log, x.value);
      TracedInv(s, retention, log, x.value);
    }
    assert MayKeep(now.disk, Some(now.state)) by { ServesItsState(now.disk, now.state); }
  }

  lemma ServesItsState(d: Disk, s: State)
    requires Serves(d, s)
    ensures MayKeep(d, Some(s))
  {
    hide Validate, Holds;
  }

  // ----- One step -----

  lemma AttemptStaysGrounded(start: Moment, retention: u64, log: seq<Event>, now: Moment, e: Event, m: Material, next: Moment)
    requires Sound(start) && retention > 0 && WellTyped(e) && Grounded(start.disk, retention, log, now)
    requires Attempt(now, retention, e, m, next)
    ensures Grounded(start.disk, retention, log + [e], next)
  {
    hide Next, Inv, Sound, Grounded, Stems, Serves, CallActions, PerformAll, Open, Interrupts, Supplies, Completes, Restarts;
    GroundedParts(start, retention, log, now);
    StemsNext(start.disk, retention, log, now.state, e);
    GroundedLonger(start.disk, retention, log, now, e);
    if Completes(now, retention, e, m, next) {
      CompletionStaysGrounded(start.disk, retention, log + [e], now, e, m, next);
    } else {
      RestartStaysGrounded(start.disk, retention, log + [e], now, e, m, next);
    }
  }

  lemma GroundedLonger(start: Disk, retention: u64, log: seq<Event>, now: Moment, e: Event)
    requires Grounded(start, retention, log, now) && WellTyped(e)
    ensures Grounded(start, retention, log + [e], now)
  {
    hide Stems, Serves;
    forall x | MayKeep(now.disk, x) ensures x.Some? && Stems(start, retention, log + [e], x.value) {
      StemsNext(start, retention, log, x.value, e);
    }
  }

  lemma CompletionStaysGrounded(start: Disk, retention: u64, log: seq<Event>, now: Moment, e: Event, m: Material, next: Moment)
    requires Inv(now.state) && retention > 0 && WellTyped(e) && Supplies(e, m) && Grounded(start, retention, log, now)
    requires Completes(now, retention, e, m, next) && Stems(start, retention, log, Next(now.state, retention, e).state)
    ensures Grounded(start, retention, log, next)
  {
    hide Next, Verify, Owned, Stems, Serves, PerformAll, Supplies, ReachesInstall, Inv, InstallSteps;
    var writes :| WritesFit(now.state, Next(now.state, retention, e), writes)
      && next.disk == PerformAll(now.disk, CallActions(now.disk, now.state, retention, e, m, writes));
    if Conflicted(now.disk, now.state, e, m) {
      PerformNothing(now.disk);
    } else {
      CompletedServes(now.disk, now.state, retention, e, m, writes);
    }
  }

  lemma RestartStaysGrounded(start: Disk, retention: u64, log: seq<Event>, now: Moment, e: Event, m: Material, next: Moment)
    requires Inv(now.state) && retention > 0 && WellTyped(e) && Supplies(e, m) && Grounded(start, retention, log, now)
    requires Restarts(now, retention, e, m, next) && Stems(start, retention, log, Next(now.state, retention, e).state)
    ensures Grounded(start, retention, log, next)
  {
    hide Next, Verify, Owned, Stems, PerformAll, Supplies, CallActions, Inv, Interrupts, Validate, Holds;
    var writes, k: nat :| WritesFit(now.state, Next(now.state, retention, e), writes)
      && k <= |CallActions(now.disk, now.state, retention, e, m, writes)|
      && Interrupts(PerformAll(now.disk, CallActions(now.disk, now.state, retention, e, m, writes)[..k]), next.disk)
      && Open(next.disk, now.state.identity) == Running(next.state);
    CutReopens(now.disk, now.state, retention, e, m, writes, k, next.disk);
  }

  // ----- Runs -----

  /**
   From any sound moment on, whatever is cut, wherever the process stops or the power fails, over orphans
   or not: what runs, and what may come back, is what some of the calls since then lead to in order from
   a state that could come back at the start, and it never runs without its material. From a pinned
   moment it is what they lead to from the state that ran: what was done before is never undone.
   */
  lemma {:induction false} CrashesRefineRuns(retention: u64, events: seq<Event>, materials: seq<Material>, moments: seq<Moment>)
    requires retention > 0 && CrashRun(retention, events, materials, moments) && Sound(moments[0])
    ensures Grounded(moments[0].disk, retention, events, moments[|events|])
    ensures Stems(moments[0].disk, retention, events, moments[|events|].state)
    ensures Pinned(moments[0]) ==> Traced(moments[0].state, retention, events, moments[|events|].state)
    ensures Sound(moments[|events|]) && Inv(moments[|events|].state)
    decreases |events|
  {
    hide Attempt, Next, Grounded, Stems, Traced, Inv, Sound, Pinned;
    if events == [] {
      SoundGrounds(moments[0], retention);
    } else {
      var n := |events| - 1;
      CrashesRefineRuns(retention, events[..n], materials[..n], moments[..n + 1]);
      assert Attempt(moments[n], retention, events[n], materials[n], moments[n + 1]);
      AttemptStaysGrounded(moments[0], retention, events[..n], moments[n], events[n], materials[n], moments[n + 1]);
      assert events[..n] + [events[n]] == events;
    }
    GroundedParts(moments[0], retention, events, moments[|events|]);
    if Pinned(moments[0]) { StemsFromPinned(moments[0], retention, events, moments[|events|].state); }
  }

  /** A first start just completed: everything is on the disk. */
  predicate Installed(now: Moment) {
    && Initial(now.state) && Serves(now.disk, now.state)
    && now.disk.earlier == [] && now.disk.durable == now.disk.revisions.Keys && now.disk.rooted
  }

  lemma InstalledPins(now: Moment)
    requires Installed(now)
    ensures Pinned(now) && Recoverable(now.disk, now.state.identity)
  {
    InitialInvariant(now.state);
  }

  // ----- Recoverability -----

  /** No step of the run accepts over a directory whose name was never synced. */
  predicate NeverReusesUnsynced(retention: u64, events: seq<Event>, moments: seq<Moment>)
    requires |moments| == |events| + 1
  {
    forall i :: 0 <= i < |events| ==>
      !(Next(moments[i].state, retention, events[i]).outcome == Accepted && ReusesUnsynced(moments[i].disk, moments[i].state))
  }

  /** Such a run can be recovered from a power loss at every moment: no start ever fails. */
  lemma {:induction false} RunsStayRecoverable(retention: u64, events: seq<Event>, materials: seq<Material>, moments: seq<Moment>)
    requires retention > 0 && CrashRun(retention, events, materials, moments)
    requires Sound(moments[0]) && Recoverable(moments[0].disk, moments[0].state.identity)
    requires NeverReusesUnsynced(retention, events, moments)
    ensures Recoverable(moments[|events|].disk, moments[|events|].state.identity)
    decreases |events|
  {
    hide Attempt, Next, Verify, Owned, Inv, Recoverable, Grounded, Holds, Stems;
    if events != [] {
      var n := |events| - 1;
      CrashesRefineRuns(retention, events[..n], materials[..n], moments[..n + 1]);
      RunsStayRecoverable(retention, events[..n], materials[..n], moments[..n + 1]);
      assert Attempt(moments[n], retention, events[n], materials[n], moments[n + 1]);
      AttemptStaysRecoverable(moments[n], retention, events[n], materials[n], moments[n + 1]);
    }
  }

  lemma AttemptStaysRecoverable(now: Moment, retention: u64, e: Event, m: Material, next: Moment)
    requires Inv(now.state) && retention > 0 && WellTyped(e) && Serves(now.disk, now.state)
    requires Recoverable(now.disk, now.state.identity) && Attempt(now, retention, e, m, next)
    requires !(Next(now.state, retention, e).outcome == Accepted && ReusesUnsynced(now.disk, now.state))
    ensures Recoverable(next.disk, next.state.identity)
  {
    hide Next, Verify, Owned, Inv, Recoverable, PerformAll, CallActions, ReusesUnsynced, Serves, Supplies, Interrupts, Conflicted;
    var id := now.state.identity;
    if Completes(now, retention, e, m, next) {
      var writes :| WritesFit(now.state, Next(now.state, retention, e), writes)
        && next.disk == PerformAll(now.disk, CallActions(now.disk, now.state, retention, e, m, writes));
      var actions := CallActions(now.disk, now.state, retention, e, m, writes);
      assert actions[..|actions|] == actions;
      CutStaysRecoverable(now.disk, now.state, retention, e, m, writes, |actions|);
      InstallReached(now.state, retention, e);
    } else {
      var writes, k: nat :| WritesFit(now.state, Next(now.state, retention, e), writes)
        && k <= |CallActions(now.disk, now.state, retention, e, m, writes)|
        && Interrupts(PerformAll(now.disk, CallActions(now.disk, now.state, retention, e, m, writes)[..k]), next.disk)
        && Open(next.disk, id) == Running(next.state);
      CutStaysRecoverable(now.disk, now.state, retention, e, m, writes, k);
      InterruptionStaysRecoverable(PerformAll(now.disk, CallActions(now.disk, now.state, retention, e, m, writes)[..k]), next.disk, id);
      OpenedAs(next.disk, id);
    }
    RecoverableFor(next.disk, id, next.state.identity);
  }

  lemma OpenedAs(f: Disk, id: DeviceIdentity)
    ensures Open(f, id).Running? ==>
            Open(f, id).state.identity.tenant == id.tenant && Open(f, id).state.identity.device == id.device
  {}

  lemma InterruptionStaysRecoverable(d: Disk, e: Disk, id: DeviceIdentity)
    requires Shaped(d) && Recoverable(d, id) && Interrupts(d, e)
    ensures Recoverable(e, id)
  {
    hide Verify, ArtifactDigest;
  }

  lemma RecoverableFor(d: Disk, id: DeviceIdentity, other: DeviceIdentity)
    requires Recoverable(d, id) && other.tenant == id.tenant && other.device == id.device
    ensures Recoverable(d, other)
  {
    hide Holds;
  }
}
