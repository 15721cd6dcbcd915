/**
 Commits cut short: after any prefix of a call's file-system steps the process may stop or the power
 may fail, any number of times over. What can be recovered, when it cannot, and what every run keeps.
 */
module CrashStore {
  import opened Bytes
  import opened Identities
  import opened Rotation
  import opened RotationInvariant
  import opened Operations
  import opened Runs
  import opened Preimages
  import opened FileSystem

  // ----- What a disk can be recovered to -----

  /** Every manifest that may come back names a directory that cannot go away and holds its material. */
  ghost predicate Recoverable(d: Disk, id: DeviceIdentity) {
    d.rooted && forall x :: MayKeep(d, x) ==>
      x.Some? && Verify(x.value, id) && x.value.current.credentialRevision in d.durable && Holds(d.revisions, x.value)
  }

  /** Every power loss can be recovered from if and only if the disk is recoverable. */
  lemma RecoversExactly(d: Disk, id: DeviceIdentity)
    requires Shaped(d)
    ensures (forall e :: LosesPower(d, e) ==> Open(e, id).Running?) <==> Recoverable(d, id)
  {
    hide Verify, ArtifactDigest;
    if !d.rooted {
      var e := Disk(map[], map[], {}, false, NoTemporary, d.manifest, []);
      assert LosesPower(d, e) && !Open(e, id).Running?;
    } else if !Recoverable(d, id) {
      var x :| MayKeep(d, x) && !(x.Some? && Verify(x.value, id)
        && x.value.current.credentialRevision in d.durable && Holds(d.revisions, x.value));
      var kept := map r | r in d.durable :: d.revisions[r];
      var e := Disk(map[], kept, kept.Keys, true, NoTemporary, x, []);
      assert LosesPower(d, e) && !Open(e, id).Running?;
    }
  }

  /** The agent runs state `s` over this disk, with the material its current revision names. */
  predicate Serves(d: Disk, s: State) {
    Shaped(d) && d.manifest == Some(s) && Validate(s) && Holds(d.revisions, s)
  }

  // ----- What a call's steps do -----

  /** The disk after `k` of the installation steps. */
  predicate InstallStage(d: Disk, revision: u64, m: Material, k: nat, e: Disk) {
    && e.manifest == d.manifest && e.earlier == d.earlier && e.temporary == d.temporary && e.rooted == d.rooted
    && d.durable <= e.durable <= e.revisions.Keys
    && (k <= 6 ==> e.revisions == d.revisions)
    && (k == 2 ==> Staged(e, revision) == Folder(Absent, Absent, Absent, false))
    && (k == 3 ==> Staged(e, revision) == Folder(Whole(m.ca), Absent, Absent, false))
    && (k == 4 ==> Staged(e, revision) == Folder(Whole(m.ca), Whole(m.certificate), Absent, false))
    && (k == 5 ==> Staged(e, revision) == FolderOf(m).(synced := false))
    && (k == 6 ==> Staged(e, revision) == FolderOf(m))
    && (k >= 7 ==> e.revisions == d.revisions[revision := FolderOf(m)])
    && (k == 7 ==> revision !in e.durable)
    && (k == 8 ==> e.durable == e.revisions.Keys)
  }

  lemma PerformLast(d: Disk, actions: seq<Action>, k: nat)
    requires 0 < k <= |actions|
    ensures PerformAll(d, actions[..k]) == Perform(PerformAll(d, actions[..k - 1]), actions[k - 1])
  {
    assert actions[..k][..k - 1] == actions[..k - 1];
  }

  lemma InstallStep(d: Disk, revision: u64, m: Material, k: nat, e: Disk)
    requires Shaped(d) && revision !in d.revisions && 0 < k <= 8
    requires InstallStage(d, revision, m, k - 1, e)
    ensures InstallStage(d, revision, m, k, Perform(e, InstallActions(d, revision, m)[k - 1]))
  {}

  lemma {:induction false} InstallStages(d: Disk, revision: u64, m: Material, k: nat)
    requires Shaped(d) && revision !in d.revisions && k <= 8
    ensures InstallStage(d, revision, m, k, PerformAll(d, InstallActions(d, revision, m)[..k]))
  {
    var actions := InstallActions(d, revision, m);
    if k == 0 {
      assert actions[..k] == [];
    } else {
      InstallStages(d, revision, m, k - 1);
      PerformLast(d, actions, k);
      InstallStep(d, revision, m, k, PerformAll(d, actions[..k - 1]));
    }
  }

  /** The disk after `k` of the manifest steps. */
  predicate PersistStage(d: Disk, t: State, k: nat, e: Disk) {
    && e.revisions == d.revisions && e.durable == d.durable && (d.rooted ==> e.rooted)
    && (k == 0 ==> e.temporary == d.temporary)
    && (k == 4 ==> e.rooted) && (d.temporary.NoTemporary? && k <= 3 ==> e.rooted == d.rooted)
    && (k <= 2 ==> e.manifest == d.manifest && (e.earlier == d.earlier || e.earlier == []))
    && (k == 1 ==> e.temporary.NoTemporary?)
    && (k == 2 ==> e.temporary == WholeTemporary(t))
    && (k >= 3 ==> e.manifest == Some(t))
    && (k == 3 ==> (e.earlier == d.earlier + [d.manifest] || e.earlier == [d.manifest]))
    && (k == 4 ==> e.earlier == [])
  }

  lemma PersistStep(d: Disk, t: State, k: nat, e: Disk)
    requires 0 < k <= 4 && PersistStage(d, t, k - 1, e)
    ensures PersistStage(d, t, k, Perform(e, PersistActions(t)[k - 1]))
  {}

  lemma {:induction false} PersistStages(d: Disk, t: State, k: nat)
    requires k <= 4
    ensures PersistStage(d, t, k, PerformAll(d, PersistActions(t)[..k]))
  {
    if k > 0 {
      PersistStages(d, t, k - 1);
      PerformLast(d, PersistActions(t), k);
      PersistStep(d, t, k, PerformAll(d, PersistActions(t)[..k - 1]));
    }
  }

  lemma PerformNothing(d: Disk)
    ensures PerformAll(d, []) == d
  {}

  /** The directory a step sequence adds, if any, with its material; then the manifest it writes, if any. */
  datatype Plan = Plan(revision: Option<u64>, material: Material, written: Option<State>)

  function PlanActions(d: Disk, p: Plan): seq<Action> {
    InstallPart(d, p) + (if p.written.Some? then PersistActions(p.written.value) else [])
  }

  predicate Adds(d: Disk, p: Plan) { p.revision.Some? && p.revision.value !in d.revisions }

  /** What holds of the disk after `k` of the steps of a plan, whatever `k`. */
  ghost predicate Between(d: Disk, p: Plan, k: nat, e: Disk) {
    && Shaped(e) && d.durable <= e.durable && (d.rooted ==> e.rooted)
    && (e.revisions == d.revisions
        || (Adds(d, p) && k >= 7 && e.revisions == d.revisions[p.revision.value := FolderOf(p.material)]))
    && (e.manifest == d.manifest || (p.written.Some? && e.manifest == p.written))
    && (forall x :: MayKeep(e, x) ==> MayKeep(d, x) || (p.written.Some? && x == p.written))
    && (Adds(d, p) && k >= 7 ==> p.revision.value in e.revisions)
    && (Adds(d, p) && k >= 8 ==> p.revision.value in e.durable)
    && (Adds(d, p) && e.manifest != d.manifest ==> k >= 8)
    && (Adds(d, p) && k <= 8 ==> e.manifest == d.manifest && e.earlier == d.earlier)
    && (!Adds(d, p) ==> e.durable == d.durable)
  }

  function InstallPart(d: Disk, p: Plan): seq<Action> {
    if p.revision.Some? then InstallActions(d, p.revision.value, p.material) else []
  }

  /** What holds after `k` of the installation steps of a plan. */
  ghost predicate Installing(d: Disk, p: Plan, k: nat, e: Disk) {
    Between(d, p, k, e) && e.manifest == d.manifest && e.earlier == d.earlier
  }

  lemma PlanInstalls(d: Disk, p: Plan, k: nat)
    requires Shaped(d) && k <= |InstallPart(d, p)|
    ensures Installing(d, p, k, PerformAll(d, InstallPart(d, p)[..k]))
  {
    hide PerformAll, Perform;
    PerformNothing(d);
    if InstallPart(d, p) == [] {
      assert InstallPart(d, p)[..k] == [];
    } else {
      InstallStages(d, p.revision.value, p.material, k);
    }
  }

  lemma PlanWrites(d: Disk, p: Plan, e: Disk, k: nat, f: Disk)
    requires Shaped(d) && p.written.Some? && 0 < k <= 4
    requires Installing(d, p, |InstallPart(d, p)|, e) && PersistStage(e, p.written.value, k, f)
    ensures Between(d, p, |InstallPart(d, p)| + k, f)
    ensures k == 4 ==> f.rooted && forall x :: MayKeep(f, x) <==> x == p.written
  {}

  lemma PlanStages(d: Disk, p: Plan, k: nat)
    requires Shaped(d) && k <= |PlanActions(d, p)|
    ensures Between(d, p, k, PerformAll(d, PlanActions(d, p)[..k]))
    ensures k == |PlanActions(d, p)| && p.written.Some? ==>
            PerformAll(d, PlanActions(d, p)[..k]).rooted
            && forall x :: MayKeep(PerformAll(d, PlanActions(d, p)[..k]), x) <==> x == p.written
    ensures k == |PlanActions(d, p)| && p.written.None? ==>
            PerformAll(d, PlanActions(d, p)[..k]).manifest == d.manifest
            && PerformAll(d, PlanActions(d, p)[..k]).earlier == d.earlier
  {
    hide PerformAll, Between, PersistStage, InstallActions, MayKeep;
    var install, all := InstallPart(d, p), PlanActions(d, p);
    if k <= |install| {
      assert all[..k] == install[..k];
      PlanInstalls(d, p, k);
    } else {
      var write := PersistActions(p.written.value);
      var j, e := k - |install|, PerformAll(d, install);
      assert install[..|install|] == install;
      PlanInstalls(d, p, |install|);
      assert all[..k] == install + write[..j];
      PerformAppend(d, install, write[..j]);
      PersistStages(e, p.written.value, j);
      PlanWrites(d, p, e, j, PerformAll(e, write[..j]));
    }
  }

  // ----- One call -----

  function PlanOf(d: Disk, s: State, retention: u64, e: Event, m: Material, writes: bool): Plan {
    if Conflicted(d, s, e, m) then Plan(None, m, None)
    else Plan(if ReachesInstall(s, e) then Some(s.current.credentialRevision + 1) else None, m,
              if writes then Some(Next(s, retention, e).state) else None)
  }

  /** `m` is what the catalog read for the command, so its digest is the one resolved. */
  predicate Supplies(e: Event, m: Material) {
    e.Deliver? && e.resolution.Resolved? ==> e.resolution.digest == ArtifactDigest(m)
  }

  predicate Called(s: State, retention: u64, e: Event, m: Material, writes: bool) {
    Inv(s) && retention > 0 && WellTyped(e) && Supplies(e, m) && WritesFit(s, Next(s, retention, e), writes)
  }

  lemma CallIsPlan(d: Disk, s: State, retention: u64, e: Event, m: Material, writes: bool)
    ensures CallActions(d, s, retention, e, m, writes) == PlanActions(d, PlanOf(d, s, retention, e, m, writes))
  {
    hide Next, ReachesInstall, Conflicted, InstallActions;
  }

  /** Exactly the calls that reach the installation are accepted or fail validation after it. */
  lemma InstallReached(s: State, retention: u64, e: Event)
    requires Inv(s) && retention > 0 && WellTyped(e)
    ensures var step := Next(s, retention, e);
      && (ReachesInstall(s, e) ==> step.outcome == Accepted || step.outcome == Refused(InvalidState))
      && (step.outcome == Accepted ==>
            ReachesInstall(s, e) && step.state.current.credentialRevision == s.current.credentialRevision + 1
            && step.state.current.artifactDigest == e.resolution.digest)
      && (step.outcome != Accepted ==> step.state.current == s.current)
      && Validate(step.state)
      && step.state.identity.tenant == s.identity.tenant && step.state.identity.device == s.identity.device
  {
    NextKeepsInvariant(s, retention, e);
    InvariantParts(s);
    if IsDelivery(e) {
      var f := EffectOf(s, retention, e);
      if f.Installing? { AcceptedReaches(s, retention, e); } else { DeliveryCarries(s, retention, e); }
      if ReachesInstall(s, e) { ReachedOutcome(s, retention, e); }
    } else {
      SettlementCarries(s, retention, e);
    }
  }

  lemma ReachedOutcome(s: State, retention: u64, e: Event)
    requires Inv(s) && retention > 0 && WellTyped(e) && ReachesInstall(s, e)
    ensures Next(s, retention, e).outcome == CommitOutcome(s, e.command, e.resolution, e.now)
    ensures Next(s, retention, e).outcome == Accepted || Next(s, retention, e).outcome == Refused(InvalidState)
  {
    hide Next, Verify, Owned;
    InvariantParts(s);
    DeliverExact(s, retention, e);
    CapacityExact(s, ClampToI64(e.now));
  }

  lemma AcceptedReaches(s: State, retention: u64, e: Event)
    requires Inv(s) && retention > 0 && WellTyped(e) && IsDelivery(e) && Next(s, retention, e).outcome == Accepted
    ensures ReachesInstall(s, e)
  {
    hide Next, Verify, Owned;
    InvariantParts(s);
    var f := EffectOf(s, retention, e);
    DeliverExact(s, retention, e);
    CapacityExact(s, ClampToI64(e.now));
  }

  /** A validated state loads under any identity with its tenant and device. */
  lemma VerifiedAgain(s: State, id: DeviceIdentity)
    requires Validate(s) && s.identity.tenant == id.tenant && s.identity.device == id.device
    ensures Verify(s, id)
  {}

  lemma StillHolds(before: map<u64, Folder>, after: map<u64, Folder>, s: State)
    requires Holds(before, s) && s.current.credentialRevision in after
    requires after[s.current.credentialRevision] == before[s.current.credentialRevision]
    ensures Holds(after, s)
  {}

  lemma FreshlyHeld(revisions: map<u64, Folder>, t: State, m: Material)
    requires t.current.credentialRevision in revisions && t.current.artifactDigest == ArtifactDigest(m)
    requires MaterialOf(revisions[t.current.credentialRevision]) == Some(m)
    ensures Holds(revisions, t)
  {}

  /** Once the new manifest can be seen, so can the directory it names, with the material of its digest. */
  lemma WrittenIsHeld(d: Disk, s: State, retention: u64, e: Event, m: Material, k: nat, p: Disk)
    requires Serves(d, s) && Called(s, retention, e, m, true) && !Conflicted(d, s, e, m)
    requires Between(d, PlanOf(d, s, retention, e, m, true), k, p) && (Adds(d, PlanOf(d, s, retention, e, m, true)) ==> k >= 8)
    ensures Holds(p.revisions, Next(s, retention, e).state)
  {
    hide Next, Verify, Owned, ArtifactDigest, ReachesInstall;
    InstallReached(s, retention, e);
    var t := Next(s, retention, e).state;
    if Next(s, retention, e).outcome == Accepted {
      FreshlyHeld(p.revisions, t, m);
    } else {
      StillHolds(d.revisions, p.revisions, t);
    }
  }

  /**
   A call cut after any of its steps and then interrupted: a stopped process always starts again, in
   the old or the new state; whatever a power loss leaves, a state that starts is the new one or one
   the disk could have kept before, with its material installed; no directory has changed.
   */
  lemma CutReopens(d: Disk, s: State, retention: u64, e: Event, m: Material, writes: bool, k: nat, f: Disk)
    requires Serves(d, s) && Called(s, retention, e, m, writes)
    requires k <= |CallActions(d, s, retention, e, m, writes)|
    requires Interrupts(PerformAll(d, CallActions(d, s, retention, e, m, writes)[..k]), f)
    ensures var t := Next(s, retention, e).state;
            var p := PerformAll(d, CallActions(d, s, retention, e, m, writes)[..k]);
      && (Stops(p, f) ==> Open(f, s.identity) == Running(s) || Open(f, s.identity) == Running(t))
      && (Open(f, s.identity).Running? ==> Serves(f, Open(f, s.identity).state))
      && (forall x :: MayKeep(f, x) ==> MayKeep(d, x) || x == Some(t))
      && (forall r :: r in d.revisions && r in f.revisions ==> f.revisions[r] == d.revisions[r])
      && (d.rooted ==> d.durable <= f.revisions.Keys)
  {
    hide Next, Verify, Owned, ArtifactDigest, ReachesInstall, PerformAll, Open, Between, Stops, Interrupts, MayKeep, Holds;
    var plan := PlanOf(d, s, retention, e, m, writes);
    CallIsPlan(d, s, retention, e, m, writes);
    PlanStages(d, plan, k);
    var p := PerformAll(d, CallActions(d, s, retention, e, m, writes)[..k]);
    if Stops(p, f) { StoppedReopens(d, s, retention, e, m, writes, k, p, f); }
    CutKeeps(d, plan, k, p, f);
    OpenServes(f, s.identity);
  }

  lemma StoppedReopens(d: Disk, s: State, retention: u64, e: Event, m: Material, writes: bool, k: nat, p: Disk, f: Disk)
    requires Serves(d, s) && Called(s, retention, e, m, writes)
    requires Between(d, PlanOf(d, s, retention, e, m, writes), k, p) && Stops(p, f)
    ensures Open(f, s.identity) == Running(s) || Open(f, s.identity) == Running(Next(s, retention, e).state)
  {
    hide Next, Verify, Owned, ArtifactDigest, ReachesInstall, Open;
    InstallReached(s, retention, e);
    if p.manifest == Some(s) {
      StillHolds(d.revisions, f.revisions, s);
      OpensAs(f, s, s.identity);
    } else {
      WrittenIsHeld(d, s, retention, e, m, k, p);
      OpensAs(f, Next(s, retention, e).state, s.identity);
    }
  }

  /** An interruption adds nothing to what was there, and takes away no directory that was durable. */
  lemma CutKeeps(d: Disk, plan: Plan, k: nat, p: Disk, f: Disk)
    requires Shaped(d) && Between(d, plan, k, p) && Interrupts(p, f)
    ensures Shaped(f)
    ensures forall x :: MayKeep(f, x) ==> MayKeep(d, x) || (plan.written.Some? && x == plan.written)
    ensures forall r :: r in d.revisions && r in f.revisions ==> f.revisions[r] == d.revisions[r]
    ensures d.rooted ==> d.durable <= f.revisions.Keys
  {}

  lemma OpensAs(f: Disk, x: State, id: DeviceIdentity)
    requires f.manifest == Some(x) && Validate(x) && Holds(f.revisions, x)
    requires x.identity.tenant == id.tenant && x.identity.device == id.device
    ensures Open(f, id) == Running(x)
  {
    VerifiedAgain(x, id);
  }

  lemma OpenServes(f: Disk, id: DeviceIdentity)
    requires Shaped(f) && ValidIdentity(id)
    ensures Open(f, id).Running? ==> Serves(f, Open(f, id).state)
  {}

  /**
   A call that completes leaves its result running over the disk. If it wrote, no other manifest can
   come back; if it had nothing to write, every manifest that could still can.
   */
  lemma CompletedServes(d: Disk, s: State, retention: u64, e: Event, m: Material, writes: bool)
    requires Serves(d, s) && Called(s, retention, e, m, writes) && !Conflicted(d, s, e, m)
    ensures var f := PerformAll(d, CallActions(d, s, retention, e, m, writes));
      && Serves(f, Next(s, retention, e).state)
      && (forall x :: MayKeep(f, x) <==> if writes then x == Some(Next(s, retention, e).state) else MayKeep(d, x))
  {
    hide Next, Verify, Owned, ArtifactDigest, ReachesInstall, PerformAll;
    var actions := CallActions(d, s, retention, e, m, writes);
    CallIsPlan(d, s, retention, e, m, writes);
    PlanStages(d, PlanOf(d, s, retention, e, m, writes), |actions|);
    assert actions[..|actions|] == actions;
    InstallReached(s, retention, e);
    if writes {
      assert MayKeep(PerformAll(d, actions), PerformAll(d, actions).manifest);
      WrittenIsHeld(d, s, retention, e, m, |actions|, PerformAll(d, actions));
    } else {
      StillHolds(d.revisions, PerformAll(d, actions).revisions, s);
    }
  }

  // ----- Atomicity -----

  /** Whatever the step a power loss falls on, the next start finds a running state. */
  ghost predicate SurvivesAnyCut(d: Disk, actions: seq<Action>, id: DeviceIdentity) {
    forall k: nat, f :: k <= |actions| && LosesPower(PerformAll(d, actions[..k]), f) ==> Open(f, id).Running?
  }

  /** The directory the call would install is already there, and its name may still go away. */
  predicate ReusesUnsynced(d: Disk, s: State) {
    s.current.credentialRevision < U64_MAX
    && s.current.credentialRevision + 1 in d.revisions && s.current.credentialRevision + 1 !in d.durable
  }

  /**
   From a recoverable disk, a call survives a power loss at any of its steps and after them if and
   only if it is not an acceptance over a directory whose name was never synced: `install_revision`
   finds that directory and returns before the sync, and the manifest that follows is durable.
   */
  lemma CommitIsAtomic(d: Disk, s: State, retention: u64, e: Event, m: Material, writes: bool)
    requires Serves(d, s) && Recoverable(d, s.identity) && Called(s, retention, e, m, writes)
    requires !Conflicted(d, s, e, m)
    ensures SurvivesAnyCut(d, CallActions(d, s, retention, e, m, writes), s.identity) <==>
            !(Next(s, retention, e).outcome == Accepted && ReusesUnsynced(d, s))
  {
    hide Next, Verify, Owned, ArtifactDigest, ReachesInstall, PerformAll, Open, Recoverable, Between, CallActions;
    var actions := CallActions(d, s, retention, e, m, writes);
    if Next(s, retention, e).outcome == Accepted && ReusesUnsynced(d, s) {
      var f := UnsyncedIsLost(d, s, retention, e, m, writes);
      assert actions[..|actions|] == actions;
      assert LosesPower(PerformAll(d, actions[..|actions|]), f);
    } else {
      forall k: nat, f | k <= |actions| && LosesPower(PerformAll(d, actions[..k]), f) ensures Open(f, s.identity).Running? {
        CutStaysRecoverable(d, s, retention, e, m, writes, k);
        RecoversExactly(PerformAll(d, actions[..k]), s.identity);
      }
    }
  }

  lemma CutStaysRecoverable(d: Disk, s: State, retention: u64, e: Event, m: Material, writes: bool, k: nat)
    requires Serves(d, s) && Recoverable(d, s.identity) && Called(s, retention, e, m, writes)
    requires k <= |CallActions(d, s, retention, e, m, writes)|
    requires !(Next(s, retention, e).outcome == Accepted && ReusesUnsynced(d, s))
    ensures Shaped(PerformAll(d, CallActions(d, s, retention, e, m, writes)[..k]))
    ensures Recoverable(PerformAll(d, CallActions(d, s, retention, e, m, writes)[..k]), s.identity)
  {
    hide Next, Verify, Owned, ArtifactDigest, ReachesInstall, PerformAll, Holds;
    var plan := PlanOf(d, s, retention, e, m, writes);
    CallIsPlan(d, s, retention, e, m, writes);
    PlanStages(d, plan, k);
    var p := PerformAll(d, CallActions(d, s, retention, e, m, writes)[..k]);
    InstallReached(s, retention, e);
    var t := Next(s, retention, e).state;
    forall x | MayKeep(p, x)
      ensures x.Some? && Verify(x.value, s.identity) && x.value.current.credentialRevision in p.durable && Holds(p.revisions, x.value)
    {
      if MayKeep(d, x) {
        StillHolds(d.revisions, p.revisions, x.value);
      } else {
        assert x == Some(t);
        VerifiedAgain(t, s.identity);
        WrittenIsHeld(d, s, retention, e, m, k, p);
        assert MayKeep(d, d.manifest);
      }
    }
  }

  /** The counterexample: an acceptance over an unsynced directory is durable, its directory is not. */
  lemma UnsyncedIsLost(d: Disk, s: State, retention: u64, e: Event, m: Material, writes: bool) returns (f: Disk)
    requires Serves(d, s) && Called(s, retention, e, m, writes) && !Conflicted(d, s, e, m)
    requires Next(s, retention, e).outcome == Accepted && ReusesUnsynced(d, s)
    ensures LosesPower(PerformAll(d, CallActions(d, s, retention, e, m, writes)), f)
    ensures Open(f, s.identity) == Failed
  {
    hide Next, Verify, Owned, ArtifactDigest, ReachesInstall, PerformAll;
    var plan := PlanOf(d, s, retention, e, m, writes);
    var actions := CallActions(d, s, retention, e, m, writes);
    CallIsPlan(d, s, retention, e, m, writes);
    PlanStages(d, plan, |actions|);
    assert actions[..|actions|] == actions;
    InstallReached(s, retention, e);
    var p := PerformAll(d, actions);
    assert MayKeep(p, p.manifest);
    var kept := map r | r in p.durable :: p.revisions[r];
    f := Disk(map[], kept, kept.Keys, true, NoTemporary, p.manifest, []);
  }

  /**
   It happens from any settled disk: the process stops right after the rename of an installation, the
   same command is accepted after the restart, and a later power loss leaves a device that cannot start.
   */
  lemma StopThenLossFails(d: Disk, s: State, retention: u64, e: Event, m: Material) returns (stopped: Disk, f: Disk)
    requires Serves(d, s) && d.durable == d.revisions.Keys && d.earlier == [] && Called(s, retention, e, m, true)
    requires Next(s, retention, e).outcome == Accepted && s.current.credentialRevision + 1 !in d.revisions
    ensures |CallActions(d, s, retention, e, m, true)| == 12
            && Stops(PerformAll(d, CallActions(d, s, retention, e, m, true)[..7]), stopped)
    ensures Open(stopped, s.identity) == Running(s)
    ensures LosesPower(PerformAll(stopped, CallActions(stopped, s, retention, e, m, true)), f)
    ensures Open(f, s.identity) == Failed
  {
    hide Next, Verify, Owned, ArtifactDigest, ReachesInstall, PerformAll, Open;
    InstallReached(s, retention, e);
    var plan := PlanOf(d, s, retention, e, m, true);
    CallIsPlan(d, s, retention, e, m, true);
    var actions := CallActions(d, s, retention, e, m, true);
    var revision := s.current.credentialRevision + 1;
    assert actions[..7] == InstallActions(d, revision, m)[..7];
    InstallStages(d, revision, m, 7);
    stopped := PerformAll(d, actions[..7]);
    PlanStages(d, plan, 7);
    StillHolds(d.revisions, stopped.revisions, s);
    OpensAs(stopped, s, s.identity);
    f := UnsyncedIsLost(stopped, s, retention, e, m, true);
  }

  // ----- Orphans -----

  /** A directory beyond the running revision. */
  predicate Orphaned(d: Disk, s: State) {
    s.current.credentialRevision < U64_MAX && s.current.credentialRevision + 1 in d.revisions
  }

  /**
   Without any interruption, a call leaves a new orphan if and only if it reached the installation and
   was then refused by validation.
   */
  lemma RefusedLeavesOrphan(d: Disk, s: State, retention: u64, e: Event, m: Material, writes: bool)
    requires Serves(d, s) && Called(s, retention, e, m, writes) && !Orphaned(d, s)
    ensures var f := PerformAll(d, CallActions(d, s, retention, e, m, writes));
      (Next(s, retention, e).outcome != Accepted && Orphaned(f, s)) <==>
      (ReachesInstall(s, e) && Next(s, retention, e).outcome == Refused(InvalidState))
    ensures ReachesInstall(s, e) && Next(s, retention, e).outcome == Refused(InvalidState) <==>
            ReachesInstall(s, e)
            && (s.deviceSequence > U64_MAX - 2 || e.resolution.expiresAt <= 0 || AnswerQueued(s, e.command.commandId)
                || EntryKept(s, e.command.commandId, ClampToI64(e.now)))
  {
    hide Next, Verify, Owned, ArtifactDigest, ReachesInstall, PerformAll;
    var plan := PlanOf(d, s, retention, e, m, writes);
    var actions := CallActions(d, s, retention, e, m, writes);
    CallIsPlan(d, s, retention, e, m, writes);
    PlanStages(d, plan, |actions|);
    assert actions[..|actions|] == actions;
    InstallReached(s, retention, e);
    if ReachesInstall(s, e) { ReachedRefusal(s, retention, e); }
  }

  lemma ReachedRefusal(s: State, retention: u64, e: Event)
    requires Inv(s) && retention > 0 && WellTyped(e) && ReachesInstall(s, e)
    ensures Next(s, retention, e).outcome == Refused(InvalidState) <==>
            s.deviceSequence > U64_MAX - 2 || e.resolution.expiresAt <= 0 || AnswerQueued(s, e.command.commandId)
            || EntryKept(s, e.command.commandId, ClampToI64(e.now))
  {
    hide Next, Verify, Owned;
    ReachedOutcome(s, retention, e);
    InvariantParts(s);
    CapacityExact(s, ClampToI64(e.now));
  }

  /** A process stop leaves a new orphan exactly between the rename of the directory and that of the manifest. */
  lemma StopLeavesOrphan(d: Disk, s: State, retention: u64, e: Event, m: Material, k: nat, f: Disk)
    requires Serves(d, s) && Called(s, retention, e, m, true) && !Orphaned(d, s)
    requires Next(s, retention, e).outcome == Accepted && k <= |CallActions(d, s, retention, e, m, true)|
    requires Stops(PerformAll(d, CallActions(d, s, retention, e, m, true)[..k]), f)
    ensures |CallActions(d, s, retention, e, m, true)| == 12
    ensures f.manifest == Some(s) && Orphaned(f, s) <==> 7 <= k < 11
  {
    hide Next, Verify, Owned, ArtifactDigest, ReachesInstall, PerformAll;
    InstallReached(s, retention, e);
    var t := Next(s, retention, e).state;
    var revision := s.current.credentialRevision + 1;
    var install, all := InstallActions(d, revision, m), CallActions(d, s, retention, e, m, true);
    if k <= 8 {
      assert all[..k] == install[..k];
      InstallStages(d, revision, m, k);
    } else {
      assert install[..8] == install && all[..k] == install + PersistActions(t)[..k - 8];
      InstallStages(d, revision, m, 8);
      PerformAppend(d, install, PersistActions(t)[..k - 8]);
      PersistStages(PerformAll(d, install), t, k - 8);
    }
  }

  /** An orphan pins its material: the revision can be installed again with exactly the same files. */
  lemma OrphanPinsMaterial(d: Disk, s: State, retention: u64, e: Event, m: Material, writes: bool, k: nat, f: Disk)
    requires Serves(d, s) && Called(s, retention, e, m, writes) && !Orphaned(d, s)
    requires k <= |CallActions(d, s, retention, e, m, writes)|
    requires Interrupts(PerformAll(d, CallActions(d, s, retention, e, m, writes)[..k]), f) && Orphaned(f, s)
    ensures forall later, other :: ReachesInstall(s, later) ==> (Conflicted(f, s, later, other) <==> other != m)
  {
    hide Next, Verify, Owned, ArtifactDigest, ReachesInstall, PerformAll;
    CallIsPlan(d, s, retention, e, m, writes);
    PlanStages(d, PlanOf(d, s, retention, e, m, writes), k);
  }

  /**
   A history without any interruption that pins a revision: a command is first turned away because its
   artifact is not there yet, and delivered again after its entry expired, with the artifact in place
   and the first answer still queued. It installs, fails validation, and changes nothing but the disk.
   */
  lemma RefusedHistory(d: Disk, s: State, retention: u64, c: DeviceCommand, fingerprint: Digest, res: Resolution, now: u64, m: Material)
    requires Initial(s) && Serves(d, s) && !Orphaned(d, s) && 0 < retention && now + retention <= I64_MAX
    requires s.current.credentialRevision < U64_MAX
    requires c.commandId != [] && fingerprint.Sha256? && c.deviceId == s.identity.device && c.deadline > now + retention
    requires c.desiredGeneration > s.current.desiredGeneration && c.fenceEpoch >= s.current.fenceEpoch
    requires res.Resolved? && res.digest == ArtifactDigest(m) && res.credentialGeneration > s.identity.generation
    ensures var first := Deliver(CommandTopic(s.identity), c, fingerprint, Unresolved(ArtifactUnavailable), now);
            var again := Deliver(CommandTopic(s.identity), c, fingerprint, res, now + retention);
            var step := Next(s, retention, first);
            var between := PerformAll(d, CallActions(d, s, retention, first, m, true));
            var after := PerformAll(between, CallActions(between, step.state, retention, again, m, false));
      && step.outcome == Rejected(ArtifactUnavailable)
      && Next(step.state, retention, again) == Step(step.state, Refused(InvalidState))
      && !Orphaned(between, step.state) && Orphaned(after, step.state)
  {
    hide Next, Inv, ArtifactDigest, PerformAll, ReachesInstall, CallActions, Conflicted, AnswerQueued, EntryKept;
    InitialInvariant(s);
    var first := Deliver(CommandTopic(s.identity), c, fingerprint, Unresolved(ArtifactUnavailable), now);
    var again := Deliver(CommandTopic(s.identity), c, fingerprint, res, now + retention);
    FirstTurn(s, retention, c, fingerprint, now);
    var t := Next(s, retention, first).state;
    AddsNothing(d, s, retention, first, m, true);
    CompletedServes(d, s, retention, first, m, true);
    NextKeepsInvariant(s, retention, first);
    SecondTurn(s, t, retention, again);
    RefusedLeavesOrphan(PerformAll(d, CallActions(d, s, retention, first, m, true)), t, retention, again, m, false);
  }

  /** A call that does not reach the installation leaves the directories as they are. */
  lemma AddsNothing(d: Disk, s: State, retention: u64, e: Event, m: Material, writes: bool)
    requires Shaped(d) && !ReachesInstall(s, e)
    ensures !Conflicted(d, s, e, m) && PerformAll(d, CallActions(d, s, retention, e, m, writes)).revisions == d.revisions
  {
    hide Next, ReachesInstall, PerformAll;
    var actions := CallActions(d, s, retention, e, m, writes);
    CallIsPlan(d, s, retention, e, m, writes);
    PlanStages(d, PlanOf(d, s, retention, e, m, writes), |actions|);
    assert actions[..|actions|] == actions;
  }

  lemma FirstTurn(s: State, retention: u64, c: DeviceCommand, fingerprint: Digest, now: u64)
    requires Initial(s) && 0 < retention && now + retention <= I64_MAX
    requires c.commandId != [] && fingerprint.Sha256? && c.deviceId == s.identity.device && c.deadline > now
    requires c.desiredGeneration > 0 && c.fenceEpoch > 0
    ensures var first := Deliver(CommandTopic(s.identity), c, fingerprint, Unresolved(ArtifactUnavailable), now);
            var t := Next(s, retention, first).state;
      && Next(s, retention, first).outcome == Rejected(ArtifactUnavailable) && !ReachesInstall(s, first)
      && t.identity == s.identity && t.current == s.current && t.pendingInbound.None?
      && |t.outbox| == 1 && IsDirectAck(t.outbox[0], c.commandId) && t.deviceSequence == 1
      && |t.journal| == 1 && t.journal[0].retainUntil == now + retention
  {
    InitialInvariant(s);
    var first := Deliver(CommandTopic(s.identity), c, fingerprint, Unresolved(ArtifactUnavailable), now);
    DeliverExact(s, retention, first);
    assert HasJournalCapacity(s, ClampToI64(now));
    var r := CommandRefusal(c, fingerprint, ArtifactUnavailable, retention, now);
    assert Next(s, retention, first).state == Reject(Expire(s, ClampToI64(now)), r);
  }

  lemma SecondTurn(s: State, t: State, retention: u64, again: Event)
    requires Inv(t) && retention > 0 && WellTyped(again) && again.Deliver?
    requires t.identity == s.identity && t.current == s.current && t.pendingInbound.None? && t.deviceSequence == 1
    requires |t.outbox| == 1 && IsDirectAck(t.outbox[0], again.command.commandId)
    requires |t.journal| == 1 && t.journal[0].retainUntil <= again.now <= I64_MAX
    requires Decide(t, again.topic, again.command, again.resolution, again.now).Install? && again.resolution.Resolved?
    requires t.current.credentialRevision < U64_MAX
    ensures ReachesInstall(t, again) && AnswerQueued(t, again.command.commandId)
    ensures Next(t, retention, again) == Step(t, Refused(InvalidState))
  {
    hide Next, Verify, Owned;
    assert t.outbox[0] in t.outbox;
    ReachedRefusal(t, retention, again);
    RefusedUnchanged(t, retention, again);
  }

  // ----- First start -----

  predicate Blank(d: Disk) {
    d.revisions == map[] && d.durable == {} && d.manifest.None? && d.earlier == []
  }

  lemma BootstrapStages(d: Disk, s: State, m: Material, k: nat)
    requires Blank(d) && k <= 12
    ensures |BootstrapActions(d, s, m)| == 12
    ensures var p := PerformAll(d, BootstrapActions(d, s, m)[..k]);
            var only := map[s.current.credentialRevision := FolderOf(m)];
      && Shaped(p)
      && (k <= 6 ==> p.revisions == map[]) && (k >= 7 ==> p.revisions == only)
      && (k >= 8 ==> p.durable == {s.current.credentialRevision})
      && (d.rooted ==> p.rooted) && (k == 12 ==> p.rooted)
      && (k < 12 && d.temporary.NoTemporary? ==> p.rooted == d.rooted)
      && (k <= 10 ==> p.manifest.None? && p.earlier == [])
      && (k >= 11 ==> p.manifest == Some(s) && (k == 11 ==> p.earlier == [None]) && (k == 12 ==> p.earlier == []))
  {
    hide PerformAll;
    var revision := s.current.credentialRevision;
    var install, all := InstallActions(d, revision, m), BootstrapActions(d, s, m);
    if k <= 8 {
      assert all[..k] == install[..k];
      InstallStages(d, revision, m, k);
    } else {
      assert install[..8] == install && all[..k] == install + PersistActions(s)[..k - 8];
      InstallStages(d, revision, m, 8);
      PerformAppend(d, install, PersistActions(s)[..k - 8]);
      PersistStages(PerformAll(d, install), s, k - 8);
    }
  }

  /**
   The first start is not atomic: interrupted once its revision directory is there and before its
   manifest is, the next start fails; in every other case it starts over or finds the initial state.
   A stopped process decides by the step alone. A power loss may take back the last rename and, until
   the root is synced, the whole directory of revisions, with or without the manifest.
   */
  lemma BootstrapInterrupted(d: Disk, s: State, m: Material, k: nat, f: Disk)
    requires Blank(d) && Initial(s) && s.current.artifactDigest == ArtifactDigest(m) && k <= 12
    requires Interrupts(PerformAll(d, BootstrapActions(d, s, m)[..k]), f)
    ensures Open(f, s.identity) == Failed <==> (f.manifest.None? <==> s.current.credentialRevision in f.revisions)
    ensures Open(f, s.identity) == Fresh <==> f.manifest.None? && f.revisions == map[]
    ensures Open(f, s.identity).Running? ==> Open(f, s.identity) == Running(s)
    ensures Stops(PerformAll(d, BootstrapActions(d, s, m)[..k]), f) ==>
            Open(f, s.identity) == if k < 7 then Fresh else if k < 11 then Failed else Running(s)
    ensures k < 7 ==> Open(f, s.identity) == Fresh
    ensures 8 <= k < 11 && d.rooted ==> Open(f, s.identity) == Failed
    ensures 8 <= k < 11 && f.revisions != map[] ==> Open(f, s.identity) == Failed
    ensures k == 12 ==> Open(f, s.identity) == Running(s) && Serves(f, s) && Recoverable(f, s.identity)
    ensures k == 12 ==> f.earlier == [] && f.durable == f.revisions.Keys && f.rooted
  {
    hide ArtifactDigest, PerformAll;
    BootstrapStages(d, s, m, k);
    var p := PerformAll(d, BootstrapActions(d, s, m)[..k]);
    var revision := s.current.credentialRevision;
    assert f.revisions.Keys == {} || f.revisions.Keys == {revision};
    assert f.revisions.Keys == {} <==> f.revisions == map[];
    assert f.earlier != [] ==> f.earlier[0] in f.earlier;
    if revision in f.revisions { FreshlyHeld(f.revisions, s, m); }
  }

  /** On a blank disk whose directory of revisions was just created, the manifest can survive without it. */
  lemma ManifestAlone(d: Disk, s: State, m: Material) returns (f: Disk)
    requires Blank(d) && Initial(s) && !d.rooted && d.temporary.NoTemporary?
    ensures |BootstrapActions(d, s, m)| == 12 && LosesPower(PerformAll(d, BootstrapActions(d, s, m)[..11]), f)
    ensures f.manifest == Some(s) && Open(f, s.identity) == Failed
  {
    hide ArtifactDigest, PerformAll;
    BootstrapStages(d, s, m, 11);
    f := Disk(map[], map[], {}, false, NoTemporary, Some(s), []);
  }

  /** One start over this disk, cut anywhere and interrupted. */
  predicate StartCut(d: Disk, s: State, m: Material, f: Disk) {
    exists k: nat :: k <= |StartActions(d, s, m)| && Interrupts(PerformAll(d, StartActions(d, s, m)[..k]), f)
  }

  /**
   A directory without a manifest is never reset: however often the device is started, stopped and
   cut off, every start fails and the directory keeps its contents.
   */
  lemma {:induction false} OrphansAreNotReset(disks: seq<Disk>, s: State, m: Material, r: u64)
    requires disks != [] && forall i :: 0 <= i < |disks| - 1 ==> StartCut(disks[i], s, m, disks[i + 1])
    requires Shaped(disks[0]) && disks[0].rooted && disks[0].manifest.None? && r in disks[0].durable
    requires forall x :: MayKeep(disks[0], x) ==> x.None?
    ensures var last := disks[|disks| - 1];
      && Shaped(last) && last.rooted && last.manifest.None? && (forall x :: MayKeep(last, x) ==> x.None?)
      && Open(last, s.identity) == Failed && r in last.durable && last.revisions[r] == disks[0].revisions[r]
    decreases |disks|
  {
    if |disks| > 1 {
      var n := |disks| - 1;
      OrphansAreNotReset(disks[..n], s, m, r);
      var d, f := disks[n - 1], disks[n];
      assert disks[..n][|disks[..n]| - 1] == d;
      assert StartCut(d, s, m, f);
      assert d.revisions != map[];
      assert StartActions(d, s, m) == [];
      PerformNothing(d);
      assert MayKeep(d, f.manifest);
    }
  }
}
