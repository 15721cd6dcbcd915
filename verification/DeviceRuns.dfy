/**
 The whole device: driver, agent and broker over a store whose steps may be cut short. A stop or a
 power loss ends the session and starts the agent again from whatever the disk has kept.
 */
module DeviceRuns {
  import opened Bytes
  import opened Identities
  import opened Rotation
  import opened RotationInvariant
  import opened Preimages
  import opened FileSystem
  import opened CrashRuns
  import CrashStore
  import Durability
  import Topics
  import Driver
  import DriverSafety
  import DriverRuns

  datatype Device = Device(system: Driver.System, disk: Disk)

  function At(now: Device): Moment { Moment(now.disk, now.system.agent) }

  /** The process starts again: no session, nothing in flight, the agent as the store has it. */
  predicate Restarted(now: Device, next: Device) {
    next.system == Driver.Close(now.system, next.system.agent)
  }

  /** The happening runs to its end; a refused installation is an error, and ends the session. */
  predicate Proceeds(now: Device, retention: u64, h: Driver.Happening, m: Material, next: Device)
    requires Driver.Possible(now.system, h)
  {
    var call := DriverRuns.CallOf(now.system, h);
    if call.None? then next == Device(Driver.Happen(now.system, retention, h), now.disk)
    else
      && CrashStore.Supplies(call.value, m)
      && Completes(At(now), retention, call.value, m, At(next))
      && (if Conflicted(now.disk, now.system.agent, call.value, m) then Restarted(now, next)
          else next.system == Driver.Happen(now.system, retention, h))
  }

  /** The call of the happening is cut short, and the device starts again. */
  predicate IsCut(now: Device, retention: u64, h: Driver.Happening, m: Material, next: Device)
    requires Driver.Possible(now.system, h)
  {
    var call := DriverRuns.CallOf(now.system, h);
    && call.Some? && CrashStore.Supplies(call.value, m)
    && Restarts(At(now), retention, call.value, m, At(next))
    && Restarted(now, next)
  }

  /** Between two happenings the process stops or the power fails, and the device starts again. */
  predicate IsInterrupted(now: Device, next: Device) {
    && Interrupts(now.disk, next.disk)
    && Open(next.disk, now.system.agent.identity) == Running(next.system.agent)
    && Restarted(now, next)
  }

  predicate Steps(now: Device, retention: u64, h: Driver.Happening, m: Material, next: Device) {
    || IsInterrupted(now, next)
    || (Driver.Possible(now.system, h) && (Proceeds(now, retention, h, m, next) || IsCut(now, retention, h, m, next)))
  }

  predicate DeviceRun(retention: u64, happenings: seq<Driver.Happening>, materials: seq<Material>, devices: seq<Device>) {
    && |materials| == |happenings| && |devices| == |happenings| + 1
    && forall i :: 0 <= i < |happenings| ==> Steps(devices[i], retention, happenings[i], materials[i], devices[i + 1])
  }

  predicate Begins(now: Device) {
    DriverRuns.Begins(now.system) && Installed(At(now))
  }

  // ----- The calls of a run -----

  function CallAt(now: Device, h: Driver.Happening, next: Device): seq<Event> {
    if !IsInterrupted(now, next) && Driver.Possible(now.system, h) && DriverRuns.CallOf(now.system, h).Some?
    then [DriverRuns.CallOf(now.system, h).value] else []
  }

  /** The calls the device made, cut short or not, oldest first. */
  function Calls(happenings: seq<Driver.Happening>, devices: seq<Device>): seq<Event>
    requires |devices| == |happenings| + 1
    decreases |happenings|
  {
    if happenings == [] then []
    else
      var n := |happenings| - 1;
      Calls(happenings[..n], devices[..n + 1]) + CallAt(devices[n], happenings[n], devices[n + 1])
  }

  // ----- One step -----

  lemma ClosedInvariant(y: Driver.System, a: State)
    requires DriverSafety.SystemInv(y) && Inv(a)
    ensures DriverSafety.SystemInv(Driver.Close(y, a))
  {}

  lemma InterruptionServes(d: Disk, s: State, f: Disk)
    requires CrashStore.Serves(d, s) && Interrupts(d, f) && Open(f, s.identity).Running?
    ensures CrashStore.Serves(f, Open(f, s.identity).state)
    ensures forall x :: MayKeep(f, x) ==> MayKeep(d, x)
  {
    hide Verify, Holds, Open;
    CrashStore.OpenServes(f, s.identity);
  }

  /** An interruption between two calls brings back nothing new. */
  lemma InterruptionStaysGrounded(start: Disk, retention: u64, log: seq<Event>, now: Device, next: Device)
    requires IsInterrupted(now, next) && Grounded(start, retention, log, At(now))
    ensures Grounded(start, retention, log, At(next))
  {
    hide Interrupts, Open, Stems, MayKeep, CrashStore.Serves;
    InterruptionServes(now.disk, now.system.agent, next.disk);
  }

  lemma StepKeeps(start: Moment, log: seq<Event>, now: Device, retention: u64, h: Driver.Happening, m: Material, next: Device)
    requires Sound(start) && retention > 0 && Steps(now, retention, h, m, next)
    requires DriverSafety.SystemInv(now.system) && Grounded(start.disk, retention, log, At(now))
    ensures DriverSafety.SystemInv(next.system) && Grounded(start.disk, retention, log + CallAt(now, h, next), At(next))
  {
    hide Driver.Happen, Driver.Possible, DriverRuns.CallOf, Next, Grounded, Completes, Restarts, Stems, Sound, Inv, IsInterrupted;
    if IsInterrupted(now, next) {
      InterruptionStaysGrounded(start.disk, retention, log, now, next);
      InterruptionRestarts(now, next);
      GroundedParts(start, retention, log, At(next));
      ClosedInvariant(now.system, next.system.agent);
      assert log + [] == log;
    } else {
      CallKeeps(start, log, now, retention, h, m, next);
    }
  }

  lemma InterruptionRestarts(now: Device, next: Device)
    requires IsInterrupted(now, next)
    ensures Restarted(now, next)
  {}

  lemma CallKeeps(start: Moment, log: seq<Event>, now: Device, retention: u64, h: Driver.Happening, m: Material, next: Device)
    requires Sound(start) && retention > 0 && Driver.Possible(now.system, h) && !IsInterrupted(now, next)
    requires Proceeds(now, retention, h, m, next) || IsCut(now, retention, h, m, next)
    requires DriverSafety.SystemInv(now.system) && Grounded(start.disk, retention, log, At(now))
    ensures DriverSafety.SystemInv(next.system) && Grounded(start.disk, retention, log + CallAt(now, h, next), At(next))
  {
    hide Driver.Happen, Driver.Possible, DriverRuns.CallOf, Next, Grounded, Completes, Restarts, Stems, Sound, Inv, IsInterrupted;
    DriverSafety.HappenKeepsInvariant(now.system, retention, h);
    DriverRuns.HappeningIsACall(now.system, retention, h);
    var call := DriverRuns.CallOf(now.system, h);
    if call.Some? {
      AttemptStaysGrounded(start, retention, log, At(now), call.value, m, At(next));
      GroundedParts(start, retention, log + [call.value], At(next));
      ClosedInvariant(now.system, next.system.agent);
    } else {
      assert log + [] == log;
      assert At(next) == At(now);
    }
  }

  // ----- Runs -----

  /**
   From a sound device on, over any number of sessions, stops, power losses and cut commits: the system
   invariant holds, and what runs, and whatever may come back, is what some of the calls made since lead
   to in order, with its material installed; from a pinned device, what they lead to from its own state.
   */
  lemma {:induction false} DeviceRunKeeps(retention: u64, happenings: seq<Driver.Happening>, materials: seq<Material>,
                                          devices: seq<Device>)
    requires retention > 0 && DeviceRun(retention, happenings, materials, devices)
    requires DriverSafety.SystemInv(devices[0].system) && Sound(At(devices[0]))
    ensures DriverSafety.SystemInv(devices[|happenings|].system)
    ensures Grounded(devices[0].disk, retention, Calls(happenings, devices), At(devices[|happenings|]))
    ensures Pinned(At(devices[0])) ==>
            Traced(devices[0].system.agent, retention, Calls(happenings, devices), devices[|happenings|].system.agent)
    decreases |happenings|
  {
    hide Steps, DriverSafety.SystemInv, Grounded, Stems, Traced, Sound, Pinned, CallAt;
    var start, log := At(devices[0]), Calls(happenings, devices);
    if happenings == [] {
      SoundGrounds(start, retention);
    } else {
      var n := |happenings| - 1;
      DeviceRunKeeps(retention, happenings[..n], materials[..n], devices[..n + 1]);
      assert Steps(devices[n], retention, happenings[n], materials[n], devices[n + 1]);
      StepKeeps(start, Calls(happenings[..n], devices[..n + 1]), devices[n], retention, happenings[n], materials[n], devices[n + 1]);
    }
    GroundedParts(start, retention, log, At(devices[|happenings|]));
    if Pinned(start) { StemsFromPinned(start, retention, log, devices[|happenings|].system.agent); }
  }

  lemma BeginsPinned(now: Device)
    requires Begins(now)
    ensures DriverSafety.SystemInv(now.system) && Pinned(At(now))
  {
    hide Holds, ArtifactDigest;
    InstalledPins(At(now));
  }

  /** From a pinned device on, a queued acknowledgement stays queued until the device called for its confirmation. */
  lemma AcknowledgementsStay(retention: u64, happenings: seq<Driver.Happening>, materials: seq<Material>, devices: seq<Device>, x: Outbound)
    requires retention > 0 && DeviceRun(retention, happenings, materials, devices)
    requires DriverSafety.SystemInv(devices[0].system) && Pinned(At(devices[0]))
    requires x in devices[0].system.agent.outbox && x.AckEntry?
    ensures x in devices[|happenings|].system.agent.outbox || BrokerConfirmed(x.eventId) in Calls(happenings, devices)
  {
    hide Grounded, Traced, Inv, Sound, CrashStore.Serves, DriverSafety.SystemInv, Calls, Steps;
    PinnedIsSound(At(devices[0]));
    DeviceRunKeeps(retention, happenings, materials, devices);
    Durability.TracedKeepsAck(devices[0].system.agent, retention, Calls(happenings, devices), devices[|happenings|].system.agent, x);
  }

  /** From a pinned device on, no coordinate of the installed credential falls and no sequence number comes back for another fact. */
  lemma NothingIsUndone(retention: u64, happenings: seq<Driver.Happening>, materials: seq<Material>, devices: seq<Device>)
    requires retention > 0 && DeviceRun(retention, happenings, materials, devices)
    requires DriverSafety.SystemInv(devices[0].system) && Pinned(At(devices[0]))
    ensures Durability.NoLower(devices[0].system.agent, devices[|happenings|].system.agent)
    ensures var f, g := NextOutbound(devices[0].system.agent), NextOutbound(devices[|happenings|].system.agent);
      f.Some? && g.Some? && Durability.FactSequence(f.value) == Durability.FactSequence(g.value) < U64_MAX ==> f == g
  {
    hide Grounded, Traced, Inv, Sound, CrashStore.Serves, DriverSafety.SystemInv, Calls, NextOutbound, Steps, Durability.NoLower;
    PinnedIsSound(At(devices[0]));
    DeviceRunKeeps(retention, happenings, materials, devices);
    var s, t, log := devices[0].system.agent, devices[|happenings|].system.agent, Calls(happenings, devices);
    Durability.TracedNeverFalls(s, retention, log, t);
    var f, g := NextOutbound(s), NextOutbound(t);
    if f.Some? && g.Some? && Durability.FactSequence(f.value) == Durability.FactSequence(g.value) < U64_MAX {
      Durability.TracedFacts(s, retention, log, t, f.value, g.value);
    }
  }

  lemma ConflictChangesNothing(now: Moment, retention: u64, e: Event, m: Material, next: Moment)
    requires Completes(now, retention, e, m, next) && Conflicted(now.disk, now.state, e, m)
    ensures next.state == now.state
  {
    hide Next, CallActions, PerformAll;
  }

  /**
   A delivery the device answered with a change of state leaves it pinned, with an acknowledgement of its
   command id queued; from there that answer outlasts every stop, loss and session.
   */
  lemma AnswersAreKept(now: Device, retention: u64, h: Driver.Happening, m: Material, next: Device,
                       happenings: seq<Driver.Happening>, materials: seq<Material>, devices: seq<Device>)
    returns (x: Outbound)
    requires retention > 0 && DriverSafety.SystemInv(now.system) && CrashStore.Serves(now.disk, now.system.agent)
    requires h.Delivers? && Driver.Possible(now.system, h) && Driver.Deliverable(now.system.session.value, h.delivery)
    requires Proceeds(now, retention, h, m, next) && next.system.agent != now.system.agent
    requires DeviceRun(retention, happenings, materials, devices) && devices[0] == next
    ensures x in next.system.agent.outbox && x.AckEntry? && x.ack.commandId == h.delivery.commandId
    ensures x in devices[|happenings|].system.agent.outbox || BrokerConfirmed(x.eventId) in Calls(happenings, devices)
  {
    hide Driver.Happen, Next, Completes, Traced, Inv, CrashStore.Serves, CrashStore.Supplies, Calls, Steps, Pinned, Conflicted;
    var e := h.call;
    DriverSafety.HappenKeepsInvariant(now.system, retention, h);
    DriverRuns.HappeningIsACall(now.system, retention, h);
    if Conflicted(now.disk, now.system.agent, e, m) { ConflictChangesNothing(At(now), retention, e, m, At(next)); }
    Durability.ChangePins(At(now), retention, e, m, At(next));
    x := Durability.ChangeAnswers(now.system.agent, retention, e);
    assert x.ack.commandId == h.delivery.commandId;
    AcknowledgementsStay(retention, happenings, materials, devices, x);
  }

  /**
   Whatever is cut and wherever the power fails, a certificate report was published only in a session
   opened with the revision it reports, on the report topic of that revision's identity and no other.
   */
  lemma ReportsSurviveCrashes(retention: u64, happenings: seq<Driver.Happening>, materials: seq<Material>,
                              devices: seq<Device>, p: Driver.Published)
    requires retention > 0 && DeviceRun(retention, happenings, materials, devices) && Begins(devices[0])
    requires p in devices[|happenings|].system.published && p.fact.CertificateReported?
    ensures p.revision == p.fact.report.credentialRevision
    ensures p.identity == DeviceIdentity(p.fact.report.stateHash.tenant, p.fact.report.stateHash.device,
                                         p.fact.report.credentialGeneration)
    ensures forall id, report :: p.topic == Topics.UplinkTopicText(id, report) <==> id == p.identity && report
  {
    hide Grounded, Traced, DriverSafety.SessionInv, Steps, Topics.UplinkTopicText, Calls;
    BeginsPinned(devices[0]);
    PinnedIsSound(At(devices[0]));
    DeviceRunKeeps(retention, happenings, materials, devices);
    assert DriverSafety.Rightful(p);
    forall id, report | p.topic == Topics.UplinkTopicText(id, report) ensures id == p.identity && report {
      Topics.UplinkTopicInjective(p.identity, id, true, report);
    }
  }
}
