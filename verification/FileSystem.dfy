/**
 The state directory as small file-system steps: what the process sees, what a power loss may bring
 back, the steps of an installation and of a manifest write, and what the next start makes of it.
 */
module FileSystem {
  import opened Bytes
  import opened Identities
  import opened Rotation
  import opened Preimages

  // ----- The disk -----

  datatype File = Absent | Torn | Whole(bytes: Text)

  /** A credential directory: its three files and whether its contents reached the disk. */
  datatype Folder = Folder(ca: File, certificate: File, privateKey: File, synced: bool)

  datatype Temporary = NoTemporary | TornTemporary | WholeTemporary(state: State)

  /**
   `revisions` and `manifest` are what the process sees. Of the directories only those in `durable`
   are sure to survive a power loss, and these only if the directory that holds them is `rooted`: its
   own name was synced. In place of the manifest one of the `earlier` ones, replaced since the root was
   last synced, may come back.
   */
  datatype Disk = Disk(
    staging: map<u64, Folder>, revisions: map<u64, Folder>, durable: set<u64>, rooted: bool,
    temporary: Temporary, manifest: Option<State>, earlier: seq<Option<State>>)

  function MaterialOf(f: Folder): Option<Material> {
    if f.ca.Whole? && f.certificate.Whole? && f.privateKey.Whole?
    then Some(Material(f.ca.bytes, f.certificate.bytes, f.privateKey.bytes)) else None
  }

  function FolderOf(m: Material): Folder {
    Folder(Whole(m.ca), Whole(m.certificate), Whole(m.privateKey), true)
  }

  predicate MayKeep(d: Disk, x: Option<State>) { x == d.manifest || x in d.earlier }

  /** Published directories are complete: they were synced before their rename. */
  predicate Shaped(d: Disk) {
    d.durable <= d.revisions.Keys && forall r :: r in d.revisions ==> d.revisions[r].synced
  }

  // ----- Steps -----

  datatype Action =
    | RemoveStaging(revision: u64)
    | CreateStaging(revision: u64)
    | WriteCa(revision: u64, bytes: Text)
    | WriteCertificate(revision: u64, bytes: Text)
    | WritePrivateKey(revision: u64, bytes: Text)
    | SyncStaging(revision: u64)
    | RenameStaging(revision: u64)
    | SyncCredentials
    | RemoveTemporary
    | WriteTemporary(state: State)
    | RenameTemporary
    | SyncRoot

  function Staged(d: Disk, revision: u64): Folder {
    if revision in d.staging then d.staging[revision] else Folder(Absent, Absent, Absent, false)
  }

  /** Removing a stale name syncs its directory; removing nothing does not. */
  function Perform(d: Disk, a: Action): Disk {
    match a
    case RemoveStaging(r) =>
      if r in d.staging then d.(staging := d.staging - {r}, durable := d.revisions.Keys) else d
    case CreateStaging(r) => d.(staging := d.staging[r := Folder(Absent, Absent, Absent, false)])
    case WriteCa(r, b) => d.(staging := d.staging[r := Staged(d, r).(ca := Whole(b))])
    case WriteCertificate(r, b) => d.(staging := d.staging[r := Staged(d, r).(certificate := Whole(b))])
    case WritePrivateKey(r, b) => d.(staging := d.staging[r := Staged(d, r).(privateKey := Whole(b))])
    case SyncStaging(r) => d.(staging := d.staging[r := Staged(d, r).(synced := true)])
    case RenameStaging(r) => d.(revisions := d.revisions[r := Staged(d, r)], staging := d.staging - {r})
    case SyncCredentials => d.(durable := d.revisions.Keys)
    case RemoveTemporary =>
      if d.temporary.NoTemporary? then d else d.(temporary := NoTemporary, earlier := [], rooted := true)
    case WriteTemporary(s) => d.(temporary := WholeTemporary(s))
    case RenameTemporary =>
      if d.temporary.WholeTemporary?
      then d.(manifest := Some(d.temporary.state), earlier := d.earlier + [d.manifest], temporary := NoTemporary) else d
    case SyncRoot => d.(earlier := [], rooted := true)
  }

  function PerformAll(d: Disk, actions: seq<Action>): Disk
    decreases |actions|
  {
    if actions == [] then d
    else Perform(PerformAll(d, actions[..|actions| - 1]), actions[|actions| - 1])
  }

  lemma {:induction false} PerformAppend(d: Disk, a: seq<Action>, b: seq<Action>)
    ensures PerformAll(d, a + b) == PerformAll(PerformAll(d, a), b)
    decreases |b|
  {
    if b == [] {
      assert a + b == a;
    } else {
      var c := a + b;
      assert c[..|c| - 1] == a + b[..|b| - 1] && c[|c| - 1] == b[|b| - 1];
      PerformAppend(d, a, b[..|b| - 1]);
    }
  }

  // ----- Interruptions -----

  /** The process stops: what it saw stays visible; the kernel may meanwhile have written more of it back. */
  predicate Stops(d: Disk, e: Disk) {
    && e.revisions == d.revisions && d.durable <= e.durable <= d.revisions.Keys && (d.rooted ==> e.rooted)
    && e.manifest == d.manifest && forall x :: x in e.earlier ==> x in d.earlier
  }

  /**
   The power fails: unsynced directories may vanish, all of them if their own directory was never
   synced, and an earlier manifest may come back.
   */
  predicate LosesPower(d: Disk, e: Disk) {
    && e.revisions.Keys <= d.revisions.Keys
    && (if e.rooted then d.durable <= e.revisions.Keys else !d.rooted && e.revisions == map[])
    && (forall r :: r in e.revisions && d.revisions[r].synced ==> e.revisions[r] == d.revisions[r])
    && MayKeep(d, e.manifest)
    && e.durable == e.revisions.Keys && e.earlier == []
  }

  predicate Interrupts(d: Disk, e: Disk) { Stops(d, e) || LosesPower(d, e) }

  // ----- install_revision and persist -----

  function InstallActions(d: Disk, revision: u64, m: Material): seq<Action> {
    if revision in d.revisions then []
    else [RemoveStaging(revision), CreateStaging(revision), WriteCa(revision, m.ca),
          WriteCertificate(revision, m.certificate), WritePrivateKey(revision, m.privateKey),
          SyncStaging(revision), RenameStaging(revision), SyncCredentials]
  }

  function PersistActions(s: State): seq<Action> {
    [RemoveTemporary, WriteTemporary(s), RenameTemporary, SyncRoot]
  }

  /** `install_revision` succeeds over nothing, or over a directory holding the same material. */
  predicate Installs(d: Disk, revision: u64, m: Material) {
    revision in d.revisions ==> MaterialOf(d.revisions[revision]) == Some(m)
  }

  // ----- The steps of one call -----

  /** The delivery gets as far as `install_revision`, which comes before the candidate is validated. */
  predicate ReachesInstall(s: State, e: Event) {
    && e.Deliver?
    && FindLive(s.journal, e.command.commandId, e.now).None? && !RotationInFlight(s)
    && Decide(s, e.topic, e.command, e.resolution, e.now).Install? && e.resolution.Resolved?
    && |s.outbox| + 2 <= OUTBOX_LIMIT && |Expire(s, ClampToI64(e.now)).journal| < JOURNAL_LIMIT
    && s.current.credentialRevision < U64_MAX
  }

  /** The installation meets a directory with other material: the call fails with RevisionConflict. */
  predicate Conflicted(d: Disk, s: State, e: Event, m: Material) {
    ReachesInstall(s, e) && !Installs(d, s.current.credentialRevision + 1, m)
  }

  function InstallSteps(d: Disk, s: State, e: Event, m: Material): seq<Action> {
    if ReachesInstall(s, e) then InstallActions(d, s.current.credentialRevision + 1, m) else []
  }

  /** A confirmation, reconnect or settlement that succeeds is written, and any other call exactly if it changes the state. */
  predicate WritesFit(s: State, step: Step, writes: bool) {
    (writes <==> step.outcome.Done? || step.state != s) && (step.outcome.Refused? ==> !writes)
  }

  function CallActions(d: Disk, s: State, retention: u64, e: Event, m: Material, writes: bool): seq<Action> {
    if Conflicted(d, s, e, m) then []
    else InstallSteps(d, s, e, m) + (if writes then PersistActions(Next(s, retention, e).state) else [])
  }

  // ----- open -----

  datatype Opened = Running(state: State) | Fresh | Failed

  predicate Holds(revisions: map<u64, Folder>, s: State) {
    && s.current.credentialRevision in revisions
    && MaterialOf(revisions[s.current.credentialRevision]).Some?
    && ArtifactDigest(MaterialOf(revisions[s.current.credentialRevision]).value) == s.current.artifactDigest
  }

  function Open(d: Disk, id: DeviceIdentity): Opened {
    match d.manifest
    case Some(s) => if Verify(s, id) && Holds(d.revisions, s) then Running(s) else Failed
    case None => if d.revisions == map[] then Fresh else Failed
  }

  /** `open_or_initialize`: a fresh directory is bootstrapped, anything else is read or refused. */
  function BootstrapActions(d: Disk, s: State, m: Material): seq<Action> {
    InstallActions(d, s.current.credentialRevision, m) + PersistActions(s)
  }

  function StartActions(d: Disk, s: State, m: Material): seq<Action> {
    if Open(d, s.identity).Fresh? then BootstrapActions(d, s, m) else []
  }
}
