/**
 The artifact catalog: the order in which a command's artifact is decided, and what it means for an
 accepted command. Reading files and checking certificates are arbitrary functions of their inputs.
 */
module Catalog {
  import opened Bytes
  import opened Identities
  import opened Rotation
  import opened RotationInvariant
  import opened Operations
  import opened Preimages

  datatype CredentialError = FilesUnavailable | MaterialMalformed | InsecurePrivateKey | Untrusted | IdentityMismatch

  datatype CatalogError =
    | Unavailable
    | Malformed
    | NotFound
    | BindingMismatch
    | DigestMismatch
    | Revoked
    | Credential(error: CredentialError)

  datatype Result<+T> = Ok(value: T) | Err(error: CatalogError)

  datatype Entry = Entry(
    artifactId: Text, artifactDigest: Digest, tenant: Uuid, device: Uuid, credentialGeneration: u64,
    desiredGeneration: u64, fenceEpoch: u64, intentDigest: Digest, policyHash: Digest,
    caPath: Text, certificatePath: Text, privateKeyPath: Text, revoked: bool)

  datatype CatalogFile = Absent | Unparsable | Parsed(schemaVersion: int, artifacts: seq<Entry>)

  /** `read` takes a path and whether it must be private; `check` yields the expiry of valid material. */
  datatype Files = Files(
    catalog: CatalogFile,
    read: (Text, bool) -> Result<Text>,
    check: (Material, DeviceIdentity, u64) -> Result<i64>)

  datatype Artifact = Artifact(generation: u64, digest: Digest, expiresAt: i64)

  function FindEntry(artifacts: seq<Entry>, artifactId: Text): (r: Option<Entry>)
    ensures r.Some? ==> exists i :: 0 <= i < |artifacts| && artifacts[i] == r.value && r.value.artifactId == artifactId
                                    && forall j :: 0 <= j < i ==> artifacts[j].artifactId != artifactId
    ensures r.None? ==> forall i :: 0 <= i < |artifacts| ==> artifacts[i].artifactId != artifactId
  {
    if artifacts == [] then None
    else if artifacts[0].artifactId == artifactId then Some(artifacts[0])
    else
      var rest := FindEntry(artifacts[1..], artifactId);
      assert rest.Some? ==> forall i :: 0 <= i < |artifacts| - 1 ==> artifacts[1..][i] == artifacts[i + 1];
      rest
  }

  /** `validate_binding`. */
  predicate Bound(id: DeviceIdentity, c: DeviceCommand, e: Entry) {
    && e.tenant == id.tenant && e.device == id.device
    && e.desiredGeneration == c.desiredGeneration && e.fenceEpoch == c.fenceEpoch
    && e.intentDigest == c.intentDigest && e.policyHash == c.policyHash
  }

  function ReadMaterial(f: Files, e: Entry): Result<Material> {
    var ca := f.read(e.caPath, false);
    if ca.Err? then Err(ca.error) else
    var certificate := f.read(e.certificatePath, false);
    if certificate.Err? then Err(certificate.error) else
    var key := f.read(e.privateKeyPath, true);
    if key.Err? then Err(key.error) else Ok(Material(ca.value, certificate.value, key.value))
  }

  /** `resolve`, in the order of its checks. */
  function Resolve(f: Files, id: DeviceIdentity, c: DeviceCommand, now: u64): Result<Artifact> {
    match f.catalog
    case Absent => Err(Unavailable)
    case Unparsable => Err(Malformed)
    case Parsed(version, artifacts) =>
      if version != 1 then Err(Malformed) else
      var found := FindEntry(artifacts, c.artifactId);
      if found.None? then Err(NotFound) else
      var e := found.value;
      if !Bound(id, c, e) then Err(BindingMismatch) else
      if e.revoked then Err(Revoked) else
      var material := ReadMaterial(f, e);
      if material.Err? then Err(material.error) else
      var computed := ArtifactDigest(material.value);
      if e.artifactDigest.NotADigest? then Err(Malformed) else
      if computed != c.artifactDigest || computed != e.artifactDigest then Err(DigestMismatch) else
      if e.credentialGeneration == 0 then Err(Malformed) else
      var target := DeviceIdentity(id.tenant, id.device, e.credentialGeneration);
      if !ValidIdentity(target) then Err(BindingMismatch) else
      var expiry := f.check(material.value, target, now);
      if expiry.Err? then Err(expiry.error) else Ok(Artifact(e.credentialGeneration, computed, expiry.value))
  }

  /** `catalog_rejection`. */
  function RejectionFor(error: CatalogError): Rejection {
    match error
    case NotFound => ArtifactUnavailable
    case Unavailable => ArtifactUnavailable
    case DigestMismatch => ArtifactDigestMismatch
    case BindingMismatch => PolicyRejected
    case Revoked => PolicyRejected
    case Malformed => MalformedCommand
    case Credential(e) => if e.Untrusted? || e.IdentityMismatch? then PolicyRejected else DeviceFailure
  }

  function ResolutionOf(r: Result<Artifact>): Resolution {
    match r
    case Ok(a) => Resolved(a.generation, a.digest, a.expiresAt)
    case Err(e) => Unresolved(RejectionFor(e))
  }

  /** The first entry with the commanded id is live, bound to this device and command, and its files are what it says. */
  ghost predicate Usable(f: Files, id: DeviceIdentity, c: DeviceCommand, now: u64, e: Entry, m: Material, expiresAt: i64) {
    && f.catalog.Parsed? && f.catalog.schemaVersion == 1
    && FindEntry(f.catalog.artifacts, c.artifactId) == Some(e)
    && Bound(id, c, e) && !e.revoked
    && ReadMaterial(f, e) == Ok(m)
    && ArtifactDigest(m) == c.artifactDigest == e.artifactDigest
    && e.credentialGeneration > 0
    && f.check(m, DeviceIdentity(id.tenant, id.device, e.credentialGeneration), now) == Ok(expiresAt)
  }

  lemma ResolvesExactly(f: Files, id: DeviceIdentity, c: DeviceCommand, now: u64, a: Artifact)
    requires !IsNil(id.tenant) && !IsNil(id.device)
    ensures Resolve(f, id, c, now) == Ok(a) <==>
            exists e, m :: Usable(f, id, c, now, e, m, a.expiresAt) && a.generation == e.credentialGeneration && a.digest == c.artifactDigest
  {
    if Resolve(f, id, c, now) == Ok(a) {
      var e := FindEntry(f.catalog.artifacts, c.artifactId).value;
      assert Usable(f, id, c, now, e, ReadMaterial(f, e).value, a.expiresAt);
    }
  }

  /** The catalog's own checks, in their order, with no entry for the id or with a first one that is wrong. */
  lemma CatalogErrors(f: Files, id: DeviceIdentity, c: DeviceCommand, now: u64)
    ensures f.catalog.Absent? ==> Resolve(f, id, c, now) == Err(Unavailable)
    ensures f.catalog.Unparsable? || (f.catalog.Parsed? && f.catalog.schemaVersion != 1) ==> Resolve(f, id, c, now) == Err(Malformed)
    ensures var known := f.catalog.Parsed? && exists e :: e in f.catalog.artifacts && e.artifactId == c.artifactId;
      f.catalog.Parsed? && f.catalog.schemaVersion == 1 && !known ==> Resolve(f, id, c, now) == Err(NotFound)
  {
    hide ArtifactDigest, ReadMaterial;
  }

  /** The first entry with the commanded id. */
  predicate FirstEntry(f: Files, c: DeviceCommand, i: nat) {
    && f.catalog.Parsed? && f.catalog.schemaVersion == 1
    && i < |f.catalog.artifacts| && f.catalog.artifacts[i].artifactId == c.artifactId
    && forall j :: 0 <= j < i ==> f.catalog.artifacts[j].artifactId != c.artifactId
  }

  /** The checks of that entry, in their order: binding, revocation, files, digests, generation, credential. */
  lemma EntryErrors(f: Files, id: DeviceIdentity, c: DeviceCommand, now: u64, i: nat)
    requires FirstEntry(f, c, i) && !IsNil(id.tenant) && !IsNil(id.device)
    ensures var e := f.catalog.artifacts[i];
            var bound := e.tenant == id.tenant && e.device == id.device && e.desiredGeneration == c.desiredGeneration
                         && e.fenceEpoch == c.fenceEpoch && e.intentDigest == c.intentDigest && e.policyHash == c.policyHash;
            var ca, certificate, key := f.read(e.caPath, false), f.read(e.certificatePath, false), f.read(e.privateKeyPath, true);
      Resolve(f, id, c, now) ==
        if !bound then Err(BindingMismatch)
        else if e.revoked then Err(Revoked)
        else if ca.Err? then Err(ca.error)
        else if certificate.Err? then Err(certificate.error)
        else if key.Err? then Err(key.error)
        else
          var m := Material(ca.value, certificate.value, key.value);
          if e.artifactDigest.NotADigest? then Err(Malformed)
          else if c.artifactDigest != ArtifactDigest(m) || e.artifactDigest != ArtifactDigest(m) then Err(DigestMismatch)
          else if e.credentialGeneration == 0 then Err(Malformed)
          else
            var checked := f.check(m, DeviceIdentity(id.tenant, id.device, e.credentialGeneration), now);
            if checked.Err? then Err(checked.error)
            else Ok(Artifact(e.credentialGeneration, ArtifactDigest(m), checked.value))
  {
    hide ArtifactDigest;
    var e := FindEntry(f.catalog.artifacts, c.artifactId);
    assert e == Some(f.catalog.artifacts[i]);
  }

  // ----- What the catalog's answer makes of a command -----

  /** The reason a command in time and in scope is turned away with, for each thing the catalog may find. */
  function ReasonFor(error: CatalogError): Rejection {
    if error.NotFound? || error.Unavailable? then ArtifactUnavailable
    else if error.DigestMismatch? then ArtifactDigestMismatch
    else if error.Malformed? then MalformedCommand
    else if error.Credential? && (error.error.FilesUnavailable? || error.error.MaterialMalformed? || error.error.InsecurePrivateKey?)
    then DeviceFailure
    else PolicyRejected
  }

  /** What the catalog finds decides the rejection of a new command, once it is in scope and in time. */
  lemma CatalogDecides(s: State, retention: u64, f: Files, topic: Topic, c: DeviceCommand, fingerprint: Digest, now: u64)
    requires Inv(s) && retention > 0 && WellTyped(Delivered(s, f, topic, c, fingerprint, now))
    requires topic == CommandTopic(s.identity) && c.deviceId == s.identity.device && c.deadline > now
    requires Resolve(f, s.identity, c, now).Err?
    requires forall x :: x in s.journal && x.commandId == c.commandId ==> x.retainUntil <= now
    requires !Next(s, retention, Delivered(s, f, topic, c, fingerprint, now)).outcome.Refused?
    ensures Next(s, retention, Delivered(s, f, topic, c, fingerprint, now)).outcome
            == Rejected(ReasonFor(Resolve(f, s.identity, c, now).error))
  {
    hide Next, Resolve, Verify, Owned;
    assert FindLive(s.journal, c.commandId, now).None?;
    DeliverExact(s, retention, Delivered(s, f, topic, c, fingerprint, now));
  }

  // ----- What an accepted command installed -----

  function Delivered(s: State, f: Files, topic: Topic, c: DeviceCommand, fingerprint: Digest, now: u64): Event {
    Deliver(topic, c, fingerprint, ResolutionOf(Resolve(f, s.identity, c, now)), now)
  }

  /** What the state records when a command is accepted, whatever the state and however it was reached. */
  lemma AcceptedRecords(s: State, retention: u64, e: Event)
    requires e.Deliver? && Next(s, retention, e).outcome == Accepted
    ensures e.resolution.Resolved? && !IsNil(s.identity.tenant) && !IsNil(s.identity.device) && e.topic == CommandTopic(s.identity)
    ensures var t := Next(s, retention, e).state;
            t.identity == s.identity.(generation := e.resolution.credentialGeneration)
            && t.current.artifactDigest == e.resolution.digest && t.current.expiresAt == e.resolution.expiresAt
            && t.current.desiredGeneration == e.command.desiredGeneration && t.current.fenceEpoch == e.command.fenceEpoch
            && t.current.expiresAt > 0
    ensures e.command.deviceId == s.identity.device && e.command.deadline > e.now
    ensures e.command.desiredGeneration > s.current.desiredGeneration && e.command.fenceEpoch >= s.current.fenceEpoch
    ensures e.resolution.credentialGeneration > s.identity.generation
  {
    hide CommandMatch, ReplayKnown, RefuseConflict, Rotation.RejectCommand, Retain, Validate, RotationInFlight;
    KnownNeverAccepts(s, e);
    RejectionNeverAccepts(s, retention, e);
    var candidate := Expire(s, ClampToI64(e.now));
    var t := Next(s, retention, e).state;
    assert Validate(t) && t == Accept(candidate, CommandAcceptance(candidate, e.command, e.fingerprint, e.resolution, retention, e.now));
    ValidatedCoordinates(t);
  }

  lemma ValidatedCoordinates(s: State)
    requires Validate(s)
    ensures s.current.expiresAt > 0 && ValidIdentity(s.identity)
  {}

  lemma KnownNeverAccepts(s: State, e: Event)
    requires e.Deliver?
    ensures ReplayKnown(s, e.command.commandId, e.fingerprint).outcome != Accepted
    ensures RefuseConflict(s, e.command.commandId, e.fingerprint, e.command.desiredGeneration, e.command.fenceEpoch, e.now).outcome
            != Accepted
  {}

  lemma RejectionNeverAccepts(s: State, retention: u64, e: Event)
    requires e.Deliver?
    ensures forall reason :: Rotation.RejectCommand(s, retention, e.command, e.fingerprint, reason, e.now).outcome != Accepted
  {}

  /**
   An accepted command installed the artifact it named: a live catalog entry bound to this device
   and this command, whose files hash to the commanded digest and pass the credential check for
   exactly the identity, digest and expiry the new state records.
   */
  lemma AcceptedIsWhatWasCommanded(s: State, retention: u64, f: Files, topic: Topic, c: DeviceCommand, fingerprint: Digest, now: u64)
    returns (e: Entry, m: Material)
    requires Next(s, retention, Delivered(s, f, topic, c, fingerprint, now)).outcome == Accepted
    ensures var t := Next(s, retention, Delivered(s, f, topic, c, fingerprint, now)).state;
            && Usable(f, s.identity, c, now, e, m, t.current.expiresAt)
            && t.identity == DeviceIdentity(s.identity.tenant, s.identity.device, e.credentialGeneration)
            && t.current.artifactDigest == ArtifactDigest(m) == c.artifactDigest
            && t.current.desiredGeneration == e.desiredGeneration && t.current.fenceEpoch == e.fenceEpoch
            && t.current.expiresAt > 0
    ensures topic == CommandTopic(s.identity) && c.deviceId == s.identity.device && c.deadline > now
    ensures e.desiredGeneration > s.current.desiredGeneration && e.fenceEpoch >= s.current.fenceEpoch
    ensures e.credentialGeneration > s.identity.generation
  {
    hide Next, Usable, ArtifactDigest;
    AcceptedRecords(s, retention, Delivered(s, f, topic, c, fingerprint, now));
    var a := Resolve(f, s.identity, c, now).value;
    ResolvesExactly(f, s.identity, c, now, a);
    e, m :| Usable(f, s.identity, c, now, e, m, a.expiresAt) && a.generation == e.credentialGeneration && a.digest == c.artifactDigest;
    UsableParts(f, s.identity, c, now, e, m, a.expiresAt);
  }

  lemma UsableParts(f: Files, id: DeviceIdentity, c: DeviceCommand, now: u64, e: Entry, m: Material, expiresAt: i64)
    requires Usable(f, id, c, now, e, m, expiresAt)
    ensures ArtifactDigest(m) == c.artifactDigest && e.desiredGeneration == c.desiredGeneration && e.fenceEpoch == c.fenceEpoch
  {}

  /** One commanded digest names one material: the same digest never installs two different file sets. */
  lemma DigestNamesOneMaterial(f: Files, g: Files, id: DeviceIdentity, id': DeviceIdentity, c: DeviceCommand, d: DeviceCommand,
                               now: u64, now': u64, e: Entry, e': Entry, m: Material, m': Material, x: i64, x': i64)
    requires Usable(f, id, c, now, e, m, x) && Usable(g, id', d, now', e', m', x')
    requires Addressable(m) && Addressable(m')
    ensures c.artifactDigest == d.artifactDigest <==> m == m'
  {
    hide Bound, FindEntry, ArtifactPreimage;
    if c.artifactDigest == d.artifactDigest { ArtifactPreimageInjective(m, m'); }
  }
}
