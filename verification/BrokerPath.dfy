/**
 A command on its way from the service through the broker plugin to the agent: which messages the
 plugin passes, what it adds to them, and what the agent's session accepts. The hash and the
 signature scheme are arbitrary functions, constrained only where a theorem names the assumption.
 */
module BrokerPath {
  import opened Bytes
  import opened Identities
  import opened Topics
  import Base64
  import CanonicalFrame
  import Utf8

  datatype Property =
    | UserProperty(name: Text, value: Text)
    | CorrelationData(value: Text)
    | OtherProperty(identifier: nat)

  datatype Client = NoClient | Anonymous | Named(username: Text)

  datatype Message = Message(
    client: Client, topic: Text, payload: Text, properties: seq<Property>, qos: byte, retain: bool)

  /** What the MQTT encoding itself bounds: 16-bit lengths, and no NUL in a topic. */
  predicate OnTheWire(m: Message) {
    && 0 !in m.topic
    && forall p :: p in m.properties && p.CorrelationData? ==> |p.value| <= U16_MAX
  }

  datatype Crypto = Crypto(sha256: Text -> Text, sign: Text -> Text, verifies: (Text, Text) -> bool)

  /** A correct sign/verify pair with the sizes of SHA-256 and Ed25519. */
  ghost predicate Correct(k: Crypto) {
    && (forall p :: |k.sha256(p)| == 32)
    && (forall m :: |k.sign(m)| == 64 && k.verifies(m, k.sign(m)))
  }

  function Prefix(): Text { Ascii("rss.authn.v1.") }
  function VersionKey(): Text { Prefix() + Ascii("version") }
  function PrincipalKey(): Text { Prefix() + Ascii("principal") }
  function SignatureKey(): Text { Prefix() + Ascii("signature") }
  function Version(): Text { [49] }
  function ServiceUsername(): Text { Ascii("deviceidentity-service") }

  lemma KeysApart()
    ensures VersionKey() != PrincipalKey() && VersionKey() != SignatureKey() && PrincipalKey() != SignatureKey()
    ensures Prefix() <= VersionKey() && Prefix() <= PrincipalKey() && Prefix() <= SignatureKey()
  {
    var n := |Prefix()|;
    assert |VersionKey()| == n + 7 && |PrincipalKey()| == n + 9 && |SignatureKey()| == n + 9;
    assert PrincipalKey()[n] == Ascii("principal")[0] == 112;
    assert SignatureKey()[n] == Ascii("signature")[0] == 115;
  }

  // ----- The plugin -----

  predicate Reserved(p: Property) { p.UserProperty? && Prefix() <= p.name }

  predicate HasReserved(properties: seq<Property>) { exists p :: p in properties && Reserved(p) }

  /** What may fail inside the broker: reading a user property, reading the correlation, signing, adding a property. */
  datatype Faults = Faults(unreadable: set<nat>, correlation: bool, signing: bool, additions: nat)

  predicate NoFault(f: Faults) { f.unreadable == {} && !f.correlation && !f.signing && f.additions >= 3 }

  /** A user property that cannot be read counts as reserved. */
  predicate Suspect(properties: seq<Property>, unreadable: set<nat>, i: nat) {
    i < |properties| && properties[i].UserProperty? && (i in unreadable || Prefix() <= properties[i].name)
  }

  method HasReservedProperty(properties: seq<Property>, unreadable: set<nat>) returns (found: bool)
    ensures found <==> exists i :: Suspect(properties, unreadable, i)
    ensures !found ==> !HasReserved(properties)
    ensures unreadable == {} ==> (found <==> HasReserved(properties))
  {
    var i := 0;
    while i < |properties|
      invariant 0 <= i <= |properties|
      invariant forall k: nat :: k < i ==> !Suspect(properties, unreadable, k) && !Reserved(properties[k])
    {
      var property := properties[i];
      if property.UserProperty? && (i in unreadable || Prefix() <= property.name) {
        assert Suspect(properties, unreadable, i);
        assert property in properties && (unreadable == {} ==> Reserved(property));
        return true;
      }
      i := i + 1;
    }
    return false;
  }

  function Correlations(properties: seq<Property>): (r: seq<Text>)
    ensures forall v :: v in r ==> CorrelationData(v) in properties
  {
    if properties == [] then []
    else
      var init := Correlations(properties[..|properties| - 1]);
      var last := properties[|properties| - 1];
      if last.CorrelationData? then init + [last.value] else init
  }

  predicate OneCommandId(properties: seq<Property>) { |Correlations(properties)| == 1 }

  /** Exactly one correlation property, holding what the agent accepts as a command id. */
  method ExactCorrelationData(properties: seq<Property>) returns (value: Option<Text>)
    requires forall p :: p in properties && p.CorrelationData? ==> |p.value| <= U16_MAX
    ensures value.Some? <==> OneCommandId(properties) && Utf8.AgentAccepts(Correlations(properties)[0])
    ensures value.Some? ==> value.value == Correlations(properties)[0]
  {
    var count := 0;
    var first: Option<Text> := None;
    var i := 0;
    while i < |properties|
      invariant 0 <= i <= |properties|
      invariant count == |Correlations(properties[..i])|
      invariant first == if count == 0 then None else Some(Correlations(properties[..i])[0])
    {
      assert properties[..i + 1][..i] == properties[..i];
      if properties[i].CorrelationData? {
        if first.None? { first := Some(properties[i].value); }
        count := count + 1;
      }
      i := i + 1;
    }
    assert properties[..i] == properties;
    if count != 1 || first.None? { return None; }
    assert CorrelationData(first.value) in properties;
    var canonical := Utf8.CanonicalCommandId(first.value);
    if !canonical { return None; }
    return first;
  }

  predicate Contains(t: Text, part: Text) {
    part <= t || (t != [] && Contains(t[1..], part))
  }

  predicate FromService(m: Message) {
    m.client == Named(ServiceUsername()) && m.qos == 1 && !m.retain
  }

  ghost predicate Admitted(m: Message) {
    && FromService(m)
    && (exists id :: PrintsTopic(id, m.topic))
    && OneCommandId(m.properties) && Utf8.AgentAccepts(Correlations(m.properties)[0])
  }

  function SignedFrame(k: Crypto, principal: Text, m: Message, correlation: Text): CanonicalFrame.Frame {
    CanonicalFrame.Frame(principal, m.topic, correlation, k.sha256(m.payload), m.qos, m.retain)
  }

  function Assertion(k: Crypto, principal: Text, m: Message, correlation: Text): (r: seq<Property>)
    ensures |r| == 3 && r[2].UserProperty?
  {
    [UserProperty(VersionKey(), Version()),
     UserProperty(PrincipalKey(), principal),
     UserProperty(SignatureKey(),
                  Base64.UrlText(k.sign(CanonicalFrame.CanonicalBytes(SignedFrame(k, principal, m, correlation)))))]
  }

  /** `Broken` is an error of the broker, on which it does not pass the message either. */
  datatype Verdict = Denied | Broken | Unchanged | Signed(properties: seq<Property>)

  ghost predicate VerdictFor(k: Crypto, m: Message, v: Verdict) {
    if m.client.NoClient? || HasReserved(m.properties) then v == Denied
    else if !Contains(m.topic, Downlink()) then v == Unchanged
    else if !Admitted(m) then v == Denied
    else
      && v.Signed?
      && forall id :: PrintsTopic(id, m.topic) ==>
           v.properties == m.properties + Assertion(k, PrincipalUrn(id), m, Correlations(m.properties)[0])
  }

  /** `sign_message`: hash, fill the canonical buffer, sign, encode. */
  method SignMessage(k: Crypto, principal: Text, m: Message, correlation: Text) returns (signature: Text)
    requires Correct(k) && CanonicalFrame.Encodable(SignedFrame(k, principal, m, correlation))
    ensures signature == Base64.UrlText(k.sign(CanonicalFrame.CanonicalBytes(SignedFrame(k, principal, m, correlation))))
  {
    hide CanonicalFrame.CanonicalBytes, Base64.UrlText;
    var frame := SignedFrame(k, principal, m, correlation);
    var canonical, filled := CanonicalFrame.PluginBytes(frame);
    signature := Base64.EncodeSignature(k.sign(canonical[..]));
  }

  lemma SignedFrameEncodable(k: Crypto, id: DeviceIdentity, m: Message, correlation: Text)
    requires Correct(k) && PrintsTopic(id, m.topic) && |correlation| <= U16_MAX
    ensures |PrincipalUrn(id)| < PRINCIPAL_CAPACITY
    ensures CanonicalFrame.Encodable(SignedFrame(k, PrincipalUrn(id), m, correlation))
  {
    hide Hyphenated, Decimal;
    GenerationWidth(id.generation);
    assert |PrincipalUrn(id)| <= 23 + 36 + 1 + 36 + 1 + 20;
    assert |CommandTopicText(id)| <= 7 + 36 + 1 + 36 + 1 + 20 + 10 + 42;
  }

  /**
   `on_message`: every branch, with the properties it leaves on a signed message. A fault only ever
   holds a message back: what is passed is passed as without one.
   */
  method OnMessage(k: Crypto, m: Message, faults: Faults) returns (v: Verdict)
    requires Correct(k) && OnTheWire(m)
    ensures v.Unchanged? || v.Signed? || NoFault(faults) ==> VerdictFor(k, m, v)
  {
    hide PrintsTopic, PrincipalUrn, Contains, Utf8.AgentAccepts, Base64.UrlText;
    var reserved := HasReservedProperty(m.properties, faults.unreadable);
    if m.client.NoClient? || reserved { return Denied; }
    if !Contains(m.topic, Downlink()) { return Unchanged; }
    if m.client.Anonymous? || m.client.username != ServiceUsername() || m.qos != 1 || m.retain { return Denied; }
    var principal := CommandPrincipal(m.topic);
    if principal.None? { return Denied; }
    var correlation := ExactCorrelationData(m.properties);
    if faults.correlation || correlation.None? { return Denied; }
    assert CorrelationData(correlation.value) in m.properties;
    ghost var id :| PrintsTopic(id, m.topic);
    SignedFrameEncodable(k, id, m, correlation.value);
    if faults.signing { return Broken; }
    var signature := SignMessage(k, principal.value, m, correlation.value);
    if faults.additions < 3 { return Broken; }
    var added := [UserProperty(VersionKey(), Version()), UserProperty(PrincipalKey(), principal.value),
                  UserProperty(SignatureKey(), signature)];
    return Signed(m.properties + added);
  }

  // ----- The agent -----

  datatype Pair = Pair(key: Text, value: Text)

  /** A PUBLISH as the client library hands it over. */
  datatype Publish = Publish(
    topic: Text, payload: Text, qos: byte, retain: bool, correlation: Option<Text>, user: seq<Pair>)

  datatype Slots = Slots(principal: Text, signature: Text)

  function ReservedPairs(user: seq<Pair>): seq<Pair> {
    if user == [] then []
    else
      var init := ReservedPairs(user[..|user| - 1]);
      var last := user[|user| - 1];
      if Prefix() <= last.key then init + [last] else init
  }

  function Expected(s: Slots): multiset<Pair> {
    multiset{Pair(VersionKey(), Version()), Pair(PrincipalKey(), s.principal), Pair(SignatureKey(), s.signature)}
  }

  /** The reserved pairs are exactly the three of the assertion, each once, in any order. */
  predicate Asserts(user: seq<Pair>, s: Slots) {
    multiset(ReservedPairs(user)) == Expected(s)
  }

  function InSlot(key: Text, slot: Option<Text>): multiset<Pair> {
    if slot.Some? then multiset{Pair(key, slot.value)} else multiset{}
  }

  lemma {:induction false} ReservedPrefix(user: seq<Pair>, i: nat)
    requires i <= |user|
    ensures multiset(ReservedPairs(user[..i])) <= multiset(ReservedPairs(user))
    decreases |user|
  {
    if i < |user| {
      ReservedPrefix(user[..|user| - 1], i);
      assert user[..|user| - 1][..i] == user[..i];
    } else {
      assert user[..i] == user;
    }
  }

  lemma ReservedStep(user: seq<Pair>, i: nat)
    requires i < |user|
    ensures multiset(ReservedPairs(user[..i + 1])) ==
            multiset(ReservedPairs(user[..i])) + (if Prefix() <= user[i].key then multiset{user[i]} else multiset{})
    ensures multiset(ReservedPairs(user[..i + 1])) <= multiset(ReservedPairs(user))
  {
    hide Prefix;
    var shorter, longer := user[..i], user[..i + 1];
    assert longer[..|longer| - 1] == shorter && longer[|longer| - 1] == user[i];
    if Prefix() <= user[i].key {
      assert ReservedPairs(longer) == ReservedPairs(shorter) + [user[i]];
    } else {
      assert ReservedPairs(longer) == ReservedPairs(shorter);
    }
    ReservedPrefix(user, i + 1);
  }

  ghost predicate Filled(user: seq<Pair>, version: Option<Text>, principal: Option<Text>, signature: Option<Text>) {
    multiset(ReservedPairs(user)) ==
      InSlot(VersionKey(), version) + InSlot(PrincipalKey(), principal) + InSlot(SignatureKey(), signature)
  }

  /** `assertion_properties`: fills one option slot per key and refuses a second value for any. */
  method AssertionProperties(user: seq<Pair>) returns (r: Option<Slots>)
    ensures forall s :: Asserts(user, s) <==> r == Some(s)
  {
    hide VersionKey, PrincipalKey, SignatureKey, Prefix, ReservedPairs, Asserts, Filled;
    var version: Option<Text>, principal: Option<Text>, signature: Option<Text> := None, None, None;
    var i := 0;
    assert user[..0] == [];
    NothingFilled();
    while i < |user|
      invariant 0 <= i <= |user| && Filled(user[..i], version, principal, signature)
    {
      var key, value := user[i].key, user[i].value;
      ReservedStep(user, i);
      if Prefix() <= key {
        if key == VersionKey() {
          FillVersion(user, i, version, principal, signature);
          if version.Some? { return None; }
          version := Some(value);
        } else if key == PrincipalKey() {
          FillPrincipal(user, i, version, principal, signature);
          if principal.Some? { return None; }
          principal := Some(value);
        } else if key == SignatureKey() {
          FillSignature(user, i, version, principal, signature);
          if signature.Some? { return None; }
          signature := Some(value);
        } else {
          assert user[i] in multiset(ReservedPairs(user[..i + 1]));
          Unexpected(user, user[i]);
          return None;
        }
      } else {
        FilledDepends(user[..i], user[..i + 1], version, principal, signature);
      }
      i := i + 1;
    }
    assert user[..i] == user;
    FilledSlots(user, version, principal, signature);
    if version != Some(Version()) || principal.None? || signature.None? { return None; }
    return Some(Slots(principal.value, signature.value));
  }

  ghost predicate NeverAsserts(user: seq<Pair>) { forall s :: !Asserts(user, s) }

  lemma FillVersion(user: seq<Pair>, i: nat, version: Option<Text>, principal: Option<Text>, signature: Option<Text>)
    requires i < |user| && Filled(user[..i], version, principal, signature)
    requires Prefix() <= user[i].key && user[i].key == VersionKey()
    ensures if version.Some? then NeverAsserts(user) else Filled(user[..i + 1], Some(user[i].value), principal, signature)
  {
    hide VersionKey, PrincipalKey, SignatureKey, Prefix, ReservedPairs, Asserts, InSlot;
    ReservedStep(user, i);
    var v, p, s := InSlot(VersionKey(), version), InSlot(PrincipalKey(), principal), InSlot(SignatureKey(), signature);
    var before := multiset(ReservedPairs(user[..i]));
    assert before == InSlot(VersionKey(), version) + (p + s);
    FillSlot(before, multiset(ReservedPairs(user)), p + s, user[i], version);
    if version.Some? { Repeated(user, Pair(user[i].key, version.value), user[i]); }
  }

  lemma FillPrincipal(user: seq<Pair>, i: nat, version: Option<Text>, principal: Option<Text>, signature: Option<Text>)
    requires i < |user| && Filled(user[..i], version, principal, signature)
    requires Prefix() <= user[i].key && user[i].key == PrincipalKey()
    ensures if principal.Some? then NeverAsserts(user) else Filled(user[..i + 1], version, Some(user[i].value), signature)
  {
    hide VersionKey, PrincipalKey, SignatureKey, Prefix, ReservedPairs, Asserts, InSlot;
    ReservedStep(user, i);
    var v, p, s := InSlot(VersionKey(), version), InSlot(PrincipalKey(), principal), InSlot(SignatureKey(), signature);
    var before := multiset(ReservedPairs(user[..i]));
    assert before == InSlot(PrincipalKey(), principal) + (v + s);
    FillSlot(before, multiset(ReservedPairs(user)), v + s, user[i], principal);
    if principal.Some? { Repeated(user, Pair(user[i].key, principal.value), user[i]); }
  }

  lemma FillSignature(user: seq<Pair>, i: nat, version: Option<Text>, principal: Option<Text>, signature: Option<Text>)
    requires i < |user| && Filled(user[..i], version, principal, signature)
    requires Prefix() <= user[i].key && user[i].key == SignatureKey()
    ensures if signature.Some? then NeverAsserts(user) else Filled(user[..i + 1], version, principal, Some(user[i].value))
  {
    hide VersionKey, PrincipalKey, SignatureKey, Prefix, ReservedPairs, Asserts, InSlot;
    ReservedStep(user, i);
    var v, p, s := InSlot(VersionKey(), version), InSlot(PrincipalKey(), principal), InSlot(SignatureKey(), signature);
    var before := multiset(ReservedPairs(user[..i]));
    assert before == InSlot(SignatureKey(), signature) + (v + p);
    FillSlot(before, multiset(ReservedPairs(user)), v + p, user[i], signature);
    if signature.Some? { Repeated(user, Pair(user[i].key, signature.value), user[i]); }
  }

  lemma FillSlot(before: multiset<Pair>, all: multiset<Pair>, rest: multiset<Pair>, a: Pair, slot: Option<Text>)
    requires before == InSlot(a.key, slot) + rest && before + multiset{a} <= all
    ensures slot.None? ==> before + multiset{a} == InSlot(a.key, Some(a.value)) + rest
    ensures slot.Some? ==> multiset{Pair(a.key, slot.value), a} <= all
  {}

  lemma FilledDepends(a: seq<Pair>, b: seq<Pair>, version: Option<Text>, principal: Option<Text>, signature: Option<Text>)
    requires Filled(a, version, principal, signature) && multiset(ReservedPairs(a)) == multiset(ReservedPairs(b))
    ensures Filled(b, version, principal, signature)
  {}

  lemma NothingFilled()
    ensures Filled([], None, None, None)
  {}

  lemma ExpectedKeys(s: Slots, a: Pair)
    requires a in Expected(s)
    ensures Expected(s)[a] == 1
    ensures a.key == VersionKey() || a.key == PrincipalKey() || a.key == SignatureKey()
    ensures forall b :: b in Expected(s) && b.key == a.key ==> b == a
  {
    hide VersionKey, PrincipalKey, SignatureKey;
    KeysApart();
  }

  lemma Repeated(user: seq<Pair>, a: Pair, b: Pair)
    requires a.key == b.key && multiset{a, b} <= multiset(ReservedPairs(user))
    ensures forall s :: !Asserts(user, s)
  {
    hide Expected, ReservedPairs;
    assert a in multiset{a, b} && b in multiset{a, b} && (a == b ==> multiset{a, b}[a] == 2);
    forall s ensures !Asserts(user, s) {
      if a in Expected(s) { ExpectedKeys(s, a); }
    }
  }

  lemma Unexpected(user: seq<Pair>, a: Pair)
    requires a in multiset(ReservedPairs(user))
    requires a.key != VersionKey() && a.key != PrincipalKey() && a.key != SignatureKey()
    ensures forall s :: !Asserts(user, s)
  {}

  lemma SlotHolds(key: Text, slot: Option<Text>, a: Pair)
    ensures a in InSlot(key, slot) <==> a.key == key && slot == Some(a.value)
  {}

  lemma SlotsHold(user: seq<Pair>, version: Option<Text>, principal: Option<Text>, signature: Option<Text>, a: Pair)
    requires Filled(user, version, principal, signature) && a in multiset(ReservedPairs(user))
    ensures a.key == VersionKey() ==> version == Some(a.value)
    ensures a.key == PrincipalKey() ==> principal == Some(a.value)
    ensures a.key == SignatureKey() ==> signature == Some(a.value)
  {
    hide VersionKey, PrincipalKey, SignatureKey, Prefix, ReservedPairs, InSlot;
    KeysApart();
    SlotHolds(VersionKey(), version, a);
    SlotHolds(PrincipalKey(), principal, a);
    SlotHolds(SignatureKey(), signature, a);
  }

  lemma ExpectedParts(s: Slots)
    ensures Expected(s) == InSlot(VersionKey(), Some(Version())) + InSlot(PrincipalKey(), Some(s.principal))
                           + InSlot(SignatureKey(), Some(s.signature))
    ensures Pair(VersionKey(), Version()) in Expected(s) && Pair(PrincipalKey(), s.principal) in Expected(s)
    ensures Pair(SignatureKey(), s.signature) in Expected(s)
  {}

  lemma FilledSlots(user: seq<Pair>, version: Option<Text>, principal: Option<Text>, signature: Option<Text>)
    requires Filled(user, version, principal, signature)
    ensures forall s :: Asserts(user, s) <==>
              version == Some(Version()) && principal == Some(s.principal) && signature == Some(s.signature)
  {
    hide VersionKey, PrincipalKey, SignatureKey, Prefix, ReservedPairs, InSlot, Expected;
    forall s
      ensures Asserts(user, s) <==>
              version == Some(Version()) && principal == Some(s.principal) && signature == Some(s.signature)
    {
      ExpectedParts(s);
      if Asserts(user, s) {
        SlotsHold(user, version, principal, signature, Pair(VersionKey(), Version()));
        SlotsHold(user, version, principal, signature, Pair(PrincipalKey(), s.principal));
        SlotsHold(user, version, principal, signature, Pair(SignatureKey(), s.signature));
      }
    }
  }

  function ReceivedFrame(k: Crypto, principal: Text, p: Publish, correlation: Text): CanonicalFrame.Frame {
    CanonicalFrame.Frame(principal, p.topic, correlation, k.sha256(p.payload), 1, p.retain)
  }

  ghost predicate SignatureAccepted(k: Crypto, principal: Text, p: Publish, correlation: Text, s: Slots) {
    && s.principal == principal
    && Base64.Decode(s.signature).Some? && |Base64.Decode(s.signature).value| == 64
    && CanonicalFrame.Encodable(ReceivedFrame(k, principal, p, correlation))
    && k.verifies(CanonicalFrame.CanonicalBytes(ReceivedFrame(k, principal, p, correlation)), Base64.Decode(s.signature).value)
  }

  ghost predicate FrameAccepted(k: Crypto, id: DeviceIdentity, p: Publish, correlation: Text) {
    && !p.retain
    && exists s :: Asserts(p.user, s) && SignatureAccepted(k, PrincipalUrn(id), p, correlation, s)
  }

  /** `BrokerAssertionVerifier::verify` as `command_delivery` calls it, with quality of service 1. */
  method VerifyCommand(k: Crypto, id: DeviceIdentity, p: Publish, correlation: Text) returns (ok: bool)
    ensures ok <==> FrameAccepted(k, id, p, correlation)
  {
    hide Asserts, Base64.Decode, PrincipalUrn, CanonicalFrame.CanonicalBytes;
    if p.retain { return false; }
    var slots := AssertionProperties(p.user);
    if slots.None? { return false; }
    assert Asserts(p.user, slots.value);
    if slots.value.principal != PrincipalUrn(id) { return false; }
    var signature := Base64.Decode(slots.value.signature);
    if signature.None? || |signature.value| != 64 { return false; }
    var signed := CanonicalFrame.AgentBytes(ReceivedFrame(k, slots.value.principal, p, correlation));
    if signed.None? { return false; }
    ok := k.verifies(signed.value, signature.value);
  }

  datatype Scope = Scope(identity: DeviceIdentity, topic: Text, commandId: Text)

  datatype Session = Session(identity: DeviceIdentity, recovery: Option<Scope>)

  datatype Received =
    | Command(topic: Text, commandId: Text, identity: DeviceIdentity)
    | InvalidFrame
    | AssertionRejected

  /** Which identity a delivery on this topic is checked against. */
  function OwnerOf(session: Session, topic: Text, commandId: Text): Option<DeviceIdentity> {
    if topic == CommandTopicText(session.identity) then Some(session.identity)
    else if session.recovery.Some? && session.recovery.value.topic == topic && session.recovery.value.commandId == commandId
    then Some(session.recovery.value.identity)
    else None
  }

  ghost function Delivery(k: Crypto, session: Session, p: Publish): Received {
    if Utf8.Decode(p.topic).None? || p.qos != 1 || p.correlation.None? || !Utf8.AgentAccepts(p.correlation.value)
    then InvalidFrame
    else
      var owner := OwnerOf(session, p.topic, p.correlation.value);
      if owner.None? then InvalidFrame
      else if FrameAccepted(k, owner.value, p, p.correlation.value)
      then Command(p.topic, p.correlation.value, owner.value)
      else AssertionRejected
  }

  /** `command_delivery`. The command id is decided by the same predicate as `from_utf8` and `CommandId`. */
  method CommandDelivery(k: Crypto, session: Session, p: Publish) returns (r: Received)
    requires p.correlation.Some? ==> |p.correlation.value| <= U16_MAX
    ensures r == Delivery(k, session, p)
  {
    hide FrameAccepted, Utf8.Decode, Utf8.AgentAccepts, CommandTopicText;
    if Utf8.Decode(p.topic).None? || p.qos != 1 || p.correlation.None? { return InvalidFrame; }
    var correlation := p.correlation.value;
    var canonical := Utf8.CanonicalCommandId(correlation);
    if !canonical { return InvalidFrame; }
    var owner := OwnerOf(session, p.topic, correlation);
    if owner.None? { return InvalidFrame; }
    var verified := VerifyCommand(k, owner.value, p, correlation);
    if !verified { return AssertionRejected; }
    return Command(p.topic, correlation, owner.value);
  }
}
