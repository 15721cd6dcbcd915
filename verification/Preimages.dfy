/**
 The byte strings the agent hashes, and that each is injective on the values the agent hashes it
 for. This is what lets the other modules stand a hash for the value it was computed from.
 */
module Preimages {
  import opened Bytes
  import opened Identities

  // ----- compute_artifact_digest_bytes -----

  datatype Material = Material(ca: Text, certificate: Text, privateKey: Text)

  predicate Addressable(m: Material) {
    |m.ca| <= U64_MAX && |m.certificate| <= U64_MAX && |m.privateKey| <= U64_MAX
  }

  function Sized(b: Text): Text { BigEndian(|b|, 8) + b }

  function ArtifactPreimage(m: Material): Text {
    Ascii("rss.reference-device-agent.artifact.v1") + [0]
    + (Sized(m.ca) + (Sized(m.certificate) + Sized(m.privateKey)))
  }

  function ArtifactDigest(m: Material): (r: Digest)
    ensures r.Sha256?
  {
    Sha256(ArtifactPreimage(m))
  }

  function SizedAll(files: seq<Text>): Text {
    if files == [] then [] else SizedAll(files[..|files| - 1]) + Sized(files[|files| - 1])
  }

  lemma SizedThree(a: Text, b: Text, c: Text)
    ensures SizedAll([a, b, c]) == Sized(a) + (Sized(b) + Sized(c))
  {
    var files := [a, b, c];
    assert files[..2] == [a, b] && files[..2][..1] == [a];
    assert SizedAll([a]) == Sized(a);
    assert SizedAll([a, b]) == Sized(a) + Sized(b);
  }

  /** The loop of the digest builder: each file after its length. */
  method HashFiles(domain: Text, files: seq<Text>) returns (preimage: Text)
    ensures preimage == domain + SizedAll(files)
  {
    preimage := domain;
    var i := 0;
    while i < |files|
      invariant 0 <= i <= |files|
      invariant preimage == domain + SizedAll(files[..i])
    {
      ghost var done := SizedAll(files[..i]);
      preimage := preimage + BigEndian(|files[i]|, 8);
      preimage := preimage + files[i];
      assert preimage == domain + (done + Sized(files[i]));
      assert files[..i + 1][..i] == files[..i];
      i := i + 1;
    }
    assert files[..i] == files;
  }

  method HashArtifact(m: Material) returns (preimage: Text)
    ensures preimage == ArtifactPreimage(m)
  {
    var domain := Ascii("rss.reference-device-agent.artifact.v1") + [0];
    preimage := HashFiles(domain, [m.ca, m.certificate, m.privateKey]);
    SizedThree(m.ca, m.certificate, m.privateKey);
  }

  lemma SizedCancels(a: Text, x: Text, b: Text, y: Text)
    requires Sized(a) + x == Sized(b) + y && |a| <= U64_MAX && |b| <= U64_MAX
    ensures a == b && x == y
  {
    assert Sized(a) + x == BigEndian(|a|, 8) + (a + x);
    assert Sized(b) + y == BigEndian(|b|, 8) + (b + y);
    PrefixCancels(BigEndian(|a|, 8), a + x, BigEndian(|b|, 8), b + y);
    U64Injective(|a|, |b|);
    PrefixCancels(a, x, b, y);
  }

  lemma ArtifactPreimageInjective(m: Material, n: Material)
    requires Addressable(m) && Addressable(n) && ArtifactPreimage(m) == ArtifactPreimage(n)
    ensures m == n
  {
    var domain := Ascii("rss.reference-device-agent.artifact.v1") + [0];
    PrefixCancels(domain, Sized(m.ca) + (Sized(m.certificate) + Sized(m.privateKey)),
                  domain, Sized(n.ca) + (Sized(n.certificate) + Sized(n.privateKey)));
    SizedCancels(m.ca, Sized(m.certificate) + Sized(m.privateKey), n.ca, Sized(n.certificate) + Sized(n.privateKey));
    SizedCancels(m.certificate, Sized(m.privateKey), n.certificate, Sized(n.privateKey));
    assert Sized(m.privateKey) + [] == Sized(m.privateKey) && Sized(n.privateKey) + [] == Sized(n.privateKey);
    SizedCancels(m.privateKey, [], n.privateKey, []);
  }

  // ----- command_fingerprint -----

  /** The command fields in the form they are hashed. */
  datatype CommandText = CommandText(
    commandId: Text, artifactId: Text, artifactDigest: Text, intentDigest: Text, policyHash: Text,
    deviceId: Uuid, receiptId: Uuid, deadline: u64, generation: u64, fence: u64)

  /** Identifiers hold no control character and digests are hexadecimal, so none holds a NUL. */
  predicate NulFree(c: CommandText) {
    0 !in c.commandId && 0 !in c.artifactId && 0 !in c.artifactDigest && 0 !in c.intentDigest && 0 !in c.policyHash
  }

  function CommandNumbers(c: CommandText): Text {
    c.deviceId + (c.receiptId + (BigEndian(c.deadline, 8) + (BigEndian(c.generation, 8) + BigEndian(c.fence, 8))))
  }

  function CommandBody(c: CommandText): Text {
    c.commandId + [0] + (c.artifactId + [0] + (c.artifactDigest + [0]
    + (c.intentDigest + [0] + (c.policyHash + [0] + CommandNumbers(c)))))
  }

  const COMMAND_DOMAIN := Ascii("rss.reference-device-agent.command.v1")
  const MALFORMED_DOMAIN := Ascii("rss.reference-device-agent.malformed-command.v1")

  function CommandPreimage(c: CommandText): Text {
    COMMAND_DOMAIN + [0] + CommandBody(c)
  }

  lemma CommandPreimageInjective(c: CommandText, d: CommandText)
    requires NulFree(c) && NulFree(d) && CommandPreimage(c) == CommandPreimage(d)
    ensures c == d
  {
    PrefixCancels(COMMAND_DOMAIN + [0], CommandBody(c), COMMAND_DOMAIN + [0], CommandBody(d));
    CommandBodyInjective(c, d);
  }

  lemma CommandBodyInjective(c: CommandText, d: CommandText)
    requires NulFree(c) && NulFree(d) && CommandBody(c) == CommandBody(d)
    ensures c == d
  {
    var c5, d5 := CommandNumbers(c), CommandNumbers(d);
    var c4, d4 := c.policyHash + [0] + c5, d.policyHash + [0] + d5;
    var c3, d3 := c.intentDigest + [0] + c4, d.intentDigest + [0] + d4;
    var c2, d2 := c.artifactDigest + [0] + c3, d.artifactDigest + [0] + d3;
    var c1, d1 := c.artifactId + [0] + c2, d.artifactId + [0] + d2;
    NulCancels(c.commandId, c1, d.commandId, d1);
    NulCancels(c.artifactId, c2, d.artifactId, d2);
    NulCancels(c.artifactDigest, c3, d.artifactDigest, d3);
    NulCancels(c.intentDigest, c4, d.intentDigest, d4);
    NulCancels(c.policyHash, c5, d.policyHash, d5);
    CommandNumbersInjective(c, d);
  }

  lemma CommandNumbersInjective(c: CommandText, d: CommandText)
    requires CommandNumbers(c) == CommandNumbers(d)
    ensures c.deviceId == d.deviceId && c.receiptId == d.receiptId && c.deadline == d.deadline
    ensures c.generation == d.generation && c.fence == d.fence
  {
    var c3, d3 := BigEndian(c.generation, 8) + BigEndian(c.fence, 8), BigEndian(d.generation, 8) + BigEndian(d.fence, 8);
    var c2, d2 := BigEndian(c.deadline, 8) + c3, BigEndian(d.deadline, 8) + d3;
    PrefixCancels(c.deviceId, c.receiptId + c2, d.deviceId, d.receiptId + d2);
    PrefixCancels(c.receiptId, c2, d.receiptId, d2);
    PrefixCancels(BigEndian(c.deadline, 8), c3, BigEndian(d.deadline, 8), d3);
    PrefixCancels(BigEndian(c.generation, 8), BigEndian(c.fence, 8), BigEndian(d.generation, 8), BigEndian(d.fence, 8));
    U64Injective(c.deadline, d.deadline);
    U64Injective(c.generation, d.generation);
    U64Injective(c.fence, d.fence);
  }

  // ----- malformed_fingerprint -----

  function MalformedPreimage(topic: Text, commandId: Text, payloadDigest: Text): Text {
    MALFORMED_DOMAIN + [0] + (topic + [0] + (commandId + [0] + payloadDigest))
  }

  lemma MalformedPreimageInjective(t: Text, c: Text, p: Text, t': Text, c': Text, p': Text)
    requires 0 !in t && 0 !in c && 0 !in t' && 0 !in c'
    requires MalformedPreimage(t, c, p) == MalformedPreimage(t', c', p')
    ensures t == t' && c == c' && p == p'
  {
    PrefixCancels(MALFORMED_DOMAIN + [0], t + [0] + (c + [0] + p), MALFORMED_DOMAIN + [0], t' + [0] + (c' + [0] + p'));
    NulCancels(t, c + [0] + p, t', c' + [0] + p');
    NulCancels(c, p, c', p');
  }

  /** A decodable and an undecodable delivery never share a fingerprint preimage. */
  lemma FingerprintDomainsDisjoint(c: CommandText, topic: Text, commandId: Text, payloadDigest: Text)
    ensures CommandPreimage(c) != MalformedPreimage(topic, commandId, payloadDigest)
  {
    assert CommandPreimage(c)[27] == COMMAND_DOMAIN[27] == 'c' as int;
    assert MalformedPreimage(topic, commandId, payloadDigest)[27] == MALFORMED_DOMAIN[27] == 'm' as int;
  }

  // ----- event_id and settlement_token -----

  const EVENT_DOMAIN := Ascii("rss.reference-device-agent.event.v1")

  function EventPreimage(kind: Text, source: Text): Text {
    EVENT_DOMAIN + [0] + (kind + [0] + source)
  }

  lemma EventPreimageInjective(kind: Text, source: Text, kind': Text, source': Text)
    requires 0 !in kind && 0 !in kind' && EventPreimage(kind, source) == EventPreimage(kind', source')
    ensures kind == kind' && source == source'
  {
    PrefixCancels(EVENT_DOMAIN + [0], kind + [0] + source, EVENT_DOMAIN + [0], kind' + [0] + source');
    NulCancels(kind, source, kind', source');
  }

  /** A conflict's source joins the command id and the fingerprint; it is never a command id itself. */
  lemma ConflictSourceInjective(c: Text, f: Text, c': Text, f': Text)
    requires 0 !in c && 0 !in c'
    ensures c + [0] + f == c' + [0] + f' ==> c == c' && f == f'
    ensures c + [0] + f != c'
  {
    if c + [0] + f == c' + [0] + f' { NulCancels(c, f, c', f'); }
    assert 0 in c + [0] + f by { assert (c + [0] + f)[|c|] == 0; }
  }

  function TokenSource(topic: Text, commandId: Text, fingerprint: Text): Text {
    topic + [0] + (commandId + [0] + fingerprint)
  }

  lemma TokenSourceInjective(t: Text, c: Text, f: Text, t': Text, c': Text, f': Text)
    requires 0 !in t && 0 !in c && 0 !in t' && 0 !in c' && TokenSource(t, c, f) == TokenSource(t', c', f')
    ensures t == t' && c == c' && f == f'
  {
    NulCancels(t, c + [0] + f, t', c' + [0] + f');
    NulCancels(c, f, c', f');
  }

  // ----- state_hash -----

  datatype Hashed = Hashed(
    tenant: Uuid, device: Uuid, credentialGeneration: u64, desiredGeneration: u64, fence: u64,
    revision: u64, artifactDigest: Text)

  function StatePreimage(h: Hashed): Text {
    Ascii("rss.reference-device-agent.state.v1") + [0]
    + (h.tenant + (h.device + (BigEndian(h.credentialGeneration, 8) + (BigEndian(h.desiredGeneration, 8)
    + (BigEndian(h.fence, 8) + (BigEndian(h.revision, 8) + h.artifactDigest))))))
  }

  lemma StatePreimageInjective(h: Hashed, k: Hashed)
    requires StatePreimage(h) == StatePreimage(k)
    ensures h == k
  {
    var domain := Ascii("rss.reference-device-agent.state.v1") + [0];
    var h5, k5 := BigEndian(h.revision, 8) + h.artifactDigest, BigEndian(k.revision, 8) + k.artifactDigest;
    var h4, k4 := BigEndian(h.fence, 8) + h5, BigEndian(k.fence, 8) + k5;
    var h3, k3 := BigEndian(h.desiredGeneration, 8) + h4, BigEndian(k.desiredGeneration, 8) + k4;
    var h2, k2 := BigEndian(h.credentialGeneration, 8) + h3, BigEndian(k.credentialGeneration, 8) + k3;
    PrefixCancels(domain, h.tenant + (h.device + h2), domain, k.tenant + (k.device + k2));
    PrefixCancels(h.tenant, h.device + h2, k.tenant, k.device + k2);
    PrefixCancels(h.device, h2, k.device, k2);
    PrefixCancels(BigEndian(h.credentialGeneration, 8), h3, BigEndian(k.credentialGeneration, 8), k3);
    PrefixCancels(BigEndian(h.desiredGeneration, 8), h4, BigEndian(k.desiredGeneration, 8), k4);
    PrefixCancels(BigEndian(h.fence, 8), h5, BigEndian(k.fence, 8), k5);
    PrefixCancels(BigEndian(h.revision, 8), h.artifactDigest, BigEndian(k.revision, 8), k.artifactDigest);
    U64Injective(h.credentialGeneration, k.credentialGeneration);
    U64Injective(h.desiredGeneration, k.desiredGeneration);
    U64Injective(h.fence, k.fence);
    U64Injective(h.revision, k.revision);
  }

  // ----- The hashed bytes, spelled out -----

  lemma HashedBytes(m: Material, c: CommandText, h: Hashed, topic: Text, id: Text, digest: Text, kind: Text, source: Text)
    ensures ArtifactPreimage(m) ==
      Ascii("rss.reference-device-agent.artifact.v1") + [0] + BigEndian(|m.ca|, 8) + m.ca
      + BigEndian(|m.certificate|, 8) + m.certificate + BigEndian(|m.privateKey|, 8) + m.privateKey
    ensures CommandPreimage(c) ==
      Ascii("rss.reference-device-agent.command.v1") + [0] + c.commandId + [0] + c.artifactId + [0] + c.artifactDigest + [0]
      + c.intentDigest + [0] + c.policyHash + [0] + c.deviceId + c.receiptId + BigEndian(c.deadline, 8)
      + BigEndian(c.generation, 8) + BigEndian(c.fence, 8)
    ensures MalformedPreimage(topic, id, digest) ==
      Ascii("rss.reference-device-agent.malformed-command.v1") + [0] + topic + [0] + id + [0] + digest
    ensures EventPreimage(kind, source) == Ascii("rss.reference-device-agent.event.v1") + [0] + kind + [0] + source
    ensures TokenSource(topic, id, digest) == topic + [0] + id + [0] + digest
    ensures StatePreimage(h) ==
      Ascii("rss.reference-device-agent.state.v1") + [0] + h.tenant + h.device + BigEndian(h.credentialGeneration, 8)
      + BigEndian(h.desiredGeneration, 8) + BigEndian(h.fence, 8) + BigEndian(h.revision, 8) + h.artifactDigest
  {
    hide Ascii, BigEndian;
  }
}
