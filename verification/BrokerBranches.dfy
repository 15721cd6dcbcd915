/**
 The branches of the plugin and of the agent's session on the fields of messages and sessions: which
 topics the plugin leaves alone, who may publish commands, and whose principal a delivery is checked for.
 */
module BrokerBranches {
  import opened Bytes
  import opened Identities
  import opened Topics
  import opened BrokerPath
  import opened BrokerAgreement
  import Base64
  import CanonicalFrame
  import Utf8

  // ----- The substring search -----

  lemma {:induction false} Found(t: Text, part: Text) returns (before: Text, rest: Text)
    requires Contains(t, part)
    ensures t == before + (part + rest)
    decreases |t|
  {
    if part <= t {
      before, rest := [], t[|part|..];
    } else {
      var earlier;
      earlier, rest := Found(t[1..], part);
      before := [t[0]] + earlier;
      assert t == [t[0]] + t[1..];
    }
  }

  /** The search succeeds if and only if the part occurs. */
  lemma ContainsExactly(t: Text, part: Text)
    ensures Contains(t, part) <==> exists before, rest :: t == before + (part + rest)
  {
    if Contains(t, part) {
      var before, rest := Found(t, part);
    }
    forall before: Text, rest: Text | t == before + (part + rest) ensures Contains(t, part) { ContainsAfter(before, part, rest); }
  }

  /** A message is passed as it is if and only if it has a client, no reserved property, and no `/downlink/` in its topic. */
  lemma PassedExactly(k: Crypto, m: Message, v: Verdict)
    requires VerdictFor(k, m, v)
    ensures v == Unchanged <==>
      && m.client != NoClient && (forall p :: p in m.properties ==> !(p.UserProperty? && Ascii("rss.authn.v1.") <= p.name))
      && forall before: Text, rest: Text :: m.topic != before + (Ascii("/downlink/") + rest)
    ensures v.Denied? || v.Unchanged? || v.Signed?
  {
    hide Contains, Ascii, Admitted, Assertion;
    ContainsExactly(m.topic, Downlink());
  }

  // ----- Uplinks are left alone -----

  /** Where a `/downlink/` could begin. */
  predicate Begins(t: Text, i: nat) { i + 3 <= |t| && t[i] == 47 && t[i + 1] == 100 && t[i + 2] == 111 }

  lemma DownlinkBegins(t: Text, before: Text, rest: Text)
    requires t == before + (Downlink() + rest)
    ensures Begins(t, |before|)
  {
    var d := Downlink();
    assert |d| == 10 && d[0] == 47 && d[1] == 100 && d[2] == 111;
    assert t[|before|] == d[0] && t[|before| + 1] == d[1] && t[|before| + 2] == d[2];
  }

  /** No `/do` begins anywhere. */
  predicate Free(t: Text) { forall i: nat :: i < |t| ==> !Begins(t, i) }

  lemma FreeAfterField(field: Text, rest: Text)
    requires SLASH !in field && Free(rest)
    ensures Free(field + rest)
  {
    forall i: nat | i < |field + rest| ensures !Begins(field + rest, i) {
      if i >= |field| { assert !Begins(rest, i - |field|); }
    }
  }

  lemma FreeAfterSlash(rest: Text)
    requires Free(rest) && |rest| >= 2 && (rest[0] != 100 || rest[1] != 111)
    ensures Free([SLASH] + rest)
  {
    forall i: nat | i < |[SLASH] + rest| ensures !Begins([SLASH] + rest, i) {
      if i > 0 { assert !Begins(rest, i - 1); }
    }
  }

  lemma ReportTailIsFree()
    ensures Free(ReportTail()) && |ReportTail()| >= 2
  {
    hide Free, Ascii;
    TailIsFree("/uplink/identity.device-certificate-reported");
  }

  lemma AckTailIsFree()
    ensures Free(AckTail()) && |AckTail()| >= 2
  {
    hide Free, Ascii;
    TailIsFree("/uplink/identity.device-command-acked");
  }

  lemma TailIsFree(text: string)
    requires |text| > 8 && text[1] == 'u' && text[8] == 'i' && forall i :: 0 <= i < |text| ==> text[i] < 127 as char
    requires forall i :: 0 <= i < |text| && text[i] == '/' ==> i == 0 || i == 7
    ensures Free(Ascii(text))
  {}

  lemma NotFree(t: Text, before: Text, rest: Text)
    requires t == before + (Downlink() + rest)
    ensures !Free(t)
  {
    DownlinkBegins(t, before, rest);
  }

  lemma UplinkIsFree(id: DeviceIdentity, report: bool)
    ensures Free(UplinkTopicText(id, report))
  {
    hide Hyphenated, Decimal, Ascii, ReportTail, AckTail;
    var tail := if report then ReportTail() else AckTail();
    if report { ReportTailIsFree(); } else { AckTailIsFree(); }
    PrintedShape(id.tenant);
    PrintedShape(id.device);
    var generation := Decimal(id.generation) + tail;
    assert SLASH !in Decimal(id.generation);
    FreeAfterField(Decimal(id.generation), tail);
    FreeAfterSlash(generation);
    var device := Hyphenated(id.device) + ([SLASH] + generation);
    FreeAfterField(Hyphenated(id.device), [SLASH] + generation);
    assert IsHex(device[1]);
    FreeAfterSlash(device);
    var tenant := Hyphenated(id.tenant) + ([SLASH] + device);
    FreeAfterField(Hyphenated(id.tenant), [SLASH] + device);
    assert IsHex(tenant[1]);
    FreeAfterHead(tenant);
  }

  lemma FreeAfterHead(rest: Text)
    requires Free(rest) && |rest| >= 2 && rest[1] != 111
    ensures Free(Head() + rest)
  {
    var head := Head();
    assert |head| == 7 && head[0] == 114 && head[1] == 115 && head[2] == 115 && head[3] == 47 && head[4] == 118 && head[5] == 49
        && head[6] == 47;
    forall i: nat | i < |head + rest| ensures !Begins(head + rest, i) {
      if i >= 7 { assert !Begins(rest, i - 7); }
    }
  }

  /** What a device sends on its uplink topics, whoever the client is, is passed as it is. */
  lemma UplinksPassUnchanged(k: Crypto, m: Message, v: Verdict, id: DeviceIdentity, report: bool)
    requires VerdictFor(k, m, v) && m.topic == UplinkTopicText(id, report)
    ensures m.client != NoClient && (forall p :: p in m.properties ==> !(p.UserProperty? && Ascii("rss.authn.v1.") <= p.name))
            <==> v == Unchanged
    ensures v != Unchanged ==> v == Denied
  {
    hide UplinkTopicText, Contains, Ascii, Admitted, Assertion, Free, Begins;
    UplinkIsFree(id, report);
    PassedExactly(k, m, v);
    OnlyTheServiceSigns(k, m, v);
    forall before: Text, rest: Text ensures m.topic != before + (Downlink() + rest) {
      if m.topic == before + (Downlink() + rest) { NotFree(m.topic, before, rest); }
    }
  }

  // ----- Who may publish commands -----

  /** The one command id a message carries. */
  ghost predicate Carries(m: Message, c: Text) {
    && Correlations(m.properties) == [c] && Utf8.AgentAccepts(c)
  }

  /**
   A message is signed if and only if it comes from the service, at quality of service 1 and unretained, on
   the command topic of some device, without reserved property and with one acceptable command id.
   */
  lemma OnlyTheServiceSigns(k: Crypto, m: Message, v: Verdict)
    requires VerdictFor(k, m, v)
    ensures v.Signed? <==>
      && m.client == Named(Ascii("deviceidentity-service")) && m.qos == 1 && !m.retain
      && (forall p :: p in m.properties ==> !(p.UserProperty? && Ascii("rss.authn.v1.") <= p.name))
      && (exists id :: ValidIdentity(id) && CommandTopicText(id) == m.topic)
      && (exists c :: Carries(m, c))
  {
    hide Contains, CommandTopicText, Ascii, Utf8.AgentAccepts, Assertion, Correlations;
    if id :| ValidIdentity(id) && CommandTopicText(id) == m.topic {
      assert PrintsTopic(id, m.topic);
      TopicIsDownlink(id);
    }
    if v.Signed? {
      var id :| PrintsTopic(id, m.topic);
      assert ValidIdentity(id) && CommandTopicText(id) == m.topic;
    }
    if |Correlations(m.properties)| == 1 { assert Correlations(m.properties) == [Correlations(m.properties)[0]]; }
    if v.Signed? { assert Carries(m, Correlations(m.properties)[0]); }
  }

  /** What a signed message ends with: version, principal, and the signature of its seven fields, under their names. */
  lemma SignedSpelledOut(k: Crypto, m: Message, v: Verdict, id: DeviceIdentity, c: Text)
    requires VerdictFor(k, m, v) && v.Signed? && ValidIdentity(id) && CommandTopicText(id) == m.topic && Carries(m, c)
    ensures var principal := Ascii("urn:rss:mqtt-device:v1:") + Hyphenated(id.tenant) + Ascii(":") + Hyphenated(id.device) + Ascii(":")
                             + Decimal(id.generation);
            var digest := k.sha256(m.payload);
            var signed := Ascii("rss.mqtt.authn.v1") + [0]
              + ([0, 0, 0, 1] + [49]) + (BigEndian(|principal|, 4) + principal) + (BigEndian(|m.topic|, 4) + m.topic)
              + (BigEndian(|c|, 4) + c) + (BigEndian(|digest|, 4) + digest) + ([0, 0, 0, 1] + [1]) + ([0, 0, 0, 1] + [0]);
      v.properties == m.properties + [
        UserProperty(Ascii("rss.authn.v1.") + Ascii("version"), [49]),
        UserProperty(Ascii("rss.authn.v1.") + Ascii("principal"), principal),
        UserProperty(Ascii("rss.authn.v1.") + Ascii("signature"), Base64.UrlText(k.sign(signed)))]
  {
    hide Contains, CommandTopicText, Ascii, Hyphenated, Decimal, Base64.UrlText, Correlations, CanonicalFrame.CanonicalBytes, HasReserved;
    assert Correlations(m.properties)[0] == c;
    ColonText();
    assert PrintsTopic(id, m.topic);
    FrameSpelledOut(SignedFrame(k, PrincipalUrn(id), m, c));
  }

  lemma ColonText()
    ensures Ascii(":") == [COLON]
  {}

  lemma FrameSpelledOut(f: CanonicalFrame.Frame)
    ensures CanonicalFrame.CanonicalBytes(f) ==
      Ascii("rss.mqtt.authn.v1") + [0]
      + ([0, 0, 0, 1] + [49]) + (BigEndian(|f.principal|, 4) + f.principal) + (BigEndian(|f.topic|, 4) + f.topic)
      + (BigEndian(|f.correlation|, 4) + f.correlation) + (BigEndian(|f.payloadDigest|, 4) + f.payloadDigest)
      + ([0, 0, 0, 1] + [f.qos]) + ([0, 0, 0, 1] + [if f.retain then 1 else 0])
  {
    hide Ascii, BigEndian, CanonicalFrame.Joined;
    var fs := CanonicalFrame.Fields(f);
    OneLong();
    assert fs[..0] == [] && fs[..7] == fs;
    JoinedOne(fs, 0);
    JoinedOne(fs, 1);
    JoinedOne(fs, 2);
    JoinedOne(fs, 3);
    JoinedOne(fs, 4);
    JoinedOne(fs, 5);
    JoinedOne(fs, 6);
    JoinedNone();
  }

  lemma JoinedOne(fs: seq<Text>, k: nat)
    requires k < |fs|
    ensures CanonicalFrame.Joined(fs[..k + 1]) == CanonicalFrame.Joined(fs[..k]) + (BigEndian(|fs[k]|, 4) + fs[k])
  {
    assert fs[..k + 1][..k] == fs[..k];
  }

  lemma JoinedNone()
    ensures CanonicalFrame.Joined([]) == []
  {}

  lemma OneLong()
    ensures BigEndian(1, 4) == [0, 0, 0, 1]
  {
    assert BigEndian(0, 1) == [0] && BigEndian(0, 2) == [0, 0] && BigEndian(0, 3) == [0, 0, 0];
  }

  // ----- Whose delivery it is -----

  /** Which publishes are checked for whom: the own topic for the own identity, the pending delivery for its, others for none. */
  lemma DeliveryScope(k: Crypto, session: Session, p: Publish)
    ensures Delivery(k, session, p).Command? ==>
      && Delivery(k, session, p).topic == p.topic && p.correlation == Some(Delivery(k, session, p).commandId)
      && (if p.topic == CommandTopicText(session.identity) then Delivery(k, session, p).identity == session.identity
          else session.recovery == Some(Scope(Delivery(k, session, p).identity, p.topic, p.correlation.value)))
    ensures p.topic != CommandTopicText(session.identity)
            && (session.recovery.None? || session.recovery.value.topic != p.topic || p.correlation != Some(session.recovery.value.commandId))
            ==> Delivery(k, session, p) == InvalidFrame
    ensures p.qos != 1 || p.correlation.None? ==> Delivery(k, session, p) == InvalidFrame
    ensures p.retain ==> !Delivery(k, session, p).Command?
  {
    hide CommandTopicText, Asserts, SignatureAccepted, Utf8.Decode, Utf8.AgentAccepts;
  }

  /**
   What the verifier accepts for an identity: an unretained publish whose reserved properties are exactly the
   version, that identity's principal and a signature of 64 bytes over the seven fields of the frame.
   */
  lemma VerifiedFrames(k: Crypto, id: DeviceIdentity, p: Publish, c: Text)
    requires CanonicalFrame.Encodable(CanonicalFrame.Frame(PrincipalUrn(id), p.topic, c, k.sha256(p.payload), 1, false))
    ensures var signed := CanonicalFrame.CanonicalBytes(CanonicalFrame.Frame(PrincipalUrn(id), p.topic, c, k.sha256(p.payload), 1, false));
      FrameAccepted(k, id, p, c) <==> !p.retain && exists signature: Text ::
        && SignedBy(p, PrincipalUrn(id), signature)
        && Base64.Decode(signature).Some? && |Base64.Decode(signature).value| == 64 && k.verifies(signed, Base64.Decode(signature).value)
  {
    hide Ascii, PrincipalUrn, Base64.Decode, CanonicalFrame.CanonicalBytes, CanonicalFrame.Encodable, ReservedPairs;
    if FrameAccepted(k, id, p, c) {
      var s :| Asserts(p.user, s) && SignatureAccepted(k, PrincipalUrn(id), p, c, s);
      assert SignedBy(p, PrincipalUrn(id), s.signature);
    }
    forall signature: Text | SignedBy(p, PrincipalUrn(id), signature) ensures Asserts(p.user, Slots(PrincipalUrn(id), signature)) {}
  }

  /** The reserved properties of the publish are these three, each once, in any order. */
  predicate SignedBy(p: Publish, principal: Text, signature: Text) {
    multiset(ReservedPairs(p.user)) == multiset{
      Pair(Ascii("rss.authn.v1.") + Ascii("version"), [49]),
      Pair(Ascii("rss.authn.v1.") + Ascii("principal"), principal),
      Pair(Ascii("rss.authn.v1.") + Ascii("signature"), signature)}
  }

  // ----- The printed forms, spelled out -----

  lemma Flattened(a: Text, b: Text, c: Text, d: Text, e: Text, f: Text)
    ensures a + (b + ([SLASH] + (c + ([SLASH] + (d + (e + f)))))) == a + b + [SLASH] + c + [SLASH] + d + e + f
  {}

  /** Topics and principals name tenant, device and credential generation in this order. */
  lemma PrintedSpelledOut(id: DeviceIdentity)
    ensures CommandTopicText(id) == Ascii("rss/v1/") + Hyphenated(id.tenant) + [SLASH] + Hyphenated(id.device) + [SLASH]
      + Decimal(id.generation) + Ascii("/downlink/") + (Ascii("identity.commands.") + Ascii("apply-device-certificate"))
    ensures UplinkTopicText(id, false) == Ascii("rss/v1/") + Hyphenated(id.tenant) + [SLASH] + Hyphenated(id.device) + [SLASH]
      + Decimal(id.generation) + Ascii("/uplink/identity.device-command-acked")
    ensures UplinkTopicText(id, true) == Ascii("rss/v1/") + Hyphenated(id.tenant) + [SLASH] + Hyphenated(id.device) + [SLASH]
      + Decimal(id.generation) + Ascii("/uplink/identity.device-certificate-reported")
    ensures PrincipalUrn(id) == Ascii("urn:rss:mqtt-device:v1:") + Hyphenated(id.tenant) + [COLON] + Hyphenated(id.device) + [COLON]
      + Decimal(id.generation)
  {
    hide Ascii, Hyphenated, Decimal;
    var t, d, g := Hyphenated(id.tenant), Hyphenated(id.device), Decimal(id.generation);
    Flattened(Head(), t, d, g, Downlink(), Contract());
    Flattened(Head(), t, d, g, AckTail(), []);
    Flattened(Head(), t, d, g, ReportTail(), []);
    assert AckTail() + [] == AckTail() && ReportTail() + [] == ReportTail();
  }
}
