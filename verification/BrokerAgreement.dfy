/** The plugin and the agent agree: what one signs the other accepts, and only as it was signed. */
module BrokerAgreement {
  import opened Bytes
  import opened Identities
  import opened Topics
  import opened BrokerPath
  import opened Assumptions
  import Base64
  import CanonicalFrame
  import Utf8

  // ----- Forwarding -----

  function UserPairs(properties: seq<Property>): seq<Pair> {
    if properties == [] then []
    else
      var init := UserPairs(properties[..|properties| - 1]);
      var last := properties[|properties| - 1];
      if last.UserProperty? then init + [Pair(last.name, last.value)] else init
  }

  /** The PUBLISH a subscriber receives for a message the broker passed with these properties. */
  function Forwarded(m: Message, properties: seq<Property>): Publish {
    var c := Correlations(properties);
    Publish(m.topic, m.payload, m.qos, m.retain, if c == [] then None else Some(c[|c| - 1]), UserPairs(properties))
  }

  lemma {:induction false} NothingReserved(properties: seq<Property>)
    requires !HasReserved(properties)
    ensures ReservedPairs(UserPairs(properties)) == []
  {
    if properties != [] {
      var init, last := properties[..|properties| - 1], properties[|properties| - 1];
      assert last in properties && forall p :: p in init ==> p in properties;
      NothingReserved(init);
      if last.UserProperty? {
        assert !Reserved(last);
        var pairs := UserPairs(properties);
        assert pairs[..|pairs| - 1] == UserPairs(init);
      }
    }
  }

  lemma AppendUser(properties: seq<Property>, name: Text, value: Text)
    ensures UserPairs(properties + [UserProperty(name, value)]) == UserPairs(properties) + [Pair(name, value)]
    ensures Correlations(properties + [UserProperty(name, value)]) == Correlations(properties)
    ensures Prefix() <= name ==>
              ReservedPairs(UserPairs(properties) + [Pair(name, value)]) ==
              ReservedPairs(UserPairs(properties)) + [Pair(name, value)]
  {}

  /** Adding the assertion to a list free of reserved keys leaves exactly the assertion reserved. */
  lemma AssertionIsFound(k: Crypto, principal: Text, m: Message, correlation: Text)
    requires !HasReserved(m.properties)
    ensures var added := Assertion(k, principal, m, correlation);
            Asserts(UserPairs(m.properties + added), Slots(principal, added[2].value))
            && Correlations(m.properties + added) == Correlations(m.properties)
  {
    hide Base64.UrlText, CanonicalFrame.CanonicalBytes;
    hide Prefix, VersionKey, PrincipalKey, SignatureKey, UserPairs, ReservedPairs, Correlations, HasReserved;
    KeysApart();
    var added := Assertion(k, principal, m, correlation);
    var one := m.properties + [added[0]];
    var two := one + [added[1]];
    assert m.properties + added == two + [added[2]];
    NothingReserved(m.properties);
    AppendUser(m.properties, VersionKey(), Version());
    AppendUser(one, PrincipalKey(), principal);
    AppendUser(two, SignatureKey(), added[2].value);
    var reserved := ReservedPairs(UserPairs(m.properties + added));
    assert reserved == [Pair(VersionKey(), Version()), Pair(PrincipalKey(), principal), Pair(SignatureKey(), added[2].value)];
  }

  // ----- Printed topics are ASCII and contain the downlink segment -----

  predicate IsAscii(t: Text) { forall i :: 0 <= i < |t| ==> t[i] < 128 }

  lemma {:induction false} AsciiDecodes(t: Text)
    requires IsAscii(t)
    ensures Utf8.Decode(t).Some?
  {
    if t != [] {
      assert Utf8.Take(t) == Some(Utf8.Taken(t[0], 1));
      AsciiDecodes(t[1..]);
    }
  }

  lemma TopicAscii(id: DeviceIdentity)
    ensures IsAscii(CommandTopicText(id))
  {}

  lemma {:induction false} ContainsAfter(before: Text, part: Text, rest: Text)
    ensures Contains(before + (part + rest), part)
  {
    var t := before + (part + rest);
    if before == [] {
      assert t == part + rest;
    } else {
      ContainsAfter(before[1..], part, rest);
      assert t[1..] == before[1..] + (part + rest);
    }
  }

  lemma TopicIsDownlink(id: DeviceIdentity)
    ensures Contains(CommandTopicText(id), Downlink())
  {
    hide Contains, Hyphenated, Decimal, Head, Downlink, Contract;
    var before := Head() + Hyphenated(id.tenant) + [SLASH] + Hyphenated(id.device) + [SLASH] + Decimal(id.generation);
    assert CommandTopicText(id) == before + (Downlink() + Contract());
    ContainsAfter(before, Downlink(), Contract());
  }

  /** Nothing reaches a command topic unsigned: what the plugin lets through there carries an assertion. */
  lemma CommandTopicsAreGuarded(k: Crypto, m: Message, v: Verdict, id: DeviceIdentity)
    requires VerdictFor(k, m, v) && PrintsTopic(id, m.topic)
    ensures v.Denied? || v.Signed?
    ensures v.Signed? <==> m.client != NoClient && !HasReserved(m.properties) && Admitted(m)
  {
    TopicIsDownlink(id);
  }

  // ----- Completeness -----

  /**
   Every message the plugin signs for an identity is accepted as its command by the session of that
   identity, and by a session recovering exactly this command of it, whatever properties it carried.
   */
  lemma SignedMessageAccepted(k: Crypto, m: Message, v: Verdict, session: Session, id: DeviceIdentity)
    requires Correct(k) && OnTheWire(m) && VerdictFor(k, m, v) && v.Signed?
    requires PrintsTopic(id, m.topic)
    requires id == session.identity || session.recovery == Some(Scope(id, m.topic, Correlations(m.properties)[0]))
    ensures Delivery(k, session, Forwarded(m, v.properties)) == Command(m.topic, Correlations(m.properties)[0], id)
  {
    hide PrincipalUrn, CommandTopicText, Asserts, Assertion, Base64.Decode, Base64.UrlText, Utf8.Decode, Utf8.AgentAccepts;
    hide Contains, UserPairs, Correlations, HasReserved, CanonicalFrame.CanonicalBytes, CanonicalFrame.Encodable, SignatureAccepted;
    var c := Correlations(m.properties)[0];
    var added := Assertion(k, PrincipalUrn(id), m, c);
    AssertionIsFound(k, PrincipalUrn(id), m, c);
    TopicAscii(id);
    AsciiDecodes(m.topic);
    assert CorrelationData(c) in m.properties by { assert c in Correlations(m.properties); }
    SignedFrameEncodable(k, id, m, c);
    var p := Forwarded(m, v.properties);
    SignatureChecks(k, id, m, c, p, added);
    if CommandTopicText(session.identity) == CommandTopicText(id) { CommandTopicInjective(session.identity, id); }
    assert v.properties == m.properties + added;
    assert Asserts(p.user, Slots(PrincipalUrn(id), added[2].value));
    assert FrameAccepted(k, id, p, c);
  }

  lemma SignatureChecks(k: Crypto, id: DeviceIdentity, m: Message, c: Text, p: Publish, added: seq<Property>)
    requires Correct(k) && m.qos == 1 && !m.retain && added == Assertion(k, PrincipalUrn(id), m, c)
    requires p.topic == m.topic && p.payload == m.payload && p.retain == m.retain
    requires CanonicalFrame.Encodable(SignedFrame(k, PrincipalUrn(id), m, c))
    ensures SignatureAccepted(k, PrincipalUrn(id), p, c, Slots(PrincipalUrn(id), added[2].value))
  {
    hide PrincipalUrn, Base64.Decode, Base64.UrlText, CanonicalFrame.CanonicalBytes, CanonicalFrame.Encodable;
    var frame := SignedFrame(k, PrincipalUrn(id), m, c);
    assert ReceivedFrame(k, PrincipalUrn(id), p, c) == frame;
    Base64.DecodeUrlText(k.sign(CanonicalFrame.CanonicalBytes(frame)));
  }

  // ----- Soundness -----

  lemma PrincipalInjective(a: DeviceIdentity, b: DeviceIdentity)
    requires PrincipalUrn(a) == PrincipalUrn(b)
    ensures a == b
  {
    hide Hyphenated, Decimal, PrincipalHead;
    var x, y := Hyphenated(a.device) + ([COLON] + Decimal(a.generation)), Hyphenated(b.device) + ([COLON] + Decimal(b.generation));
    assert PrincipalUrn(a) == PrincipalHead() + (Hyphenated(a.tenant) + ([COLON] + x));
    assert PrincipalUrn(b) == PrincipalHead() + (Hyphenated(b.tenant) + ([COLON] + y));
    PrefixCancels(PrincipalHead(), Hyphenated(a.tenant) + ([COLON] + x), PrincipalHead(), Hyphenated(b.tenant) + ([COLON] + y));
    PrefixCancels(Hyphenated(a.tenant), [COLON] + x, Hyphenated(b.tenant), [COLON] + y);
    PrefixCancels([COLON], x, [COLON], y);
    PrefixCancels(Hyphenated(a.device), [COLON] + Decimal(a.generation), Hyphenated(b.device), [COLON] + Decimal(b.generation));
    PrefixCancels([COLON], Decimal(a.generation), [COLON], Decimal(b.generation));
    ParsePrinted(a.tenant);
    ParsePrinted(b.tenant);
    ParsePrinted(a.device);
    ParsePrinted(b.device);
    ValueOfDecimal(a.generation);
    ValueOfDecimal(b.generation);
  }

  lemma AssertsOnce(user: seq<Pair>, s: Slots, t: Slots)
    requires Asserts(user, s) && Asserts(user, t)
    ensures s == t
  {
    hide ReservedPairs;
    assert Pair(PrincipalKey(), s.principal) in Expected(t) by { assert Pair(PrincipalKey(), s.principal) in Expected(s); }
    assert Pair(SignatureKey(), s.signature) in Expected(t) by { assert Pair(SignatureKey(), s.signature) in Expected(s); }
    KeysApart();
    hide PrincipalKey, SignatureKey, VersionKey;
  }

  /**
   A delivery accepted on the signature the plugin made for message `m`, if that signature verifies for
   nothing else, is that message: same topic,
   same command id, same payload digest, and it is accepted as the identity it was signed for.
   */
  lemma AcceptedIsWhatWasSigned(k: Crypto, session: Session, p: Publish, s: Slots, id: DeviceIdentity, m: Message, c: Text)
    requires Correct(k) && PrintsTopic(id, m.topic) && |c| <= U16_MAX
    requires Binding(k, CanonicalFrame.CanonicalBytes(SignedFrame(k, PrincipalUrn(id), m, c)))
    requires Asserts(p.user, s) && s.signature == Assertion(k, PrincipalUrn(id), m, c)[2].value
    requires Delivery(k, session, p).Command?
    ensures p.topic == m.topic && p.correlation == Some(c) && k.sha256(p.payload) == k.sha256(m.payload)
    ensures Delivery(k, session, p) == Command(m.topic, c, id)
  {
    hide PrincipalUrn, CommandTopicText, Asserts, Base64.Decode, Base64.UrlText, Utf8.Decode, Utf8.AgentAccepts;
    hide CanonicalFrame.CanonicalBytes, CanonicalFrame.Encodable;
    SignedFrameEncodable(k, id, m, c);
    var owner, commandId := Delivery(k, session, p).identity, p.correlation.value;
    var t :| Asserts(p.user, t) && SignatureAccepted(k, PrincipalUrn(owner), p, commandId, t);
    AssertsOnce(p.user, s, t);
    var received := ReceivedFrame(k, PrincipalUrn(owner), p, commandId);
    var signed := SignedFrame(k, PrincipalUrn(id), m, c);
    Base64.DecodeUrlText(k.sign(CanonicalFrame.CanonicalBytes(signed)));
    CanonicalFrame.CanonicalBytesInjective(received, signed);
    PrincipalInjective(owner, id);
  }
}
