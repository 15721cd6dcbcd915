/**
 The signed bytes of a command frame: the plugin fills a buffer through a cursor, the agent
 extends a vector, and both produce the same length-prefixed fields, which determine the frame.
 */
module CanonicalFrame {
  import opened Bytes

  const DOMAIN := Ascii("rss.mqtt.authn.v1") + [0]

  /** The coordinates both sides sign; the payload takes part through its SHA-256 digest. */
  datatype Frame = Frame(principal: Text, topic: Text, correlation: Text, payloadDigest: Text, qos: byte, retain: bool)

  predicate Encodable(f: Frame) {
    |f.principal| <= U32_MAX && |f.topic| <= U32_MAX && |f.correlation| <= U32_MAX && |f.payloadDigest| <= U32_MAX
  }

  function Field(value: Text): Text { BigEndian(|value|, 4) + value }

  function RetainByte(retain: bool): byte { if retain then 1 else 0 }

  function Fields(f: Frame): seq<Text> {
    [[49], f.principal, f.topic, f.correlation, f.payloadDigest, [f.qos], [RetainByte(f.retain)]]
  }

  function Joined(fields: seq<Text>): Text {
    if fields == [] then [] else Joined(fields[..|fields| - 1]) + Field(fields[|fields| - 1])
  }

  function CanonicalBytes(f: Frame): Text { DOMAIN + Joined(Fields(f)) }

  // ----- The agent: append_field on a growing vector -----

  method AppendToVector(target: Text, value: Text) returns (r: Option<Text>)
    ensures r.Some? <==> |value| <= U32_MAX
    ensures r.Some? ==> r.value == target + Field(value)
  {
    if |value| > U32_MAX { return None; }
    var extended := target + BigEndian(|value|, 4);
    extended := extended + value;
    assert extended == target + Field(value);
    return Some(extended);
  }

  method AgentBytes(f: Frame) returns (r: Option<Text>)
    ensures r.Some? <==> Encodable(f)
    ensures r.Some? ==> r.value == CanonicalBytes(f)
  {
    hide Field;
    var fields := Fields(f);
    var bytes := DOMAIN;
    var i := 0;
    while i < |fields|
      invariant 0 <= i <= |fields|
      invariant bytes == DOMAIN + Joined(fields[..i])
      invariant forall k :: 0 <= k < i ==> |fields[k]| <= U32_MAX
    {
      var next := AppendToVector(bytes, fields[i]);
      if next.None? {
        assert fields == Fields(f) && |fields[i]| > U32_MAX;
        return None;
      }
      bytes := next.value;
      assert fields[..i + 1][..i] == fields[..i];
      assert bytes == DOMAIN + (Joined(fields[..i]) + Field(fields[i]));
      i := i + 1;
    }
    assert fields[..i] == fields;
    assert |fields[1]| <= U32_MAX && |fields[2]| <= U32_MAX && |fields[3]| <= U32_MAX && |fields[4]| <= U32_MAX;
    return Some(bytes);
  }

  // ----- The plugin: append_field through a cursor into a buffer of fixed capacity -----

  lemma LengthBytes(n: nat)
    requires n <= U32_MAX
    ensures BigEndian(n, 4) == [n / 16777216 % 256, n / 65536 % 256, n / 256 % 256, n % 256]
  {
    assert n / 256 / 256 == n / 65536 && n / 65536 / 256 == n / 16777216;
    assert BigEndian(n / 16777216, 1) == [n / 16777216 % 256];
    assert BigEndian(n / 65536, 2) == [n / 16777216 % 256, n / 65536 % 256];
    assert BigEndian(n / 256, 3) == [n / 16777216 % 256, n / 65536 % 256, n / 256 % 256];
  }

  method AppendToBuffer(buffer: array<byte>, cursor: nat, value: Text) returns (next: nat, ok: bool)
    requires cursor <= buffer.Length && |value| <= U32_MAX
    modifies buffer
    ensures ok <==> buffer.Length - cursor >= 4 + |value|
    ensures ok ==> next == cursor + 4 + |value| && buffer[..next] == old(buffer[..cursor]) + Field(value)
    ensures !ok ==> next == cursor && buffer[..] == old(buffer[..])
  {
    var length := |value|;
    if buffer.Length - cursor < 4 + length { return cursor, false; }
    ghost var before := buffer[..cursor];
    buffer[cursor] := length / 16777216 % 256;
    buffer[cursor + 1] := length / 65536 % 256;
    buffer[cursor + 2] := length / 256 % 256;
    buffer[cursor + 3] := length % 256;
    LengthBytes(length);
    assert buffer[..cursor + 4] == before + BigEndian(length, 4);
    var k := 0;
    while k < length
      invariant 0 <= k <= length
      invariant buffer[..cursor + 4 + k] == before + BigEndian(length, 4) + value[..k]
    {
      buffer[cursor + 4 + k] := value[k];
      k := k + 1;
    }
    assert value[..k] == value;
    assert before + BigEndian(length, 4) + value == before + Field(value);
    return cursor + 4 + length, true;
  }

  function Capacity(f: Frame): nat {
    |DOMAIN| + 4 * 7 + 1 + |f.principal| + |f.topic| + |f.correlation| + |f.payloadDigest| + 1 + 1
  }

  lemma {:induction false} JoinedLength(fields: seq<Text>, k: nat)
    requires k <= |fields|
    ensures |Joined(fields[..k])| <= |Joined(fields)|
    ensures k < |fields| ==> |Joined(fields[..k])| + 4 + |fields[k]| <= |Joined(fields)|
    decreases |fields|
  {
    if k < |fields| {
      var init := fields[..|fields| - 1];
      if k == |init| {
        assert fields[..k] == init;
      } else {
        JoinedLength(init, k);
        assert init[..k] == fields[..k];
      }
    } else {
      assert fields[..k] == fields;
    }
  }

  lemma CapacityExact(f: Frame)
    ensures Capacity(f) == |CanonicalBytes(f)|
  {
    var s := Fields(f);
    assert s[..6] == [[49], f.principal, f.topic, f.correlation, f.payloadDigest, [f.qos]];
    assert s[..6][..5] == [[49], f.principal, f.topic, f.correlation, f.payloadDigest];
    assert s[..6][..5][..4] == [[49], f.principal, f.topic, f.correlation];
    assert s[..6][..5][..4][..3] == [[49], f.principal, f.topic];
    assert s[..6][..5][..4][..3][..2] == [[49], f.principal];
    assert s[..6][..5][..4][..3][..2][..1] == [[49]];
    assert |Joined([[49]])| == 5;
    assert |Joined(s[..6][..5][..4][..3][..2])| == 5 + 4 + |f.principal|;
    assert |Joined(s[..6][..5][..4][..3])| == 5 + 4 + |f.principal| + 4 + |f.topic|;
    assert |Joined(s[..6][..5][..4])| == 5 + 4 + |f.principal| + 4 + |f.topic| + 4 + |f.correlation|;
    assert |Joined(s[..6][..5])| == |Joined(s[..6][..5][..4])| + 4 + |f.payloadDigest|;
    assert |Joined(s[..6])| == |Joined(s[..6][..5])| + 5;
    assert |Joined(s)| == |Joined(s[..6])| + 5;
  }

  method CopyDomain(buffer: array<byte>, domain: Text) returns (cursor: nat)
    requires |domain| <= buffer.Length
    modifies buffer
    ensures cursor == |domain| && buffer[..cursor] == domain
  {
    cursor := 0;
    while cursor < |domain|
      invariant 0 <= cursor <= |domain| && buffer[..cursor] == domain[..cursor]
    {
      buffer[cursor] := domain[cursor];
      cursor := cursor + 1;
    }
    assert domain[..cursor] == domain;
  }

  method FillFields(buffer: array<byte>, start: nat, fields: seq<Text>) returns (cursor: nat, ok: bool)
    requires start + |Joined(fields)| <= buffer.Length
    requires forall i :: 0 <= i < |fields| ==> |fields[i]| <= U32_MAX
    modifies buffer
    ensures ok && cursor == start + |Joined(fields)| <= buffer.Length
    ensures buffer[..cursor] == old(buffer[..start]) + Joined(fields)
  {
    cursor := start;
    ok := true;
    ghost var before := buffer[..start];
    var i := 0;
    while i < |fields|
      invariant 0 <= i <= |fields| && ok
      invariant cursor == start + |Joined(fields[..i])| <= buffer.Length
      invariant buffer[..cursor] == before + Joined(fields[..i])
    {
      JoinedLength(fields, i);
      cursor, ok := AppendToBuffer(buffer, cursor, fields[i]);
      JoinedStep(before, fields, i);
      i := i + 1;
    }
    assert fields[..i] == fields;
  }

  lemma JoinedStep(before: Text, fields: seq<Text>, i: nat)
    requires i < |fields|
    ensures before + Joined(fields[..i]) + Field(fields[i]) == before + Joined(fields[..i + 1])
    ensures |Joined(fields[..i + 1])| == |Joined(fields[..i])| + 4 + |fields[i]|
  {
    assert fields[..i + 1][..i] == fields[..i];
    assert Joined(fields[..i + 1]) == Joined(fields[..i]) + Field(fields[i]);
  }

  /** The buffer is filled exactly to its end, without overrun, with the bytes the agent computes. */
  method PluginBytes(f: Frame) returns (buffer: array<byte>, ok: bool)
    requires Encodable(f)
    ensures fresh(buffer) && ok && buffer[..] == CanonicalBytes(f)
  {
    hide Ascii, Joined;
    buffer := new byte[Capacity(f)](_ => 0);
    CapacityExact(f);
    var cursor := CopyDomain(buffer, DOMAIN);
    var fields := Fields(f);
    cursor, ok := FillFields(buffer, cursor, fields);
    ok := ok && cursor == buffer.Length;
    assert buffer[..cursor] == buffer[..];
  }

  // ----- Injectivity -----

  lemma FieldCancels(x: Text, a: Text, y: Text, b: Text)
    requires Field(a) + x == Field(b) + y && |a| <= U32_MAX && |b| <= U32_MAX
    ensures a == b && x == y
  {
    assert Field(a) + x == BigEndian(|a|, 4) + (a + x) && Field(b) + y == BigEndian(|b|, 4) + (b + y);
    PrefixCancels(BigEndian(|a|, 4), a + x, BigEndian(|b|, 4), b + y);
    U32Injective(|a|, |b|);
    PrefixCancels(a, x, b, y);
  }

  /** The same fields joined from the front. */
  function Concatenated(fields: seq<Text>): Text {
    if fields == [] then [] else Field(fields[0]) + Concatenated(fields[1..])
  }

  lemma {:induction false} JoinedIsConcatenated(fields: seq<Text>)
    ensures Joined(fields) == Concatenated(fields)
  {
    if |fields| > 0 {
      JoinedIsConcatenated(fields[..|fields| - 1]);
      ConcatenatedAppend(fields[..|fields| - 1], fields[|fields| - 1]);
      assert fields[..|fields| - 1] + [fields[|fields| - 1]] == fields;
    }
  }

  lemma {:induction false} ConcatenatedAppend(fields: seq<Text>, last: Text)
    ensures Concatenated(fields + [last]) == Concatenated(fields) + Field(last)
  {
    if fields == [] {
      assert fields + [last] == [last] && [last][1..] == [];
    } else {
      assert (fields + [last])[1..] == fields[1..] + [last];
      ConcatenatedAppend(fields[1..], last);
    }
  }

  lemma {:induction false} ConcatenatedInjective(a: seq<Text>, b: seq<Text>)
    requires |a| == |b| && Concatenated(a) == Concatenated(b)
    requires forall i :: 0 <= i < |a| ==> |a[i]| <= U32_MAX && |b[i]| <= U32_MAX
    ensures a == b
  {
    if a != [] {
      FieldCancels(Concatenated(a[1..]), a[0], Concatenated(b[1..]), b[0]);
      ConcatenatedInjective(a[1..], b[1..]);
      assert a == [a[0]] + a[1..] && b == [b[0]] + b[1..];
    }
  }

  /** The signed bytes determine every signed coordinate. */
  lemma CanonicalBytesInjective(f: Frame, g: Frame)
    requires Encodable(f) && Encodable(g) && CanonicalBytes(f) == CanonicalBytes(g)
    ensures f == g
  {
    PrefixCancels(DOMAIN, Joined(Fields(f)), DOMAIN, Joined(Fields(g)));
    JoinedIsConcatenated(Fields(f));
    JoinedIsConcatenated(Fields(g));
    ConcatenatedInjective(Fields(f), Fields(g));
    var a, b := Fields(f), Fields(g);
    assert a[1] == b[1] && a[2] == b[2] && a[3] == b[3] && a[4] == b[4] && a[5] == b[5] && a[6] == b[6];
    assert a[5][0] == b[5][0] && a[6][0] == b[6][0];
  }
}
