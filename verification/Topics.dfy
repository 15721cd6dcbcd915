/**
 Command topics and principals: the printers of the agent (`hyphenated`, `TopicSet::new`,
 `principal_urn`) against the parsers of the broker plugin (`canonical_uuid`,
 `canonical_generation`, `command_principal`).
 */
module Topics {
  import opened Bytes
  import opened Identities

  const SLASH: byte := 47
  const HYPHEN: byte := 45
  const PRINCIPAL_CAPACITY: int := 160

  // ----- Printing a UUID -----

  type Digit16 = x: int | 0 <= x < 16

  function HexDigit(n: Digit16): byte { if n < 10 then 48 + n else 87 + n }

  predicate IsHex(b: byte) { 48 <= b <= 57 || 97 <= b <= 102 }

  function HexValue(b: byte): Digit16
    requires IsHex(b)
  {
    if b <= 57 then b - 48 else b - 87
  }

  predicate IsHyphenAt(i: int) { i == 8 || i == 13 || i == 18 || i == 23 }

  function Nibble(u: Uuid, k: int): Digit16
    requires 0 <= k < 32
  {
    if k % 2 == 0 then u[k / 2] / 16 else u[k / 2] % 16
  }

  /** Which hexadecimal digit is printed at text index `i`, and where digit `k` is printed. */
  function DigitAt(i: int): int {
    if i < 8 then i else if i < 13 then i - 1 else if i < 18 then i - 2 else if i < 23 then i - 3 else i - 4
  }

  function IndexOf(k: int): int {
    if k < 8 then k else if k < 12 then k + 1 else if k < 16 then k + 2 else if k < 20 then k + 3 else k + 4
  }

  function Hyphenated(u: Uuid): (t: Text)
    ensures |t| == 36
  {
    seq(36, i requires 0 <= i < 36 => if IsHyphenAt(i) then HYPHEN else HexDigit(Nibble(u, DigitAt(i))))
  }

  predicate UuidShaped(t: Text) {
    |t| == 36 && forall i :: 0 <= i < 36 ==> if IsHyphenAt(i) then t[i] == HYPHEN else IsHex(t[i])
  }

  function DigitValue(t: Text, k: int): Digit16
    requires UuidShaped(t) && 0 <= k < 32
  {
    HexValue(t[IndexOf(k)])
  }

  function ParseUuid(t: Text): Uuid
    requires UuidShaped(t)
  {
    seq(16, j requires 0 <= j < 16 => 16 * DigitValue(t, 2 * j) + DigitValue(t, 2 * j + 1))
  }

  lemma NibbleOfParsed(t: Text, k: int)
    requires UuidShaped(t) && 0 <= k < 32
    ensures Nibble(ParseUuid(t), k) == DigitValue(t, k)
  {}

  /** Printing what was parsed gives the text back. */
  lemma PrintParsed(t: Text)
    requires UuidShaped(t)
    ensures Hyphenated(ParseUuid(t)) == t
  {
    forall i | 0 <= i < 36 ensures Hyphenated(ParseUuid(t))[i] == t[i] {
      if !IsHyphenAt(i) {
        assert IndexOf(DigitAt(i)) == i;
        NibbleOfParsed(t, DigitAt(i));
      }
    }
  }

  lemma PrintedShape(u: Uuid)
    ensures UuidShaped(Hyphenated(u)) && SLASH !in Hyphenated(u)
  {}

  /** Parsing what was printed gives the UUID back. */
  lemma ParsePrinted(u: Uuid)
    ensures UuidShaped(Hyphenated(u)) && ParseUuid(Hyphenated(u)) == u
  {}

  function NilText(): Text { Ascii("00000000-0000-0000-0000-000000000000") }

  lemma NilPrinted(u: Uuid)
    ensures IsNil(u) <==> Hyphenated(u) == NilText()
  {
    var zero: Uuid := seq(16, _ => 0);
    assert Hyphenated(zero) == NilText();
    if Hyphenated(u) == NilText() {
      ParsePrinted(u);
      ParsePrinted(zero);
    }
    if IsNil(u) { assert u == zero; }
  }

  ghost predicate PrintsUuid(t: Text) {
    exists u: Uuid :: !IsNil(u) && Hyphenated(u) == t
  }

  /** The plugin's loop accepts exactly the printed forms of the non-nil UUIDs. */
  method CanonicalUuid(value: Text) returns (ok: bool)
    ensures ok <==> PrintsUuid(value)
    ensures ok ==> UuidShaped(value)
  {
    assert PrintsUuid(value) ==> UuidShaped(value) && value != NilText() by {
      if PrintsUuid(value) {
        var u: Uuid :| !IsNil(u) && Hyphenated(u) == value;
        PrintedShape(u);
        NilPrinted(u);
      }
    }
    if |value| != 36 || value == NilText() { return false; }
    var index := 0;
    while index < 36
      invariant 0 <= index <= 36
      invariant forall i :: 0 <= i < index ==> if IsHyphenAt(i) then value[i] == HYPHEN else IsHex(value[i])
    {
      var hyphen := index == 8 || index == 13 || index == 18 || index == 23;
      if hyphen {
        if value[index] != HYPHEN { return false; }
      } else if !(48 <= value[index] <= 57 || 97 <= value[index] <= 102) {
        return false;
      }
      index := index + 1;
    }
    PrintParsed(value);
    NilPrinted(ParseUuid(value));
    return true;
  }

  // ----- Printing a generation -----

  predicate IsDigit(b: byte) { 48 <= b <= 57 }

  predicate AllDigits(t: Text) { forall i :: 0 <= i < |t| ==> IsDigit(t[i]) }

  function Decimal(n: nat): (t: Text)
    ensures |t| > 0 && AllDigits(t)
  {
    if n < 10 then [48 + n] else Decimal(n / 10) + [48 + n % 10]
  }

  function Value(t: Text): nat
    requires AllDigits(t)
  {
    if t == [] then 0 else 10 * Value(t[..|t| - 1]) + (t[|t| - 1] - 48)
  }

  predicate NoLeadingZero(t: Text) { t != [] && AllDigits(t) && t[0] != 48 }

  lemma {:induction false} ValueOfDecimal(n: nat)
    ensures Value(Decimal(n)) == n
    ensures n > 0 ==> NoLeadingZero(Decimal(n))
  {
    if n >= 10 {
      ValueOfDecimal(n / 10);
      assert Decimal(n)[..|Decimal(n)| - 1] == Decimal(n / 10);
    } else {
      assert [48 + n][..0] == [];
    }
  }

  lemma {:induction false} DecimalOfValue(t: Text)
    requires NoLeadingZero(t)
    ensures Value(t) > 0 && Decimal(Value(t)) == t
  {
    var init, last := t[..|t| - 1], t[|t| - 1];
    if init == [] {
      assert t == [last];
    } else {
      DecimalOfValue(init);
      var v := Value(init);
      assert Value(t) == 10 * v + (last - 48);
      assert (10 * v + (last - 48)) / 10 == v && (10 * v + (last - 48)) % 10 == last - 48;
      assert t == init + [last];
    }
  }

  function Power10(k: nat): nat { if k == 0 then 1 else 10 * Power10(k - 1) }

  lemma {:induction false} DecimalWidth(n: nat, k: nat)
    requires k >= 1 && n < Power10(k)
    ensures |Decimal(n)| <= k
  {
    if n >= 10 {
      DecimalWidth(n / 10, k - 1);
    }
  }

  lemma GenerationWidth(n: nat)
    requires n <= U64_MAX
    ensures |Decimal(n)| <= 20
  {
    assert Power10(2) == 100;
    assert Power10(4) == 10000;
    assert Power10(6) == 1000000;
    assert Power10(8) == 100000000;
    assert Power10(10) == 10000000000;
    assert Power10(12) == 1000000000000;
    assert Power10(14) == 100000000000000;
    assert Power10(16) == 10000000000000000;
    assert Power10(18) == 1000000000000000000;
    assert Power10(20) == 100000000000000000000;
    DecimalWidth(n, 20);
  }

  ghost predicate PrintsGeneration(t: Text) {
    exists n: u64 :: 0 < n && Decimal(n) == t
  }

  /** `canonical_generation`: exactly the decimal prints of 1 to 2^64-1; `strtoull` sets `errno` on overflow. */
  method CanonicalGeneration(value: Text) returns (ok: bool)
    requires 0 !in value
    ensures ok <==> PrintsGeneration(value)
    ensures ok ==> NoLeadingZero(value)
  {
    assert PrintsGeneration(value) ==> NoLeadingZero(value) && |value| <= 20 && Value(value) <= U64_MAX by {
      if PrintsGeneration(value) {
        var n: u64 :| 0 < n && Decimal(n) == value;
        ValueOfDecimal(n);
        GenerationWidth(n);
      }
    }
    if |value| == 0 || value[0] < 49 || value[0] > 57 { return false; }
    var length := 1;
    while length < |value|
      invariant 1 <= length <= |value| && length <= 20
      invariant forall i :: 0 <= i < length ==> IsDigit(value[i])
    {
      if value[length] < 48 || value[length] > 57 || length >= 20 { return false; }
      length := length + 1;
    }
    DecimalOfValue(value);
    return Value(value) <= U64_MAX;
  }

  // ----- Printing topics and principals -----

  function Head(): Text { Ascii("rss/v1/") }
  function Downlink(): Text { Ascii("/downlink/") }
  function Contract(): Text { Ascii("identity.commands.") + Ascii("apply-device-certificate") }
  function PrincipalHead(): Text { Ascii("urn:rss:mqtt-device:v1:") }
  const COLON: byte := 58

  function TopicOf(tenant: Text, device: Text, generation: Text, contract: Text): Text {
    Head() + (tenant + ([SLASH] + (device + ([SLASH] + (generation + (Downlink() + contract))))))
  }

  /** `TopicSet::command`. */
  function CommandTopicText(id: DeviceIdentity): Text {
    TopicOf(Hyphenated(id.tenant), Hyphenated(id.device), Decimal(id.generation), Contract())
  }

  function AckTail(): Text { Ascii("/uplink/identity.device-command-acked") }
  function ReportTail(): Text { Ascii("/uplink/identity.device-certificate-reported") }

  /** `TopicSet::command_acknowledged` and `TopicSet::certificate_reported`. */
  function UplinkTopicText(id: DeviceIdentity, report: bool): Text {
    Head() + (Hyphenated(id.tenant) + ([SLASH] + (Hyphenated(id.device) + ([SLASH] + (Decimal(id.generation) +
      if report then ReportTail() else AckTail())))))
  }

  /** `DeviceIdentity::principal_urn`. */
  function PrincipalUrn(id: DeviceIdentity): Text {
    PrincipalHead() + Hyphenated(id.tenant) + [COLON] + Hyphenated(id.device) + [COLON] + Decimal(id.generation)
  }

  // ----- The plugin's scan of a topic -----

  /** How many characters a `%n[^/]` directive takes. */
  function FieldLength(t: Text, limit: nat): (n: nat)
    ensures n <= |t| && n <= limit && SLASH !in t[..n]
    ensures n == limit || n == |t| || t[n] == SLASH
  {
    if t == [] || limit == 0 || t[0] == SLASH then 0 else 1 + FieldLength(t[1..], limit - 1)
  }

  datatype Field = Field(text: Text, rest: Text)

  /** A literal followed by a non-empty `%n[^/]` field. */
  function TakeField(t: Text, literal: Text, limit: nat): Option<Field> {
    if !(literal <= t) then None
    else
      var after := t[|literal|..];
      var n := FieldLength(after, limit);
      if n == 0 then None else Some(Field(after[..n], after[n..]))
  }

  predicate FieldFits(a: Text, limit: nat) { 0 < |a| <= limit && SLASH !in a }

  lemma TakeFieldExact(literal: Text, a: Text, rest: Text, limit: nat)
    requires FieldFits(a, limit) && (rest == [] || rest[0] == SLASH)
    ensures TakeField(literal + (a + rest), literal, limit) == Some(Field(a, rest))
  {
    assert (literal + (a + rest))[|literal|..] == a + rest;
    var t := a + rest;
    var n := FieldLength(t, limit);
    assert forall i :: 0 <= i < |a| ==> t[i] == a[i] && a[i] in a;
    assert forall i :: 0 <= i < n ==> t[i] in t[..n];
    assert rest != [] ==> t[|a|] == SLASH;
    assert t[..|a|] == a && t[|a|..] == rest;
  }

  lemma TakeFieldSound(t: Text, literal: Text, limit: nat)
    requires TakeField(t, literal, limit).Some?
    ensures var f := TakeField(t, literal, limit).value; t == literal + (f.text + f.rest) && FieldFits(f.text, limit)
  {}

  datatype Scanned = Scanned(tenant: Text, device: Text, generation: Text, contract: Text)

  /** `sscanf` returning exactly 4: four fields, and no further character for the final `%c`. */
  function Scan(topic: Text): Option<Scanned> {
    var tenant := TakeField(topic, Head(), 36);
    if tenant.None? then None else
    var device := TakeField(tenant.value.rest, [SLASH], 36);
    if device.None? then None else
    var generation := TakeField(device.value.rest, [SLASH], 20);
    if generation.None? then None else
    var contract := TakeField(generation.value.rest, Downlink(), 63);
    if contract.None? || contract.value.rest != [] then None
    else Some(Scanned(tenant.value.text, device.value.text, generation.value.text, contract.value.text))
  }

  lemma ScanSound(topic: Text)
    requires Scan(topic).Some?
    ensures var s := Scan(topic).value; topic == TopicOf(s.tenant, s.device, s.generation, s.contract)
  {
    hide TakeField, Head, Downlink;
    var tenant := TakeField(topic, Head(), 36).value;
    TakeFieldSound(topic, Head(), 36);
    var device := TakeField(tenant.rest, [SLASH], 36).value;
    TakeFieldSound(tenant.rest, [SLASH], 36);
    var generation := TakeField(device.rest, [SLASH], 20).value;
    TakeFieldSound(device.rest, [SLASH], 20);
    TakeFieldSound(generation.rest, Downlink(), 63);
    var contract := TakeField(generation.rest, Downlink(), 63).value;
    assert contract.text + [] == contract.text;
  }

  lemma DownlinkStarts()
    ensures |Downlink()| > 0 && Downlink()[0] == SLASH
  {}

  lemma ScanComplete(tenant: Text, device: Text, generation: Text, contract: Text)
    requires FieldFits(tenant, 36) && FieldFits(device, 36) && FieldFits(generation, 20) && FieldFits(contract, 63)
    ensures Scan(TopicOf(tenant, device, generation, contract)) == Some(Scanned(tenant, device, generation, contract))
  {
    hide TakeField, Head, Downlink, FieldFits;
    DownlinkStarts();
    var afterGeneration := Downlink() + contract;
    var afterDevice := [SLASH] + (generation + afterGeneration);
    var afterTenant := [SLASH] + (device + afterDevice);
    TakeFieldExact(Head(), tenant, afterTenant, 36);
    TakeFieldExact([SLASH], device, afterDevice, 36);
    TakeFieldExact([SLASH], generation, afterGeneration, 20);
    assert contract + [] == contract;
    TakeFieldExact(Downlink(), contract, [], 63);
  }

  lemma ContractFits()
    ensures FieldFits(Contract(), 63) && 0 !in Contract()
  {
    IdentityPart("identity.commands.");
    CommandPart("apply-device-certificate");
  }

  predicate Plain(s: string) { forall i :: 0 <= i < |s| ==> '-' <= s[i] <= 'z' && s[i] != '/' }

  lemma PlainFits(s: string)
    requires Plain(s)
    ensures SLASH !in Ascii(s) && 0 !in Ascii(s)
  {}

  lemma IdentityPart(s: string)
    requires s == "identity.commands."
    ensures SLASH !in Ascii(s) && 0 !in Ascii(s)
  {
    assert Plain(s);
    PlainFits(s);
  }

  lemma CommandPart(s: string)
    requires s == "apply-device-certificate"
    ensures SLASH !in Ascii(s) && 0 !in Ascii(s)
  {
    assert Plain(s);
    PlainFits(s);
  }

  lemma DigitsFit(t: Text)
    requires t != [] && AllDigits(t)
    ensures SLASH !in t && 0 !in t
  {}

  lemma PrintedScans(id: DeviceIdentity)
    ensures Scan(CommandTopicText(id)) ==
            Some(Scanned(Hyphenated(id.tenant), Hyphenated(id.device), Decimal(id.generation), Contract()))
  {
    hide Hyphenated, Decimal, Scan, TopicOf;
    PrintedShape(id.tenant);
    PrintedShape(id.device);
    GenerationWidth(id.generation);
    DigitsFit(Decimal(id.generation));
    ContractFits();
    ScanComplete(Hyphenated(id.tenant), Hyphenated(id.device), Decimal(id.generation), Contract());
  }

  /** Two identities never print the same command topic. */
  lemma CommandTopicInjective(a: DeviceIdentity, b: DeviceIdentity)
    requires CommandTopicText(a) == CommandTopicText(b)
    ensures a == b
  {
    hide CommandTopicText, Scan, Hyphenated, Decimal;
    PrintedScans(a);
    PrintedScans(b);
    ParsePrinted(a.tenant);
    ParsePrinted(b.tenant);
    ParsePrinted(a.device);
    ParsePrinted(b.device);
    ValueOfDecimal(a.generation);
    ValueOfDecimal(b.generation);
  }

  predicate PrintsTopic(id: DeviceIdentity, topic: Text) {
    ValidIdentity(id) && CommandTopicText(id) == topic
  }

  /** The canonical fields determine the identity that prints them. */
  lemma CanonicalFields(topic: Text) returns (id: DeviceIdentity)
    requires Scan(topic).Some?
    requires var s := Scan(topic).value;
             PrintsUuid(s.tenant) && PrintsUuid(s.device) && PrintsGeneration(s.generation) && s.contract == Contract()
    ensures PrintsTopic(id, topic)
    ensures var s := Scan(topic).value;
            s.tenant == Hyphenated(id.tenant) && s.device == Hyphenated(id.device) && s.generation == Decimal(id.generation)
  {
    hide Scan, Hyphenated, Decimal, TopicOf, Contract;
    var s := Scan(topic).value;
    ScanSound(topic);
    var tenant: Uuid :| !IsNil(tenant) && Hyphenated(tenant) == s.tenant;
    var device: Uuid :| !IsNil(device) && Hyphenated(device) == s.device;
    var generation: u64 :| 0 < generation && Decimal(generation) == s.generation;
    id := DeviceIdentity(tenant, device, generation);
  }

  lemma PrintedFields(id: DeviceIdentity)
    requires ValidIdentity(id)
    ensures Scan(CommandTopicText(id)).Some?
    ensures var s := Scan(CommandTopicText(id)).value;
            PrintsUuid(s.tenant) && PrintsUuid(s.device) && PrintsGeneration(s.generation) && s.contract == Contract()
            && s.tenant == Hyphenated(id.tenant) && s.device == Hyphenated(id.device) && s.generation == Decimal(id.generation)
  {
    hide Scan, Hyphenated, Decimal, CommandTopicText;
    PrintedScans(id);
  }

  /**
   The plugin's parser succeeds exactly on the command topics `TopicSet::new` prints for the
   valid identities, and then yields that identity's principal, which fits its buffer.
   */
  method CommandPrincipal(topic: Text) returns (principal: Option<Text>)
    requires 0 !in topic
    ensures principal.Some? <==> exists id :: PrintsTopic(id, topic)
    ensures forall id :: PrintsTopic(id, topic) ==> principal == Some(PrincipalUrn(id))
    ensures principal.Some? ==> |principal.value| < PRINCIPAL_CAPACITY
  {
    hide Ascii, Hyphenated, Decimal, Scan, CommandTopicText, UuidShaped;
    forall id | PrintsTopic(id, topic)
      ensures Scan(topic).Some?
      ensures var s := Scan(topic).value;
              PrintsUuid(s.tenant) && PrintsUuid(s.device) && PrintsGeneration(s.generation) && s.contract == Contract()
              && s.tenant == Hyphenated(id.tenant) && s.device == Hyphenated(id.device) && s.generation == Decimal(id.generation)
    {
      PrintedFields(id);
    }
    var scanned := Scan(topic);
    if scanned.None? { return None; }
    var s := scanned.value;
    ScanNulFree(topic);
    var tenant := CanonicalUuid(s.tenant);
    var device := CanonicalUuid(s.device);
    var generation := CanonicalGeneration(s.generation);
    if !tenant || !device || !generation || s.contract != Contract() { return None; }
    ghost var found := CanonicalFields(topic);
    GenerationWidth(found.generation);
    var printed := PrincipalHead() + s.tenant + [COLON] + s.device + [COLON] + s.generation;
    if |printed| >= PRINCIPAL_CAPACITY { return None; }
    return Some(printed);
  }

  lemma ScanNulFree(topic: Text)
    requires Scan(topic).Some? && 0 !in topic
    ensures 0 !in Scan(topic).value.generation
  {
    ScanSound(topic);
  }

  /** Digits end where a slash begins. */
  lemma DigitsCancel(a: Text, x: Text, b: Text, y: Text)
    requires AllDigits(a) && AllDigits(b) && x != [] && y != [] && x[0] == SLASH && y[0] == SLASH && a + x == b + y
    ensures a == b && x == y
  {
    assert (a + x)[|a|] == SLASH && (b + y)[|b|] == SLASH;
    assert |a| == |b|;
    PrefixCancels(a, x, b, y);
  }

  lemma TailsApart()
    ensures |AckTail()| > 0 && AckTail()[0] == SLASH && |ReportTail()| > 0 && ReportTail()[0] == SLASH
    ensures AckTail() != ReportTail()
  {
    assert "/uplink/identity.device-command-acked"[0] == '/' && "/uplink/identity.device-certificate-reported"[0] == '/';
    assert |AckTail()| == 37 && |ReportTail()| == 44;
  }

  /** Neither two identities nor the two kinds of fact ever share an uplink topic. */
  lemma UplinkTopicInjective(a: DeviceIdentity, b: DeviceIdentity, report: bool, other: bool)
    requires UplinkTopicText(a, report) == UplinkTopicText(b, other)
    ensures a == b && report == other
  {
    hide Hyphenated, Decimal, Head, AckTail, ReportTail, ParseUuid, Value;
    TailsApart();
    var t, u := if report then ReportTail() else AckTail(), if other then ReportTail() else AckTail();
    var x3, y3 := Decimal(a.generation) + t, Decimal(b.generation) + u;
    var x2, y2 := Hyphenated(a.device) + ([SLASH] + x3), Hyphenated(b.device) + ([SLASH] + y3);
    PrefixCancels(Head(), Hyphenated(a.tenant) + ([SLASH] + x2), Head(), Hyphenated(b.tenant) + ([SLASH] + y2));
    PrefixCancels(Hyphenated(a.tenant), [SLASH] + x2, Hyphenated(b.tenant), [SLASH] + y2);
    PrefixCancels([SLASH], x2, [SLASH], y2);
    PrefixCancels(Hyphenated(a.device), [SLASH] + x3, Hyphenated(b.device), [SLASH] + y3);
    PrefixCancels([SLASH], x3, [SLASH], y3);
    DigitsCancel(Decimal(a.generation), t, Decimal(b.generation), u);
    ParsePrinted(a.tenant);
    ParsePrinted(b.tenant);
    ParsePrinted(a.device);
    ParsePrinted(b.device);
    ValueOfDecimal(a.generation);
    ValueOfDecimal(b.generation);
  }

  lemma TopicNulFree(id: DeviceIdentity)
    ensures 0 !in CommandTopicText(id)
  {
    hide Hyphenated, Decimal, Head, Downlink, Contract;
    LiteralsNulFree();
    UuidNulFree(id.tenant);
    UuidNulFree(id.device);
    DigitsFit(Decimal(id.generation));
  }

  lemma UuidNulFree(u: Uuid)
    ensures 0 !in Hyphenated(u)
  {}

  lemma LiteralsNulFree()
    ensures 0 !in Head() && 0 !in Downlink() && 0 !in Contract()
  {
    ContractFits();
    assert forall i :: 0 <= i < 7 ==> "rss/v1/"[i] > '!';
    assert forall i :: 0 <= i < 10 ==> "/downlink/"[i] > '!';
  }
}
