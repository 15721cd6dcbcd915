/**
 The signature text: the plugin encodes with the standard alphabet, rewrites two characters in
 place and cuts the padding; the agent decodes the URL-safe alphabet without padding.
 */
module Base64 {
  import opened Bytes

  type Sextet = x: int | 0 <= x < 64

  function Standard(d: Sextet): byte {
    if d < 26 then 65 + d else if d < 52 then 71 + d else if d < 62 then d - 4 else if d == 62 then 43 else 47
  }

  function UrlSafe(d: Sextet): byte {
    if d < 26 then 65 + d else if d < 52 then 71 + d else if d < 62 then d - 4 else if d == 62 then 45 else 95
  }

  function UrlValue(b: byte): Option<Sextet> {
    if 65 <= b <= 90 then Some(b - 65)
    else if 97 <= b <= 122 then Some(b - 71)
    else if 48 <= b <= 57 then Some(b + 4)
    else if b == 45 then Some(62)
    else if b == 95 then Some(63)
    else None
  }

  function Group(a: byte, b: byte, c: byte): (g: seq<Sextet>)
    ensures |g| == 4
  {
    [a / 4, a % 4 * 16 + b / 16, b % 16 * 4 + c / 64, c % 64]
  }

  /** The six-bit digits of a byte string; a last group of one or two bytes is filled with zero bits. */
  function Sextets(v: Text): seq<Sextet> {
    if |v| == 0 then []
    else if |v| == 1 then Group(v[0], 0, 0)[..2]
    else if |v| == 2 then Group(v[0], v[1], 0)[..3]
    else Group(v[0], v[1], v[2]) + Sextets(v[3..])
  }

  function UrlChars(x: seq<Sextet>): Text {
    seq(|x|, i requires 0 <= i < |x| => UrlSafe(x[i]))
  }

  function UrlText(v: Text): Text { UrlChars(Sextets(v)) }

  /** `EVP_EncodeBlock`: standard alphabet, padded to whole groups of four. */
  function EncodeBlock(v: Text): Text {
    var digits := Sextets(v);
    seq(|digits|, i requires 0 <= i < |digits| => Standard(digits[i]))
    + (if |v| % 3 == 1 then [61, 61] else if |v| % 3 == 2 then [61] else [])
  }

  // ----- Decoding without padding -----

  function Ungroup(a: Sextet, b: Sextet, c: Sextet, d: Sextet): Text {
    [a * 4 + b / 16, b % 16 * 16 + c / 4, c % 4 * 64 + d]
  }

  function FromSextets(x: seq<Sextet>): Option<Text> {
    if |x| == 0 then Some([])
    else if |x| == 1 then None
    else if |x| == 2 then (if x[1] % 16 != 0 then None else Some(Ungroup(x[0], x[1], 0, 0)[..1]))
    else if |x| == 3 then (if x[2] % 4 != 0 then None else Some(Ungroup(x[0], x[1], x[2], 0)[..2]))
    else
      var rest := FromSextets(x[4..]);
      if rest.None? then None else Some(Ungroup(x[0], x[1], x[2], x[3]) + rest.value)
  }

  function Digits(t: Text): Option<seq<Sextet>> {
    if t == [] then Some([])
    else
      var head, rest := UrlValue(t[0]), Digits(t[1..]);
      if head.None? || rest.None? then None else Some([head.value] + rest.value)
  }

  /** `URL_SAFE_NO_PAD.decode`. */
  function Decode(t: Text): Option<Text> {
    var digits := Digits(t);
    if digits.None? then None else FromSextets(digits.value)
  }

  /** The four digits of three bytes: the same number, the most significant digit first. */
  lemma GroupIsOneNumber(a: byte, b: byte, c: byte)
    ensures var g := Group(a, b, c);
            var p: int, q: int, r: int, s: int := g[0], g[1], g[2], g[3];
      p * 262144 + q * 4096 + r * 64 + s == a * 65536 + b * 256 + c
  {
    Shares(a, 4);
    Shares(b, 16);
    Shares(c, 64);
  }

  lemma Shares(n: int, k: int)
    requires k == 4 || k == 16 || k == 64
    ensures n == n / k * k + n % k
  {}

  lemma GroupRoundTrip(a: byte, b: byte, c: byte)
    ensures var g := Group(a, b, c); Ungroup(g[0], g[1], g[2], g[3]) == [a, b, c]
  {}

  /** Packing the low part of one byte with the high part of the next keeps both. */
  lemma HighLow(a: byte, b: byte)
    ensures (a % 4 * 16 + b / 16) / 16 == a % 4 && (a % 4 * 16 + b / 16) % 16 == b / 16
  {}

  lemma LowHigh(b: byte, c: byte)
    ensures (b % 16 * 4 + c / 64) / 4 == b % 16 && (b % 16 * 4 + c / 64) % 4 == c / 64
  {}

  lemma OneByte(a: byte)
    ensures FromSextets(Group(a, 0, 0)[..2]) == Some([a])
  {
    GroupRoundTrip(a, 0, 0);
    HighLow(a, 0);
    var g := Group(a, 0, 0);
    assert g[1] % 16 == 0 && g[2] == 0 && g[3] == 0;
    assert Ungroup(g[0], g[1], 0, 0)[..1] == [a];
  }

  lemma TwoBytes(a: byte, b: byte)
    ensures FromSextets(Group(a, b, 0)[..3]) == Some([a, b])
  {
    GroupRoundTrip(a, b, 0);
    LowHigh(b, 0);
    var g := Group(a, b, 0);
    assert g[2] % 4 == 0 && g[3] == 0;
    assert Ungroup(g[0], g[1], g[2], 0)[..2] == [a, b];
  }

  lemma {:induction false} SextetsRoundTrip(v: Text)
    ensures FromSextets(Sextets(v)) == Some(v)
    decreases |v|
  {
    hide Group, Ungroup;
    if |v| == 0 {
    } else if |v| == 1 {
      OneByte(v[0]);
      assert v == [v[0]];
    } else if |v| == 2 {
      TwoBytes(v[0], v[1]);
      assert v == [v[0], v[1]];
    } else {
      var g, rest := Group(v[0], v[1], v[2]), v[3..];
      GroupRoundTrip(v[0], v[1], v[2]);
      SextetsRoundTrip(rest);
      assert Sextets(v)[4..] == Sextets(rest);
      assert v == [v[0], v[1], v[2]] + rest;
    }
  }

  lemma UrlValueExact(d: Sextet)
    ensures UrlValue(UrlSafe(d)) == Some(d)
  {}

  lemma UrlCharsParts(x: seq<Sextet>)
    ensures |UrlChars(x)| == |x|
    ensures x != [] ==> UrlChars(x)[0] == UrlSafe(x[0]) && UrlChars(x)[1..] == UrlChars(x[1..])
  {
    hide UrlSafe;
  }

  lemma {:induction false} DigitsOfUrl(x: seq<Sextet>)
    ensures Digits(UrlChars(x)) == Some(x)
  {
    hide UrlValue, UrlSafe, UrlChars;
    UrlCharsParts(x);
    if x != [] {
      UrlValueExact(x[0]);
      DigitsOfUrl(x[1..]);
      assert x == [x[0]] + x[1..];
    }
  }

  /** The agent decodes the unpadded text back to the encoded bytes. */
  lemma DecodeUrlText(v: Text)
    ensures Decode(UrlText(v)) == Some(v)
  {
    DigitsOfUrl(Sextets(v));
    SextetsRoundTrip(v);
  }

  lemma {:induction false} SextetCount(v: Text)
    ensures |Sextets(v)| == |v| / 3 * 4 + (if |v| % 3 == 0 then 0 else |v| % 3 + 1)
    decreases |v|
  {
    if |v| >= 3 { SextetCount(v[3..]); }
  }

  function Rewritten(b: byte): byte { if b == 43 then 45 else if b == 47 then 95 else b }

  method RewriteAlphabet(encoded: array<byte>)
    modifies encoded
    ensures forall i :: 0 <= i < encoded.Length ==> encoded[i] == Rewritten(old(encoded[i]))
  {
    var index := 0;
    while index < encoded.Length
      invariant 0 <= index <= encoded.Length
      invariant forall i :: 0 <= i < index ==> encoded[i] == Rewritten(old(encoded[i]))
      invariant forall i :: index <= i < encoded.Length ==> encoded[i] == old(encoded[i])
    {
      if encoded[index] == 43 {
        encoded[index] := 45;
      } else if encoded[index] == 47 {
        encoded[index] := 95;
      }
      index := index + 1;
    }
  }

  /** What the plugin writes for a 64-byte signature is exactly its unpadded URL-safe text. */
  method EncodeSignature(signature: Text) returns (text: Text)
    requires |signature| == 64
    ensures text == UrlText(signature) && |text| == 86
  {
    var block := EncodeBlock(signature);
    SextetCount(signature);
    var encoded := new byte[|block|](i requires 0 <= i < |block| => block[i]);
    RewriteAlphabet(encoded);
    text := encoded[..86];
    forall i | 0 <= i < 86 ensures text[i] == UrlText(signature)[i] {
      assert block[i] == Standard(Sextets(signature)[i]);
    }
  }
}
