/**
 Command ids on the wire: the broker plugin's UTF-8 loop against the encoding of section 3 of
 RFC 3629, and against what the agent accepts (`str::from_utf8`, then `CommandId::try_from`).
 */
module Utf8 {
  import opened Bytes

  type Scalar = x: int | 0 <= x <= 0x10FFFF && !(0xD800 <= x <= 0xDFFF)

  // ----- The encoding -----

  function Encode(x: Scalar): (r: Text)
    ensures 1 <= |r| <= 4
  {
    if x < 0x80 then [x]
    else if x < 0x800 then [0xC0 + x / 64, 0x80 + x % 64]
    else if x < 0x10000 then [0xE0 + x / 4096, 0x80 + x / 64 % 64, 0x80 + x % 64]
    else [0xF0 + x / 262144, 0x80 + x / 4096 % 64, 0x80 + x / 64 % 64, 0x80 + x % 64]
  }

  function EncodeAll(xs: seq<Scalar>): Text {
    if xs == [] then [] else Encode(xs[0]) + EncodeAll(xs[1..])
  }

  /** `char::is_control`: the general category Cc. */
  predicate IsControl(x: Scalar) { x <= 0x1F || 0x7F <= x <= 0x9F }

  predicate ValidCommandId(xs: seq<Scalar>) {
    1 <= |xs| <= 256 && forall i :: 0 <= i < |xs| ==> !IsControl(xs[i])
  }

  /** The bytes the agent accepts as a command id. */
  ghost predicate AgentAccepts(value: Text) {
    exists xs: seq<Scalar> :: EncodeAll(xs) == value && ValidCommandId(xs)
  }

  // ----- One character, as the plugin reads it -----

  predicate Continuation(b: int) { 0x80 <= b <= 0xBF }

  datatype Taken = Taken(scalar: int, width: nat)

  /** The branches of the plugin's loop body; masks and shifts written as remainders and products. */
  function Take(v: Text): Option<Taken>
    requires v != []
  {
    var lead: int := v[0];
    var second: int := if 1 < |v| then v[1] else 0;
    var third: int := if 2 < |v| then v[2] else 0;
    var fourth: int := if 3 < |v| then v[3] else 0;
    if lead <= 0x7F then Some(Taken(lead, 1))
    else if 0xC2 <= lead <= 0xDF && Continuation(second) then
      Some(Taken(lead % 32 * 64 + second % 64, 2))
    else if 0xE0 <= lead <= 0xEF && Continuation(second) && Continuation(third)
            && !(lead == 0xE0 && second < 0xA0) && !(lead == 0xED && second > 0x9F) then
      Some(Taken(lead % 16 * 4096 + second % 64 * 64 + third % 64, 3))
    else if 0xF0 <= lead <= 0xF4 && Continuation(second) && Continuation(third) && Continuation(fourth)
            && !(lead == 0xF0 && second < 0x90) && !(lead == 0xF4 && second > 0x8F) then
      Some(Taken(lead % 8 * 262144 + second % 64 * 4096 + third % 64 * 64 + fourth % 64, 4))
    else None
  }

  predicate IsScalar(x: int) { 0 <= x <= 0x10FFFF && !(0xD800 <= x <= 0xDFFF) }

  /** What is taken is a scalar value, and its encoding is exactly the bytes consumed. */
  lemma TakeSound(v: Text)
    requires v != [] && Take(v).Some?
    ensures IsScalar(Take(v).value.scalar) && 1 <= Take(v).value.width <= |v|
    ensures Encode(Take(v).value.scalar) == v[..Take(v).value.width]
  {
    var x, w := Take(v).value.scalar, Take(v).value.width;
    if w == 2 { TakeTwo(v[0], v[1]); }
    else if w == 3 { TakeThree(v[0], v[1], v[2]); }
    else if w == 4 { TakeFour(v[0], v[1], v[2], v[3]); }
  }

  lemma DivMod(h: int, l: int)
    requires 0 <= l < 64
    ensures (64 * h + l) / 64 == h && (64 * h + l) % 64 == l
  {}

  lemma TakeTwo(a: int, b: int)
    requires 0xC2 <= a <= 0xDF && Continuation(b)
    ensures IsScalar(a % 32 * 64 + b % 64)
    ensures Encode(a % 32 * 64 + b % 64) == [a, b]
  {}

  lemma TakeThree(a: int, b: int, c: int)
    requires 0xE0 <= a <= 0xEF && Continuation(b) && Continuation(c)
    requires !(a == 0xE0 && b < 0xA0) && !(a == 0xED && b > 0x9F)
    ensures IsScalar(a % 16 * 4096 + b % 64 * 64 + c % 64)
    ensures Encode(a % 16 * 4096 + b % 64 * 64 + c % 64) == [a, b, c]
  {
    var p, q, r := a - 0xE0, b - 0x80, c - 0x80;
    DivMod(2, q);
    DivMod(2, r);
    assert a % 16 == p;
    EncodeThree(p, q, r);
  }

  lemma EncodeThree(p: int, q: int, r: int)
    requires 0 <= p < 16 && 0 <= q < 64 && 0 <= r < 64
    requires !(p == 0 && q < 32) && !(p == 13 && q > 31)
    ensures var x := 4096 * p + 64 * q + r;
            IsScalar(x) && 0x800 <= x < 0x10000 && Encode(x) == [0xE0 + p, 0x80 + q, 0x80 + r]
  {
    Digits(0, p, q, r);
  }

  /** The base-64 digits of a number. */
  lemma Digits(o: int, p: int, q: int, r: int)
    requires 0 <= p < 64 && 0 <= q < 64 && 0 <= r < 64
    ensures var x := 262144 * o + 4096 * p + 64 * q + r;
            x % 64 == r && x / 64 % 64 == q && x / 4096 % 64 == p && x / 262144 == o && x / 4096 == 64 * o + p
  {}

  lemma Quotients(x: int)
    ensures x / 64 / 64 == x / 4096 && x / 4096 / 64 == x / 262144
  {}

  lemma TakeFour(a: int, b: int, c: int, d: int)
    requires 0xF0 <= a <= 0xF4 && Continuation(b) && Continuation(c) && Continuation(d)
    requires !(a == 0xF0 && b < 0x90) && !(a == 0xF4 && b > 0x8F)
    ensures IsScalar(a % 8 * 262144 + b % 64 * 4096 + c % 64 * 64 + d % 64)
    ensures Encode(a % 8 * 262144 + b % 64 * 4096 + c % 64 * 64 + d % 64) == [a, b, c, d]
  {
    var o, p, q, r := a - 0xF0, b - 0x80, c - 0x80, d - 0x80;
    DivMod(2, p);
    DivMod(2, q);
    DivMod(2, r);
    assert a % 8 == o;
    EncodeFour(o, p, q, r);
  }

  lemma EncodeFour(o: int, p: int, q: int, r: int)
    requires 0 <= o <= 4 && 0 <= p < 64 && 0 <= q < 64 && 0 <= r < 64
    requires !(o == 0 && p < 16) && !(o == 4 && p > 15)
    ensures var x := 262144 * o + 4096 * p + 64 * q + r;
            0x10000 <= x <= 0x10FFFF && Encode(x) == [0xF0 + o, 0x80 + p, 0x80 + q, 0x80 + r]
  {
    Digits(o, p, q, r);
  }

  /** Every encoded scalar value is taken back, whatever follows it. */
  lemma TakeComplete(x: Scalar, rest: Text)
    ensures Take(Encode(x) + rest) == Some(Taken(x, |Encode(x)|))
  {
    var v := Encode(x) + rest;
    assert forall i :: 0 <= i < |Encode(x)| ==> v[i] == Encode(x)[i];
    if x < 0x80 {
    } else if x < 0x800 {
      TakeBackTwo(x, v);
    } else if x < 0x10000 {
      TakeBackThree(x, v);
    } else {
      TakeBackFour(x, v);
    }
  }

  lemma TakeBackTwo(x: Scalar, v: Text)
    requires 0x80 <= x < 0x800 && 2 <= |v| && v[0] == 0xC0 + x / 64 && v[1] == 0x80 + x % 64
    ensures Take(v) == Some(Taken(x, 2))
  {}

  lemma TakeBackThree(x: Scalar, v: Text)
    requires 0x800 <= x < 0x10000 && 3 <= |v|
    requires v[0] == 0xE0 + x / 4096 && v[1] == 0x80 + x / 64 % 64 && v[2] == 0x80 + x % 64
    ensures Take(v) == Some(Taken(x, 3))
  {
    var p, q, r := x / 4096, x / 64 % 64, x % 64;
    Quotients(x);
    assert x == 4096 * p + 64 * q + r;
    DivMod(2, r);
    DivMod(2, q);
    assert (0xE0 + p) % 16 == p;
  }

  lemma TakeBackFour(x: Scalar, v: Text)
    requires 0x10000 <= x && 4 <= |v|
    requires v[0] == 0xF0 + x / 262144 && v[1] == 0x80 + x / 4096 % 64 && v[2] == 0x80 + x / 64 % 64 && v[3] == 0x80 + x % 64
    ensures Take(v) == Some(Taken(x, 4))
  {
    var o, p, q, r := x / 262144, x / 4096 % 64, x / 64 % 64, x % 64;
    Quotients(x);
    assert x == 262144 * o + 4096 * p + 64 * q + r;
    DivMod(2, r);
    DivMod(2, q);
    DivMod(2, p);
    assert (0xF0 + o) % 8 == o;
  }

  // ----- Whole strings -----

  function Decode(v: Text): Option<seq<Scalar>>
    decreases |v|
  {
    if v == [] then Some([])
    else
      var t := Take(v);
      if t.None? then None
      else
        TakeSound(v);
        var rest := Decode(v[t.value.width..]);
        if rest.None? then None else Some([t.value.scalar] + rest.value)
  }

  /** Decoding then re-encoding returns the input, and decoding inverts encoding. */
  lemma {:induction false} DecodeExact(v: Text, xs: seq<Scalar>)
    ensures Decode(v) == Some(xs) <==> EncodeAll(xs) == v
    decreases |v|
  {
    hide Take, Encode;
    if v == [] {
      if xs != [] { assert |EncodeAll(xs)| > 0; }
    } else if xs == [] {
    } else {
      if EncodeAll(xs) == v {
        TakeComplete(xs[0], EncodeAll(xs[1..]));
        var w := |Encode(xs[0])|;
        assert v[w..] == EncodeAll(xs[1..]);
        DecodeExact(v[w..], xs[1..]);
        assert [xs[0]] + xs[1..] == xs;
      }
      if Decode(v) == Some(xs) {
        TakeSound(v);
        var w := Take(v).value.width;
        var rest := Decode(v[w..]).value;
        assert xs == [Take(v).value.scalar] + rest;
        assert xs[1..] == rest;
        DecodeExact(v[w..], rest);
        assert v == v[..w] + v[w..];
      }
    }
  }

  /** Reading from the first `taken` characters on: what the loop has left to decide. */
  predicate Remaining(v: Text, characters: nat) {
    var rest := Decode(v);
    rest.Some? && characters + |rest.value| <= 256 && forall i :: 0 <= i < |rest.value| ==> !IsControl(rest.value[i])
  }

  lemma AcceptsIsRemaining(value: Text)
    requires value != []
    ensures AgentAccepts(value) <==> Remaining(value, 0)
  {
    if AgentAccepts(value) {
      var xs: seq<Scalar> :| EncodeAll(xs) == value && ValidCommandId(xs);
      DecodeExact(value, xs);
    }
    if Remaining(value, 0) {
      var xs := Decode(value).value;
      DecodeExact(value, xs);
      assert xs != [];
      assert ValidCommandId(xs);
    }
  }

  /** The plugin's loop accepts exactly the bytes the agent accepts. */
  method CanonicalCommandId(value: Text) returns (ok: bool)
    requires |value| <= U16_MAX
    ensures ok <==> AgentAccepts(value)
  {
    if |value| == 0 {
      EmptyIsRefused(value);
      return false;
    }
    hide Decode, Take, Encode, Remaining, AgentAccepts;
    AcceptsIsRemaining(value);
    var offset, characters := 0, 0;
    assert value[offset..] == value;
    while offset < |value|
      invariant 0 <= offset <= |value| && 0 <= characters <= 256
      invariant Remaining(value, 0) <==> Remaining(value[offset..], characters)
      decreases |value| - offset
    {
      var rest := value[offset..];
      var taken := Take(rest);
      if taken.None? {
        NothingTaken(rest, characters);
        return false;
      }
      TakeSound(rest);
      var scalar: Scalar := taken.value.scalar;
      ghost var tail := rest[taken.value.width..];
      StepRemaining(rest, characters);
      if scalar <= 0x1F || (scalar >= 0x7F && scalar <= 0x9F) { return false; }
      characters := characters + 1;
      if characters > 256 { return false; }
      assert value[offset + taken.value.width..] == tail;
      offset := offset + taken.value.width;
    }
    assert value[offset..] == [];
    NothingLeft(characters);
    return true;
  }

  lemma EmptyIsRefused(value: Text)
    requires value == []
    ensures !AgentAccepts(value)
  {
    forall xs: seq<Scalar> | EncodeAll(xs) == value ensures xs == [] { DecodeExact(value, xs); }
  }

  lemma NothingTaken(rest: Text, characters: nat)
    requires rest != [] && Take(rest).None?
    ensures !Remaining(rest, characters)
  {}

  lemma NothingLeft(characters: nat)
    requires characters <= 256
    ensures Remaining([], characters)
  {}

  lemma StepRemaining(rest: Text, characters: nat)
    requires rest != [] && Take(rest).Some? && IsScalar(Take(rest).value.scalar) && Take(rest).value.width <= |rest|
    ensures Remaining(rest, characters) <==>
            !IsControl(Take(rest).value.scalar) && characters + 1 <= 256
            && Remaining(rest[Take(rest).value.width..], characters + 1)
  {
    var tail := Decode(rest[Take(rest).value.width..]);
    if tail.Some? {
      var all := [Take(rest).value.scalar] + tail.value;
      assert Decode(rest) == Some(all);
      assert forall i :: 1 <= i < |all| ==> all[i] == tail.value[i - 1];
      assert all[0] == Take(rest).value.scalar;
      if Remaining(rest, characters) {
        assert !IsControl(all[0]);
        forall i | 0 <= i < |tail.value| ensures !IsControl(tail.value[i]) { assert all[i + 1] == tail.value[i]; }
      }
    }
  }

  /** An accepted command id holds no NUL byte, so joining with NUL is unambiguous. */
  lemma AcceptedIsNulFree(value: Text)
    requires AgentAccepts(value)
    ensures 0 !in value && value != []
  {
    var xs: seq<Scalar> :| EncodeAll(xs) == value && ValidCommandId(xs);
    EncodedNulFree(xs);
    assert |Encode(xs[0])| > 0;
  }

  lemma {:induction false} EncodedNulFree(xs: seq<Scalar>)
    requires forall i :: 0 <= i < |xs| ==> !IsControl(xs[i])
    ensures 0 !in EncodeAll(xs)
  {
    if xs != [] {
      EncodedNulFree(xs[1..]);
      assert !IsControl(xs[0]);
    }
  }
}
