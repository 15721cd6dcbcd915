/** Machine-level vocabulary: bytes, Rust strings as their bytes, and bounded integers. */
module Bytes {
  type byte = x: int | 0 <= x < 256

  /** A Rust `String` or C string, as the bytes it holds. */
  type Text = seq<byte>

  const U16_MAX: int := 0xFFFF
  const U32_MAX: int := 0xFFFF_FFFF
  const U64_MAX: int := 0xFFFF_FFFF_FFFF_FFFF
  const I64_MAX: int := 0x7FFF_FFFF_FFFF_FFFF

  type u16 = x: int | 0 <= x <= 0xFFFF
  type u64 = x: int | 0 <= x <= 0xFFFF_FFFF_FFFF_FFFF
  type i64 = x: int | -0x8000_0000_0000_0000 <= x <= 0x7FFF_FFFF_FFFF_FFFF

  datatype Option<+T> = None | Some(value: T)

  /** `u64::saturating_add`. */
  function SaturatingAdd(a: u64, b: u64): (r: u64) {
    if a + b > U64_MAX then U64_MAX else a + b
  }

  /** `i64::try_from(now).unwrap_or(i64::MAX)`. */
  function ClampToI64(now: u64): (r: i64) {
    if now > I64_MAX then I64_MAX else now
  }

  /** The sequence without the element at `index` (`Vec::remove`). */
  function RemoveAt<T>(s: seq<T>, index: nat): (r: seq<T>)
    requires index < |s|
    ensures |r| == |s| - 1
    ensures forall k :: 0 <= k < index ==> r[k] == s[k]
    ensures forall k :: index <= k < |r| ==> r[k] == s[k + 1]
  {
    s[..index] + s[index + 1..]
  }

  function Ascii(s: string): (r: Text)
    ensures |r| == |s| && forall i :: 0 <= i < |s| ==> r[i] == (s[i] as int) % 128
  {
    seq(|s|, i requires 0 <= i < |s| => (s[i] as int) % 128)
  }

  /** `to_be_bytes`: the low `width` bytes of `n`, most significant first. */
  function BigEndian(n: nat, width: nat): (r: Text)
    ensures |r| == width
  {
    if width == 0 then [] else BigEndian(n / 256, width - 1) + [n % 256]
  }

  function Range(width: nat): (r: nat)
    ensures r > 0
  {
    if width == 0 then 1 else 256 * Range(width - 1)
  }

  lemma {:induction false} BigEndianInjective(n: nat, m: nat, width: nat)
    requires n < Range(width) && m < Range(width) && BigEndian(n, width) == BigEndian(m, width)
    ensures n == m
  {
    if width > 0 {
      var a, b := BigEndian(n / 256, width - 1), BigEndian(m / 256, width - 1);
      assert BigEndian(n, width)[..width - 1] == a && BigEndian(m, width)[..width - 1] == b;
      assert BigEndian(n, width)[width - 1] == n % 256 && BigEndian(m, width)[width - 1] == m % 256;
      BigEndianInjective(n / 256, m / 256, width - 1);
    }
  }

  lemma Ranges()
    ensures Range(4) == U32_MAX + 1 && Range(8) == U64_MAX + 1
  {}

  lemma U32Injective(n: nat, m: nat)
    requires n <= U32_MAX && m <= U32_MAX && BigEndian(n, 4) == BigEndian(m, 4)
    ensures n == m
  {
    Ranges();
    BigEndianInjective(n, m, 4);
  }

  lemma U64Injective(n: nat, m: nat)
    requires n <= U64_MAX && m <= U64_MAX && BigEndian(n, 8) == BigEndian(m, 8)
    ensures n == m
  {
    Ranges();
    BigEndianInjective(n, m, 8);
  }

  // ----- Cancelling parts of equal concatenations -----

  lemma PrefixCancels<T>(a: seq<T>, x: seq<T>, b: seq<T>, y: seq<T>)
    requires a + x == b + y && |a| == |b|
    ensures a == b && x == y
  {
    assert a == (a + x)[..|a|] && b == (b + y)[..|b|];
    assert x == (a + x)[|a|..] && y == (b + y)[|b|..];
  }

  /** A NUL terminator marks where a NUL-free text ends. */
  lemma NulCancels(a: Text, x: Text, b: Text, y: Text)
    requires a + [0] + x == b + [0] + y && 0 !in a && 0 !in b
    ensures a == b && x == y
  {
    var l, r := a + [0] + x, b + [0] + y;
    assert forall i :: 0 <= i < |a| ==> l[i] == a[i] && a[i] in a;
    assert forall i :: 0 <= i < |b| ==> r[i] == b[i] && b[i] in b;
    assert l[|a|] == 0 && r[|b|] == 0;
    assert |a| == |b|;
    assert a + ([0] + x) == l && b + ([0] + y) == r;
    PrefixCancels(a, [0] + x, b, [0] + y);
    PrefixCancels([0], x, [0], y);
  }
}
