/** Base 128 varints, the errors of both codecs, and integers as the code wraps them. Integers are unbounded here;
    every place where 64-bit or 32-bit arithmetic wraps says so. */
module Varints {

  type byte = x: int | 0 <= x < 256

  datatype Error =
    | IntOverflow | UnexpectedEof | InvalidLength | EndGroup | IllegalTag | WrongWireType
    | UnexpectedEndOfGroup | IllegalWireType

  datatype Result<+T> = Ok(value: T) | Err(error: Error)

  const MaxInt: nat := 0x7fff_ffff_ffff_ffff
  const Two64: nat := 0x1_0000_0000_0000_0000
  const Two32: nat := 0x1_0000_0000

  /** The conversion `int32(x)` of an unsigned value. */
  function ToInt32(x: nat): int
  {
    var low := x % Two32;
    if low < Two32 / 2 then low else low - Two32
  }

  /** The conversion `uint64(n)` of a signed value. */
  function ToUint64(n: int): nat
    requires -0x8000_0000_0000_0000 <= n < Two64
  {
    if n < 0 then n + Two64 else n
  }

  lemma Int32Back(n: int)
    requires -0x8000_0000 <= n < 0x8000_0000
    ensures ToInt32(ToUint64(n)) == n && ToUint64(n) < Two64
  {
    assert Two64 == Two32 * Two32;
    if n < 0 { assert (n + Two64) % Two32 == n + Two32; }
  }

  // ---------- varints ----------

  /** Base 128, least significant group first; all bytes but the last carry the continuation bit. */
  function Varint(v: nat): (r: seq<byte>)
    ensures r != []
  {
    if v < 128 then [v] else [v % 128 + 128] + Varint(v / 128)
  }

  /** `x << 7 * k`, without the overflow. */
  function Shl(x: nat, k: nat): nat
  {
    if k == 0 then x else 128 * Shl(x, k - 1)
  }

  function Later(r: Result<(nat, nat)>, n: nat): (q: Result<(nat, nat)>)
  {
    if r.Ok? then Ok((r.value.0, r.value.1 + n)) else r
  }

  /** The read loop after `k` bytes, `shift` being `7 * k`: the value and the number of bytes taken from `s`.
      The groups occupy disjoint bits, so the code's `|=` adds them; the tenth keeps only its lowest bit. */
  function VarintFrom(s: seq<byte>, k: nat, acc: nat): (r: Result<(nat, nat)>)
    ensures r.Ok? ==> 0 < r.value.1 <= |s| && r.value.0 < Two64
  {
    if 7 * k >= 64 then Err(IntOverflow)
    else if s == [] then Err(UnexpectedEof)
    else
      var sum := (acc + Shl(s[0] % 128, k)) % Two64;
      if s[0] < 128 then Ok((sum, 1)) else Later(VarintFrom(s[1..], k + 1, sum), 1)
  }

  /** The value at the head of `s` and its length. */
  function ReadVarint(s: seq<byte>): (r: Result<(nat, nat)>)
    ensures r.Ok? ==> 0 < r.value.1 <= |s| && r.value.0 < Two64
  {
    VarintFrom(s, 0, 0)
  }

  method VarintLoop(data: seq<byte>, from: nat) returns (r: Result<(nat, nat)>)
    requires from <= |data|
    ensures r == Later(ReadVarint(data[from..]), from)
  {
    var value: nat, i, k := 0, from, 0;
    while true
      invariant from <= i <= |data|
      invariant Later(VarintFrom(data[i..], k, value), i - from) == ReadVarint(data[from..])
      decreases |data| - i
    {
      if 7 * k >= 64 { return Err(IntOverflow); }
      if i >= |data| { return Err(UnexpectedEof); }
      var b := data[i];
      assert data[i..][1..] == data[i + 1..];
      i := i + 1;
      value := (value + Shl(b % 128, k)) % Two64;
      if b < 128 { return Ok((value, i)); }
      k := k + 1;
    }
  }

  lemma {:induction false} ShlParts(v: nat, k: nat)
    ensures Shl(v, k) == Shl(v % 128, k) + Shl(v / 128, k + 1)
  {
    if k > 0 { ShlParts(v, k - 1); }
  }

  lemma {:induction false} ShlGrows(v: nat, k: nat, j: nat)
    requires v > 0 && j <= k
    ensures Shl(v, k) >= Shl(1, j)
  {
    if j > 0 { ShlGrows(v, k - 1, j - 1); } else if k > 0 { ShlGrows(v, k - 1, j); }
  }

  /** A positive value leaves no room for an eleventh group. */
  lemma GroupsFit(v: nat, k: nat)
    requires Shl(v, k) < Two64 && v > 0
    ensures k <= 9
  {
    assert Shl(1, 10) >= Two64;
    if k > 9 { ShlGrows(v, k, 10); }
  }

  lemma VarintHead(b: byte, s: seq<byte>, k: nat, acc: nat)
    requires k <= 9 && acc + Shl(b % 128, k) < Two64
    ensures VarintFrom([b] + s, k, acc) ==
      if b < 128 then Ok((acc + Shl(b % 128, k), 1))
      else Later(VarintFrom(s, k + 1, acc + Shl(b % 128, k)), 1)
  {
    assert ([b] + s)[1..] == s;
  }

  lemma VarintTail(v: nat, rest: seq<byte>, k: nat, acc: nat, next: nat, total: nat)
    requires v >= 128 && k <= 9 && next == acc + Shl(v % 128, k) && next < Two64
    requires VarintFrom(Varint(v / 128) + rest, k + 1, next) == Ok((total, |Varint(v / 128)|))
    ensures VarintFrom(Varint(v) + rest, k, acc) == Ok((total, |Varint(v)|))
  {
    var b: byte := v % 128 + 128;
    assert b % 128 == v % 128;
    VarintHead(b, Varint(v / 128) + rest, k, acc);
    assert Varint(v) + rest == [b] + (Varint(v / 128) + rest);
  }

  lemma NextGroup(v: nat, k: nat, acc: nat, total: nat) returns (next: nat)
    requires total == acc + Shl(v, k) && total < Two64 && (k == 0 || v > 0) && v >= 128
    ensures k <= 9 && next == acc + Shl(v % 128, k) && next < Two64
    ensures total == next + Shl(v / 128, k + 1)
  {
    if k > 0 { GroupsFit(v, k); }
    ShlParts(v, k);
    next := acc + Shl(v % 128, k);
  }

  lemma VarintLast(v: nat, rest: seq<byte>, k: nat, acc: nat, total: nat)
    requires total == acc + Shl(v, k) && total < Two64 && (k == 0 || v > 0) && v < 128
    ensures VarintFrom(Varint(v) + rest, k, acc) == Ok((total, 1))
  {
    if k > 0 { GroupsFit(v, k); }
    VarintHead(v, rest, k, acc);
  }

  lemma {:induction false} VarintReadsFrom(v: nat, rest: seq<byte>, k: nat, acc: nat, total: nat)
    requires total == acc + Shl(v, k) && total < Two64 && (k == 0 || v > 0)
    ensures VarintFrom(Varint(v) + rest, k, acc) == Ok((total, |Varint(v)|))
    decreases v
  {
    if v < 128 {
      VarintLast(v, rest, k, acc, total);
    } else {
      var next := NextGroup(v, k, acc, total);
      VarintReadsFrom(v / 128, rest, k + 1, next, total);
      VarintTail(v, rest, k, acc, next, total);
    }
  }

  /** Reading undoes writing, whatever follows. */
  lemma VarintReads(v: nat, rest: seq<byte>)
    requires v < Two64
    ensures ReadVarint(Varint(v) + rest) == Ok((v, |Varint(v)|))
  {
    VarintReadsFrom(v, rest, 0, 0, v);
  }

  /** The first `n` bytes agree. */
  predicate Agree(s: seq<byte>, t: seq<byte>, n: nat)
  {
    n <= |s| && n <= |t| && s[..n] == t[..n]
  }

  lemma AgreeTail(s: seq<byte>, t: seq<byte>, k: nat, n: nat)
    requires Agree(s, t, n) && k <= n
    ensures Agree(s, t, k) && Agree(s[k..], t[k..], n - k)
  {
    assert s[..k] == s[..n][..k] && t[..k] == t[..n][..k];
    assert s[k..][..n - k] == s[..n][k..] && t[k..][..n - k] == t[..n][k..];
  }

  /** A read depends only on the bytes it takes. */
  lemma {:induction false} VarintLocal(s: seq<byte>, t: seq<byte>, k: nat, acc: nat)
    requires VarintFrom(s, k, acc).Ok? && Agree(s, t, VarintFrom(s, k, acc).value.1)
    ensures VarintFrom(t, k, acc) == VarintFrom(s, k, acc)
  {
    var n := VarintFrom(s, k, acc).value.1;
    assert s[0] == s[..n][0] == t[..n][0] == t[0];
    if s[0] >= 128 {
      AgreeTail(s, t, 1, n);
      VarintLocal(s[1..], t[1..], k + 1, (acc + Shl(s[0] % 128, k)) % Two64);
    }
  }

  // ---------- the size of a varint ----------

  /** The number of bits of `x`, as `math/bits.Len64`. */
  function Len64(x: nat): nat
  {
    if x == 0 then 0 else 1 + Len64(x / 2)
  }

  function Or1(x: nat): nat { if x % 2 == 0 then x + 1 else x }

  function Sov(x: nat): nat { (Len64(Or1(x)) + 6) / 7 }

  lemma Len8(x: nat)
    requires x >= 8
    ensures Len64(x) == 3 + Len64(x / 8)
  {
    assert x / 2 / 2 / 2 == x / 8;
    assert Len64(x / 2) == 2 + Len64(x / 2 / 2 / 2);
  }

  lemma Len128(x: nat)
    requires x >= 128
    ensures Len64(x) == 7 + Len64(x / 128)
  {
    Len8(x);
    Len8(x / 8);
    assert x / 8 / 8 / 2 == x / 128;
  }

  lemma LenOr1(x: nat)
    requires x > 0
    ensures Len64(Or1(x)) == Len64(x)
  {
    assert Or1(x) / 2 == x / 2;
  }

  lemma LenSmall(x: nat)
    requires x < 8
    ensures Len64(x) <= 3
  {
    assert Len64(x / 2 / 2) <= 1;
    assert Len64(x / 2) <= 2;
  }

  lemma LenBelow(x: nat)
    requires x < 128
    ensures Len64(x) <= 7
  {
    if x >= 8 {
      Len8(x);
      assert x / 8 < 16;
      LenSmall(x / 8 / 2);
    } else {
      LenSmall(x);
    }
  }

  /** `sovApi` is exactly the number of bytes written. */
  lemma {:induction false} SovExact(v: nat)
    ensures Sov(v) == |Varint(v)|
  {
    if v < 128 {
      LenBelow(Or1(v));
    } else {
      SovExact(v / 128);
      LenOr1(v);
      LenOr1(v / 128);
      Len128(v);
    }
  }
}
