/** Big-endian words. */
module Bytes {

  type Byte = b: int | 0 <= b < 256

  /** Base-256 weight of the n-th byte from the right. */
  function Pow(n: nat): (p: nat)
    ensures p > 0
  {
    if n == 0 then 1 else 256 * Pow(n - 1)
  }

  /** The low `n` bytes of x, most significant first. */
  function Big(n: nat, x: nat): (bs: seq<Byte>)
    ensures |bs| == n
  {
    if n == 0 then [] else Big(n - 1, x / 256) + [x % 256]
  }

  function Num(bs: seq<Byte>): nat {
    if bs == [] then 0 else 256 * Num(bs[..|bs| - 1]) + bs[|bs| - 1]
  }

  lemma {:induction false} NumBound(bs: seq<Byte>)
    ensures Num(bs) < Pow(|bs|)
  {
    if bs != [] {
      NumBound(bs[..|bs| - 1]);
    }
  }

  /** Reading back what was written gives the value cut to its width. */
  lemma {:induction false} NumBig(n: nat, x: nat)
    ensures x < Pow(n) ==> Num(Big(n, x)) == x
  {
    if n > 0 {
      NumBig(n - 1, x / 256);
      assert Big(n, x)[..n - 1] == Big(n - 1, x / 256);
    }
  }

  /** Writing back what was read gives the same bytes. */
  lemma {:induction false} BigNum(bs: seq<Byte>)
    ensures Big(|bs|, Num(bs)) == bs
  {
    if bs != [] {
      BigNum(bs[..|bs| - 1]);
      assert bs == bs[..|bs| - 1] + [bs[|bs| - 1]];
      assert Num(bs) / 256 == Num(bs[..|bs| - 1]);
    }
  }

  /** Writing keeps the low bytes only: what is beyond the width is lost. */
  lemma {:induction false} BigWraps(n: nat, x: nat)
    ensures Big(n, x) == Big(n, x % Pow(n))
  {
    if n > 0 {
      var p := Pow(n - 1);
      BigWraps(n - 1, x / 256);
      SplitMod(x, p);
      BigWraps(n - 1, x % Pow(n) / 256);
    }
  }

  lemma {:induction false} SplitMod(x: nat, p: nat)
    requires p > 0
    ensures x % (256 * p) / 256 == x / 256 % p && x % (256 * p) % 256 == x % 256
  {
    var q, r := x / 256 / p, x / 256 % p;
    assert x == 256 * (x / 256) + x % 256;
    assert x / 256 == q * p + r;
    assert x == q * (256 * p) + (256 * r + x % 256) by {
      assert q * (256 * p) == 256 * (q * p);
    }
    assert 256 * r + x % 256 < 256 * p;
    Quotient(x, 256 * p, q, 256 * r + x % 256);
  }

  /** Quotient and remainder are the only ones there are. */
  lemma {:induction false} Quotient(x: nat, d: nat, q: nat, r: nat)
    requires d > 0 && r < d && x == q * d + r
    ensures x % d == r && x / d == q
  {
    var e: int := x / d - q;
    var m: int := d;
    assert x == (x / d) * d + x % d;
    assert (x / d) * d == q * d + e * m;
    assert e * m == r - x % d;
    assert e >= 1 ==> e * m >= m;
    assert e <= -1 ==> e * m <= 0 - m;
  }

  /** The i-th byte of a word, by shifting: how the encoders pick bytes. */
  lemma {:induction false} BigAt(n: nat, x: nat, i: nat)
    requires i < n
    ensures Big(n, x)[i] == x / Pow(n - 1 - i) % 256
  {
    if i < n - 1 {
      BigAt(n - 1, x / 256, i);
      DivDiv(x, Pow(n - 2 - i));
    }
  }

  lemma {:induction false} DivDiv(x: nat, p: nat)
    requires p > 0
    ensures x / 256 / p == x / (256 * p)
  {
    var q, r := x / 256 / p, x / 256 % p;
    assert x == 256 * (x / 256) + x % 256 && x / 256 == q * p + r;
    assert q * (256 * p) == 256 * (q * p);
    Quotient(x, 256 * p, q, 256 * r + x % 256);
  }

  function Zeros(n: nat): (bs: seq<Byte>)
    ensures |bs| == n && forall i :: 0 <= i < n ==> bs[i] == 0
  {
    if n == 0 then [] else Zeros(n - 1) + [0]
  }

  lemma {:induction false} SubSlice(data: seq<Byte>, offset: nat, size: nat, a: nat, b: nat)
    requires offset + size <= |data| && a <= b <= size
    ensures data[offset..offset + size][a..b] == data[offset + a..offset + b]
  {
    var part, whole := data[offset..offset + size][a..b], data[offset + a..offset + b];
    assert |part| == |whole| == b - a;
    forall i | 0 <= i < b - a
      ensures part[i] == whole[i]
    {
      assert part[i] == data[offset..offset + size][a + i] == data[offset + (a + i)];
    }
  }

  /** Two blocks in a row, each at its place. */
  lemma {:induction false} Cut(data: seq<Byte>, offset: nat, a: seq<Byte>, b: seq<Byte>)
    requires offset + |a| + |b| <= |data| && data[offset..offset + |a| + |b|] == a + b
    ensures data[offset..offset + |a|] == a && data[offset + |a|..offset + |a| + |b|] == b
  {
    SubSlice(data, offset, |a| + |b|, 0, |a|);
    SubSlice(data, offset, |a| + |b|, |a|, |a| + |b|);
    assert (a + b)[0..|a|] == a && (a + b)[|a|..|a| + |b|] == b;
  }

  // ---------- writing and reading by offset ----------

  /** `output` holds `bs` at `offset`, after what it held before there; what follows is as it was. */
  twostate predicate Wrote(output: array<Byte>, offset: nat, bs: seq<Byte>)
    reads output
  {
    && offset + |bs| <= output.Length
    && output[..offset + |bs|] == old(output[..offset]) + bs
    && output[offset + |bs|..] == old(output[offset + |bs|..])
  }

  /** `buffer` starts with `done` and is zero from there on: the state of a buffer that is filled from the left. */
  ghost predicate Holds(buffer: seq<Byte>, done: seq<Byte>) {
    |done| <= |buffer| && buffer == done + Zeros(|buffer| - |done|)
  }

  lemma {:induction false} Blank(buffer: seq<Byte>)
    requires forall i :: 0 <= i < |buffer| ==> buffer[i] == 0
    ensures Holds(buffer, [])
  {
    assert [] + Zeros(|buffer|) == Zeros(|buffer|) == buffer;
  }

  /** Writing where the filled part ends extends it. */
  lemma {:induction false} Extend(before: seq<Byte>, after: seq<Byte>, done: seq<Byte>, bs: seq<Byte>)
    requires Holds(before, done) && |after| == |before| && |done| + |bs| <= |before|
    requires after[..|done| + |bs|] == before[..|done|] + bs && after[|done| + |bs|..] == before[|done| + |bs|..]
    ensures Holds(after, done + bs)
  {
    var k := |done| + |bs|;
    assert after == after[..k] + after[k..];
    assert before[..|done|] == done;
    assert before[k..] == Zeros(|before| - k) by {
      var zeros := Zeros(|before| - |done|);
      assert forall i :: k <= i < |before| ==> before[i] == zeros[i - |done|] == 0;
    }
  }

  /** Reserved bytes need no write. */
  lemma {:induction false} Skip(buffer: seq<Byte>, done: seq<Byte>, n: nat)
    requires Holds(buffer, done) && |done| + n <= |buffer|
    ensures Holds(buffer, done + Zeros(n))
  {
    assert Zeros(|buffer| - |done|) == Zeros(n) + Zeros(|buffer| - |done| - n);
  }

  lemma {:induction false} HoldsAll(buffer: seq<Byte>, done: seq<Byte>)
    requires Holds(buffer, done) && |done| == |buffer|
    ensures buffer == done
  {
  }

  /** What the write methods share: a loop that stores `bs` at `offset` has written it there. */
  twostate lemma {:induction false} Stored(output: array<Byte>, new offset: nat, new bs: seq<Byte>)
    requires offset + |bs| <= output.Length
    requires forall i :: 0 <= i < output.Length ==>
               output[i] == if offset <= i < offset + |bs| then bs[i - offset] else old(output[i])
    ensures Wrote(output, offset, bs)
    ensures forall done :: |done| == offset && Holds(old(output[..]), done) ==> Holds(output[..], done + bs)
  {
    var k := offset + |bs|;
    assert output[..k] == old(output[..offset]) + bs;
    assert output[k..] == old(output[k..]);
    forall done | |done| == offset && Holds(old(output[..]), done)
      ensures Holds(output[..], done + bs)
    {
      assert old(output[..])[..offset] == old(output[..offset]) && output[..][..k] == output[..k];
      assert old(output[..])[k..] == old(output[k..]) && output[..][k..] == output[k..];
      Extend(old(output[..]), output[..], done, bs);
    }
  }

  method WriteU16(output: array<Byte>, offset: nat, value: nat)
    requires offset + 2 <= output.Length
    modifies output
    ensures Wrote(output, offset, Big(2, value))
    ensures forall done :: |done| == offset && Holds(old(output[..]), done) ==> Holds(output[..], done + Big(2, value))
  {
    BigAt(2, value, 0);
    BigAt(2, value, 1);
    assert Pow(0) == 1 && Pow(1) == 256;
    output[offset] := value / 256 % 256;
    output[offset + 1] := value % 256;
    Stored(output, offset, Big(2, value));
  }

  method WriteU32(output: array<Byte>, offset: nat, value: nat)
    requires offset + 4 <= output.Length
    modifies output
    ensures Wrote(output, offset, Big(4, value))
    ensures forall done :: |done| == offset && Holds(old(output[..]), done) ==> Holds(output[..], done + Big(4, value))
  {
    hide Holds, Big;
    for index := 0 to 4
      invariant forall i :: 0 <= i < output.Length ==>
        output[i] == if offset <= i < offset + index then Big(4, value)[i - offset] else old(output[i])
    {
      BigAt(4, value, index);
      output[offset + index] := value / Pow(3 - index) % 256;
    }
    Stored(output, offset, Big(4, value));
  }

  method WriteU64(output: array<Byte>, offset: nat, value: nat)
    requires offset + 8 <= output.Length
    modifies output
    ensures Wrote(output, offset, Big(8, value))
    ensures forall done :: |done| == offset && Holds(old(output[..]), done) ==> Holds(output[..], done + Big(8, value))
  {
    hide Holds, Big;
    for index := 0 to 8
      invariant forall i :: 0 <= i < output.Length ==>
        output[i] == if offset <= i < offset + index then Big(8, value)[i - offset] else old(output[i])
    {
      BigAt(8, value, index);
      output[offset + index] := value / Pow(7 - index) % 256;
    }
    Stored(output, offset, Big(8, value));
  }

  method WriteBytes(output: array<Byte>, offset: nat, bs: seq<Byte>)
    requires offset + |bs| <= output.Length
    modifies output
    ensures Wrote(output, offset, bs)
    ensures forall done :: |done| == offset && Holds(old(output[..]), done) ==> Holds(output[..], done + bs)
  {
    hide Holds;
    for index := 0 to |bs|
      invariant forall i :: 0 <= i < output.Length ==>
        output[i] == if offset <= i < offset + index then bs[i - offset] else old(output[i])
    {
      output[offset + index] := bs[index];
    }
    Stored(output, offset, bs);
  }

  method ReadU64(source: seq<Byte>, offset: nat) returns (value: nat)
    requires offset + 8 <= |source|
    ensures value == Num(source[offset..offset + 8])
  {
    value := 0;
    for index := 0 to 8
      invariant value == Num(source[offset..offset + index])
    {
      assert source[offset..offset + index + 1][..index] == source[offset..offset + index];
      value := 256 * value + source[offset + index];
    }
  }

  function Word4(a: nat, b: nat, c: nat, d: nat): nat { a * 0x100_0000 + b * 0x1_0000 + c * 0x100 + d }

  function ReadU32(source: seq<Byte>, offset: nat): (value: nat)
    requires offset + 4 <= |source|
    ensures value == Num(source[offset..offset + 4])
  {
    Num4(source[offset..offset + 4]);
    Word4(source[offset], source[offset + 1], source[offset + 2], source[offset + 3])
  }

  lemma {:induction false} Num4(bs: seq<Byte>)
    requires |bs| == 4
    ensures Num(bs) == Word4(bs[0], bs[1], bs[2], bs[3])
  {
    assert bs[..3][..2] == bs[..2] && bs[..2][..1] == bs[..1] && bs[..1][..0] == [];
    assert Num(bs[..1]) == bs[0];
    assert Num(bs[..2]) == 256 * Num(bs[..1]) + bs[1];
    assert Num(bs[..3]) == 256 * Num(bs[..2]) + bs[2];
  }
}
