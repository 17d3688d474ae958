/** Big-endian numbers in byte sequences, the primitives under every peering codec. */
module Bytes {

  type byte = x: int | 0 <= x < 256

  function Pow256(w: nat): (p: nat)
    ensures p >= 1
  {
    if w == 0 then 1 else 256 * Pow256(w - 1)
  }

  /** The low `w` bytes of `n`, most significant first: `BytesOf` written in reverse. */
  function BE(n: nat, w: nat): (s: seq<byte>)
    ensures |s| == w
  {
    if w == 0 then [] else BE(n / 256, w - 1) + [n % 256]
  }

  /** The number a byte sequence stands for. */
  function Value(s: seq<byte>): nat {
    if s == [] then 0 else Value(s[..|s| - 1]) * 256 + s[|s| - 1]
  }

  lemma {:induction false} ValueBound(s: seq<byte>)
    ensures Value(s) < Pow256(|s|)
  {
    if s != [] {
      ValueBound(s[..|s| - 1]);
    }
  }

  lemma MulAtLeast(m: int, d: int)
    requires m > 0
    ensures d >= 1 ==> m * d >= m
    ensures d <= -1 ==> m * d <= -m
  {
  }

  lemma ModUnique(n: int, m: int, q: int, r: int)
    requires 0 <= r < m && n == q * m + r
    ensures n % m == r
  {
    var d := n / m - q;
    MulAtLeast(m, d);
    assert m * d == m * (n / m) - q * m;
  }

  lemma Regroup(q: int, p: int, r: int, b: int)
    ensures (q * p + r) * 256 + b == q * (256 * p) + (r * 256 + b)
  {
  }

  lemma DivMod(a: int, p: int)
    requires p > 0
    ensures a == a / p * p + a % p && 0 <= a % p < p
  {
  }

  /** Writing keeps the number modulo the width. */
  lemma {:induction false} ValueOfBE(n: nat, w: nat)
    ensures Value(BE(n, w)) == n % Pow256(w)
  {
    if w > 0 {
      ValueOfBE(n / 256, w - 1);
      LowDigit(n, Pow256(w - 1));
      assert BE(n, w)[..w - 1] == BE(n / 256, w - 1);
    }
  }

  lemma LowDigit(n: nat, p: nat)
    requires p > 0
    ensures n / 256 % p * 256 + n % 256 == n % (256 * p)
  {
    var q, r := n / 256 / p, n / 256 % p;
    DivMod(n / 256, p);
    Regroup(q, p, r, n % 256);
    ModUnique(n, 256 * p, q, r * 256 + n % 256);
  }

  lemma RoundTrip(n: nat, w: nat)
    requires n < Pow256(w)
    ensures Value(BE(n, w)) == n
  {
    ValueOfBE(n, w);
  }

  lemma {:induction false} BEOfValue(s: seq<byte>)
    ensures BE(Value(s), |s|) == s
  {
    if s != [] {
      BEOfValue(s[..|s| - 1]);
      assert s == s[..|s| - 1] + [s[|s| - 1]];
    }
  }

  lemma Widths()
    ensures Pow256(1) == 0x100 && Pow256(2) == 0x1_0000
    ensures Pow256(4) == 0x1_0000_0000 && Pow256(8) == 0x1_0000_0000_0000_0000
  {
    assert Pow256(2) == 256 * Pow256(1);
    assert Pow256(3) == 256 * Pow256(2);
    assert Pow256(4) == 256 * Pow256(3);
    assert Pow256(5) == 256 * Pow256(4);
    assert Pow256(6) == 256 * Pow256(5);
    assert Pow256(7) == 256 * Pow256(6);
    assert Pow256(8) == 256 * Pow256(7);
  }

  /** The number held by `mem` when byte 0 is the least significant one. */
  function LittleEndian(mem: seq<byte>): nat {
    if mem == [] then 0 else mem[0] + 256 * LittleEndian(mem[1..])
  }

  lemma Spread(l: int, p: int, b: int)
    ensures 256 * (l + p * b) == 256 * l + (256 * p) * b
  {
  }

  lemma {:induction false} LittleEndianSnoc(mem: seq<byte>, b: byte)
    ensures LittleEndian(mem + [b]) == LittleEndian(mem) + Pow256(|mem|) * b
  {
    if mem == [] {
      assert ([b])[1..] == [];
    } else {
      assert (mem + [b])[1..] == mem[1..] + [b];
      LittleEndianSnoc(mem[1..], b);
      Spread(LittleEndian(mem[1..]), Pow256(|mem| - 1), b);
    }
  }

  lemma {:induction false} ValueCons(b: byte, s: seq<byte>)
    ensures Value([b] + s) == b * Pow256(|s|) + Value(s)
  {
    if s == [] {
      assert [b] + s == [b] && [b][..0] == [];
    } else {
      var last := s[|s| - 1];
      assert ([b] + s)[..|s|] == [b] + s[..|s| - 1];
      ValueCons(b, s[..|s| - 1]);
    }
  }

  /** Decodes `size` big-endian bytes on a little-endian host by filling memory back to front. */
  lemma OneMoreByte(mem: seq<byte>, s: seq<byte>, b: byte)
    requires |mem| == |s| && LittleEndian(mem) == Value(s)
    ensures LittleEndian(mem + [b]) == Value([b] + s)
  {
    LittleEndianSnoc(mem, b);
    ValueCons(b, s);
  }

  method ValueOf(value: seq<byte>, size: nat) returns (r: nat)
    requires size <= |value|
    ensures r == Value(value[..size])
  {
    var mem: seq<byte> := [];
    for i := 0 to size
      invariant |mem| == i
      invariant LittleEndian(mem) == Value(value[size - i..size])
    {
      assert value[size - 1 - i..size] == [value[size - 1 - i]] + value[size - i..size];
      OneMoreByte(mem, value[size - i..size], value[size - 1 - i]);
      mem := mem + [value[size - 1 - i]];
    }
    r := LittleEndian(mem);
  }
}
