/** Octets and their little-endian reading as numbers, shared by the byte-level modules. */
module Bytes {

  newtype byte = x: int | 0 <= x < 256

  /** 256 to the power n: how many values an n-byte counter has. */
  function Pow256(n: nat): (p: nat)
    ensures p >= 1
  {
    if n == 0 then 1 else 256 * Pow256(n - 1)
  }

  /** The number that `s` denotes, least significant byte first. */
  function Value(s: seq<byte>): (v: nat)
    ensures v < Pow256(|s|)
  {
    if s == [] then 0 else s[0] as int + 256 * Value(s[1..])
  }

  lemma {:induction false} ModByParts(v: nat, p: nat)
    requires p >= 1
    ensures v % (256 * p) == v % 256 + 256 * (v / 256 % p)
  {
    var q, r := v / 256 / p, v / 256 % p;
    assert v / 256 == q * p + r;
    assert v == q * (256 * p) + (256 * r + v % 256);
    ModUnique(v, 256 * p, q, 256 * r + v % 256);
  }

  lemma {:induction false} ModUnique(v: nat, m: nat, q: nat, r: nat)
    requires m >= 1 && r < m && v == q * m + r
    ensures v % m == r && v / m == q
  {
    var q', r' := v / m, v % m;
    assert v == q' * m + r';
    Multiples(q', q, m);
    Multiples(q, q', m);
  }

  lemma {:induction false} SmallMod(v: nat, m: nat)
    requires v < m
    ensures v % m == v
  {
    ModUnique(v, m, 0, v);
  }

  /** Different multiples of m are at least m apart. */
  lemma {:induction false} Multiples(a: nat, b: nat, m: nat)
    ensures a < b ==> a * m + m <= b * m
  {
    if a < b {
      assert b * m == (b - 1) * m + m;
      Multiples(a, b - 1, m);
    }
  }

  /** Equal-length byte strings denote the same number only if they are equal. */
  lemma {:induction false} ValueInjective(a: seq<byte>, b: seq<byte>)
    requires |a| == |b| && Value(a) == Value(b)
    ensures a == b
  {
    if a == [] {
    } else {
      assert Value(a) % 256 == a[0] as int && Value(b) % 256 == b[0] as int;
      ValueInjective(a[1..], b[1..]);
      assert a == [a[0]] + a[1..] && b == [b[0]] + b[1..];
    }
  }

  /** Adding i and j to the same number agree modulo m exactly when i and j do. */
  lemma {:induction false} ShiftedMod(v: nat, i: nat, j: nat, m: nat)
    requires m >= 1
    ensures (v + i) % m == (v + j) % m <==> i % m == j % m
  {
    if i % m == j % m {
      ShiftedModForward(v, i, j, m);
    }
    if (v + i) % m == (v + j) % m {
      // Adding m - v % m more brings both sums back to i and j, up to multiples of m.
      var k := m - v % m;
      ShiftedModForward(k, v + i, v + j, m);
      AddMultiple(i, v / m + 1, m);
      AddMultiple(j, v / m + 1, m);
      assert v == v / m * m + v % m;
      assert k + (v + i) == i + (v / m + 1) * m;
      assert k + (v + j) == j + (v / m + 1) * m;
    }
  }

  lemma {:induction false} ShiftedModForward(v: nat, i: nat, j: nat, m: nat)
    requires m >= 1 && i % m == j % m
    ensures (v + i) % m == (v + j) % m
  {
    Split(v, i, m);
    Split(v, j, m);
  }

  lemma {:induction false} Split(v: nat, i: nat, m: nat)
    requires m >= 1
    ensures (v + i) % m == (v + i % m) % m
  {
    AddMultiple(v + i % m, i / m, m);
    assert i == i / m * m + i % m;
  }

  lemma {:induction false} AddMultiple(r: nat, q: nat, m: nat)
    requires m >= 1
    ensures (r + q * m) % m == r % m && (r + q * m) / m == r / m + q
  {
    assert r == r / m * m + r % m;
    assert (r / m + q) * m == r / m * m + q * m;
    ModUnique(r + q * m, m, r / m + q, r % m);
  }

  /** Go's built-in copy(dst[dlo:], src[slo:shi]) between different buffers. */
  method Copy(dst: array<byte>, dlo: nat, src: array<byte>, slo: nat, shi: nat) returns (n: nat)
    requires dst != src && dlo <= dst.Length && slo <= shi <= src.Length
    modifies dst
    ensures n == if dst.Length - dlo < shi - slo then dst.Length - dlo else shi - slo
    ensures dst[..dlo] == old(dst[..dlo])
    ensures dst[dlo..dlo + n] == src[slo..slo + n]
    ensures dst[dlo + n..] == old(dst[dlo + n..])
  {
    n := if dst.Length - dlo < shi - slo then dst.Length - dlo else shi - slo;
    forall i | 0 <= i < n {
      dst[dlo + i] := src[slo + i];
    }
    ghost var copied, wanted := dst[dlo..dlo + n], src[slo..slo + n];
    assert forall i :: 0 <= i < n ==> copied[i] == wanted[i];
  }
}
