// Shared vocabulary: failure-carrying results, the fixed-width integers of the
// EVM, and big-endian byte strings.
module Base {
  datatype Option<+T> = None | Some(value: T)
  datatype Result<+T, +E> = Ok(value: T) | Err(error: E)

  const TWO32: int := 0x1_0000_0000
  const TWO64: int := 0x1_0000_0000_0000_0000
  const TWO128: int := 0x1_0000_0000_0000_0000_0000_0000_0000_0000
  const TWO160: int := 0x1_0000_0000_0000_0000_0000_0000_0000_0000_0000_0000
  const TWO256: int :=
    0x1_0000_0000_0000_0000_0000_0000_0000_0000_0000_0000_0000_0000_0000_0000_0000_0000

  type Byte = n: int | 0 <= n < 0x100
  type Uint16 = n: int | 0 <= n < 0x1_0000
  type Uint32 = n: int | 0 <= n < TWO32
  type Uint64 = n: int | 0 <= n < TWO64
  type Uint128 = n: int | 0 <= n < TWO128
  type Uint256 = n: int | 0 <= n < TWO256
  type Address = n: int | 0 <= n < TWO160

  // A bytes32 is the 256-bit number its bytes spell.
  type Bytes32 = Uint256

  const ZERO_ADDRESS: Address := 0

  function Min(a: int, b: int): int { if a <= b then a else b }

  lemma ConcatAssoc<T>(a: seq<T>, b: seq<T>, d: seq<T>)
    ensures a + (b + d) == (a + b) + d
  {
  }

  // f(0) + ... + f(n - 1)
  function SumTo(f: nat -> nat, n: nat): nat
    decreases n
  {
    if n == 0 then 0 else SumTo(f, n - 1) + f(n - 1)
  }

  lemma {:induction false} SumSame(f: nat -> nat, g: nat -> nat, n: nat)
    requires forall k: nat | k < n :: f(k) == g(k)
    ensures SumTo(f, n) == SumTo(g, n)
    decreases n
  {
    if n > 0 {
      SumSame(f, g, n - 1);
    }
  }

  lemma {:induction false} SumChange(f: nat -> nat, g: nat -> nat, n: nat, id: nat)
    requires id < n && forall k: nat | k < n && k != id :: f(k) == g(k)
    ensures SumTo(g, n) + f(id) == SumTo(f, n) + g(id)
    decreases n
  {
    if id == n - 1 {
      SumSame(f, g, id);
    } else {
      SumChange(f, g, n - 1, id);
    }
  }

  lemma {:induction false} SumAtLeast(f: nat -> nat, n: nat, id: nat)
    requires id < n
    ensures SumTo(f, n) >= f(id)
    decreases n
  {
    if id < n - 1 {
      SumAtLeast(f, n - 1, id);
    }
  }

  lemma {:induction false} SumPlus(f: nat -> nat, g: nat -> nat, h: nat -> nat, n: nat)
    requires forall k: nat | k < n :: h(k) == f(k) + g(k)
    ensures SumTo(h, n) == SumTo(f, n) + SumTo(g, n)
    decreases n
  {
    if n > 0 {
      SumPlus(f, g, h, n - 1);
    }
  }

  predicate Distinct<T(==)>(s: seq<T>) {
    forall i, j :: 0 <= i < j < |s| ==> s[i] != s[j]
  }
}

// Big-endian base-256 numerals of a fixed width.
module Bytes {
  import opened Base

  function Pow256(w: nat): (p: nat)
    ensures p > 0
  {
    if w == 0 then 1 else 256 * Pow256(w - 1)
  }

  function ToBytes(n: nat, w: nat): (b: seq<Byte>)
    ensures |b| == w
  {
    if w == 0 then [] else ToBytes(n / 256, w - 1) + [n % 256]
  }

  function FromBytes(b: seq<Byte>): nat {
    if |b| == 0 then 0 else FromBytes(b[..|b| - 1]) * 256 + b[|b| - 1]
  }

  lemma {:induction false} FromToBytes(n: nat, w: nat)
    requires n < Pow256(w)
    ensures FromBytes(ToBytes(n, w)) == n
  {
    if w > 0 {
      FromToBytes(n / 256, w - 1);
      assert ToBytes(n, w)[..w - 1] == ToBytes(n / 256, w - 1);
    }
  }

  lemma {:induction false} ToFromBytes(b: seq<Byte>)
    ensures FromBytes(b) < Pow256(|b|)
    ensures ToBytes(FromBytes(b), |b|) == b
  {
    if |b| > 0 {
      var front, last := b[..|b| - 1], b[|b| - 1];
      ToFromBytes(front);
      assert FromBytes(b) / 256 == FromBytes(front) && FromBytes(b) % 256 == last;
      assert b == front + [last];
    }
  }

  // Distinct numbers of the same width have distinct byte strings.
  lemma ToBytesInjective(m: nat, n: nat, w: nat)
    requires m < Pow256(w) && n < Pow256(w)
    requires ToBytes(m, w) == ToBytes(n, w)
    ensures m == n
  {
    FromToBytes(m, w);
    FromToBytes(n, w);
  }

  lemma Pow256Of8()
    ensures Pow256(8) == TWO64
  {
  }

  lemma Pow256Of32()
    ensures Pow256(32) == TWO256
  {
    assert Pow256(8) == TWO64;
    assert Pow256(16) == TWO128;
    assert Pow256(24) == TWO64 * TWO128;
  }

  lemma {:induction false} ToBytesDigit(n: nat, w: nat, k: nat)
    requires k < w
    ensures ToBytes(n, w)[w - 1 - k] == (n / Pow256(k)) % 256
  {
    if k > 0 {
      ToBytesDigit(n / 256, w - 1, k - 1);
      DivDiv(n, Pow256(k - 1));
    }
  }

  lemma DivDiv(n: nat, p: nat)
    requires p > 0
    ensures (n / 256) / p == n / (256 * p)
  {
    var q := n / (256 * p);
    var r := n % (256 * p);
    assert n == 256 * (p * q) + r;
    assert n / 256 == p * q + r / 256;
    assert 0 <= r / 256 < p;
    QuotientUnique(n / 256, p, q, r / 256);
  }

  lemma QuotientUnique(x: int, p: int, q: int, r: int)
    requires p > 0 && 0 <= r < p && x == p * q + r
    ensures x / p == q && x % p == r
  {
    var q', r' := x / p, x % p;
    Distribute(p, q, q');
    if q > q' {
      AtLeast(p, q - q');
    } else if q < q' {
      Distribute(p, q', q);
      AtLeast(p, q' - q);
    }
  }

  lemma Distribute(p: int, a: int, b: int)
    ensures p * (a - b) == p * a - p * b
  {
  }

  lemma AtLeast(p: int, k: int)
    requires p > 0 && k > 0
    ensures p * k >= p
  {
  }
}
