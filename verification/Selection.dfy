// Seed-driven vector selection: an in-place partial Fisher-Yates shuffle whose
// offsets are drawn from keccak256(seed || counter).
module Selection {
  import opened Base
  import opened Bytes

  type Hash = seq<Byte> -> Bytes32

  function Identity(n: nat): (s: seq<nat>)
    ensures |s| == n && forall i | 0 <= i < n :: s[i] == i
  {
    seq(n, i => i)
  }

  function Swap<T>(a: seq<T>, i: nat, j: nat): (b: seq<T>)
    requires i < |a| && j < |a|
    ensures |b| == |a|
  {
    a[i := a[j]][j := a[i]]
  }

  // Offset d[t] sends position i+t to position i+t+d[t].
  predicate ValidOffsets(n: nat, i: nat, d: seq<nat>) {
    i + |d| <= n && forall t | 0 <= t < |d| :: d[t] < n - i - t
  }

  // The array after the swap loop has consumed the offsets from position i on.
  function Shuffle<T>(a: seq<T>, i: nat, d: seq<nat>): (b: seq<T>)
    requires ValidOffsets(|a|, i, d)
    ensures |b| == |a|
    decreases |d|
  {
    if |d| == 0 then a else Shuffle(Swap(a, i, i + d[0]), i + 1, d[1..])
  }

  // --- the loop only permutes ---

  lemma SwapKeeps<T>(a: seq<T>, i: nat, j: nat)
    requires i < |a| && j < |a|
    ensures multiset(Swap(a, i, j)) == multiset(a)
    ensures Distinct(a) ==> Distinct(Swap(a, i, j))
  {
  }

  lemma {:induction false} ShuffleKeeps<T>(a: seq<T>, i: nat, d: seq<nat>)
    requires ValidOffsets(|a|, i, d)
    ensures multiset(Shuffle(a, i, d)) == multiset(a)
    ensures Distinct(a) ==> Distinct(Shuffle(a, i, d))
    decreases |d|
  {
    if |d| > 0 {
      SwapKeeps(a, i, i + d[0]);
      ShuffleKeeps(Swap(a, i, i + d[0]), i + 1, d[1..]);
    }
  }

  // Positions the loop has passed are final.
  lemma {:induction false} ShufflePast<T>(a: seq<T>, i: nat, d: seq<nat>, t: nat)
    requires ValidOffsets(|a|, i, d) && t < i
    ensures Shuffle(a, i, d)[t] == a[t]
    decreases |d|
  {
    if |d| > 0 {
      ShufflePast(Swap(a, i, i + d[0]), i + 1, d[1..], t);
    }
  }

  // Running on after |d| offsets never disturbs what they selected.
  lemma {:induction false} ShuffleConcat<T>(a: seq<T>, i: nat, d: seq<nat>, e: seq<nat>)
    requires ValidOffsets(|a|, i, d + e)
    ensures ValidOffsets(|a|, i, d) && ValidOffsets(|a|, i + |d|, e)
    ensures Shuffle(a, i, d + e) == Shuffle(Shuffle(a, i, d), i + |d|, e)
    decreases |d|
  {
    assert forall t | 0 <= t < |d| :: d[t] == (d + e)[t];
    assert forall t | 0 <= t < |e| :: e[t] == (d + e)[|d| + t];
    if |d| == 0 {
      assert d + e == e;
    } else {
      assert (d + e)[1..] == d[1..] + e;
      ShuffleConcat(Swap(a, i, i + d[0]), i + 1, d[1..], e);
    }
  }

  // --- offsets and selections correspond one to one ---

  // The first |d| positions the loop leaves behind: what it selects.
  function Selected(n: nat, d: seq<nat>): (s: seq<nat>)
    requires ValidOffsets(n, 0, d)
    ensures |s| == |d|
  {
    Shuffle(Identity(n), 0, d)[..|d|]
  }

  lemma ShuffleHead<T>(a: seq<T>, i: nat, d: seq<nat>)
    requires ValidOffsets(|a|, i, d) && |d| > 0
    ensures Shuffle(a, i, d)[i] == a[i + d[0]]
  {
    ShufflePast(Swap(a, i, i + d[0]), i + 1, d[1..], i);
  }

  lemma {:induction false} ShuffleInjective<T>(a: seq<T>, i: nat, d: seq<nat>, e: seq<nat>)
    requires ValidOffsets(|a|, i, d) && ValidOffsets(|a|, i, e) && |d| == |e| && Distinct(a)
    requires forall t | i <= t < i + |d| :: Shuffle(a, i, d)[t] == Shuffle(a, i, e)[t]
    ensures d == e
    decreases |d|
  {
    if |d| > 0 {
      ShuffleHead(a, i, d);
      ShuffleHead(a, i, e);
      assert a[i + d[0]] == a[i + e[0]];
      assert d[0] == e[0];
      SwapKeeps(a, i, i + d[0]);
      ShuffleInjective(Swap(a, i, i + d[0]), i + 1, d[1..], e[1..]);
      assert d == [d[0]] + d[1..] && e == [e[0]] + e[1..];
    }
  }

  // The position of x in a, searching from i.
  function IndexFrom<T(==)>(a: seq<T>, i: nat, x: T): (j: nat)
    requires i <= |a| && x in a[i..]
    ensures i <= j < |a| && a[j] == x
    decreases |a| - i
  {
    if a[i] == x then i else
      assert a[i..] == [a[i]] + a[i + 1..];
      IndexFrom(a, i + 1, x)
  }

  // The inverse of the loop: the offsets that make it select s.
  function OffsetsFor<T(==)>(a: seq<T>, i: nat, s: seq<T>): (d: seq<nat>)
    requires i + |s| <= |a| && Distinct(a) && Distinct(s)
    requires forall x | x in s :: x in a[i..]
    ensures |d| == |s| && ValidOffsets(|a|, i, d)
    decreases |s|
  {
    if |s| == 0 then [] else
      var j := IndexFrom(a, i, s[0]);
      var b := Swap(a, i, j);
      SwapKeeps(a, i, j);
      RestStaysSelectable(a, i, j, s);
      var d := OffsetsFor(b, i + 1, s[1..]);
      [j - i] + d
  }

  lemma RestStaysSelectable<T>(a: seq<T>, i: nat, j: nat, s: seq<T>)
    requires |s| > 0 && i + |s| <= |a| && i <= j < |a| && a[j] == s[0]
    requires Distinct(a) && Distinct(s)
    requires forall x | x in s :: x in a[i..]
    ensures forall x | x in s[1..] :: x in Swap(a, i, j)[i + 1..]
  {
    var b := Swap(a, i, j);
    forall x | x in s[1..] ensures x in b[i + 1..] {
      assert x in s && x in a[i..];
      var k :| 0 <= k < |a[i..]| && a[i..][k] == x;
      var t :| 0 <= t < |s[1..]| && s[1..][t] == x;
      assert s[0] != s[t + 1] == x;
      assert i + k != j;
      if k == 0 {
        assert b[j] == x && b[i + 1..][j - (i + 1)] == x;
      } else {
        assert b[i + k] == x && b[i + 1..][k - 1] == x;
      }
    }
  }

  lemma {:induction false} ShuffleOnto<T>(a: seq<T>, i: nat, s: seq<T>, t: nat)
    requires i + |s| <= |a| && Distinct(a) && Distinct(s) && t < |s|
    requires forall x | x in s :: x in a[i..]
    ensures Shuffle(a, i, OffsetsFor(a, i, s))[i + t] == s[t]
    decreases |s|
  {
    var j := IndexFrom(a, i, s[0]);
    var b := Swap(a, i, j);
    SwapKeeps(a, i, j);
    RestStaysSelectable(a, i, j, s);
    var d := OffsetsFor(a, i, s);
    assert d[0] == j - i && d[1..] == OffsetsFor(b, i + 1, s[1..]);
    if t == 0 {
      ShuffleHead(a, i, d);
    } else {
      ShuffleOnto(b, i + 1, s[1..], t - 1);
    }
  }

  // A duplicate-free choice of k indices below n.
  predicate IsSelection(n: nat, s: seq<nat>) {
    |s| <= n && Distinct(s) && forall x | x in s :: x < n
  }

  lemma SelectedIsSelection(n: nat, d: seq<nat>)
    requires ValidOffsets(n, 0, d)
    ensures IsSelection(n, Selected(n, d))
  {
    var r := Shuffle(Identity(n), 0, d);
    ShuffleKeeps(Identity(n), 0, d);
    forall x | x in Selected(n, d) ensures x < n {
      assert x in r;
      assert x in multiset(r);
      assert x in multiset(Identity(n));
      assert x in Identity(n);
    }
  }

  // The offsets that make the loop select s.
  function OffsetsOf(n: nat, s: seq<nat>): (d: seq<nat>)
    requires IsSelection(n, s)
    ensures |d| == |s| && ValidOffsets(n, 0, d)
  {
    assert forall x | x in s :: x in Identity(n)[0..] by {
      forall x | x in s ensures x in Identity(n)[0..] {
        assert Identity(n)[0..][x] == x;
      }
    }
    OffsetsFor(Identity(n), 0, s)
  }

  // Fisher-Yates is a bijection from offset sequences to selections: every
  // selection comes from exactly one sequence of offsets.
  lemma SelectionBijection(n: nat, s: seq<nat>)
    requires IsSelection(n, s)
    ensures Selected(n, OffsetsOf(n, s)) == s
    ensures forall e | ValidOffsets(n, 0, e) && |e| == |s| && Selected(n, e) == s :: e == OffsetsOf(n, s)
  {
    var d := OffsetsOf(n, s);
    assert forall x | x in s :: x in Identity(n)[0..] by {
      forall x | x in s ensures x in Identity(n)[0..] {
        assert Identity(n)[0..][x] == x;
      }
    }
    forall t | 0 <= t < |s| ensures Selected(n, d)[t] == s[t] {
      ShuffleOnto(Identity(n), 0, s, t);
    }
    forall e | ValidOffsets(n, 0, e) && |e| == |s| && Selected(n, e) == s ensures e == d {
      forall t | 0 <= t < |e| ensures Shuffle(Identity(n), 0, e)[t] == Shuffle(Identity(n), 0, d)[t] {
        assert Selected(n, e)[t] == Selected(n, d)[t];
      }
      ShuffleInjective(Identity(n), 0, e, d);
    }
  }

  // --- the draws ---

  function DrawPreimage(seed: Bytes32, counter: nat): seq<Byte> {
    ToBytes(seed, 32) + ToBytes(counter, 8)
  }

  function Draw(keccak: Hash, seed: Bytes32, counter: nat): Bytes32 {
    keccak(DrawPreimage(seed, counter))
  }

  function Offsets(keccak: Hash, seed: Bytes32, n: nat, k: nat): (d: seq<nat>)
    requires k <= n
    ensures |d| == k && ValidOffsets(n, 0, d)
  {
    seq(k, t requires 0 <= t < k => Draw(keccak, seed, t) % (n - t))
  }

  function Select(keccak: Hash, seed: Bytes32, n: nat, k: nat): (s: seq<nat>)
    ensures |s| == Min(n, k)
  {
    Selected(n, Offsets(keccak, seed, n, Min(n, k)))
  }

  lemma SelectIsSelection(keccak: Hash, seed: Bytes32, n: nat, k: nat)
    ensures IsSelection(n, Select(keccak, seed, n, k))
  {
    SelectedIsSelection(n, Offsets(keccak, seed, n, Min(n, k)));
  }

  // What the seed selects, told from the selection alone: the offset that leads to its
  // i-th element is the hash of seed and counter, modulo what is left.
  ghost predicate IsDrawn(keccak: Hash, seed: Bytes32, n: nat, k: nat, s: seq<nat>) {
    && |s| == Min(n, k) && IsSelection(n, s)
    && forall i | 0 <= i < |s| :: OffsetsOf(n, s)[i] == keccak(ToBytes(seed, 32) + ToBytes(i, 8)) % (n - i)
  }

  lemma OffsetAt(keccak: Hash, seed: Bytes32, n: nat, k: nat, i: nat)
    requires i < k <= n
    ensures Offsets(keccak, seed, n, k)[i] == keccak(ToBytes(seed, 32) + ToBytes(i, 8)) % (n - i)
  {
  }

  // Only the offsets that select s are its offsets.
  lemma OffsetsOfSelected(n: nat, d: seq<nat>)
    requires ValidOffsets(n, 0, d)
    ensures IsSelection(n, Selected(n, d)) && OffsetsOf(n, Selected(n, d)) == d
  {
    SelectedIsSelection(n, d);
    SelectionBijection(n, Selected(n, d));
  }

  lemma SelectDraws(keccak: Hash, seed: Bytes32, n: nat, k: nat)
    ensures IsDrawn(keccak, seed, n, k, Select(keccak, seed, n, k))
  {
    var d := Offsets(keccak, seed, n, Min(n, k));
    OffsetsOfSelected(n, d);
    forall i | 0 <= i < |d| ensures d[i] == keccak(ToBytes(seed, 32) + ToBytes(i, 8)) % (n - i) {
      OffsetAt(keccak, seed, n, Min(n, k), i);
    }
  }

  lemma DrawnIsSelect(keccak: Hash, seed: Bytes32, n: nat, k: nat, s: seq<nat>)
    requires IsDrawn(keccak, seed, n, k, s)
    ensures s == Select(keccak, seed, n, k)
  {
    var d, e := Offsets(keccak, seed, n, Min(n, k)), OffsetsOf(n, s);
    SelectionBijection(n, s);
    forall i | 0 <= i < |d| ensures e[i] == d[i] {
      OffsetAt(keccak, seed, n, Min(n, k), i);
    }
    assert e == d;
  }

  // The seed's selection is the one selection so drawn.
  lemma SelectIsDrawn(keccak: Hash, seed: Bytes32, n: nat, k: nat, s: seq<nat>)
    ensures IsDrawn(keccak, seed, n, k, s) <==> s == Select(keccak, seed, n, k)
  {
    SelectDraws(keccak, seed, n, k);
    if IsDrawn(keccak, seed, n, k, s) {
      DrawnIsSelect(keccak, seed, n, k, s);
    }
  }

  // The number that eight counter bytes spell, as the draw has them.
  function CounterIn(preimage: seq<Byte>): nat {
    if |preimage| == 40 then FromBytes(preimage[32..]) else 0
  }

  // A hash under which the draws are these.
  function HashDrawing(d: seq<nat>): Hash {
    (x: seq<Byte>) => if CounterIn(x) < |d| && d[CounterIn(x)] < TWO256 then d[CounterIn(x)] else 0
  }

  // No selection is out of the seed's reach: each is drawn under some hash.
  lemma EverySelectionIsDrawn(seed: Bytes32, n: nat, s: seq<nat>)
    requires n < TWO64 && IsSelection(n, s)
    ensures exists keccak :: IsDrawn(keccak, seed, n, |s|, s)
  {
    var d := OffsetsOf(n, s);
    var keccak := HashDrawing(d);
    forall i | 0 <= i < |s| ensures d[i] == keccak(ToBytes(seed, 32) + ToBytes(i, 8)) % (n - i) {
      DrawsIt(seed, n, d, i);
    }
    assert IsDrawn(keccak, seed, n, |s|, s);
  }

  lemma DrawsIt(seed: Bytes32, n: nat, d: seq<nat>, i: nat)
    requires n < TWO64 && ValidOffsets(n, 0, d) && i < |d|
    ensures HashDrawing(d)(ToBytes(seed, 32) + ToBytes(i, 8)) % (n - i) == d[i]
  {
    var x := ToBytes(seed, 32) + ToBytes(i, 8);
    assert CounterIn(x) == i by {
      assert x[32..] == ToBytes(i, 8);
      Pow256Of8();
      FromToBytes(i, 8);
    }
    SmallMod(d[i], n - i);
  }

  lemma SmallMod(x: nat, m: nat)
    requires x < m
    ensures x % m == x
  {
  }

  // Asking for more vectors only appends to the selection.
  lemma SelectPrefixStable(keccak: Hash, seed: Bytes32, n: nat, k: nat, k': nat)
    requires k <= k'
    ensures Select(keccak, seed, n, k) <= Select(keccak, seed, n, k')
  {
    var m, m' := Min(n, k), Min(n, k');
    var d, d' := Offsets(keccak, seed, n, m), Offsets(keccak, seed, n, m');
    var e := d'[m..];
    assert d' == d + e;
    ShuffleConcat(Identity(n), 0, d, e);
    forall t | 0 <= t < m ensures Select(keccak, seed, n, k')[t] == Select(keccak, seed, n, k)[t] {
      ShufflePast(Shuffle(Identity(n), 0, d), m, e, t);
    }
  }

  // Draws of one selection hash pairwise distinct preimages.
  lemma DrawPreimagesDistinct(seed: Bytes32, a: nat, b: nat)
    requires a < TWO64 && b < TWO64 && DrawPreimage(seed, a) == DrawPreimage(seed, b)
    ensures a == b
  {
    assert DrawPreimage(seed, a)[32..] == ToBytes(a, 8);
    assert DrawPreimage(seed, b)[32..] == ToBytes(b, 8);
    Pow256Of8();
    ToBytesInjective(a, b, 8);
  }

  // How many draws below N land on offset r modulo m.
  function CountResidue(N: nat, m: nat, r: nat): nat
    requires m > 0
  {
    if N == 0 then 0 else CountResidue(N - 1, m, r) + (if (N - 1) % m == r then 1 else 0)
  }

  lemma {:induction false} CountResidueExact(N: nat, m: nat, r: nat)
    requires r < m
    ensures CountResidue(N, m, r) == N / m + (if r < N % m then 1 else 0)
  {
    if N > 0 {
      CountResidueExact(N - 1, m, r);
      NextQuotient(N - 1, m);
    } else {
      QuotientUnique(0, m, 0, 0);
    }
  }

  lemma NextQuotient(x: nat, m: nat)
    requires m > 0
    ensures if x % m + 1 < m then (x + 1) / m == x / m && (x + 1) % m == x % m + 1
            else (x + 1) / m == x / m + 1 && (x + 1) % m == 0
  {
    var q, s := x / m, x % m;
    assert x == m * q + s;
    if s + 1 < m {
      QuotientUnique(x + 1, m, q, s + 1);
    } else {
      Distribute(m, q, -1);
      QuotientUnique(x + 1, m, q + 1, 0);
    }
  }

  // Bias bound: of the 2^256 draws, any two offsets get counts at most one apart.
  lemma DrawBias(m: nat, r: nat, r': nat)
    requires r < m && r' < m
    ensures -1 <= CountResidue(TWO256, m, r) - CountResidue(TWO256, m, r') <= 1
  {
    CountResidueExact(TWO256, m, r);
    CountResidueExact(TWO256, m, r');
  }

  // --- the imperative code ---

  // The k-th base-256 digit, counted from the least significant.
  function Digit(n: nat, k: nat): Byte {
    (n / Pow256(k)) % 256
  }

  method EncodeCounter(i: Uint64) returns (b: array<Byte>)
    ensures fresh(b) && b[..] == ToBytes(i, 8)
  {
    b := new Byte[8](_ => 0);
    for k := 0 to 8
      invariant forall t | 8 - k <= t < 8 :: b[t] == ToBytes(i, 8)[t]
    {
      b[7 - k] := Digit(i, k);
      assert b[7 - k] == ToBytes(i, 8)[7 - k] by { ToBytesDigit(i, 8, k); }
    }
  }

  method SwapInPlace(a: array<nat>, i: nat, j: nat)
    requires i < a.Length && j < a.Length
    modifies a
    ensures a[..] == Swap(old(a[..]), i, j)
  {
    a[i], a[j] := a[j], a[i];
  }

  // The position drawn for i, out of those from i on.
  method DrawPosition(keccak: Hash, seed: Bytes32, i: Uint64, n: nat, ghost d: seq<nat>) returns (j: nat)
    requires i < |d| <= n && d == Offsets(keccak, seed, n, |d|)
    ensures j == i + d[i]
  {
    var remaining := n - i;
    var counter := EncodeCounter(i);
    var draw := keccak(ToBytes(seed, 32) + counter[..]);
    j := i + draw % remaining;
  }

  method SelectVectors(keccak: Hash, seed: Bytes32, vectorCount: nat, selectionCount: nat)
    returns (selected: seq<nat>)
    requires vectorCount < TWO64  // a Go slice length
    ensures selected == Select(keccak, seed, vectorCount, selectionCount)
    ensures |selected| == Min(vectorCount, selectionCount) && IsSelection(vectorCount, selected)
    ensures forall i | 0 <= i < |selected| ::
              OffsetsOf(vectorCount, selected)[i] == keccak(ToBytes(seed, 32) + ToBytes(i, 8)) % (vectorCount - i)
  {
    var indices := new nat[vectorCount];
    for i := 0 to vectorCount
      invariant forall t | 0 <= t < i :: indices[t] == t
    {
      indices[i] := i;
    }
    assert indices[..] == Identity(vectorCount);
    var limit := vectorCount;
    if selectionCount < limit {
      limit := selectionCount;
    }
    ghost var d := Offsets(keccak, seed, vectorCount, limit);
    for i := 0 to limit
      invariant indices[..] == After(vectorCount, d, i)
    {
      var j := DrawPosition(keccak, seed, i, vectorCount, d);
      AfterStep(vectorCount, d, i);
      SwapInPlace(indices, i, j);
    }
    AfterAll(vectorCount, d);
    SelectIsDrawn(keccak, seed, vectorCount, selectionCount, indices[..limit]);
    return indices[..limit];
  }

  // The array once the first i offsets of d have been used.
  ghost function After(n: nat, d: seq<nat>, i: nat): (a: seq<nat>)
    requires ValidOffsets(n, 0, d) && i <= |d|
    ensures |a| == n
  {
    Shuffle(Identity(n), 0, d[..i])
  }

  lemma AfterAll(n: nat, d: seq<nat>)
    requires ValidOffsets(n, 0, d)
    ensures After(n, d, |d|)[..|d|] == Selected(n, d)
  {
    assert d[..|d|] == d;
  }

  // What the offsets select, position by position: it starts as the identity, step i
  // exchanges positions i and i + d[i], and the first |d| positions are selected.
  lemma SelectedBySwaps(n: nat, d: seq<nat>)
    requires ValidOffsets(n, 0, d)
    ensures forall k | 0 <= k < n :: After(n, d, 0)[k] == k
    ensures forall i | 0 <= i < |d| ::
              && After(n, d, i + 1)[i] == After(n, d, i)[i + d[i]]
              && After(n, d, i + 1)[i + d[i]] == After(n, d, i)[i]
              && forall k | 0 <= k < n && k != i && k != i + d[i] :: After(n, d, i + 1)[k] == After(n, d, i)[k]
    ensures Selected(n, d) == After(n, d, |d|)[..|d|]
  {
    forall i | 0 <= i < |d| ensures After(n, d, i + 1) == Swap(After(n, d, i), i, i + d[i]) {
      AfterStep(n, d, i);
    }
    AfterAll(n, d);
  }

  lemma AfterStep(n: nat, d: seq<nat>, i: nat)
    requires ValidOffsets(n, 0, d) && i < |d|
    ensures After(n, d, i + 1) == Swap(After(n, d, i), i, i + d[i])
  {
    assert d[..i + 1] == d[..i] + [d[i]];
    ShuffleConcat(Identity(n), 0, d[..i], [d[i]]);
    assert Shuffle(After(n, d, i), i, [d[i]]) == Swap(After(n, d, i), i, i + d[i]);
  }
}
