// Integer bit operations as the ring buffer uses them, and nextPow2 (internal/buffer/ring.go).
module Bits {

  /** Signed 64-bit integers: Go's int on the platforms the program targets. */
  const INT64_LIMIT := 0x8000_0000_0000_0000

  predicate IsInt64(x: int) {
    -INT64_LIMIT <= x < INT64_LIMIT
  }

  /** The value that two's complement keeps of x in 64 bits. */
  function Wrap64(x: int): int {
    (x + INT64_LIMIT) % (2 * INT64_LIMIT) - INT64_LIMIT
  }

  type byte = b: int | 0 <= b < 256

  function Pow2(k: nat): (p: nat)
    ensures p >= 1
  {
    if k == 0 then 1 else 2 * Pow2(k - 1)
  }

  /** x & m for any x and a non-negative m; halving rounds down, as an arithmetic shift does. */
  function And(x: int, m: nat): nat
    decreases m
  {
    if m == 0 then 0 else 2 * And(x / 2, m / 2) + (x % 2) * (m % 2)
  }

  /** x | y for non-negative operands. */
  function Or(x: nat, y: nat): nat
    decreases x + y
  {
    if x == 0 && y == 0 then 0
    else 2 * Or(x / 2, y / 2) + (if x % 2 + y % 2 > 0 then 1 else 0)
  }

  /** Bit i of m. */
  predicate Bit(m: nat, i: nat) {
    if i == 0 then m % 2 == 1 else Bit(m / 2, i - 1)
  }

  /** Some bit among i, ..., i + len - 1 of m is set. */
  ghost predicate Window(m: nat, i: nat, len: nat) {
    exists k :: i <= k < i + len && Bit(m, k)
  }

  lemma {:induction false} Pow2Add(a: nat, b: nat)
    ensures Pow2(a + b) == Pow2(a) * Pow2(b)
  {
    if a != 0 {
      Pow2Add(a - 1, b);
      assert Pow2(a + b) == 2 * Pow2(a - 1 + b);
      assert 2 * (Pow2(a - 1) * Pow2(b)) == (2 * Pow2(a - 1)) * Pow2(b);
    }
  }

  lemma {:induction false} Pow2Mono(a: nat, b: nat)
    requires a <= b
    ensures Pow2(a) <= Pow2(b)
  {
    if a < b { Pow2Mono(a, b - 1); }
  }

  /** The low k bits of any x, negative ones included, are its Euclidean remainder modulo 2^k. */
  lemma {:induction false} AndMask(x: int, k: nat)
    ensures And(x, Pow2(k) - 1) == x % Pow2(k)
    decreases k
  {
    if k == 0 {
      assert x % 1 == 0;
    } else {
      AndMask(x / 2, k - 1);
      AndStep(x, Pow2(k - 1), Pow2(k));
    }
  }

  lemma AndStep(x: int, p: nat, m: nat)
    requires p >= 1 && m == 2 * p && And(x / 2, p - 1) == (x / 2) % p
    ensures And(x, m - 1) == x % m
  {
    ModDouble(x, p);
    assert (m - 1) / 2 == p - 1 && (m - 1) % 2 == 1;
  }

  lemma ModDouble(x: int, p: nat)
    requires p >= 1
    ensures x % (2 * p) == 2 * ((x / 2) % p) + x % 2
  {
    var h := x / 2;
    var q := h / p;
    var r := h % p;
    assert h == p * q + r;
    assert x == (2 * p) * q + (2 * r + x % 2) by {
      assert x == 2 * h + x % 2;
      assert 2 * (p * q) == (2 * p) * q;
    }
    ModUnique(x, 2 * p, q, 2 * r + x % 2);
  }

  lemma ModUnique(x: int, m: nat, q: int, r: int)
    requires m >= 1 && 0 <= r < m && x == m * q + r
    ensures x % m == r && x / m == q
  {
    var q' := x / m;
    var r' := x % m;
    assert x == m * q' + r';
    assert m * (q - q') == m * q - m * q' == r' - r;
    if q' < q { MulGe(m, q - q'); }
    if q' > q { MulLe(m, q - q'); }
  }

  lemma MulGe(m: nat, d: int)
    requires d >= 1
    ensures m * d >= m
  {}

  lemma MulLe(m: nat, d: int)
    requires d <= -1
    ensures m * d + m <= 0
  {}

  // ---- nextPow2 ----

  lemma {:induction false} BitOr(x: nat, y: nat, i: nat)
    ensures Bit(Or(x, y), i) <==> Bit(x, i) || Bit(y, i)
  {
    if x == 0 && y == 0 {
      BitZero(i);
    } else {
      var o := Or(x, y);
      assert o / 2 == Or(x / 2, y / 2);
      if i != 0 { BitOr(x / 2, y / 2, i - 1); }
    }
  }

  lemma {:induction false} BitZero(i: nat)
    ensures !Bit(0, i)
  {
    if i != 0 { BitZero(i - 1); }
  }

  /** m >> j. */
  function Shr(m: nat, j: nat): nat {
    if j == 0 then m else Shr(m / 2, j - 1)
  }

  lemma {:induction false} BitShift(m: nat, j: nat, i: nat)
    ensures Bit(Shr(m, j), i) <==> Bit(m, i + j)
  {
    if j != 0 { BitShift(m / 2, j - 1, i); }
  }

  lemma {:induction false} ShrIsDiv(m: nat, j: nat)
    ensures Shr(m, j) == m / Pow2(j)
  {
    if j != 0 {
      ShrIsDiv(m / 2, j - 1);
      DivDiv(m, Pow2(j - 1));
    }
  }

  lemma DivDiv(m: nat, p: nat)
    requires p >= 1
    ensures m / (2 * p) == (m / 2) / p
  {
    var h := m / 2;
    assert h == p * (h / p) + h % p;
    assert 2 * (p * (h / p)) == (2 * p) * (h / p);
    ModUnique(m, 2 * p, h / p, 2 * (h % p) + m % 2);
  }

  /** Bits 0 to L - 1 of m are set and no others. */
  ghost predicate Ones(m: nat, L: nat) {
    forall i: nat :: Bit(m, i) <==> i < L
  }

  lemma {:induction false} AllOnes(m: nat, L: nat)
    requires Ones(m, L)
    ensures m == Pow2(L) - 1
  {
    if L == 0 {
      if m != 0 { var i := SomeBit(m); }
    } else {
      forall i: nat ensures Bit(m / 2, i) <==> i < L - 1 {
        assert Bit(m, i + 1) <==> i + 1 < L;
      }
      assert Bit(m, 0);
      AllOnes(m / 2, L - 1);
    }
  }

  lemma {:induction false} OnesBit(L: nat, i: nat)
    requires i < L
    ensures Bit(Pow2(L) - 1, i)
  {
    if i != 0 {
      OnesBit(L - 1, i - 1);
      assert (Pow2(L) - 1) / 2 == Pow2(L - 1) - 1;
    }
  }

  lemma {:induction false} SomeBit(m: nat) returns (i: nat)
    requires m > 0
    ensures Bit(m, i) && Pow2(i) <= m < 2 * Pow2(i)
  {
    if m == 1 {
      i := 0;
    } else {
      i := SomeBit(m / 2);
      i := i + 1;
    }
  }

  lemma {:induction false} BitBound(m: nat, i: nat)
    requires Bit(m, i)
    ensures Pow2(i) <= m
  {
    if i != 0 { BitBound(m / 2, i - 1); }
  }

  ghost predicate IsPow2(n: int) {
    exists k: nat :: n == Pow2(k)
  }

  /** The place i steps after off, going around cap places. */
  function Place(off: nat, i: nat, cap: nat): (p: nat)
    requires off < cap && i <= cap
    ensures p < cap
  {
    if off + i < cap then off + i else off + i - cap
  }

  lemma PlaceIsMod(off: nat, i: nat, cap: nat)
    requires off < cap && i <= cap
    ensures (off + i) % cap == Place(off, i, cap)
  {
    ModUnique(off + i, cap, if off + i < cap then 0 else 1, Place(off, i, cap));
  }

  /** r is a power of two, is at least n, and no smaller power of two is. */
  ghost predicate LeastPow2(r: int, n: int) {
    exists k: nat :: r == Pow2(k) && n <= r && (k > 0 ==> Pow2(k - 1) < n)
  }

  /** Below its leading one, m has no run of 32 zero bits. */
  ghost predicate NoGap32(m: nat) {
    forall i: nat :: Pow2(i) <= m ==> Window(m, i, 32)
  }

  /** x is m with every bit also copied to the w - 1 places below it. */
  ghost predicate Smeared(x: nat, m: nat, w: nat) {
    forall i: nat :: Bit(x, i) <==> Window(m, i, w)
  }

  lemma SmearStep(x: nat, m: nat, w: nat)
    requires Smeared(x, m, w)
    ensures Smeared(Or(x, Shr(x, w)), m, 2 * w)
  {
    var y := Shr(x, w);
    forall i: nat ensures Bit(Or(x, y), i) <==> Window(m, i, 2 * w) {
      BitOr(x, y, i);
      BitShift(x, w, i);
      WindowSplit(m, i, w);
      assert Bit(x, i) <==> Window(m, i, w);
      assert Bit(x, i + w) <==> Window(m, i + w, w);
    }
  }

  lemma WindowSplit(m: nat, i: nat, w: nat)
    ensures Window(m, i, 2 * w) <==> Window(m, i, w) || Window(m, i + w, w)
  {
    if Window(m, i, 2 * w) {
      var k :| i <= k < i + 2 * w && Bit(m, k);
      assert k < i + w || i + w <= k < i + w + w;
    }
  }

  lemma TopBit(m: nat, top: nat, i: nat)
    requires m < 2 * Pow2(top) && Bit(m, i)
    ensures i <= top
  {
    BitBound(m, i);
    if i > top { Pow2Mono(top + 1, i); }
  }

  /** With no gap in m, the smeared word is all ones up to the leading bit. */
  lemma SmearFills(x: nat, m: nat)
    requires m > 0 && NoGap32(m)
    requires Smeared(x, m, 32)
    ensures LeastPow2(x + 1, m + 1)
  {
    var top := SomeBit(m);
    forall i: nat ensures Bit(x, i) <==> i < top + 1 {
      assert Bit(x, i) <==> Window(m, i, 32);
      if i <= top { Pow2Mono(i, top); }
      if Window(m, i, 32) {
        var k :| i <= k < i + 32 && Bit(m, k);
        TopBit(m, top, k);
      }
    }
    AllOnes(x, top + 1);
    assert x + 1 == Pow2(top + 1) && Pow2(top + 1 - 1) < m + 1;
  }

  /** A power of two after the smear means there was no gap. */
  lemma SmearFilled(x: nat, m: nat)
    requires 0 < m <= x && IsPow2(x + 1)
    requires Smeared(x, m, 32)
    ensures NoGap32(m)
  {
    var k: nat :| x + 1 == Pow2(k);
    forall i: nat | Pow2(i) <= m ensures Window(m, i, 32) {
      if i >= k { Pow2Mono(k, i); }
      OnesBit(k, i);
      assert Bit(x, i);
    }
  }

  lemma SmearOnlyFills(x: nat, m: nat)
    requires 0 < m <= x && IsPow2(x + 1)
    requires Smeared(x, m, 32)
    ensures NoGap32(m) && LeastPow2(x + 1, m + 1)
  {
    SmearFilled(x, m);
    SmearFills(x, m);
  }

  lemma SmearBelow(x: nat, m: nat, L: nat)
    requires m < Pow2(L)
    requires Smeared(x, m, 32)
    ensures x < Pow2(L)
  {
    if x > 0 {
      var i := SomeBit(x);
      var k :| i <= k < i + 32 && Bit(m, k);
      BitBound(m, k);
      if i >= L { Pow2Mono(L, i); Pow2Mono(i, k); }
      Pow2Mono(i + 1, L);
    }
  }

  /** Every size up to 2^32 is free of gaps. */
  lemma SmallHasNoGap(m: nat)
    requires m < Pow2(32)
    ensures NoGap32(m)
  {
    hide Pow2, Bit;
    forall i: nat | Pow2(i) <= m ensures Window(m, i, 32) {
      var top := TopWithin(m, i, 32);
    }
  }

  lemma TopWithin(m: nat, i: nat, k: nat) returns (top: nat)
    requires Pow2(i) <= m < Pow2(k)
    ensures i <= top < k && Bit(m, top)
  {
    top := SomeBit(m);
    assert Pow2(top + 1) == 2 * Pow2(top);
    hide Pow2, Bit;
    if top >= k { Pow2Mono(k, top); }
    if i > top { Pow2Mono(top + 1, i); }
  }

  /** The first size the smear misses: 2^32 + 1, which becomes 2^33 - 1. */
  lemma GapExample()
    ensures !NoGap32(Pow2(32))
  {
    if NoGap32(Pow2(32)) {
      assert Pow2(0) <= Pow2(32);
      assert Window(Pow2(32), 0, 32);
      var k :| 0 <= k < 0 + 32 && Bit(Pow2(32), k);
      BitOfPow2(32, k);
    }
  }

  lemma {:induction false} BitOfPow2(k: nat, i: nat)
    ensures Bit(Pow2(k), i) <==> i == k
  {
    if k == 0 {
      if i != 0 { BitZero(i - 1); }
    } else if i != 0 {
      BitOfPow2(k - 1, i - 1);
      assert Pow2(k) / 2 == Pow2(k - 1);
    }
  }

  lemma Pow2Of63()
    ensures Pow2(63) == INT64_LIMIT
  {
    assert Pow2(16) == 0x1_0000;
    Pow2Add(16, 16);
    Pow2Add(32, 16);
    Pow2Add(48, 15);
    assert Pow2(15) == 0x8000;
  }

  /** The last step, n + 1 in 64 bits, is right unless the size was above 2^62 or had a gap. */
  lemma FinalStep(x: nat, n0: int, r: int, limit: nat)
    requires Pow2(limit + 1) == INT64_LIMIT
    requires 2 <= n0 < INT64_LIMIT && r == Wrap64(x + 1)
    requires Smeared(x, n0 - 1, 32)
    ensures LeastPow2(r, n0) <==> NoGap32(n0 - 1) && n0 <= Pow2(limit)
    ensures IsPow2(r) && n0 <= r ==> LeastPow2(r, n0)
  {
    SmearBelow(x, n0 - 1, limit + 1);
    assert r == if x + 1 == INT64_LIMIT then -INT64_LIMIT else x + 1;
    hide Smeared;
    if NoGap32(n0 - 1) && n0 <= Pow2(limit) { GoodFinish(x, n0, limit); }
    hide NoGap32, LeastPow2, IsPow2;
    if LeastPow2(r, n0) { LeastIsPow2(r, n0); }
    if IsPow2(r) && n0 <= r {
      SmearOnlyFills(x, n0 - 1);
      LeastFits(r, n0, limit + 1);
    }
  }

  lemma GoodFinish(x: nat, n0: int, limit: nat)
    requires 2 <= n0 && Smeared(x, n0 - 1, 32) && NoGap32(n0 - 1) && n0 <= Pow2(limit)
    ensures LeastPow2(x + 1, n0) && x + 1 <= Pow2(limit) < Pow2(limit + 1)
  {
    SmearFills(x, n0 - 1);
    LeastBelow(x + 1, n0, limit);
  }

  lemma LeastIsPow2(r: int, n: int)
    requires LeastPow2(r, n)
    ensures IsPow2(r) && n <= r
  {}

  lemma LeastBelow(r: int, n: int, L: nat)
    requires LeastPow2(r, n) && n <= Pow2(L)
    ensures r <= Pow2(L)
  {
    var k: nat :| r == Pow2(k) && (k > 0 ==> Pow2(k - 1) < n);
    if k > L { Pow2Mono(L, k - 1); } else { Pow2Mono(k, L); }
  }

  lemma LeastFits(r: int, n: int, L: nat)
    requires L > 0 && LeastPow2(r, n) && r < Pow2(L)
    ensures n <= Pow2(L - 1)
  {
    var k: nat :| r == Pow2(k) && n <= r;
    if k >= L { Pow2Mono(L, k); } else { Pow2Mono(k, L - 1); }
  }

  /** nextPow2, on the 64-bit integers it is given. */
  method NextPow2(size: int) returns (r: int)
    requires IsInt64(size)
    ensures size <= 1 ==> r == 2
    ensures size >= 2 ==> (LeastPow2(r, size) <==> NoGap32(size - 1) && size <= Pow2(62))
    ensures size >= 2 && IsPow2(r) && size <= r ==> LeastPow2(r, size)
  {
    if size <= 1 {
      return 2;
    }
    var n := size - 1;
    assert Smeared(n, n, 1) by {
      forall i: nat ensures Bit(n, i) <==> Window(n, i, 1) {
        if Bit(n, i) { assert i <= i < i + 1; }
      }
    }
    n := Smear(n, size - 1, 1);
    n := Smear(n, size - 1, 2);
    n := Smear(n, size - 1, 4);
    n := Smear(n, size - 1, 8);
    n := Smear(n, size - 1, 16);
    r := Wrap64(n + 1);
    Pow2Of63();
    FinalStep(n, size, r, 62);
  }

  /** One line of nextPow2: n |= n >> w. */
  method Smear(n: nat, ghost m: nat, w: nat) returns (r: nat)
    requires Smeared(n, m, w)
    ensures Smeared(r, m, 2 * w)
  {
    SmearStep(n, m, w);
    r := Or(n, Shr(n, w));
  }
}
