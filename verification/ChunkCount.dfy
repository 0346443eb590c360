// CalculateChunks (core/files/model.go) computes a ceiling in float64. Every
// float in it is a multiple of 2^-22, so the model keeps the integer numerator:
// a numerator is rounded exactly as the float is, because scaling by a power of
// two changes no significand. Rounding is binary64 round-to-nearest, ties to
// even (section 4.3.1 of IEEE 754-2019): 53 significant bits.
module ChunkCount {
  const CHUNK_SIZE: int := 4 * 1024 * 1024
  const TWO52: int := 0x10_0000_0000_0000
  const TWO53: int := 0x20_0000_0000_0000
  const TWO63: int := 0x8000_0000_0000_0000

  // The unit in the last place: the spacing of binary64 numbers around x.
  function Ulp(x: nat): (u: nat)
    ensures u >= 1
    ensures x < TWO53 * u
    ensures u > 1 ==> TWO52 * u <= x
  {
    if x < TWO53 then 1 else 2 * Ulp(x / 2)
  }

  predicate Representable(x: nat) {
    x % Ulp(x) == 0
  }

  function RoundNat(x: nat): int {
    var u := Ulp(x);
    var significand := x / u;
    var rest := x % u;
    if 2 * rest < u || (2 * rest == u && significand % 2 == 0) then x - rest else x - rest + u
  }

  // int64 to float64 conversion, and the sum of two floats, on numerators.
  function Round(x: int): int {
    if x < 0 then -RoundNat(-x) else RoundNat(x)
  }

  // Go's int(f): the fraction is dropped, towards zero.
  function Truncate(numerator: int): int {
    if numerator < 0 then -(-numerator / CHUNK_SIZE) else numerator / CHUNK_SIZE
  }

  // The branch of CalculateChunks, on the quotient n and on n + 1.0.
  function CountFrom(n: int, plusOne: int): int {
    if Truncate(n) * CHUNK_SIZE < n then Truncate(plusOne) else Truncate(n)
  }

  function CalculateChunks(fileSize: int): int {
    CountFrom(Round(fileSize), Round(Round(fileSize) + CHUNK_SIZE))
  }

  // What the callers expect of it: the least count whose chunks hold the file.
  predicate IsCeiling(count: int, fileSize: int) {
    (count - 1) * CHUNK_SIZE < fileSize <= count * CHUNK_SIZE
  }

  // Numbers in one binade share their spacing.
  lemma {:induction false} SameBinade(x: nat, y: nat)
    requires TWO52 * Ulp(x) <= y < TWO53 * Ulp(x)
    ensures Ulp(y) == Ulp(x)
  {
    if x >= TWO53 {
      SameBinade(x / 2, y / 2);
    }
  }

  lemma MulLe(a: nat, b: nat, u: nat)
    requires a <= b
    ensures a * u <= b * u
  {
  }

  lemma DivUnique(x: nat, d: nat, q: nat, r: nat)
    requires d > 0 && x == q * d + r && r < d
    ensures x / d == q && x % d == r
  {
    var p := x / d;
    assert x == p * d + x % d;
    if p < q {
      MulLe(p + 1, q, d);
    } else if q < p {
      MulLe(q + 1, p, d);
    }
  }

  function Distance(x: int, y: int): nat {
    if x < y then y - x else x - y
  }

  // RoundNat is rounding to nearest: its result has 53 significant bits, no
  // other such number is closer, and a tie goes to the even significand.
  lemma RoundIsNearest(x: nat, y: nat)
    requires Representable(y)
    ensures RoundNat(x) >= 0 && Representable(RoundNat(x))
    ensures Distance(x, RoundNat(x)) <= Distance(x, y)
    ensures 2 * Distance(x, RoundNat(x)) == Ulp(x) ==> (RoundNat(x) / Ulp(x)) % 2 == 0
  {
    var n := Significand(x);
    RepresentableMultiple(x, n);
    DivUnique(n * Ulp(x), Ulp(x), n, 0);
    var lo := x - x % Ulp(x);
    if lo < y < lo + Ulp(x) {
      SignificandBounds(x);
      NoneBetween(x, y);
      assert false;
    }
  }

  // The significand that is kept, and how far off the kept value is.
  lemma Significand(x: nat) returns (n: nat)
    ensures RoundNat(x) == n * Ulp(x)
    ensures n <= TWO53 && (Ulp(x) > 1 ==> TWO52 <= n)
    ensures var r := x % Ulp(x); Distance(x, RoundNat(x)) == if 2 * r <= Ulp(x) then r else Ulp(x) - r
    ensures 2 * Distance(x, RoundNat(x)) == Ulp(x) ==> n % 2 == 0
  {
    SignificandBounds(x);
    n := x / Ulp(x);
    if RoundNat(x) != x - x % Ulp(x) {
      n := n + 1;
    }
  }

  lemma SignificandBounds(x: nat)
    ensures var u := Ulp(x); var m := x / u;
            m < TWO53 && (u > 1 ==> TWO52 <= m) && x == m * u + x % u && m * u + u == (m + 1) * u
  {
    QuotientBounds(x, Ulp(x), TWO52, TWO53);
  }

  lemma QuotientBounds(x: nat, u: nat, low: nat, high: nat)
    requires u > 0 && x < high * u
    ensures var m := x / u;
            m < high && (low * u <= x ==> low <= m) && x == m * u + x % u && m * u + u == (m + 1) * u
  {
    var m := x / u;
    assert x == m * u + x % u;
    assert m * u + u == (m + 1) * u;
    if m >= high {
      MulLe(high, m, u);
    }
    if m + 1 <= low {
      MulLe(m + 1, low, u);
    }
  }

  lemma NoneBetween(x: nat, y: nat)
    requires var lo := x / Ulp(x) * Ulp(x); lo < y < lo + Ulp(x)
    ensures !Representable(y)
  {
    var u := Ulp(x);
    var m := x / u;
    SignificandBounds(x);
    MulLe(TWO52, if u > 1 then m else TWO52, u);
    MulLe(m + 1, TWO53, u);
    SameBinade(x, y);
    DivUnique(y, u, m, y - m * u);
  }

  // Every multiple of the spacing up to the end of the binade is representable.
  lemma RepresentableMultiple(x: nat, m: nat)
    requires m <= TWO53
    requires Ulp(x) > 1 ==> TWO52 <= m
    ensures Representable(m * Ulp(x))
  {
    var u := Ulp(x);
    if m == TWO53 {
      TopOfBinade(x);
    } else {
      UlpOfMultiple(x, m);
      MultipleOfUlp(m * u, m, u);
    }
  }

  lemma UlpOfMultiple(x: nat, m: nat)
    requires m < TWO53
    requires Ulp(x) > 1 ==> TWO52 <= m
    ensures Ulp(m * Ulp(x)) == Ulp(x)
  {
    var u, y := Ulp(x), m * Ulp(x);
    if u == 1 {
      assert y < TWO53;
    } else {
      BinadeBounds(m, u);
      SameBinade(x, y);
    }
  }

  lemma BinadeBounds(m: nat, u: nat)
    requires TWO52 <= m < TWO53 && u >= 1
    ensures TWO52 * u <= m * u < TWO53 * u
  {
    MulLe(TWO52, m, u);
    MulLe(m + 1, TWO53, u);
  }

  lemma MultipleOfUlp(y: nat, m: nat, u: nat)
    requires u == Ulp(y) && y == m * u
    ensures Representable(y)
  {
    DivUnique(y, u, m, 0);
  }

  lemma {:induction false} TopOfBinade(x: nat)
    ensures Ulp(TWO53 * Ulp(x)) == 2 * Ulp(x)
    ensures Representable(TWO53 * Ulp(x))
  {
    var u := Ulp(x);
    if x < TWO53 {
      assert Ulp(TWO53) == 2 * Ulp(TWO53 / 2);
      assert Ulp(TWO53 / 2) == 1;
    } else {
      TopOfBinade(x / 2);
      var y := TWO53 * u;
      assert y / 2 == TWO53 * Ulp(x / 2);
      assert Ulp(y) == 2 * Ulp(y / 2);
    }
    assert TWO53 * u == TWO52 * (2 * u);
    DivUnique(TWO53 * u, 2 * u, TWO52, 0);
  }

  function Pow2(e: nat): nat {
    if e == 0 then 1 else 2 * Pow2(e - 1)
  }

  // A chunk is a whole number w of units in the last place, for every int64.
  lemma {:induction false} UnitsOf(x: nat, e: nat) returns (w: nat)
    requires x < TWO53 * Pow2(e)
    ensures w * Ulp(x) == Pow2(e)
  {
    if x < TWO53 {
      w := Pow2(e);
    } else {
      w := UnitsOf(x / 2, e - 1);
      var v := Ulp(x / 2);
      assert w * (2 * v) == 2 * (w * v);
    }
  }

  lemma UnitsOfChunk(x: nat) returns (w: nat, t: nat)
    requires x <= TWO63
    ensures w * Ulp(x) == CHUNK_SIZE && w >= 4 && w % 4 == 0 && t * w == TWO53
  {
    assert Pow2(11) == 2048;
    var k := UnitsOf(x, 11);
    var u := Ulp(x);
    w := 2048 * k;
    t := 0x8000_0000 * u;
    MulAssoc(2048, k, u);
    MulAssoc(0x8000_0000, u, w);
  }

  lemma MulAssoc(a: nat, b: nat, c: nat)
    ensures (a * b) * c == a * (b * c)
  {
  }

  lemma {:induction false} UlpAbove(x: nat, m: nat)
    requires TWO53 <= m < 2 * TWO53
    ensures Ulp(m * Ulp(x)) == 2 * Ulp(x)
  {
    var u := Ulp(x);
    TopOfBinade(x);
    MulLe(TWO53, m, u);
    MulLe(m + 1, 2 * TWO53, u);
    assert (m + 1) * u == m * u + u;
    SameBinade(TWO53 * u, m * u);
  }

  // Rounding m units: exact inside the binade; beyond it, an odd number of
  // units goes to the multiple of four.
  lemma RoundUnits(x: nat, m: nat)
    requires m < 2 * TWO53
    requires Ulp(x) > 1 ==> TWO52 <= m
    ensures RoundNat(m * Ulp(x)) == RoundedUnits(m) * Ulp(x)
  {
    if m <= TWO53 {
      RepresentableMultiple(x, m);
    } else {
      UlpAbove(x, m);
      RoundAbove(m * Ulp(x), m, Ulp(x));
    }
  }

  lemma RoundByParts(y: nat, h: nat, r: nat)
    requires r < Ulp(y) && y == h * Ulp(y) + r
    ensures RoundNat(y) == if 2 * r < Ulp(y) || (2 * r == Ulp(y) && h % 2 == 0) then y - r else y - r + Ulp(y)
  {
    DivUnique(y, Ulp(y), h, r);
  }

  lemma RoundAbove(y: nat, m: nat, u: nat)
    requires y == m * u && Ulp(y) == 2 * u && TWO53 < m
    ensures RoundNat(y) == RoundedUnits(m) * u
  {
    var h, r := m / 2, m % 2;
    Halves(h, r, u);
    RoundByParts(y, h, r * u);
  }

  lemma Halves(h: nat, r: nat, u: nat)
    ensures (2 * h + r) * u == h * (2 * u) + r * u
    ensures (2 * h + r - 1) * u == (2 * h + r) * u - u && (2 * h + r + 1) * u == (2 * h + r) * u + u
  {
  }

  function RoundedUnits(m: nat): int {
    if m <= TWO53 || m % 2 == 0 then m
    else if (m / 2) % 2 == 0 then m - 1
    else m + 1
  }

  // The two ways to miss: the conversion n of the size lands on a chunk boundary
  // below it, or n is the last float of a binade, where adding 1.0 rounds up.
  predicate Misses(fileSize: int, n: int, ulp: nat) {
    (n % CHUNK_SIZE == 0 && n < fileSize) || n + ulp == TWO53 * ulp
  }

  predicate CountsExactly(fileSize: int) {
    !Misses(fileSize, Round(fileSize), Ulp(if fileSize < 0 then -fileSize else fileSize))
  }

  // n units of u are a whole chunks (of w units) and b units more.
  lemma Split(n: nat, a: nat, b: nat, u: nat, w: nat)
    requires n == a * w + b && b < w && w * u == CHUNK_SIZE && u > 0
    ensures n * u == a * CHUNK_SIZE + b * u && b * u + u <= CHUNK_SIZE
    ensures b > 0 ==> b * u >= u
    ensures (n * u) / CHUNK_SIZE == a && (n * u) % CHUNK_SIZE == b * u
  {
    assert n * u == (a * w) * u + b * u;
    assert (a * w) * u == a * (w * u);
    MulLe(b + 1, w, u);
    assert (b + 1) * u == b * u + u;
    if b > 0 {
      MulLe(1, b, u);
    }
    DivUnique(n * u, CHUNK_SIZE, a, b * u);
  }

  lemma NegativeCount(fileSize: int, q: int, a: nat, part: nat, u: nat, sum: int)
    requires q == a * CHUNK_SIZE + part && part + u <= CHUNK_SIZE && (part > 0 ==> part >= u)
    requires fileSize < 0 && 2 * Distance(-fileSize, q) <= u && u > 0
    ensures IsCeiling(CountFrom(-q, sum), fileSize) <==> !Misses(fileSize, -q, u)
  {
    NegativeParts(q, a, part, sum);
    assert -q + u < TWO53 * u;
  }

  lemma NegativeParts(q: int, a: nat, part: nat, sum: int)
    requires q == a * CHUNK_SIZE + part && part < CHUNK_SIZE
    ensures CountFrom(-q, sum) + a == 0
    ensures (-q) % CHUNK_SIZE == 0 <==> part == 0
  {
    DivUnique(q, CHUNK_SIZE, a, part);
  }

  lemma BoundaryCount(fileSize: nat, q: int, a: nat, u: nat, sum: int)
    requires q == a * CHUNK_SIZE && 2 * u <= CHUNK_SIZE
    requires 2 * Distance(fileSize, q) <= u && u > 0
    ensures IsCeiling(CountFrom(q, sum), fileSize) <==> !(q % CHUNK_SIZE == 0 && q < fileSize)
  {
    DivUnique(q, CHUNK_SIZE, a, 0);
  }

  lemma InnerCount(fileSize: nat, q: int, a: nat, part: nat, u: nat, sum: nat, last: bool)
    requires q == a * CHUNK_SIZE + part && u <= part && part + u <= CHUNK_SIZE
    requires 2 * Distance(fileSize, q) <= u && u > 0
    requires sum / CHUNK_SIZE == if last then a + 2 else a + 1
    ensures q % CHUNK_SIZE != 0
    ensures IsCeiling(CountFrom(q, sum), fileSize) <==> !last
  {
    DivUnique(q, CHUNK_SIZE, a, part);
  }

  lemma UnitCancel(n: nat, m: nat, u: nat)
    requires u > 0
    ensures n * u + u == m * u <==> n + 1 == m
  {
    assert (n + 1) * u == n * u + u;
    if n + 1 < m {
      MulLe(n + 2, m, u);
      assert (n + 2) * u == n * u + 2 * u;
    } else if m < n + 1 {
      MulLe(m, n, u);
    }
  }

  // The next multiple of w, when t * w is one too.
  lemma Gap(a: nat, t: nat, w: nat)
    ensures a * w < t * w ==> a * w + w <= t * w
  {
    if a < t {
      MulLe(a + 1, t, w);
      assert (a + 1) * w == a * w + w;
    } else {
      MulLe(t, a, w);
    }
  }

  lemma LastFloat(n: nat, w: nat)
    requires n + 1 == TWO53 && w >= 4 && w % 4 == 0
    ensures RoundedUnits(n + w) == n + w + 1
  {
  }

  // Where the sum with one chunk lands: in the next chunk, except for the last
  // float of the binade.
  lemma RoundedChunk(n: nat, w: nat, a: nat, b: nat, t: nat)
    requires w >= 4 && w % 4 == 0 && n == a * w + b && 0 < b < w && t * w == TWO53 && n < TWO53
    ensures RoundedUnits(n + w) >= 0
    ensures n + 1 == TWO53 ==> RoundedUnits(n + w) == (a + 2) * w
    ensures n + 1 != TWO53 ==> (a + 1) * w <= RoundedUnits(n + w) < (a + 2) * w
  {
    var next := (a + 1) * w;
    assert next == a * w + w && (a + 2) * w == next + w;
    Gap(a, t, w);
    Gap(a + 1, t, w);
    if n + 1 == TWO53 {
      LastFloat(n, w);
    }
  }

  lemma ChunkOfRounded(n: nat, w: nat, a: nat, b: nat, t: nat, u: nat)
    requires w * u == CHUNK_SIZE && w >= 4 && w % 4 == 0 && u > 0
    requires n == a * w + b && 0 < b < w && t * w == TWO53 && n < TWO53
    ensures RoundedUnits(n + w) * u >= 0
    ensures (RoundedUnits(n + w) * u) / CHUNK_SIZE == if n + 1 == TWO53 then a + 2 else a + 1
  {
    RoundedChunk(n, w, a, b, t);
    var k := RoundedUnits(n + w);
    if n + 1 == TWO53 {
      Split(k, a + 2, 0, u, w);
    } else {
      Split(k, a + 1, k - (a + 1) * w, u, w);
    }
  }

  lemma SumRounds(x: nat, n: nat, w: nat)
    requires w * Ulp(x) == CHUNK_SIZE && n <= TWO53 && (Ulp(x) > 1 ==> TWO52 <= n)
    ensures RoundNat(n * Ulp(x) + CHUNK_SIZE) == RoundedUnits(n + w) * Ulp(x)
  {
    var u := Ulp(x);
    assert (n + w) * u == n * u + w * u;
    assert w <= CHUNK_SIZE by { MulLe(1, u, w); }
    RoundUnits(x, n + w);
  }

  // For every int64 size: the count is the ceiling exactly under that condition.
  lemma CountIsCeilingIff(fileSize: int)
    requires -TWO63 <= fileSize < TWO63
    ensures IsCeiling(CalculateChunks(fileSize), fileSize) <==> CountsExactly(fileSize)
  {
    var x: nat := if fileSize < 0 then -fileSize else fileSize;
    var w, t := UnitsOfChunk(x);
    var n := Significand(x);
    SumRounds(x, n, w);
    var q, sum := Round(fileSize), Round(Round(fileSize) + CHUNK_SIZE);
    assert fileSize >= 0 ==> sum == RoundNat(n * Ulp(x) + CHUNK_SIZE);
    CountInUnits(fileSize, x, n, RoundNat(x), Ulp(x), w, t, sum);
  }

  lemma CountInUnits(fileSize: int, x: nat, n: nat, q: int, u: nat, w: nat, t: nat, sum: int)
    requires x == if fileSize < 0 then -fileSize else fileSize
    requires u > 0 && w * u == CHUNK_SIZE && w >= 4 && w % 4 == 0 && t * w == TWO53
    requires q == n * u && 2 * Distance(x, q) <= u && n <= TWO53
    requires fileSize >= 0 ==> sum == RoundedUnits(n + w) * u
    ensures IsCeiling(CountFrom(if fileSize < 0 then -q else q, sum), fileSize) <==>
            !Misses(fileSize, if fileSize < 0 then -q else q, u)
  {
    var a, b := n / w, n % w;
    WholeAndRest(n, w, u, t, a, b);
    CountCases(fileSize, q, a, b * u, u, sum, n + 1 == TWO53);
  }

  lemma WholeAndRest(n: nat, w: nat, u: nat, t: nat, a: nat, b: nat)
    requires u > 0 && w * u == CHUNK_SIZE && w >= 4 && w % 4 == 0 && t * w == TWO53 && n <= TWO53
    requires a == n / w && b == n % w
    ensures n * u == a * CHUNK_SIZE + b * u && b * u + u <= CHUNK_SIZE && (b * u > 0 ==> b * u >= u)
    ensures 2 * u <= CHUNK_SIZE
    ensures n + 1 == TWO53 <==> n * u + u == TWO53 * u
    ensures b * u == 0 ==> n + 1 != TWO53
    ensures b * u > 0 ==> RoundedUnits(n + w) * u >= 0
    ensures b * u > 0 ==> (RoundedUnits(n + w) * u) / CHUNK_SIZE == if n + 1 == TWO53 then a + 2 else a + 1
  {
    assert n == a * w + b;
    Split(n, a, b, u, w);
    UnitCancel(n, TWO53, u);
    MulLe(4, w, u);
    if b == 0 {
      MultipleOfFour(a, w);
    } else {
      if n == TWO53 {
        DivUnique(n, w, t, 0);
      }
      ChunkOfRounded(n, w, a, b, t, u);
    }
  }

  lemma CountCases(fileSize: int, q: int, a: nat, part: nat, u: nat, sum: int, last: bool)
    requires q == a * CHUNK_SIZE + part && part + u <= CHUNK_SIZE && (part > 0 ==> part >= u)
    requires u > 0 && 2 * u <= CHUNK_SIZE && 2 * Distance(if fileSize < 0 then -fileSize else fileSize, q) <= u
    requires last <==> q + u == TWO53 * u
    requires part == 0 ==> !last
    requires fileSize >= 0 && part > 0 ==> sum >= 0 && sum / CHUNK_SIZE == if last then a + 2 else a + 1
    ensures IsCeiling(CountFrom(if fileSize < 0 then -q else q, sum), fileSize) <==>
            !Misses(fileSize, if fileSize < 0 then -q else q, u)
  {
    if fileSize < 0 {
      NegativeCount(fileSize, q, a, part, u, sum);
    } else if part == 0 {
      BoundaryCount(fileSize, q, a, u, sum);
    } else {
      InnerCount(fileSize, q, a, part, u, sum, last);
    }
  }

  lemma MultipleOfFour(a: nat, w: nat)
    requires w % 4 == 0
    ensures (a * w) % 4 == 0
  {
    assert a * w == 4 * (a * (w / 4));
  }

  // Every size a client can have is safe, and the bound is tight.
  lemma SafeSizes(fileSize: int)
    requires -TWO53 < fileSize <= TWO53 - 2
    ensures IsCeiling(CalculateChunks(fileSize), fileSize)
  {
    assert Round(fileSize) == fileSize;
    CountIsCeilingIff(fileSize);
  }

  lemma FirstMiss()
    ensures CalculateChunks(TWO53 - 1) == 0x8000_0001 && IsCeiling(0x8000_0000, TWO53 - 1)
  {
    assert Round(TWO53 - 1) == TWO53 - 1;
    var sum := TWO53 - 1 + CHUNK_SIZE;
    assert Ulp(sum / 2) == 1;
    assert Ulp(sum) == 2;
    assert Round(sum) == sum + 1;
  }
}
