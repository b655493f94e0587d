/** `geohash7`: 35 halvings of the globe. Halving is exact in binary floating point, so reals say what the source
    computes. */
module Geohash {
  import opened Types

  const BASE32: string := "0123456789bcdefghjkmnpqrstuvwxyz"
  const LETTERS: nat := 7
  const LNG_BITS: nat := 18
  const LAT_BITS: nat := 17

  // ── one axis ──────────────────────────────────────────────────────────────

  /** The cell reached on one axis, and its number from the low end. */
  datatype Axis = Axis(lo: real, hi: real, index: nat)

  function Halve(a: Axis, x: real): Axis {
    var mid := (a.lo + a.hi) / 2.0;
    if x >= mid then Axis(mid, a.hi, 2 * a.index + 1) else Axis(a.lo, mid, 2 * a.index)
  }

  function After(lo: real, hi: real, x: real, k: nat): Axis {
    if k == 0 then Axis(lo, hi, 0) else Halve(After(lo, hi, x, k - 1), x)
  }

  function Lng(p: Point, k: nat): Axis {
    After(-180.0, 180.0, p.lng, k)
  }

  function Lat(p: Point, k: nat): Axis {
    After(-90.0, 90.0, p.lat, k)
  }

  function Width(lo: real, hi: real, k: nat): real {
    if k == 0 then hi - lo else Width(lo, hi, k - 1) / 2.0
  }

  function Cells(k: nat): (n: nat)
    ensures n >= 1
  {
    if k == 0 then 1 else 2 * Cells(k - 1)
  }

  /** `x` is in cell number `i` of `n` equal ones; the last one includes its upper end. */
  predicate InCell(lo: real, width: real, n: nat, i: nat, x: real) {
    && i < n
    && lo + i as real * width <= x
    && (x < lo + (i + 1) as real * width || (i == n - 1 && x == lo + n as real * width))
  }

  /** The lower end of cell number `i`, counted off one width at a time. */
  function Edge(lo: real, w: real, i: nat): real {
    if i == 0 then lo else Edge(lo, w, i - 1) + w
  }

  lemma {:induction false} EdgeIs(lo: real, w: real, i: nat)
    ensures Edge(lo, w, i) == lo + i as real * w
  {
    if i > 0 {
      EdgeIs(lo, w, i - 1);
      assert i as real * w == (i - 1) as real * w + w;
    }
  }

  lemma {:induction false} EdgeHalves(lo: real, w: real, i: nat)
    ensures Edge(lo, 2.0 * w, i) == Edge(lo, w, 2 * i)
  {
    if i > 0 {
      EdgeHalves(lo, w, i - 1);
      assert Edge(lo, w, 2 * i) == Edge(lo, w, 2 * i - 1) + w == Edge(lo, w, 2 * (i - 1)) + w + w;
    }
  }

  lemma {:induction false} EdgesAscend(lo: real, w: real, i: nat, j: nat)
    requires w > 0.0 && i < j
    ensures Edge(lo, w, i) + w <= Edge(lo, w, j)
    decreases j
  {
    if i < j - 1 {
      EdgesAscend(lo, w, i, j - 1);
    }
  }

  lemma {:induction false} CellsFillTheAxis(lo: real, hi: real, k: nat)
    ensures Edge(lo, Width(lo, hi, k), Cells(k)) == hi
    ensures lo < hi ==> Width(lo, hi, k) > 0.0
  {
    if k > 0 {
      CellsFillTheAxis(lo, hi, k - 1);
      EdgeHalves(lo, Width(lo, hi, k), Cells(k - 1));
      assert 2.0 * Width(lo, hi, k) == Width(lo, hi, k - 1);
    } else {
      assert Edge(lo, hi - lo, 1) == Edge(lo, hi - lo, 0) + (hi - lo);
    }
  }

  /** The bounds reached are those of the numbered cell. */
  lemma {:induction false} BoundsOfCell(lo: real, hi: real, x: real, k: nat)
    ensures var a, w := After(lo, hi, x, k), Width(lo, hi, k);
      a.index < Cells(k) && a.lo == Edge(lo, w, a.index) && a.hi == a.lo + w
  {
    if k > 0 {
      BoundsOfCell(lo, hi, x, k - 1);
      var a, w := After(lo, hi, x, k - 1), Width(lo, hi, k);
      assert 2.0 * w == Width(lo, hi, k - 1);
      EdgeHalves(lo, w, a.index);
      assert Edge(lo, w, 2 * a.index + 1) == Edge(lo, w, 2 * a.index) + w;
    }
  }

  /** The point stays inside the shrinking cell at every step. */
  lemma {:induction false} StaysInside(lo: real, hi: real, x: real, k: nat)
    requires lo <= x <= hi && lo < hi
    ensures var a := After(lo, hi, x, k);
      a.lo <= x && (x < a.hi || x == a.hi == hi) && a.hi - a.lo == Width(lo, hi, k)
  {
    if k > 0 {
      StaysInside(lo, hi, x, k - 1);
    }
  }

  predicate Within(lo: real, w: real, n: nat, i: nat, x: real) {
    i < n && Edge(lo, w, i) <= x && (x < Edge(lo, w, i) + w || (i == n - 1 && x == Edge(lo, w, n)))
  }

  lemma OneCell(lo: real, w: real, n: nat, i: nat, j: nat, x: real)
    requires w > 0.0 && Within(lo, w, n, i, x) && Within(lo, w, n, j, x)
    ensures i == j
  {
    if i < j {
      EdgesAscend(lo, w, i, j);
    }
    if j < i {
      EdgesAscend(lo, w, j, i);
    }
  }

  lemma FoundCell(lo: real, hi: real, x: real, k: nat)
    requires lo <= x <= hi && lo < hi
    ensures Width(lo, hi, k) > 0.0 && Within(lo, Width(lo, hi, k), Cells(k), After(lo, hi, x, k).index, x)
  {
    var a, w, n := After(lo, hi, x, k), Width(lo, hi, k), Cells(k);
    StaysInside(lo, hi, x, k);
    BoundsOfCell(lo, hi, x, k);
    CellsFillTheAxis(lo, hi, k);
    if a.index + 1 < n {
      EdgesAscend(lo, w, a.index + 1, n);
      assert Edge(lo, w, a.index + 1) == Edge(lo, w, a.index) + w;
    }
  }

  /** The search ends in cell number `i` exactly when the point lies in it. */
  lemma AxisFindsTheCell(lo: real, hi: real, x: real, k: nat, i: nat)
    requires lo <= x <= hi && lo < hi
    ensures After(lo, hi, x, k).index == i <==> InCell(lo, Width(lo, hi, k), Cells(k), i, x)
  {
    var w, n := Width(lo, hi, k), Cells(k);
    FoundCell(lo, hi, x, k);
    WithinIsInCell(lo, w, n, i, x);
    if Within(lo, w, n, i, x) {
      OneCell(lo, w, n, i, After(lo, hi, x, k).index, x);
    }
  }

  lemma WithinIsInCell(lo: real, w: real, n: nat, i: nat, x: real)
    ensures Within(lo, w, n, i, x) <==> InCell(lo, w, n, i, x)
  {
    EdgeIs(lo, w, i);
    EdgeIs(lo, w, i + 1);
    EdgeIs(lo, w, n);
    assert Edge(lo, w, i + 1) == Edge(lo, w, i) + w;
  }

  /** Points in one cell are at most its width apart. */
  lemma CellIsSmall(lo: real, hi: real, x: real, y: real, k: nat)
    requires lo <= x <= hi && lo <= y <= hi && lo < hi && After(lo, hi, x, k).index == After(lo, hi, y, k).index
    ensures Apart(x, y) <= Width(lo, hi, k)
  {
    StaysInside(lo, hi, x, k);
    StaysInside(lo, hi, y, k);
    BoundsOfCell(lo, hi, x, k);
    BoundsOfCell(lo, hi, y, k);
  }

  function Apart(a: real, b: real): real {
    if a < b then b - a else a - b
  }

  // ── the letters ───────────────────────────────────────────────────────────

  /** Bit `n` halves the longitude when even, the latitude when odd. */
  function Bit(p: Point, n: nat): (b: nat)
    ensures b <= 1
  {
    if n % 2 == 0 then LowBit(Lng(p, n / 2 + 1)) else LowBit(Lat(p, n / 2 + 1))
  }

  function LowBit(a: Axis): (b: nat)
    ensures b <= 1
  {
    a.index % 2
  }

  /** Letter `d` after `b` of its bits. */
  function Partial(p: Point, d: nat, b: nat): nat {
    if b == 0 then 0 else 2 * Partial(p, d, b - 1) + Bit(p, 5 * d + b - 1)
  }

  function Letter(p: Point, d: nat): nat {
    Partial(p, d, 5)
  }

  lemma AppendBit(p: Point, d: nat, b: nat)
    ensures Partial(p, d, b + 1) == 2 * Partial(p, d, b) + Bit(p, 5 * d + b)
  {
  }

  lemma LetterSpelled(p: Point, d: nat)
    ensures Letter(p, d) == 16 * Bit(p, 5 * d) + 8 * Bit(p, 5 * d + 1) + 4 * Bit(p, 5 * d + 2)
      + 2 * Bit(p, 5 * d + 3) + Bit(p, 5 * d + 4)
    ensures Letter(p, d) < |BASE32|
  {
    AppendBit(p, d, 0);
    AppendBit(p, d, 1);
    AppendBit(p, d, 2);
    AppendBit(p, d, 3);
    AppendBit(p, d, 4);
  }

  /** A digit, or a small letter that is not mistaken for one or left out of the alphabet. */
  predicate IsGeohashLetter(c: char) {
    '0' <= c <= '9' || ('b' <= c <= 'z' && c != 'i' && c != 'l' && c != 'o')
  }

  /** The 32 letters of the geohash alphabet in their order, so that hashes sort as cells do. */
  lemma AlphabetIsInOrder(i: nat)
    requires i < 32
    ensures |BASE32| == 32 && IsGeohashLetter(BASE32[i])
    ensures i < 31 ==> BASE32[i] < BASE32[i + 1]
  {
  }

  ghost predicate IsHash(p: Point, hash: string) {
    |hash| == LETTERS && Spelled(p, hash)
  }

  ghost predicate Spelled(p: Point, hash: string) {
    forall d :: 0 <= d < |hash| ==> Letter(p, d) < |BASE32| && hash[d] == BASE32[Letter(p, d)]
  }

  lemma BitIs(p: Point, i: nat)
    ensures Bit(p, 2 * i) == LowBit(Lng(p, i + 1))
    ensures Bit(p, 2 * i + 1) == LowBit(Lat(p, i + 1))
  {
  }

  lemma AppendLetter(p: Point, hash: string, idx: nat)
    requires Spelled(p, hash) && idx == Letter(p, |hash|)
    ensures idx < |BASE32| && Spelled(p, hash + [BASE32[idx]])
  {
    LetterSpelled(p, |hash|);
  }

  method HalveAxis(a: Axis, x: real) returns (half: Axis, bit: nat)
    ensures half == Halve(a, x) && bit == LowBit(half)
  {
    var mid := (a.lo + a.hi) / 2.0;
    if x >= mid {
      half, bit := Axis(mid, a.hi, 2 * a.index + 1), 1;
    } else {
      half, bit := Axis(a.lo, mid, 2 * a.index), 0;
    }
  }

  /** The halvings of both axes before bit `n`. */
  ghost predicate Halved(p: Point, n: nat, lat: Axis, lng: Axis, even: bool) {
    && (even <==> n % 2 == 0)
    && lat == Lat(p, n / 2) && lng == Lng(p, (n + 1) / 2)
  }

  lemma HalveOnce(p: Point, n: nat, lat: Axis, lng: Axis, even: bool)
    requires Halved(p, n, lat, lng, even)
    ensures var half := if even then Halve(lng, p.lng) else Halve(lat, p.lat);
      && LowBit(half) == Bit(p, n)
      && Halved(p, n + 1, if even then lat else half, if even then half else lng, !even)
  {
  }

  method Geohash7(p: Point) returns (hash: string)
    ensures IsHash(p, hash)
  {
    var idx, bit, even := 0, 0, true;
    hash := "";
    var lat, lng := Axis(-90.0, 90.0, 0), Axis(-180.0, 180.0, 0);
    while |hash| < 7
      invariant |hash| <= 7 && bit < 5 && Halved(p, 5 * |hash| + bit, lat, lng, even)
      invariant idx == Partial(p, |hash|, bit) && Spelled(p, hash)
      decreases 35 - 5 * |hash| - bit
    {
      HalveOnce(p, 5 * |hash| + bit, lat, lng, even);
      AppendBit(p, |hash|, bit);
      var low;
      if even {
        lng, low := HalveAxis(lng, p.lng);
      } else {
        lat, low := HalveAxis(lat, p.lat);
      }
      idx, even, bit := 2 * idx + low, !even, bit + 1;
      if bit == 5 {
        AppendLetter(p, hash, idx);
        hash := hash + [BASE32[idx]];
        bit, idx := 0, 0;
      }
    }
  }

  // ── what equal hashes mean ────────────────────────────────────────────────

  lemma LettersDiffer(i: nat, j: nat)
    requires i < j < |BASE32|
    ensures BASE32[i] != BASE32[j]
  {
  }

  lemma EqualHashesEqualLetters(p: Point, q: Point, hash: string, d: nat)
    requires IsHash(p, hash) && IsHash(q, hash) && d < LETTERS
    ensures Letter(p, d) == Letter(q, d)
  {
    if Letter(p, d) < Letter(q, d) {
      LettersDiffer(Letter(p, d), Letter(q, d));
    } else if Letter(q, d) < Letter(p, d) {
      LettersDiffer(Letter(q, d), Letter(p, d));
    }
  }

  lemma FiveBits(a: nat, b: nat, c: nat, d: nat, e: nat, v: nat, w: nat, x: nat, y: nat, z: nat)
    requires a <= 1 && b <= 1 && c <= 1 && d <= 1 && e <= 1 && v <= 1 && w <= 1 && x <= 1 && y <= 1 && z <= 1
    requires 16 * a + 8 * b + 4 * c + 2 * d + e == 16 * v + 8 * w + 4 * x + 2 * y + z
    ensures a == v && b == w && c == x && d == y && e == z
  {
  }

  lemma EqualLettersEqualBits(p: Point, q: Point, d: nat)
    requires Letter(p, d) == Letter(q, d)
    ensures forall b :: 5 * d <= b < 5 * d + 5 ==> Bit(p, b) == Bit(q, b)
  {
    LetterSpelled(p, d);
    LetterSpelled(q, d);
    FiveBits(Bit(p, 5 * d), Bit(p, 5 * d + 1), Bit(p, 5 * d + 2), Bit(p, 5 * d + 3), Bit(p, 5 * d + 4),
             Bit(q, 5 * d), Bit(q, 5 * d + 1), Bit(q, 5 * d + 2), Bit(q, 5 * d + 3), Bit(q, 5 * d + 4));
    forall b | 5 * d <= b < 5 * d + 5 ensures Bit(p, b) == Bit(q, b) {
      if b == 5 * d {
      } else if b == 5 * d + 1 {
      } else if b == 5 * d + 2 {
      } else if b == 5 * d + 3 {
      } else {
        assert b == 5 * d + 4;
      }
    }
  }

  predicate SameCell(p: Point, q: Point) {
    SameCellAfter(p, q, LAT_BITS)
  }

  /** After `k` halvings of the latitude and one more of the longitude. */
  predicate SameCellAfter(p: Point, q: Point, k: nat) {
    Lng(p, k + 1).index == Lng(q, k + 1).index && Lat(p, k).index == Lat(q, k).index
  }

  lemma NextIndex(lo: real, hi: real, x: real, k: nat)
    ensures After(lo, hi, x, k + 1).index == 2 * After(lo, hi, x, k).index + LowBit(After(lo, hi, x, k + 1))
  {
  }

  /** The two bits that lead from one halving of both axes to the next. */
  lemma NextCell(p: Point, q: Point, k: nat)
    ensures SameCellAfter(p, q, k + 1) <==>
      SameCellAfter(p, q, k) && Bit(p, 2 * k + 1) == Bit(q, 2 * k + 1) && Bit(p, 2 * k + 2) == Bit(q, 2 * k + 2)
  {
    NextIndex(-180.0, 180.0, p.lng, k + 1);
    NextIndex(-180.0, 180.0, q.lng, k + 1);
    NextIndex(-90.0, 90.0, p.lat, k);
    NextIndex(-90.0, 90.0, q.lat, k);
    BitIs(p, k);
    BitIs(q, k);
    BitIs(p, k + 1);
    BitIs(q, k + 1);
  }

  lemma {:induction false} SameCellEqualBits(p: Point, q: Point, k: nat)
    ensures SameCellAfter(p, q, k) <==> forall n :: 0 <= n < 2 * k + 1 ==> Bit(p, n) == Bit(q, n)
  {
    if k == 0 {
      NextIndex(-180.0, 180.0, p.lng, 0);
      NextIndex(-180.0, 180.0, q.lng, 0);
      BitIs(p, 0);
      BitIs(q, 0);
    } else {
      SameCellEqualBits(p, q, k - 1);
      NextCell(p, q, k - 1);
    }
  }

  /** Two points have the same hash exactly when they lie in the same cell of the grid of 2^18 columns and 2^17 rows. */
  lemma EqualHashesAreOneCell(p: Point, q: Point, hash: string)
    requires IsHash(p, hash)
    ensures IsHash(q, hash) <==> SameCell(p, q)
  {
    SameCellEqualBits(p, q, LAT_BITS);
    if IsHash(q, hash) {
      forall n | 0 <= n < 35 ensures Bit(p, n) == Bit(q, n) {
        EqualHashesEqualLetters(p, q, hash, n / 5);
        EqualLettersEqualBits(p, q, n / 5);
      }
    }
    if SameCell(p, q) {
      forall d | 0 <= d < LETTERS ensures Letter(p, d) == Letter(q, d) {
        LetterSpelled(p, d);
        LetterSpelled(q, d);
      }
    }
  }

  predicate InRange(p: Point) {
    -90.0 <= p.lat <= 90.0 && -180.0 <= p.lng <= 180.0
  }

  /** Rows and columns are counted, not searched for: a column is 360/2^18 degrees wide, a row 180/2^17 high. */
  lemma CellOfPoint(p: Point, column: nat, row: nat)
    requires InRange(p)
    ensures Lng(p, LNG_BITS).index == column <==> InCell(-180.0, 360.0 / 262144.0, 262144, column, p.lng)
    ensures Lat(p, LAT_BITS).index == row <==> InCell(-90.0, 180.0 / 131072.0, 131072, row, p.lat)
  {
    AxisFindsTheCell(-180.0, 180.0, p.lng, LNG_BITS, column);
    AxisFindsTheCell(-90.0, 90.0, p.lat, LAT_BITS, row);
    GridSizes();
  }

  lemma GridSizes()
    ensures Cells(LNG_BITS) == 262144 && Cells(LAT_BITS) == 131072
    ensures Width(-180.0, 180.0, LNG_BITS) == 360.0 / 262144.0
    ensures Width(-90.0, 90.0, LAT_BITS) == 180.0 / 131072.0
  {
    assert Cells(6) == 64 && Cells(12) == 4096 && Cells(17) == 131072;
    WidthsScale(-180.0, 180.0, LNG_BITS);
    WidthsScale(-90.0, 90.0, LAT_BITS);
  }

  lemma {:induction false} WidthsScale(lo: real, hi: real, k: nat)
    ensures Width(lo, hi, k) == (hi - lo) / Cells(k) as real
  {
    if k > 0 {
      WidthsScale(lo, hi, k - 1);
      Halving(hi - lo, Cells(k - 1) as real);
    }
  }

  lemma Halving(a: real, n: real)
    requires n > 0.0
    ensures (a / n) / 2.0 == a / (2.0 * n)
  {
    assert (a / n) / 2.0 * (2.0 * n) == a / n * n;
  }

  /** How far apart two points with one hash can be. */
  lemma EqualHashesAreClose(p: Point, q: Point, hash: string)
    requires InRange(p) && InRange(q) && IsHash(p, hash) && IsHash(q, hash)
    ensures Apart(p.lat, q.lat) <= 180.0 / 131072.0
    ensures Apart(p.lng, q.lng) <= 360.0 / 262144.0
  {
    EqualHashesAreOneCell(p, q, hash);
    CellIsSmall(-180.0, 180.0, p.lng, q.lng, LNG_BITS);
    CellIsSmall(-90.0, 90.0, p.lat, q.lat, LAT_BITS);
    GridSizes();
  }

  /** A cached price is keyed by the hashes of both ends: routes that share it start close together and end close
      together. */
  lemma SharedPriceMeansCloseRoutes(from: Point, to: Point, from2: Point, to2: Point, start: string, end: string)
    requires InRange(from) && InRange(to) && InRange(from2) && InRange(to2)
    requires IsHash(from, start) && IsHash(to, end)
    requires exists s, e :: IsHash(from2, s) && IsHash(to2, e) && s + ":" + e == start + ":" + end
    ensures Apart(from.lat, from2.lat) <= 180.0 / 131072.0 && Apart(from.lng, from2.lng) <= 360.0 / 262144.0
    ensures Apart(to.lat, to2.lat) <= 180.0 / 131072.0 && Apart(to.lng, to2.lng) <= 360.0 / 262144.0
  {
    var s, e :| IsHash(from2, s) && IsHash(to2, e) && s + ":" + e == start + ":" + end;
    assert s == (s + ":" + e)[..7] && start == (start + ":" + end)[..7];
    assert e == (s + ":" + e)[8..] && end == (start + ":" + end)[8..];
    EqualHashesAreClose(from, from2, start);
    EqualHashesAreClose(to, to2, end);
  }
}
