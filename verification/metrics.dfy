/** The three aggregate tiles: the attentive, distracted and drowsy shares
    of the history as whole percentages (src/components/EngagementMetrics.tsx). */
module Metrics {
  import opened Emotion
  import opened History

  /** `data.length || 1`: the history length, or 1 for an empty history. */
  function Denominator(n: nat): (t: nat)
    ensures t >= 1
    ensures n > 0 ==> t == n
    ensures n == 0 ==> t == 1
  {
    if n == 0 then 1 else n
  }

  /** `Math.round` of the exact ratio num/den: the unique integer r with
      r - 1/2 <= num/den < r + 1/2, so halves round up. */
  function RoundHalfUp(num: nat, den: nat): (r: nat)
    requires den > 0
    ensures 2 * den * r <= 2 * num + den < 2 * den * r + 2 * den
  {
    var q := (2 * num + den) / (2 * den);
    assert 2 * num + den == 2 * den * q + (2 * num + den) % (2 * den);
    q
  }

  /** Multiplying both sides of `den * a <= den * b` by 1/den. */
  lemma CancelPositive(den: int, a: int, b: int)
    requires den > 0 && den * a <= den * b
    ensures a <= b
  {
  }

  /** Strict form of `CancelPositive`. */
  lemma CancelPositiveStrict(den: int, a: int, b: int)
    requires den > 0 && den * a < den * b
    ensures a < b
  {
  }

  /** `Math.round((count / total) * 100)` for a count out of `total`. */
  function Percent(count: nat, total: nat): (p: nat)
    requires 0 < total && count <= total
    ensures p <= 100
    ensures count == 0 ==> p == 0
    ensures count == total ==> p == 100
    ensures IsRoundedShare(p, count, total)
  {
    var p := RoundHalfUp(100 * count, total);
    RoundedShareBounds(count, total, p);
    p
  }

  /** A share rounded half up stays within [0, 100], and the extreme
      counts give exactly 0 and 100. */
  lemma RoundedShareBounds(count: nat, total: nat, p: nat)
    requires 0 < total && count <= total
    requires IsRoundedShare(p, count, total)
    ensures p <= 100
    ensures count == 0 ==> p == 0
    ensures count == total ==> p == 100
  {
    // 2tp <= 200c + t <= 201t, so 2p <= 201
    CancelPositive(total, 2 * p, 201);
    if count == 0 {
      CancelPositive(total, 2 * p, 1);
    }
    if count == total {
      CancelPositive(total, 199, 2 * p);
    }
  }

  /** `p` is 100 * count / total rounded half up. */
  predicate IsRoundedShare(p: nat, count: nat, total: nat)
  {
    2 * total * p <= 200 * count + total < 2 * total * p + 2 * total
  }

  /** The three tiles, in the order they are rendered. */
  datatype Tiles = Tiles(attentive: nat, distracted: nat, drowsy: nat)

  /** The tiles for a history: each status count rounded as a share of
      `data.length || 1`. */
  function EngagementTiles(data: seq<EmotionData>): (t: Tiles)
    ensures t.attentive <= 100 && t.distracted <= 100 && t.drowsy <= 100
    ensures |data| == 0 ==> t == Tiles(0, 0, 0)
    ensures |data| > 0 ==> 99 <= t.attentive + t.distracted + t.drowsy <= 101
    ensures IsRoundedShare(t.attentive, CountStatus(data, Attentive), Denominator(|data|))
    ensures IsRoundedShare(t.distracted, CountStatus(data, Distracted), Denominator(|data|))
    ensures IsRoundedShare(t.drowsy, CountStatus(data, Drowsy), Denominator(|data|))
  {
    var total := Denominator(|data|);
    var a := CountStatus(data, Attentive);
    var d := CountStatus(data, Distracted);
    var z := CountStatus(data, Drowsy);
    var t := Tiles(Percent(a, total), Percent(d, total), Percent(z, total));
    StatusCountsPartition(data);
    if |data| > 0 then
      RoundedSharesSum(total, a, d, z, t.attentive, t.distracted, t.drowsy);
      t
    else
      t
  }

  /** Three counts partitioning n > 0, each rounded half up as a share of
      100, sum to 99, 100 or 101: each rounding moves its share by at most
      one half. */
  lemma RoundedSharesSum(n: nat, a: nat, d: nat, z: nat, pa: nat, pd: nat, pz: nat)
    requires n > 0 && a + d + z == n
    requires IsRoundedShare(pa, a, n) && IsRoundedShare(pd, d, n) && IsRoundedShare(pz, z, n)
    ensures 99 <= pa + pd + pz <= 101
  {
    var A := ScaledShare(n, a, pa);
    var D := ScaledShare(n, d, pd);
    var Z := ScaledShare(n, z, pz);
    AddShareBounds(n, a, d, z, A, D, Z);
    var twice := 2 * (pa + pd + pz);
    Distribute(n, pa, pd, pz);
    assert n * twice == 2 * (A + D + Z);
    assert n * twice <= n * 203;
    CancelPositive(n, twice, 203);
    assert n * 197 < n * twice;
    CancelPositiveStrict(n, 197, twice);
  }

  /** A rounded share with the product n*p named, so that the bounds
      become linear in it. */
  lemma ScaledShare(n: nat, c: nat, p: nat) returns (np: int)
    requires IsRoundedShare(p, c, n)
    ensures np == n * p
    ensures 2 * np <= 200 * c + n < 2 * np + 2 * n
  {
    np := n * p;
    assert 2 * n * p == 2 * np;
  }

  /** The linear core of `RoundedSharesSum`, with the products n*p named. */
  lemma AddShareBounds(n: int, a: int, d: int, z: int, A: int, D: int, Z: int)
    requires a + d + z == n
    requires 2 * A <= 200 * a + n < 2 * A + 2 * n
    requires 2 * D <= 200 * d + n < 2 * D + 2 * n
    requires 2 * Z <= 200 * z + n < 2 * Z + 2 * n
    ensures 2 * (A + D + Z) <= 203 * n && 197 * n < 2 * (A + D + Z)
  {
  }

  lemma Distribute(n: int, x: int, y: int, w: int)
    ensures n * (x + y + w) == n * x + n * y + n * w
  {
  }

  /** A history in which every sample has one status shows 100 for that
      status and 0 for the other two. */
  lemma UniformHistoryTiles(data: seq<EmotionData>, s: EngagementStatus)
    requires |data| > 0
    requires forall i :: 0 <= i < |data| ==> data[i].engagement == s
    ensures EngagementTiles(data).attentive == (if s == Attentive then 100 else 0)
    ensures EngagementTiles(data).distracted == (if s == Distracted then 100 else 0)
    ensures EngagementTiles(data).drowsy == (if s == Drowsy then 100 else 0)
  {
    UniformStatusCounts(data, s);
  }
}
