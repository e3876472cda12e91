/** Occupancy of an evacuation centre: the rounded percentage and the
    four-way status label, computed the same way by the centre selector and
    by the map markers. */
module Occupancy {
  import opened Wrappers

  datatype Status = Available | Limited | High | Full

  /** `c.capacity || 0` and `c.currentCount || 0`. */
  function OrZero(n: Option<int>): int {
    n.GetOr(0)
  }

  /** `cap > 0 ? Math.round(occ / cap * 100) : 0`, in exact arithmetic:
      the integer nearest to `100 * occ / cap`, halves rounded up. */
  function Percent(cap: int, occ: int): (pct: int)
    ensures cap <= 0 ==> pct == 0
    ensures cap > 0 ==> -cap <= 200 * occ - 2 * cap * pct < cap
  {
    if cap > 0 then
      var n := 200 * occ + cap;
      var q := n / (2 * cap);
      assert n == 2 * cap * q + n % (2 * cap);
      q
    else 0
  }

  /** The rounding is exact at the ends: an empty centre is at 0 and a
      centre filled to capacity at 100. */
  lemma PercentEnds(cap: int)
    requires cap > 0
    ensures Percent(cap, 0) == 0 && Percent(cap, cap) == 100
  {
    PercentUnique(cap, 0, 0);
    PercentUnique(cap, cap, 100);
  }

  /** At most one integer is within half a unit of `100 * occ / cap`. */
  lemma PercentUnique(cap: int, occ: int, p: int)
    requires cap > 0
    requires -cap <= 200 * occ - 2 * cap * p < cap
    ensures Percent(cap, occ) == p
  {
    var q := Percent(cap, occ);
    var k := 2 * cap;
    assert k * q - k * p == k * (q - p);
    OnlyZeroIsSmall(k, q - p);
  }

  lemma OnlyZeroIsSmall(k: int, d: int)
    requires k > 0 && -k < k * d < k
    ensures d == 0
  {
    if d >= 1 {
      MulMonotone(k, 1, d);
    } else if d <= -1 {
      MulMonotone(k, d, -1);
    }
  }

  lemma MulMonotone(k: int, a: int, b: int)
    requires k > 0 && a <= b
    ensures k * a <= k * b
  {
  }

  /** More occupants never lower the percentage. */
  lemma PercentMonotone(cap: int, occ1: int, occ2: int)
    requires occ1 <= occ2
    ensures Percent(cap, occ1) <= Percent(cap, occ2)
  {
    if cap > 0 {
      var p1 := Percent(cap, occ1);
      var p2 := Percent(cap, occ2);
      var k := 2 * cap;
      assert k * (p2 + 1) == k * p2 + k;
      MulMonotone(200, occ1, occ2);
      MulCancel(k, p1, p2 + 1);
    }
  }

  lemma MulCancel(k: int, a: int, b: int)
    requires k > 0 && k * a < k * b
    ensures a < b
  {
    if a >= b {
      MulMonotone(k, b, a);
    }
  }

  /** The label: Full only at exactly 100 %, then High from 76 % (over
      capacity included), Limited from 50 %, Available below. */
  function Classify(pct: int): Status {
    if pct == 100 then Full
    else if pct >= 76 then High
    else if pct >= 50 then Limited
    else Available
  }

  /** A centre at capacity is Full; one at least half a percent over it is
      High, never Full; one with no room is never Available. */
  lemma ClassifyByOccupancy(cap: int, occ: int)
    requires cap > 0
    ensures occ == cap ==> Classify(Percent(cap, occ)) == Full
    ensures 200 * occ >= 201 * cap ==> Classify(Percent(cap, occ)) == High
    ensures 2 * occ < cap - cap / 100 ==> Classify(Percent(cap, occ)) == Available
    ensures occ >= cap ==> Classify(Percent(cap, occ)) in {Full, High}
  {
    PercentEnds(cap);
    var pct := Percent(cap, occ);
    if 200 * occ >= 201 * cap {
      if pct <= 100 {
        MulMonotone(2 * cap, pct, 100);
      }
    }
    if 2 * occ < cap - cap / 100 && pct >= 50 {
      MulMonotone(2 * cap, 50, pct);
    }
    if occ >= cap {
      PercentMonotone(cap, cap, occ);
    }
  }

  /** The labels cut the percentages into four disjoint ranges. */
  lemma ClassifyRanges(pct: int)
    ensures Classify(pct) == Full <==> pct == 100
    ensures Classify(pct) == High <==> pct >= 76 && pct != 100
    ensures Classify(pct) == Limited <==> 50 <= pct < 76
    ensures Classify(pct) == Available <==> pct < 50
  {
  }

  function StatusText(s: Status): string {
    match s
    case Available => "Available"
    case Limited => "Limited"
    case High => "High"
    case Full => "Full"
  }
}
