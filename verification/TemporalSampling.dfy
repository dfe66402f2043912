/** `_temporal_sample`: an even choice of `limit` positions out of n, rounded half to even over exact
    rationals. */
module TemporalSampling {
  import opened Ordering

  /** Python's `round(n / d)` on an exact quotient. */
  function RoundHalfEven(n: nat, d: nat): (r: nat)
    requires d > 0
  {
    var q, rem := n / d, n % d;
    if 2 * rem < d then q
    else if 2 * rem > d then q + 1
    else if q % 2 == 0 then q else q + 1
  }

  lemma Distance(r: int, q: int, rem: int, n: int, d: int)
    requires n == q * d + rem && 0 <= rem < d
    requires (r == q && 2 * rem <= d) || (r == q + 1 && 2 * rem >= d)
    ensures -d <= 2 * (r * d - n) <= d
    ensures 2 * (r * d - n) == d || 2 * (r * d - n) == -d ==> 2 * rem == d
  {
    assert (q + 1) * d == q * d + d;
  }

  /** The value is n / d rounded to a nearest integer, and to the even one of two that are equally near. */
  predicate IsRounded(r: int, n: int, d: int) {
    -d <= 2 * (r * d - n) <= d && (2 * (r * d - n) == d || 2 * (r * d - n) == -d ==> r % 2 == 0)
  }

  lemma TiesGoToEven(n: nat, d: int)
    requires d > 0
    ensures IsRounded(RoundHalfEven(n, d), n, d)
  {
    Nearest(n, d);
  }

  /** The rounded value is nearest, and half a unit away only when the quotient is a tie. */
  lemma Nearest(n: nat, d: int)
    requires d > 0
    ensures -d <= 2 * (RoundHalfEven(n, d) * d - n) <= d
    ensures 2 * (RoundHalfEven(n, d) * d - n) == d || 2 * (RoundHalfEven(n, d) * d - n) == -d ==> 2 * (n % d) == d
  {
    var r := RoundHalfEven(n, d);
    assert n == (n / d) * d + n % d;
    Distance(r, n / d, n % d, n, d);
  }

  /** The position of sample `p` when `limit` samples are spread over `n` items. */
  function Position(p: nat, n: nat, limit: nat): nat
    requires limit >= 2 && n >= 1
  {
    RoundHalfEven(p * (n - 1), limit - 1)
  }

  function Positions(n: nat, limit: nat): set<int>
    requires limit != 1 && n >= 1
  {
    if limit == 0 then {} else set p | 0 <= p < limit :: Position(p, n, limit)
  }

  function Sample<T>(ids: seq<T>, limit: nat): seq<T> {
    if |ids| <= limit then ids
    else if limit == 1 then [ids[|ids| / 2]]
    else if limit == 0 then []
    else
      IntOrder();
      PositionsInRange(|ids|, limit);
      var chosen := SortedSeq(Positions(|ids|, limit), IntLess);
      assert forall i | 0 <= i < |chosen| :: chosen[i] in Positions(|ids|, limit);
      seq(|chosen|, i requires 0 <= i < |chosen| => ids[chosen[i]])
  }

  // ----- integer quotients -----

  lemma ScaleMonotone(a: int, b: int, d: int)
    requires a <= b && d >= 0
    ensures a * d <= b * d
  {}

  lemma CancelLess(a: int, b: int, d: int)
    requires d > 0 && a * d < b * d
    ensures a < b
  {
    if b <= a { ScaleMonotone(b, a, d); }
  }

  lemma EuclidUnique(n: int, q: int, r: int, d: int)
    requires d > 0 && n == q * d + r && 0 <= r < d
    ensures n / d == q && n % d == r
  {
    assert n == (n / d) * d + n % d;
    var k := q - n / d;
    assert k * d == q * d - (n / d) * d;
    CancelLess(-1, k, d);
    CancelLess(k, 1, d);
  }

  // ----- positions -----

  lemma RoundedBound(r: int, x: int, m: int, d: int)
    requires d > 0 && 2 * (r * d - x) <= d && x <= m * d
    ensures r <= m
  {
    assert (m + 1) * d == m * d + d;
    CancelLess(r, m + 1, d);
  }

  lemma PositionBound(p: nat, n: nat, limit: nat)
    requires limit >= 2 && n >= 1 && p < limit
    ensures Position(p, n, limit) < n
  {
    var m, d := n - 1, limit - 1;
    hide RoundHalfEven;
    Nearest(p * m, d);
    ScaleMonotone(p, d, m);
    assert d * m == m * d;
    RoundedBound(Position(p, n, limit), p * m, m, d);
  }

  lemma PositionsInRange(n: nat, limit: nat)
    requires limit >= 2 && n >= 1
    ensures forall x | x in Positions(n, limit) :: 0 <= x < n
  {
    forall p: nat | p < limit ensures Position(p, n, limit) < n { PositionBound(p, n, limit); }
  }

  /** Two neighbouring quotients are never both ties: their distance would then be a whole number. */
  lemma OneTie(p: nat, m: nat, d: int)
    requires d > 0 && 2 * ((p * m) % d) == d
    ensures 2 * (((p + 1) * m) % d) != d
  {
    var x, y := p * m, (p + 1) * m;
    assert y == x + m;
    if 2 * (y % d) == d {
      var k := y / d - x / d;
      assert m == k * d by { assert k * d == (y / d) * d - (x / d) * d; }
      assert x == (p * k) * d;
      EuclidUnique(x, p * k, 0, d);
    }
  }

  /** Neighbouring positions are the floor or the ceiling of (n-1)/(limit-1) apart. */
  lemma Gap(p: nat, n: nat, limit: nat)
    requires limit >= 2 && n >= 1
    ensures var g := Position(p + 1, n, limit) - Position(p, n, limit);
      g == (n - 1) / (limit - 1)
      || (g == (n - 1) / (limit - 1) + 1 && (n - 1) % (limit - 1) != 0)
  {
    var m, d := n - 1, limit - 1;
    var x, y := p * m, (p + 1) * m;
    var a, b := Position(p, n, limit), Position(p + 1, n, limit);
    assert y == x + m;
    Nearest(x, d);
    Nearest(y, d);
    if 2 * (x % d) == d { OneTie(p, m, d); }
    GapFromErrors(a, b, x, m, d);
  }

  lemma GapFromErrors(a: int, b: int, x: int, m: int, d: int)
    requires d > 0 && m >= 0
    requires -d <= 2 * (a * d - x) <= d && -d <= 2 * (b * d - (x + m)) <= d
    requires -d < 2 * (a * d - x) < d || -d < 2 * (b * d - (x + m)) < d
    ensures b - a == m / d || (b - a == m / d + 1 && m % d != 0)
  {
    var q, r := m / d, m % d;
    var k := b - a - q;
    assert k * d == b * d - a * d - q * d;
    assert m == q * d + r;
    CancelLess(-1, k, d);
    CancelLess(k, 2, d);
  }

  ghost predicate Even(chosen: seq<int>, n: nat, limit: nat) {
    && limit >= 2
    && |chosen| == limit
    && chosen[0] == 0 && chosen[limit - 1] == n - 1
    && forall p | 0 <= p < limit - 1 ::
         var g := chosen[p + 1] - chosen[p];
         1 <= g && (g == (n - 1) / (limit - 1) || (g == (n - 1) / (limit - 1) + 1 && (n - 1) % (limit - 1) != 0))
  }

  lemma PositionEnds(n: nat, limit: nat)
    requires limit >= 2 && n >= 1
    ensures Position(0, n, limit) == 0 && Position(limit - 1, n, limit) == n - 1
  {
    var m, d := n - 1, limit - 1;
    assert 0 * m == 0 && d * m == m * d;
    EuclidUnique(m * d, m, 0, d);
    EuclidUnique(0, 0, 0, d);
  }

  lemma QuotientAtLeastOne(m: nat, d: nat)
    requires d > 0 && m >= d
    ensures m / d >= 1
  {}

  lemma {:induction false} PositionsAscend(p: nat, q: nat, n: nat, limit: nat)
    requires n > limit >= 2 && p < q
    ensures Position(p, n, limit) < Position(q, n, limit)
    decreases q - p
  {
    Gap(q - 1, n, limit);
    QuotientAtLeastOne(n - 1, limit - 1);
    if p < q - 1 { PositionsAscend(p, q - 1, n, limit); }
  }

  function Chosen(n: nat, limit: nat): seq<int>
    requires limit >= 2 && n >= 1
  {
    seq(limit, p requires 0 <= p < limit => Position(p, n, limit))
  }

  lemma SortedPositions(n: nat, limit: nat)
    requires n > limit >= 2
    ensures StrictOrder(IntLess) && SortedSeq(Positions(n, limit), IntLess) == Chosen(n, limit)
  {
    IntOrder();
    var chosen := Chosen(n, limit);
    forall i, j | 0 <= i < j < limit ensures IntLess(chosen[i], chosen[j]) {
      PositionsAscend(i, j, n, limit);
    }
    forall x ensures x in chosen <==> x in Positions(n, limit) {
      if x in Positions(n, limit) {
        var p :| 0 <= p < limit && x == Position(p, n, limit);
        assert chosen[p] == x;
      }
    }
    AscendingUnique(chosen, SortedSeq(Positions(n, limit), IntLess), IntLess);
  }

  lemma ChosenEven(n: nat, limit: nat)
    requires n > limit >= 2
    ensures Even(Chosen(n, limit), n, limit)
  {
    PositionEnds(n, limit);
    var chosen := Chosen(n, limit);
    forall p | 0 <= p < limit - 1
      ensures var g := chosen[p + 1] - chosen[p];
        1 <= g && (g == (n - 1) / (limit - 1) || (g == (n - 1) / (limit - 1) + 1 && (n - 1) % (limit - 1) != 0))
    {
      Gap(p, n, limit);
      PositionsAscend(p, p + 1, n, limit);
    }
  }

  /** The sampling theorem: out of n > limit >= 2 items exactly `limit` are chosen, both ends among them,
      at strictly increasing places whose gaps are the floor or the ceiling of (n-1)/(limit-1). */
  lemma SampleIsEven<T>(ids: seq<T>, limit: nat)
    requires |ids| > limit >= 2
    ensures var chosen := Chosen(|ids|, limit);
      && Even(chosen, |ids|, limit)
      && (forall i | 0 <= i < limit :: 0 <= chosen[i] < |ids|)
      && |Sample(ids, limit)| == limit
      && (forall i | 0 <= i < limit :: Sample(ids, limit)[i] == ids[chosen[i]])
  {
    PositionsInRange(|ids|, limit);
    SortedPositions(|ids|, limit);
    ChosenEven(|ids|, limit);
    forall i | 0 <= i < limit ensures 0 <= Chosen(|ids|, limit)[i] < |ids| {
      PositionBound(i, |ids|, limit);
    }
  }

  ghost predicate Distinct<T>(s: seq<T>) {
    forall i, j :: 0 <= i < j < |s| ==> s[i] != s[j]
  }

  lemma ChosenAscends(n: nat, limit: nat)
    requires n > limit >= 2
    ensures Ascending(Chosen(n, limit), IntLess)
  {
    forall i, j | 0 <= i < j < limit ensures Chosen(n, limit)[i] < Chosen(n, limit)[j] {
      PositionsAscend(i, j, n, limit);
    }
  }

  /** Which ones are taken: the p-th sample is the item at p * (n - 1) / (limit - 1), rounded half to even. */
  lemma SampleIsRounded<T>(ids: seq<T>, limit: nat, p: nat)
    requires p < limit < |ids| && limit >= 2
    ensures |Sample(ids, limit)| == limit
    ensures exists r: nat :: r < |ids| && IsRounded(r, p * (|ids| - 1), limit - 1) && Sample(ids, limit)[p] == ids[r]
  {
    hide Sample, RoundHalfEven, IsRounded;
    SampleIsEven(ids, limit);
    TiesGoToEven(p * (|ids| - 1), limit - 1);
    assert Chosen(|ids|, limit)[p] == RoundHalfEven(p * (|ids| - 1), limit - 1);
  }

  /** A sample that need not drop anything is the list itself; a single sample is the one in the middle. */
  lemma SampleEdges<T>(ids: seq<T>, limit: nat)
    ensures |ids| <= limit ==> Sample(ids, limit) == ids
    ensures limit == 0 ==> Sample(ids, limit) == []
    ensures limit == 1 < |ids| ==> Sample(ids, limit) == [ids[|ids| / 2]]
  {}

  /** Distinct items stay distinct in the sample, so its set has min(n, limit) members. */
  lemma SampleSize<T>(ids: seq<T>, limit: nat)
    requires Distinct(ids) && limit >= 2
    ensures |Sample(ids, limit)| == if |ids| <= limit then |ids| else limit
    ensures Distinct(Sample(ids, limit))
    ensures forall x | x in Sample(ids, limit) :: x in ids
  {
    if |ids| > limit {
      hide Sample, Chosen, Even, Position;
      SampleIsEven(ids, limit);
      ChosenAscends(|ids|, limit);
      var chosen, sample := Chosen(|ids|, limit), Sample(ids, limit);
      forall i, j | 0 <= i < j < limit ensures sample[i] != sample[j] {
        assert IntLess(chosen[i], chosen[j]);
      }
    }
  }
}
