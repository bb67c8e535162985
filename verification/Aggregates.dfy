/**
 Counter and metric aggregation (packages/sdk-node/src/event-buffer.ts), and the broker's check on
 the metric events it produces (packages/broker/src/index.ts). Sums and products are rounded, by a
 rounding that is a parameter, because the check turns on it.
 */
module Aggregates {
  import opened Doubles

  type ProbeId = nat

  datatype Metric = Metric(count: nat, sum: real, min: real, max: real, last: real)

  /** The aggregate of a non-empty series of finite values. */
  function Summary(values: seq<real>, round: real -> real): Metric
    requires values != []
  {
    var v := values[|values| - 1];
    if |values| == 1 then Metric(1, v, v, v, v)
    else Extend(Summary(values[..|values| - 1], round), v, round)
  }

  function Extend(m: Metric, v: real, round: real -> real): Metric {
    Metric(m.count + 1, round(m.sum + v), if v < m.min then v else m.min, if v > m.max then v else m.max, v)
  }

  function Times(x: real, n: nat): real {
    x * n as real
  }

  /** What `ingest` demands of a metric event. */
  predicate Consistent(m: Metric, round: real -> real) {
    !(m.sum < round(Times(m.min, m.count)) || m.sum > round(Times(m.max, m.count)))
  }

  lemma SummaryExtends(values: seq<real>, v: real, round: real -> real)
    requires values != []
    ensures Summary(values + [v], round) == Extend(Summary(values, round), v, round)
  {
    assert (values + [v])[..|values|] == values;
  }

  lemma {:induction false} SummaryBounds(values: seq<real>, round: real -> real)
    requires values != []
    ensures var m := Summary(values, round);
      && m.count == |values| && m.last == values[|values| - 1]
      && (forall v | v in values :: m.min <= v <= m.max)
      && m.min in values && m.max in values
  {
    if |values| > 1 {
      var front := values[..|values| - 1];
      SummaryBounds(front, round);
      assert forall v :: v in values <==> v in front || v == values[|values| - 1];
    }
  }

  /** The partial sums of a series, each rounded, from left to right. */
  ghost predicate PartialSums(values: seq<real>, round: real -> real, sums: seq<real>) {
    && |sums| == |values| && (values != [] ==> sums[0] == values[0])
    && forall i | 0 < i < |values| :: sums[i] == round(sums[i - 1] + values[i])
  }

  /** The sum is the last of the rounded partial sums. */
  lemma {:induction false} SumIsRoundedAlongTheWay(values: seq<real>, round: real -> real) returns (sums: seq<real>)
    requires values != []
    ensures PartialSums(values, round, sums) && Summary(values, round).sum == sums[|values| - 1]
    decreases |values|
  {
    if |values| == 1 {
      sums := values;
    } else {
      var front := values[..|values| - 1];
      var before := SumIsRoundedAlongTheWay(front, round);
      sums := before + [Summary(values, round).sum];
      assert forall i | 0 <= i < |front| :: values[i] == front[i];
    }
  }

  /** The exact sum of a series. */
  function Total(values: seq<real>): real {
    if values == [] then 0.0 else Total(values[..|values| - 1]) + values[|values| - 1]
  }

  // ---- Ten times a tenth ----

  /** The spacing of doubles around one tenth, and one tenth as a double. */
  ghost function Unit(): real {
    Pow2(-56)
  }

  const TENTH_UNITS: int := 7205759403792794

  ghost function Units(n: int): real {
    n as real * Unit()
  }

  lemma UnitIs()
    ensures Unit() * 72057594037927936.0 == 1.0
  {
    DoubledIs(1, 56);
    DoubledOne();
    assert Doubled(4503599627370496, 4) == 72057594037927936;
    hide Doubled;
    DoubledSplit(1, 52, 4);
  }

  /** The spacings from one tenth to one. */
  lemma Spacings()
    ensures Pow2(-55) == Units(2) && Pow2(-54) == Units(4) && Pow2(-53) == Units(8) && Pow2(-52) == Units(16)
  {
    Pow2Up(-56);
    Pow2Up(-55);
    Pow2Up(-54);
    Pow2Up(-53);
  }

  lemma UnitsSpaced(n: int, c: int, e: int)
    requires c > 0 && e >= -1074 && Pow2(e) == Units(c)
    requires 4503599627370496 * c <= n < 9007199254740992 * c
    ensures SpacedBy(Units(n), e)
  {
    Positive(-56);
    hide Pow2;
    Scaled((4503599627370496 * c) as real, n as real, (9007199254740992 * c) as real, Unit());
    assert 4503599627370496.0 * Pow2(e) == (4503599627370496 * c) as real * Unit();
    assert 9007199254740992.0 * Pow2(e) == (9007199254740992 * c) as real * Unit();
  }

  /** How far apart two numbers of units are. */
  function Distance(n: int, m: int): nat {
    if n < m then m - n else n - m
  }

  /** `t` is the number of units nearest to `n` among the multiples of `c`, the even one of two. */
  predicate Nearby(n: int, c: int, m: int, t: int) {
    t == m * c && (2 * Distance(n, t) < c || (2 * Distance(n, t) == c && m % 2 == 0))
  }

  lemma UnitsApart(n: int, t: int)
    ensures 2.0 * Abs(Units(n) - Units(t)) == Units(2 * Distance(n, t))
  {
    Positive(-56);
    hide Pow2;
    assert n as real * Unit() - t as real * Unit() == (n - t) as real * Unit();
    assert Distance(n, t) as real * Unit() >= 0.0;
  }

  lemma UnitsOrdered(a: int, b: int)
    requires a < b
    ensures Units(a) < Units(b)
  {
    Positive(-56);
    hide Pow2;
    assert (b - a) as real * Unit() > 0.0;
  }

  lemma UnitsMultiple(c: int, e: int, m: int)
    requires Pow2(e) == Units(c)
    ensures Multiple(m, e) == Units(m * c)
  {
    hide Pow2;
    assert m as real * (c as real * Unit()) == (m * c) as real * Unit();
  }

  lemma UnitsNearest(n: int, c: int, e: int, m: int, t: int)
    requires Pow2(e) == Units(c) && Nearby(n, c, m, t)
    ensures IsNearest(Units(n), e, m) && Multiple(m, e) == Units(t)
  {
    UnitsApart(n, t);
    UnitsMultiple(c, e, m);
    if 2 * Distance(n, t) < c { UnitsOrdered(2 * Distance(n, t), c); }
    hide Pow2, Multiple, Units, Distance;
  }

  /** A result of `n` units, in a range where doubles are `c` units apart, is rounded to the nearest multiple. */
  lemma RoundUnits(round: real -> real, n: int, c: int, e: int, m: int, t: int)
    requires IsRounding(round) && c > 0 && e >= -1074 && Pow2(e) == Units(c)
    requires 4503599627370496 * c <= n < 9007199254740992 * c && Nearby(n, c, m, t)
    ensures round(Units(n)) == Units(t)
  {
    UnitsSpaced(n, c, e);
    UnitsNearest(n, c, e, m, t);
    hide SpacedBy, Pow2, Multiple, Units, IsNearest, Nearby;
  }

  ghost function Tenths(k: nat): seq<real> {
    seq(k, _ => Units(TENTH_UNITS))
  }

  /** The aggregate of `k` tenths whose running sum is `n` units. */
  ghost predicate SumsTo(k: nat, n: int, round: real -> real) {
    var tenth := Units(TENTH_UNITS);
    k > 0 && Summary(Tenths(k), round) == Metric(k, Units(n), tenth, tenth, tenth)
  }

  lemma UnitsAdd(n: int, m: int)
    ensures Units(n) + Units(m) == Units(n + m)
  {
    hide Pow2;
  }

  /** One more tenth: the exact sum, and what it is rounded to. */
  lemma AddTenth(round: real -> real, k: nat, n: int, c: int, e: int, m: int, t: int)
    requires SumsTo(k, n, round) && IsRounding(round) && c > 0 && e >= -1074 && Pow2(e) == Units(c)
    requires 4503599627370496 * c <= n + TENTH_UNITS < 9007199254740992 * c && Nearby(n + TENTH_UNITS, c, m, t)
    ensures SumsTo(k + 1, t, round)
  {
    RoundUnits(round, n + TENTH_UNITS, c, e, m, t);
    UnitsAdd(n, TENTH_UNITS);
    SummaryExtends(Tenths(k), Units(TENTH_UNITS), round);
    assert Tenths(k + 1) == Tenths(k) + [Units(TENTH_UNITS)];
    hide IsRounding, Pow2, Units, Summary, Nearby;
  }

  /** One tenth as a double. */
  lemma TenthIsRounded(round: real -> real)
    requires IsRounding(round)
    ensures round(0.1) == Units(TENTH_UNITS)
  {
    UnitIs();
    Positive(-56);
    hide Pow2;
    assert SpacedBy(0.1, -56);
    assert IsNearest(0.1, -56, TENTH_UNITS);
  }

  lemma UpToFour(round: real -> real)
    requires IsRounding(round)
    ensures SumsTo(4, 28823037615171176, round)
  {
    Spacings();
    assert SumsTo(1, TENTH_UNITS, round);
    hide IsRounding, Pow2, Units, SumsTo;
    AddTenth(round, 1, 7205759403792794, 2, -55, 7205759403792794, 14411518807585588);
    AddTenth(round, 2, 14411518807585588, 4, -54, 5404319552844596, 21617278211378384);
    AddTenth(round, 3, 21617278211378384, 4, -54, 7205759403792794, 28823037615171176);
  }

  lemma UpToSeven(round: real -> real)
    requires IsRounding(round)
    ensures SumsTo(7, 50440315826549552, round)
  {
    Spacings();
    UpToFour(round);
    hide IsRounding, Pow2, Units, SumsTo;
    AddTenth(round, 4, 28823037615171176, 8, -53, 4503599627370496, 36028797018963968);
    AddTenth(round, 5, 36028797018963968, 8, -53, 5404319552844595, 43234556422756760);
    AddTenth(round, 6, 43234556422756760, 8, -53, 6305039478318694, 50440315826549552);
  }

  lemma TenTenths(round: real -> real)
    requires IsRounding(round)
    ensures SumsTo(10, 72057594037927928, round)
  {
    Spacings();
    UpToSeven(round);
    hide IsRounding, Pow2, Units, SumsTo;
    AddTenth(round, 7, 50440315826549552, 8, -53, 7205759403792793, 57646075230342344);
    AddTenth(round, 8, 57646075230342344, 8, -53, 8106479329266892, 64851834634135136);
    AddTenth(round, 9, 64851834634135136, 8, -53, 9007199254740991, 72057594037927928);
  }

  /**
   Ten recorded values of 0.1 make an event that the broker refuses: their running sum is less than
   one, and ten times the least of them is one.
   */
  lemma TenTenthsAreRefused(round: real -> real)
    requires IsRounding(round)
    ensures var m := Summary(seq(10, _ => round(0.1)), round);
      m.sum < 1.0 && round(Times(m.min, m.count)) == 1.0 && !Consistent(m, round)
  {
    TenthIsRounded(round);
    TenTenths(round);
    assert seq(10, _ => round(0.1)) == Tenths(10);
    Spacings();
    RoundUnits(round, 72057594037927940, 16, -52, 4503599627370496, 72057594037927936);
    UnitIs();
    Positive(-56);
    hide Pow2, Summary, IsRounding;
    assert Times(Units(TENTH_UNITS), 10) == Units(72057594037927940);
    assert Units(72057594037927936) == 1.0;
  }

  // ---- Whole values ----

  predicate IsWhole(v: real) {
    v == v.Floor as real
  }

  /** Whole values of magnitude at most `bound`. */
  ghost predicate WholeSeries(values: seq<real>, bound: nat) {
    forall v | v in values :: IsWhole(v) && 0 <= v.Floor + bound && v.Floor <= bound
  }

  lemma ScaleUp(x: real, y: real, n: nat)
    requires x <= y
    ensures Times(x, n) <= Times(y, n)
  {
    assert (y - x) * n as real >= 0.0;
  }

  lemma OneMore(x: real, n: nat)
    ensures Times(x, n + 1) == Times(x, n) + x
  {
  }

  lemma WholeAdds(a: real, b: real, p: int, q: int)
    requires IsWhole(a) && IsWhole(b) && -p <= a.Floor <= p && -q <= b.Floor <= q
    ensures IsWhole(a + b) && -(p + q) <= (a + b).Floor <= p + q
  {
    assert a + b == (a.Floor + b.Floor) as real;
  }

  lemma MulMono(k: nat, n: nat, bound: nat)
    requires k <= n
    ensures k * bound <= n * bound
  {
  }

  /** The running sum of a series that never leaves the exact range is the exact sum. */
  lemma {:induction false} WholeSum(values: seq<real>, bound: nat, round: real -> real)
    requires values != [] && WholeSeries(values, bound) && |values| * bound <= MAX_EXACT && IsRounding(round)
    ensures var m := Summary(values, round);
      && m.sum == Total(values) && IsWhole(m.sum) && -(|values| * bound) <= m.sum.Floor <= |values| * bound
      && Times(m.min, m.count) <= m.sum <= Times(m.max, m.count)
    decreases |values|
  {
    var v := values[|values| - 1];
    assert v in values;
    if |values| == 1 {
      OneMore(v, 0);
      assert values[..0] == [];
    } else {
      var front := values[..|values| - 1];
      MulMono(|front|, |values|, bound);
      WholeSum(front, bound, round);
      var m := Summary(front, round);
      SumStep(m, v, |front|, bound, round);
      assert |front| * bound + bound == |values| * bound;
      hide IsWhole, Times, IsRounding, WholeSeries;
    }
  }

  lemma SumStep(m: Metric, v: real, n: nat, bound: nat, round: real -> real)
    requires IsRounding(round) && IsWhole(m.sum) && -(n * bound) <= m.sum.Floor <= n * bound
    requires IsWhole(v) && 0 <= v.Floor + bound && v.Floor <= bound && n * bound + bound <= MAX_EXACT
    requires Times(m.min, m.count) <= m.sum <= Times(m.max, m.count)
    ensures var e := Extend(m, v, round);
      && e.sum == m.sum + v && IsWhole(e.sum) && -(n * bound + bound) <= e.sum.Floor <= n * bound + bound
      && Times(e.min, e.count) <= e.sum <= Times(e.max, e.count)
  {
    WholeAdds(m.sum, v, n * bound, bound);
    WholeIsExact(round, (m.sum + v).Floor);
    hide IsRounding;
    var e := Extend(m, v, round);
    ScaleUp(e.min, m.min, m.count);
    ScaleUp(m.max, e.max, m.count);
    OneMore(e.min, m.count);
    OneMore(e.max, m.count);
    hide Times;
  }

  lemma ProductIsExact(x: real, n: nat, bound: nat, round: real -> real)
    requires IsRounding(round) && IsWhole(x) && 0 <= x.Floor + bound && x.Floor <= bound && n * bound <= MAX_EXACT
    ensures round(Times(x, n)) == Times(x, n)
  {
    var k := x.Floor;
    assert Times(x, n) == (k * n) as real;
    assert -(n * bound) <= k * n <= n * bound by {
      assert (bound - k) * n >= 0 && (bound + k) * n >= 0;
    }
    WholeIsExact(round, k * n);
  }

  /** Whole values that cannot sum beyond 2^53 never make an event that the broker refuses. */
  lemma WholeSeriesAreConsistent(values: seq<real>, bound: nat, round: real -> real)
    requires values != [] && WholeSeries(values, bound) && |values| * bound <= MAX_EXACT && IsRounding(round)
    ensures Consistent(Summary(values, round), round)
  {
    var m := Summary(values, round);
    WholeSum(values, bound, round);
    SummaryBounds(values, round);
    ProductIsExact(m.min, m.count, bound, round);
    ProductIsExact(m.max, m.count, bound, round);
  }

  // ---- The buffer ----

  datatype Value = Finite(v: real) | NotFinite

  class AggregateBuffer {
    const round: real -> real
    var counters: map<ProbeId, nat>
    var metrics: map<ProbeId, Metric>
    ghost var recorded: map<ProbeId, seq<real>>

    /** Every aggregate summarises what was recorded since the last flush. */
    ghost predicate Valid()
      reads this
    {
      && metrics.Keys == recorded.Keys
      && forall p | p in metrics :: recorded[p] != [] && metrics[p] == Summary(recorded[p], round)
    }

    constructor (round: real -> real)
      ensures Valid() && this.round == round && counters == map[] && recorded == map[]
    {
      this.round := round;
      counters, metrics, recorded := map[], map[], map[];
    }

    method IncrementCounter(p: ProbeId)
      requires Valid()
      modifies this
      ensures Valid() && recorded == old(recorded)
      ensures counters == old(counters)[p := (if p in old(counters) then old(counters)[p] else 0) + 1]
    {
      counters := counters[p := (if p in counters then counters[p] else 0) + 1];
    }

    method RecordMetric(p: ProbeId, value: Value)
      requires Valid()
      modifies this
      ensures Valid() && counters == old(counters)
      ensures recorded == if value.NotFinite? then old(recorded)
        else old(recorded)[p := (if p in old(recorded) then old(recorded)[p] else []) + [value.v]]
    {
      if value.NotFinite? { return; }
      var v := value.v;
      if p !in metrics {
        Put(p, Metric(1, v, v, v, v), [v]);
        assert [v] == [] + [v];
      } else {
        var m := metrics[p];
        SummaryExtends(recorded[p], v, round);
        Put(p, Metric(m.count + 1, round(m.sum + v), if v < m.min then v else m.min, if v > m.max then v else m.max, v),
            recorded[p] + [v]);
      }
    }

    method Put(p: ProbeId, m: Metric, ghost series: seq<real>)
      requires Valid() && series != [] && m == Summary(series, round)
      modifies this`metrics, this`recorded
      ensures Valid() && recorded == old(recorded)[p := series]
    {
      hide Summary;
      metrics := metrics[p := m];
      recorded := recorded[p := series];
    }

    /** Hands everything over and starts again empty; zero counters are not reported. */
    method Flush() returns (deltas: map<ProbeId, nat>, series: map<ProbeId, Metric>)
      requires Valid()
      modifies this
      ensures Valid() && counters == map[] && recorded == map[]
      ensures forall p :: p in deltas <==> p in old(counters) && old(counters)[p] > 0
      ensures forall p | p in deltas :: deltas[p] == old(counters)[p]
      ensures series.Keys == old(recorded).Keys
      ensures forall p | p in series :: old(recorded)[p] != [] && series[p] == Summary(old(recorded)[p], round)
    {
      deltas := map p | p in counters && counters[p] > 0 :: counters[p];
      series := metrics;
      counters, metrics, recorded := map[], map[], map[];
    }
  }
}
