/** How often the tuner ticks: the spread of recent latencies stretches or shortens the interval. Latencies are reals,
    durations are whole nanoseconds. */
module TuningInterval {
  import opened Base

  // ---------------------------------------------------------------- averages and variances

  function Total(values: seq<real>): real {
    if values == [] then 0.0 else Total(values[..|values| - 1]) + values[|values| - 1]
  }

  function Times(x: real, y: real): real { x * y }

  function Square(x: real): real { Times(x, x) }

  /** The squared deviations from a, added up. */
  function Squares(values: seq<real>, a: real): real {
    if values == [] then 0.0 else
    var v := values[|values| - 1];
    Squares(values[..|values| - 1], a) + Square(v - a)
  }

  function Mean(values: seq<real>): real {
    if values == [] then 0.0 else Total(values) / |values| as real
  }

  function Variance(values: seq<real>): real {
    if |values| < 2 then 0.0 else Squares(values, Mean(values)) / |values| as real
  }

  ghost predicate AllEqualTo(values: seq<real>, a: real) {
    forall i :: 0 <= i < |values| ==> values[i] == a
  }

  lemma TimesPositive(x: real, y: real)
    requires x > 0.0 && y > 0.0
    ensures Times(x, y) > 0.0
  {
  }

  lemma TimesSigns(x: real, y: real)
    ensures Times(-x, -y) == Times(x, y) && Times(0.0, y) == 0.0
  {
  }

  lemma SquarePositive(x: real)
    ensures Square(x) >= 0.0 && (Square(x) == 0.0 <==> x == 0.0)
  {
    hide Times;
    TimesSigns(x, x);
    if x > 0.0 {
      TimesPositive(x, x);
    } else if x < 0.0 {
      TimesPositive(-x, -x);
    }
  }

  lemma {:induction false} SquaresSign(values: seq<real>, a: real)
    ensures Squares(values, a) >= 0.0 && (Squares(values, a) == 0.0 <==> AllEqualTo(values, a))
  {
    hide Square;
    if values != [] {
      SquaresSign(values[..|values| - 1], a);
      SquarePositive(values[|values| - 1] - a);
      if AllEqualTo(values[..|values| - 1], a) {
        forall i | 0 <= i < |values| - 1 ensures values[i] == a {
          assert values[i] == values[..|values| - 1][i];
        }
      }
    }
  }

  lemma {:induction false} TotalUniform(values: seq<real>, a: real)
    requires AllEqualTo(values, a)
    ensures Total(values) == |values| as real * a
  {
    if values != [] {
      TotalUniform(values[..|values| - 1], a);
    }
  }

  lemma Average(total: real, n: real)
    requires n > 0.0
    ensures n * (total / n) == total
  {
  }

  /** The variance is never negative, and for two or more values it is zero exactly when they all agree. */
  lemma VarianceSign(values: seq<real>)
    ensures Variance(values) >= 0.0
    ensures |values| >= 2 ==> (Variance(values) == 0.0 <==> AllEqualTo(values, values[0]))
  {
    if |values| >= 2 {
      var n := |values| as real;
      var s := Squares(values, Mean(values));
      SquaresSign(values, Mean(values));
      Average(s, n);
      assert s / n >= 0.0;
      if AllEqualTo(values, values[0]) {
        TotalUniform(values, values[0]);
        Average(Total(values), n);
        assert Mean(values) == values[0];
      }
      assert s == 0.0 ==> AllEqualTo(values, values[0]);
    }
  }

  lemma SquareOfDifference(v: real, a: real)
    ensures Square(v - a) == v * v - 2.0 * (a * v) + a * a
  {
  }

  lemma Distributes(a: real, b: real, c: real)
    ensures a * (b + c) == a * b + a * c && (b + c) * a == b * a + c * a
  {
  }

  function Expanded(zero: real, t: real, n: real, a: real): real {
    zero - 2.0 * (a * t) + n * (a * a)
  }

  lemma {:induction false} SquaresExpand(values: seq<real>, a: real)
    ensures Squares(values, a) == Expanded(Squares(values, 0.0), Total(values), |values| as real, a)
  {
    if values == [] {
      assert a * 0.0 == 0.0 && 0.0 * (a * a) == 0.0;
    } else {
      var n := |values| - 1;
      var v := values[n];
      SquaresExpand(values[..n], a);
      SquareOfDifference(v, a);
      SquareOfDifference(v, 0.0);
      Distributes(a, Total(values[..n]), v);
      Distributes(a * a, n as real, 1.0);
      assert |values| as real == n as real + 1.0;
    }
  }

  /** The mean is the point the values deviate from least: from any other, the squares grow by n times the squared
      distance. */
  lemma MeanIsCentre(values: seq<real>, a: real)
    ensures Squares(values, a) == Squares(values, Mean(values)) + |values| as real * ((a - Mean(values)) * (a - Mean(values)))
  {
    hide Expanded, Squares;
    var n, m, t := |values| as real, Mean(values), Total(values);
    MeanTimesCount(values);
    SquaresExpand(values, a);
    SquaresExpand(values, m);
    hide *;
    CentreCombines(n, m, t, a, Squares(values, 0.0), Squares(values, a), Squares(values, m));
  }

  lemma MeanTimesCount(values: seq<real>)
    ensures Total(values) == |values| as real * Mean(values)
  {
    if values != [] {
      Average(Total(values), |values| as real);
    } else {
      assert 0.0 * 0.0 == 0.0;
    }
  }

  lemma CentreCombines(n: real, m: real, t: real, a: real, zero: real, fromA: real, fromM: real)
    requires t == n * m
    requires fromA == Expanded(zero, t, n, a) && fromM == Expanded(zero, t, n, m)
    ensures fromA == fromM + n * ((a - m) * (a - m))
  {
    CentreArithmetic(n, m, t, a);
  }

  lemma CentreArithmetic(n: real, m: real, t: real, a: real)
    requires t == n * m
    ensures n * (a * a) - 2.0 * (a * t) == n * (m * m) - 2.0 * (m * t) + n * ((a - m) * (a - m))
  {
    SquareOfDifference(a, m);
    Distributes(n, a * a - 2.0 * (m * a), m * m);
    Distributes(n, a * a, -2.0 * (m * a));
    assert n * (-2.0 * (m * a)) == -2.0 * (a * t);
    assert m * t == n * (m * m);
  }

  /** The variance is the mean of the squares less the square of the mean. */
  lemma VarianceOfSquares(values: seq<real>)
    requires |values| >= 2
    ensures |values| as real * Variance(values) == Squares(values, 0.0) - |values| as real * (Mean(values) * Mean(values))
  {
    var n, m := |values| as real, Mean(values);
    MeanIsCentre(values, 0.0);
    Average(Squares(values, m), n);
    assert Variance(values) == Squares(values, m) / n;
    hide *;
    ZeroCentre(n, m, Squares(values, 0.0), Squares(values, m));
  }

  lemma ZeroCentre(n: real, m: real, fromZero: real, fromMean: real)
    requires fromZero == fromMean + n * ((0.0 - m) * (0.0 - m))
    ensures fromMean == fromZero - n * (m * m)
  {
    SquareOfDifference(0.0, m);
    assert (0.0 - m) * (0.0 - m) == m * m;
  }

  // ---------------------------------------------------------------- the interval

  const MINUTE: int := 60_000_000_000
  const SECOND: int := 1_000_000_000

  function Shortened(base: int): int { if base / 2 < 5 * MINUTE then 5 * MINUTE else base / 2 }

  function Stretched(base: int): int { if base * 3 / 2 > 15 * MINUTE then 15 * MINUTE else base * 3 / 2 }

  function WantedInterval(base: int, history: seq<real>): int {
    if Variance(history) > Mean(history) * 0.3 then Shortened(base)
    else if Variance(history) < Mean(history) * 0.1 then Stretched(base)
    else base
  }

  datatype Pace = Pace(current: int, history: seq<real>)

  function Remember(history: seq<real>, latency: real): seq<real> {
    var h := history + [latency];
    if |h| > 10 then h[1..] else h
  }

  function AdjustPace(base: int, p: Pace, latency: Option<real>): Pace {
    if latency.None? then p else
    var h := Remember(p.history, latency.value);
    var wanted := WantedInterval(base, h);
    Pace(if |h| >= 3 && Distance(p.current, wanted) > 5 * SECOND then wanted else p.current, h)
  }

  function RunPace(base: int, p: Pace, ls: seq<Option<real>>): Pace {
    if ls == [] then p else AdjustPace(base, RunPace(base, p, ls[..|ls| - 1]), ls[|ls| - 1])
  }

  function Successes(ls: seq<Option<real>>): seq<real> {
    if ls == [] then [] else
    Successes(ls[..|ls| - 1]) + if ls[|ls| - 1].Some? then [ls[|ls| - 1].value] else []
  }

  function LastTen(s: seq<real>): seq<real> { if |s| > 10 then s[|s| - 10..] else s }

  lemma RememberLast(s: seq<real>, latency: real)
    ensures Remember(LastTen(s), latency) == LastTen(s + [latency])
  {
  }

  /** Over every run the history is the last ten successful latencies. */
  lemma {:induction false} RunRemembers(base: int, start: int, ls: seq<Option<real>>)
    ensures RunPace(base, Pace(start, []), ls).history == LastTen(Successes(ls))
  {
    if ls != [] {
      var last := ls[|ls| - 1];
      RunRemembers(base, start, ls[..|ls| - 1]);
      if last.Some? {
        RememberLast(Successes(ls[..|ls| - 1]), last.value);
      } else {
        assert Successes(ls) == Successes(ls[..|ls| - 1]);
      }
    }
  }

  /** Over every run the interval is the base, its shortened or its stretched form, hence within bounds. */
  lemma {:induction false} RunInterval(base: int, ls: seq<Option<real>>)
    requires base > 0
    ensures var current := RunPace(base, Pace(base, []), ls).current;
            && (current == base || current == Shortened(base) || current == Stretched(base))
            && (if base < 5 * MINUTE then base else 5 * MINUTE) <= current
            && current <= (if base > 15 * MINUTE then base else 15 * MINUTE)
  {
    hide Variance, Mean;
    if ls != [] {
      RunInterval(base, ls[..|ls| - 1]);
    }
  }

  /** Right after a success with three or more latencies known, the interval is within five seconds of what the last ten
      latencies ask for. */
  lemma RunTracks(base: int, start: int, ls: seq<Option<real>>)
    requires ls != [] && ls[|ls| - 1].Some? && |Successes(ls)| >= 3
    ensures Distance(RunPace(base, Pace(start, []), ls).current, WantedInterval(base, LastTen(Successes(ls)))) <= 5 * SECOND
  {
    hide WantedInterval;
    RunRemembers(base, start, ls);
  }

  /** An unstable network shortens the interval only above five minutes, and a stable one lengthens it only below
      fifteen; outside, the limits turn the adjustment around. */
  lemma AdjustmentsTurnAround(base: int)
    requires base > 1
    ensures Shortened(base) < base <==> base > 5 * MINUTE
    ensures Stretched(base) > base <==> base < 15 * MINUTE
    ensures Shortened(base) > base <==> base < 5 * MINUTE
    ensures Stretched(base) < base <==> base > 15 * MINUTE
  {
  }

  /** With equal latencies above zero the network is stable. */
  lemma SteadyLatencyStretches(base: int, history: seq<real>)
    requires |history| >= 2 && AllEqualTo(history, history[0]) && history[0] > 0.0
    ensures WantedInterval(base, history) == Stretched(base)
  {
    VarianceSign(history);
    TotalUniform(history, history[0]);
    Average(Total(history), |history| as real);
    assert Mean(history) == history[0];
  }

  /** The two adjusted intervals: half the base from ten minutes on, half as much again up to ten minutes, and else the limits
      of five and fifteen minutes. */
  lemma AdjustedIntervals(base: int)
    requires base > 0
    ensures if base >= 10 * MINUTE then base - 1 <= 2 * Shortened(base) <= base else Shortened(base) == 5 * MINUTE
    ensures if base <= 10 * MINUTE then 3 * base - 1 <= 2 * Stretched(base) <= 3 * base else Stretched(base) == 15 * MINUTE
  {
  }

  /** Which interval is wanted: the short one when the variance exceeds three tenths of the average, the long one when it is
      below one tenth, the base in between. */
  lemma SpreadDecides(base: int, history: seq<real>)
    requires Mean(history) >= 0.0
    ensures 10.0 * Variance(history) > 3.0 * Mean(history) ==> WantedInterval(base, history) == Shortened(base)
    ensures 10.0 * Variance(history) < Mean(history) ==> WantedInterval(base, history) == Stretched(base)
    ensures Mean(history) <= 10.0 * Variance(history) <= 3.0 * Mean(history) ==> WantedInterval(base, history) == base
  {
    hide Mean, Variance;
  }

  /** The interval changes only on a success that leaves three or more latencies known and wants one over five seconds away,
      and then to that. */
  lemma IntervalChanges(base: int, p: Pace, latency: Option<real>)
    ensures var h := if latency.Some? then Remember(p.history, latency.value) else p.history;
            var wanted := WantedInterval(base, h);
            AdjustPace(base, p, latency).current
            == if latency.Some? && |h| >= 3 && (wanted - p.current > 5_000_000_000 || p.current - wanted > 5_000_000_000) then wanted
               else p.current
  {
    hide WantedInterval;
  }
}
