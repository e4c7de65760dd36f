/** The trust-metrics engine: sub-scores of a batch of resolved predictions (Brier score, log loss,
    reliability-diagram calibration, recency) and the composite trust score built from them. */
module TrustMetrics {
  import opened Common

  /** One microsecond is the unit of every timestamp; a day is this many of them. */
  const DAY: int := 86_400_000_000
  /** The recency window, in days, that the composite score uses. */
  const RECENCY_DAYS: int := 30
  /** The number of reliability-diagram bins that the composite score uses. */
  const CALIBRATION_BINS: nat := 10
  /** Log loss clips probabilities to [EPS, 1 - EPS]; EPS is 1e-15. */
  const EPS: real := 1.0 / 1_000_000_000_000_000.0

  /** A `created_at` cell: text as read from SQLite, or a parsed instant in microseconds. */
  datatype Stamp = Text(text: string) | Instant(micros: int)

  /** One row of the predictions frame. */
  datatype Prediction = Prediction(probability: real, isCorrect: bool, confidence: real, createdAt: Stamp)

  /** A decay weight `exp(-d / days)` is some positive real. */
  type Weight = r: real | r > 0.0 witness 1.0

  /** The foreign operations one calculation depends on: the clock (read once), the decay weight of
      a day count, `pd.to_datetime` on one text cell, and the natural logarithm. */
  datatype Env = Env(now: int, decay: int -> Weight, parse: string -> Option<int>, ln: real -> real)

  /** `is_correct.astype(int)`. */
  function Indicator(b: bool): real
  {
    if b then 1.0 else 0.0
  }

  predicate ValidProbabilities(rows: seq<Prediction>)
  {
    forall i | 0 <= i < |rows| :: 0.0 <= rows[i].probability <= 1.0
  }

  // ---------------------------------------------------------------- Brier score

  /** Sum of squared differences between each probability and its 0/1 outcome. */
  function SquaredErrors(rows: seq<Prediction>): real
  {
    if |rows| == 0 then 0.0
    else
      var last := rows[|rows| - 1];
      var d := last.probability - Indicator(last.isCorrect);
      SquaredErrors(rows[..|rows| - 1]) + d * d
  }

  lemma SquareBounds(d: real)
    ensures d * d >= 0.0
    ensures -1.0 <= d <= 1.0 ==> d * d <= 1.0
  {
    if d >= 0.0 {
      assert d <= 1.0 ==> d * d <= d * 1.0;
    } else {
      assert d >= -1.0 ==> d * d <= (-d) * 1.0;
    }
  }

  lemma {:induction false} SquaredErrorsBounds(rows: seq<Prediction>)
    ensures SquaredErrors(rows) >= 0.0
    ensures ValidProbabilities(rows) ==> SquaredErrors(rows) <= |rows| as real
  {
    if |rows| > 0 {
      var init := rows[..|rows| - 1];
      SquaredErrorsBounds(init);
      var last := rows[|rows| - 1];
      SquareBounds(last.probability - Indicator(last.isCorrect));
      assert ValidProbabilities(rows) ==> ValidProbabilities(init) by {
        assert forall i | 0 <= i < |init| :: init[i] == rows[i];
      }
    }
  }

  /** `calculate_brier_score`: 1.0 for no rows, else the mean squared error. */
  function BrierScore(rows: seq<Prediction>): (r: real)
    ensures |rows| == 0 ==> r == 1.0
    ensures |rows| > 0 ==> r * |rows| as real == SquaredErrors(rows)
  {
    if |rows| == 0 then 1.0 else SquaredErrors(rows) / |rows| as real
  }

  /** With every probability in [0, 1] the Brier score lies in [0, 1]. */
  lemma BrierBounds(rows: seq<Prediction>)
    requires ValidProbabilities(rows)
    ensures 0.0 <= BrierScore(rows) <= 1.0
  {
    SquaredErrorsBounds(rows);
  }

  /** Every probability equals its 0/1 outcome. */
  predicate Exact(rows: seq<Prediction>)
  {
    forall i | 0 <= i < |rows| :: rows[i].probability == Indicator(rows[i].isCorrect)
  }

  /** Every probability is the opposite of its 0/1 outcome. */
  predicate Opposite(rows: seq<Prediction>)
  {
    forall i | 0 <= i < |rows| :: rows[i].probability == 1.0 - Indicator(rows[i].isCorrect)
  }

  /** The range is tight: a perfect forecaster scores 0, */
  lemma {:induction false} BrierOfExact(rows: seq<Prediction>)
    requires |rows| > 0 && Exact(rows)
    ensures BrierScore(rows) == 0.0
  {
    SquaredErrorsOfPattern(rows, 0.0);
  }

  /** and a forecaster that is always certain and always wrong scores 1. */
  lemma {:induction false} BrierOfOpposite(rows: seq<Prediction>)
    requires |rows| > 0 && Opposite(rows)
    ensures BrierScore(rows) == 1.0
  {
    SquaredErrorsOfPattern(rows, 1.0);
  }

  /** When every row misses by the same constant magnitude (0 or 1), the squared errors add up to
      that constant per row. */
  lemma {:induction false} SquaredErrorsOfPattern(rows: seq<Prediction>, c: real)
    requires c == 0.0 || c == 1.0
    requires c == 0.0 ==> Exact(rows)
    requires c == 1.0 ==> Opposite(rows)
    ensures SquaredErrors(rows) == c * |rows| as real
  {
    if |rows| > 0 {
      var init := rows[..|rows| - 1];
      assert forall i | 0 <= i < |init| :: init[i] == rows[i];
      SquaredErrorsOfPattern(init, c);
      var last := rows[|rows| - 1];
      var d := last.probability - Indicator(last.isCorrect);
      if c == 0.0 {
        assert d == 0.0;
      } else {
        assert d == 1.0 || d == -1.0;
      }
    }
  }

  // ---------------------------------------------------------------- log loss

  /** Log loss of no rows is +infinity; otherwise a finite value. */
  datatype Loss = Infinite | Finite(value: real)

  /** `np.clip(p, 1e-15, 1 - 1e-15)`. */
  function Clip(p: real): (r: real)
    ensures EPS <= r <= 1.0 - EPS
    ensures EPS <= p <= 1.0 - EPS ==> r == p
    ensures p < EPS ==> r == EPS
    ensures p > 1.0 - EPS ==> r == 1.0 - EPS
  {
    if p < EPS then EPS else if p > 1.0 - EPS then 1.0 - EPS else p
  }

  /** Sum over the rows of `o * ln(p) + (1 - o) * ln(1 - p)` on clipped probabilities. */
  function LogTerms(rows: seq<Prediction>, ln: real -> real): real
  {
    if |rows| == 0 then 0.0
    else
      var last := rows[|rows| - 1];
      var p := Clip(last.probability);
      var o := Indicator(last.isCorrect);
      LogTerms(rows[..|rows| - 1], ln) + (o * ln(p) + (1.0 - o) * ln(1.0 - p))
  }

  /** `calculate_log_loss`: +infinity exactly for an empty batch, else minus the mean log term. */
  function LogLoss(rows: seq<Prediction>, ln: real -> real): (r: Loss)
    ensures r.Infinite? <==> |rows| == 0
    ensures r.Finite? ==> r.value * |rows| as real == -LogTerms(rows, ln)
  {
    if |rows| == 0 then Infinite else Finite(-LogTerms(rows, ln) / |rows| as real)
  }

  // ---------------------------------------------------------------- calibration

  /** `np.linspace(0, 1, bins + 1)[i]`, taken as the exact rational i / bins. */
  function Edge(i: int, bins: nat): real
    requires bins > 0
  {
    i as real / bins as real
  }

  /** The probability `p` falls in bin `i`: [edge i, edge i+1), the last bin closed at 1. */
  predicate InBin(p: real, i: nat, bins: nat)
  {
    && i < bins
    && Edge(i, bins) <= p
    && (p < Edge(i + 1, bins) || (i == bins - 1 && p <= Edge(i + 1, bins)))
  }

  lemma DivMonotone(a: real, b: real, c: real)
    requires c > 0.0 && a <= b
    ensures a / c <= b / c
  {
    assert b / c - a / c == (b - a) / c;
  }

  lemma DivStrict(a: real, b: real, c: real)
    requires c > 0.0 && a < b
    ensures a / c < b / c
  {
    assert b / c - a / c == (b - a) / c;
  }

  lemma DivSelf(c: real)
    requires c > 0.0
    ensures c / c == 1.0
  {
  }

  /** `x <= p * c` gives `x / c <= p`, and `p * c < x` gives `p < x / c`. */
  lemma DivBelow(x: real, p: real, c: real)
    requires c > 0.0
    ensures x <= p * c ==> x / c <= p
    ensures p * c < x ==> p < x / c
  {
    assert (p * c) / c == p;
    if x <= p * c {
      DivMonotone(x, p * c, c);
    }
    if p * c < x {
      DivStrict(p * c, x, c);
    }
  }

  lemma EdgeMonotone(a: nat, b: nat, bins: nat)
    requires bins > 0 && a <= b
    ensures Edge(a, bins) <= Edge(b, bins)
  {
    DivMonotone(a as real, b as real, bins as real);
  }

  /** The bin a probability in [0, 1] falls in. */
  function BinIndex(p: real, bins: nat): (i: nat)
    requires bins > 0 && 0.0 <= p <= 1.0
    ensures i < bins
  {
    if p == 1.0 then bins - 1
    else
      var k := (p * bins as real).Floor;
      if k < 0 then 0 else if k >= bins then bins - 1 else k
  }

  /** Every probability in [0, 1] falls in the bin `BinIndex` names. */
  lemma BinIndexInBin(p: real, bins: nat)
    requires bins > 0 && 0.0 <= p <= 1.0
    ensures InBin(p, BinIndex(p, bins), bins)
  {
    if p == 1.0 {
      EdgeMonotone(bins - 1, bins, bins);
      assert Edge(bins, bins) == 1.0;
    } else {
      FloorBin(p, bins);
    }
  }

  /** Below 1, the bin is the integer part of `p * bins`. */
  lemma FloorBin(p: real, bins: nat)
    requires bins > 0 && 0.0 <= p < 1.0
    ensures 0 <= (p * bins as real).Floor < bins
    ensures Edge((p * bins as real).Floor, bins) <= p < Edge((p * bins as real).Floor + 1, bins)
  {
    var b := bins as real;
    var x := p * b;
    ProductBounds(p, b);
    var k := x.Floor;
    FloorRange(x, bins);
    EdgeAtMost(k, p, bins);
    EdgeAbove(k + 1, p, bins);
  }

  lemma EdgeAtMost(k: int, p: real, bins: nat)
    requires bins > 0 && k as real <= p * bins as real
    ensures Edge(k, bins) <= p
  {
    DivBelow(k as real, p, bins as real);
  }

  lemma EdgeAbove(k: int, p: real, bins: nat)
    requires bins > 0 && p * bins as real < k as real
    ensures p < Edge(k, bins)
  {
    DivBelow(k as real, p, bins as real);
  }

  /** The integer part of a number in [0, b) lies in [0, b). */
  lemma FloorRange(x: real, b: nat)
    requires 0.0 <= x < b as real
    ensures 0 <= x.Floor < b && x.Floor as real <= x < (x.Floor + 1) as real
  {
  }

  lemma ProductBounds(p: real, b: real)
    requires b > 0.0 && 0.0 <= p < 1.0
    ensures 0.0 <= p * b < b
  {
    assert p * b >= 0.0 * b;
    assert p * b < 1.0 * b;
  }

  /** No probability falls in two bins. */
  lemma InBinUnique(p: real, i: nat, j: nat, bins: nat)
    requires InBin(p, i, bins) && InBin(p, j, bins)
    ensures i == j
  {
    if i < j {
      EdgeMonotone(i + 1, j, bins);
    } else if j < i {
      EdgeMonotone(j + 1, i, bins);
    }
  }

  /** A probability outside [0, 1] falls in no bin. */
  lemma NoBinOutside(p: real, i: nat, bins: nat)
    requires p < 0.0 || p > 1.0
    ensures !InBin(p, i, bins)
  {
    if i < bins {
      EdgeMonotone(0, i, bins);
      EdgeMonotone(i + 1, bins, bins);
      assert Edge(0, bins) == 0.0 && Edge(bins, bins) == 1.0;
    }
  }

  /** Size of bin `i` (`len(probabilities[mask])`). */
  function BinCount(rows: seq<Prediction>, i: nat, bins: nat): nat
  {
    if |rows| == 0 then 0
    else BinCount(rows[..|rows| - 1], i, bins) + (if InBin(rows[|rows| - 1].probability, i, bins) then 1 else 0)
  }

  /** Sum of the 0/1 outcomes in bin `i`. */
  function BinHits(rows: seq<Prediction>, i: nat, bins: nat): real
  {
    if |rows| == 0 then 0.0
    else
      var last := rows[|rows| - 1];
      BinHits(rows[..|rows| - 1], i, bins) + (if InBin(last.probability, i, bins) then Indicator(last.isCorrect) else 0.0)
  }

  /** Sum of the probabilities in bin `i`. */
  function BinProbabilitySum(rows: seq<Prediction>, i: nat, bins: nat): real
  {
    if |rows| == 0 then 0.0
    else
      var last := rows[|rows| - 1];
      BinProbabilitySum(rows[..|rows| - 1], i, bins) + (if InBin(last.probability, i, bins) then last.probability else 0.0)
  }

  /** `abs(empirical_freq - predicted_freq) * bin_size` for a non-empty bin. */
  function BinError(rows: seq<Prediction>, i: nat, bins: nat): real
    requires BinCount(rows, i, bins) > 0
  {
    var n := BinCount(rows, i, bins) as real;
    Abs(BinHits(rows, i, bins) / n - BinProbabilitySum(rows, i, bins) / n) * n
  }

  /** `calibration_errors` after the first `n` bins: one entry per non-empty bin, in bin order. */
  function CalibrationErrors(rows: seq<Prediction>, bins: nat, n: nat): seq<real>
  {
    if n == 0 then []
    else
      CalibrationErrors(rows, bins, n - 1) +
      (if BinCount(rows, n - 1, bins) == 0 then [] else [BinError(rows, n - 1, bins)])
  }

  /** `total_weight` after the first `n` bins. */
  function CalibrationWeight(rows: seq<Prediction>, bins: nat, n: nat): nat
  {
    if n == 0 then 0 else CalibrationWeight(rows, bins, n - 1) + BinCount(rows, n - 1, bins)
  }

  /** `calculate_calibration_score`: 0 for no rows or no binned weight, otherwise one minus the
      size-weighted mean calibration error, floored at 0. */
  function CalibrationScore(rows: seq<Prediction>, bins: nat): real
  {
    if |rows| == 0 then 0.0
    else
      var w := CalibrationWeight(rows, bins, bins);
      if w == 0 then 0.0 else Max(0.0, 1.0 - Sum(CalibrationErrors(rows, bins, bins)) / w as real)
  }

  /** The loop of `calculate_calibration_score`, accumulating `calibration_errors` and
      `total_weight` bin by bin. */
  method CalculateCalibrationScore(rows: seq<Prediction>, bins: nat) returns (score: real)
    ensures score == CalibrationScore(rows, bins)
    ensures 0.0 <= score <= 1.0
  {
    if |rows| == 0 {
      return 0.0;
    }
    var calibrationErrors: seq<real> := [];
    var totalWeight: nat := 0;
    for i := 0 to bins
      invariant calibrationErrors == CalibrationErrors(rows, bins, i)
      invariant totalWeight == CalibrationWeight(rows, bins, i)
    {
      var binSize := BinCount(rows, i, bins);
      if binSize == 0 {
        assert CalibrationErrors(rows, bins, i + 1) == calibrationErrors + [];
        continue;
      }
      var empiricalFreq := BinHits(rows, i, bins) / binSize as real;
      var predictedFreq := BinProbabilitySum(rows, i, bins) / binSize as real;
      var calibrationError := Abs(empiricalFreq - predictedFreq);
      calibrationErrors := calibrationErrors + [calibrationError * binSize as real];
      assert calibrationError * binSize as real == BinError(rows, i, bins);
      totalWeight := totalWeight + binSize;
    }
    CalibrationBounds(rows, bins);
    if totalWeight == 0 {
      return 0.0;
    }
    var avgCalibrationError := Sum(calibrationErrors) / totalWeight as real;
    score := Max(0.0, 1.0 - avgCalibrationError);
  }

  lemma {:induction false} CalibrationErrorsNonNegative(rows: seq<Prediction>, bins: nat, n: nat)
    ensures forall k | 0 <= k < |CalibrationErrors(rows, bins, n)| :: CalibrationErrors(rows, bins, n)[k] >= 0.0
  {
    if n > 0 {
      CalibrationErrorsNonNegative(rows, bins, n - 1);
      if BinCount(rows, n - 1, bins) > 0 {
        var c := BinCount(rows, n - 1, bins) as real;
        var a := Abs(BinHits(rows, n - 1, bins) / c - BinProbabilitySum(rows, n - 1, bins) / c);
        assert a * c >= 0.0 * c;
      }
    }
  }

  /** The calibration score always lies in [0, 1]. */
  lemma CalibrationBounds(rows: seq<Prediction>, bins: nat)
    ensures 0.0 <= CalibrationScore(rows, bins) <= 1.0
  {
    var errors := CalibrationErrors(rows, bins, bins);
    CalibrationErrorsNonNegative(rows, bins, bins);
    SumNonNegative(errors);
    var w := CalibrationWeight(rows, bins, bins);
    if w > 0 {
      assert Sum(errors) / w as real >= 0.0 / w as real by {
        DivMonotone(0.0, Sum(errors), w as real);
      }
    }
  }

  /** Number of rows whose probability lies in [0, 1]. */
  function InRangeCount(rows: seq<Prediction>): nat
  {
    if |rows| == 0 then 0
    else InRangeCount(rows[..|rows| - 1]) + (if 0.0 <= rows[|rows| - 1].probability <= 1.0 then 1 else 0)
  }

  /** Number of the first `n` bins that hold `p`. */
  function BinsHolding(p: real, bins: nat, n: nat): nat
  {
    if n == 0 then 0 else BinsHolding(p, bins, n - 1) + (if InBin(p, n - 1, bins) then 1 else 0)
  }

  lemma {:induction false} BinsHoldingCount(p: real, bins: nat, n: nat)
    requires bins > 0
    ensures BinsHolding(p, bins, n) == if 0.0 <= p <= 1.0 && BinIndex(p, bins) < n then 1 else 0
  {
    if n > 0 {
      BinsHoldingCount(p, bins, n - 1);
      if 0.0 <= p <= 1.0 {
        BinIndexInBin(p, bins);
        if InBin(p, n - 1, bins) {
          InBinUnique(p, n - 1, BinIndex(p, bins), bins);
        }
      } else {
        NoBinOutside(p, n - 1, bins);
      }
    }
  }

  lemma {:induction false} CalibrationWeightAppend(rows: seq<Prediction>, x: Prediction, bins: nat, n: nat)
    ensures CalibrationWeight(rows + [x], bins, n) == CalibrationWeight(rows, bins, n) + BinsHolding(x.probability, bins, n)
  {
    if n > 0 {
      CalibrationWeightAppend(rows, x, bins, n - 1);
      assert (rows + [x])[..|rows|] == rows;
    }
  }

  /** The bins partition [0, 1]: the binned weight counts exactly the rows whose probability lies
      in [0, 1], each once. */
  lemma {:induction false} CalibrationWeightCountsInRange(rows: seq<Prediction>, bins: nat)
    requires bins > 0
    ensures CalibrationWeight(rows, bins, bins) == InRangeCount(rows)
  {
    if |rows| == 0 {
      ZeroWeightOfEmpty(rows, bins, bins);
    } else {
      var init := rows[..|rows| - 1];
      var last := rows[|rows| - 1];
      CalibrationWeightCountsInRange(init, bins);
      assert rows == init + [last];
      CalibrationWeightAppend(init, last, bins, bins);
      BinsHoldingCount(last.probability, bins, bins);
    }
  }

  lemma {:induction false} ZeroWeightOfEmpty(rows: seq<Prediction>, bins: nat, n: nat)
    requires |rows| == 0
    ensures CalibrationWeight(rows, bins, n) == 0
  {
    if n > 0 {
      ZeroWeightOfEmpty(rows, bins, n - 1);
    }
  }

  /** With no probability in [0, 1] nothing is binned and the score is 0. */
  lemma CalibrationOfOutOfRange(rows: seq<Prediction>, bins: nat)
    requires bins > 0
    requires forall i | 0 <= i < |rows| :: rows[i].probability < 0.0 || rows[i].probability > 1.0
    ensures CalibrationScore(rows, bins) == 0.0
  {
    CalibrationWeightCountsInRange(rows, bins);
    NoneInRange(rows);
  }

  lemma {:induction false} NoneInRange(rows: seq<Prediction>)
    requires forall i | 0 <= i < |rows| :: rows[i].probability < 0.0 || rows[i].probability > 1.0
    ensures InRangeCount(rows) == 0
  {
    if |rows| > 0 {
      var init := rows[..|rows| - 1];
      assert forall i | 0 <= i < |init| :: init[i] == rows[i];
      NoneInRange(init);
    }
  }

  /** Every forecast says 0 and every forecast is wrong. */
  predicate AllZeroMisses(rows: seq<Prediction>)
  {
    forall i | 0 <= i < |rows| :: rows[i].probability == 0.0 && !rows[i].isCorrect
  }

  /** 0 lies in the first bin and in no other. */
  lemma ZeroInFirstBin(i: nat, bins: nat)
    requires bins > 0
    ensures InBin(0.0, i, bins) <==> i == 0
  {
    BinIndexInBin(0.0, bins);
    assert BinIndex(0.0, bins) == 0;
    if InBin(0.0, i, bins) {
      InBinUnique(0.0, i, 0, bins);
    }
  }

  lemma {:induction false} BinsOfZeroMisses(rows: seq<Prediction>, i: nat, bins: nat)
    requires bins > 0 && AllZeroMisses(rows)
    ensures BinCount(rows, i, bins) == if i == 0 then |rows| else 0
    ensures BinHits(rows, i, bins) == 0.0 && BinProbabilitySum(rows, i, bins) == 0.0
  {
    if |rows| > 0 {
      var init := rows[..|rows| - 1];
      assert forall k | 0 <= k < |init| :: init[k] == rows[k];
      BinsOfZeroMisses(init, i, bins);
      ZeroInFirstBin(i, bins);
    }
  }

  lemma {:induction false} CalibrationOfZeroMissesUpTo(rows: seq<Prediction>, bins: nat, n: nat)
    requires 0 < n <= bins && |rows| > 0 && AllZeroMisses(rows)
    ensures CalibrationErrors(rows, bins, n) == [0.0]
    ensures CalibrationWeight(rows, bins, n) == |rows|
  {
    BinsOfZeroMisses(rows, n - 1, bins);
    if n > 1 {
      CalibrationOfZeroMissesUpTo(rows, bins, n - 1);
    } else {
      var c := |rows| as real;
      assert BinError(rows, 0, bins) == Abs(0.0 / c - 0.0 / c) * c;
    }
  }

  /** A forecaster that always says 0 and is always wrong is perfectly calibrated. */
  lemma CalibrationOfZeroMisses(rows: seq<Prediction>, bins: nat)
    requires bins > 0 && |rows| > 0 && AllZeroMisses(rows)
    ensures CalibrationScore(rows, bins) == 1.0
  {
    CalibrationOfZeroMissesUpTo(rows, bins, bins);
    assert Sum([0.0]) == 0.0;
  }

  // ---------------------------------------------------------------- recency

  /** What the recency score reads of a row once its timestamp is parsed. */
  datatype Dated = Dated(at: int, correct: bool)

  /** `datetime.now() - timedelta(days=days)`. */
  function Cutoff(now: int, days: int): int
  {
    now - days * DAY
  }

  /** `(now - created_at).dt.days`: whole days, rounded down. */
  function DaysAgo(now: int, at: int): (d: int)
    ensures d * DAY <= now - at < (d + 1) * DAY
  {
    (now - at) / DAY
  }

  /** `predictions[predictions['created_at'] >= cutoff_date]`, in order. */
  function Recent(rows: seq<Dated>, cutoff: int): (r: seq<Dated>)
    ensures forall k | 0 <= k < |r| :: r[k] in rows && r[k].at >= cutoff
    ensures forall x | x in rows && x.at >= cutoff :: x in r
  {
    if |rows| == 0 then []
    else
      var init := Recent(rows[..|rows| - 1], cutoff);
      var last := rows[|rows| - 1];
      assert rows == rows[..|rows| - 1] + [last];
      if last.at >= cutoff then init + [last] else init
  }

  /** The filter keeps every recent row as often as the frame holds it, and no other row. */
  lemma {:induction false} RecentMultiplicity(rows: seq<Dated>, cutoff: int)
    ensures forall x :: multiset(Recent(rows, cutoff))[x] == if x.at >= cutoff then multiset(rows)[x] else 0
  {
    if |rows| > 0 {
      var last := rows[|rows| - 1];
      RecentMultiplicity(rows[..|rows| - 1], cutoff);
      assert rows == rows[..|rows| - 1] + [last];
      assert multiset(rows) == multiset(rows[..|rows| - 1]) + multiset{last};
    }
  }

  /** The filter keeps the order of the frame: filtering a frame made of two parts is filtering
      each part. */
  lemma {:induction false} RecentAppend(a: seq<Dated>, b: seq<Dated>, cutoff: int)
    ensures Recent(a + b, cutoff) == Recent(a, cutoff) + Recent(b, cutoff)
  {
    if |b| > 0 {
      var b0 := b[..|b| - 1];
      assert (a + b)[..|a + b| - 1] == a + b0;
      assert (a + b)[|a + b| - 1] == b[|b| - 1];
      RecentAppend(a, b0, cutoff);
    } else {
      assert a + b == a;
    }
  }

  /** Sum of the decay weights. */
  function DecayTotal(rows: seq<Dated>, now: int, decay: int -> Weight): (r: real)
    ensures r >= 0.0 && (|rows| > 0 ==> r > 0.0)
  {
    if |rows| == 0 then 0.0
    else DecayTotal(rows[..|rows| - 1], now, decay) + decay(DaysAgo(now, rows[|rows| - 1].at))
  }

  /** Sum of the decay weights of the correct rows. */
  function DecayHits(rows: seq<Dated>, now: int, decay: int -> Weight): (r: real)
    ensures 0.0 <= r <= DecayTotal(rows, now, decay)
  {
    if |rows| == 0 then 0.0
    else
      var last := rows[|rows| - 1];
      DecayHits(rows[..|rows| - 1], now, decay) + (if last.correct then decay(DaysAgo(now, last.at)) else 0.0)
  }

  /** When every row is correct the correct rows carry all the weight. */
  lemma {:induction false} DecayOfAllCorrect(rows: seq<Dated>, now: int, decay: int -> Weight)
    requires forall k | 0 <= k < |rows| :: rows[k].correct
    ensures DecayHits(rows, now, decay) == DecayTotal(rows, now, decay)
  {
    if |rows| > 0 {
      var init := rows[..|rows| - 1];
      assert forall k | 0 <= k < |init| :: init[k] == rows[k];
      DecayOfAllCorrect(init, now, decay);
    }
  }

  /** `np.average(is_correct, weights=exp(-days_ago / days))` over the rows no older than the
      cutoff, or 0 when there are none. */
  function RecencyScore(rows: seq<Dated>, now: int, days: int, decay: int -> Weight): real
  {
    var recent := Recent(rows, Cutoff(now, days));
    if |recent| == 0 then 0.0 else DecayHits(recent, now, decay) / DecayTotal(recent, now, decay)
  }

  /** The recency score is a weighted mean of 0/1 values: it lies in [0, 1]. */
  lemma RecencyBounds(rows: seq<Dated>, now: int, days: int, decay: int -> Weight)
    ensures 0.0 <= RecencyScore(rows, now, days, decay) <= 1.0
  {
    var recent := Recent(rows, Cutoff(now, days));
    if |recent| > 0 {
      var h := DecayHits(recent, now, decay);
      var t := DecayTotal(recent, now, decay);
      DivMonotone(0.0, h, t);
      DivMonotone(h, t, t);
      DivSelf(t);
    }
  }

  /** No row inside the window gives 0. */
  lemma RecencyOfNoneRecent(rows: seq<Dated>, now: int, days: int, decay: int -> Weight)
    requires forall k | 0 <= k < |rows| :: rows[k].at < Cutoff(now, days)
    ensures RecencyScore(rows, now, days, decay) == 0.0
  {
  }

  /** Every row inside the window correct gives 1, whatever the weights. */
  lemma RecencyOfAllCorrect(rows: seq<Dated>, now: int, days: int, decay: int -> Weight)
    requires exists k | 0 <= k < |rows| :: rows[k].at >= Cutoff(now, days)
    requires forall k | 0 <= k < |rows| && rows[k].at >= Cutoff(now, days) :: rows[k].correct
    ensures RecencyScore(rows, now, days, decay) == 1.0
  {
    var recent := Recent(rows, Cutoff(now, days));
    var k :| 0 <= k < |rows| && rows[k].at >= Cutoff(now, days);
    assert rows[k] in recent;
    forall j | 0 <= j < |recent| ensures recent[j].correct {
      var m :| 0 <= m < |rows| && rows[m] == recent[j];
    }
    DecayOfAllCorrect(recent, now, decay);
    assert |recent| > 0;
    var t := DecayTotal(recent, now, decay);
    DivSelf(t);
  }

  /** `pd.to_datetime` on one cell: an instant stays, text is parsed (and may fail). */
  function ToInstant(s: Stamp, parse: string -> Option<int>): Option<int>
  {
    match s
    case Instant(t) => Some(t)
    case Text(text) => parse(text)
  }

  /** `pd.to_datetime` on the whole column: every cell's instant, or failure if one cell fails. */
  function Instants(rows: seq<Prediction>, parse: string -> Option<int>): (r: Option<seq<int>>)
    ensures r.Some? ==> |r.value| == |rows|
    ensures r.Some? ==> forall k | 0 <= k < |rows| :: ToInstant(rows[k].createdAt, parse) == Some(r.value[k])
    ensures (forall k | 0 <= k < |rows| :: ToInstant(rows[k].createdAt, parse).Some?) ==> r.Some?
  {
    if |rows| == 0 then Some([])
    else
      match Instants(rows[..|rows| - 1], parse)
      case None => None
      case Some(ts) =>
        match ToInstant(rows[|rows| - 1].createdAt, parse)
        case None => None
        case Some(t) => Some(ts + [t])
  }

  /** One failing cell makes the whole column fail. */
  lemma {:induction false} InstantsFailExtends(rows: seq<Prediction>, n: nat, parse: string -> Option<int>)
    requires n <= |rows| && Instants(rows[..n], parse).None?
    ensures Instants(rows, parse).None?
    decreases |rows| - n
  {
    if n < |rows| {
      assert rows[..n + 1][..n] == rows[..n];
      InstantsFailExtends(rows, n + 1, parse);
    } else {
      assert rows[..n] == rows;
    }
  }

  /** The column already holds instants (`is_datetime64_any_dtype`). */
  predicate AllInstants(rows: seq<Prediction>)
  {
    forall k | 0 <= k < |rows| :: rows[k].createdAt.Instant?
  }

  /** The rows with each `created_at` replaced by the given instant. */
  function WithInstants(rows: seq<Prediction>, ts: seq<int>): (r: seq<Prediction>)
    requires |ts| == |rows|
    ensures |r| == |rows|
    ensures forall k | 0 <= k < |r| :: r[k] == rows[k].(createdAt := Instant(ts[k]))
  {
    seq(|rows|, k requires 0 <= k < |rows| => rows[k].(createdAt := Instant(ts[k])))
  }

  /** The parsed rows that the recency score reads. */
  function Dates(rows: seq<Prediction>, ts: seq<int>): (r: seq<Dated>)
    requires |ts| == |rows|
    ensures |r| == |rows| && forall k | 0 <= k < |r| :: r[k] == Dated(ts[k], rows[k].isCorrect)
  {
    seq(|rows|, k requires 0 <= k < |rows| => Dated(ts[k], rows[k].isCorrect))
  }

  datatype MetricsError =
    | ZeroConfidenceWeights  // `np.average` with weights that sum to zero
    | UnparseableTimestamp   // `pd.to_datetime` rejects a cell

  /** `calculate_recency_score` as a value: 0 for no rows, a failure when a timestamp cannot be
      parsed, otherwise the score of the parsed rows. */
  function Recency(rows: seq<Prediction>, days: int, env: Env): Result<real, MetricsError>
  {
    if |rows| == 0 then Ok(0.0)
    else
      match Instants(rows, env.parse)
      case None => Err(UnparseableTimestamp)
      case Some(ts) => Ok(RecencyScore(Dates(rows, ts), env.now, days, env.decay))
  }

  /** The frame after `calculate_recency_score`: its `created_at` column is overwritten with the
      parsed instants, unless it was empty, already parsed, or could not be parsed. */
  function FrameAfterRecency(rows: seq<Prediction>, parse: string -> Option<int>): seq<Prediction>
  {
    if |rows| == 0 || AllInstants(rows) then rows
    else
      match Instants(rows, parse)
      case None => rows
      case Some(ts) => WithInstants(rows, ts)
  }

  /** Whenever the score is computed, the frame left behind carries the parsed instants, whether
      or not the column had to be converted. */
  lemma FrameAfterRecencyParsed(rows: seq<Prediction>, days: int, env: Env)
    requires |rows| > 0 && Recency(rows, days, env).Ok?
    ensures Instants(rows, env.parse).Some?
    ensures FrameAfterRecency(rows, env.parse) == WithInstants(rows, Instants(rows, env.parse).value)
  {
    var ts := Instants(rows, env.parse).value;
    if AllInstants(rows) {
      assert forall k | 0 <= k < |rows| :: rows[k].createdAt == Instant(ts[k]);
      assert rows == WithInstants(rows, ts);
    }
  }

  /** `calculate_recency_score` on the caller's frame, which it may overwrite. */
  method CalculateRecencyScore(frame: array<Prediction>, days: int, env: Env) returns (r: Result<real, MetricsError>)
    modifies frame
    ensures r == Recency(old(frame[..]), days, env)
    ensures frame[..] == FrameAfterRecency(old(frame[..]), env.parse)
  {
    if frame.Length == 0 {
      return Ok(0.0);
    }
    var rows := frame[..];
    if !AllInstants(rows) {
      var ts: seq<int> := [];
      for i := 0 to frame.Length
        invariant Instants(rows[..i], env.parse) == Some(ts)
      {
        assert rows[..i + 1][..i] == rows[..i];
        var t := ToInstant(frame[i].createdAt, env.parse);
        if t.None? {
          InstantsFailExtends(rows, i + 1, env.parse);
          return Err(UnparseableTimestamp);
        }
        ts := ts + [t.value];
      }
      assert rows[..frame.Length] == rows;
      for i := 0 to frame.Length
        invariant frame[..i] == WithInstants(rows, ts)[..i]
        invariant frame[i..] == rows[i..]
      {
        frame[i] := frame[i].(createdAt := Instant(ts[i]));
        assert frame[i + 1..] == rows[i + 1..] by {
          assert forall k | i + 1 <= k < frame.Length :: frame[k] == old(frame[k]);
        }
      }
      assert frame[..] == WithInstants(rows, ts);
    }
    match Instants(rows, env.parse)
    case None =>
      return Err(UnparseableTimestamp);
    case Some(ts) =>
      return Ok(RecencyScore(Dates(rows, ts), env.now, days, env.decay));
  }

  // ---------------------------------------------------------------- composite trust score

  /** The keys the composite score reads from the weight map. */
  const WEIGHT_KEYS: set<string> := {"accuracy", "calibration", "confidence", "recency"}

  /** `update_weights` accepts an argument whose values sum to 1 within this tolerance (1e-6). */
  const TOLERANCE: real := 0.000001

  /** The weights a new calculator starts with. */
  const DEFAULT_WEIGHTS: map<string, real> :=
    map["accuracy" := 0.4, "calibration" := 0.3, "confidence" := 0.2, "recency" := 0.1]

  predicate HasWeightKeys(w: map<string, real>)
  {
    WEIGHT_KEYS <= w.Keys
  }

  /** The `TrustMetrics` record. `calculationDate` is the clock reading of the calculation. */
  datatype TrustMetrics = TrustMetrics(
    modelName: string,
    category: Option<string>,
    trustScore: real,
    accuracy: real,
    calibrationScore: real,
    confidenceScore: real,
    totalPredictions: nat,
    correctPredictions: nat,
    brierScore: real,
    logLoss: Loss,
    weightedAccuracy: real,
    calculationDate: int)

  /** The record returned for a model without predictions. */
  function Sentinel(name: string, category: Option<string>, now: int): TrustMetrics
  {
    TrustMetrics(name, category, 0.0, 0.0, 0.0, 0.0, 0, 0, 1.0, Infinite, 0.0, now)
  }

  /** `is_correct.sum()`, an integer. */
  function CorrectCount(rows: seq<Prediction>): (r: nat)
    ensures r <= |rows|
  {
    if |rows| == 0 then 0 else CorrectCount(rows[..|rows| - 1]) + (if rows[|rows| - 1].isCorrect then 1 else 0)
  }

  /** Sum of the 0/1 outcomes as reals, the numerator of `is_correct.mean()`. */
  function Hits(rows: seq<Prediction>): real
  {
    if |rows| == 0 then 0.0 else Hits(rows[..|rows| - 1]) + Indicator(rows[|rows| - 1].isCorrect)
  }

  /** Sum of the confidences, the denominator of the weighted accuracy and the numerator of the
      mean confidence. */
  function ConfidenceTotal(rows: seq<Prediction>): real
  {
    if |rows| == 0 then 0.0 else ConfidenceTotal(rows[..|rows| - 1]) + rows[|rows| - 1].confidence
  }

  /** Sum of the confidences of the correct rows. */
  function ConfidenceHits(rows: seq<Prediction>): real
  {
    if |rows| == 0 then 0.0
    else ConfidenceHits(rows[..|rows| - 1]) + (if rows[|rows| - 1].isCorrect then rows[|rows| - 1].confidence else 0.0)
  }

  /** The composite: the weighted sum of four sub-scores. Weighted accuracy, Brier score and log
      loss are reported but take no part in it. */
  function Composite(w: map<string, real>, accuracy: real, calibration: real, confidence: real, recency: real): real
    requires HasWeightKeys(w)
  {
    Mul(w["accuracy"], accuracy) + Mul(w["calibration"], calibration) + Mul(w["confidence"], confidence)
      + Mul(w["recency"], recency)
  }

  /** A product kept behind a name, so that bounds on each weighted term can be stated on their own. */
  function Mul(a: real, b: real): real
  {
    a * b
  }

  /** The body of `calculate_trust_score` once the model's rows are fetched. Failures follow the
      order of the source: the weighted average first, the timestamp parse last. */
  function ComputeMetrics(name: string, category: Option<string>, rows: seq<Prediction>, w: map<string, real>, env: Env)
    : (r: Result<TrustMetrics, MetricsError>)
    requires HasWeightKeys(w)
    ensures |rows| == 0 ==> r == Ok(Sentinel(name, category, env.now))
    ensures |rows| > 0 ==> (r == Err(ZeroConfidenceWeights) <==> ConfidenceTotal(rows) == 0.0)
    ensures |rows| > 0 ==> (r == Err(UnparseableTimestamp) <==>
                            ConfidenceTotal(rows) != 0.0 && Instants(rows, env.parse).None?)
    ensures r.Ok? ==> r.value.modelName == name && r.value.category == category
  {
    if |rows| == 0 then Ok(Sentinel(name, category, env.now))
    else
      var n := |rows| as real;
      var accuracy := Hits(rows) / n;
      var confidenceTotal := ConfidenceTotal(rows);
      if confidenceTotal == 0.0 then Err(ZeroConfidenceWeights)
      else
        var weightedAccuracy := ConfidenceHits(rows) / confidenceTotal;
        var calibration := CalibrationScore(rows, CALIBRATION_BINS);
        var confidence := confidenceTotal / n;
        match Recency(rows, RECENCY_DAYS, env)
        case Err(e) => Err(e)
        case Ok(recency) =>
          Ok(TrustMetrics(name, category, Composite(w, accuracy, calibration, confidence, recency),
                          accuracy, calibration, confidence, |rows|, CorrectCount(rows), BrierScore(rows),
                          LogLoss(rows, env.ln), weightedAccuracy, env.now))
  }

  /** A record computed from rows counts them, carries the Brier, log-loss and calibration scores
      of the rows, gives the share of correct predictions as accuracy, the mean confidence as the
      confidence score and the confidence-weighted share of correct predictions as weighted
      accuracy, is dated at the current instant, and combines its sub-scores with the weights into
      the trust score. */
  lemma ComputeMetricsFields(name: string, category: Option<string>, rows: seq<Prediction>, w: map<string, real>, env: Env)
    requires HasWeightKeys(w) && ComputeMetrics(name, category, rows, w, env).Ok? && |rows| > 0
    ensures var m := ComputeMetrics(name, category, rows, w, env).value;
            && m.totalPredictions == |rows|
            && m.correctPredictions == CorrectCount(rows)
            && m.accuracy == CorrectCount(rows) as real / |rows| as real
            && m.brierScore == BrierScore(rows)
            && m.calibrationScore == CalibrationScore(rows, CALIBRATION_BINS)
            && m.confidenceScore == ConfidenceTotal(rows) / |rows| as real
            && m.weightedAccuracy == ConfidenceHits(rows) / ConfidenceTotal(rows)
            && m.logLoss == LogLoss(rows, env.ln)
            && m.calculationDate == env.now
            && m.trustScore == Composite(w, m.accuracy, m.calibrationScore, m.confidenceScore,
                                         Recency(rows, RECENCY_DAYS, env).value)
  {
    HitsIsCorrectCount(rows);
  }

  lemma {:induction false} HitsIsCorrectCount(rows: seq<Prediction>)
    ensures Hits(rows) == CorrectCount(rows) as real
  {
    if |rows| > 0 {
      HitsIsCorrectCount(rows[..|rows| - 1]);
    }
  }

  /** Accuracy is the share of correct predictions, and never more than one. */
  lemma AccuracyIsShareCorrect(name: string, category: Option<string>, rows: seq<Prediction>, w: map<string, real>, env: Env)
    requires HasWeightKeys(w) && ComputeMetrics(name, category, rows, w, env).Ok?
    ensures var m := ComputeMetrics(name, category, rows, w, env).value;
            m.correctPredictions <= m.totalPredictions &&
            (m.totalPredictions > 0 ==> m.accuracy == m.correctPredictions as real / m.totalPredictions as real)
  {
    HitsIsCorrectCount(rows);
  }

  predicate ValidConfidences(rows: seq<Prediction>)
  {
    forall i | 0 <= i < |rows| :: 0.0 <= rows[i].confidence <= 1.0
  }

  lemma {:induction false} ConfidenceTotalBounds(rows: seq<Prediction>)
    requires ValidConfidences(rows)
    ensures 0.0 <= ConfidenceTotal(rows) <= |rows| as real
  {
    if |rows| > 0 {
      var init := rows[..|rows| - 1];
      assert forall i | 0 <= i < |init| :: init[i] == rows[i];
      ConfidenceTotalBounds(init);
    }
  }

  lemma MulBounds(w: real, x: real)
    requires w >= 0.0 && 0.0 <= x <= 1.0
    ensures 0.0 <= Mul(w, x) <= w
  {
    assert w * x <= w * 1.0;
  }

  /** A quotient of a value in [0, n] by a positive n lies in [0, 1]. */
  lemma ShareBounds(a: real, n: real)
    requires n > 0.0 && 0.0 <= a <= n
    ensures 0.0 <= a / n <= 1.0
  {
    DivMonotone(0.0, a, n);
    DivMonotone(a, n, n);
    DivSelf(n);
  }

  /** Non-negative weights that sum to 1 keep the composite of scores in [0, 1] inside [0, 1]. */
  lemma CompositeBounds(w: map<string, real>, a: real, b: real, c: real, d: real)
    requires HasWeightKeys(w)
    requires forall k | k in WEIGHT_KEYS :: w[k] >= 0.0
    requires w["accuracy"] + w["calibration"] + w["confidence"] + w["recency"] == 1.0
    requires 0.0 <= a <= 1.0 && 0.0 <= b <= 1.0 && 0.0 <= c <= 1.0 && 0.0 <= d <= 1.0
    ensures 0.0 <= Composite(w, a, b, c, d) <= 1.0
  {
    MulBounds(w["accuracy"], a);
    MulBounds(w["calibration"], b);
    MulBounds(w["confidence"], c);
    MulBounds(w["recency"], d);
  }

  /** With non-negative weights summing to 1 and confidences in [0, 1], the trust score lies in
      [0, 1]. */
  lemma TrustScoreBounds(name: string, category: Option<string>, rows: seq<Prediction>, w: map<string, real>, env: Env)
    requires HasWeightKeys(w)
    requires forall k | k in WEIGHT_KEYS :: w[k] >= 0.0
    requires w["accuracy"] + w["calibration"] + w["confidence"] + w["recency"] == 1.0
    requires ValidConfidences(rows)
    requires ComputeMetrics(name, category, rows, w, env).Ok?
    ensures 0.0 <= ComputeMetrics(name, category, rows, w, env).value.trustScore <= 1.0
  {
    if |rows| > 0 {
      var n := |rows| as real;
      HitsIsCorrectCount(rows);
      ShareBounds(Hits(rows), n);
      ConfidenceTotalBounds(rows);
      ShareBounds(ConfidenceTotal(rows), n);
      CalibrationBounds(rows, CALIBRATION_BINS);
      var ts := Instants(rows, env.parse).value;
      RecencyBounds(Dates(rows, ts), env.now, RECENCY_DAYS, env.decay);
      var m := ComputeMetrics(name, category, rows, w, env).value;
      CompositeBounds(w, m.accuracy, m.calibrationScore, m.confidenceScore, Recency(rows, RECENCY_DAYS, env).value);
    }
  }

  /** Because `update_weights` merges instead of replacing, weights that pass its check need not
      sum to 1: `{accuracy: 1.0}` over the defaults sums to 1.6, and a model scoring 1 on every
      sub-score then gets trust 1.6. */
  lemma MergedWeightsExceedOne()
    ensures var merged := DEFAULT_WEIGHTS + map["accuracy" := 1.0];
            && HasWeightKeys(merged)
            && merged["accuracy"] + merged["calibration"] + merged["confidence"] + merged["recency"] == 1.6
            && Composite(merged, 1.0, 1.0, 1.0, 1.0) == 1.6
  {
  }


  // ---------------------------------------------------------------- the GPT-4 sample of the system test

  /** The two GPT-4 rows of the system test: 0.7 on the winner, 0.3 on the loser, confidence 0.4. */
  function ExampleRows(t1: int, t2: int): seq<Prediction>
  {
    [Prediction(0.7, true, 0.4, Instant(t1)), Prediction(0.3, false, 0.4, Instant(t2))]
  }

  /** Of the ten bins only bin 3 (holding 0.3) and bin 7 (holding 0.7) are occupied. */
  lemma ExampleBins(t1: int, t2: int, i: nat)
    requires i < 10
    ensures BinCount(ExampleRows(t1, t2), i, 10) == if i == 3 || i == 7 then 1 else 0
    ensures i == 3 ==> BinHits(ExampleRows(t1, t2), i, 10) == 0.0 && BinProbabilitySum(ExampleRows(t1, t2), i, 10) == 0.3
    ensures i == 7 ==> BinHits(ExampleRows(t1, t2), i, 10) == 1.0 && BinProbabilitySum(ExampleRows(t1, t2), i, 10) == 0.7
  {
    var rows := ExampleRows(t1, t2);
    var a, b := rows[0], rows[1];
    assert rows[..1] == [a] && [a][..0] == [];
    assert BinCount([a], i, 10) == if InBin(0.7, i, 10) then 1 else 0;
    assert BinHits([a], i, 10) == if InBin(0.7, i, 10) then 1.0 else 0.0;
    assert BinProbabilitySum([a], i, 10) == if InBin(0.7, i, 10) then 0.7 else 0.0;
    assert BinCount(rows, i, 10) == (if InBin(0.7, i, 10) then 1 else 0) + (if InBin(0.3, i, 10) then 1 else 0);
    assert BinHits(rows, i, 10) == (if InBin(0.7, i, 10) then 1.0 else 0.0);
    assert BinProbabilitySum(rows, i, 10) == (if InBin(0.7, i, 10) then 0.7 else 0.0) + (if InBin(0.3, i, 10) then 0.3 else 0.0);
    assert InBin(0.7, 7, 10) && InBin(0.3, 3, 10);
    if InBin(0.7, i, 10) { InBinUnique(0.7, i, 7, 10); }
    if InBin(0.3, i, 10) { InBinUnique(0.3, i, 3, 10); }
  }

  /** Each occupied bin is off by 0.3, so the calibration score is 1 - 0.6 / 2. */
  lemma ExampleCalibration(t1: int, t2: int)
    ensures CalibrationScore(ExampleRows(t1, t2), CALIBRATION_BINS) == 0.7
  {
    var rows := ExampleRows(t1, t2);
    forall i: nat | i < 10
      ensures BinCount(rows, i, 10) == if i == 3 || i == 7 then 1 else 0
    {
      ExampleBins(t1, t2, i);
    }
    ExampleBins(t1, t2, 3);
    ExampleBins(t1, t2, 7);
    assert CalibrationErrors(rows, 10, 1) == [];
    assert CalibrationErrors(rows, 10, 2) == [];
    assert CalibrationErrors(rows, 10, 3) == [];
    assert BinError(rows, 3, 10) == 0.3;
    assert CalibrationErrors(rows, 10, 4) == [0.3];
    assert CalibrationErrors(rows, 10, 5) == [0.3];
    assert CalibrationErrors(rows, 10, 6) == [0.3];
    assert CalibrationErrors(rows, 10, 7) == [0.3];
    assert BinError(rows, 7, 10) == 0.3;
    assert CalibrationErrors(rows, 10, 8) == [0.3, 0.3];
    assert CalibrationErrors(rows, 10, 9) == [0.3, 0.3];
    assert CalibrationErrors(rows, 10, 10) == [0.3, 0.3];
    CalibrationWeightCountsInRange(rows, 10);
    assert rows[..1] == [rows[0]] && [rows[0]][..0] == [];
    assert InRangeCount([rows[0]]) == 1;
    assert InRangeCount(rows) == 2;
    assert Sum([0.3, 0.3]) == 0.6;
  }

  /** The system test's GPT-4 sample, under the default weights and whatever the clock and decay:
      accuracy 0.5, calibration 0.7, mean confidence 0.4, so the trust score is 0.49 plus at most 0.1
      of recency, which makes it positive as the test expects. */
  lemma GptFourExample(env: Env, t1: int, t2: int)
    ensures var r := ComputeMetrics("GPT-4", None, ExampleRows(t1, t2), DEFAULT_WEIGHTS, env);
            && r.Ok?
            && r.value.totalPredictions == 2 && r.value.correctPredictions == 1
            && r.value.accuracy == 0.5
            && r.value.calibrationScore == 0.7
            && r.value.confidenceScore == 0.4
            && 0.49 <= r.value.trustScore <= 0.59
  {
    var rows := ExampleRows(t1, t2);
    var a := rows[0];
    assert rows[..1] == [a] && [a][..0] == [];
    assert ToInstant(a.createdAt, env.parse) == Some(t1);
    assert Instants([a][..0], env.parse) == Some([]);
    assert [] + [t1] == [t1] && [t1] + [t2] == [t1, t2];
    assert Instants([a], env.parse) == Some([t1]);
    assert Instants(rows, env.parse) == Some([t1, t2]);
    assert Hits([a]) == 1.0 && ConfidenceTotal([a]) == 0.4 && CorrectCount([a]) == 1;
    ExampleCalibration(t1, t2);
    var dated := Dates(rows, [t1, t2]);
    RecencyBounds(dated, env.now, RECENCY_DAYS, env.decay);
    var recency := RecencyScore(dated, env.now, RECENCY_DAYS, env.decay);
    MulBounds(0.1, recency);
  }
}
