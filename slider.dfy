/**
 * The dial's rotation state machine (src/widgets/TimeFrameSlider/ui/TimeFrameSlider/TimeFrameSlider.tsx).
 *
 * The widget keeps the active period, the rotation handed to the dial and, in a mutable
 * ref, the rotation it last settled on. Choosing a period (next, previous or a click on a
 * dot) changes the active period, and the rotation effect then turns the dial the short
 * way round so that the active period's dot sits at the active position. Each effect is one
 * synchronous step after the state change that triggers it.
 */
module Slider {
  import opened DialConstants
  import opened TimePeriod
  import opened Coordinates
  import opened Text

  /** Where the active dot is brought, in degrees: the upper right of the dial. */
  const ActivePositionAngle: int := -60

  /** Two rotations that leave the dial in the same orientation. */
  predicate SameAngle(a: int, b: int) {
    (a - b) % FullCircleDegrees == 0
  }

  /** `handleNext`: the following period, the last one wrapping round to the first. */
  function NextPeriod(p: int, n: int): (r: int)
    requires 0 <= p < n
    ensures 0 <= r < n
    ensures r == if p == n - 1 then 0 else p + 1
  {
    (p + 1) % n
  }

  /** `handlePrev`: the preceding period, the first one wrapping round to the last. */
  function PrevPeriod(p: int, n: int): (r: int)
    requires 0 <= p < n
    ensures 0 <= r < n
    ensures r == if p == 0 then n - 1 else p - 1
  {
    (p - 1 + n) % n
  }

  /** Previous undoes next and next undoes previous. */
  lemma NextPrevInverse(p: int, n: int)
    requires 0 <= p < n
    ensures PrevPeriod(NextPeriod(p, n), n) == p
    ensures NextPeriod(PrevPeriod(p, n), n) == p
  {
  }

  /** The period reached from p by pressing next k times. */
  function NextTimes(p: int, n: int, k: nat): (r: int)
    requires 0 <= p < n
    ensures 0 <= r < n
    decreases k
  {
    if k == 0 then p else NextPeriod(NextTimes(p, n, k - 1), n)
  }

  /** Pressing next k times moves k periods on, modulo the period count. */
  lemma {:induction false} NextTimesShifts(p: int, n: int, k: nat)
    requires 0 <= p < n
    ensures NextTimes(p, n, k) == (p + k) % n
  {
    if k > 0 {
      NextTimesShifts(p, n, k - 1);
      ModSucc(p + k - 1, n);
    }
  }

  /** Taking the remainder before or after adding one gives the same remainder. */
  lemma ModSucc(x: int, n: int)
    requires n > 0
    ensures (x % n + 1) % n == (x + 1) % n
  {
    var q, r := x / n, x % n;
    assert x == n * q + r;
    if r + 1 < n {
      assert x + 1 == n * q + (r + 1);
      ModUnique(x + 1, n, q, r + 1);
      ModUnique(r + 1, n, 0, r + 1);
    } else {
      assert x + 1 == n * (q + 1) + 0;
      ModUnique(x + 1, n, q + 1, 0);
      ModUnique(r + 1, n, 1, 0);
    }
  }

  /** The remainder of x by n is the r of any decomposition x == n * q + r with 0 <= r < n. */
  lemma ModUnique(x: int, n: int, q: int, r: int)
    requires n > 0 && 0 <= r < n && x == n * q + r
    ensures x % n == r
  {
    var q', r' := x / n, x % n;
    assert n * q' + r' == n * q + r;
    if q' > q {
      assert n * q' == n * q + n * (q' - q);
      MulAtLeast(n, q' - q);
    } else if q' < q {
      assert n * q == n * q' + n * (q - q');
      MulAtLeast(n, q - q');
    }
  }

  lemma MulAtLeast(n: int, d: int)
    requires n > 0 && d >= 1
    ensures n * d >= n
  {
  }

  /** Pressing next once per period cycles back to where it started. */
  lemma FullCycle(p: int, n: int)
    requires 0 <= p < n
    ensures NextTimes(p, n, n) == p
  {
    NextTimesShifts(p, n, n);
    ModUnique(p + n, n, 1, p);
  }

  /** The raw target rotation for period p out of n: the one that brings p's dot to the active position. */
  function TargetRotation(p: int, n: int): (r: int)
    requires ValidCount(n)
    // turning by r takes dot p, at its calculated angle, exactly to the active position
    ensures AngleDegrees(n, p) + r == ActivePositionAngle
  {
    ActivePositionAngle - p * (FullCircleDegrees / n)
  }

  /**
   * Turning the dial by any rotation equivalent to p's target puts p's dot, placed by the
   * point calculator, at the active position.
   */
  lemma TargetBringsDotToActivePosition(p: int, n: int, rotation: int)
    requires ValidCount(n) && 0 <= p < n
    requires SameAngle(rotation, TargetRotation(p, n))
    ensures SameAngle(AngleDegrees(n, p) + rotation, ActivePositionAngle)
  {
  }

  /** `Math.round(d / 360)`: the number of whole turns nearest to d degrees, a half turn rounding up. */
  function RoundTurns(d: int): (r: int)
    ensures FullCircleDegrees * r - HalfCircleDegrees <= d < FullCircleDegrees * r + HalfCircleDegrees
  {
    (d + HalfCircleDegrees) / FullCircleDegrees
  }

  /** RoundTurns is JavaScript's Math.round of the quotient: within one half of d / 360, ties going up. */
  lemma RoundTurnsIsNearest(d: int)
    ensures RoundTurns(d) as real - 0.5 <= d as real / 360.0 < RoundTurns(d) as real + 0.5
  {
  }

  /**
   * `targetRotation - 360 * Math.round((targetRotation - current) / 360)`: the rotation equivalent to
   * the target that is reached from prev by turning at most half a turn; a half turn goes the negative way.
   */
  function AdjustedTarget(target: int, prev: int): (a: int)
    ensures SameAngle(a, target)
    ensures -HalfCircleDegrees <= a - prev < HalfCircleDegrees
  {
    target - FullCircleDegrees * RoundTurns(target - prev)
  }

  /** The adjusted target is the only rotation equivalent to the target within the half-turn window. */
  lemma AdjustedTargetUnique(target: int, prev: int, b: int)
    requires SameAngle(b, target)
    requires -HalfCircleDegrees <= b - prev < HalfCircleDegrees
    ensures b == AdjustedTarget(target, prev)
  {
  }

  /** No rotation equivalent to the target is nearer to prev than the adjusted target: the short way round. */
  lemma AdjustedTargetNearest(target: int, prev: int, k: int)
    ensures Abs(AdjustedTarget(target, prev) - prev) <= Abs(target + FullCircleDegrees * k - prev)
  {
  }

  /** When prev is already equivalent to the target, adjusting leaves it where it is. */
  lemma AdjustedTargetFixpoint(target: int, prev: int)
    requires SameAngle(prev, target)
    ensures AdjustedTarget(target, prev) == prev
  {
  }

  /** A target exactly half a turn away is reached by turning half a turn the negative way. */
  lemma HalfTurnGoesNegative(target: int, prev: int)
    requires SameAngle(target - prev, HalfCircleDegrees)
    ensures AdjustedTarget(target, prev) == prev - HalfCircleDegrees
  {
  }

  /** A next step always turns the dial by exactly one step, 360 / n degrees, the negative way. */
  lemma NextTurnsOneStep(p: int, n: int, prev: int)
    requires ValidCount(n) && 0 <= p < n
    requires SameAngle(prev, TargetRotation(p, n))
    ensures AdjustedTarget(TargetRotation(NextPeriod(p, n), n), prev) == prev - FullCircleDegrees / n
  {
    var step := FullCircleDegrees / n;
    var next := NextPeriod(p, n);
    StepDividesTurn(n);
    assert SameAngle(TargetRotation(next, n), TargetRotation(p, n) - step) by {
      if p == n - 1 {
        assert TargetRotation(next, n) - (TargetRotation(p, n) - step) == n * step;
      } else {
        assert TargetRotation(next, n) == TargetRotation(p, n) - step;
      }
    }
    SameAngleTransitive(prev - step, TargetRotation(p, n) - step, TargetRotation(next, n));
    AdjustedTargetUnique(TargetRotation(next, n), prev, prev - step);
  }

  /**
   * A previous step turns the dial by one step the positive way; with two periods the step is a
   * half turn, which the rounding takes the negative way.
   */
  lemma PrevTurnsOneStep(p: int, n: int, prev: int)
    requires ValidCount(n) && 0 <= p < n
    requires SameAngle(prev, TargetRotation(p, n))
    ensures AdjustedTarget(TargetRotation(PrevPeriod(p, n), n), prev)
      == if n == 2 then prev - HalfCircleDegrees else prev + FullCircleDegrees / n
  {
    var step := FullCircleDegrees / n;
    var before := PrevPeriod(p, n);
    StepDividesTurn(n);
    assert SameAngle(TargetRotation(before, n), TargetRotation(p, n) + step) by {
      if p == 0 {
        assert (TargetRotation(p, n) + step) - TargetRotation(before, n) == n * step;
      } else {
        assert TargetRotation(before, n) == TargetRotation(p, n) + step;
      }
    }
    var turned := if n == 2 then prev - HalfCircleDegrees else prev + step;
    assert SameAngle(turned, prev + step);
    SameAngleTransitive(prev + step, TargetRotation(p, n) + step, TargetRotation(before, n));
    SameAngleTransitive(turned, prev + step, TargetRotation(before, n));
    AdjustedTargetUnique(TargetRotation(before, n), prev, turned);
  }

  /** The mount effect turns the dial from 0 to the active position: period 0 is shown there. */
  lemma MountRotation(n: int)
    requires ValidCount(n)
    ensures AdjustedTarget(TargetRotation(0, n), 0) == ActivePositionAngle
  {
  }

  lemma SameAngleTransitive(a: int, b: int, c: int)
    requires SameAngle(a, b) && SameAngle(b, c)
    ensures SameAngle(a, c)
  {
  }

  function Abs(x: int): nat {
    if x < 0 then -x else x
  }

  /** The slider widget's state. */
  class TimeFrameSlider {
    /** The periods on the dial, fixed for the widget's lifetime. */
    const periods: seq<Period>
    /** `activePeriod` state: the index of the period shown. */
    var activePeriod: int
    /** `rotation` state: the rotation handed to the dial. */
    var rotation: int
    /** `prevRotation.current`: the rotation the last effect settled on. */
    var prevRotation: int

    ghost predicate Valid()
      reads this
    {
      ValidCount(|periods|) && 0 <= activePeriod < |periods|
    }

    /** The rotation effect has run for the active period, whose dot is shown at the active position. */
    ghost predicate Synced()
      reads this
    {
      && Valid()
      && rotation == prevRotation
      && SameAngle(prevRotation, TargetRotation(activePeriod, |periods|))
    }

    /** The first render: period 0, no rotation yet. */
    constructor (periods: seq<Period>)
      requires ValidCount(|periods|)
      ensures this.periods == periods
      ensures activePeriod == 0 && rotation == 0 && prevRotation == 0
      ensures Valid()
    {
      this.periods := periods;
      activePeriod := 0;
      rotation := 0;
      prevRotation := 0;
    }

    /** The rotation effect: turn the short way round to the active period's target and remember it. */
    method SyncRotation()
      requires Valid()
      modifies this`rotation, this`prevRotation
      ensures Synced()
      ensures rotation == prevRotation == AdjustedTarget(TargetRotation(activePeriod, |periods|), old(prevRotation))
      ensures -HalfCircleDegrees <= rotation - old(prevRotation) < HalfCircleDegrees
      ensures old(Synced()) ==> rotation == old(rotation) && prevRotation == old(prevRotation)
    {
      var targetRotation := TargetRotation(activePeriod, |periods|);
      var current := prevRotation;
      var adjusted := AdjustedTarget(targetRotation, current);
      rotation := adjusted;
      prevRotation := adjusted;
      if old(Synced()) {
        AdjustedTargetFixpoint(targetRotation, current);
      }
    }

    /** The next button: move one period on, then the rotation effect. */
    method HandleNext()
      requires Synced()
      modifies this`activePeriod, this`rotation, this`prevRotation
      ensures Synced()
      ensures activePeriod == NextPeriod(old(activePeriod), |periods|)
      ensures rotation == old(rotation) - FullCircleDegrees / |periods|
    {
      NextTurnsOneStep(activePeriod, |periods|, prevRotation);
      activePeriod := NextPeriod(activePeriod, |periods|);
      SyncRotation();
    }

    /** The previous button: move one period back, then the rotation effect. */
    method HandlePrev()
      requires Synced()
      modifies this`activePeriod, this`rotation, this`prevRotation
      ensures Synced()
      ensures activePeriod == PrevPeriod(old(activePeriod), |periods|)
      ensures rotation == if |periods| == 2 then old(rotation) - HalfCircleDegrees
                          else old(rotation) + FullCircleDegrees / |periods|
    {
      PrevTurnsOneStep(activePeriod, |periods|, prevRotation);
      activePeriod := PrevPeriod(activePeriod, |periods|);
      SyncRotation();
    }

    /**
     * `onPeriodChange`, i.e. `setActivePeriod`, as a dot click calls it. React skips the effect
     * when the period does not change.
     */
    method SelectPeriod(index: int)
      requires Synced() && 0 <= index < |periods|
      modifies this`activePeriod, this`rotation, this`prevRotation
      ensures Synced()
      ensures activePeriod == index
      ensures rotation == AdjustedTarget(TargetRotation(index, |periods|), old(rotation))
      ensures -HalfCircleDegrees <= rotation - old(rotation) < HalfCircleDegrees
    {
      if index != activePeriod {
        activePeriod := index;
        SyncRotation();
      } else {
        AdjustedTargetFixpoint(TargetRotation(index, |periods|), rotation);
      }
    }

    /** The pagination text `String(activePeriod + 1).padStart(2, '0')/String(total).padStart(2, '0')`. */
    function Pagination(): (s: string)
      reads this
      requires Valid()
      ensures s == ['0', DigitChar(activePeriod + 1), '/', '0', DigitChar(|periods|)]
    {
      PadStart(DecimalString(activePeriod + 1), 2, '0') + "/" + PadStart(DecimalString(|periods|), 2, '0')
    }
  }

  /**
   * From the mounted widget, one next press and then two previous presses, the second wrapping
   * round to the last period: the dial turns one step each time, the short way.
   */
  method NextThenPrevTwiceScenario(periods: seq<Period>)
    requires |periods| == 6
  {
    var w := new TimeFrameSlider(periods);
    w.SyncRotation();
    assert w.rotation == -60;
    w.HandleNext();
    assert w.activePeriod == 1 && w.rotation == -120;
    w.HandlePrev();
    assert w.activePeriod == 0 && w.rotation == -60;
    w.HandlePrev();
    assert w.activePeriod == 5 && w.rotation == 0;
  }
}
