/** The smoothing channel of src/utils/smooth.ts: `smooth(initialValue,
    smoothFactor, stopThreshold)` returns a closure that remembers the value it
    last produced and, on each call, moves it toward a target by a share of the
    remaining distance proportional to the frames elapsed, snapping onto the
    target once within `stopThreshold` of it. */
module Smooth {
  import opened JsMath

  /** The value one step proposes before the snap rule: the previous value
      moved by `(target - prev) * frames`, scaled by `multiplier`. It keeps
      the fraction `1 - frames * multiplier` of the distance to the target. */
  function Candidate(prev: real, target: real, frames: real, multiplier: real): (c: real)
    ensures target - c == (target - prev) * (1.0 - frames * multiplier)
  {
    prev + (target - prev) * frames * multiplier
  }

  /** The value one call of the closure returns and stores. It equals the
      target exactly when the candidate lands within the (non-negative part of
      the) threshold; otherwise it is the candidate itself. */
  function NextValue(prev: real, target: real, frames: real, multiplier: real, stopThreshold: real): (r: real)
    ensures r == target <==>
            Abs(target - Candidate(prev, target, frames, multiplier)) <= if stopThreshold < 0.0 then 0.0 else stopThreshold
    ensures r != target ==> r == Candidate(prev, target, frames, multiplier)
  {
    var candidate := Candidate(prev, target, frames, multiplier);
    if Abs(target - candidate) <= stopThreshold then target else candidate
  }

  /** `k` successive calls with the same target and frame count. While each
      call moves by a share of at most the whole distance, the calls never
      take the value farther from the target. */
  function Iterate(prev: real, target: real, frames: real, multiplier: real, stopThreshold: real, k: nat): (r: real)
    ensures 0.0 <= frames * multiplier <= 1.0 && stopThreshold >= 0.0 ==> Abs(target - r) <= Abs(target - prev)
    decreases k
  {
    if k == 0 then prev
    else
      var next := NextValue(prev, target, frames, multiplier, stopThreshold);
      assert 0.0 <= frames * multiplier <= 1.0 && stopThreshold >= 0.0 ==> Abs(target - next) <= Abs(target - prev) by {
        if 0.0 <= frames * multiplier <= 1.0 && stopThreshold >= 0.0 {
          SnappedDistance(prev, target, frames, multiplier, stopThreshold);
          ScaleDown(Abs(target - prev), 1.0 - frames * multiplier);
        }
      }
      Iterate(next, target, frames, multiplier, stopThreshold, k - 1)
  }

  /** The stateful closure returned by `smooth`. */
  class SmoothedFn {
    /** The captured `prevValue`: the value the last call returned. */
    var prev: real
    const smoothFactor: real
    /** `1 / smoothFactor`, computed once by the factory. */
    const multiplier: real
    const stopThreshold: real

    /** The factory `smooth`, with the same defaults. */
    constructor (initialValue: real, smoothFactor: real := 20.0, stopThreshold: real := 0.0001)
      requires smoothFactor != 0.0
      ensures prev == initialValue
      ensures this.smoothFactor == smoothFactor && this.stopThreshold == stopThreshold
      ensures multiplier == 1.0 / smoothFactor && multiplier * smoothFactor == 1.0
    {
      this.smoothFactor := smoothFactor;
      this.stopThreshold := stopThreshold;
      multiplier := 1.0 / smoothFactor;
      prev := initialValue;
    }

    /** One call of the closure: returns the new value and whether it equals the
        target, and remembers the new value for the next call. */
    method Step(nextValue: real, frames: real := 1.0) returns (value: real, done: bool)
      modifies this`prev
      ensures value == NextValue(old(prev), nextValue, frames, multiplier, stopThreshold)
      ensures prev == value
      ensures done <==> value == nextValue
    {
      var delta := (nextValue - prev) * frames;
      var newValue := prev + delta * multiplier;
      if Abs(nextValue - newValue) <= stopThreshold {
        newValue := nextValue;
      }
      prev := newValue;
      value, done := newValue, newValue == nextValue;
    }
  }

  /** With no frames elapsed the value stays put, unless it already lies
      within the threshold, in which case it snaps onto the target. */
  lemma NoFramesNoMove(prev: real, target: real, multiplier: real, stopThreshold: real)
    ensures NextValue(prev, target, 0.0, multiplier, stopThreshold)
            == if Abs(target - prev) <= stopThreshold then target else prev
  {
  }

  /** Once the value sits on the target, stepping toward the same target
      keeps it there (and so reports done). */
  lemma StaysAtTarget(target: real, frames: real, multiplier: real, stopThreshold: real)
    requires stopThreshold >= 0.0
    ensures NextValue(target, target, frames, multiplier, stopThreshold) == target
  {
  }

  /** Any number of further steps from the target stays on the target. */
  lemma {:induction false} IterateAtTarget(target: real, frames: real, multiplier: real, stopThreshold: real, k: nat)
    requires stopThreshold >= 0.0
    ensures Iterate(target, target, frames, multiplier, stopThreshold, k) == target
    decreases k
  {
    if k > 0 {
      StaysAtTarget(target, frames, multiplier, stopThreshold);
      IterateAtTarget(target, frames, multiplier, stopThreshold, k - 1);
    }
  }

  /** No overshoot: while `frames` does not exceed `smoothFactor`, a step
      lands between the previous value and the target, so it never ends
      farther from the target than it started. */
  lemma NoOvershoot(prev: real, target: real, frames: real, smoothFactor: real, stopThreshold: real)
    requires smoothFactor > 0.0 && 0.0 <= frames <= smoothFactor
    ensures var r := NextValue(prev, target, frames, 1.0 / smoothFactor, stopThreshold);
            (prev <= target ==> prev <= r <= target) &&
            (target <= prev ==> target <= r <= prev) &&
            Abs(target - r) <= Abs(target - prev)
  {
    var m := 1.0 / smoothFactor;
    var s := frames * m;
    ShareOfFrames(frames, smoothFactor);
    ScaleDown(target - prev, 1.0 - s);
  }

  /** The number of single-frame steps within which a channel with the given
      tuning reaches its target from `prev`. */
  function StepBound(prev: real, target: real, smoothFactor: real, stopThreshold: real): (n: int)
    requires smoothFactor > 0.0 && stopThreshold > 0.0
    ensures n >= 1
  {
    BoundFor(Abs(target - prev), smoothFactor, stopThreshold)
  }

  /** The step bound for a distance `d`: how many times `stopThreshold / smoothFactor`
      fits into it, plus one. */
  function BoundFor(d: real, smoothFactor: real, stopThreshold: real): (n: int)
    requires d >= 0.0 && smoothFactor > 0.0 && stopThreshold > 0.0
    ensures n >= 1
  {
    MulNonNeg(d, smoothFactor);
    (d * smoothFactor / stopThreshold).Floor + 1
  }

  /** A single-frame step that does not snap takes at least one unit off the
      step bound. */
  lemma StepShrinksBound(prev: real, target: real, smoothFactor: real, stopThreshold: real)
    requires smoothFactor > 1.0 && stopThreshold > 0.0
    requires NextValue(prev, target, 1.0, 1.0 / smoothFactor, stopThreshold) != target
    ensures StepBound(NextValue(prev, target, 1.0, 1.0 / smoothFactor, stopThreshold), target, smoothFactor, stopThreshold)
            <= StepBound(prev, target, smoothFactor, stopThreshold) - 1
  {
    var m := 1.0 / smoothFactor;
    ShareOfFrames(1.0, smoothFactor);
    var next := NextValue(prev, target, 1.0, m, stopThreshold);
    var d := Abs(target - prev);
    var d' := StepDistance(prev, target, 1.0, m);
    assert d' == Abs(target - next);
    assert d' > stopThreshold;
    BoundDrop(d, d', m, smoothFactor, stopThreshold);
  }

  /** The arithmetic behind StepShrinksBound: losing the share `m` of a
      distance above the threshold lowers `distance * smoothFactor / stopThreshold`
      by more than one. */
  lemma BoundDrop(d: real, d': real, m: real, smoothFactor: real, stopThreshold: real)
    requires smoothFactor > 1.0 && stopThreshold > 0.0 && m * smoothFactor == 1.0 && 0.0 < m <= 1.0
    requires d' == d * (1.0 - m) && d' > stopThreshold
    ensures d' >= 0.0 && d >= 0.0
    ensures BoundFor(d', smoothFactor, stopThreshold) <= BoundFor(d, smoothFactor, stopThreshold) - 1
  {
    assert d > stopThreshold by {
      ScaleDown(d, 1.0 - m);
    }
    var x := d * smoothFactor / stopThreshold;
    var x' := d' * smoothFactor / stopThreshold;
    ScaledGap(d, d', m, smoothFactor, stopThreshold);
    FloorGap(x', x);
    assert BoundFor(d, smoothFactor, stopThreshold) == x.Floor + 1;
    assert BoundFor(d', smoothFactor, stopThreshold) == x'.Floor + 1;
  }

  /** Measured in units of `stopThreshold / smoothFactor`, removing the share
      `m = 1 / smoothFactor` of a distance above the threshold removes more than one unit. */
  lemma ScaledGap(d: real, d': real, m: real, smoothFactor: real, stopThreshold: real)
    requires smoothFactor > 1.0 && stopThreshold > 0.0 && m * smoothFactor == 1.0
    requires d' == d * (1.0 - m) && d > stopThreshold
    ensures d' * smoothFactor / stopThreshold < d * smoothFactor / stopThreshold - 1.0
  {
    assert (d - d') * smoothFactor == d by {
      assert d - d' == d * m;
      assert (d * m) * smoothFactor == d * (m * smoothFactor);
    }
    DivSub(d * smoothFactor, d' * smoothFactor, stopThreshold);
    assert d * smoothFactor - d' * smoothFactor == (d - d') * smoothFactor;
    RatioAboveOne(d, stopThreshold);
  }

  lemma FloorGap(x': real, x: real)
    requires x' < x - 1.0
    ensures x'.Floor <= x.Floor - 1
  {
  }

  /** Convergence: with a fixed target, one frame per call, `smoothFactor > 1`
      and a positive threshold, the channel reaches the target within
      `StepBound` calls and stays there. */
  lemma {:induction false} Converges(prev: real, target: real, smoothFactor: real, stopThreshold: real, k: nat)
    requires smoothFactor > 1.0 && stopThreshold > 0.0
    requires k >= StepBound(prev, target, smoothFactor, stopThreshold)
    ensures Iterate(prev, target, 1.0, 1.0 / smoothFactor, stopThreshold, k) == target
    decreases k
  {
    var m := 1.0 / smoothFactor;
    var next := NextValue(prev, target, 1.0, m, stopThreshold);
    if next == target {
      IterateAtTarget(target, 1.0, m, stopThreshold, k - 1);
    } else {
      StepShrinksBound(prev, target, smoothFactor, stopThreshold);
      Converges(next, target, smoothFactor, stopThreshold, k - 1);
    }
  }

  /** Frame-rate consistency: while two frames do not exceed `smoothFactor`,
      one call covering two frames ends at least as close to the target as two
      calls covering one frame each. */
  lemma TwoFramesAtOnce(prev: real, target: real, smoothFactor: real, stopThreshold: real)
    requires smoothFactor >= 2.0 && stopThreshold >= 0.0
    ensures var m := 1.0 / smoothFactor;
            Abs(target - NextValue(prev, target, 2.0, m, stopThreshold))
            <= Abs(target - NextValue(NextValue(prev, target, 1.0, m, stopThreshold), target, 1.0, m, stopThreshold))
  {
    var m := 1.0 / smoothFactor;
    ShareOfFrames(2.0, smoothFactor);
    var once := NextValue(prev, target, 1.0, m, stopThreshold);
    if once == target {
      StaysAtTarget(target, 1.0, m, stopThreshold);
      JumpWhenSingleSnaps(prev, target, m, stopThreshold);
    } else {
      JumpWhenSingleMoves(prev, target, m, stopThreshold);
    }
  }

  lemma JumpWhenSingleSnaps(prev: real, target: real, m: real, stopThreshold: real)
    requires 0.0 < m <= 0.5 && stopThreshold >= 0.0
    requires NextValue(prev, target, 1.0, m, stopThreshold) == target
    ensures NextValue(prev, target, 2.0, m, stopThreshold) == target
  {
    var d := Abs(target - prev);
    SnappedDistance(prev, target, 1.0, m, stopThreshold);
    SnappedDistance(prev, target, 2.0, m, stopThreshold);
    DoubleShareCloser(d, StepDistance(prev, target, 1.0, m), StepDistance(prev, target, 2.0, m), m);
  }

  lemma JumpWhenSingleMoves(prev: real, target: real, m: real, stopThreshold: real)
    requires 0.0 < m <= 0.5 && stopThreshold >= 0.0
    requires NextValue(prev, target, 1.0, m, stopThreshold) != target
    ensures Abs(target - NextValue(prev, target, 2.0, m, stopThreshold))
            <= Abs(target - NextValue(NextValue(prev, target, 1.0, m, stopThreshold), target, 1.0, m, stopThreshold))
  {
    var once := NextValue(prev, target, 1.0, m, stopThreshold);
    DoubleBeforeSnap(prev, target, m, stopThreshold);
    SnappedDistance(prev, target, 2.0, m, stopThreshold);
    SnappedDistance(once, target, 1.0, m, stopThreshold);
    SnapKeepsOrder(StepDistance(prev, target, 2.0, m), StepDistance(once, target, 1.0, m), stopThreshold);
  }

  /** Before snapping, one double step lands no farther from the target than
      two single steps, the first of which did not snap. */
  lemma DoubleBeforeSnap(prev: real, target: real, m: real, stopThreshold: real)
    requires 0.0 < m <= 0.5 && stopThreshold >= 0.0
    requires NextValue(prev, target, 1.0, m, stopThreshold) != target
    ensures StepDistance(prev, target, 2.0, m)
            <= StepDistance(NextValue(prev, target, 1.0, m, stopThreshold), target, 1.0, m)
  {
    var once := NextValue(prev, target, 1.0, m, stopThreshold);
    var d1 := StepDistance(prev, target, 1.0, m);
    var d11 := StepDistance(once, target, 1.0, m);
    var d2 := StepDistance(prev, target, 2.0, m);
    SecondStepDistance(prev, target, m, stopThreshold);
    DistanceOrder(Abs(target - prev), d1, d11, d2, m);
  }

  /** Snapping to the target keeps the order of two distances. */
  lemma SnapKeepsOrder(near: real, far: real, stopThreshold: real)
    requires 0.0 <= near <= far
    ensures (if near <= stopThreshold then 0.0 else near) <= (if far <= stopThreshold then 0.0 else far)
  {
  }

  /** After a first single-frame step that does not snap, the second one's
      candidate keeps the same share of the distance the first one left. */
  lemma SecondStepDistance(prev: real, target: real, m: real, stopThreshold: real)
    requires 0.0 < m <= 0.5 && stopThreshold >= 0.0
    requires NextValue(prev, target, 1.0, m, stopThreshold) != target
    ensures StepDistance(NextValue(prev, target, 1.0, m, stopThreshold), target, 1.0, m)
            == StepDistance(prev, target, 1.0, m) * (1.0 - 1.0 * m)
  {
    var once := NextValue(prev, target, 1.0, m, stopThreshold);
    SnappedDistance(prev, target, 1.0, m, stopThreshold);
    assert Abs(target - once) == StepDistance(prev, target, 1.0, m);
  }

  /** How far from the target a step ends: nowhere when it snaps, otherwise
      the distance its candidate leaves. */
  lemma SnappedDistance(prev: real, target: real, frames: real, multiplier: real, stopThreshold: real)
    requires 0.0 <= frames * multiplier <= 1.0 && stopThreshold >= 0.0
    ensures Abs(target - NextValue(prev, target, frames, multiplier, stopThreshold))
            == if StepDistance(prev, target, frames, multiplier) <= stopThreshold then 0.0
               else StepDistance(prev, target, frames, multiplier)
  {
  }

  /** The distance to the target that the candidate of a step leaves,
      for a step that moves by a share of at most the whole distance. */
  function StepDistance(prev: real, target: real, frames: real, multiplier: real): (dist: real)
    requires 0.0 <= frames * multiplier <= 1.0
    ensures dist == Abs(target - prev) * (1.0 - frames * multiplier)
  {
    AbsScale(target - prev, 1.0 - frames * multiplier);
    Abs(target - Candidate(prev, target, frames, multiplier))
  }

  /** One double share leaves no more distance than one single share. */
  lemma DoubleShareCloser(d: real, d1: real, d2: real, m: real)
    requires d >= 0.0 && 0.0 < m <= 0.5
    requires d1 == d * (1.0 - 1.0 * m) && d2 == d * (1.0 - 2.0 * m)
    ensures d2 <= d1
  {
    assert d1 - d2 == d * m;
    MulNonNeg(d, m);
  }

  /** Two single shares leave more distance than one double share, and less
      than one single share. */
  lemma DistanceOrder(d: real, d1: real, d11: real, d2: real, m: real)
    requires d >= 0.0 && 0.0 < m <= 0.5
    requires d1 == d * (1.0 - 1.0 * m) && d2 == d * (1.0 - 2.0 * m) && d11 == d1 * (1.0 - 1.0 * m)
    ensures d2 <= d11 <= d1
  {
    assert 1.0 - 1.0 * m == 1.0 - m;
    assert d11 - d2 == d * (m * m);
    MulNonNeg(m, m);
    MulNonNeg(d, m * m);
    assert d1 - d11 == d1 * m;
    MulNonNeg(d, 1.0 - m);
    MulNonNeg(d1, m);
  }

  // Arithmetic helpers for the lemmas above.

  /** `frames / smoothFactor` as a share between 0 and 1. */
  lemma ShareOfFrames(frames: real, smoothFactor: real)
    requires smoothFactor > 0.0 && 0.0 <= frames <= smoothFactor
    ensures (1.0 / smoothFactor) * smoothFactor == 1.0
    ensures 0.0 <= frames * (1.0 / smoothFactor) <= 1.0
    ensures frames > 0.0 ==> frames * (1.0 / smoothFactor) > 0.0
    ensures frames * (1.0 / smoothFactor) * smoothFactor == frames
  {
    var m := 1.0 / smoothFactor;
    assert m * smoothFactor == 1.0;
    assert m > 0.0;
    assert (frames * m) * smoothFactor == frames * (m * smoothFactor);
  }

  /** Scaling by a share between 0 and 1 moves a number toward zero. */
  lemma ScaleDown(d: real, s: real)
    requires 0.0 <= s <= 1.0
    ensures d >= 0.0 ==> 0.0 <= d * s <= d
    ensures d <= 0.0 ==> d <= d * s <= 0.0
    ensures Abs(d * s) <= Abs(d)
  {
    assert d - d * s == d * (1.0 - s);
    if d >= 0.0 {
      MulNonNeg(d, s);
      MulNonNeg(d, 1.0 - s);
    } else {
      MulNonNeg(-d, s);
      MulNonNeg(-d, 1.0 - s);
    }
  }

  lemma AbsScale(a: real, s: real)
    requires s >= 0.0
    ensures Abs(a * s) == Abs(a) * s
  {
    if a < 0.0 {
      MulNonNeg(-a, s);
    } else {
      MulNonNeg(a, s);
    }
  }

  lemma DivSub(a: real, b: real, c: real)
    requires c != 0.0
    ensures a / c - b / c == (a - b) / c
  {
    assert (a / c) * c == a;
    assert (b / c) * c == b;
    assert ((a - b) / c) * c == a - b;
    assert (a / c - b / c) * c == a - b;
  }

  lemma RatioAboveOne(d: real, t: real)
    requires d > t > 0.0
    ensures d / t > 1.0
  {
    assert (d / t) * t == d;
  }
}
