/**
  * `animateCounter`: a statistic counts up from 0 to its `data-target`. While the value is more
  * than three below the target it climbs in fast steps of `max(1, floor(target / 50))`, the last
  * of them clamped to `target - 3`; then it climbs one at a time until it reaches the target.
  * The timers that space the steps out are left out: what is modelled is the list of values the
  * element displays, in order.
  */
module Counter {

  /** `Math.max(1, Math.floor(target / 50))`; the divisor is positive, so `/` floors. */
  function FastIncrement(target: int): (r: int)
    ensures r >= 1
    ensures target >= 100 ==> r == target / 50
  {
    if target / 50 > 1 then target / 50 else 1
  }

  /** A fast step from `v`: one increment, clamped to `target - 3`. */
  function FastStep(target: int, v: int): (r: int)
    requires v < target - 3
    ensures v < r <= target - 3
  {
    if v + FastIncrement(target) > target - 3 then target - 3 else v + FastIncrement(target)
  }

  /**
    * The values displayed from the moment the counter shows `current` on: one `update` call per
    * value, a fast step while `current < target - 3`, a step of one while `current < target`,
    * nothing once the target is reached.
    */
  function Steps(target: int, current: int): seq<int>
    decreases target - current
  {
    if current < target - 3 then
      var next := FastStep(target, current);
      [next] + Steps(target, next)
    else if current < target then [current + 1] + Steps(target, current + 1)
    else []
  }

  /** Every value `animateCounter(target)` displays, in order. */
  function CounterValues(target: int): seq<int> {
    Steps(target, 0)
  }

  /** The displayed values climb strictly, stay above the start and never pass the target. */
  lemma {:induction false} StepsClimb(target: int, current: int)
    ensures forall i :: 0 <= i < |Steps(target, current)| ==> current < Steps(target, current)[i] <= target
    ensures forall i, j :: 0 <= i < j < |Steps(target, current)| ==> Steps(target, current)[i] < Steps(target, current)[j]
    decreases target - current
  {
    if current < target {
      var next := if current < target - 3 then FastStep(target, current) else current + 1;
      StepsClimb(target, next);
      var s, rest := Steps(target, current), Steps(target, next);
      assert s == [next] + rest;
      assert forall k :: 0 < k < |s| ==> s[k] == rest[k - 1];
    }
  }

  /** Within three of the target the counter shows every value up to the target, one by one. */
  lemma {:induction false} SlowPhase(target: int, current: int)
    requires target - 3 <= current
    ensures var s := Steps(target, current);
      && |s| == (if current < target then target - current else 0)
      && forall i :: 0 <= i < |s| ==> s[i] == current + 1 + i
    decreases target - current
  {
    if current < target {
      SlowPhase(target, current + 1);
    }
  }

  /**
    * From at most `target - 3` the counter shows fast values no greater than `target - 3`, then
    * exactly the three values `target - 2`, `target - 1`, `target`.
    */
  lemma {:induction false} FastPhase(target: int, current: int)
    requires current <= target - 3
    ensures var s := Steps(target, current);
      && |s| >= 3
      && s[|s| - 3..] == [target - 2, target - 1, target]
      && forall i :: 0 <= i < |s| - 3 ==> s[i] <= target - 3
    decreases target - current
  {
    if current < target - 3 {
      var next := FastStep(target, current);
      FastPhase(target, next);
      var rest := Steps(target, next);
      assert Steps(target, current) == [next] + rest;
      assert ([next] + rest)[|rest| + 1 - 3..] == rest[|rest| - 3..];
    } else {
      SlowPhase(target, current);
    }
  }

  /**
    * What the counter ends on: nothing is shown for a target of 0 or less; a target of 1 or 2 is
    * reached one step at a time; a larger target ends with exactly three steps of one, every
    * earlier value being at most `target - 3`. In every case the last value shown is the target.
    */
  lemma CounterEnds(target: int)
    ensures target <= 0 ==> CounterValues(target) == []
    ensures 0 < target < 3 ==> CounterValues(target) == if target == 1 then [1] else [1, 2]
    ensures target >= 3 ==> var s := CounterValues(target);
      && |s| >= 3 && s[|s| - 3..] == [target - 2, target - 1, target]
      && forall i :: 0 <= i < |s| - 3 ==> s[i] <= target - 3
    ensures target > 0 ==> |CounterValues(target)| > 0 && CounterValues(target)[|CounterValues(target)| - 1] == target
  {
    if target >= 3 {
      FastPhase(target, 0);
    } else {
      SlowPhase(target, 0);
    }
  }

  /** Appending one value and then the rest is appending the value followed by the rest. */
  lemma AppendOne(a: seq<int>, x: int, b: seq<int>)
    ensures (a + [x]) + b == a + ([x] + b)
  {
  }

  /** The value the steps of one start from: `target - 3`, or 0 for a target below 3. */
  function SlowStart(target: int): int {
    if target < 3 then 0 else target - 3
  }

  /**
    * The loop `update` runs through its timers: it reports every value displayed, in order,
    * and the number of steps of one taken at the end.
    */
  method AnimateCounter(target: int) returns (shown: seq<int>, slowSteps: nat)
    ensures shown == CounterValues(target)
    ensures slowSteps == if target <= 0 then 0 else if target < 3 then target else 3
  {
    var current := 0;
    var increment := FastIncrement(target);
    shown, slowSteps := [], 0;
    while current < target
      invariant shown + Steps(target, current) == CounterValues(target)
      invariant 0 <= current && (target > 0 ==> current <= target) && (target <= 0 ==> current == 0)
      invariant slowSteps == if current <= target - 3 then 0 else current - SlowStart(target)
      decreases target - current
    {
      ghost var previous, before := current, shown;
      if current < target - 3 {
        current := current + increment;
        if current > target - 3 {
          current := target - 3;
        }
        assert current == FastStep(target, previous);
        shown := shown + [current];
      } else {
        current := current + 1;
        shown := shown + [current];
        slowSteps := slowSteps + 1;
      }
      assert Steps(target, previous) == [current] + Steps(target, current);
      AppendOne(before, current, Steps(target, current));
    }
  }
}
