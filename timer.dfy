/** A countdown timer that is advanced by hand once per frame. It counts down
    only while armed (time > 0) and while its optional condition holds, and
    signals its callback when the count reaches zero. It never re-arms
    itself: that is the callback's business. */
module Timers {

  /** Whether an update with this state counts down at all. */
  predicate Counts(time: real, hasCond: bool, condHolds: bool) {
    time > 0.0 && (!hasCond || condHolds)
  }

  /** The time left after one update. */
  function Tick(time: real, dt: real, hasCond: bool, condHolds: bool): (r: real)
    ensures time <= 0.0 ==> r == time
    ensures hasCond && !condHolds ==> r == time
    ensures Counts(time, hasCond, condHolds) ==> r == time - dt
  {
    if Counts(time, hasCond, condHolds) then time - dt else time
  }

  /** Whether one update calls the callback back. */
  predicate Fires(time: real, dt: real, hasCallback: bool, hasCond: bool, condHolds: bool) {
    Counts(time, hasCond, condHolds) && time - dt <= 0.0 && hasCallback
  }

  class Timer {
    /** Seconds left; zero or less means the timer is idle. */
    var time: real
    /** Whether a callback was given. */
    const hasCallback: bool
    /** Whether a condition was given; its value is sampled at each update. */
    const hasCond: bool
    /** Extra arguments handed to the callback after the timer itself. */
    const args: seq<int>

    constructor (time: real, hasCallback: bool, hasCond: bool, args: seq<int>)
      ensures this.time == time && this.hasCallback == hasCallback && this.hasCond == hasCond
      ensures this.args == args
    {
      this.time := time;
      this.hasCallback := hasCallback;
      this.hasCond := hasCond;
      this.args := args;
    }

    /** Advances the timer by dt seconds. The returned flag says that the
        callback must now run, with this timer as its first argument. */
    method Update(dt: real, condHolds: bool) returns (fired: bool)
      modifies this
      ensures time == Tick(old(time), dt, hasCond, condHolds)
      ensures fired == Fires(old(time), dt, hasCallback, hasCond, condHolds)
      ensures fired ==> time <= 0.0
    {
      fired := false;
      if time > 0.0 && (!hasCond || condHolds) {
        time := time - dt;
        if time <= 0.0 && hasCallback {
          fired := true;
        }
      }
    }
  }

  /** Sum of a sequence of frame durations. */
  function Sum(dts: seq<real>): real {
    if dts == [] then 0.0 else dts[0] + Sum(dts[1..])
  }

  predicate AllPositive(dts: seq<real>) {
    forall k :: 0 <= k < |dts| ==> dts[k] > 0.0
  }

  /** A timer without a condition whose callback never re-arms it, updated
      once per element of dts: the time left and how many times the callback
      ran. */
  function Run(time: real, dts: seq<real>, hasCallback: bool): (real, nat)
    decreases |dts|
  {
    if dts == [] then (time, 0)
    else
      var fired := if Fires(time, dts[0], hasCallback, false, true) then 1 else 0;
      var rest := Run(Tick(time, dts[0], false, true), dts[1..], hasCallback);
      (rest.0, fired + rest.1)
  }

  /** A timer that starts idle stays idle and never calls back. */
  lemma {:induction false} IdleTimerStaysIdle(time: real, dts: seq<real>, hasCallback: bool)
    requires time <= 0.0
    ensures Run(time, dts, hasCallback) == (time, 0)
  {
    if dts != [] {
      IdleTimerStaysIdle(time, dts[1..], hasCallback);
    }
  }

  /** Over frames of positive duration, an armed timer with a callback calls
      back exactly once if the frames add up to at least its time, and never
      otherwise; once it has fired it stays idle. */
  lemma {:induction false} FiresOnceWhenTimeRunsOut(time: real, dts: seq<real>)
    requires AllPositive(dts)
    requires time > 0.0
    ensures Run(time, dts, true).1 == (if Sum(dts) >= time then 1 else 0)
    ensures Sum(dts) < time ==> Run(time, dts, true).0 == time - Sum(dts)
    ensures Sum(dts) >= time ==> Run(time, dts, true).0 <= 0.0
    decreases |dts|
  {
    if dts != [] {
      var t := Tick(time, dts[0], false, true);
      assert AllPositive(dts[1..]) by {
        forall k | 0 <= k < |dts[1..]| ensures dts[1..][k] > 0.0 {
          assert dts[1..][k] == dts[k + 1];
        }
      }
      SumOfPositiveIsPositive(dts[1..]);
      if t > 0.0 {
        FiresOnceWhenTimeRunsOut(t, dts[1..]);
      } else {
        IdleTimerStaysIdle(t, dts[1..], true);
      }
    }
  }

  lemma {:induction false} SumOfPositiveIsPositive(dts: seq<real>)
    requires AllPositive(dts)
    ensures Sum(dts) >= 0.0
    ensures dts != [] ==> Sum(dts) > 0.0
  {
    if dts != [] {
      assert AllPositive(dts[1..]) by {
        forall k | 0 <= k < |dts[1..]| ensures dts[1..][k] > 0.0 {
          assert dts[1..][k] == dts[k + 1];
        }
      }
      SumOfPositiveIsPositive(dts[1..]);
    }
  }

  /** Without a callback the timer still counts down, and never calls back. */
  lemma {:induction false} NoCallbackNeverFires(time: real, dts: seq<real>)
    ensures Run(time, dts, false).1 == 0
    ensures Run(time, dts, false).0 == Run(time, dts, true).0
    decreases |dts|
  {
    if dts != [] {
      NoCallbackNeverFires(Tick(time, dts[0], false, true), dts[1..]);
    }
  }
}
