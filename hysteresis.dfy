/**
 * The pass/fail hysteresis of `checkStateMachine`
 * (internal/scraper/scraper.go:158-192): two consecutive-outcome counters
 * and a threshold; `pass` and `fail` fire their callback only when the
 * passing (resp. failing) flag changes.
 */
module Hysteresis {

  /** The three integer fields of `checkStateMachine`. */
  datatype Counters = Counters(passes: int, failures: int, threshold: int)

  /** `isPassing`: more consecutive passes than the threshold. */
  predicate Passing(c: Counters)
  {
    c.passes > c.threshold
  }

  /** `isFailing`: more consecutive failures than the threshold. */
  predicate Failing(c: Counters)
  {
    c.failures > c.threshold
  }

  /**
   * The counters after `pass`: one more pass, failures reset. The machine is
   * then passing when it was already, or when the pass reaches the
   * threshold, and (for a non-negative threshold) never failing.
   */
  function AfterPass(c: Counters): (r: Counters)
    ensures r.threshold == c.threshold
    ensures Passing(r) <==> Passing(c) || c.passes == c.threshold
    ensures c.threshold >= 0 ==> !Failing(r)
  {
    Counters(c.passes + 1, 0, c.threshold)
  }

  /**
   * The counters after `fail`: passes reset, one more failure. The machine is
   * then failing when it was already, or when the failure reaches the
   * threshold, and (for a non-negative threshold) never passing.
   */
  function AfterFail(c: Counters): (r: Counters)
    ensures r.threshold == c.threshold
    ensures Failing(r) <==> Failing(c) || c.failures == c.threshold
    ensures c.threshold >= 0 ==> !Passing(r)
  {
    Counters(0, c.failures + 1, c.threshold)
  }

  /** `pass` calls back when `isPassing` changes, which is exactly when the old count equals the threshold. */
  function PassFires(c: Counters): (fires: bool)
    ensures fires <==> c.passes == c.threshold
    ensures fires ==> !Passing(c) && Passing(AfterPass(c))
  {
    Passing(AfterPass(c)) != Passing(c)
  }

  /** `fail` calls back when `isFailing` changes, which is exactly when the old count equals the threshold. */
  function FailFires(c: Counters): (fires: bool)
    ensures fires <==> c.failures == c.threshold
    ensures fires ==> !Failing(c) && Failing(AfterFail(c))
  {
    Failing(AfterFail(c)) != Failing(c)
  }

  /** `checkStateMachine`, updated in place by `pass` and `fail`. */
  class CheckStateMachine {
    var passes: int
    var failures: int
    var threshold: int

    function State(): Counters
      reads this
    {
      Counters(passes, failures, threshold)
    }

    /** The zero value `var sm checkStateMachine` that `Run` starts from. */
    constructor ()
      ensures State() == Counters(0, 0, 0)
    {
      passes, failures, threshold := 0, 0, 0;
    }

    /** `isPassing` of the current counters. */
    predicate IsPassing()
      reads this
    {
      Passing(State())
    }

    /** `isFailing` of the current counters. */
    predicate IsFailing()
      reads this
    {
      Failing(State())
    }

    /** `fail`: returns whether the callback was invoked. */
    method Fail() returns (fired: bool)
      modifies this
      ensures State() == AfterFail(old(State()))
      ensures fired == FailFires(old(State()))
    {
      var wasFailing := IsFailing();
      passes := 0;
      failures := failures + 1;
      var isFailing := IsFailing();
      fired := isFailing != wasFailing;
    }

    /** `pass`: returns whether the callback was invoked. */
    method Pass() returns (fired: bool)
      modifies this
      ensures State() == AfterPass(old(State()))
      ensures fired == PassFires(old(State()))
    {
      var wasPassing := IsPassing();
      passes := passes + 1;
      failures := 0;
      var isPassing := IsPassing();
      fired := isPassing != wasPassing;
    }
  }

  /** One classified scrape: `true` for a pass, `false` for a check failure. */
  function Step(c: Counters, pass: bool): Counters
  {
    if pass then AfterPass(c) else AfterFail(c)
  }

  function Fires(c: Counters, pass: bool): bool
  {
    if pass then PassFires(c) else FailFires(c)
  }

  /** The counters after a sequence of outcomes, applied in order. */
  function RunOutcomes(c: Counters, outcomes: seq<bool>): Counters
  {
    if outcomes == [] then c
    else Step(RunOutcomes(c, outcomes[..|outcomes| - 1]), outcomes[|outcomes| - 1])
  }

  /** Whether the callback fires on the `i`-th outcome. */
  function FiredAt(c: Counters, outcomes: seq<bool>, i: nat): bool
    requires i < |outcomes|
  {
    Fires(RunOutcomes(c, outcomes[..i]), outcomes[i])
  }

  /** The length of the run of equal outcomes that ends the sequence. */
  function Streak(outcomes: seq<bool>): (n: nat)
    requires |outcomes| > 0
    ensures 1 <= n <= |outcomes|
  {
    var k := |outcomes| - 1;
    if k == 0 || outcomes[k - 1] != outcomes[k] then 1 else 1 + Streak(outcomes[..k])
  }

  /** From the zero counters, the counter of the latest outcome equals its streak and the other is zero. */
  lemma {:induction false} RunFromZero(threshold: int, outcomes: seq<bool>)
    requires |outcomes| > 0
    ensures var c := RunOutcomes(Counters(0, 0, threshold), outcomes);
            c == if outcomes[|outcomes| - 1] then Counters(Streak(outcomes), 0, threshold)
                 else Counters(0, Streak(outcomes), threshold)
  {
    var k := |outcomes| - 1;
    var init := outcomes[..k];
    if k > 0 {
      RunFromZero(threshold, init);
      assert init[k - 1] == outcomes[k - 1];
    }
  }

  /**
   * Hysteresis: starting from the zero counters, the callback fires on an
   * outcome exactly when it completes a run of `threshold + 1` equal
   * outcomes, so once per run and never on later outcomes of the same run.
   */
  lemma FiresOnStreak(threshold: int, outcomes: seq<bool>, i: nat)
    requires i < |outcomes|
    ensures FiredAt(Counters(0, 0, threshold), outcomes, i) <==> Streak(outcomes[..i + 1]) == threshold + 1
  {
    var p := outcomes[..i];
    var q := outcomes[..i + 1];
    assert q[..i] == p;
    if i > 0 {
      RunFromZero(threshold, p);
      assert q[i - 1] == p[i - 1];
    }
  }

  /** With threshold 1, three passes in a row fire the callback on the second only. */
  lemma ThresholdOneExample()
    ensures !FiredAt(Counters(0, 0, 1), [true, true, true], 0)
    ensures FiredAt(Counters(0, 0, 1), [true, true, true], 1)
    ensures !FiredAt(Counters(0, 0, 1), [true, true, true], 2)
  {
    var outs := [true, true, true];
    FiresOnStreak(1, outs, 0);
    FiresOnStreak(1, outs, 1);
    FiresOnStreak(1, outs, 2);
    assert outs[..1] == [true];
    assert outs[..2] == [true, true] && outs[..2][..1] == [true];
    assert outs[..3] == outs && outs[..3][..2] == [true, true];
  }
}
