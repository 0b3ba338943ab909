/** When a participant stops racing, and with which time: server/game/race.cpp over any run of steps, told from the
    steps alone. */
module RaceTimes {
  import opened Wrappers
  import opened Players
  import opened Races

  /** The ticks that pass in the course of the steps. */
  function Elapsed(steps: seq<RaceStep>): nat {
    if steps == [] then 0
    else
      var last := steps[|steps| - 1];
      Elapsed(steps[..|steps| - 1]) + if last.Advance? then last.dt else 0
  }

  function Clock(r: RaceState, steps: seq<RaceStep>): nat { r.duration + Elapsed(steps) }

  /** The health that physics has last reported of `p`'s car, if any. */
  function LastHealth(steps: seq<RaceStep>, p: PlayerId): Option<real> {
    if steps == [] then None
    else
      var last := steps[|steps| - 1];
      if last.Physics? && p in last.health then Some(last.health[p]) else LastHealth(steps[..|steps| - 1], p)
  }

  function HealthOf(r: RaceState, steps: seq<RaceStep>, p: PlayerId): real
    requires p in r.cars
  {
    var last := LastHealth(steps, p);
    if last.Some? then last.value else r.cars[p]
  }

  ghost predicate IsActive(r: RaceState, p: PlayerId) { p in r.parts && r.parts[p].state.Active? }

  /** Step `n` takes `p` over the last checkpoint of the race's own route, or is the cheat that does as much. */
  ghost predicate Wins(r: RaceState, steps: seq<RaceStep>, n: nat, p: PlayerId)
    requires n < |steps| && IsActive(RaceAfter(r, steps[..n]), p)
  {
    var step, count := steps[n], r.track.checkpointCount;
    || (step.Crossing? && step.player == p && step.routeId == r.track.routeId
        && step.checkpoint == RaceAfter(r, steps[..n]).parts[p].next && step.checkpoint + 1 == count)
    || (step.CheatWin? && step.player == p && p in r.cars && count > 0)
  }

  /** Step `n` lets time pass, with `p`'s car out of health or the race out of time. */
  ghost predicate IsOut(r: RaceState, steps: seq<RaceStep>, n: nat, p: PlayerId)
    requires n < |steps|
  {
    steps[n].Advance? && ((p in r.cars && HealthOf(r, steps[..n], p) <= 0.0) || Clock(r, steps[..n + 1]) >= 36000)
  }

  lemma {:induction false} DurationIsClock(r: RaceState, steps: seq<RaceStep>)
    ensures RaceAfter(r, steps).duration == Clock(r, steps) && RaceAfter(r, steps).track == r.track
    decreases |steps|
  {
    if steps != [] {
      DurationIsClock(r, steps[..|steps| - 1]);
    }
  }

  lemma StepKeepsTime(r: RaceState, step: RaceStep, p: PlayerId)
    requires p in r.parts
    ensures p in Do(r, step).parts
    ensures !IsActive(r, p) ==>
              && !IsActive(Do(r, step), p) && Do(r, step).parts[p].finishTime == r.parts[p].finishTime
              && (Do(r, step).parts[p].state == r.parts[p].state || Do(r, step).parts[p].state.Disconnected?)
    ensures IsActive(Do(r, step), p) ==>
              && IsActive(r, p) && Do(r, step).parts[p].finishTime == r.parts[p].finishTime
              && (p in Do(r, step).cars <==> p in r.cars)
              && (p in r.cars ==>
                    Do(r, step).cars[p] == if step.Physics? && p in step.health then step.health[p] else r.cars[p])
  {
  }

  /** As long as `p` is racing its car has the health last reported. */
  lemma {:induction false} HealthIsAsReported(r: RaceState, steps: seq<RaceStep>, p: PlayerId)
    requires p in r.parts
    ensures p in RaceAfter(r, steps).parts
    ensures IsActive(RaceAfter(r, steps), p) ==>
              && IsActive(r, p) && RaceAfter(r, steps).parts[p].finishTime == r.parts[p].finishTime
              && (p in RaceAfter(r, steps).cars <==> p in r.cars)
              && (p in r.cars ==> RaceAfter(r, steps).cars[p] == HealthOf(r, steps, p))
    decreases |steps|
  {
    if steps != [] {
      HealthIsAsReported(r, steps[..|steps| - 1], p);
      StepKeepsTime(RaceAfter(r, steps[..|steps| - 1]), steps[|steps| - 1], p);
    }
  }

  /** What `a` is once step `n` has stopped it: over the line it has the time on the clock at the step, out of the
      race the time with the step counted in, and when it leaves it keeps what it had. */
  ghost predicate StoppedBy(r: RaceState, steps: seq<RaceStep>, n: nat, p: PlayerId, a: Participant)
    requires n < |steps| && IsActive(RaceAfter(r, steps[..n]), p) && p in r.parts
  {
    if Wins(r, steps, n, p) then (a.state.Finished? || a.state.Disconnected?) && a.finishTime == Clock(r, steps[..n])
    else if IsOut(r, steps, n, p) then
      (a.state.Disqualified? || a.state.Disconnected?) && a.finishTime == Clock(r, steps[..n + 1])
    else steps[n] == Leave(p) && a.state.Disconnected? && a.finishTime == r.parts[p].finishTime
  }

  lemma PrefixOfPrefix(steps: seq<RaceStep>, n: nat, m: nat)
    requires n <= m <= |steps|
    ensures steps[..m][..n] == steps[..n]
  {
  }

  /** A step stops an active participant exactly when it wins, is out or leaves. */
  lemma StepStops(r: RaceState, steps: seq<RaceStep>, n: nat, p: PlayerId)
    requires Consistent(r) && n < |steps| && p in r.parts && IsActive(RaceAfter(r, steps[..n]), p)
    ensures p in RaceAfter(r, steps[..n + 1]).parts
    ensures IsActive(RaceAfter(r, steps[..n + 1]), p)
            <==> !Wins(r, steps, n, p) && !IsOut(r, steps, n, p) && steps[n] != Leave(p)
    ensures !IsActive(RaceAfter(r, steps[..n + 1]), p) ==> StoppedBy(r, steps, n, p, RaceAfter(r, steps[..n + 1]).parts[p])
  {
    var before := RaceAfter(r, steps[..n]);
    PrefixOfPrefix(steps, n, n + 1);
    DurationIsClock(r, steps[..n]);
    DurationIsClock(r, steps[..n + 1]);
    RaceKeepsParts(r, steps[..n]);
    HealthIsAsReported(r, steps[..n], p);
    assert RaceAfter(r, steps[..n + 1]) == Do(before, steps[n]);
  }

  /** Whoever has stopped racing was stopped by one of the steps, which says how and with which time. */
  lemma {:induction false} WhenItStopped(r: RaceState, steps: seq<RaceStep>, p: PlayerId) returns (n: nat)
    requires Consistent(r) && IsActive(r, p) && !IsActive(RaceAfter(r, steps), p)
    ensures n < |steps| && p in RaceAfter(r, steps).parts
    ensures IsActive(RaceAfter(r, steps[..n]), p) && (Wins(r, steps, n, p) || IsOut(r, steps, n, p) || steps[n] == Leave(p))
    ensures StoppedBy(r, steps, n, p, RaceAfter(r, steps).parts[p])
    decreases |steps|
  {
    var k := |steps| - 1;
    RaceKeepsParts(r, steps[..k]);
    assert steps[..k + 1] == steps;
    if IsActive(RaceAfter(r, steps[..k]), p) {
      n := k;
      StepStops(r, steps, k, p);
    } else {
      n := WhenItStopped(r, steps[..k], p);
      PrefixOfPrefix(steps, n, k);
      PrefixOfPrefix(steps, n + 1, k);
      StepKeepsTime(RaceAfter(r, steps[..k]), steps[k], p);
    }
  }

  /** And whoever is stopped by a step stays so, with the time of that step. */
  lemma {:induction false} StopsThen(r: RaceState, steps: seq<RaceStep>, n: nat, p: PlayerId)
    requires Consistent(r) && n < |steps| && p in r.parts && IsActive(RaceAfter(r, steps[..n]), p)
    requires Wins(r, steps, n, p) || IsOut(r, steps, n, p) || steps[n] == Leave(p)
    ensures p in RaceAfter(r, steps).parts && !IsActive(RaceAfter(r, steps), p)
    ensures StoppedBy(r, steps, n, p, RaceAfter(r, steps).parts[p])
    decreases |steps|
  {
    var k := |steps| - 1;
    assert steps[..k + 1] == steps;
    if n == k {
      StepStops(r, steps, k, p);
    } else {
      PrefixOfPrefix(steps, n, k);
      PrefixOfPrefix(steps, n + 1, k);
      StopsThen(r, steps[..k], n, p);
      StepKeepsTime(RaceAfter(r, steps[..k]), steps[k], p);
    }
  }

  /** Whoever leaves is marked so for good, finished or not, and nobody else is. */
  lemma {:induction false} DisconnectedExactly(r: RaceState, steps: seq<RaceStep>, p: PlayerId)
    requires p in r.parts && !r.parts[p].state.Disconnected?
    ensures p in RaceAfter(r, steps).parts
    ensures RaceAfter(r, steps).parts[p].state.Disconnected? <==> Leave(p) in steps
    decreases |steps|
  {
    if steps != [] {
      var k := |steps| - 1;
      DisconnectedExactly(r, steps[..k], p);
      assert steps == steps[..k] + [steps[k]];
    }
  }

  /** The time of a driver, over any run from the start line: if it finished, what the clock showed when it crossed
      the last checkpoint while still racing; if it was disqualified, what the clock showed after the tick in which its
      car was out of health or the ten minutes were up. */
  lemma TimesAreTrue(r: RaceState, steps: seq<RaceStep>, p: PlayerId) returns (n: nat)
    requires Consistent(r) && p in r.parts && r.parts[p] == NEWCOMER
    requires var a := RaceAfter(r, steps); p in a.parts && (a.parts[p].state.Finished? || a.parts[p].state.Disqualified?)
    ensures n < |steps| && p in RaceAfter(r, steps).parts && IsActive(RaceAfter(r, steps[..n]), p)
    ensures var a := RaceAfter(r, steps).parts[p];
            && (a.state.Finished? ==> Wins(r, steps, n, p) && a.finishTime == r.duration + Elapsed(steps[..n]))
            && (a.state.Disqualified? ==> IsOut(r, steps, n, p) && a.finishTime == r.duration + Elapsed(steps[..n + 1]))
  {
    n := WhenItStopped(r, steps, p);
  }

  ghost predicate StandsBeforeNext(a: Participant) { a.current == if a.next == 0 then 0 else a.next - 1 }

  lemma StepKeepsCurrent(r: RaceState, step: RaceStep, p: PlayerId)
    requires p in r.parts && StandsBeforeNext(r.parts[p])
    ensures p in Do(r, step).parts && StandsBeforeNext(Do(r, step).parts[p])
  {
  }

  /** The current checkpoint of a participant is the one before its next, as soon as it has passed one. */
  lemma {:induction false} CurrentIsBeforeNext(r: RaceState, steps: seq<RaceStep>, p: PlayerId)
    requires p in r.parts && r.parts[p] == NEWCOMER
    ensures p in RaceAfter(r, steps).parts && StandsBeforeNext(RaceAfter(r, steps).parts[p])
    decreases |steps|
  {
    if steps != [] {
      CurrentIsBeforeNext(r, steps[..|steps| - 1], p);
      StepKeepsCurrent(RaceAfter(r, steps[..|steps| - 1]), steps[|steps| - 1], p);
    }
  }

  /** A car is gone exactly when its driver has left. */
  lemma {:induction false} CarsLeaveWithTheirDrivers(r: RaceState, steps: seq<RaceStep>, p: PlayerId)
    requires p in r.cars
    ensures p in RaceAfter(r, steps).cars <==> Leave(p) !in steps
    decreases |steps|
  {
    if steps != [] {
      var k := |steps| - 1;
      CarsLeaveWithTheirDrivers(r, steps[..k], p);
      assert steps == steps[..k] + [steps[k]];
    }
  }
}
