/** The fixed-rate loop of common/constant_rate_loop_server.cpp, in exact arithmetic.

    The grid is { t0 + n * frame }, n an integer.  The environment chooses how late each pass reads
    the clock: `delays[i]` is the time between the instant pass i was due to begin and its reading
    of t2, that is any oversleep plus the duration of the tick itself. */
module ConstantRateLoop {

  /** One pass of the loop: the deadline it began from, its iteration number, the clock reading
      after the tick, and the time it then sleeps. */
  datatype Pass = Pass(t1: real, iteration: int, t2: real, rest: real) {
    function Due(): real { t2 + rest }
  }

  function GridPoint(t0: real, frame: real, n: int): real { t0 + n as real * frame }

  /** std::fmod on a non-negative dividend. */
  function Fmod(x: real, y: real): real
    requires x >= 0.0 && y > 0.0
  {
    x - (x / y).Floor as real * y
  }

  /** `p` woke on the grid and its next deadline is the first grid point that a loop still on time,
      or late, may aim at. */
  ghost predicate KeepsGrid(t0: real, frame: real, p: Pass, next: int) {
    && p.t1 == GridPoint(t0, frame, p.iteration)
    && p.Due() == GridPoint(t0, frame, next)
    && 0.0 <= p.rest <= frame
    && (p.t2 <= p.t1 + frame ==> next == p.iteration + 1)
    && (p.t2 > p.t1 + frame ==> FirstAfter(t0, frame, p.t2, next))
  }

  /** Grid point n is strictly after `t` and no earlier grid point is. */
  ghost predicate FirstAfter(t0: real, frame: real, t: real, n: int) {
    GridPoint(t0, frame, n) > t && forall k: int :: GridPoint(t0, frame, k) > t ==> n <= k
  }

  lemma FmodRange(x: real, y: real)
    requires x >= 0.0 && y > 0.0
    ensures 0.0 <= Fmod(x, y) < y
  {
    var d: real := x / y;
    var q := d.Floor as real;
    assert d * y == x;
    assert q <= d < q + 1.0;
    Scale(q, d, y);
    Scale(d, q + 1.0, y);
    assert (q + 1.0) * y == q * y + y;
    assert q * y <= x < q * y + y;
    assert Fmod(x, y) == x - q * y;
  }

  lemma Scale(a: real, b: real, y: real)
    requires y > 0.0
    ensures a < b ==> a * y < b * y
    ensures a <= b ==> a * y <= b * y
  {
    assert (b - a) * y == b * y - a * y;
  }

  lemma GridStep(t0: real, frame: real, n: int, k: int)
    ensures GridPoint(t0, frame, n + k) == GridPoint(t0, frame, n) + k as real * frame
  {
    assert (n + k) as real == n as real + k as real;
  }

  lemma PreviousAtMost(t0: real, frame: real, t: real, n: int)
    requires frame > 0.0 && GridPoint(t0, frame, n) > t >= GridPoint(t0, frame, n) - frame
    ensures FirstAfter(t0, frame, t, n)
  {
    forall k: int | GridPoint(t0, frame, k) > t
      ensures n <= k
    {
      GridStep(t0, frame, n, k - n);
    }
  }

  /** The catch-up of a late pass: `lost` is a whole number of frames, counting them moves both the
      deadline and the iteration number along the grid, and the deadline reached is the first grid
      point after the clock reading. */
  lemma CatchUp(t0: real, frame: real, n: int, t2: real)
    requires frame > 0.0 && t2 > GridPoint(t0, frame, n) + frame
    ensures var behind := t2 - GridPoint(t0, frame, n) - frame;
            var rest := frame - Fmod(behind, frame);
            var lost := behind + rest;
            var k := (lost / frame).Floor;
            && 0.0 < rest <= frame
            && GridPoint(t0, frame, n) + lost == GridPoint(t0, frame, n + k)
            && GridPoint(t0, frame, n + k + 1) == t2 + rest
            && FirstAfter(t0, frame, t2, n + k + 1)
  {
    var behind := t2 - GridPoint(t0, frame, n) - frame;
    FmodRange(behind, frame);
    var rest := frame - Fmod(behind, frame);
    var lost := behind + rest;
    var k := (behind / frame).Floor + 1;
    assert lost == k as real * frame;
    assert lost / frame == k as real;
    GridStep(t0, frame, n, k);
    GridStep(t0, frame, n + k, 1);
    PreviousAtMost(t0, frame, t2, n + k + 1);
  }

  class ConstantRateLoopServer {
    const frameRate: real

    constructor (frameRate: real)
      ensures this.frameRate == frameRate
    {
      this.frameRate := frameRate;
    }

    /** Runs one tick per delay.  Whatever the delays, every pass begins exactly on the grid point
        that its iteration number names: the loop never drifts.  A pass that is on time aims at the
        next grid point, a late one at the first grid point after its clock reading. */
    method StartLoop(t0: real, delays: seq<real>) returns (log: seq<Pass>, iteration: int)
      requires frameRate > 0.0
      requires forall i | 0 <= i < |delays| :: delays[i] >= 0.0
      ensures |log| == |delays|
      ensures log != [] ==> log[0].t1 == t0 && log[0].iteration == 0
      ensures forall i | 0 <= i < |log| :: log[i].t2 == log[i].t1 + delays[i]
      ensures forall i | 0 <= i < |log| - 1 :: log[i + 1].t1 == log[i].Due()
      ensures forall i | 0 <= i < |log| - 1 :: KeepsGrid(t0, 1.0 / frameRate, log[i], log[i + 1].iteration)
      ensures log != [] ==> KeepsGrid(t0, 1.0 / frameRate, log[|log| - 1], iteration)
    {
      var frameTime := 1.0 / frameRate;
      var t1, wake := t0, t0;
      iteration, log := 0, [];
      while |log| < |delays|
        invariant |log| <= |delays|
        invariant t1 == wake == GridPoint(t0, frameTime, iteration)
        invariant log == [] ==> t1 == t0 && iteration == 0
        invariant log != [] ==> log[0].t1 == t0 && log[0].iteration == 0 && t1 == log[|log| - 1].Due()
        invariant forall i | 0 <= i < |log| :: log[i].t2 == log[i].t1 + delays[i]
        invariant forall i | 0 <= i < |log| - 1 :: log[i + 1].t1 == log[i].Due()
        invariant forall i | 0 <= i < |log| - 1 :: KeepsGrid(t0, frameTime, log[i], log[i + 1].iteration)
        invariant log != [] ==> KeepsGrid(t0, frameTime, log[|log| - 1], iteration)
      {
        var t2 := wake + delays[|log|];
        var elapsed := t2 - t1;
        var pass := Pass(t1, iteration, t2, 0.0);
        var rest := frameTime - elapsed;
        if rest < 0.0 {
          var behind := -rest;
          CatchUp(t0, frameTime, iteration, t2);
          rest := frameTime - Fmod(behind, frameTime);
          var lost := behind + rest;
          t1 := t1 + lost;
          iteration := iteration + (lost / frameTime).Floor;
        }
        wake := t2 + rest;
        t1 := t1 + frameTime;
        GridStep(t0, frameTime, iteration, 1);
        iteration := iteration + 1;
        log := log + [pass.(rest := rest)];
        assert KeepsGrid(t0, frameTime, log[|log| - 1], iteration);
      }
    }
  }
}
