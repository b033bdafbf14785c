// The frame-rate counter: every call counts one frame, and on every
// fpsSample-th frame the average is recomputed from the time elapsed since
// the previous sample. The float average is kept as the operands of its
// formula (frames, time resolution, elapsed time) rather than as a number.

module FPSCounter {

  /** The counter's average: nothing yet, or fpsSample / (deltaTime / timeResolution). */
  datatype Average = Zero | Rate(frames: int, timeResolution: int, deltaTime: int)

  /** The counter's fields that change from call to call. */
  datatype Counter = Counter(totalFPS: int, averageFPS: Average, prevTimeSample: int)

  /** A call takes a sample when the frame count so far is a multiple of fpsSample. */
  predicate Sampled(totalFPS: int, fpsSample: int)
    requires fpsSample != 0
  {
    totalFPS % fpsSample == 0
  }

  /** The average a sample taken at timeSample computes. */
  function SampleAverage(c: Counter, fpsSample: int, timeResolution: int, timeSample: int): Average
  {
    Rate(fpsSample, timeResolution, timeSample - c.prevTimeSample)
  }

  /** incrementFPS: sample on every fpsSample-th frame, then count the frame. */
  function AfterIncrement(c: Counter, fpsSample: int, timeResolution: int, timeSample: int): (r: Counter)
    requires fpsSample != 0
    ensures r.totalFPS == c.totalFPS + 1
    ensures Sampled(c.totalFPS, fpsSample) ==>
      r.prevTimeSample == timeSample && r.averageFPS == SampleAverage(c, fpsSample, timeResolution, timeSample)
    ensures !Sampled(c.totalFPS, fpsSample) ==>
      r.prevTimeSample == c.prevTimeSample && r.averageFPS == c.averageFPS
  {
    var sampled := if Sampled(c.totalFPS, fpsSample)
      then c.(averageFPS := SampleAverage(c, fpsSample, timeResolution, timeSample), prevTimeSample := timeSample)
      else c;
    sampled.(totalFPS := sampled.totalFPS + 1)
  }

  /** update(elapsed): the sampling test has an empty body, so only the frame is counted. */
  function AfterUpdate(c: Counter, fpsSample: int): (r: Counter)
    requires fpsSample != 0
    ensures r.totalFPS == c.totalFPS + 1
    ensures r.averageFPS == c.averageFPS && r.prevTimeSample == c.prevTimeSample
  {
    c.(totalFPS := c.totalFPS + 1)
  }

  /** internal_update: sample when due and restart the frame count; never counts a frame. */
  function AfterInternalUpdate(c: Counter, fpsSample: int, timeResolution: int, timeSample: int): (r: Counter)
    requires fpsSample != 0
    ensures Sampled(c.totalFPS, fpsSample) ==>
      r.totalFPS == 0 && r.prevTimeSample == timeSample
      && r.averageFPS == SampleAverage(c, fpsSample, timeResolution, timeSample)
    ensures !Sampled(c.totalFPS, fpsSample) ==> r == c
  {
    if Sampled(c.totalFPS, fpsSample)
    then Counter(0, SampleAverage(c, fpsSample, timeResolution, timeSample), timeSample)
    else c
  }

  /** The counter after one incrementFPS call per time sample, in order. */
  function Increments(c: Counter, fpsSample: int, timeResolution: int, ts: seq<int>): Counter
    requires fpsSample != 0
  {
    if ts == [] then c
    else AfterIncrement(Increments(c, fpsSample, timeResolution, ts[..|ts| - 1]), fpsSample, timeResolution, ts[|ts| - 1])
  }

  /** Each incrementFPS call counts exactly one frame. */
  lemma {:induction false} IncrementsCount(c: Counter, fpsSample: int, timeResolution: int, ts: seq<int>)
    requires fpsSample != 0
    ensures Increments(c, fpsSample, timeResolution, ts).totalFPS == c.totalFPS + |ts|
  {
    if ts != [] {
      IncrementsCount(c, fpsSample, timeResolution, ts[..|ts| - 1]);
    }
  }

  /**
   * Calls none of which falls on a sampling frame leave the average and the
   * previous sample time alone.
   */
  lemma {:induction false} QuietCalls(c: Counter, fpsSample: int, timeResolution: int, ts: seq<int>)
    requires fpsSample != 0
    requires forall n :: c.totalFPS <= n < c.totalFPS + |ts| ==> !Sampled(n, fpsSample)
    ensures Increments(c, fpsSample, timeResolution, ts).averageFPS == c.averageFPS
    ensures Increments(c, fpsSample, timeResolution, ts).prevTimeSample == c.prevTimeSample
  {
    if ts != [] {
      var front := ts[..|ts| - 1];
      QuietCalls(c, fpsSample, timeResolution, front);
      IncrementsCount(c, fpsSample, timeResolution, front);
      assert !Sampled(c.totalFPS + |front|, fpsSample);
    }
  }

  /**
   * Starting on a sampling frame with a positive period, the call that falls
   * fpsSample frames later samples again, and the ones in between do not.
   */
  lemma SamplingPeriod(totalFPS: int, fpsSample: int, k: int)
    requires fpsSample > 0 && Sampled(totalFPS, fpsSample)
    ensures Sampled(totalFPS + k, fpsSample) <==> k % fpsSample == 0
  {
    var q := totalFPS / fpsSample;
    assert totalFPS == q * fpsSample;
    var a, b := (totalFPS + k) / fpsSample, k / fpsSample;
    assert totalFPS + k == a * fpsSample + (totalFPS + k) % fpsSample;
    assert k == b * fpsSample + k % fpsSample;
    assert (totalFPS + k) % fpsSample - k % fpsSample == (b + q - a) * fpsSample;
    assert b + q - a >= 1 ==> (b + q - a) * fpsSample >= fpsSample;
    assert b + q - a <= -1 ==> (b + q - a) * fpsSample <= -fpsSample;
  }

  /**
   * internal_update never counts a frame, so once it has taken a sample the
   * next internal_update call samples again.
   */
  lemma InternalUpdateResamples(c: Counter, fpsSample: int, timeResolution: int, t1: int, t2: int)
    requires fpsSample != 0 && Sampled(c.totalFPS, fpsSample)
    ensures var c1 := AfterInternalUpdate(c, fpsSample, timeResolution, t1);
      Sampled(c1.totalFPS, fpsSample)
      && AfterInternalUpdate(c1, fpsSample, timeResolution, t2).prevTimeSample == t2
  {
  }

  class FPSCounter {
    var totalFPS: int
    var fpsSample: int
    var averageFPS: Average
    var prevTimeSample: int
    var timeResolution: int

    function State(): Counter
      reads this
    {
      Counter(totalFPS, averageFPS, prevTimeSample)
    }

    /** FPSCounter(): the previous sample time is left uninitialised. */
    constructor (nrFPSSample: int := 50, resolution: int := 1000000000)
      ensures fpsSample == nrFPSSample && timeResolution == resolution
      ensures averageFPS == Zero && totalFPS == 0
    {
      fpsSample := nrFPSSample;
      timeResolution := resolution;
      averageFPS := Zero;
      totalFPS := 0;
    }

    method IncrementFPS(timeSample: int)
      requires fpsSample != 0
      modifies this`totalFPS, this`averageFPS, this`prevTimeSample
      ensures State() == AfterIncrement(old(State()), fpsSample, timeResolution, timeSample)
    {
      if totalFPS % fpsSample == 0 {
        averageFPS := Rate(fpsSample, timeResolution, timeSample - prevTimeSample);
        prevTimeSample := timeSample;
      }
      totalFPS := totalFPS + 1;
    }

    method Update(elapsedTime: real)
      requires fpsSample != 0
      modifies this`totalFPS
      ensures State() == AfterUpdate(old(State()), fpsSample)
    {
      totalFPS := totalFPS + 1;
    }

    /** getFPS. */
    function GetFPS(): (r: Average)
      reads this
      ensures r == State().averageFPS
    {
      averageFPS
    }

    method InternalUpdate(timeSample: int)
      requires fpsSample != 0
      modifies this`totalFPS, this`averageFPS, this`prevTimeSample
      ensures State() == AfterInternalUpdate(old(State()), fpsSample, timeResolution, timeSample)
    {
      if totalFPS % fpsSample == 0 {
        averageFPS := Rate(fpsSample, timeResolution, timeSample - prevTimeSample);
        prevTimeSample := timeSample;
        totalFPS := 0;
      }
    }
  }
}
