/** One sensor of the detection pipeline: its samples, its binary detection
    signal, and the scans that turn a signal into detection intervals.
    Times and probabilities are only compared and copied, so both are reals. */
module Sensors {
  import opened Signals

  /** Capacity of a sensor's sample and detection arrays. */
  const MaxSamples := 3000

  datatype Option<T> = None | Some(value: T)

  /** One measurement: a time in seconds and a detection probability. */
  datatype SensorData = SensorData(time: real, probability: real)

  /** A reported detection interval: times of its first and last sample. */
  datatype Interval = Interval(start: real, end: real)

  function Min(a: int, b: int): int
  {
    if a < b then a else b
  }

  /** The binary signal written from `samples`: 1 exactly when the
      probability is strictly above the threshold, 0 otherwise. */
  function Detection(samples: seq<SensorData>, threshold: real): (d: seq<int>)
    ensures |d| == |samples|
    ensures forall k :: 0 <= k < |d| ==>
              (d[k] == 0 || d[k] == 1) && (d[k] == 1 <==> samples[k].probability > threshold)
  {
    seq(|samples|, k requires 0 <= k < |samples| =>
      if samples[k].probability > threshold then 1 else 0)
  }

  /** Whether the single-sensor scan is inside an interval after reading flag
      `k`: a 1 opens or continues one, a 0 closes it, and any other value
      leaves the scan where it was. */
  function Holds(d: seq<int>, k: nat): (h: bool)
    requires k < |d|
    ensures d[k] == 1 ==> h
    ensures d[k] == 0 ==> !h
  {
    d[k] == 1 || (d[k] != 0 && k > 0 && Holds(d, k - 1))
  }

  /** The signal the single-sensor scan follows, sample by sample. */
  function Held(d: seq<int>): (s: seq<bool>)
    ensures |s| == |d|
  {
    seq(|d|, k requires 0 <= k < |d| => Holds(d, k))
  }

  /** The signal the fused scan follows: both flags non-zero, over the
      shorter of the two signals. */
  function Fused(d1: seq<int>, d2: seq<int>): (b: seq<bool>)
    ensures |b| == Min(|d1|, |d2|)
  {
    var m := Min(|d1|, |d2|);
    seq(m, k requires 0 <= k < m => d1[k] != 0 && d2[k] != 0)
  }

  /** Sample `k` of the fused signal is true exactly when both flags are non-zero. */
  lemma FusedAt(d1: seq<int>, d2: seq<int>, k: nat)
    requires k < |d1| && k < |d2|
    ensures k < |Fused(d1, d2)| && Fused(d1, d2)[k] == (d1[k] != 0 && d2[k] != 0)
  {
  }

  /** Each run, reported by the times of its first and last sample. */
  function Stamp(rs: seq<Run>, samples: seq<SensorData>): (out: seq<Interval>)
    requires forall j :: 0 <= j < |rs| ==> rs[j].first <= rs[j].last < |samples|
    ensures |out| == |rs|
  {
    if rs == [] then []
    else [Interval(samples[rs[0].first].time, samples[rs[0].last].time)] + Stamp(rs[1..], samples)
  }

  /** Interval `j` runs from the time of run `j`'s first sample to the time of its last. */
  lemma {:induction false} StampAt(rs: seq<Run>, samples: seq<SensorData>, j: nat)
    requires forall j :: 0 <= j < |rs| ==> rs[j].first <= rs[j].last < |samples|
    requires j < |rs|
    ensures Stamp(rs, samples)[j] == Interval(samples[rs[j].first].time, samples[rs[j].last].time)
  {
    if j > 0 {
      StampAt(rs[1..], samples, j - 1);
    }
  }

  lemma {:induction false} StampAppend(rs: seq<Run>, r: Run, samples: seq<SensorData>)
    requires forall j :: 0 <= j < |rs| ==> rs[j].first <= rs[j].last < |samples|
    requires r.first <= r.last < |samples|
    ensures Stamp(rs + [r], samples)
         == Stamp(rs, samples) + [Interval(samples[r.first].time, samples[r.last].time)]
  {
    if rs != [] {
      assert (rs + [r])[1..] == rs[1..] + [r];
      StampAppend(rs[1..], r, samples);
    }
  }

  /** What a scan has when it has read samples `0..i` of the signal `b` it
      follows: the scan state, the time of the open run's first sample, and
      the intervals of the runs closed so far. */
  ghost predicate Scanning(b: seq<bool>, samples: seq<SensorData>, i: nat, active: bool, start: nat,
                           startTime: real, done: seq<Run>, out: seq<Interval>)
  {
    |b| <= |samples| && ScanState(b, i, active, start, done) &&
    (active ==> startTime == samples[start].time) &&
    out == Stamp(done, samples)
  }

  lemma ScanningInit(b: seq<bool>, samples: seq<SensorData>, startTime: real)
    requires |b| <= |samples|
    ensures Scanning(b, samples, 0, false, 0, startTime, [], [])
  {
    ScanInit(b);
  }

  /** Reading sample `i`: a true sample opens a run when none is open, a
      false one closes the open run at sample `i - 1` and emits its interval,
      and afterwards the scan is active exactly when sample `i` is true. */
  lemma ScanningStep(b: seq<bool>, samples: seq<SensorData>, i: nat, active: bool, start: nat,
                     startTime: real, done: seq<Run>, out: seq<Interval>)
    requires Scanning(b, samples, i, active, start, startTime, done, out) && i < |b|
    ensures active ==> 0 < i
    ensures Scanning(b, samples, i + 1, b[i],
                     if !active && b[i] then i else start,
                     if !active && b[i] then samples[i].time else startTime,
                     if active && !b[i] then done + [Run(start, i - 1)] else done,
                     if active && !b[i] then out + [Interval(startTime, samples[i - 1].time)] else out)
  {
    ScanStep(b, i, active, start, done);
    if active && !b[i] {
      StampAppend(done, Run(start, i - 1), samples);
    }
  }

  /** At the end of the signal, the intervals emitted, plus that of the run
      still open if there is one, are the intervals of all runs of `b`. */
  lemma ScanningFinish(b: seq<bool>, samples: seq<SensorData>, active: bool, start: nat,
                       startTime: real, done: seq<Run>, out: seq<Interval>)
    requires Scanning(b, samples, |b|, active, start, startTime, done, out)
    ensures active ==> 0 < |b| && out + [Interval(startTime, samples[|b| - 1].time)] == Stamp(Runs(b), samples)
    ensures !active ==> out == Stamp(Runs(b), samples)
  {
    ScanFinish(b, active, start, done);
    if active {
      StampAppend(done, Run(start, |b| - 1), samples);
    }
  }

  /** One step of the single-sensor scan. */
  lemma HeldStep(d: seq<int>, i: nat)
    requires i < |d|
    ensures Held(d)[i] == (d[i] == 1 || (d[i] != 0 && i > 0 && Held(d)[i - 1]))
  {
  }

  /** The scan is inside an interval after flag `k` exactly when some
      earlier flag `j` is 1 and no flag after `j`, up to `k`, is 0. */
  lemma {:induction false} HoldsSinceOne(d: seq<int>, k: nat)
    requires k < |d|
    ensures Holds(d, k) <==>
            exists j :: 0 <= j <= k && d[j] == 1 && forall i :: j < i <= k ==> d[i] != 0
  {
    if d[k] != 1 && d[k] != 0 && k > 0 {
      HoldsSinceOne(d, k - 1);
      if Holds(d, k - 1) {
        var j :| 0 <= j <= k - 1 && d[j] == 1 && forall i :: j < i <= k - 1 ==> d[i] != 0;
        assert forall i :: j < i <= k ==> d[i] != 0;
      }
    }
  }

  /** `s` follows the single-sensor scan's rule on the flags `d`: a 1 opens
      or continues an interval, a 0 closes it, any other flag keeps the
      previous state, and the scan starts outside any interval. */
  ghost predicate FollowsScanRule(d: seq<int>, s: seq<bool>)
  {
    |s| == |d| &&
    (|s| > 0 ==> (s[0] <==> d[0] == 1)) &&
    (forall i :: 0 < i < |s| ==> (s[i] <==> d[i] == 1 || (d[i] != 0 && s[i - 1])))
  }

  /** Held is the only signal that follows the scan's rule. */
  lemma HeldUnique(d: seq<int>, s: seq<bool>)
    requires FollowsScanRule(d, s)
    ensures s == Held(d)
  {
    forall k | 0 <= k < |s|
      ensures s[k] == Holds(d, k)
    {
      FollowsRuleAt(d, s, k);
    }
  }

  lemma {:induction false} FollowsRuleAt(d: seq<int>, s: seq<bool>, k: nat)
    requires FollowsScanRule(d, s) && k < |s|
    ensures s[k] == Holds(d, k)
  {
    if k > 0 {
      FollowsRuleAt(d, s, k - 1);
    }
  }

  /** ... and Held does follow it. */
  lemma HeldFollowsScanRule(d: seq<int>)
    ensures FollowsScanRule(d, Held(d))
  {
    forall i | 0 < i < |d|
      ensures Held(d)[i] <==> d[i] == 1 || (d[i] != 0 && Held(d)[i - 1])
    {
      HeldStep(d, i);
    }
  }

  /** On a signal of 0s and 1s, as generateDetection leaves it, the scan
      follows exactly the samples flagged 1. */
  lemma HeldBinary(d: seq<int>)
    requires forall k :: 0 <= k < |d| ==> d[k] == 0 || d[k] == 1
    ensures |Held(d)| == |d|
    ensures forall k :: 0 <= k < |d| ==> (Held(d)[k] <==> d[k] == 1)
  {
  }

  lemma {:induction false} NeverHolds(d: seq<int>, k: nat)
    requires k < |d|
    requires forall i :: 0 <= i <= k ==> d[i] != 1
    ensures !Holds(d, k)
  {
    if k > 0 {
      NeverHolds(d, k - 1);
    }
  }

  /** A signal with no flag equal to 1 yields no interval. */
  lemma NoOneNoIntervals(d: seq<int>, samples: seq<SensorData>)
    requires |d| == |samples|
    requires forall k :: 0 <= k < |d| ==> d[k] != 1
    ensures Stamp(Runs(Held(d)), samples) == []
  {
    forall k | 0 <= k < |d|
      ensures !Held(d)[k]
    {
      NeverHolds(d, k);
    }
    NoTrueNoRuns(Held(d));
  }

  /** Right censoring: when the last flag is 1, the last interval ends at the
      time of the last sample. */
  lemma IntervalsRightCensored(d: seq<int>, samples: seq<SensorData>)
    requires |d| == |samples| && |d| > 0 && d[|d| - 1] == 1
    ensures var out := Stamp(Runs(Held(d)), samples);
            |out| > 0 && out[|out| - 1].end == samples[|d| - 1].time
  {
    var rs := Runs(Held(d));
    RunsRightCensored(Held(d));
    StampAt(rs, samples, |rs| - 1);
  }

  /** Flags past the end of the shorter signal never reach the fused signal. */
  lemma FusedIgnoresLongerTail(d1: seq<int>, d2: seq<int>, tail: seq<int>)
    requires |d1| <= |d2|
    ensures Fused(d1, d2 + tail) == Fused(d1, d2)
    ensures Fused(d2 + tail, d1) == Fused(d2, d1)
  {
    assert forall k :: 0 <= k < |d1| ==> (d2 + tail)[k] == d2[k];
  }

  /** Fusing in either order finds the same runs; only the times differ,
      since they come from the first sensor. */
  lemma FusionCommutes(d1: seq<int>, d2: seq<int>)
    ensures Runs(Fused(d1, d2)) == Runs(Fused(d2, d1))
  {
    assert Fused(d1, d2) == Fused(d2, d1);
  }

  /** On 0/1 signals every fused run lies inside one run of the first sensor
      (and, by FusionCommutes, of the second). */
  lemma FusedWithinSensor(d1: seq<int>, d2: seq<int>, j: nat)
    requires forall k :: 0 <= k < |d1| ==> d1[k] == 0 || d1[k] == 1
    requires j < |Runs(Fused(d1, d2))|
    ensures exists j1 :: 0 <= j1 < |Runs(Held(d1))| &&
              Runs(Held(d1))[j1].first <= Runs(Fused(d1, d2))[j].first &&
              Runs(Fused(d1, d2))[j].last <= Runs(Held(d1))[j1].last
  {
    var c := Fused(d1, d2);
    RunsAreMaximal(c);
    assert IsRun(c, Runs(c)[j]);
    HeldBinary(d1);
    RunWithinRun(Held(d1), c, Runs(c)[j]);
  }

  class Sensor {
    const id: int
    const threshold: real
    const data: array<SensorData>
    const objectDetection: array<int>
    var sampleCount: int

    ghost predicate Valid()
      reads this
    {
      data.Length == MaxSamples && objectDetection.Length == MaxSamples &&
      0 <= sampleCount <= MaxSamples
    }

    /** A sensor declared with its id and threshold; every other part is zero. */
    constructor (id: int, threshold: real)
      ensures Valid() && fresh(data) && fresh(objectDetection)
      ensures this.id == id && this.threshold == threshold && sampleCount == 0
      ensures forall k :: 0 <= k < MaxSamples ==>
                data[k] == SensorData(0.0, 0.0) && objectDetection[k] == 0
    {
      this.id := id;
      this.threshold := threshold;
      data := new SensorData[MaxSamples](_ => SensorData(0.0, 0.0));
      objectDetection := new int[MaxSamples](_ => 0);
      sampleCount := 0;
    }

    /** Stores the records of a source, at most MaxSamples of them. `source`
        is None when the source cannot be opened, and otherwise the records
        read from it up to the first one that does not parse. */
    method ReadSensorFile(source: Option<seq<SensorData>>) returns (ok: bool)
      requires Valid()
      modifies this, data
      ensures Valid()
      ensures ok == source.Some?
      ensures !ok ==> sampleCount == old(sampleCount) && data[..] == old(data[..])
      ensures ok ==> sampleCount == Min(|source.value|, MaxSamples) &&
                     data[..sampleCount] == source.value[..sampleCount] &&
                     data[sampleCount..] == old(data[..])[sampleCount..]
    {
      if source.None? {
        return false;
      }
      var records := source.value;
      var i := 0;
      while i < MaxSamples && i < |records|
        invariant 0 <= i <= MaxSamples && i <= |records|
        invariant forall k :: 0 <= k < i ==> data[k] == records[k]
        invariant forall k :: i <= k < data.Length ==> data[k] == old(data[k])
      {
        data[i] := records[i];
        i := i + 1;
      }
      sampleCount := i;
      return true;
    }

    /** Thresholds the samples read: flag `k` becomes 1 exactly when sample
        `k`'s probability is strictly above the threshold. Only the flags of
        the samples read are written. */
    method GenerateDetection()
      requires Valid()
      modifies objectDetection
      ensures Valid()
      ensures objectDetection[..sampleCount] == Detection(data[..sampleCount], threshold)
      ensures objectDetection[sampleCount..] == old(objectDetection[..])[sampleCount..]
    {
      for i := 0 to sampleCount
        invariant forall k :: 0 <= k < i ==>
                    objectDetection[k] == if data[k].probability > threshold then 1 else 0
        invariant forall k :: i <= k < objectDetection.Length ==>
                    objectDetection[k] == old(objectDetection[k])
      {
        if data[i].probability > threshold {
          objectDetection[i] := 1;
        } else {
          objectDetection[i] := 0;
        }
      }
    }

    /** The detection intervals of this sensor, in scan order: one per
        maximal run of the signal the scan follows, from the time of the
        run's first sample to the time of its last. */
    method Intervals() returns (out: seq<Interval>)
      requires Valid()
      ensures out == Stamp(Runs(Held(objectDetection[..sampleCount])), data[..sampleCount])
    {
      var n := sampleCount;
      ghost var d := objectDetection[..n];
      ghost var b := Held(d);
      ghost var samples := data[..n];
      assert |b| == n;
      ghost var start: nat := 0;
      ghost var done: seq<Run> := [];
      var active := false;
      var startTime := 0.0;
      out := [];
      ScanningInit(b, samples, startTime);
      for i := 0 to n
        invariant Scanning(b, samples, i, active, start, startTime, done, out)
      {
        HeldStep(d, i);
        ScanningStep(b, samples, i, active, start, startTime, done, out);
        if !active && objectDetection[i] == 1 {
          active := true;
          startTime := data[i].time;
          start := i;
        }
        if active && objectDetection[i] == 0 {
          active := false;
          var endTime := data[i - 1].time;
          out := out + [Interval(startTime, endTime)];
          done := done + [Run(start, i - 1)];
        }
      }
      ScanningFinish(b, samples, active, start, startTime, done, out);
      if active {
        var endTime := data[n - 1].time;
        assert endTime == samples[|b| - 1].time;
        out := out + [Interval(startTime, endTime)];
      }
    }

    /** The scan reads the sensor and changes nothing, so two scans agree. */
    method IntervalsTwice() returns (first: seq<Interval>, second: seq<Interval>)
      requires Valid()
      ensures first == second
    {
      first := Intervals();
      second := Intervals();
    }
  }

  /** The fused detection intervals of two sensors: one per maximal run of
      samples where both flags are non-zero, scanning only as far as the
      shorter signal, with both times taken from `s1`'s samples. */
  method Fusion(s1: Sensor, s2: Sensor) returns (out: seq<Interval>)
    requires s1.Valid() && s2.Valid()
    ensures out == Stamp(Runs(Fused(s1.objectDetection[..s1.sampleCount],
                                    s2.objectDetection[..s2.sampleCount])),
                         s1.data[..s1.sampleCount])
  {
    var minSamples := if s1.sampleCount < s2.sampleCount then s1.sampleCount else s2.sampleCount;
    ghost var d1 := s1.objectDetection[..s1.sampleCount];
    ghost var d2 := s2.objectDetection[..s2.sampleCount];
    ghost var b := Fused(d1, d2);
    assert |b| == minSamples;
    ghost var samples := s1.data[..s1.sampleCount];
    ghost var start: nat := 0;
    ghost var done: seq<Run> := [];
    var active := false;
    var startTime := 0.0;
    out := [];
    ScanningInit(b, samples, startTime);
    for i := 0 to minSamples
      invariant Scanning(b, samples, i, active, start, startTime, done, out)
    {
      var fused := s1.objectDetection[i] != 0 && s2.objectDetection[i] != 0;
      FusedAt(d1, d2, i);
      assert d1[i] == s1.objectDetection[i] && d2[i] == s2.objectDetection[i];
      ScanningStep(b, samples, i, active, start, startTime, done, out);
      if !active && fused {
        active := true;
        startTime := s1.data[i].time;
        start := i;
      }
      if active && !fused {
        active := false;
        var endTime := s1.data[i - 1].time;
        out := out + [Interval(startTime, endTime)];
        done := done + [Run(start, i - 1)];
      }
    }
    ScanningFinish(b, samples, active, start, startTime, done, out);
    if active {
      var endTime := s1.data[minSamples - 1].time;
      assert endTime == samples[|b| - 1].time;
      out := out + [Interval(startTime, endTime)];
    }
  }

  /** The fused scan reads both sensors and changes neither, so two scans agree. */
  method FusionTwice(s1: Sensor, s2: Sensor) returns (first: seq<Interval>, second: seq<Interval>)
    requires s1.Valid() && s2.Valid()
    ensures first == second
  {
    first := Fusion(s1, s2);
    second := Fusion(s1, s2);
  }
}
