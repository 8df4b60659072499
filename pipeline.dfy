/** The order in which the program runs: read both sensors, threshold both,
    then report sensor 1, sensor 2 and the fusion of the two. */
module Pipeline {
  import opened Signals
  import opened Sensors

  /** The three interval lists the program reports, in the order it prints them. */
  datatype Report = Report(sensor1: seq<Interval>, sensor2: seq<Interval>, fused: seq<Interval>)

  /** Thresholds the program gives its two sensors. */
  const Threshold1: real := 0.8
  const Threshold2: real := 0.7

  /** The records a sensor keeps of a source: at most MaxSamples. */
  function Truncate(records: seq<SensorData>): (kept: seq<SensorData>)
    ensures |kept| == Min(|records|, MaxSamples) && kept <= records
    ensures |records| <= MaxSamples ==> kept == records
  {
    records[..Min(|records|, MaxSamples)]
  }

  /** Samples strictly above the threshold. */
  function Above(samples: seq<SensorData>, threshold: real): (b: seq<bool>)
    ensures |b| == |samples|
    ensures forall k :: 0 <= k < |b| ==> (b[k] <==> samples[k].probability > threshold)
  {
    seq(|samples|, k requires 0 <= k < |samples| => samples[k].probability > threshold)
  }

  /** Samples where both streams are above their thresholds, over the shorter stream. */
  function BothAbove(s1: seq<SensorData>, t1: real, s2: seq<SensorData>, t2: real): (b: seq<bool>)
    ensures |b| == Min(|s1|, |s2|)
    ensures forall k :: 0 <= k < |b| ==>
              (b[k] <==> s1[k].probability > t1 && s2[k].probability > t2)
  {
    var m := Min(|s1|, |s2|);
    seq(m, k requires 0 <= k < m => s1[k].probability > t1 && s2[k].probability > t2)
  }

  /** What a sensor reports after thresholding: the intervals of its scan. */
  function SensorIntervals(samples: seq<SensorData>, threshold: real): seq<Interval>
  {
    Stamp(Runs(Held(Detection(samples, threshold))), samples)
  }

  /** What the fused scan reports after both sensors are thresholded. */
  function FusedIntervals(s1: seq<SensorData>, t1: real, s2: seq<SensorData>, t2: real): seq<Interval>
  {
    Stamp(Runs(Fused(Detection(s1, t1), Detection(s2, t2))), s1)
  }

  /** The report for two sources that both opened: each sensor's maximal
      runs of samples strictly above its threshold, and the maximal runs
      where both are, all stamped with the times of the first sensor named. */
  function ReportOf(records1: seq<SensorData>, records2: seq<SensorData>): (r: Report)
    ensures var s1 := Truncate(records1);
            var s2 := Truncate(records2);
            r.sensor1 == Stamp(Runs(Above(s1, Threshold1)), s1) &&
            r.sensor2 == Stamp(Runs(Above(s2, Threshold2)), s2) &&
            r.fused == Stamp(Runs(BothAbove(s1, Threshold1, s2, Threshold2)), s1)
  {
    var s1 := Truncate(records1);
    var s2 := Truncate(records2);
    SensorIntervalsAbove(s1, Threshold1);
    SensorIntervalsAbove(s2, Threshold2);
    FusedIntervalsAbove(s1, Threshold1, s2, Threshold2);
    Report(SensorIntervals(s1, Threshold1), SensorIntervals(s2, Threshold2),
           FusedIntervals(s1, Threshold1, s2, Threshold2))
  }

  /** A sensor's intervals are the maximal runs of samples strictly above
      its threshold, stamped with their first and last times. */
  lemma SensorIntervalsAbove(samples: seq<SensorData>, threshold: real)
    ensures SensorIntervals(samples, threshold) == Stamp(Runs(Above(samples, threshold)), samples)
  {
    HeldBinary(Detection(samples, threshold));
    assert Held(Detection(samples, threshold)) == Above(samples, threshold);
  }

  /** The fused intervals are the maximal runs of samples where both sensors
      are strictly above their thresholds, stamped with sensor 1's times. */
  lemma FusedIntervalsAbove(s1: seq<SensorData>, t1: real, s2: seq<SensorData>, t2: real)
    ensures FusedIntervals(s1, t1, s2, t2)
         == Stamp(Runs(BothAbove(s1, t1, s2, t2)), s1)
  {
    assert Fused(Detection(s1, t1), Detection(s2, t2)) == BothAbove(s1, t1, s2, t2);
  }

  /** A source with no record reports no interval for its sensor, nor any
      fused interval. */
  lemma EmptySourceReportsNothing(records1: seq<SensorData>, records2: seq<SensorData>)
    requires records1 == [] || records2 == []
    ensures records1 == [] ==> ReportOf(records1, records2).sensor1 == []
    ensures records2 == [] ==> ReportOf(records1, records2).sensor2 == []
    ensures ReportOf(records1, records2).fused == []
  {
    var s1 := Truncate(records1);
    var s2 := Truncate(records2);
    assert Fused(Detection(s1, Threshold1), Detection(s2, Threshold2)) == [];
    assert Runs([]) == [];
  }

  /** Four samples at times 0, 1, 2, 3 with probabilities 0.9, 0.4, 0.85,
      0.95 and threshold 0.8 give the intervals [0, 0] and [2, 3]. */
  lemma FourSampleExample()
    ensures SensorIntervals([SensorData(0.0, 0.9), SensorData(1.0, 0.4),
                             SensorData(2.0, 0.85), SensorData(3.0, 0.95)], 0.8)
         == [Interval(0.0, 0.0), Interval(2.0, 3.0)]
  {
    var samples := [SensorData(0.0, 0.9), SensorData(1.0, 0.4),
                    SensorData(2.0, 0.85), SensorData(3.0, 0.95)];
    var b := Above(samples, 0.8);
    SensorIntervalsAbove(samples, 0.8);
    assert |b| == 4 && b[0] && !b[1] && b[2] && b[3];
    assert RunEnd(b, 0) == 0;
    assert RunEnd(b, 2) == 3;
    assert RunsFrom(b, 4) == [];
    assert RunsFrom(b, 2) == [Run(2, 3)];
    assert RunsFrom(b, 1) == [Run(2, 3)];
    assert Runs(b) == [Run(0, 0), Run(2, 3)];
  }

  /** Runs the program on two sources. A source is None when it cannot be
      opened, and then nothing is reported. */
  method Analyze(source1: Option<seq<SensorData>>, source2: Option<seq<SensorData>>)
    returns (result: Option<Report>)
    ensures result == if source1.Some? && source2.Some?
                      then Some(ReportOf(source1.value, source2.value))
                      else None
  {
    var sensor1 := new Sensor(1, Threshold1);
    var sensor2 := new Sensor(2, Threshold2);

    var ok1 := sensor1.ReadSensorFile(source1);
    if !ok1 {
      return None;
    }
    var ok2 := sensor2.ReadSensorFile(source2);
    if !ok2 {
      return None;
    }
    ghost var s1 := Truncate(source1.value);
    ghost var s2 := Truncate(source2.value);
    assert sensor1.data[..sensor1.sampleCount] == s1;
    assert sensor2.data[..sensor2.sampleCount] == s2;

    sensor1.GenerateDetection();
    sensor2.GenerateDetection();
    ghost var d1 := Detection(s1, Threshold1);
    ghost var d2 := Detection(s2, Threshold2);
    assert sensor1.objectDetection[..sensor1.sampleCount] == d1;
    assert sensor2.objectDetection[..sensor2.sampleCount] == d2;

    var intervals1 := sensor1.Intervals();
    assert intervals1 == SensorIntervals(s1, Threshold1);
    var intervals2 := sensor2.Intervals();
    assert intervals2 == SensorIntervals(s2, Threshold2);
    var fused := Fusion(sensor1, sensor2);
    assert fused == FusedIntervals(s1, Threshold1, s2, Threshold2);
    result := Some(Report(intervals1, intervals2, fused));
  }
}
