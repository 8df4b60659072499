# Two-sensor object detection

A model of the detection program in `courses/coding-in-C/Lab_6/MySolution.c`.
The program reads the timed detection probabilities of two sensors. It
thresholds each stream into a binary detection signal. It then reports the
detection intervals of each sensor, and the intervals where both sensors
detect at once (the fused signal).

The model has three modules:

- `Signals` (`signals.dfy`) is the reference. It defines maximal runs of
  `true` in a boolean signal in two ways: as a predicate (`MaximalRuns`) and
  by a forward recursion (`Runs`). It proves that the two agree. It also
  holds `ScanState`, the invariant of the two-state scan the program runs.
- `Sensors` (`sensors.dfy`) holds the data and the program's operations:
  - `SensorData` and `Interval` as datatypes;
  - the `Sensor` struct as a class with two fixed-size arrays of
    `MaxSamples` = 3000 entries and a mutable `sampleCount`;
  - `readSensorFile`, `generateDetection` and `printIntervals` as methods of
    the class, and `printFusion` as a method over two sensors.

  Each scan is a loop over the arrays with the program's `active` and
  `startTime` variables. Instead of printing, it appends an `Interval` to an
  output sequence. Each scan is proved equal to the stamped maximal runs of
  the signal it follows.
- `Pipeline` (`pipeline.dfy`) holds `main`'s order as `Analyze`, and the
  report as a pure function of the two record streams.

Times and probabilities are modelled as `real`. The program only copies
and compares them (`>`). Detection flags are `int`, as in the program.

`printIntervals` starts an interval on a flag equal to 1 and ends it on a
flag equal to 0. A flag with any other value leaves the scan as it was;
`Held` models this. `printFusion` instead tests C truthiness: `flag1 &&
flag2` is true for any two non-zero flags; `Fused` models this.
`generateDetection` only writes 0 and 1, so both readings agree there
(`HeldBinary`). The program's comments call the flags a "binary detection
signal" (`MySolution.c:19`, `:61`), but the two scans test them
differently. The model follows the code's two tests and proves that they
agree on the signals the program produces.

## Model

| member | source | states |
|---|---|---|
| Signals.RunEnd | courses/coding-in-C/Lab_6/MySolution.c:82-96 | the end found from a true sample is the last index of its block of true samples: every sample up to it is true, and the next one is false or absent |
| Signals.RunsFrom | courses/coding-in-C/Lab_6/MySolution.c:82-102 | every run found looking forward from `i` starts at or after `i`, has first ≤ last, and ends inside the signal |
| Signals.Runs | courses/coding-in-C/Lab_6/MySolution.c:85-95 | every run has first index ≤ last index < the signal's length, so each interval's start index is at most its end index |
| Signals.RunsAreMaximal | courses/coding-in-C/Lab_6/MySolution.c:82-102 | `Runs(b)` lists maximal runs of `b`, in increasing order, separated by at least one false sample, and covering every true sample |
| Signals.MaximalRunsUnique | courses/coding-in-C/Lab_6/MySolution.c:82-102 | any list with those properties is `Runs(b)`, so the scan's output is determined by the signal alone |
| Signals.NoTrueNoRuns | courses/coding-in-C/Lab_6/MySolution.c:82-102 | a signal with no true sample, the empty one included, has no run |
| Signals.RunsRightCensored | courses/coding-in-C/Lab_6/MySolution.c:99-102 | when the last sample is true, the last run ends at the last index |
| Signals.RunWithinRun | courses/coding-in-C/Lab_6/MySolution.c:120-121 | a run of a signal that implies another sample by sample lies inside one run of the other |
| Signals.ScanStep | courses/coding-in-C/Lab_6/MySolution.c:85-95 | each of the four transitions of the two-state scan keeps the scan invariant; closing a run needs `i > 0`, so reading sample `i - 1` is in bounds |
| Signals.ScanFinish | courses/coding-in-C/Lab_6/MySolution.c:99-102 | at the end of the signal, the runs closed so far, plus the open one if any, are all the runs |
| Sensors.Detection | courses/coding-in-C/Lab_6/MySolution.c:65-70 | flag `k` is 0 or 1, and it is 1 exactly when probability `k` is strictly above the threshold |
| Sensors.Fused | courses/coding-in-C/Lab_6/MySolution.c:114-121 | the fused signal is as long as the shorter of the two signals |
| Sensors.Stamp | courses/coding-in-C/Lab_6/MySolution.c:87-101 | one interval per run |
| Sensors.StampAt | courses/coding-in-C/Lab_6/MySolution.c:87-101 | interval `j` starts at the time of run `j`'s first sample and ends at the time of its last sample |
| Sensors.StampAppend | courses/coding-in-C/Lab_6/MySolution.c:91-95 | closing one more run appends exactly its interval |
| Sensors.ScanningStep | courses/coding-in-C/Lab_6/MySolution.c:85-95 | one iteration of the scan keeps the state, the open run's start time and the intervals emitted in step with the runs closed; afterwards the scan is active exactly when the sample read is true, and closing needs `i > 0` |
| Sensors.ScanningFinish | courses/coding-in-C/Lab_6/MySolution.c:99-102 | after the loop, emitting the open run (if any) at the last sample's time completes the intervals of all runs |
| Sensors.Holds | courses/coding-in-C/Lab_6/MySolution.c:85-91 | a flag equal to 1 leaves the scan inside an interval, and a flag equal to 0 leaves it outside |
| Sensors.Held | courses/coding-in-C/Lab_6/MySolution.c:82-96 | the signal the scan follows has one entry per flag |
| Sensors.HoldsSinceOne | courses/coding-in-C/Lab_6/MySolution.c:85-91 | after flag `k` the scan is inside an interval exactly when some flag `j ≤ k` is 1 and no flag after `j` up to `k` is 0 |
| Sensors.HeldUnique | courses/coding-in-C/Lab_6/MySolution.c:79-91 | any signal that starts outside an interval, opens on 1, closes on 0 and keeps its state on any other flag is `Held` |
| Sensors.HeldFollowsScanRule | courses/coding-in-C/Lab_6/MySolution.c:79-91 | `Held` follows that rule |
| Sensors.HeldBinary | courses/coding-in-C/Lab_6/MySolution.c:85-91 | on a signal of 0s and 1s, the scan is inside an interval exactly at the flags equal to 1 |
| Sensors.NeverHolds | courses/coding-in-C/Lab_6/MySolution.c:85-88 | without a flag equal to 1 up to `k`, no interval is open at `k` |
| Sensors.NoOneNoIntervals | courses/coding-in-C/Lab_6/MySolution.c:82-102 | a signal with no flag equal to 1 yields no interval, the empty signal included |
| Sensors.IntervalsRightCensored | courses/coding-in-C/Lab_6/MySolution.c:99-102 | when the last flag is 1, the last interval ends at the time of the last sample |
| Sensors.FusedIgnoresLongerTail | courses/coding-in-C/Lab_6/MySolution.c:114-118 | flags past the end of the shorter signal, on either side, do not change the fused signal |
| Sensors.FusionCommutes | courses/coding-in-C/Lab_6/MySolution.c:120-121 | swapping the sensors gives the same fused runs; only the times would come from the other sensor |
| Sensors.FusedWithinSensor | courses/coding-in-C/Lab_6/MySolution.c:120-121 | on a 0/1 signal, every fused run lies inside one interval run of the first sensor |
| Sensors.Sensor.constructor | courses/coding-in-C/Lab_6/MySolution.c:151-152 | a sensor gets its id and threshold, no samples, and zero-filled sample and flag arrays of 3000 entries |
| Sensors.Sensor.ReadSensorFile | courses/coding-in-C/Lab_6/MySolution.c:38-57 | an unopened source fails and changes nothing; otherwise the first min(records, 3000) of the records are stored in order, `sampleCount` counts them, and later slots keep their old contents |
| Sensors.Sensor.GenerateDetection | courses/coding-in-C/Lab_6/MySolution.c:64-71 | the flags of the samples read become their thresholded detection; flags at and past `sampleCount` and everything else in the sensor are unchanged |
| Sensors.Sensor.Intervals | courses/coding-in-C/Lab_6/MySolution.c:78-103 | the emitted intervals are the maximal runs of the scanned signal, in order, each stamped with the times of its first and last sample; the sensor is not modified |
| Sensors.Sensor.IntervalsTwice | courses/coding-in-C/Lab_6/MySolution.c:78-103 | two scans of the same sensor emit the same intervals |
| Sensors.Fusion | courses/coding-in-C/Lab_6/MySolution.c:110-142 | the emitted intervals are the maximal runs where both flags are non-zero, over the shorter signal only, stamped with sensor 1's times; neither sensor is modified |
| Sensors.FusionTwice | courses/coding-in-C/Lab_6/MySolution.c:110-142 | two fused scans of the same sensors emit the same intervals |
| Pipeline.Truncate | courses/coding-in-C/Lab_6/MySolution.c:46-51 | a sensor keeps exactly min(records, 3000) records, a prefix of its source, so all of them when there are no more than 3000 |
| Pipeline.ReportOf | courses/coding-in-C/Lab_6/MySolution.c:159-172 | the report holds, in print order, the maximal runs of each sensor's samples strictly above its threshold (0.8, then 0.7) and the maximal runs where both are, each stamped with the times of its first and last sample (sensor 1's times for the fused list) |
| Pipeline.SensorIntervalsAbove | courses/coding-in-C/Lab_6/MySolution.c:64-103 | after thresholding, a sensor reports the maximal runs of samples strictly above its threshold, stamped with their times |
| Pipeline.FusedIntervalsAbove | courses/coding-in-C/Lab_6/MySolution.c:110-142 | after thresholding, the fused report is the maximal runs of samples where both sensors exceed their thresholds, stamped with sensor 1's times |
| Pipeline.EmptySourceReportsNothing | courses/coding-in-C/Lab_6/MySolution.c:82-142 | a source with no record yields no interval for its sensor and no fused interval |
| Pipeline.FourSampleExample | courses/coding-in-C/Lab_6/MySolution.c:82-102 | probabilities 0.9, 0.4, 0.85, 0.95 at times 0 to 3 with threshold 0.8 report the intervals [0, 0] and [2, 3] |
| Pipeline.Analyze | courses/coding-in-C/Lab_6/MySolution.c:149-175 | with thresholds 0.8 and 0.7, the program reports sensor 1, sensor 2, then the fused intervals of the two stored streams; if either source fails to open, nothing is reported |

## Left out

- File input: `fopen` and `fscanf` are not modelled. A source is given as `None` when it cannot be opened. Otherwise it is given as the records parsed before the first record that does not parse.
- Sensors.Sensor.ReadSensorFile: does not model `fscanf` writing the time of a half-parsed record into the slot after the last one kept. That slot is past `sampleCount`, so no scan reads it.
- Output: `printf`, the section headers and the `%.2f` rounding are not modelled. The scans return the list of intervals they would print, in print order.
- Number formats: `float` times and `double` probabilities are modelled as exact `real`s. The program only copies and compares them.
- Exit status: `main`'s `return 1` is modelled as `Analyze` returning `None`, and its normal end as `Some` report. File names are not modelled.
- Time order: the program never checks that times increase. So "start ≤ end" is proved on sample indices, not on time values.
