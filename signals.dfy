/** Maximal runs of `true` in a boolean signal: the reference against which
    the detection-interval scans are proved. A run is given by the indices of
    its first and last sample. */
module Signals {

  datatype Run = Run(first: nat, last: nat)

  /** `r` is a maximal run of `b`: every sample from `first` to `last` is true,
      and neither neighbour outside it is. */
  ghost predicate IsRun(b: seq<bool>, r: Run)
  {
    r.first <= r.last < |b| &&
    (forall k :: r.first <= k <= r.last ==> b[k]) &&
    (r.first == 0 || !b[r.first - 1]) &&
    (r.last + 1 == |b| || !b[r.last + 1])
  }

  /** Runs listed in increasing order, each separated from the next by at
      least one false sample. */
  ghost predicate Separated(rs: seq<Run>)
  {
    forall j, j' :: 0 <= j < j' < |rs| ==> rs[j].last + 1 < rs[j'].first
  }

  /** Sample `k` lies in one of the runs `rs`. */
  ghost predicate Covered(rs: seq<Run>, k: nat)
  {
    exists j :: 0 <= j < |rs| && rs[j].first <= k <= rs[j].last
  }

  /** `rs` lists, in order, every maximal run of `b` that starts at or after `i`. */
  ghost predicate MaximalRunsFrom(b: seq<bool>, i: nat, rs: seq<Run>)
  {
    (forall j :: 0 <= j < |rs| ==> IsRun(b, rs[j]) && i <= rs[j].first) &&
    Separated(rs) &&
    (forall k {:trigger Covered(rs, k)} :: i <= k < |b| && b[k] ==> Covered(rs, k))
  }

  /** `rs` is the list of all maximal runs of `b`, in order. */
  ghost predicate MaximalRuns(b: seq<bool>, rs: seq<Run>)
  {
    MaximalRunsFrom(b, 0, rs)
  }

  /** The last index of the run of true samples that contains `i`, looking forward. */
  function RunEnd(b: seq<bool>, i: nat): (e: nat)
    requires i < |b| && b[i]
    ensures i <= e < |b|
    ensures forall k :: i <= k <= e ==> b[k]
    ensures e + 1 == |b| || !b[e + 1]
    decreases |b| - i
  {
    if i + 1 < |b| && b[i + 1] then RunEnd(b, i + 1) else i
  }

  /** The runs of `b` found by looking forward from index `i`. */
  function RunsFrom(b: seq<bool>, i: nat): (rs: seq<Run>)
    requires i <= |b|
    ensures forall j :: 0 <= j < |rs| ==> i <= rs[j].first <= rs[j].last < |b|
    decreases |b| - i
  {
    if i == |b| then []
    else if !b[i] then RunsFrom(b, i + 1)
    else
      var e := RunEnd(b, i);
      [Run(i, e)] + RunsFrom(b, e + 1)
  }

  /** All runs of `b`. */
  function Runs(b: seq<bool>): (rs: seq<Run>)
    ensures forall j :: 0 <= j < |rs| ==> rs[j].first <= rs[j].last < |b|
  {
    RunsFrom(b, 0)
  }

  /** The end found by RunEnd is the only index that closes the run. */
  lemma RunEndIsLastTrue(b: seq<bool>, i: nat, e: nat)
    requires i <= e < |b|
    requires forall k :: i <= k <= e ==> b[k]
    requires e + 1 == |b| || !b[e + 1]
    ensures RunEnd(b, i) == e
  {
    var e' := RunEnd(b, i);
  }

  /** The runs found after a maximal run keep a false sample between. */
  lemma GapAfterRun(b: seq<bool>, r: Run, rest: seq<Run>)
    requires IsRun(b, r)
    requires MaximalRunsFrom(b, r.last + 1, rest)
    ensures forall j :: 0 <= j < |rest| ==> r.last + 1 < rest[j].first
  {
    forall j | 0 <= j < |rest|
      ensures r.last + 1 < rest[j].first
    {
      assert IsRun(b, rest[j]);
      assert b[rest[j].first];
    }
  }

  /** Putting a maximal run in front of the runs found after it. */
  lemma ConsMaximal(b: seq<bool>, r: Run, rest: seq<Run>)
    requires IsRun(b, r)
    requires MaximalRunsFrom(b, r.last + 1, rest)
    ensures MaximalRunsFrom(b, r.first, [r] + rest)
  {
    GapAfterRun(b, r, rest);
    var rs := [r] + rest;
    assert forall j :: 0 < j < |rs| ==> rs[j] == rest[j - 1];
    assert Separated(rs);
    forall k | r.first <= k < |b| && b[k]
      ensures Covered(rs, k)
    {
      if k <= r.last {
        assert rs[0].first <= k <= rs[0].last;
      } else {
        assert Covered(rest, k);
        var j :| 0 <= j < |rest| && rest[j].first <= k <= rest[j].last;
        assert rs[j + 1] == rest[j];
      }
    }
  }

  /** Taking the first run off a list of maximal runs. */
  lemma TailMaximal(b: seq<bool>, i: nat, rs: seq<Run>)
    requires MaximalRunsFrom(b, i, rs) && |rs| > 0
    ensures MaximalRunsFrom(b, rs[0].last + 1, rs[1..])
  {
    var rest := rs[1..];
    forall j | 0 <= j < |rest|
      ensures IsRun(b, rest[j]) && rs[0].last + 1 <= rest[j].first
    {
      assert rest[j] == rs[j + 1];
    }
    forall k | rs[0].last + 1 <= k < |b| && b[k]
      ensures Covered(rest, k)
    {
      assert Covered(rs, k);
      var j :| 0 <= j < |rs| && rs[j].first <= k <= rs[j].last;
      assert rest[j - 1] == rs[j];
    }
  }

  /** A false sample in front of a list of maximal runs adds no run. */
  lemma SkipFalse(b: seq<bool>, i: nat, rs: seq<Run>)
    requires i < |b| && !b[i]
    requires MaximalRunsFrom(b, i + 1, rs)
    ensures MaximalRunsFrom(b, i, rs)
  {
  }

  lemma {:induction false} RunsFromAreMaximal(b: seq<bool>, i: nat)
    requires i <= |b|
    requires i == 0 || !b[i - 1]
    ensures MaximalRunsFrom(b, i, RunsFrom(b, i))
    decreases |b| - i, 1
  {
    if i == |b| {
      assert RunsFrom(b, i) == [];
    } else if !b[i] {
      RunsFromAtFalse(b, i);
    } else {
      RunsFromAtTrue(b, i);
    }
  }

  lemma {:induction false} RunsFromAtFalse(b: seq<bool>, i: nat)
    requires i < |b| && !b[i]
    ensures MaximalRunsFrom(b, i, RunsFrom(b, i))
    decreases |b| - i, 0
  {
    RunsFromSkip(b, i);
    RunsFromAreMaximal(b, i + 1);
    SkipFalse(b, i, RunsFrom(b, i + 1));
  }

  lemma {:induction false} RunsFromAtTrue(b: seq<bool>, i: nat)
    requires i < |b| && b[i]
    requires i == 0 || !b[i - 1]
    ensures MaximalRunsFrom(b, i, RunsFrom(b, i))
    decreases |b| - i, 0
  {
    var e := RunEnd(b, i);
    RunsFromClose(b, i, e);
    if e + 1 < |b| {
      RunsFromAtFalse(b, e + 1);
    } else {
      assert RunsFrom(b, e + 1) == [];
    }
    ConsMaximal(b, Run(i, e), RunsFrom(b, e + 1));
  }

  /** Every run in a list of maximal runs from `i` starts in `[i, |b|)`. */
  lemma RunInRange(b: seq<bool>, i: nat, rs: seq<Run>, j: nat)
    requires MaximalRunsFrom(b, i, rs) && j < |rs|
    ensures i <= rs[j].first < |b|
  {
    assert IsRun(b, rs[j]);
  }

  /** No maximal run starts past the last sample. */
  lemma NoRunsPastEnd(b: seq<bool>, rs: seq<Run>)
    requires MaximalRunsFrom(b, |b|, rs)
    ensures rs == []
  {
    if |rs| > 0 {
      RunInRange(b, |b|, rs, 0);
      assert false;
    }
  }

  /** No maximal run starts at a false sample. */
  lemma DropFalse(b: seq<bool>, i: nat, rs: seq<Run>)
    requires i < |b| && !b[i]
    requires MaximalRunsFrom(b, i, rs)
    ensures MaximalRunsFrom(b, i + 1, rs)
  {
    forall j | 0 <= j < |rs|
      ensures i + 1 <= rs[j].first
    {
      assert IsRun(b, rs[j]);
      assert b[rs[j].first];
    }
  }

  /** The first maximal run at or after a true sample `i` is the one RunEnd finds from `i`. */
  lemma HeadRun(b: seq<bool>, i: nat, rs: seq<Run>)
    requires i < |b| && b[i]
    requires MaximalRunsFrom(b, i, rs)
    ensures |rs| > 0 && rs[0] == Run(i, RunEnd(b, i))
  {
    assert Covered(rs, i);
    var j :| 0 <= j < |rs| && rs[j].first <= i <= rs[j].last;
    assert IsRun(b, rs[0]);
    RunEndIsLastTrue(b, i, rs[0].last);
  }

  lemma {:induction false} MaximalRunsFromAreRunsFrom(b: seq<bool>, i: nat, rs: seq<Run>)
    requires i <= |b|
    requires MaximalRunsFrom(b, i, rs)
    ensures rs == RunsFrom(b, i)
    decreases |b| - i, 1
  {
    if i == |b| {
      NoRunsPastEnd(b, rs);
    } else if !b[i] {
      CompleteAtFalse(b, i, rs);
    } else {
      CompleteAtTrue(b, i, rs);
    }
  }

  lemma {:induction false} CompleteAtFalse(b: seq<bool>, i: nat, rs: seq<Run>)
    requires i < |b| && !b[i]
    requires MaximalRunsFrom(b, i, rs)
    ensures rs == RunsFrom(b, i)
    decreases |b| - i, 0
  {
    RunsFromSkip(b, i);
    DropFalse(b, i, rs);
    MaximalRunsFromAreRunsFrom(b, i + 1, rs);
  }

  lemma {:induction false} CompleteAtTrue(b: seq<bool>, i: nat, rs: seq<Run>)
    requires i < |b| && b[i]
    requires MaximalRunsFrom(b, i, rs)
    ensures rs == RunsFrom(b, i)
    decreases |b| - i, 0
  {
    HeadRun(b, i, rs);
    var e := RunEnd(b, i);
    TailMaximal(b, i, rs);
    MaximalRunsFromAreRunsFrom(b, e + 1, rs[1..]);
    RunsFromClose(b, i, e);
    calc {
      rs;
      [rs[0]] + rs[1..];
      [Run(i, e)] + RunsFrom(b, e + 1);
      RunsFrom(b, i);
    }
  }

  /** At a false sample, looking forward finds the same runs as from the next sample. */
  lemma RunsFromSkip(b: seq<bool>, i: nat)
    requires i < |b| && !b[i]
    ensures RunsFrom(b, i) == RunsFrom(b, i + 1)
  {
  }

  /** Looking forward from the first sample of a run that closes at `e`. */
  lemma RunsFromClose(b: seq<bool>, s: nat, e: nat)
    requires s <= e < |b|
    requires forall k :: s <= k <= e ==> b[k]
    requires e + 1 == |b| || !b[e + 1]
    ensures RunsFrom(b, s) == [Run(s, e)] + RunsFrom(b, e + 1)
  {
    RunEndIsLastTrue(b, s, e);
  }

  /** The state of a forward scan of `b` that has read samples `0 .. i-1`:
      `done` holds the runs already closed, in order; the scan is `active`
      exactly when the last sample read is true, and then the open run
      started at `start`. What is left to find is the rest of Runs(b). */
  ghost predicate ScanState(b: seq<bool>, i: nat, active: bool, start: nat, done: seq<Run>)
  {
    i <= |b| &&
    (forall j :: 0 <= j < |done| ==> done[j].first <= done[j].last < i) &&
    active == (i > 0 && b[i - 1]) &&
    (!active ==> Runs(b) == done + RunsFrom(b, i)) &&
    (active ==> start < i && (forall k :: start <= k < i ==> b[k]) &&
                Runs(b) == done + RunsFrom(b, start))
  }

  lemma ScanInit(b: seq<bool>)
    ensures ScanState(b, 0, false, 0, [])
  {
    assert [] + RunsFrom(b, 0) == Runs(b);
  }

  /** Inactive, reading a true sample: a run opens at `i`. */
  lemma ScanOpen(b: seq<bool>, i: nat, start: nat, done: seq<Run>)
    requires ScanState(b, i, false, start, done) && i < |b| && b[i]
    ensures ScanState(b, i + 1, true, i, done)
  {
  }

  /** Inactive, reading a false sample: nothing happens. */
  lemma ScanSkip(b: seq<bool>, i: nat, start: nat, done: seq<Run>)
    requires ScanState(b, i, false, start, done) && i < |b| && !b[i]
    ensures ScanState(b, i + 1, false, start, done)
  {
    RunsFromSkip(b, i);
  }

  /** Active, reading a true sample: the open run goes on. */
  lemma ScanExtend(b: seq<bool>, i: nat, start: nat, done: seq<Run>)
    requires ScanState(b, i, true, start, done) && i < |b| && b[i]
    ensures ScanState(b, i + 1, true, start, done)
  {
  }

  /** Active, reading a false sample: the open run closes at the previous sample. */
  lemma ScanClose(b: seq<bool>, i: nat, start: nat, done: seq<Run>)
    requires ScanState(b, i, true, start, done) && i < |b| && !b[i]
    ensures 0 < i
    ensures ScanState(b, i + 1, false, start, done + [Run(start, i - 1)])
  {
    RunsFromClose(b, start, i - 1);
    RunsFromSkip(b, i);
    assert done + ([Run(start, i - 1)] + RunsFrom(b, i + 1))
        == (done + [Run(start, i - 1)]) + RunsFrom(b, i + 1);
  }

  /** One step of the scan, reading sample `i`. */
  lemma ScanStep(b: seq<bool>, i: nat, active: bool, start: nat, done: seq<Run>)
    requires ScanState(b, i, active, start, done) && i < |b|
    ensures !active && b[i] ==> ScanState(b, i + 1, true, i, done)
    ensures !active && !b[i] ==> ScanState(b, i + 1, false, start, done)
    ensures active && b[i] ==> ScanState(b, i + 1, true, start, done)
    ensures active && !b[i] ==>
              0 < i && start <= i - 1 && ScanState(b, i + 1, false, start, done + [Run(start, i - 1)])
  {
    if !active && b[i] {
      ScanOpen(b, i, start, done);
    } else if !active {
      ScanSkip(b, i, start, done);
    } else if b[i] {
      ScanExtend(b, i, start, done);
    } else {
      ScanClose(b, i, start, done);
    }
  }

  /** At the end of the data an open run is closed at the last sample. */
  lemma ScanFinish(b: seq<bool>, active: bool, start: nat, done: seq<Run>)
    requires ScanState(b, |b|, active, start, done)
    ensures active ==> 0 < |b| && start < |b| && Runs(b) == done + [Run(start, |b| - 1)]
    ensures !active ==> Runs(b) == done
  {
    if active {
      RunsFromClose(b, start, |b| - 1);
    }
    assert RunsFrom(b, |b|) == [];
  }

  /** Runs(b) is the list of the maximal runs of `b`. */
  lemma RunsAreMaximal(b: seq<bool>)
    ensures MaximalRuns(b, Runs(b))
  {
    RunsFromAreMaximal(b, 0);
  }

  /** ... and it is the only such list. */
  lemma MaximalRunsUnique(b: seq<bool>, rs: seq<Run>)
    requires MaximalRuns(b, rs)
    ensures rs == Runs(b)
  {
    MaximalRunsFromAreRunsFrom(b, 0, rs);
  }

  /** A signal with no true sample has no run. */
  lemma NoTrueNoRuns(b: seq<bool>)
    requires forall k :: 0 <= k < |b| ==> !b[k]
    ensures Runs(b) == []
  {
    MaximalRunsUnique(b, []);
  }

  /** Right censoring: when the last sample is true, the last run ends there. */
  lemma RunsRightCensored(b: seq<bool>)
    requires |b| > 0 && b[|b| - 1]
    ensures |Runs(b)| > 0 && Runs(b)[|Runs(b)| - 1].last == |b| - 1
  {
    var rs := Runs(b);
    RunsAreMaximal(b);
    assert Covered(rs, |b| - 1);
    var j :| 0 <= j < |rs| && rs[j].first <= |b| - 1 <= rs[j].last;
    assert IsRun(b, rs[|rs| - 1]);
  }

  /** A run of a signal `c` that implies `b` sample by sample lies inside
      one run of `b`. */
  lemma RunWithinRun(b: seq<bool>, c: seq<bool>, r: Run)
    requires |c| <= |b|
    requires forall k :: 0 <= k < |c| && c[k] ==> b[k]
    requires IsRun(c, r)
    ensures exists j :: 0 <= j < |Runs(b)| &&
              Runs(b)[j].first <= r.first && r.last <= Runs(b)[j].last
  {
    var rs := Runs(b);
    RunsAreMaximal(b);
    assert c[r.first];
    assert Covered(rs, r.first);
    var j :| 0 <= j < |rs| && rs[j].first <= r.first <= rs[j].last;
    assert IsRun(b, rs[j]);
    var m := if rs[j].last < r.last then rs[j].last + 1 else r.last;
    assert c[m];
  }
}
