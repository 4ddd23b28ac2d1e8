/** The per-request records both drivers produce and the aggregate they
    compute from them after the loop (the same comprehensions in both drivers). */
module Metrics {
  import opened Wrappers
  import opened Reals

  /** One request's outcome: the dict a driver appends to `results`. */
  datatype Record = Record(
    protocol: string,
    requestIndex: nat,
    durationMs: real,
    success: bool,
    error: Option<string>,
    messagesOrCalls: nat)

  /** The figures the run summary reports. */
  datatype Summary = Summary(
    total: nat,
    successful: nat,
    successRate: real,
    avgTime: Option<real>,
    minTime: Option<real>,
    maxTime: Option<real>)

  /** `[r for r in results if r["success"]]`: no longer than the run, and
      holding only successful records (`SuccessfulMembers` says which). */
  function Successful(results: seq<Record>): (rs: seq<Record>)
    ensures |rs| <= |results|
    ensures forall i :: 0 <= i < |rs| ==> rs[i].success
  {
    if results == [] then []
    else
      var last := results[|results| - 1];
      Successful(results[..|results| - 1]) + (if last.success then [last] else [])
  }

  /** `[r["duration_ms"] for r in successful]`. */
  function Durations(rs: seq<Record>): (ds: seq<real>)
    ensures |ds| == |rs| && forall i :: 0 <= i < |rs| ==> ds[i] == rs[i].durationMs
  {
    seq(|rs|, i requires 0 <= i < |rs| => rs[i].durationMs)
  }

  /** The filter keeps order: it maps concatenation to concatenation, so
      together with single records it is determined. */
  lemma {:induction false} SuccessfulAppend(xs: seq<Record>, ys: seq<Record>)
    ensures Successful(xs + ys) == Successful(xs) + Successful(ys)
    decreases |ys|
  {
    if ys == [] {
      assert xs + ys == xs;
    } else {
      var init := ys[..|ys| - 1];
      assert (xs + ys)[..|xs + ys| - 1] == xs + init;
      SuccessfulAppend(xs, init);
    }
  }

  /** Exactly the successful records survive the filter. */
  lemma {:induction false} SuccessfulMembers(rs: seq<Record>)
    ensures forall r :: r in Successful(rs) <==> r in rs && r.success
  {
    if rs != [] {
      var init := rs[..|rs| - 1];
      SuccessfulMembers(init);
      assert rs == init + [rs[|rs| - 1]];
    }
  }

  /** The filter keeps everything exactly when every record succeeded, and
      nothing exactly when none did. */
  lemma {:induction false} SuccessfulCount(rs: seq<Record>)
    ensures |Successful(rs)| <= |rs|
    ensures |Successful(rs)| == |rs| <==> forall i :: 0 <= i < |rs| ==> rs[i].success
    ensures |Successful(rs)| == 0 <==> forall i :: 0 <= i < |rs| ==> !rs[i].success
  {
    if rs != [] {
      var init := rs[..|rs| - 1];
      SuccessfulCount(init);
      assert forall i :: 0 <= i < |init| ==> init[i] == rs[i];
    }
  }

  /** `len(successful) / len(results) * 100.0 if results else 0.0`. */
  function Rate(successful: nat, total: nat): (rate: real)
    ensures total == 0 ==> rate == 0.0
    ensures successful <= total ==> 0.0 <= rate <= 100.0
    ensures total > 0 && successful <= total ==>
      && rate * (total as real) == (successful as real) * 100.0
      && (rate == 0.0 <==> successful == 0)
      && (rate == 100.0 <==> successful == total)
  {
    if total > 0 then
      var rate := (successful as real / total as real) * 100.0;
      if successful <= total then
        Percentage(successful as real, total as real);
        rate
      else rate
    else 0.0
  }

  /** What the timing figures rely on: the durations of the successful
      records are, position by position, those of records that succeeded,
      and every record that succeeded contributes its duration. */
  lemma DurationsOfSuccessful(results: seq<Record>)
    ensures var successful := Successful(results);
      && (forall i :: 0 <= i < |successful| ==>
            successful[i] in results && successful[i].success
            && Durations(successful)[i] == successful[i].durationMs)
      && (forall r :: r in results && r.success ==> r.durationMs in Durations(successful))
  {
    var successful := Successful(results);
    var ds := Durations(successful);
    SuccessfulMembers(results);
    forall i | 0 <= i < |successful|
      ensures successful[i] in results && successful[i].success
    {
      assert successful[i] in successful;
    }
    forall r | r in results && r.success ensures r.durationMs in ds {
      assert r in successful;
      var i :| 0 <= i < |successful| && successful[i] == r;
      assert ds[i] == r.durationMs;
    }
  }

  /** The aggregate of a run: success rate over all records (0 for none),
      and mean/min/max of the successful records' durations, absent when
      there are none. */
  function Aggregate(results: seq<Record>): (s: Summary)
    ensures s.total == |results| && s.successful == |Successful(results)|
    ensures s.successRate == Rate(s.successful, s.total)
    ensures s.avgTime.None? <==> s.successful == 0
    ensures s.minTime.None? <==> s.successful == 0
    ensures s.maxTime.None? <==> s.successful == 0
    ensures s.successful > 0 ==>
      && s.avgTime == Some(Mean(Durations(Successful(results))))
      && s.minTime == Some(Min(Durations(Successful(results))))
      && s.maxTime == Some(Max(Durations(Successful(results))))
      && s.minTime.value <= s.avgTime.value <= s.maxTime.value
  {
    var successful := Successful(results);
    var ds := Durations(successful);
    if |ds| == 0 then
      Summary(|results|, |successful|, Rate(|successful|, |results|), None, None, None)
    else
      MeanBetween(ds);
      Summary(|results|, |successful|, Rate(|successful|, |results|), Some(Mean(ds)), Some(Min(ds)), Some(Max(ds)))
  }

  /** The reported minimum and maximum bound the duration of every
      successful record and are each the duration of one of them. */
  lemma AggregateTiming(results: seq<Record>)
    requires |Successful(results)| > 0
    ensures var s := Aggregate(results);
      && (forall r :: r in results && r.success ==> s.minTime.value <= r.durationMs <= s.maxTime.value)
      && (exists r :: r in results && r.success && r.durationMs == s.minTime.value)
      && (exists r :: r in results && r.success && r.durationMs == s.maxTime.value)
  {
    var successful := Successful(results);
    var ds := Durations(successful);
    var s := Aggregate(results);
    DurationsOfSuccessful(results);
    forall r | r in results && r.success ensures s.minTime.value <= r.durationMs <= s.maxTime.value {
      var i :| 0 <= i < |ds| && ds[i] == r.durationMs;
    }
    var lo, hi := successful[ArgMin(ds)], successful[ArgMax(ds)];
    assert lo in results && lo.success && lo.durationMs == s.minTime.value;
    assert hi in results && hi.success && hi.durationMs == s.maxTime.value;
  }

  /** The success rate is a percentage: 0 when nothing succeeded (or there
      were no records), 100 exactly when a non-empty run fully succeeded. */
  lemma SuccessRate(results: seq<Record>)
    ensures var rate := Rate(|Successful(results)|, |results|);
      && 0.0 <= rate <= 100.0
      && (|results| == 0 ==> rate == 0.0)
      && (|results| > 0 ==> rate * (|results| as real) == (|Successful(results)| as real) * 100.0)
      && (rate == 0.0 <==> forall i :: 0 <= i < |results| ==> !results[i].success)
      && (|results| > 0 ==> (rate == 100.0 <==> forall i :: 0 <= i < |results| ==> results[i].success))
  {
    SuccessfulCount(results);
  }

  /** A run in which every request failed: rate 0, no timing figures. */
  lemma AllFailed(results: seq<Record>)
    requires forall i :: 0 <= i < |results| ==> !results[i].success
    ensures Aggregate(results).successRate == 0.0
    ensures Aggregate(results).avgTime == None
    ensures Aggregate(results).minTime == None && Aggregate(results).maxTime == None
  {
    SuccessfulCount(results);
    SuccessRate(results);
    assert Aggregate(results).successful == 0;
  }

  /** A non-empty run in which every request succeeded: rate 100. */
  lemma AllSucceeded(results: seq<Record>)
    requires |results| > 0
    requires forall i :: 0 <= i < |results| ==> results[i].success
    ensures Aggregate(results).successful == |results|
    ensures Aggregate(results).successRate == 100.0
    ensures Aggregate(results).avgTime.Some?
  {
    SuccessfulCount(results);
    SuccessRate(results);
  }

  /** Three successful requests of 10, 20 and 30 ms: average 20, min 10, max 30. */
  lemma ThreeSuccesses(p: string)
    ensures var rs := [Record(p, 1, 10.0, true, None, 2), Record(p, 2, 20.0, true, None, 2),
                       Record(p, 3, 30.0, true, None, 2)];
      Aggregate(rs) == Summary(3, 3, 100.0, Some(20.0), Some(10.0), Some(30.0))
  {
    var rs := [Record(p, 1, 10.0, true, None, 2), Record(p, 2, 20.0, true, None, 2),
               Record(p, 3, 30.0, true, None, 2)];
    assert rs[..2][..1] == [rs[0]] && rs[..2] == [rs[0], rs[1]];
    assert Successful([rs[0]]) == [rs[0]];
    assert Successful(rs) == rs;
    var ds := Durations(rs);
    assert ds == [10.0, 20.0, 30.0];
    assert ds[..2] == [10.0, 20.0] && ds[..2][..1] == [10.0] && ds[..2][..1][..0] == [];
    assert Sum([10.0]) == 10.0;
    assert Sum(ds) == 60.0;
    assert Mean(ds) == 20.0;
    assert ArgMin(ds[..2]) == 0 && ArgMin(ds) == 0;
    assert ArgMax(ds[..2]) == 1 && ArgMax(ds) == 2;
    assert Aggregate(rs).successful == 3;
    assert Rate(3, 3) == 100.0;
  }
}
