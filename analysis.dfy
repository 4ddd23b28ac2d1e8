/** The two pure helpers both workers share, `compute_stats` and
    `generate_summary` (the tool server and the worker agent carry identical
    copies of them). */
module Analysis {
  import opened Wrappers
  import opened Json
  import opened PyText
  import opened Reals

  /** The dict `compute_stats` returns: count, min, max and mean of a list. */
  datatype Stats = Stats(count: nat, min: Json, max: Json, mean: real)

  /** A JSON value Python can compare and average: int, float or bool. */
  predicate IsNumber(j: Json) {
    j.JInt? || j.JFloat? || j.JBool?
  }

  function Value(j: Json): real
    requires IsNumber(j)
  {
    match j
    case JInt(i) => i as real
    case JFloat(f) => f
    case JBool(b) => if b then 1.0 else 0.0
  }

  predicate AllNumbers(xs: seq<Json>) {
    forall i :: 0 <= i < |xs| ==> IsNumber(xs[i])
  }

  function Values(xs: seq<Json>): (vs: seq<real>)
    requires AllNumbers(xs)
    ensures |vs| == |xs| && forall i :: 0 <= i < |xs| ==> vs[i] == Value(xs[i])
  {
    seq(|xs|, i requires 0 <= i < |xs| => Value(xs[i]))
  }

  const EmptyInputError := "Empty input list"

  /** The text of the TypeError Python raises for a non-empty value that is not
      a list of numbers; its real wording depends on the value and is not modelled. */
  const NotNumbersError := "TypeError: not a list of numbers"

  /** The stats of a non-empty list of numbers, as `compute_stats` builds them. */
  function StatsOf(xs: seq<Json>): (s: Stats)
    requires |xs| > 0 && AllNumbers(xs)
    ensures s.count == |xs| && s.min in xs && s.max in xs
  {
    var vs := Values(xs);
    Stats(|xs|, xs[ArgMin(vs)], xs[ArgMax(vs)], Mean(vs))
  }

  /** What the stats of a list say about it: the length, extrema that are
      members bounding every element, and the arithmetic mean of the values,
      which lies between the extrema. */
  predicate Describes(s: Stats, xs: seq<Json>)
    requires AllNumbers(xs)
  {
    && s.count == |xs|
    && s.min in xs && s.max in xs
    && IsNumber(s.min) && IsNumber(s.max)
    && (forall i :: 0 <= i < |xs| ==> Value(s.min) <= Value(xs[i]) <= Value(s.max))
    && Value(s.min) <= s.mean <= Value(s.max)
    && s.mean == Mean(Values(xs))
  }

  lemma StatsOfExtrema(xs: seq<Json>)
    requires |xs| > 0 && AllNumbers(xs)
    ensures var s := StatsOf(xs);
      && s.min in xs && s.max in xs
      && Value(s.min) == Min(Values(xs)) && Value(s.max) == Max(Values(xs))
      && forall i :: 0 <= i < |xs| ==> Value(s.min) <= Value(xs[i]) <= Value(s.max)
  {
    var vs := Values(xs);
    var lo, hi := ArgMin(vs), ArgMax(vs);
    assert StatsOf(xs).min == xs[lo] && StatsOf(xs).max == xs[hi];
    forall i | 0 <= i < |xs| ensures vs[lo] <= Value(xs[i]) <= vs[hi] {
      assert vs[i] == Value(xs[i]);
    }
  }

  lemma StatsOfMean(xs: seq<Json>)
    requires |xs| > 0 && AllNumbers(xs)
    ensures Min(Values(xs)) <= StatsOf(xs).mean <= Max(Values(xs))
  {
    MeanBetween(Values(xs));
  }

  lemma StatsOfDescribes(xs: seq<Json>)
    requires |xs| > 0 && AllNumbers(xs)
    ensures Describes(StatsOf(xs), xs)
  {
    StatsOfExtrema(xs);
    StatsOfMean(xs);
  }

  /** `compute_stats(numbers)`: rejects a falsy argument (the empty list, or null
      when the key was missing) with "Empty input list"; otherwise the count,
      the extrema Python's `min`/`max` pick and the mean of the list. */
  function ComputeStats(numbers: Json): (r: Result<Stats>)
    ensures r == Failure(EmptyInputError) <==> IsFalsy(numbers)
    ensures r.Success? <==> numbers.JArr? && |numbers.items| > 0 && AllNumbers(numbers.items)
    ensures r.Success? ==> Describes(r.value, numbers.items)
    ensures r.Success? ==>
      && r.value.min == numbers.items[ArgMin(Values(numbers.items))]
      && r.value.max == numbers.items[ArgMax(Values(numbers.items))]
  {
    if IsFalsy(numbers) then Failure(EmptyInputError)
    else if !(numbers.JArr? && AllNumbers(numbers.items)) then Failure(NotNumbersError)
    else
      StatsOfDescribes(numbers.items);
      Success(StatsOf(numbers.items))
  }

  /** The stats dict as the handlers put it in a reply. */
  function StatsJson(s: Stats): (j: Json)
    ensures j.JObj?
    ensures Lookup(j.fields, "count") == Some(JInt(s.count)) && Lookup(j.fields, "min") == Some(s.min)
    ensures Lookup(j.fields, "max") == Some(s.max) && Lookup(j.fields, "mean") == Some(JFloat(s.mean))
  {
    LookupFour("count", JInt(s.count), "min", s.min, "max", s.max, "mean", JFloat(s.mean));
    JObj([("count", JInt(s.count)), ("min", s.min), ("max", s.max), ("mean", JFloat(s.mean))])
  }

  /** `stats[key]`, raising KeyError (whose text is the key's repr) when absent. */
  function Key(stats: seq<(string, Json)>, key: string): (r: Result<Json>)
    ensures r.Success? <==> Lookup(stats, key).Some?
    ensures r.Failure? ==> r.error == Quote(key)
  {
    match Lookup(stats, key)
    case Some(v) => Success(v)
    case None => Failure(Quote(key))
  }

  /** `format(v, '.2f')`: ints, floats and bools format; a str raises
      ValueError and every other type TypeError. */
  function Fixed2(v: Json, fmt: FloatFormat): (r: Result<string>)
    ensures r.Success? <==> IsNumber(v)
  {
    if IsNumber(v) then Success(fmt.fixed2(Value(v)))
    else if v.JStr? then Failure("Unknown format code 'f' for object of type 'str'")
    else Failure("unsupported format string passed to " + TypeName(v) + ".__format__")
  }

  /** The sentence `generate_summary` writes, from the rendered fields. */
  function SummaryText(count: string, min: string, max: string, mean: string): (t: string)
    ensures |t| > 0 && Contains(t, count) && Contains(t, min) && Contains(t, max)
  {
    var head := "The dataset contains ";
    var mid1 := " values. The minimum value is ";
    var mid2 := ", the maximum value is ";
    var tail := ", and the average value is " + mean + ".";
    var p1 := head + count;
    var p2 := p1 + mid1 + min;
    var p3 := p2 + mid2 + max;
    ContainsSuffix(head, count);
    ContainsExtend(p1, mid1 + min, count);
    assert p1 + (mid1 + min) == p2;
    ContainsSuffix(p1 + mid1, min);
    ContainsExtend(p2, mid2 + max, count);
    ContainsExtend(p2, mid2 + max, min);
    assert p2 + (mid2 + max) == p3;
    ContainsSuffix(p2 + mid2, max);
    ContainsExtend(p3, tail, count);
    ContainsExtend(p3, tail, min);
    ContainsExtend(p3, tail, max);
    p3 + tail
  }

  /** The f-string's four lookups, in order; the first missing key raises. */
  function SummaryFields(stats: seq<(string, Json)>): (r: Result<(Json, Json, Json, Json)>)
    ensures r.Success? <==>
      Lookup(stats, "count").Some? && Lookup(stats, "min").Some? && Lookup(stats, "max").Some? && Lookup(stats, "mean").Some?
    ensures Lookup(stats, "count").None? ==> r == Failure(Quote("count"))
    ensures r.Success? ==>
      r.value == (Lookup(stats, "count").value, Lookup(stats, "min").value, Lookup(stats, "max").value, Lookup(stats, "mean").value)
  {
    var count :- Key(stats, "count");
    var min :- Key(stats, "min");
    var max :- Key(stats, "max");
    var mean :- Key(stats, "mean");
    Success((count, min, max, mean))
  }

  /** `generate_summary(stats)` for a dict `stats`: the f-string looks up
      count, min, max and mean in that order and formats the mean last. */
  function GenerateSummary(stats: seq<(string, Json)>, fmt: FloatFormat): (r: Result<string>)
    ensures r.Success? <==>
      && Lookup(stats, "count").Some? && Lookup(stats, "min").Some? && Lookup(stats, "max").Some?
      && Lookup(stats, "mean").Some? && IsNumber(Lookup(stats, "mean").value)
    ensures Lookup(stats, "count").None? ==> r == Failure(Quote("count"))
    ensures r.Success? ==>
      && |r.value| > 0
      && Contains(r.value, Str(Lookup(stats, "count").value, fmt))
      && Contains(r.value, Str(Lookup(stats, "min").value, fmt))
      && Contains(r.value, Str(Lookup(stats, "max").value, fmt))
  {
    var (count, min, max, mean) :- SummaryFields(stats);
    var meanText :- Fixed2(mean, fmt);
    Success(SummaryText(Str(count, fmt), Str(min, fmt), Str(max, fmt), meanText))
  }

  /** Integer lists, the workload the dataset holds: a non-empty one is
      accepted, and its min and max are int members that bound the list. */
  lemma StatsOfInts(xs: seq<int>)
    requires |xs| > 0
    ensures var r := ComputeStats(IntsJson(xs));
      && r.Success? && r.value.count == |xs|
      && r.value.min.JInt? && r.value.max.JInt?
      && r.value.min.i in xs && r.value.max.i in xs
      && forall i :: 0 <= i < |xs| ==> r.value.min.i <= xs[i] <= r.value.max.i
  {
    var j := IntsJson(xs);
    var s := ComputeStats(j).value;
    assert !IsFalsy(j);
    assert AllNumbers(j.items);
    var lo :| 0 <= lo < |xs| && j.items[lo] == s.min;
    var hi :| 0 <= hi < |xs| && j.items[hi] == s.max;
    assert s.min == JInt(xs[lo]) && s.max == JInt(xs[hi]);
    forall i | 0 <= i < |xs| ensures s.min.i <= xs[i] <= s.max.i {
      assert Value(j.items[i]) == xs[i] as real;
    }
  }

  lemma SummaryFieldsOfStats(s: Stats)
    ensures SummaryFields(StatsJson(s).fields) == Success((JInt(s.count), s.min, s.max, JFloat(s.mean)))
  {
  }

  /** The summary of a stats dict built by `compute_stats` is the sentence
      with the count written as an int and the mean formatted as a float. */
  lemma SummaryOfStatsText(s: Stats, fmt: FloatFormat)
    ensures GenerateSummary(StatsJson(s).fields, fmt)
      == Success(SummaryText(IntText(s.count), Str(s.min, fmt), Str(s.max, fmt), fmt.fixed2(s.mean)))
  {
    SummaryFieldsOfStats(s);
    assert Fixed2(JFloat(s.mean), fmt) == Success(fmt.fixed2(s.mean));
    assert Str(JInt(s.count), fmt) == IntText(s.count);
  }

  /** The summary of a stats dict built by `compute_stats` is produced, and
      it shows the count, the min and the max. */
  lemma SummaryOfStats(s: Stats, fmt: FloatFormat)
    ensures var r := GenerateSummary(StatsJson(s).fields, fmt);
      && r.Success? && |r.value| > 0
      && Contains(r.value, IntText(s.count))
      && Contains(r.value, Str(s.min, fmt))
      && Contains(r.value, Str(s.max, fmt))
  {
    SummaryOfStatsText(s, fmt);
  }

  /** Stats with int extrema: the summary writes them as integers. */
  lemma SummaryOfIntStats(s: Stats, fmt: FloatFormat)
    requires s.min.JInt? && s.max.JInt?
    ensures var r := GenerateSummary(StatsJson(s).fields, fmt);
      && r.Success?
      && Contains(r.value, IntText(s.count))
      && Contains(r.value, IntText(s.min.i))
      && Contains(r.value, IntText(s.max.i))
  {
    SummaryOfStatsText(s, fmt);
    assert Str(s.min, fmt) == IntText(s.min.i);
    assert Str(s.max, fmt) == IntText(s.max.i);
    var t := SummaryText(IntText(s.count), IntText(s.min.i), IntText(s.max.i), fmt.fixed2(s.mean));
    assert GenerateSummary(StatsJson(s).fields, fmt) == Success(t);
  }

  /** For a non-empty integer list the summary text mentions its length and
      its min and max written as integers. */
  lemma SummaryMentionsInts(xs: seq<int>, fmt: FloatFormat)
    requires |xs| > 0
    ensures var r := ComputeStats(IntsJson(xs));
      && r.Success?
      && var t := GenerateSummary(StatsJson(r.value).fields, fmt);
      && t.Success?
      && Contains(t.value, IntText(|xs|))
      && r.value.min.JInt? && r.value.max.JInt?
      && Contains(t.value, IntText(r.value.min.i))
      && Contains(t.value, IntText(r.value.max.i))
  {
    StatsOfInts(xs);
    SummaryOfIntStats(ComputeStats(IntsJson(xs)).value, fmt);
  }
}
