/** `generate_dataset`: seed the global generator with 42, then for each case
    draw a length and that many values. The generator is a `Random` object
    whose draw function is abstract; all it promises is `randint`'s contract,
    a value within the inclusive range. */
module DatasetGenerator {
  import opened Json
  import opened Analysis

  /** The seed `generate_dataset` fixes so both experiments see the same data. */
  const Seed := 42

  /** The generator's internal state, kept abstract. */
  type RngState = int

  /** `random.randint(lo, hi)` returns a value in `[lo, hi]` whatever the state. */
  ghost predicate DrawContract(draw: (RngState, int, int) -> (int, RngState)) {
    forall s, lo, hi :: lo <= hi ==> lo <= Draw(draw, s, lo, hi).0 <= hi
  }

  /** One draw: the value and the state after it. */
  function Draw(draw: (RngState, int, int) -> (int, RngState), s: RngState, lo: int, hi: int): (int, RngState) {
    draw(s, lo, hi)
  }

  /** The global `random` generator: its draw function, its seeding function
      and its current state. */
  class Random {
    const draw: (RngState, int, int) -> (int, RngState)
    const seeding: int -> RngState
    var state: RngState

    ghost predicate Valid() {
      DrawContract(draw)
    }

    constructor(draw: (RngState, int, int) -> (int, RngState), seeding: int -> RngState, initial: RngState)
      requires DrawContract(draw)
      ensures Valid()
      ensures this.draw == draw && this.seeding == seeding && state == initial
    {
      this.draw := draw;
      this.seeding := seeding;
      state := initial;
    }

    /** `random.seed(n)`: the state depends on `n` alone. */
    method SeedWith(n: int)
      modifies this
      ensures state == seeding(n)
    {
      state := seeding(n);
    }

    /** `random.randint(lo, hi)`, which raises on an empty range. */
    method RandInt(lo: int, hi: int) returns (r: int)
      requires Valid() && lo <= hi
      modifies this
      ensures (r, state) == Draw(draw, old(state), lo, hi)
      ensures lo <= r <= hi
    {
      var next := Draw(draw, state, lo, hi);
      r, state := next.0, next.1;
    }
  }

  /** `n` successive draws from `[lo, hi]` starting in state `s`, in draw
      order, with the state after them. */
  function Draws(draw: (RngState, int, int) -> (int, RngState), s: RngState, n: nat, lo: int, hi: int)
    : (r: (seq<int>, RngState))
    ensures |r.0| == n
  {
    if n == 0 then ([], s)
    else
      var (xs, s1) := Draws(draw, s, n - 1, lo, hi);
      var (x, s2) := Draw(draw, s1, lo, hi);
      (xs + [x], s2)
  }

  /** `range(length)` of a negative length is empty. */
  function Times(length: int): nat {
    if length < 0 then 0 else length
  }

  /** The first `n` cases generated from state `s`: for each, a length drawn
      from `[minLength, maxLength]` and then that many values. */
  function Cases(draw: (RngState, int, int) -> (int, RngState), s: RngState, n: nat,
                 minLength: int, maxLength: int, minValue: int, maxValue: int)
    : (r: (seq<seq<int>>, RngState))
    ensures |r.0| == n
  {
    if n == 0 then ([], s)
    else
      var (ds, s1) := Cases(draw, s, n - 1, minLength, maxLength, minValue, maxValue);
      var (length, s2) := Draw(draw, s1, minLength, maxLength);
      var (xs, s3) := Draws(draw, s2, Times(length), minValue, maxValue);
      (ds + [xs], s3)
  }

  /** The dataset `generate_dataset` returns for these parameters, given the
      generator's draw and seeding functions. */
  function Dataset(draw: (RngState, int, int) -> (int, RngState), seeding: int -> RngState,
                   numCases: int, minLength: int, maxLength: int, minValue: int, maxValue: int)
    : (dataset: seq<seq<int>>)
    ensures numCases >= 0 ==> |dataset| == numCases
    ensures numCases <= 0 ==> dataset == []
  {
    Cases(draw, seeding(Seed), Times(numCases), minLength, maxLength, minValue, maxValue).0
  }

  /** The list comprehension drawing one case's values: `length` draws from
      `[lo, hi]`, none for a negative length. */
  method DrawNumbers(rng: Random, length: int, lo: int, hi: int) returns (numbers: seq<int>)
    requires rng.Valid()
    requires length <= 0 || lo <= hi
    modifies rng
    ensures (numbers, rng.state) == Draws(rng.draw, old(rng.state), Times(length), lo, hi)
  {
    numbers := [];
    var i := 0;
    while i < Times(length)
      invariant 0 <= i <= Times(length)
      invariant (numbers, rng.state) == Draws(rng.draw, old(rng.state), i, lo, hi)
    {
      var x := rng.RandInt(lo, hi);
      numbers := numbers + [x];
      i := i + 1;
    }
  }

  /** `generate_dataset`. It does not check its ranges itself: `randint`
      raises on an empty one, so the length range must be non-empty when a
      case is drawn, and the value range when a value may be drawn. The
      result depends on the parameters and the generator's functions only,
      never on the state before the call. */
  method GenerateDataset(rng: Random, numCases: int, minLength: int, maxLength: int, minValue: int, maxValue: int)
    returns (dataset: seq<seq<int>>)
    requires rng.Valid()
    requires numCases <= 0 || minLength <= maxLength
    requires numCases <= 0 || maxLength <= 0 || minValue <= maxValue
    modifies rng
    ensures (dataset, rng.state) == Cases(rng.draw, rng.seeding(Seed), Times(numCases), minLength, maxLength, minValue, maxValue)
    ensures dataset == Dataset(rng.draw, rng.seeding, numCases, minLength, maxLength, minValue, maxValue)
  {
    rng.SeedWith(Seed);
    dataset := [];
    var c := 0;
    while c < Times(numCases)
      invariant 0 <= c <= Times(numCases)
      invariant (dataset, rng.state) == Cases(rng.draw, rng.seeding(Seed), c, minLength, maxLength, minValue, maxValue)
    {
      var length := rng.RandInt(minLength, maxLength);
      var numbers := DrawNumbers(rng, length, minValue, maxValue);
      dataset := dataset + [numbers];
      c := c + 1;
    }
  }

  // ---- properties of the generated dataset --------------------------------

  /** Draws from a non-empty range: `n` of them, each within the range. */
  lemma {:induction false} DrawsInRange(draw: (RngState, int, int) -> (int, RngState), s: RngState, n: nat, lo: int, hi: int)
    requires DrawContract(draw) && lo <= hi
    ensures var xs := Draws(draw, s, n, lo, hi).0;
      |xs| == n && forall i :: 0 <= i < |xs| ==> lo <= xs[i] <= hi
  {
    if n > 0 {
      DrawsInRange(draw, s, n - 1, lo, hi);
    }
  }

  /** Every array's length is a draw from the length range (a negative draw
      gives an empty array), and every element a draw from the value range. */
  lemma {:induction false} CasesShape(draw: (RngState, int, int) -> (int, RngState), s: RngState, n: nat,
                                      minLength: int, maxLength: int, minValue: int, maxValue: int)
    requires DrawContract(draw)
    requires n == 0 || minLength <= maxLength
    requires n == 0 || maxLength <= 0 || minValue <= maxValue
    ensures var ds := Cases(draw, s, n, minLength, maxLength, minValue, maxValue).0;
      && |ds| == n
      && (forall k :: 0 <= k < |ds| ==> minLength <= |ds[k]| <= Times(maxLength))
      && (forall k, i :: 0 <= k < |ds| && 0 <= i < |ds[k]| ==> minValue <= ds[k][i] <= maxValue)
  {
    if n > 0 {
      CasesShape(draw, s, n - 1, minLength, maxLength, minValue, maxValue);
      var (ds, s1) := Cases(draw, s, n - 1, minLength, maxLength, minValue, maxValue);
      var (length, s2) := Draw(draw, s1, minLength, maxLength);
      if Times(length) > 0 {
        DrawsInRange(draw, s2, Times(length), minValue, maxValue);
      } else {
        assert Draws(draw, s2, 0, minValue, maxValue).0 == [];
      }
    }
  }

  /** `generate_dataset` returns `num_cases` arrays (none for a negative
      count), each with between `min_length` and `max_length` elements, each
      element between `min_value` and `max_value`; `range` of a negative
      length drawn from a negative range is empty. */
  lemma DatasetShape(draw: (RngState, int, int) -> (int, RngState), seeding: int -> RngState,
                     numCases: int, minLength: int, maxLength: int, minValue: int, maxValue: int)
    requires DrawContract(draw)
    requires numCases <= 0 || minLength <= maxLength
    requires numCases <= 0 || maxLength <= 0 || minValue <= maxValue
    ensures var ds := Dataset(draw, seeding, numCases, minLength, maxLength, minValue, maxValue);
      && |ds| == Times(numCases)
      && (forall k :: 0 <= k < |ds| ==> minLength <= |ds[k]| <= Times(maxLength))
      && (forall k, i :: 0 <= k < |ds| && 0 <= i < |ds[k]| ==> minValue <= ds[k][i] <= maxValue)
  {
    CasesShape(draw, seeding(Seed), Times(numCases), minLength, maxLength, minValue, maxValue);
  }

  /** With a positive minimum length every generated array is non-empty, so
      `compute_stats` accepts each of them. */
  lemma DatasetAccepted(draw: (RngState, int, int) -> (int, RngState), seeding: int -> RngState,
                        numCases: int, minLength: int, maxLength: int, minValue: int, maxValue: int)
    requires DrawContract(draw)
    requires numCases <= 0 || minLength <= maxLength
    requires numCases <= 0 || minValue <= maxValue
    requires minLength >= 1
    ensures var ds := Dataset(draw, seeding, numCases, minLength, maxLength, minValue, maxValue);
      forall k :: 0 <= k < |ds| ==> |ds[k]| > 0 && ComputeStats(IntsJson(ds[k])).Success?
  {
    var ds := Dataset(draw, seeding, numCases, minLength, maxLength, minValue, maxValue);
    DatasetShape(draw, seeding, numCases, minLength, maxLength, minValue, maxValue);
    forall k | 0 <= k < |ds| ensures ComputeStats(IntsJson(ds[k])).Success? {
      StatsOfInts(ds[k]);
    }
  }

  /** The default parameters: 30 arrays of 5 to 20 values from 1 to 500, all
      accepted by `compute_stats`. */
  lemma DefaultDataset(draw: (RngState, int, int) -> (int, RngState), seeding: int -> RngState)
    requires DrawContract(draw)
    ensures var ds := Dataset(draw, seeding, 30, 5, 20, 1, 500);
      && |ds| == 30
      && (forall k :: 0 <= k < |ds| ==> 5 <= |ds[k]| <= 20 && ComputeStats(IntsJson(ds[k])).Success?)
      && (forall k, i :: 0 <= k < |ds| && 0 <= i < |ds[k]| ==> 1 <= ds[k][i] <= 500)
  {
    DatasetShape(draw, seeding, 30, 5, 20, 1, 500);
    DatasetAccepted(draw, seeding, 30, 5, 20, 1, 500);
  }
}
