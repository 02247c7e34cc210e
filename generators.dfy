/** The five per-type column generators. Each takes the column's
    `generation` mapping and the row count; `column` is the column's position
    in the schema, which only tells the sources which draws are this
    column's. */
module Generators {
  import opened Schema
  import opened Sampling

  /* ---------------------------------------------------------------- integer */

  predicate StartStepMode(cfg: GenConfig)
  {
    cfg.start.Some? && cfg.step.Some?
  }

  predicate MinMaxMode(cfg: GenConfig)
  {
    cfg.min.Some? && cfg.max.Some?
  }

  /** The list `[start + step * i for i in range(n)]`. */
  function ArithmeticSequence(start: int, step: int, n: nat): seq<int>
  {
    seq(n, i => start + step * i)
  }

  /** `generate_integer`: a `faker` key wins and yields no column; then
      `start`/`step` gives an arithmetic sequence; then `min`/`max` gives
      `randint(min, max + 1)` draws, so both bounds are inclusive, and
      reversed bounds are refused only when rows are asked for; with none of
      these keys the configuration is invalid. */
  function GenerateInteger(cfg: GenConfig, numRows: nat, column: nat, o: Sampler): (r: Outcome<int>)
    ensures r.NoColumn? <==> cfg.faker.Some?
    ensures r == Failed(InvalidIntegerConfig) <==>
              cfg.faker.None? && !StartStepMode(cfg) && !MinMaxMode(cfg)
    ensures r == Failed(SamplerRejected) <==>
              cfg.faker.None? && !StartStepMode(cfg) && MinMaxMode(cfg) && cfg.min.value > cfg.max.value && numRows > 0
    ensures r.Produced? ==> |r.values| == numRows
    ensures cfg.faker.None? && StartStepMode(cfg) ==>
              r.Produced? &&
              forall i :: 0 <= i < numRows ==> r.values[i] == cfg.start.value + cfg.step.value * i
    ensures cfg.faker.None? && !StartStepMode(cfg) && MinMaxMode(cfg) && (cfg.min.value <= cfg.max.value || numRows == 0) ==>
              r.Produced? &&
              forall i :: 0 <= i < |r.values| ==> cfg.min.value <= r.values[i] <= cfg.max.value
  {
    if cfg.faker.Some? then
      NoColumn
    else if StartStepMode(cfg) then
      Produced(ArithmeticSequence(cfg.start.value, cfg.step.value, numRows))
    else if MinMaxMode(cfg) then
      var low, high := cfg.min.value, cfg.max.value + 1;
      if !RandIntAccepts(low, high, numRows) then Failed(SamplerRejected)
      else Produced(seq(numRows, i requires 0 <= i < numRows => o.randInt(Draw(column, i), low, high)))
    else
      Failed(InvalidIntegerConfig)
  }

  /** The closed form and the recurrence describe the same sequences: a list
      is `ArithmeticSequence(start, step, n)` exactly when it has `n`
      elements, starts at `start` and each element is its predecessor plus
      `step`. */
  lemma {:induction false} ArithmeticSequenceRecurrence(start: int, step: int, n: nat, s: seq<int>)
    ensures s == ArithmeticSequence(start, step, n) <==>
              |s| == n && (n > 0 ==> s[0] == start) &&
              forall i :: 0 <= i < n - 1 ==> s[i + 1] == s[i] + step
  {
    var a := ArithmeticSequence(start, step, n);
    if |s| == n && (n > 0 ==> s[0] == start) && forall i :: 0 <= i < n - 1 ==> s[i + 1] == s[i] + step {
      RecurrenceClosedForm(start, step, s, n);
      assert s == a;
    }
    if s == a {
      forall i | 0 <= i < n - 1 ensures s[i + 1] == s[i] + step {
        calc {
          s[i + 1];
          start + step * (i + 1);
          start + step * i + step;
        }
      }
    }
  }

  /** Helper: a list obeying the recurrence has the closed form on its first
      `k` elements. */
  lemma {:induction false} RecurrenceClosedForm(start: int, step: int, s: seq<int>, k: nat)
    requires k <= |s|
    requires |s| > 0 ==> s[0] == start
    requires forall i :: 0 <= i < |s| - 1 ==> s[i + 1] == s[i] + step
    ensures forall i :: 0 <= i < k ==> s[i] == start + step * i
  {
    if k > 1 {
      RecurrenceClosedForm(start, step, s, k - 1);
      assert s[k - 1] == s[k - 2] + step;
      assert s[k - 1] == start + step * (k - 1);
    }
  }

  /* ----------------------------------------------------------------- string */

  /** `[getattr(fake, name)() for _ in range(n)]`, row by row: `None` as soon
      as one call raises. */
  function FakeCalls(name: string, column: nat, n: nat, o: Sampler): (r: Option<seq<string>>)
    ensures r.Some? <==> forall i :: 0 <= i < n ==> o.fake(name, Draw(column, i)).Some?
    ensures r.Some? ==>
              |r.value| == n &&
              forall i :: 0 <= i < n ==> o.fake(name, Draw(column, i)) == Some(r.value[i])
  {
    if n == 0 then Some([])
    else
      match FakeCalls(name, column, n - 1, o)
      case None => None
      case Some(vs) =>
        match o.fake(name, Draw(column, n - 1))
        case None => None
        case Some(v) => Some(vs + [v])
  }

  /** `generate_string`: a missing or falsy `faker` raises; a provider that
      cannot be looked up or called is reported and yields no column;
      otherwise one provider call per row. With no rows the provider is never
      looked up. */
  function GenerateString(cfg: GenConfig, numRows: nat, column: nat, o: Sampler): (r: Outcome<string>)
    ensures r == Failed(MissingFakerMethod) <==> cfg.faker.None? || cfg.faker.value == ""
    ensures r.Failed? ==> r.error == MissingFakerMethod
    ensures r.NoColumn? <==>
              cfg.faker.Some? && cfg.faker.value != "" &&
              exists i :: 0 <= i < numRows && o.fake(cfg.faker.value, Draw(column, i)).None?
    ensures r.Produced? ==>
              |r.values| == numRows &&
              forall i :: 0 <= i < numRows ==> o.fake(cfg.faker.value, Draw(column, i)) == Some(r.values[i])
  {
    if cfg.faker.None? || cfg.faker.value == "" then
      Failed(MissingFakerMethod)
    else
      match FakeCalls(cfg.faker.value, column, numRows, o)
      case None => NoColumn
      case Some(vs) => Produced(vs)
  }

  /* ------------------------------------------------------------------- date */

  /** `generate_date`: both bounds are read (a missing one is a `KeyError`),
      both must already be dates, then one `date_between` draw per row; the
      first draw raises when the start is after the end, so with rows the
      bounds must be in order. */
  function GenerateDate(cfg: GenConfig, numRows: nat, column: nat, o: Sampler): (r: Outcome<int>)
    ensures r == Failed(MissingKey("start_date")) <==> cfg.startDate.None?
    ensures r == Failed(MissingKey("end_date")) <==> cfg.startDate.Some? && cfg.endDate.None?
    ensures r == Failed(InvalidDateFormat) <==>
              cfg.startDate.Some? && cfg.endDate.Some? &&
              !(cfg.startDate.value.Day? && cfg.endDate.value.Day?)
    ensures r == Failed(EmptyDateRange) <==>
              cfg.startDate.Some? && cfg.endDate.Some? &&
              cfg.startDate.value.Day? && cfg.endDate.value.Day? &&
              cfg.startDate.value.ordinal > cfg.endDate.value.ordinal && numRows > 0
    ensures r.Produced? <==>
              cfg.startDate.Some? && cfg.endDate.Some? &&
              cfg.startDate.value.Day? && cfg.endDate.value.Day? &&
              (cfg.startDate.value.ordinal <= cfg.endDate.value.ordinal || numRows == 0)
    ensures r.Produced? ==>
              |r.values| == numRows &&
              forall i :: 0 <= i < numRows ==>
                cfg.startDate.value.ordinal <= r.values[i] <= cfg.endDate.value.ordinal
  {
    if cfg.startDate.None? then Failed(MissingKey("start_date"))
    else if cfg.endDate.None? then Failed(MissingKey("end_date"))
    else
      var start, end := cfg.startDate.value, cfg.endDate.value;
      if !(start.Day? && end.Day?) then
        Failed(InvalidDateFormat)
      else if start.ordinal > end.ordinal && numRows > 0 then
        Failed(EmptyDateRange)
      else
        Produced(seq(numRows, i requires 0 <= i < numRows => o.dateBetween(Draw(column, i), start.ordinal, end.ordinal)))
  }

  /* ---------------------------------------------------------------- boolean */

  /** `gen_config.get('probability', 0.5)`. */
  function ProbabilityOf(cfg: GenConfig): real
  {
    match cfg.probability
    case None => 0.5
    case Some(p) => p
  }

  /** The weights `[prob, 1 - prob]` for `[True, False]` are a distribution
      whenever `0 <= prob <= 1`, so the sampler never rejects them. */
  lemma BooleanWeights(p: real)
    requires 0.0 <= p <= 1.0
    ensures IsDistribution([p, 1.0 - p])
  {
    var w := [p, 1.0 - p];
    assert w[1..] == [1.0 - p];
    assert w[1..][1..] == [];
    assert Sum(w) == p + Sum([1.0 - p]) == p + (1.0 - p) + Sum([]);
  }

  /** `generate_boolean`: the probability must lie in [0, 1]; then each row is
      `choice([True, False], p=[prob, 1 - prob])`. A certain outcome is always
      drawn: probability 1 gives only `True`, probability 0 only `False`. */
  function GenerateBoolean(cfg: GenConfig, numRows: nat, column: nat, o: Sampler): (r: Outcome<bool>)
    ensures r == Failed(InvalidProbability) <==> !(0.0 <= ProbabilityOf(cfg) <= 1.0)
    ensures r.Produced? <==> 0.0 <= ProbabilityOf(cfg) <= 1.0
    ensures r.Produced? ==> |r.values| == numRows
    ensures ProbabilityOf(cfg) == 1.0 ==> forall i :: 0 <= i < |r.values| ==> r.values[i]
    ensures ProbabilityOf(cfg) == 0.0 ==> forall i :: 0 <= i < |r.values| ==> !r.values[i]
  {
    var p := ProbabilityOf(cfg);
    if 0.0 <= p <= 1.0 then
      BooleanWeights(p);
      Produced(seq(numRows, i requires 0 <= i < numRows => o.choice(Draw(column, i), [p, 1.0 - p]) == 0))
    else
      Failed(InvalidProbability)
  }

  /* ------------------------------------------------------------ categorical */

  /** `generate_categorical`: `categories` is read first (a missing one is a
      `KeyError`); absent weights or weights whose sum is not exactly 1 raise;
      the sampler then checks its own arguments; each row is one label of
      `categories`. */
  function GenerateCategorical(cfg: GenConfig, numRows: nat, column: nat, o: Sampler): (r: Outcome<string>)
    ensures r == Failed(MissingKey("categories")) <==> cfg.categories.None?
    ensures r == Failed(InvalidProbabilities) <==>
              cfg.categories.Some? && (cfg.probabilities.None? || Sum(cfg.probabilities.value) != 1.0)
    ensures r == Failed(SamplerRejected) <==>
              cfg.categories.Some? && cfg.probabilities.Some? && Sum(cfg.probabilities.value) == 1.0 &&
              !ChoiceAccepts(|cfg.categories.value|, cfg.probabilities.value, numRows)
    ensures !r.NoColumn?
    ensures r.Produced? <==>
              cfg.categories.Some? && cfg.probabilities.Some? && Sum(cfg.probabilities.value) == 1.0 &&
              ChoiceAccepts(|cfg.categories.value|, cfg.probabilities.value, numRows)
    ensures r.Produced? ==>
              |r.values| == numRows &&
              forall i :: 0 <= i < numRows ==> r.values[i] in cfg.categories.value
  {
    match cfg.categories
    case None => Failed(MissingKey("categories"))
    case Some(cats) =>
      match cfg.probabilities
      case None => Failed(InvalidProbabilities)
      case Some(ps) =>
        if Sum(ps) != 1.0 then Failed(InvalidProbabilities)
        else if !ChoiceAccepts(|cats|, ps, numRows) then Failed(SamplerRejected)
        else Produced(seq(numRows, i requires 0 <= i < numRows => cats[o.choice(Draw(column, i), ps)]))
  }

  /** Only categories with positive weight are ever drawn: when every weight
      but the `k`-th is zero, every row is `categories[k]`. */
  lemma {:induction false} CategoricalSingleSupport(cfg: GenConfig, numRows: nat, column: nat, o: Sampler, k: nat)
    requires cfg.categories.Some? && cfg.probabilities.Some?
    requires k < |cfg.probabilities.value|
    requires forall j :: 0 <= j < |cfg.probabilities.value| && j != k ==> cfg.probabilities.value[j] == 0.0
    ensures var r := GenerateCategorical(cfg, numRows, column, o);
            r.Produced? ==> forall i :: 0 <= i < numRows ==> r.values[i] == cfg.categories.value[k]
  {
  }
}
