/** The random and fake-value sources the generators draw from, taken as
    given: numpy's `randint` and `choice`, and Faker's named providers and
    `date_between`. Each source is a function of the draw's position (which
    column, which row), so that the model stays deterministic; what the
    sources guarantee is stated once, in `Sound`, and carried by the type
    `Sampler`. */
module Sampling {
  import opened Schema

  /** The position of one draw: the column's index in the schema and the row. */
  datatype Draw = Draw(column: nat, row: nat)

  datatype Oracles = Oracles(
    /** `randint(low, high)`: an integer in the half-open range [low, high). */
    randInt: (Draw, int, int) -> int,
    /** `choice(a, p=p)`: the index of the element drawn with weights `p`. */
    choice: (Draw, seq<real>) -> nat,
    /** `getattr(fake, name)()`: the provider's value, or `None` when the
        lookup or the call raises. */
    fake: (string, Draw) -> Option<string>,
    /** `date_between(start_date, end_date)`, on ordinal day numbers; only
        drawn when `start_date <= end_date` (otherwise Faker raises). */
    dateBetween: (Draw, int, int) -> int)

  /** `sum(p)` over exact reals. */
  function Sum(p: seq<real>): real
  {
    if p == [] then 0.0 else p[0] + Sum(p[1..])
  }

  predicate NonNegative(p: seq<real>)
  {
    forall i :: 0 <= i < |p| ==> p[i] >= 0.0
  }

  predicate IsDistribution(p: seq<real>)
  {
    NonNegative(p) && Sum(p) == 1.0
  }

  /** numpy's `randint` drawing `n` samples refuses an empty range
      (`low >= high`) unless no samples are asked for: a zero size returns an
      empty array before the bounds are checked. */
  predicate RandIntAccepts(low: int, high: int, n: nat)
  {
    low < high || n == 0
  }

  /** numpy's `choice` over `size` elements with weights `p`, drawing `n`
      samples, refuses an empty population when samples are asked for,
      weights of the wrong length, negative weights and weights that do not
      sum to 1. */
  predicate ChoiceAccepts(size: nat, p: seq<real>, n: nat)
  {
    (size > 0 || n == 0) && |p| == size && IsDistribution(p)
  }

  /** The guarantees the libraries document for their sources. Faker's
      providers promise nothing the generators rely on. */
  ghost predicate Sound(o: Oracles)
  {
    (forall d, low, high :: low < high ==> low <= o.randInt(d, low, high) < high) &&
    (forall d, p :: IsDistribution(p) ==> o.choice(d, p) < |p| && p[o.choice(d, p)] > 0.0) &&
    (forall d, start, end :: start <= end ==> start <= o.dateBetween(d, start, end) <= end)
  }

  /** The index of the first positive weight; only used to show that sound
      sources exist. */
  function FirstPositive(p: seq<real>): (k: nat)
    ensures NonNegative(p) && Sum(p) != 0.0 ==> k < |p| && p[k] > 0.0
  {
    if p == [] then 0
    else if p[0] > 0.0 then 0
    else
      var k := FirstPositive(p[1..]);
      assert NonNegative(p) ==> NonNegative(p[1..]) by {
        if NonNegative(p) {
          forall i | 0 <= i < |p[1..]| ensures p[1..][i] >= 0.0 {
            assert p[1..][i] == p[i + 1];
          }
        }
      }
      1 + k
  }

  type Sampler = o: Oracles | Sound(o)
    witness Oracles(
      (d: Draw, low: int, high: int) => low,
      (d: Draw, p: seq<real>) => FirstPositive(p),
      (name: string, d: Draw) => None,
      (d: Draw, start: int, end: int) => start)
}
