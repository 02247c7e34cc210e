# Synthetic data generator: column-generation core

This project models the column-generation logic of a mock-data tool in
Dafny and proves properties about it. The tool reads a schema: an ordered
list of columns, each with a `name`, a `type` and a `generation` mapping.
It also reads a row count. From these it builds a table:

- It walks the schema in order.
- It routes each column by its `type` to one of five generators: integer,
  string, date, boolean and categorical.
- It stores each generator's result in a dictionary keyed by column name.
- An unknown type, or any generator that raises, aborts the whole call, so
  no table is returned.

Modules:

- `Schema` (`schema.dfy`): the `generation` mapping as a record of optional
  keys (`GenConfig`), the exceptions the generators raise (`GenError`), a
  generator's outcome (`Produced`, `NoColumn` for Python's `None`, `Failed`),
  and cells and columns.
- `Sampling` (`sampling.dfy`): the random and fake-value sources, taken as
  given. These are numpy's `randint` and `choice`, and Faker's named providers
  and `date_between`. Each source is a function of the draw's position, a
  column index and a row. `Sound` states what the libraries document: the
  half-open range of `randint`, that `choice` only draws elements with
  positive weight, and the closed range of `date_between`. Every generator
  takes a `Sampler`, the subset type of sources that keep these promises.
  `RandIntAccepts` and `ChoiceAccepts` state when numpy refuses its
  arguments.
- `Generators` (`generators.dfy`): the five generators as functions, one
  draw per row.
- `DataFrame` (`dataframe.dfy`): the dispatch by `type` (`GenerateColumn`)
  and the insertion-ordered dictionary (`Table`, with `Put` for
  `data[name] = ...`). `Fold` walks the schema for any per-column generator.
  `Assemble` is that walk with the real dispatch. `GenerateDataFrame` is the
  loop that fills the dictionary, proved equal to `Assemble`. The lemmas are
  proved about `Fold` for every generator, so they hold for `Assemble` too.
  They cover:
  - when the call succeeds;
  - which exception it raises;
  - the order of the columns;
  - which value a repeated name keeps.
- `Scenarios` (`scenarios.dfy`): concrete configurations and their results.

Behaviours of the code that are easy to miss, and that the model keeps:

- An integer column whose mapping has a `faker` key yields no column (`None`).
  This holds even when `start`/`step` or `min`/`max` are also present, and
  also when `faker` is the only key. It is not an "invalid configuration"
  error.
- A string column with an unknown provider name and zero rows yields an empty
  list. The provider is only looked up inside the per-row comprehension, so
  with no rows nothing fails.
- The dictionary can hold `None` for a column, as above. So not every entry
  of the table is a list of `num_rows` values.
- numpy's own argument checks are part of the behaviour, and the model
  reports them as `SamplerRejected`:
  - `min > max` makes `randint(min, max + 1)` raise, but only when rows are
    asked for: with `num_rows = 0` numpy returns an empty array before it
    checks the bounds;
  - a categorical mapping whose weights sum to 1 can still be refused by
    `choice`, when a weight is negative or there are more or fewer weights
    than categories.
- Faker's `date_between` raises `ValueError` when the start date is after the
  end date. The model reports it as `EmptyDateRange`, raised by the first
  row's draw, so a date column with zero rows never fails on its bounds.

## Model

| member | source | states |
|---|---|---|
| `Generators.GenerateInteger` | data_generation.py:52-64 | Key priority. A `faker` key gives no column, and nothing else does. Otherwise `start`/`step` gives exactly `num_rows` values with `start + step*i` at row `i`. Otherwise `min`/`max` gives `num_rows` values, each within the closed range `[min, max]`; it fails as numpy does exactly when `min > max` and at least one row is asked for, and gives an empty list for zero rows. With none of these keys it raises the invalid-configuration error, and only then. |
| `Generators.ArithmeticSequenceRecurrence` | data_generation.py:57-60 | The start/step list is characterised independently. A list equals it exactly when it has `num_rows` elements, begins at `start`, and each element is the previous one plus `step`. |
| `Generators.FakeCalls` | data_generation.py:72 | The per-row provider calls succeed exactly when every row's call succeeds. On success the result has `num_rows` values, and row `i` is the value of the `i`-th call. |
| `Generators.GenerateString` | data_generation.py:66-76 | A missing or falsy `faker` raises the missing-method error, and only then; it is the only exception. No column (`None`) is returned exactly when `faker` is truthy and some row's provider call fails. Otherwise the list has `num_rows` values, one provider call per row. |
| `Generators.GenerateDate` | data_generation.py:78-86 | A missing `start_date` or `end_date` is a key error, raised in that order. Both present but not both dates raises the format error. Both dates with `start_date > end_date` and at least one row raises `date_between`'s range error, and only then. A list is produced exactly when both are dates and either they are in order or there are no rows. The list has `num_rows` values, each within `[start_date, end_date]`. |
| `Generators.BooleanWeights` | data_generation.py:92 | For `0 <= p <= 1`, the weights `[p, 1 - p]` are non-negative and sum to 1, so numpy's `choice` accepts them. |
| `Generators.GenerateBoolean` | data_generation.py:88-94 | `probability` defaults to 0.5. A list is produced exactly when `0 <= p <= 1`; otherwise the probability error is raised. The list has `num_rows` booleans: all `True` when `p = 1` and all `False` when `p = 0`. |
| `Generators.GenerateCategorical` | data_generation.py:96-103 | A missing `categories` is a key error, checked first. Then absent weights, or weights whose sum is not exactly 1, raise the probabilities error, and only then. Next numpy's argument checks apply. A list is produced exactly when `categories` is present, the weights sum to 1 and numpy accepts them; the result never lacks a column. On success it has `num_rows` labels, each a member of `categories`. |
| `Generators.CategoricalSingleSupport` | data_generation.py:103 | When every weight except the `k`-th is zero, every drawn label is `categories[k]`. For example, weights `[1, 0, 0]` always give the first category. |
| `DataFrame.GenerateColumn` | data_generation.py:37-48 | Routing uses `type` alone. An unknown type gives the error that names that type, and only an unknown type does. A produced column has exactly `num_rows` cells of the type's kind. No value is stored exactly for an integer column with `faker` or a string column whose provider fails. |
| `DataFrame.Table.Put` | data_generation.py:38-46 | Dictionary assignment keeps the table well formed: each key is listed once, and exactly the keys are listed. The key's value becomes the new column and no other value changes. Keys already present keep their positions, and a new key is appended at the end. |
| `DataFrame.Fold` | data_generation.py:29-48 | The walk is over the schema in order, for any per-column generator. The first exception stops it. Each result is stored with dictionary assignment. The resulting dictionary is well formed. |
| `DataFrame.FoldRows` | data_generation.py:29-48 | If every column the generator produces has `num_rows` cells, then so does every list-valued entry of the dictionary. |
| `DataFrame.Assemble` | data_generation.py:27-50 | The walk with the real dispatch. The dictionary is well formed, and every list-valued column in it has `num_rows` cells. |
| `DataFrame.GenerateDataFrame` | data_generation.py:27-50 | The loop over the schema returns exactly what `Assemble` specifies: the filled dictionary, or the first exception. |
| `DataFrame.AbortIsFinal` | data_generation.py:47-48 | Once a prefix of the schema has raised, the whole call raises that same exception and returns no table. |
| `DataFrame.SucceedsIff` | data_generation.py:31-48 | A table is returned exactly when every column's generator returns without raising. |
| `DataFrame.FirstError` | data_generation.py:31-48 | A failed call raises the exception of a column whose predecessors all succeeded, which is the first column that raises. |
| `DataFrame.UnsupportedTypeAborts` | data_generation.py:47-48 | An unsupported type reached after successful columns makes the whole call raise the error that names that type. |
| `DataFrame.ColumnOrder` | data_generation.py:29-48 | The table's keys are exactly the schema's distinct names, ordered by each name's first position in the schema. |
| `DataFrame.LastWins` | data_generation.py:33-46 | For a repeated name, the table holds the column generated for its last occurrence. |
| `Scenarios.IdAndActiveTable` | data_generation.py:27-60 | For `id` (start 1, step 1) and `active` (probability 1) with 3 rows, the table is `{id: [1, 2, 3], active: [True, True, True]}`, in that order, for any draws. |
| `Scenarios.RepeatedNameOverwrites` | data_generation.py:31-55 | Three columns `a`, `b`, `a` give the keys `a`, `b`. `a` takes the second declaration's value, `None` from its `faker` key. |
| `Scenarios.ReversedBoundsNeedRows` | data_generation.py:61-84 | `min` 5 and `max` 3 give an empty list for zero rows and numpy's rejection for one row. Dates 10 and 5 give an empty list for zero rows and the range error for one row. |
| `Scenarios.RejectedConfigurations` | data_generation.py:52-101 | Each case raises its exception: probability 1.5, weights summing to 0.999, `min` without `max`, a quoted date, an empty `faker`. |

## Left out

- `main` (data_generation.py:8-25): reading the configuration file, building the Faker object and printing the frame are I/O.
- The diagnostic that `generate_string` prints when a provider fails is I/O. The model keeps only the outcome: no column.
- `pd.DataFrame(data)` is not modelled. The model stops at the insertion-ordered dictionary. So it does not capture pandas broadcasting a `None` entry across the rows, or pandas rejecting a dictionary of `None` entries only.
- Random and fake values are not computed. Each source is a function of the draw's position (column index, row), and only what the libraries document about it is assumed (`Sampling.Sound`). Not modelled: the shared global random state, the statistical distribution (for example, that the frequency of `True` tends to `p`), and the values Faker's providers return. Provider values are modelled as strings.
- Floating point is not modelled. `probability` and the weights are exact reals, so `sum(probabilities) != 1` is an exact comparison. It does not show the rounding that can make the float sum of a list differ from 1. numpy's tolerance on the sum is not modelled.
- Missing `name`, `type` or `generation` keys in a column, which Python reports as a `KeyError`, cannot occur: `ColumnSpec` has all three fields. Missing `start_date`, `end_date` and `categories` are modelled as `MissingKey`.
- Values of the wrong Python type are excluded by the record's field types. Examples: a string `start`, a non-numeric `probability`, non-string categories. A present but falsy `faker` value (null, empty string) is modelled as the empty name.
- A negative `num_rows` is excluded by typing it `nat`.
- numpy's 64-bit limits on `randint` bounds are not modelled.
- Faker versions in which `date_between` returns a date for reversed bounds instead of raising are not modelled. The model follows the versions that raise `ValueError`.
- A `datetime` value, which Python also accepts as a date, is modelled as a date, by its day.
