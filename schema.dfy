/** The values the column generators consume and produce: a column's
    generation parameters as parsed from the configuration, the error kinds
    the generators raise, and the shape of a generated column. */
module Schema {

  datatype Option<T> = None | Some(value: T)

  datatype Result<T, E> = Ok(value: T) | Err(error: E)

  /** A `start_date`/`end_date` value as the configuration loader hands it
      over: either already a calendar date (its proleptic ordinal day
      number) or anything else, such as a quoted string. */
  datatype DateArg = Day(ordinal: int) | NotADate(text: string)

  /** The `generation` mapping of one column. A field is `None` when the key
      is absent. A `faker` key that is present with a falsy value (null, an
      empty string) is `Some("")`; `probabilities: null` is `None`. */
  datatype GenConfig = GenConfig(
    faker: Option<string>,
    start: Option<int>,
    step: Option<int>,
    min: Option<int>,
    max: Option<int>,
    probability: Option<real>,
    startDate: Option<DateArg>,
    endDate: Option<DateArg>,
    categories: Option<seq<string>>,
    probabilities: Option<seq<real>>)

  /** A mapping with none of the recognised keys. */
  const NoKeys := GenConfig(None, None, None, None, None, None, None, None, None, None)

  /** One entry of the schema: the column's `name`, its `type` tag and its
      `generation` mapping. */
  datatype ColumnSpec = ColumnSpec(name: string, dtype: string, generation: GenConfig)

  /** The exceptions a generation call can raise. */
  datatype GenError =
    | UnsupportedType(dtype: string)  // ValueError from the dispatch
    | InvalidIntegerConfig            // ValueError: no start/step and no min/max
    | MissingFakerMethod              // ValueError: string column without a truthy `faker`
    | InvalidDateFormat               // TypeError: a date bound that is not a date
    | EmptyDateRange                  // ValueError from `date_between` when the start is after the end
    | InvalidProbability              // ValueError: boolean probability outside [0, 1]
    | InvalidProbabilities            // ValueError: categorical weights absent or not summing to 1
    | MissingKey(key: string)         // KeyError on a required key of the mapping
    | SamplerRejected                 // ValueError raised by the random sampler's own argument checks

  /** What one generator returns: a list of values, `None` (the generator
      fell off its end without a value), or an exception. */
  datatype Outcome<T> = Produced(values: seq<T>) | NoColumn | Failed(error: GenError)

  /** One cell of the table; categorical labels are text cells. */
  datatype Cell = IntCell(i: int) | TextCell(s: string) | DateCell(day: int) | BoolCell(b: bool)

  /** The value stored under a column name: a list of cells, or `None`. */
  datatype Column = Values(cells: seq<Cell>) | NoValue
}
