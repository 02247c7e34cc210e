/** `generate_dataframe`: walk the schema in order, route each column by its
    `type` tag to its generator and store the result in a dictionary keyed by
    column name. The dictionary is modelled as an insertion-ordered `Table`;
    the pandas frame built from it is not part of this model. */
module DataFrame {
  import opened Schema
  import opened Sampling
  import opened Generators

  /* -------------------------------------------------------------- dispatch */

  predicate SupportedType(dtype: string)
  {
    dtype == "integer" || dtype == "string" || dtype == "date" ||
    dtype == "boolean" || dtype == "categorical"
  }

  /** The kind of cell a column of type `dtype` holds. */
  predicate CellMatches(dtype: string, c: Cell)
  {
    match c
    case IntCell(_) => dtype == "integer"
    case TextCell(_) => dtype == "string" || dtype == "categorical"
    case DateCell(_) => dtype == "date"
    case BoolCell(_) => dtype == "boolean"
  }

  /** A generator's outcome as the value stored in the dictionary. */
  function ToColumn<T>(r: Outcome<T>, cell: T -> Cell): Result<Column, GenError>
  {
    match r
    case Produced(vs) => Ok(Values(seq(|vs|, i requires 0 <= i < |vs| => cell(vs[i]))))
    case NoColumn => Ok(NoValue)
    case Failed(e) => Err(e)
  }

  /** One branch of the dispatch: the generator chosen by the column's
      `type` alone. An unknown type is an error naming that type; a column
      that is produced has exactly `numRows` cells of the type's kind; only an
      integer column with a `faker` key and a string column whose provider
      fails produce no value. */
  function GenerateColumn(spec: ColumnSpec, column: nat, numRows: nat, o: Sampler): (r: Result<Column, GenError>)
    ensures r == Err(UnsupportedType(spec.dtype)) <==> !SupportedType(spec.dtype)
    ensures r.Ok? && r.value.Values? ==>
              |r.value.cells| == numRows &&
              forall c :: c in r.value.cells ==> CellMatches(spec.dtype, c)
    ensures r == Ok(NoValue) <==>
              (spec.dtype == "integer" && spec.generation.faker.Some?) ||
              (spec.dtype == "string" && GenerateString(spec.generation, numRows, column, o).NoColumn?)
  {
    var cfg := spec.generation;
    if spec.dtype == "integer" then
      ToColumn(GenerateInteger(cfg, numRows, column, o), (x: int) => IntCell(x))
    else if spec.dtype == "string" then
      ToColumn(GenerateString(cfg, numRows, column, o), (s: string) => TextCell(s))
    else if spec.dtype == "date" then
      ToColumn(GenerateDate(cfg, numRows, column, o), (d: int) => DateCell(d))
    else if spec.dtype == "boolean" then
      ToColumn(GenerateBoolean(cfg, numRows, column, o), (b: bool) => BoolCell(b))
    else if spec.dtype == "categorical" then
      ToColumn(GenerateCategorical(cfg, numRows, column, o), (s: string) => TextCell(s))
    else
      Err(UnsupportedType(spec.dtype))
  }

  /* ----------------------------------------------------------------- table */

  /** A dictionary: its keys in insertion order, and the value of each key. */
  datatype Table = Table(order: seq<string>, columns: map<string, Column>)
  {
    /** The keys are listed once each, and exactly the keys are listed. */
    ghost predicate WellFormed()
    {
      (forall i, j :: 0 <= i < j < |order| ==> order[i] != order[j]) &&
      (forall k :: k in columns <==> k in order)
    }

    /** `data[name] = c`: a new key goes last, an existing key keeps its
        place and gets the new value. */
    function Put(name: string, c: Column): (t: Table)
      requires WellFormed()
      ensures t.WellFormed()
      ensures t.columns == columns[name := c]
      ensures |t.order| == |order| + (if name in columns then 0 else 1)
      ensures forall i :: 0 <= i < |order| ==> t.order[i] == order[i]
    {
      if name in columns then Table(order, columns[name := c])
      else Table(order + [name], columns[name := c])
    }
  }

  const EmptyTable := Table([], map[])

  /** Every column that holds values holds `numRows` of them. */
  predicate RowsEverywhere(t: Table, numRows: nat)
  {
    forall k :: k in t.columns && t.columns[k].Values? ==> |t.columns[k].cells| == numRows
  }

  /** A per-column generator: the column for a schema entry at a position. */
  type ColumnGen = (ColumnSpec, nat) -> Result<Column, GenError>

  /** The dispatch of `generate_dataframe` for a row count and sources. */
  function Dispatch(numRows: nat, o: Sampler): ColumnGen
  {
    (spec: ColumnSpec, column: nat) => GenerateColumn(spec, column, numRows, o)
  }

  /** The dictionary after the whole schema, or the first exception, for any
      per-column generator `gen`: entries are generated in schema order and
      the first exception stops the walk. */
  function Fold(schema: seq<ColumnSpec>, gen: ColumnGen): (r: Result<Table, GenError>)
    ensures r.Ok? ==> r.value.WellFormed()
    decreases |schema|
  {
    if schema == [] then Ok(EmptyTable)
    else
      var last := |schema| - 1;
      match Fold(schema[..last], gen)
      case Err(e) => Err(e)
      case Ok(t) =>
        match gen(schema[last], last)
        case Err(e) => Err(e)
        case Ok(c) => Ok(t.Put(schema[last].name, c))
  }

  /** The specification `GenerateDataFrame` is proved against: the walk with
      the real dispatch. Every column it stores that holds values holds
      `numRows` of them. */
  function Assemble(schema: seq<ColumnSpec>, numRows: nat, o: Sampler): (r: Result<Table, GenError>)
    ensures r.Ok? ==> r.value.WellFormed() && RowsEverywhere(r.value, numRows)
  {
    var gen := Dispatch(numRows, o);
    forall spec, column ensures gen(spec, column).Ok? && gen(spec, column).value.Values? ==>
                                |gen(spec, column).value.cells| == numRows {
    }
    FoldRows(schema, gen, numRows);
    Fold(schema, gen)
  }

  /** `generate_dataframe`, up to the dictionary handed to pandas. */
  method GenerateDataFrame(schema: seq<ColumnSpec>, numRows: nat, o: Sampler) returns (r: Result<Table, GenError>)
    ensures r == Assemble(schema, numRows, o)
  {
    var data := EmptyTable;
    for i := 0 to |schema|
      invariant Fold(schema[..i], Dispatch(numRows, o)) == Ok(data)
    {
      var column := schema[i];
      var generated := GenerateColumn(column, i, numRows, o);
      assert schema[..i + 1][..i] == schema[..i];
      if generated.Err? {
        AbortIsFinal(schema, i + 1, Dispatch(numRows, o));
        return Err(generated.error);
      }
      data := data.Put(column.name, generated.value);
    }
    assert schema[..|schema|] == schema;
    return Ok(data);
  }

  /* ---------------------------------------------------------------- lemmas */

  /** If the generator only produces columns of `numRows` cells, so does the
      walk's dictionary. */
  lemma {:induction false} FoldRows(schema: seq<ColumnSpec>, gen: ColumnGen, numRows: nat)
    requires forall spec, column :: gen(spec, column).Ok? && gen(spec, column).value.Values? ==>
                                      |gen(spec, column).value.cells| == numRows
    ensures Fold(schema, gen).Ok? ==> RowsEverywhere(Fold(schema, gen).value, numRows)
    decreases |schema|
  {
    if schema != [] {
      FoldRows(schema[..|schema| - 1], gen, numRows);
    }
  }

  /** Once a prefix of the schema has raised, the whole call raises the same
      exception: no later column is generated and no table is returned. */
  lemma {:induction false} AbortIsFinal(schema: seq<ColumnSpec>, k: nat, gen: ColumnGen)
    requires k <= |schema|
    requires Fold(schema[..k], gen).Err?
    ensures Fold(schema, gen) == Fold(schema[..k], gen)
    decreases |schema|
  {
    if k == |schema| {
      assert schema[..k] == schema;
    } else {
      var last := |schema| - 1;
      assert schema[..last][..k] == schema[..k];
      AbortIsFinal(schema[..last], k, gen);
    }
  }

  /** The call returns a table exactly when every column's generator returns
      without raising. */
  lemma {:induction false} SucceedsIff(schema: seq<ColumnSpec>, gen: ColumnGen)
    ensures Fold(schema, gen).Ok? <==> forall j :: 0 <= j < |schema| ==> gen(schema[j], j).Ok?
    decreases |schema|
  {
    if schema != [] {
      var last := |schema| - 1;
      var prefix := schema[..last];
      SucceedsIff(prefix, gen);
      assert forall j :: 0 <= j < last ==> prefix[j] == schema[j];
    }
  }

  /** A failed call raises the exception of the first column that raises. */
  lemma {:induction false} FirstError(schema: seq<ColumnSpec>, gen: ColumnGen)
    ensures var r := Fold(schema, gen);
            r.Err? ==>
              exists j :: 0 <= j < |schema| && gen(schema[j], j) == Err(r.error) &&
                forall k :: 0 <= k < j ==> gen(schema[k], k).Ok?
    decreases |schema|
  {
    var r := Fold(schema, gen);
    if schema != [] && r.Err? {
      var last := |schema| - 1;
      var prefix := schema[..last];
      assert forall j :: 0 <= j < last ==> prefix[j] == schema[j];
      if Fold(prefix, gen).Err? {
        FirstError(prefix, gen);
        var j :| 0 <= j < |prefix| && gen(prefix[j], j) == Err(r.error) &&
                 forall k :: 0 <= k < j ==> gen(prefix[k], k).Ok?;
        assert gen(schema[j], j) == Err(r.error);
      } else {
        SucceedsIff(prefix, gen);
        assert gen(schema[last], last) == Err(r.error);
      }
    }
  }

  /** A column with an unsupported type, reached after columns that all
      succeed, makes the whole call raise the error naming that type. */
  lemma UnsupportedTypeAborts(schema: seq<ColumnSpec>, j: nat, numRows: nat, o: Sampler)
    requires j < |schema| && !SupportedType(schema[j].dtype)
    requires forall k :: 0 <= k < j ==> GenerateColumn(schema[k], k, numRows, o).Ok?
    ensures Assemble(schema, numRows, o) == Err(UnsupportedType(schema[j].dtype))
  {
    var gen := Dispatch(numRows, o);
    var prefix := schema[..j];
    assert forall k :: 0 <= k < j ==> prefix[k] == schema[k];
    SucceedsIff(prefix, gen);
    assert schema[..j + 1][..j] == prefix;
    AbortIsFinal(schema, j + 1, gen);
  }

  /** The column names of a schema, in declaration order. */
  function Names(schema: seq<ColumnSpec>): seq<string>
  {
    seq(|schema|, i requires 0 <= i < |schema| => schema[i].name)
  }

  lemma NamesOfPrefix(schema: seq<ColumnSpec>)
    requires schema != []
    ensures Names(schema) == Names(schema[..|schema| - 1]) + [schema[|schema| - 1].name]
  {
  }

  /** The position of the first occurrence of `x` in `s`. */
  function FirstIndex(s: seq<string>, x: string): (k: nat)
    requires x in s
    ensures k < |s| && s[k] == x && forall j :: 0 <= j < k ==> s[j] != x
  {
    if s[0] == x then 0 else 1 + FirstIndex(s[1..], x)
  }

  lemma FirstIndexAppend(s: seq<string>, y: string, x: string)
    requires x in s + [y]
    ensures FirstIndex(s + [y], x) == if x in s then FirstIndex(s, x) else |s|
  {
    var k := FirstIndex(s + [y], x);
    if x in s {
      var k' := FirstIndex(s, x);
      assert (s + [y])[k'] == x;
      assert k <= k';
      assert s[k] == x;
    } else {
      assert forall j :: 0 <= j < |s| ==> (s + [y])[j] != x;
    }
  }

  /** `order` lists exactly the names of `ns`, each by the position of its
      first occurrence in `ns`. */
  ghost predicate FirstOccurrenceOrder(order: seq<string>, ns: seq<string>)
  {
    (forall x :: x in order <==> x in ns) &&
    forall a, b :: 0 <= a < b < |order| ==> FirstIndex(ns, order[a]) < FirstIndex(ns, order[b])
  }

  /** Helper: storing one more column keeps the keys in first-occurrence
      order of the names seen so far. */
  lemma PutKeepsFirstOccurrenceOrder(t: Table, ns: seq<string>, name: string, c: Column)
    requires t.WellFormed() && FirstOccurrenceOrder(t.order, ns)
    ensures FirstOccurrenceOrder(t.Put(name, c).order, ns + [name])
  {
    var order, ns' := t.Put(name, c).order, ns + [name];
    assert forall x :: x in ns' <==> x in ns || x == name;
    if name in t.columns {
      assert order == t.order;
      forall a, b | 0 <= a < b < |order|
        ensures FirstIndex(ns', order[a]) < FirstIndex(ns', order[b])
      {
        FirstIndexAppend(ns, name, order[a]);
        FirstIndexAppend(ns, name, order[b]);
      }
    } else {
      assert order == t.order + [name];
      forall a, b | 0 <= a < b < |order|
        ensures FirstIndex(ns', order[a]) < FirstIndex(ns', order[b])
      {
        assert order[a] == t.order[a] && order[a] in ns;
        FirstIndexAppend(ns, name, order[a]);
        FirstIndexAppend(ns, name, order[b]);
      }
    }
  }

  /** The table's columns are the schema's distinct names, ordered by where
      each name first appears in the schema. */
  lemma {:induction false} ColumnOrder(schema: seq<ColumnSpec>, gen: ColumnGen)
    ensures var r := Fold(schema, gen);
            r.Ok? ==> FirstOccurrenceOrder(r.value.order, Names(schema))
    decreases |schema|
  {
    var r := Fold(schema, gen);
    if schema != [] && r.Ok? {
      var last := |schema| - 1;
      var prefix := schema[..last];
      ColumnOrder(prefix, gen);
      NamesOfPrefix(schema);
      PutKeepsFirstOccurrenceOrder(Fold(prefix, gen).value, Names(prefix), schema[last].name, gen(schema[last], last).value);
    }
  }

  /** No later column of the schema reuses the name of column `j`. */
  predicate LastOfName(schema: seq<ColumnSpec>, j: nat)
    requires j < |schema|
  {
    forall k :: j < k < |schema| ==> schema[k].name != schema[j].name
  }

  /** A repeated name keeps the value generated for its last occurrence. */
  lemma {:induction false} LastWins(schema: seq<ColumnSpec>, gen: ColumnGen)
    ensures var r := Fold(schema, gen);
            r.Ok? ==>
              forall j :: 0 <= j < |schema| && LastOfName(schema, j) ==>
                schema[j].name in r.value.columns && gen(schema[j], j) == Ok(r.value.columns[schema[j].name])
    decreases |schema|
  {
    var r := Fold(schema, gen);
    if schema != [] && r.Ok? {
      var last := |schema| - 1;
      var prefix := schema[..last];
      LastWins(prefix, gen);
      var t := Fold(prefix, gen).value;
      var name := schema[last].name;
      assert r.value.columns == t.columns[name := gen(schema[last], last).value];
      forall j | 0 <= j < |schema| && LastOfName(schema, j)
        ensures schema[j].name in r.value.columns && gen(schema[j], j) == Ok(r.value.columns[schema[j].name])
      {
        if j < last {
          assert prefix[j] == schema[j];
          assert LastOfName(prefix, j);
          assert schema[j].name != name;
        }
      }
    }
  }
}
