/** Concrete configurations and the tables or errors they lead to, whatever
    the random and fake-value sources draw. */
module Scenarios {
  import opened Schema
  import opened Sampling
  import opened Generators
  import opened DataFrame

  const IdSpec := ColumnSpec("id", "integer", NoKeys.(start := Some(1), step := Some(1)))
  const ActiveSpec := ColumnSpec("active", "boolean", NoKeys.(probability := Some(1.0)))

  /** Helper: the `id` column over three rows is `[1, 2, 3]`. */
  lemma IdColumn(o: Sampler)
    ensures GenerateColumn(IdSpec, 0, 3, o) == Ok(Values([IntCell(1), IntCell(2), IntCell(3)]))
  {
    var g := GenerateInteger(IdSpec.generation, 3, 0, o);
    assert g.Produced? && g.values == [1, 2, 3] by {
      assert g.values[0] == 1 && g.values[1] == 2 && g.values[2] == 3;
    }
    var c := GenerateColumn(IdSpec, 0, 3, o);
    assert c == ToColumn(g, (x: int) => IntCell(x));
    assert c.Ok? && c.value.Values? && |c.value.cells| == 3;
    assert c.value.cells == [IntCell(1), IntCell(2), IntCell(3)] by {
      assert c.value.cells[0] == IntCell(1) && c.value.cells[1] == IntCell(2) && c.value.cells[2] == IntCell(3);
    }
  }

  /** Helper: the `active` column over three rows is all `True`. */
  lemma ActiveColumn(o: Sampler)
    ensures GenerateColumn(ActiveSpec, 1, 3, o) == Ok(Values([BoolCell(true), BoolCell(true), BoolCell(true)]))
  {
    var g := GenerateBoolean(ActiveSpec.generation, 3, 1, o);
    assert g.Produced? && g.values == [true, true, true] by {
      assert ProbabilityOf(ActiveSpec.generation) == 1.0;
      assert g.values[0] && g.values[1] && g.values[2];
    }
    var c := GenerateColumn(ActiveSpec, 1, 3, o);
    assert c == ToColumn(g, (b: bool) => BoolCell(b));
    assert c.Ok? && c.value.Values? && |c.value.cells| == 3;
    assert c.value.cells == [BoolCell(true), BoolCell(true), BoolCell(true)] by {
      assert c.value.cells[0] == BoolCell(true) && c.value.cells[1] == BoolCell(true) && c.value.cells[2] == BoolCell(true);
    }
  }

  /** `id` (integer, start 1, step 1) and `active` (boolean, probability 1)
      over three rows: `id = [1, 2, 3]`, `active = [True, True, True]`. */
  lemma {:induction false} IdAndActiveTable(o: Sampler)
    ensures Assemble([IdSpec, ActiveSpec], 3, o)
            == Ok(Table(["id", "active"],
                        map["id" := Values([IntCell(1), IntCell(2), IntCell(3)]),
                            "active" := Values([BoolCell(true), BoolCell(true), BoolCell(true)])]))
  {
    var schema := [IdSpec, ActiveSpec];
    assert schema[..1] == [IdSpec] && [IdSpec][..0] == [];
    var idCells := [IntCell(1), IntCell(2), IntCell(3)];
    var activeCells := [BoolCell(true), BoolCell(true), BoolCell(true)];
    IdColumn(o);
    ActiveColumn(o);
    var gen := Dispatch(3, o);
    assert gen(IdSpec, 0) == Ok(Values(idCells));
    assert gen(ActiveSpec, 1) == Ok(Values(activeCells));
    var t0 := EmptyTable.Put("id", Values(idCells));
    assert Fold([IdSpec], gen) == Ok(t0);
    assert t0 == Table(["id"], map["id" := Values(idCells)]);
    var t1 := t0.Put("active", Values(activeCells));
    assert Fold(schema, gen) == Ok(t1);
    assert t1.order == ["id", "active"];
    assert t1.columns == map["id" := Values(idCells), "active" := Values(activeCells)];
  }

  /** A name declared twice keeps its first position and its last value. */
  lemma {:induction false} RepeatedNameOverwrites(o: Sampler)
    ensures var a1 := ColumnSpec("a", "integer", NoKeys.(start := Some(0), step := Some(2)));
            var b := ColumnSpec("b", "boolean", NoKeys.(probability := Some(0.0)));
            var a2 := ColumnSpec("a", "integer", NoKeys.(faker := Some("random_int")));
            var r := Assemble([a1, b, a2], 2, o);
            r.Ok? && r.value.order == ["a", "b"] && r.value.columns["a"] == NoValue
  {
    var a1 := ColumnSpec("a", "integer", NoKeys.(start := Some(0), step := Some(2)));
    var b := ColumnSpec("b", "boolean", NoKeys.(probability := Some(0.0)));
    var a2 := ColumnSpec("a", "integer", NoKeys.(faker := Some("random_int")));
    var schema := [a1, b, a2];
    assert schema[..2] == [a1, b] && [a1, b][..1] == [a1] && [a1][..0] == [];
    var c0 := GenerateColumn(a1, 0, 2, o);
    var c1 := GenerateColumn(b, 1, 2, o);
    assert c0.Ok? && c1.Ok?;
    assert GenerateColumn(a2, 2, 2, o) == Ok(NoValue);
    var gen := Dispatch(2, o);
    assert gen(a1, 0) == c0 && gen(b, 1) == c1 && gen(a2, 2) == Ok(NoValue);
    var t0 := EmptyTable.Put("a", c0.value);
    assert Fold([a1], gen) == Ok(t0);
    var t1 := t0.Put("b", c1.value);
    assert Fold([a1, b], gen) == Ok(t1);
    assert t1.order == ["a", "b"];
    assert Fold(schema, gen) == Ok(t1.Put("a", NoValue));
  }

  /** Configurations each generator refuses, with the exception it raises. */
  lemma RejectedConfigurations(o: Sampler, n: nat)
    ensures GenerateBoolean(NoKeys.(probability := Some(1.5)), n, 0, o) == Failed(InvalidProbability)
    ensures GenerateCategorical(NoKeys.(categories := Some(["x", "y"]), probabilities := Some([0.5, 0.499])), n, 0, o)
            == Failed(InvalidProbabilities)
    ensures GenerateInteger(NoKeys.(min := Some(1)), n, 0, o) == Failed(InvalidIntegerConfig)
    ensures GenerateDate(NoKeys.(startDate := Some(NotADate("2020-01-01")), endDate := Some(Day(737425))), n, 0, o)
            == Failed(InvalidDateFormat)
    ensures GenerateString(NoKeys.(faker := Some("")), n, 0, o) == Failed(MissingFakerMethod)
  {
  }

  /** Reversed integer or date bounds are refused only when rows are drawn:
      with no rows the column is an empty list. */
  lemma ReversedBoundsNeedRows(o: Sampler)
    ensures GenerateInteger(NoKeys.(min := Some(5), max := Some(3)), 0, 0, o) == Produced([])
    ensures GenerateInteger(NoKeys.(min := Some(5), max := Some(3)), 1, 0, o) == Failed(SamplerRejected)
    ensures GenerateDate(NoKeys.(startDate := Some(Day(10)), endDate := Some(Day(5))), 0, 0, o) == Produced([])
    ensures GenerateDate(NoKeys.(startDate := Some(Day(10)), endDate := Some(Day(5))), 1, 0, o) == Failed(EmptyDateRange)
  {
  }
}
