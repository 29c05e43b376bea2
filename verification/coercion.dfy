/** Column-wise coercion of a fetched table to the resolved schema, with the
    per-column failure isolation of `apply_schema_types`. */
module Coercion {
  import opened Wrappers
  import opened SchemaTypes

  /** One value of a table. The fetched table holds Text and Missing cells;
      coercion introduces Number (nullable float), Timestamp (nanoseconds)
      and turns every kind of missing value (null, NaN, NaT) into Missing. */
  datatype Cell = Missing | Text(s: string) | Number(value: real) | Timestamp(ns: int)

  /** A named column of a DataFrame; its cells are the column's rows. */
  datatype Column = Column(name: string, cells: seq<Cell>)

  /** A DataFrame as its columns in order. */
  type Table = seq<Column>

  /** The pandas conversions the coercer calls, as oracles:
      - toDatetime: `pd.to_datetime(..., errors="coerce")` on one value, None for NaT;
      - toNumeric: `pd.to_numeric(..., errors="coerce")` on one value, None for NaN;
      - render: the text `astype("string")` gives a present value that is not text;
      - raises: whether converting these cells to this dtype throws. */
  datatype Pandas = Pandas(
    toDatetime: Cell -> Option<int>,
    toNumeric: Cell -> Option<real>,
    render: Cell -> string,
    raises: (Dtype, seq<Cell>) -> bool)

  /** Applies a cell conversion to every row of a column. */
  function MapCells(f: Cell -> Cell, cells: seq<Cell>): (r: seq<Cell>)
    ensures |r| == |cells|
    ensures forall i :: 0 <= i < |cells| ==> r[i] == f(cells[i])
  {
    seq(|cells|, i requires 0 <= i < |cells| => f(cells[i]))
  }

  /** One value after `pd.to_datetime(errors="coerce")`. */
  function DatetimeCell(p: Pandas, x: Cell): Cell {
    match p.toDatetime(x)
    case Some(t) => Timestamp(t)
    case None => Missing
  }

  /** One value after `pd.to_numeric(errors="coerce").astype("Float64")`:
      NaN becomes the nullable float's missing marker. */
  function FloatCell(p: Pandas, x: Cell): Cell {
    match p.toNumeric(x)
    case Some(v) => Number(v)
    case None => Missing
  }

  /** One value after `astype("string")`: text and missing values stay, any
      other value is rendered as text. */
  function StringCell(p: Pandas, x: Cell): Cell {
    match x
    case Missing => Missing
    case Text(_) => x
    case _ => Text(p.render(x))
  }

  /** The cells the dispatch of `apply_schema_types` assigns for a dtype when
      no exception is raised; the object dtype matches no branch. */
  function Converted(p: Pandas, d: Dtype, cells: seq<Cell>): seq<Cell> {
    match d
    case Datetime64 => MapCells(x => DatetimeCell(p, x), cells)
    case Float64 => MapCells(x => FloatCell(p, x), cells)
    case String => MapCells(x => StringCell(p, x), cells)
    case Object => cells
  }

  /** One iteration of the column loop: an unmapped column is skipped, a
      mapped one is converted by its dtype, and a conversion that raises
      leaves the column as it was. */
  function CoerceColumn(p: Pandas, schema: Schema, c: Column): (r: Column)
    ensures r.name == c.name
    ensures |r.cells| == |c.cells|
    ensures c.name !in schema || schema[c.name] == Object ==> r == c
    ensures c.name in schema && schema[c.name] != Object && p.raises(schema[c.name], c.cells) ==> r == c
    ensures c.name in schema && schema[c.name] == Datetime64 && !p.raises(Datetime64, c.cells) ==>
      forall i :: 0 <= i < |c.cells| ==>
        && (r.cells[i] == Missing <==> p.toDatetime(c.cells[i]).None?)
        && (p.toDatetime(c.cells[i]).Some? ==> r.cells[i] == Timestamp(p.toDatetime(c.cells[i]).value))
    ensures c.name in schema && schema[c.name] == Float64 && !p.raises(Float64, c.cells) ==>
      forall i :: 0 <= i < |c.cells| ==>
        && (r.cells[i] == Missing <==> p.toNumeric(c.cells[i]).None?)
        && (p.toNumeric(c.cells[i]).Some? ==> r.cells[i] == Number(p.toNumeric(c.cells[i]).value))
    ensures c.name in schema && schema[c.name] == String && !p.raises(String, c.cells) ==>
      forall i :: 0 <= i < |c.cells| ==>
        && (r.cells[i] == Missing <==> c.cells[i] == Missing)
        && (c.cells[i].Text? ==> r.cells[i] == c.cells[i])
        && (!c.cells[i].Text? && !c.cells[i].Missing? ==> r.cells[i] == Text(p.render(c.cells[i])))
  {
    if c.name !in schema then c
    else
      var d := schema[c.name];
      if d == Object || p.raises(d, c.cells) then c
      else Column(c.name, Converted(p, d, c.cells))
  }

  /** The column loop of `apply_schema_types` as a function: each column is
      coerced on its own, so names, order, count and row counts are kept,
      and what happens to one column does not depend on any other. */
  function CoerceTable(p: Pandas, schema: Schema, t: Table): (r: Table)
    ensures |r| == |t|
    ensures forall i :: 0 <= i < |t| ==> r[i] == CoerceColumn(p, schema, t[i])
  {
    if |t| == 0 then []
    else CoerceTable(p, schema, t[..|t| - 1]) + [CoerceColumn(p, schema, t[|t| - 1])]
  }

  /** `apply_schema_types` with the metadata request answered by `resp`: the
      schema is resolved first, outside the per-column try, so its exceptions
      propagate; then each column is replaced by its coerced version in place. */
  method ApplySchemaTypes(p: Pandas, resp: Response, df: Table) returns (r: Result<Table, Error>)
    ensures r.Failure? <==> GetSchemaTypes(resp).Failure?
    ensures r.Failure? ==> r.error == GetSchemaTypes(resp).error
    ensures r.Success? ==> |r.value| == |df|
    ensures r.Success? ==> forall i :: 0 <= i < |df| ==>
      r.value[i] == CoerceColumn(p, GetSchemaTypes(resp).value, df[i])
    ensures resp.status != StatusOk ==> r == Success(df)
  {
    var resolved := GetSchemaTypes(resp);
    if resolved.Failure? {
      return Failure(resolved.error);
    }
    var schemaTypes := resolved.value;
    var frame := df;
    var i := 0;
    while i < |frame|
      invariant 0 <= i <= |frame| == |df|
      invariant forall k :: 0 <= k < i ==> frame[k] == CoerceColumn(p, schemaTypes, df[k])
      invariant forall k :: i <= k < |frame| ==> frame[k] == df[k]
    {
      frame := frame[i := CoerceColumn(p, schemaTypes, frame[i])];
      i := i + 1;
    }
    if resp.status != StatusOk {
      assert forall k :: 0 <= k < |df| ==> frame[k] == df[k];
      assert frame == df;
    }
    return Success(frame);
  }

  /* ---------------------------------------------------------------------- */
  /* Properties of the coercer                                              */
  /* ---------------------------------------------------------------------- */

  /** With an empty schema coercion is the identity. */
  lemma EmptySchemaIsIdentity(p: Pandas, t: Table)
    ensures CoerceTable(p, map[], t) == t
  {
  }

  /** Coercing a table split in two is coercing the halves: a column, and
      any failure while converting it, only affects its own position. */
  lemma CoerceTableSplits(p: Pandas, schema: Schema, t: Table, u: Table)
    ensures CoerceTable(p, schema, t + u) == CoerceTable(p, schema, t) + CoerceTable(p, schema, u)
  {
  }

  /** A column whose conversion raises keeps its original values while the
      columns before and after it are coerced exactly as they would be
      without it. */
  lemma FailureIsolated(p: Pandas, schema: Schema, before: Table, c: Column, after: Table)
    requires c.name in schema && p.raises(schema[c.name], c.cells)
    ensures CoerceTable(p, schema, before + [c] + after)
      == CoerceTable(p, schema, before) + [c] + CoerceTable(p, schema, after)
  {
  }

  /** The oracles leave already-converted values as they are: a timestamp
      parses to itself, a number to itself, and a missing value stays
      missing. */
  ghost predicate Stable(p: Pandas) {
    && p.toDatetime(Missing).None?
    && p.toNumeric(Missing).None?
    && (forall t: int :: p.toDatetime(Timestamp(t)) == Some(t))
    && (forall v: real :: p.toNumeric(Number(v)) == Some(v))
  }

  /** Coercing a column a second time changes nothing. */
  lemma CoerceColumnIdempotent(p: Pandas, schema: Schema, c: Column)
    requires Stable(p)
    ensures CoerceColumn(p, schema, CoerceColumn(p, schema, c)) == CoerceColumn(p, schema, c)
  {
  }

  /** Coercing a table a second time changes nothing. */
  lemma CoerceTableIdempotent(p: Pandas, schema: Schema, t: Table)
    requires Stable(p)
    ensures CoerceTable(p, schema, CoerceTable(p, schema, t)) == CoerceTable(p, schema, t)
  {
    var once := CoerceTable(p, schema, t);
    forall i | 0 <= i < |t|
      ensures CoerceColumn(p, schema, once[i]) == once[i]
    {
      CoerceColumnIdempotent(p, schema, t[i]);
    }
  }

  /** A non-200 metadata response leaves every table exactly as it was. */
  lemma FailedMetadataFetchIsPassThrough(p: Pandas, resp: Response, t: Table)
    requires resp.status != StatusOk
    ensures GetSchemaTypes(resp) == Success(map[])
    ensures CoerceTable(p, GetSchemaTypes(resp).value, t) == t
  {
    EmptySchemaIsIdentity(p, t);
  }

  /** A float column holding a number, the text "N/A" and a null becomes
      12.5, missing, missing, and keeps its three rows. */
  lemma FloatColumnExample(p: Pandas)
    requires p.toNumeric(Text("12.5")) == Some(12.5)
    requires p.toNumeric(Text("N/A")).None? && p.toNumeric(Missing).None?
    requires !p.raises(Float64, [Text("12.5"), Text("N/A"), Missing])
    ensures CoerceColumn(p, map["value" := Float64], Column("value", [Text("12.5"), Text("N/A"), Missing]))
      == Column("value", [Number(12.5), Missing, Missing])
  {
    var r := CoerceColumn(p, map["value" := Float64], Column("value", [Text("12.5"), Text("N/A"), Missing]));
    assert r.cells[0] == Number(12.5) && r.cells[1] == Missing && r.cells[2] == Missing;
  }
}
