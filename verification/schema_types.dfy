/** Schema resolution: the metadata endpoint's column descriptors become a map
    from column name to the pandas dtype the column is coerced to. */
module SchemaTypes {
  import opened Wrappers

  /** The pandas dtypes the translation table can produce: "string",
      "Float64" (nullable float), "datetime64[ns]" and the fallback "object". */
  datatype Dtype = String | Float64 | Datetime64 | Object

  /** The resolved schema: column name to target dtype. */
  type Schema = map<string, Dtype>

  /** The exceptions that escape `get_schema_types` uncaught. */
  datatype Error =
    | JsonDecodeError       // a 200 response whose body is not JSON
    | AttributeError        // a truthy top-level JSON value that is not an object has no `.get`
    | KeyError(key: string) // a column descriptor lacks "fieldName" or "dataTypeName"

  /** The only HTTP status `get_metadata` accepts. */
  const StatusOk := 200

  /** The fixed translation table from remote type tags to dtypes. */
  const SchemaToPandas: map<string, Dtype> :=
    map["text" := String, "number" := Float64, "calendar_date" := Datetime64]

  /** Looks a remote type tag up in the table, falling back to Object for
      every tag the table does not know. */
  function Translate(tag: string): (d: Dtype)
    ensures d == String <==> tag == "text"
    ensures d == Float64 <==> tag == "number"
    ensures d == Datetime64 <==> tag == "calendar_date"
    ensures d == Object <==> tag !in SchemaToPandas
  {
    if tag in SchemaToPandas then SchemaToPandas[tag] else Object
  }

  /* ---------------------------------------------------------------------- */
  /* Metadata as the endpoint delivers it                                    */
  /* ---------------------------------------------------------------------- */

  /** One element of the metadata's "columns" array. Either key may be absent;
      "description" and every other key are never read. */
  datatype ColumnDescriptor = ColumnDescriptor(fieldName: Option<string>, dataTypeName: Option<string>)

  /** The parsed JSON body, reduced to what the resolver inspects: an object
      with an optional "columns" array and some number of other keys, or any
      other JSON value together with its Python truthiness. */
  datatype Json =
    | JsonObject(columns: Option<seq<ColumnDescriptor>>, otherKeys: nat)
    | JsonOther(truthy: bool)

  /** What `r.json()` makes of the body. */
  datatype Body = Malformed | Parsed(json: Json)

  /** The answer of the one GET request to the metadata endpoint. */
  datatype Response = Response(status: int, body: Body)

  /** Python truthiness of the value returned by `get_metadata`. */
  predicate Truthy(j: Json) {
    match j
    case JsonObject(columns, otherKeys) => columns.Some? || otherKeys > 0
    case JsonOther(truthy) => truthy
  }

  /** The empty dict `get_metadata` returns for a non-200 status. */
  const EmptyObject := JsonObject(None, 0)

  /** `get_metadata`: any non-200 status gives the empty dict, a 200 status
      gives the decoded body, and a body that does not decode raises. */
  function GetMetadata(resp: Response): (r: Result<Json, Error>)
    ensures resp.status != StatusOk ==> r == Success(EmptyObject) && !Truthy(r.value)
    ensures r.Failure? <==> resp.status == StatusOk && resp.body.Malformed?
    ensures r.Failure? ==> r.error == JsonDecodeError
    ensures resp.status == StatusOk && resp.body.Parsed? ==> r == Success(resp.body.json)
  {
    if resp.status != StatusOk then Success(EmptyObject)
    else match resp.body
      case Malformed => Failure(JsonDecodeError)
      case Parsed(json) => Success(json)
  }

  /* ---------------------------------------------------------------------- */
  /* Descriptor extraction and the schema fold                               */
  /* ---------------------------------------------------------------------- */

  /** Both keys the comprehension reads are present. */
  predicate Complete(c: ColumnDescriptor) {
    c.fieldName.Some? && c.dataTypeName.Some?
  }

  /** The key whose lookup raises first: the comprehension evaluates the key
      expression `col["fieldName"]` before the value expression. */
  function MissingKey(c: ColumnDescriptor): string
    requires !Complete(c)
  {
    if c.fieldName.None? then "fieldName" else "dataTypeName"
  }

  /** `i` is the first incomplete descriptor of `cols`. */
  predicate FirstIncomplete(cols: seq<ColumnDescriptor>, i: int) {
    && 0 <= i < |cols|
    && !Complete(cols[i])
    && forall j :: 0 <= j < i ==> Complete(cols[j])
  }

  /** Reads the (fieldName, dataTypeName) pair of every descriptor in order;
      the first descriptor lacking a key aborts with that key's KeyError. */
  function FieldPairs(cols: seq<ColumnDescriptor>): (r: Result<seq<(string, string)>, Error>)
    ensures r.Success? <==> forall i :: 0 <= i < |cols| ==> Complete(cols[i])
    ensures r.Success? ==> |r.value| == |cols|
    ensures r.Success? ==> forall i :: 0 <= i < |cols| ==>
      r.value[i] == (cols[i].fieldName.value, cols[i].dataTypeName.value)
    ensures r.Failure? ==> exists i :: FirstIncomplete(cols, i) && r.error == KeyError(MissingKey(cols[i]))
  {
    if |cols| == 0 then Success([])
    else if !Complete(cols[0]) then
      assert FirstIncomplete(cols, 0);
      Failure(KeyError(MissingKey(cols[0])))
    else
      var rest := FieldPairs(cols[1..]);
      if rest.Failure? then
        ghost var i :| FirstIncomplete(cols[1..], i) && rest.error == KeyError(MissingKey(cols[1..][i]));
        assert FirstIncomplete(cols, i + 1);
        Failure(rest.error)
      else
        Success([(cols[0].fieldName.value, cols[0].dataTypeName.value)] + rest.value)
  }

  /** The column names a list of pairs mentions. */
  ghost function Names(pairs: seq<(string, string)>): set<string> {
    set i | 0 <= i < |pairs| :: pairs[i].0
  }

  /** No later pair carries the same name as pair `i`. */
  ghost predicate LastOf(pairs: seq<(string, string)>, i: int)
    requires 0 <= i < |pairs|
  {
    forall j :: i < j < |pairs| ==> pairs[j].0 != pairs[i].0
  }

  /** The dict comprehension of get_schema_types: one entry per pair, built
      left to right, so that a later duplicate name overwrites an earlier one. */
  function BuildSchema(pairs: seq<(string, string)>): (m: Schema)
    ensures m.Keys == Names(pairs)
    ensures forall i :: 0 <= i < |pairs| && LastOf(pairs, i) ==> m[pairs[i].0] == Translate(pairs[i].1)
  {
    if |pairs| == 0 then map[]
    else
      var init := pairs[..|pairs| - 1];
      var last := pairs[|pairs| - 1];
      NamesSnoc(init, last);
      LastOfSnoc(init, last);
      assert init + [last] == pairs;
      BuildSchema(init)[last.0 := Translate(last.1)]
  }

  /** Appending a pair adds its name to the names. */
  lemma NamesSnoc(init: seq<(string, string)>, last: (string, string))
    ensures Names(init + [last]) == Names(init) + {last.0}
  {
    var pairs := init + [last];
    assert pairs[|init|].0 == last.0;
    forall k | k in Names(pairs) ensures k in Names(init) + {last.0} {
      var i :| 0 <= i < |pairs| && pairs[i].0 == k;
      if i < |init| { assert init[i].0 == k; }
    }
    forall k | k in Names(init) ensures k in Names(pairs) {
      var i :| 0 <= i < |init| && init[i].0 == k;
      assert pairs[i].0 == k;
    }
  }

  /** A pair that is last of its name after appending is either the appended
      pair or was already last of its name before, under a different name. */
  lemma LastOfSnoc(init: seq<(string, string)>, last: (string, string))
    ensures forall i :: 0 <= i < |init| && LastOf(init + [last], i) ==>
      LastOf(init, i) && init[i].0 != last.0
  {
    var pairs := init + [last];
    forall i | 0 <= i < |init| && LastOf(pairs, i)
      ensures LastOf(init, i) && init[i].0 != last.0
    {
      assert pairs[|init|] == last;
      forall j | i < j < |init| ensures init[j].0 != init[i].0 {
        assert pairs[j] == init[j];
      }
    }
  }

  /** The dict comprehension over the descriptors of a "columns" array. It
      fails exactly when some descriptor lacks a key, and then with the
      KeyError of the first such descriptor; otherwise the schema has exactly
      the descriptors' field names as keys, and each name maps to the
      translated type of its LAST descriptor. */
  function Resolve(cols: seq<ColumnDescriptor>): (r: Result<Schema, Error>)
    ensures r.Success? <==> forall i :: 0 <= i < |cols| ==> Complete(cols[i])
    ensures r.Failure? ==> exists i :: FirstIncomplete(cols, i) && r.error == KeyError(MissingKey(cols[i]))
    ensures r.Success? ==> r.value.Keys == set i | 0 <= i < |cols| :: cols[i].fieldName.value
    ensures r.Success? ==> forall i ::
      (0 <= i < |cols| && forall j :: i < j < |cols| ==> cols[j].fieldName != cols[i].fieldName) ==>
      r.value[cols[i].fieldName.value] == Translate(cols[i].dataTypeName.value)
  {
    var pairs :- FieldPairs(cols);
    Success(BuildSchema(pairs))
  }

  /** `get_schema_types` once the HTTP request has been answered by `resp`:
      an empty (falsy) metadata value gives the empty schema, an object is
      read through `.get("columns", [])`, and every exception propagates. */
  function GetSchemaTypes(resp: Response): (r: Result<Schema, Error>)
    ensures resp.status != StatusOk ==> r == Success(map[])
    ensures resp.status == StatusOk && resp.body.Malformed? ==> r == Failure(JsonDecodeError)
    ensures resp.status == StatusOk && resp.body == Parsed(JsonOther(true)) ==> r == Failure(AttributeError)
    ensures resp.status == StatusOk && resp.body == Parsed(JsonOther(false)) ==> r == Success(map[])
    ensures resp.status == StatusOk && resp.body.Parsed? && resp.body.json.JsonObject? ==>
      r == Resolve(resp.body.json.columns.GetOr([]))
  {
    var metadata :- GetMetadata(resp);
    if !Truthy(metadata) then Success(map[])
    else match metadata
      case JsonObject(columns, _) => Resolve(columns.GetOr([]))
      case JsonOther(_) => Failure(AttributeError)
  }

  /* ---------------------------------------------------------------------- */
  /* Properties of the resolver                                             */
  /* ---------------------------------------------------------------------- */

  /** When the field names are pairwise distinct the order of descriptors is
      irrelevant: every pair is in the schema with its own translated type,
      and the schema has one entry per pair. */
  lemma {:induction false} DistinctNamesResolveOneToOne(pairs: seq<(string, string)>)
    requires forall i, j :: 0 <= i < j < |pairs| ==> pairs[i].0 != pairs[j].0
    ensures |BuildSchema(pairs)| == |pairs|
    ensures forall i :: 0 <= i < |pairs| ==> BuildSchema(pairs)[pairs[i].0] == Translate(pairs[i].1)
  {
    if |pairs| > 0 {
      var init := pairs[..|pairs| - 1];
      var last := pairs[|pairs| - 1];
      DistinctNamesResolveOneToOne(init);
      assert last.0 !in Names(init) by {
        forall i | 0 <= i < |init| ensures init[i].0 != last.0 {
          assert init[i] == pairs[i];
        }
      }
      forall i | 0 <= i < |pairs| ensures LastOf(pairs, i) { }
    }
  }

  /** Empty metadata, whatever its cause, yields the empty schema: a non-200
      status, a falsy JSON value, an object without "columns", or an empty
      "columns" array. */
  lemma EmptyMetadataGivesEmptySchema(resp: Response)
    requires
      || resp.status != StatusOk
      || (resp.body.Parsed? && resp.body.json == JsonOther(false))
      || (resp.body.Parsed? && resp.body.json.JsonObject? && resp.body.json.columns.GetOr([]) == [])
    ensures GetSchemaTypes(resp) == Success(map[])
  {
  }

  /** The descriptors of a date, a state and a geo_point column. */
  const ExampleColumns := [
    ColumnDescriptor(Some("date"), Some("calendar_date")),
    ColumnDescriptor(Some("state"), Some("text")),
    ColumnDescriptor(Some("weird"), Some("geo_point"))]

  /** A date, a text and an unknown-tag column resolve to datetime, string
      and object. */
  lemma ExampleColumnsResolve()
    ensures Resolve(ExampleColumns) == Success(map["date" := Datetime64, "state" := String, "weird" := Object])
  {
    var pairs := [("date", "calendar_date"), ("state", "text"), ("weird", "geo_point")];
    ExamplePairs(pairs);
    ExampleSchema(pairs);
  }

  lemma ExamplePairs(pairs: seq<(string, string)>)
    requires pairs == [("date", "calendar_date"), ("state", "text"), ("weird", "geo_point")]
    ensures FieldPairs(ExampleColumns) == Success(pairs)
  {
    var cols := ExampleColumns;
    assert Complete(cols[0]) && Complete(cols[1]) && Complete(cols[2]);
    var r := FieldPairs(cols);
    assert r.value[0] == pairs[0] && r.value[1] == pairs[1] && r.value[2] == pairs[2];
    assert r.value == pairs;
  }

  lemma ExampleSchema(pairs: seq<(string, string)>)
    requires pairs == [("date", "calendar_date"), ("state", "text"), ("weird", "geo_point")]
    ensures BuildSchema(pairs) == map["date" := Datetime64, "state" := String, "weird" := Object]
  {
    DistinctNamesResolveOneToOne(pairs);
    var m := BuildSchema(pairs);
    assert Names(pairs) == {"date", "state", "weird"} by {
      assert pairs[0].0 == "date" && pairs[1].0 == "state" && pairs[2].0 == "weird";
    }
    assert m["date"] == Datetime64 && m["state"] == String && m["weird"] == Object;
  }
}
