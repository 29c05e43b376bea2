# Schema-driven type coercion of HHS hospital-capacity data

This project models the schema handling in
`src/schema/.ipynb_checkpoints/handle_schema-checkpoint.py`. The module
downloads the metadata of the HHS daily hospital-capacity dataset from a
Socrata open-data portal. It turns the metadata's column descriptors into a
map from column name to pandas dtype (`get_schema_types`). It then coerces
the columns of a fetched DataFrame to those dtypes one at a time
(`apply_schema_types`). A conversion that raises leaves its column as it was.

Modules:

- `Wrappers` (`wrappers.dfy`): `Option` and `Result`.
- `SchemaTypes` (`schema_types.dfy`): the dtype enum and the three-entry
  translation table with its `object` default. It also holds the HTTP
  response of the metadata request and `get_metadata`'s soft failure. Then
  come the extraction of `(fieldName, dataTypeName)` pairs, with the KeyError
  of the first incomplete descriptor, and the left-to-right dict fold in which
  the last duplicate wins.
- `Coercion` (`coercion.dfy`): cells, columns and tables, plus the
  per-column dispatch (datetime, numeric then `Float64`, string, or nothing
  for `object`). It has the table fold and the `apply_schema_types` loop as
  a method that replaces columns in place.

The network and pandas are parameters, not part of the model:

- The metadata request is represented by its answer, a `Response` value
  (status code and parsed body).
- `pd.to_datetime(errors="coerce")`, `pd.to_numeric(errors="coerce")`, the
  text rendering of `astype("string")`, and whether a column's conversion
  throws are fields of a `Pandas` value: `toDatetime`, `toNumeric`, `render`
  and `raises`.

Null, NaN and NaT are all one `Missing` cell. In the coerced table this
matches pandas' nullable dtypes, where each shows as a missing value. It
also holds in the fetched table: there an unmapped column keeps its cells,
and the model does not distinguish a JSON null from a NaN that pandas put
in for an absent key.

Error behaviour of the code that the model keeps:

- `get_metadata` compares the status with 200 exactly (line 14). Any other
  status, including 204 and other 2xx codes, gives `{}`.
- A 200 response whose body is not JSON makes `r.json()` (line 16) raise.
  That exception escapes `get_schema_types` and `apply_schema_types`,
  because the call at line 47 is outside the `try` (`Error.JsonDecodeError`).
- A descriptor without "fieldName" or "dataTypeName" raises KeyError in the
  comprehension at lines 33-35 (`Error.KeyError`). That exception escapes
  the same way.

## Model

| member | source | states |
|---|---|---|
| SchemaTypes.Translate | src/schema/.ipynb_checkpoints/handle_schema-checkpoint.py:28-34 | "text" gives string, "number" gives Float64 and "calendar_date" gives datetime64[ns], each in both directions; every tag outside the table gives object, so every tag resolves |
| SchemaTypes.GetMetadata | src/schema/.ipynb_checkpoints/handle_schema-checkpoint.py:7-16 | any status other than 200 yields exactly the empty dict `{}`, which is falsy; it fails exactly when a 200 body does not decode, and then with a JSON decode error; otherwise it returns the decoded body |
| SchemaTypes.FieldPairs | src/schema/.ipynb_checkpoints/handle_schema-checkpoint.py:33-35 | succeeds exactly when every descriptor has both "fieldName" and "dataTypeName", giving their pairs in order; otherwise it fails with the KeyError of the first incomplete descriptor, naming "fieldName" before "dataTypeName" |
| SchemaTypes.BuildSchema | src/schema/.ipynb_checkpoints/handle_schema-checkpoint.py:33-36 | the schema's keys are exactly the names in the pairs, and each name maps to the translated tag of its last occurrence (a later duplicate overwrites an earlier one) |
| SchemaTypes.Resolve | src/schema/.ipynb_checkpoints/handle_schema-checkpoint.py:33-36 | resolving a "columns" array succeeds iff every descriptor is complete, fails with the first incomplete descriptor's KeyError, and otherwise has the field names as its key set, each mapped by its last descriptor's type |
| SchemaTypes.DistinctNamesResolveOneToOne | src/schema/.ipynb_checkpoints/handle_schema-checkpoint.py:33-36 | with pairwise distinct names the schema has exactly one entry per descriptor and each descriptor's name maps to its own translated type |
| SchemaTypes.GetSchemaTypes | src/schema/.ipynb_checkpoints/handle_schema-checkpoint.py:18-36 | (with `Truthy` modelling `not metadata` at line 25) non-200 gives the empty schema; an undecodable 200 body propagates the decode error; a truthy non-object JSON value raises AttributeError and a falsy one gives the empty schema; an object is resolved through its "columns" array, defaulting to empty |
| SchemaTypes.EmptyMetadataGivesEmptySchema | src/schema/.ipynb_checkpoints/handle_schema-checkpoint.py:14-36 | a non-200 response, a falsy JSON value, a missing "columns" key or an empty "columns" array each resolve to the empty schema |
| SchemaTypes.ExampleColumnsResolve | src/schema/.ipynb_checkpoints/handle_schema-checkpoint.py:28-36 | descriptors date/calendar_date, state/text and weird/geo_point resolve to date: datetime64[ns], state: string, weird: object |
| Coercion.CoerceColumn | src/schema/.ipynb_checkpoints/handle_schema-checkpoint.py:49-61 | (with `Converted` modelling the if/elif dispatch at lines 54-59) name and row count are kept; an unmapped or object column, or one whose conversion raises, is returned unchanged; under datetime (or Float64) a cell is missing iff it does not parse and otherwise holds its parsed value; under string missing stays missing, text stays, and any other value becomes the text `render` gives for it |
| Coercion.CoerceTable | src/schema/.ipynb_checkpoints/handle_schema-checkpoint.py:48-61 | the column count is kept and the column at each position is that position's column coerced on its own, so names, order and row counts are preserved and no column depends on another |
| Coercion.ApplySchemaTypes | src/schema/.ipynb_checkpoints/handle_schema-checkpoint.py:38-63 | it fails exactly when schema resolution fails, with the same error, because that call is outside the try; otherwise every column of the frame is replaced by its coerced version, and a non-200 metadata response returns the frame unchanged |
| Coercion.EmptySchemaIsIdentity | src/schema/.ipynb_checkpoints/handle_schema-checkpoint.py:48-50 | with an empty schema every column is skipped, so the table comes back unchanged |
| Coercion.CoerceTableSplits | src/schema/.ipynb_checkpoints/handle_schema-checkpoint.py:48-61 | coercing the concatenation of two tables is concatenating their coercions |
| Coercion.FailureIsolated | src/schema/.ipynb_checkpoints/handle_schema-checkpoint.py:53-61 | a column whose conversion raises keeps its original values, and the columns before and after it are coerced exactly as in tables without it |
| Coercion.CoerceColumnIdempotent | src/schema/.ipynb_checkpoints/handle_schema-checkpoint.py:54-59 | when the parsers return timestamps and numbers as themselves and missing as missing, coercing an already coerced column changes nothing |
| Coercion.CoerceTableIdempotent | src/schema/.ipynb_checkpoints/handle_schema-checkpoint.py:48-63 | under the same parser assumption, coercing a table twice equals coercing it once |
| Coercion.FailedMetadataFetchIsPassThrough | src/schema/.ipynb_checkpoints/handle_schema-checkpoint.py:47-50 | after a non-200 metadata response the schema is empty and every table passes through unchanged |
| Coercion.FloatColumnExample | src/schema/.ipynb_checkpoints/handle_schema-checkpoint.py:56-57 | assuming the numeric parser reads "12.5" as 12.5 and reads neither "N/A" nor null (stated as requires on the `toNumeric` oracle) and the column does not raise, a Float64 column ["12.5", "N/A", null] becomes [12.5, missing, missing] and keeps its three rows |

## Left out

- `src/data_reader/get_hhs_data.py` is not part of this model. It holds the row fetch (query parameters, the 50 000 row limit, the HTTP GET) and a metadata-to-DataFrame helper. Both are direct calls to the remote service or to pandas and contain no decision logic.
- The HTTP request in `get_metadata` and the URL constants: the model takes the response as a parameter. Transport exceptions raised by `requests.get` propagate in the source and are not represented.
- JSON shapes that the code does not expect are not represented: a "columns" value that is not a list, a descriptor that is not an object, and a non-string "fieldName".
- A "dataTypeName" that is present but not a string is not represented; `ColumnDescriptor` holds only an absent key or a string. In the source a JSON null (or a number) there is looked up in the table with `.get(..., "object")` (line 34) and gives object, while an absent key raises KeyError.
- Non-finite floats and signed zero are not represented: `Number` holds a real. `pd.to_numeric` reads "inf" or "-inf" as an infinity, which `astype("Float64")` (line 57) keeps as a present value. The model's `toNumeric` can only return a finite real or none. The model also does not distinguish -0.0 from 0.0.
- pandas conversion semantics (date and float parsing, nanosecond timestamps, string rendering) are oracle parameters. `pd.to_datetime` on a whole Series may infer one format from the first value and apply it to every row. The model's per-cell `toDatetime` does not represent that dependence between rows.
- The "Int64" case of the numeric branch (line 56) is left out. The translation table never produces "Int64", so the branch is unreachable, and the model's dtype enum has no such value.
- Tables with two columns of the same name are treated as independent columns. In pandas, `df[col]` would return a sub-frame for such a name.
- In-place mutation and aliasing of the DataFrame are left out: the model returns a new table. The `ApplySchemaTypes` method replaces the columns of its local copy one position at a time.
- The calendar-date round trip (a parsed timestamp equals the original date) is a property of pandas' parser, which is an oracle here.
- Per-column failures are not reported to the caller. The source swallows them silently and the model does the same: such a column simply comes back unchanged.
- Coercion.CoerceColumnIdempotent: holds only under the assumption that the parsers return timestamps and numbers as themselves and missing values as missing. That is an assumption about pandas, not something the source establishes.
