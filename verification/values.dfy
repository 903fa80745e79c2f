/** The opaque data the core passes around: cells, rows, named columns,
    tables and handles to objects owned by the Python runtime. */
module Values {

  /** One cell of a column; `Null` is a missing value. */
  datatype Value = Null | Bool(b: bool) | Int(i: int) | Utf8(s: string)

  /** One row of a micropartition, by column name. */
  type Row = map<string, Value>

  /** A named column. */
  datatype Series = Series(name: string, values: seq<Value>)

  /** A table as a map from column name to the column's values. */
  datatype Table = Table(columns: map<string, seq<Value>>)

  /** A reference to an object living in the Python runtime. */
  datatype PyHandle = PyHandle(id: nat)
}
