/** The native part of the Python-backed file writers: what each constructor
    keeps, and how `close` turns the encoder's answer into the manifest table
    that reports what was written. */
module PyWriters {
  import opened Results
  import opened Errors
  import opened Values

  /** What a Python call can hand back. */
  datatype PyValue = PyNone | PyStr(s: string) | PyTable(table: Table) | PyOther(typeName: string)

  /** Credentials and endpoint settings, passed through unmodified. */
  datatype IOConfig = IOConfig(settings: map<string, string>)

  /** The `daft.io.writer` class a constructor instantiates, with the arguments it passes. */
  datatype EncoderCall =
    | ParquetFileWriter(rootDir: string, fileIdx: nat, compression: Option<string>, ioConfig: Option<IOConfig>)
    | CSVFileWriter(rootDir: string, fileIdx: nat, ioConfig: Option<IOConfig>)
    | IcebergFileWriter(rootDir: string, fileIdx: nat, schema: PyHandle, properties: PyHandle, partitionSpec: PyHandle,
                        partitionValues: Option<Table>, compression: Option<string>, ioConfig: Option<IOConfig>)
    | DeltalakeFileWriter(rootDir: string, fileIdx: nat, version: int, largeDtypes: bool,
                          partitionValue: Option<Table>, postfix: string, ioConfig: Option<IOConfig>)

  /** The Python runtime as seen from the writers: instantiating an encoder and
      calling its `close`; either may fail. */
  datatype Python = Python(instantiate: EncoderCall -> Result<PyHandle, Error>, close: PyHandle -> Result<PyValue, Error>)

  /** The table operations `close` relies on, kept abstract: building a table
      from non-empty columns, and horizontal union. */
  datatype TableOps = TableOps(fromNonemptyColumns: seq<Series> -> Result<Table, Error>, union: (Table, Table) -> Result<Table, Error>)

  /** The four writers: the PyArrow ones keep the bound partition table for
      `close`, the table-format ones hand it to their encoder instead. */
  datatype FileWriter =
    | PyArrowParquetWriter(pyWriter: PyHandle, partition: Option<Table>)
    | PyArrowCSVWriter(pyWriter: PyHandle, partition: Option<Table>)
    | IcebergWriter(pyWriter: PyHandle)
    | DeltalakeWriter(pyWriter: PyHandle)

  const PathColumn := "path"

  function NewParquetWriter(py: Python, rootDir: string, fileIdx: nat, compression: Option<string>,
                            ioConfig: Option<IOConfig>, partition: Option<Table>): (r: Result<FileWriter, Error>)
    ensures var call := py.instantiate(ParquetFileWriter(rootDir, fileIdx, compression, ioConfig));
            && (r.Ok? <==> call.Ok?)
            && (r.Ok? ==> r.value == PyArrowParquetWriter(call.value, partition))
            && (r.Err? ==> r.error == call.error)
  {
    var handle :- py.instantiate(ParquetFileWriter(rootDir, fileIdx, compression, ioConfig));
    Ok(PyArrowParquetWriter(handle, partition))
  }

  function NewCsvWriter(py: Python, rootDir: string, fileIdx: nat, ioConfig: Option<IOConfig>,
                        partition: Option<Table>): (r: Result<FileWriter, Error>)
    ensures var call := py.instantiate(CSVFileWriter(rootDir, fileIdx, ioConfig));
            && (r.Ok? <==> call.Ok?)
            && (r.Ok? ==> r.value == PyArrowCSVWriter(call.value, partition))
            && (r.Err? ==> r.error == call.error)
  {
    var handle :- py.instantiate(CSVFileWriter(rootDir, fileIdx, ioConfig));
    Ok(PyArrowCSVWriter(handle, partition))
  }

  function NewIcebergWriter(py: Python, rootDir: string, fileIdx: nat, schema: PyHandle, properties: PyHandle,
                            partitionSpec: PyHandle, partitionValues: Option<Table>, compression: Option<string>,
                            ioConfig: Option<IOConfig>): (r: Result<FileWriter, Error>)
    ensures var call := py.instantiate(IcebergFileWriter(rootDir, fileIdx, schema, properties, partitionSpec,
                                                         partitionValues, compression, ioConfig));
            && (r.Ok? <==> call.Ok?)
            && (r.Ok? ==> r.value == IcebergWriter(call.value))
            && (r.Err? ==> r.error == call.error)
  {
    var handle :- py.instantiate(IcebergFileWriter(rootDir, fileIdx, schema, properties, partitionSpec,
                                                   partitionValues, compression, ioConfig));
    Ok(IcebergWriter(handle))
  }

  function NewDeltalakeWriter(py: Python, rootDir: string, fileIdx: nat, version: int, largeDtypes: bool,
                              partitionValue: Option<Table>, postfix: string, ioConfig: Option<IOConfig>): (r: Result<FileWriter, Error>)
    ensures var call := py.instantiate(DeltalakeFileWriter(rootDir, fileIdx, version, largeDtypes, partitionValue,
                                                           postfix, ioConfig));
            && (r.Ok? <==> call.Ok?)
            && (r.Ok? ==> r.value == DeltalakeWriter(call.value))
            && (r.Err? ==> r.error == call.error)
  {
    var handle :- py.instantiate(DeltalakeFileWriter(rootDir, fileIdx, version, largeDtypes, partitionValue, postfix, ioConfig));
    Ok(DeltalakeWriter(handle))
  }

  /** Extracting an `Option<String>` from a Python value. */
  function ExtractOptionalString(v: PyValue): (r: Result<Option<string>, Error>)
    ensures r.Ok? <==> v.PyNone? || v.PyStr?
    ensures v.PyStr? ==> r == Ok(Some(v.s))
    ensures v.PyNone? ==> r == Ok(None)
  {
    match v
    case PyNone => Ok(None)
    case PyStr(s) => Ok(Some(s))
    case _ => Err(Error(UnderlyingFailure, "expected an optional string", []))
  }

  /** Extracting a table from a Python value. */
  function ExtractTable(v: PyValue): (r: Result<Table, Error>)
    ensures r.Ok? <==> v.PyTable?
    ensures v.PyTable? ==> r == Ok(v.table)
  {
    match v
    case PyTable(t) => Ok(t)
    case _ => Err(Error(UnderlyingFailure, "expected a table", []))
  }

  /** The single `path` column holding the encoder's answer; no file becomes a null. */
  function PathSeries(writtenFile: Option<string>): Series {
    Series(PathColumn, [PathCell(writtenFile)])
  }

  /** `close` of the PyArrow writers: the encoder's written path as a one-row
      `path` table, unioned with the bound partition table when there is one. */
  function CloseWithManifest(pyWriter: PyHandle, partition: Option<Table>, py: Python, ops: TableOps): (r: Result<Option<Table>, Error>)
    ensures r.Ok? ==> r.value.Some?
    ensures r.Ok? ==> py.close(pyWriter).Ok? && ExtractOptionalString(py.close(pyWriter).value).Ok?
    ensures py.close(pyWriter).Err? ==> r == Err(py.close(pyWriter).error)
  {
    var result :- py.close(pyWriter);
    var writtenFile :- ExtractOptionalString(result);
    var writtenFileTable :- ops.fromNonemptyColumns([PathSeries(writtenFile)]);
    match partition
    case Some(p) =>
      var manifest :- ops.union(writtenFileTable, p);
      Ok(Some(manifest))
    case None => Ok(Some(writtenFileTable))
  }

  /** `close` of the table-format writers: the encoder's own table, as is. */
  function CloseWithEncoderTable(pyWriter: PyHandle, py: Python): (r: Result<Option<Table>, Error>)
    ensures r.Ok? <==> py.close(pyWriter).Ok? && py.close(pyWriter).value.PyTable?
    ensures r.Ok? ==> r.value == Some(py.close(pyWriter).value.table)
  {
    var result :- py.close(pyWriter);
    var table :- ExtractTable(result);
    Ok(Some(table))
  }

  /** `FileWriter::close` of each writer. */
  function Close(w: FileWriter, py: Python, ops: TableOps): (r: Result<Option<Table>, Error>)
    ensures r.Ok? ==> r.value.Some?
  {
    match w
    case PyArrowParquetWriter(h, partition) => CloseWithManifest(h, partition, py, ops)
    case PyArrowCSVWriter(h, partition) => CloseWithManifest(h, partition, py, ops)
    case IcebergWriter(h) => CloseWithEncoderTable(h, py)
    case DeltalakeWriter(h) => CloseWithEncoderTable(h, py)
  }

  /** The `path` column has that name and exactly one row, holding the written
      path, or a null when the encoder reports none. */
  lemma PathSeriesHoldsWrittenFile(writtenFile: Option<string>)
    ensures PathSeries(writtenFile).name == "path" && |PathSeries(writtenFile).values| == 1
    ensures writtenFile.Some? <==> PathSeries(writtenFile).values[0].Utf8?
    ensures writtenFile.Some? ==> PathSeries(writtenFile).values[0].s == writtenFile.value
  {
  }

  /** With no partition bound, a PyArrow writer's manifest is exactly the table
      built from the `path` column, whether or not the encoder reports a file. */
  lemma ManifestWithoutPartition(w: FileWriter, py: Python, ops: TableOps, writtenFile: Option<string>)
    requires (w.PyArrowParquetWriter? || w.PyArrowCSVWriter?) && w.partition.None?
    requires py.close(w.pyWriter) == Ok(match writtenFile case Some(p) => PyStr(p) case None => PyNone)
    ensures var built := ops.fromNonemptyColumns([PathSeries(writtenFile)]);
            && (built.Ok? ==> Close(w, py, ops) == Ok(Some(built.value)))
            && (built.Err? ==> Close(w, py, ops) == Err(built.error))
  {
  }

  /** Building a table from one series gives a table with just that column. */
  ghost predicate BuildsSingleColumn(ops: TableOps) {
    forall s: Series :: ops.fromNonemptyColumns([s]) == Ok(Table(map[s.name := s.values]))
  }

  /** Every column of `t` has exactly `n` rows. */
  ghost predicate HasRows(t: Table, n: nat) {
    forall c :: c in t.columns ==> |t.columns[c]| == n
  }

  /** Union of two tables with the same row count and disjoint column names
      puts their columns side by side; nothing is promised about other pairs. */
  ghost predicate UnionConcatenates(ops: TableOps) {
    forall a: Table, b: Table, n: nat ::
      HasRows(a, n) && HasRows(b, n) && a.columns.Keys !! b.columns.Keys ==>
        ops.union(a, b) == Ok(Table(a.columns + b.columns))
  }

  /** The one cell of the `path` column. */
  function PathCell(writtenFile: Option<string>): Value {
    match writtenFile case Some(p) => Utf8(p) case None => Null
  }

  /** When single-series construction behaves as a table constructor should, a
      PyArrow writer with no partition bound closes with exactly one column,
      `path`, holding one row: the written path, or a null. */
  lemma BaseManifestIsPathTable(w: FileWriter, py: Python, ops: TableOps, writtenFile: Option<string>)
    requires (w.PyArrowParquetWriter? || w.PyArrowCSVWriter?) && w.partition.None?
    requires py.close(w.pyWriter) == Ok(match writtenFile case Some(p) => PyStr(p) case None => PyNone)
    requires BuildsSingleColumn(ops)
    ensures Close(w, py, ops) == Ok(Some(Table(map[PathColumn := [PathCell(writtenFile)]])))
  {
    assert ops.fromNonemptyColumns([PathSeries(writtenFile)]) == Ok(Table(map[PathColumn := [PathCell(writtenFile)]]));
  }

  /** When construction and union also behave as such, a PyArrow writer bound
      to a one-row partition table without a `path` column closes with the
      `path` column beside exactly the bound partition columns. */
  lemma PartitionedManifestCarriesBoundValues(w: FileWriter, py: Python, ops: TableOps, writtenFile: Option<string>)
    requires (w.PyArrowParquetWriter? || w.PyArrowCSVWriter?) && w.partition.Some?
    requires PathColumn !in w.partition.value.columns && HasRows(w.partition.value, 1)
    requires py.close(w.pyWriter) == Ok(match writtenFile case Some(p) => PyStr(p) case None => PyNone)
    requires BuildsSingleColumn(ops) && UnionConcatenates(ops)
    ensures Close(w, py, ops) == Ok(Some(Table(map[PathColumn := [PathCell(writtenFile)]] + w.partition.value.columns)))
  {
    var pathTable := Table(map[PathColumn := [PathCell(writtenFile)]]);
    assert ops.fromNonemptyColumns([PathSeries(writtenFile)]) == Ok(pathTable);
    assert pathTable.columns.Keys !! w.partition.value.columns.Keys;
    assert HasRows(pathTable, 1);
    assert ops.union(pathTable, w.partition.value) == Ok(Table(pathTable.columns + w.partition.value.columns));
  }

  /** With a partition bound, a PyArrow writer's manifest is the `path` table
      unioned with that partition table. */
  lemma ManifestWithPartition(w: FileWriter, py: Python, ops: TableOps, writtenFile: Option<string>)
    requires (w.PyArrowParquetWriter? || w.PyArrowCSVWriter?) && w.partition.Some?
    requires py.close(w.pyWriter) == Ok(match writtenFile case Some(p) => PyStr(p) case None => PyNone)
    requires ops.fromNonemptyColumns([PathSeries(writtenFile)]).Ok?
    ensures var merged := ops.union(ops.fromNonemptyColumns([PathSeries(writtenFile)]).value, w.partition.value);
            && (merged.Ok? ==> Close(w, py, ops) == Ok(Some(merged.value)))
            && (merged.Err? ==> Close(w, py, ops) == Err(merged.error))
  {
  }

  /** Every failure on the way to a PyArrow writer's manifest propagates as is:
      the encoder's `close`, the extraction of its answer, the table
      construction and the union. */
  lemma ManifestFailuresPropagate(w: FileWriter, py: Python, ops: TableOps)
    requires w.PyArrowParquetWriter? || w.PyArrowCSVWriter?
    ensures py.close(w.pyWriter).Err? ==> Close(w, py, ops) == Err(py.close(w.pyWriter).error)
    ensures py.close(w.pyWriter).Ok? && ExtractOptionalString(py.close(w.pyWriter).value).Err? ==>
              Close(w, py, ops) == Err(ExtractOptionalString(py.close(w.pyWriter).value).error)
    ensures py.close(w.pyWriter).Ok? && ExtractOptionalString(py.close(w.pyWriter).value).Ok? ==>
              var built := ops.fromNonemptyColumns([PathSeries(ExtractOptionalString(py.close(w.pyWriter).value).value)]);
              && (built.Err? ==> Close(w, py, ops) == Err(built.error))
              && (built.Ok? && w.partition.Some? && ops.union(built.value, w.partition.value).Err? ==>
                    Close(w, py, ops) == Err(ops.union(built.value, w.partition.value).error))
  {
  }

  /** The CSV writer closes exactly as the Parquet writer does. */
  lemma CsvCloseMatchesParquet(h: PyHandle, partition: Option<Table>, py: Python, ops: TableOps)
    ensures Close(PyArrowCSVWriter(h, partition), py, ops) == Close(PyArrowParquetWriter(h, partition), py, ops)
  {
  }

  /** The table-format writers return their encoder's table with no union:
      the table operations play no part, and encoder failures propagate. */
  lemma TableFormatCloseReturnsEncoderTable(w: FileWriter, py: Python, ops: TableOps, ops': TableOps)
    requires w.IcebergWriter? || w.DeltalakeWriter?
    ensures Close(w, py, ops) == Close(w, py, ops')
    ensures py.close(w.pyWriter).Ok? && py.close(w.pyWriter).value.PyTable? ==>
              Close(w, py, ops) == Ok(Some(py.close(w.pyWriter).value.table))
    ensures py.close(w.pyWriter).Err? ==> Close(w, py, ops) == Err(py.close(w.pyWriter).error)
    ensures py.close(w.pyWriter).Ok? && !py.close(w.pyWriter).value.PyTable? ==>
              Close(w, py, ops) == Err(ExtractTable(py.close(w.pyWriter).value).error)
  {
  }

  /** A constructed Parquet writer closes with the partition table its
      constructor was given. */
  lemma ConstructedWriterClosesWithBoundPartition(
    py: Python, rootDir: string, fileIdx: nat, compression: Option<string>, ioConfig: Option<IOConfig>,
    partition: Option<Table>, ops: TableOps)
    requires NewParquetWriter(py, rootDir, fileIdx, compression, ioConfig, partition).Ok?
    ensures var w := NewParquetWriter(py, rootDir, fileIdx, compression, ioConfig, partition).value;
            Close(w, py, ops) == CloseWithManifest(w.pyWriter, partition, py, ops)
  {
  }
}
