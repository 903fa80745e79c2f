# Daft execution core: a Dafny model

This project models four small pieces of the native core of the Daft dataframe engine and proves
properties of them:

- **Source resolution** (`Sources`, `source_info.dfy`): the `SourceInfo` tagged union saying where a
  logical-plan leaf's data comes from (an in-memory cache entry, a physical scan, or a placeholder
  awaiting substitution). It covers the hand-written equality and hashing of `InMemoryInfo`, which
  look at the cache key only, the derived equality and hashing of `SourceInfo`, and the placeholder
  id counter. The counter is threaded as explicit state (`IdCounter`) rather than a process-wide
  atomic; it wraps around at `usize::MAX` as `fetch_add` does.
- **Plan translation** (`Translation`, `logical_plan.dfy`): `to_logical_plan`
  turning a Spark Connect relation into a logical plan. It validates the relation type, the Tail
  input and the Range step, dispatches on the relation type, and wraps failures in context. Errors
  are a kind, a message and an ordered list of contexts, outermost first, as eyre's `wrap_err`
  builds them.
- **Filter operator** (`IntermediateOps`, `filter.dfy`): `FilterOperator` as a stateless stage from
  one micropartition (a sequence of rows) to another. Predicate evaluation is a function from a
  row to a result.
- **Writer manifests** (`PyWriters`, `py_writers.dfy`): what the four Python-backed file writers
  keep from their constructors, and how `close` turns the encoder's answer into the manifest table.

Shared types live in `results.dfy` (`Option`, `Result`), `errors.dfy` (`Error`, `Wrap`, `WrapErr`)
and `values.dfy` (cells, rows, series, tables, Python handles). Foreign calls into the Python
runtime are parameters of the functions that make them. So are the table operations the writers
use. Each such parameter may fail.

Paths below are relative to the repository root.

## Model

| member | source | states |
|---|---|---|
| `Sources.NewInMemoryInfo` | src/daft-logical-plan/src/source_info/mod.rs:38-55 | every field is copied unchanged into the new in-memory source |
| `Sources.NewInMemoryInfoDropsCacheEntry` | src/daft-logical-plan/src/source_info/mod.rs:38-55 | the Python cache entry leaves no trace: two calls differing only in it build the same value |
| `Sources.InMemoryEq` | src/daft-logical-plan/src/source_info/mod.rs:58-62 | in-memory equality compares cache keys only, and equal values get the same hash input; the full contract is in `InMemoryEqIsCacheKeyEquivalence` |
| `Sources.InMemoryHashInput` | src/daft-logical-plan/src/source_info/mod.rs:66-70 | the hasher is fed exactly one token, the cache key |
| `Sources.SourceEq` | src/daft-logical-plan/src/source_info/mod.rs:19-24 | the derived equality gives equal sources the same hash input; the per-variant contract is in `SourceEqByVariant` |
| `Sources.SourceHashInput` | src/daft-logical-plan/src/source_info/mod.rs:19-24 | the derived hash feeds the variant's own discriminant first, distinct for each variant, then the payload: the cache key alone for an in-memory source, the scan descriptor for a physical one, and schema, spec and id for a placeholder |
| `Sources.InMemoryEqIsCacheKeyEquivalence` | src/daft-logical-plan/src/source_info/mod.rs:58-64 | two in-memory sources are equal iff their cache keys are equal, and that equality is reflexive, symmetric and transitive |
| `Sources.InMemoryHashConsistent` | src/daft-logical-plan/src/source_info/mod.rs:66-70 | equal in-memory sources feed the hasher the same input, so every hasher gives them the same hash |
| `Sources.InMemoryMetadataIrrelevant` | src/daft-logical-plan/src/source_info/mod.rs:27-70 | rewriting schema, partition count, size, row count or clustering spec changes neither what a source equals nor its hash input |
| `Sources.SourceEqIsEquivalence` | src/daft-logical-plan/src/source_info/mod.rs:19-24 | the derived equality on `SourceInfo` is reflexive, symmetric and transitive across all three variants |
| `Sources.SourceEqByVariant` | src/daft-logical-plan/src/source_info/mod.rs:19-24 | sources of different variants are never equal; same-variant sources compare by their payload's equality |
| `Sources.SourceHashConsistent` | src/daft-logical-plan/src/source_info/mod.rs:19-24 | equal sources of any variant feed every hasher the same input |
| `Sources.NewPlaceHolder` | src/daft-logical-plan/src/source_info/mod.rs:82-87 | the id is the counter's value before the call, the counter advances by one modulo 2^64 and so always changes, and schema and spec are kept |
| `Sources.SeparatePlaceHoldersDiffer` | src/daft-logical-plan/src/source_info/mod.rs:72-87 | placeholders from two consecutive calls have different ids and are never equal, even with identical schema and spec |
| `Sources.NewPlaceHolders` | src/daft-logical-plan/src/source_info/mod.rs:82-87 | a run of allocations yields one placeholder per request |
| `Sources.PlaceHolderIdsConsecutive` | src/daft-logical-plan/src/source_info/mod.rs:72-87 | a run of allocations that does not pass `usize::MAX` hands out the consecutive ids from the counter's start, with no gaps, and leaves the counter advanced by the run's length |
| `Sources.PlaceHoldersPairwiseDistinct` | src/daft-logical-plan/src/source_info/mod.rs:74-87 | within such a run ids strictly increase, so no two placeholders are equal |
| `Sources.FirstPlaceHoldersOfProcess` | src/daft-logical-plan/src/source_info/mod.rs:72-87 | starting from the counter's initial value 0, the n-th placeholder created gets id n-1 |
| `Translation.MissingRelationTypeFails` | src/daft-connect/src/translation/logical_plan.rs:11-13 | a relation without a type fails with "Relation type is required" and no context |
| `Translation.ToLogicalPlan` | src/daft-connect/src/translation/logical_plan.rs:6-20 | success needs a Range or Tail relation type, and every Range or Tail failure carries that operation's context outermost; the rest of the contract is in the lemmas below |
| `Translation.TranslateTail` | src/daft-connect/src/translation/logical_plan.rs:22-30 | a missing input fails as a missing field; otherwise the input is translated first, its failure is returned unchanged, and success is a tail node over its plan |
| `Translation.TranslateRange` | src/daft-connect/src/translation/logical_plan.rs:32-79 | success requires the python feature and a step of at least 1 and is the scan over `(start or 0, end, step)`; with the `python` feature, a step of at most 0 is an invalid argument |
| `Translation.CreateRangeScan` | src/daft-connect/src/translation/logical_plan.rs:56-75 | the scan plan is built exactly when every Python step succeeds, and a failing step's root cause is kept |
| `Translation.UnsupportedRelationTypeFails` | src/daft-connect/src/translation/logical_plan.rs:18 | any type other than Range or Tail fails as unsupported, with a message naming the variant and no context |
| `Translation.TailWithoutInputFails` | src/daft-connect/src/translation/logical_plan.rs:17-27 | a Tail without input fails with "Input is required" wrapped in "Failed to apply tail to logical plan" |
| `Translation.RangeRequiresPython` | src/daft-connect/src/translation/logical_plan.rs:32-34 | without the `python` feature every Range fails, before any field is checked, wrapped in the range context |
| `Translation.RangeStepValidation` | src/daft-connect/src/translation/logical_plan.rs:53-54 | a negative step fails the `usize` conversion with its own context; a zero step fails the positivity check; only a step of at least 1 can succeed |
| `Translation.FailuresAreWrapped` | src/daft-connect/src/translation/logical_plan.rs:15-19 | every Range failure carries the range context outermost, and every Tail failure the tail context |
| `Translation.RangeBuildsScan` | src/daft-connect/src/translation/logical_plan.rs:40-77 | a successful Range is a scan over `(start, end, step)` with an absent start taken as 0 |
| `Translation.TranslationIgnoresHints` | src/daft-connect/src/translation/logical_plan.rs:7-51 | `common` metadata and `num_partitions` never change the result of a Range or Tail chain at any depth, nor does writing `start` as 0 instead of leaving it out |
| `Translation.TranslationSucceedsIff` | src/daft-connect/src/translation/logical_plan.rs:6-30 | translation succeeds exactly on the relations that an independent recursive predicate accepts |
| `Translation.TailTranslatesInputFirst` | src/daft-connect/src/translation/logical_plan.rs:22-30 | a chain of Tails translates its bottom relation first, then adds one tail node per level on success, or one tail context per level to a propagated failure |
| `Translation.TranslationInverse` | src/daft-connect/src/translation/logical_plan.rs:6-30 | a translated plan is valid and converts back to the relation minus what translation ignores |
| `Translation.PlanRoundTrip` | src/daft-connect/src/translation/logical_plan.rs:6-30 | every valid plan is the translation of its relation, given the `python` feature and scans the runtime creates |
| `IntermediateOps.NewFilterOperator` | src/daft-local-execution/src/intermediate_ops/filter.rs:16-18 | the constructor stores the predicate unchanged |
| `IntermediateOps.Name` | src/daft-local-execution/src/intermediate_ops/filter.rs:27-29 | the operator's name is "FilterOperator"; that it does not depend on the predicate is `NameIsConstant` |
| `IntermediateOps.NameIsConstant` | src/daft-local-execution/src/intermediate_ops/filter.rs:27-29 | every filter operator is named "FilterOperator", whatever its predicate |
| `IntermediateOps.NewThenExecute` | src/daft-local-execution/src/intermediate_ops/filter.rs:16-24 | an operator from `new` filters with exactly the predicate it was given |
| `IntermediateOps.FilterRows` | src/daft-local-execution/src/intermediate_ops/filter.rs:24 | a successful filter has no more rows than its input, each an input row the predicate accepts |
| `IntermediateOps.Execute` | src/daft-local-execution/src/intermediate_ops/filter.rs:23-25 | `execute` never produces more rows than it was given |
| `IntermediateOps.FilterOkIff` | src/daft-local-execution/src/intermediate_ops/filter.rs:24 | filtering succeeds iff the predicate evaluates without failure on every row |
| `IntermediateOps.FilterFailsAtFirstError` | src/daft-local-execution/src/intermediate_ops/filter.rs:24 | a failing filter returns the first failing evaluation's error unchanged |
| `IntermediateOps.FilterIsStableSelection` | src/daft-local-execution/src/intermediate_ops/filter.rs:24 | a successful filter returns exactly the rows the predicate accepts, in their original order |
| `IntermediateOps.ExecuteIsStableSelection` | src/daft-local-execution/src/intermediate_ops/filter.rs:23-25 | `execute` returns exactly the input rows its predicate accepts, in order |
| `IntermediateOps.FilterAllAccepted` | src/daft-local-execution/src/intermediate_ops/filter.rs:24 | when the predicate accepts every row the output equals the input |
| `IntermediateOps.FilterIdempotent` | src/daft-local-execution/src/intermediate_ops/filter.rs:24 | filtering a filtered micropartition again with the same predicate changes nothing |
| `PyWriters.NewParquetWriter` | src/daft-micropartition/src/py_writers.rs:16-40 | the writer exists iff the encoder is instantiated; it then holds that encoder and the given partition table, and an instantiation error is returned unchanged |
| `PyWriters.NewCsvWriter` | src/daft-micropartition/src/py_writers.rs:81-103 | the same for the CSV writer, whose encoder gets no compression setting |
| `PyWriters.NewIcebergWriter` | src/daft-micropartition/src/py_writers.rs:144-174 | the writer exists iff its encoder is instantiated and then holds exactly that encoder; the encoder, not the writer, receives the partition values; an instantiation error is returned unchanged |
| `PyWriters.NewDeltalakeWriter` | src/daft-micropartition/src/py_writers.rs:204-232 | the writer exists iff its encoder is instantiated and then holds exactly that encoder, which receives the partition value; an instantiation error is returned unchanged |
| `PyWriters.Close` | src/daft-micropartition/src/py_writers.rs:57-72 | a successful `close` of any writer returns `Some` manifest, never `None` |
| `PyWriters.ExtractOptionalString` | src/daft-micropartition/src/py_writers.rs:60 | extraction succeeds exactly on a Python `None` or string, giving `None` or the string |
| `PyWriters.ExtractTable` | src/daft-micropartition/src/py_writers.rs:194 | extraction succeeds exactly on a Python table, giving that table |
| `PyWriters.CloseWithManifest` | src/daft-micropartition/src/py_writers.rs:57-72 | a successful PyArrow `close` returns `Some` and needs the encoder's `close` and the extraction to succeed; an encoder failure is returned unchanged |
| `PyWriters.CloseWithEncoderTable` | src/daft-micropartition/src/py_writers.rs:191-196 | a table-format `close` succeeds exactly when the encoder returns a table, and then returns that table in `Some` |
| `PyWriters.PathSeriesHoldsWrittenFile` | src/daft-micropartition/src/py_writers.rs:62-66 | the manifest column is named `path`, has exactly one row, and holds the written path or a null |
| `PyWriters.ManifestWithoutPartition` | src/daft-micropartition/src/py_writers.rs:57-72 | with no partition bound the manifest is exactly the table built from the `path` column, even when the encoder reports no file |
| `PyWriters.ManifestWithPartition` | src/daft-micropartition/src/py_writers.rs:67-71 | with a partition bound the manifest is the `path` table unioned with it |
| `PyWriters.BaseManifestIsPathTable` | src/daft-micropartition/src/py_writers.rs:62-70 | if building from one series yields just that column, a writer with no partition closes with exactly one column, `path`, holding one row with the written path or a null |
| `PyWriters.PartitionedManifestCarriesBoundValues` | src/daft-micropartition/src/py_writers.rs:62-68 | if single-column construction behaves as such, and union of two tables with equal row counts and disjoint columns puts them side by side, then a writer bound to a one-row partition table without a `path` column closes with the `path` column beside exactly the bound partition columns |
| `PyWriters.ManifestFailuresPropagate` | src/daft-micropartition/src/py_writers.rs:57-72 | failures of the encoder's `close`, of extracting its answer, of table construction and of union propagate unchanged |
| `PyWriters.CsvCloseMatchesParquet` | src/daft-micropartition/src/py_writers.rs:120-135 | the CSV writer closes exactly as the Parquet writer does |
| `PyWriters.TableFormatCloseReturnsEncoderTable` | src/daft-micropartition/src/py_writers.rs:191-254 | Iceberg and Deltalake writers return their encoder's table in `Some` with no union and no use of the table operations; an encoder failure, or an answer that is not a table, fails the call |
| `PyWriters.ConstructedWriterClosesWithBoundPartition` | src/daft-micropartition/src/py_writers.rs:35-72 | a constructed Parquet writer closes with the partition table its constructor was given |

## Behaviour worth knowing

- `close` of the Parquet and CSV writers never returns `None`. When the encoder reports no file,
  the manifest still has one row, with a null `path`. The writer contract as usually described
  says `None` for a writer that wrote nothing. The model follows the code.
- The CSV writer's constructor takes no compression setting and passes none to its encoder.
- A negative Range step fails at the conversion to `usize`. That failure carries the extra context
  "step must be a positive integer". A zero step fails the later "step must be greater than 0"
  check. Both are classed as invalid arguments.
- Without the `python` feature, Range fails before its step is examined.

## Left out

- `write` of all four writers, and the Python side of their constructors. These are foreign calls;
  instantiation is the `Python.instantiate` parameter, which may fail.
- The Python block that builds the range scan (`logical_plan.rs` lines 56-75). It is a
  `ScanOutcome` parameter saying which foreign step failed, if any. The values a `RangeScanOperator`
  yields are not modelled.
- The Tail transform itself. Line 29 of `logical_plan.rs` is truncated and `limit` is not visibly
  used, so Tail applies an abstract `TailOf(plan, limit)` node that cannot fail.
- The internals of `MicroPartition::filter`, which is not part of this model. Its semantics are
  assumed: a stable selection of the rows the predicate accepts, where the first failing row's error
  fails the call. Null predicate results and column-wise evaluation are not modelled.
- `Table::from_nonempty_columns` and `Table::union`. They are the opaque `TableOps` parameter.
- PyWriters.ManifestWithoutPartition: states the manifest only as the table built from the `path`
  series. The column layout is stated by `BaseManifestIsPathTable` and
  `PartitionedManifestCarriesBoundValues`, and only for table operations that behave as described
  there, because the real ones are not part of this model.
- PyWriters.PartitionedManifestCarriesBoundValues: says nothing about a bound partition table whose
  row count is not 1 or that already has a `path` column. Union is expected to fail on such tables,
  but the real `Table::union` is not part of this model.
- The atomic, `SeqCst` nature of `PLACEHOLDER_ID_COUNTER`. The counter is modelled sequentially.
- Sources.PlaceHoldersPairwiseDistinct: distinctness is stated only for runs that do not pass
  `usize::MAX`, because `fetch_add` wraps around and ids are reused after 2^64 allocations.
- The hash algorithm. Hashing is modelled as the token stream fed to the hasher; a `String` is one
  token, not its bytes and terminator.
- Translation.UnsupportedRelationTypeFails: the message names the variant but not the Debug rendering
  of its payload. That rendering would include nested relations and their `common` metadata, so in
  the code nested metadata can change an unsupported-type message; the model drops the payload.
- Logging (`warn!`, `#[instrument]`), serde derives, the `file_info` submodule, and the pipeline
  driver and other intermediate operators.
- Spark Connect field widths are modelled as `i64` and `i32`; `usize` is taken to be 64 bits wide.
- The writers' `file_idx` (`usize`) and Deltalake `version` (`i32`) are unbounded `nat` and `int`.
  They are only passed through to the encoder.
- `cmd/cli/cmd/datarepo.go` is an interactive terminal front end and is not part of this model.
