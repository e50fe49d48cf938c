# ETL pipeline template — Dafny model

This project models the core of a small extract-transform-load scaffold: the
template method `DataPipeline.run`, which checks its source path and then runs
the fixed chain read → parse → transform → write, and the hooks of the two
concrete pipelines, `JsonStatsPipeline` (JSON array → count / mean / maximum)
and `CsvToJsonPipeline` (CSV text → JSON text).

Files:

- `results.dfy` — module `Results`: the raised exceptions (`Error`), `Option`,
  and `Result` for a call that returns or raises.
- `pipeline.dfy` — module `DataPipeline`: a pipeline as a bundle of hooks,
  construction with the default reader, the default identity transform, and
  `Run`, which returns the result together with the trace of hook invocations.
  `ReaderCalls` projects a trace to the paths the reader was called with.
- `json_stats.dfy` — module `JsonStats`: the decoded-JSON datatype, the parse
  hook (array or `TypeError`), the aggregate (`count`, `avg`, `max`), the
  identity write, and end-to-end lemmas about runs of this pipeline.
- `csv_to_json.dfy` — module `CsvToJson`: the CSV pipeline as a template
  implementer whose parse and write hooks are library calls.

Design choices:

- The abstract base class with hooks becomes the datatype `Pipeline<P, T, W>`
  whose fields are the hook functions. An implementer supplies `parse` and
  `write`; the ones that do not override `transform` pass `DefaultTransform`.
- The reader is a function `string -> Result<string>`. `New` takes it as an
  `Option` and falls back to a `fileRead` parameter, which stands for the
  module's file-reading helper (pattern_impl.py:11-14).
- `json.loads`, `csv.DictReader` and `json.dumps` are parameters: the decoder
  yields an abstract `Json` value, and the CSV record type is a type parameter.
- The exception messages are rendered in English; the source's messages are
  Russian. Only the exception kind is observable in the tests.
- `avg` is a Dafny `real`. For an empty list the source returns the integer
  `0`; the model returns `0.0`, which Python compares equal to it.

## Model

| member | source | states |
|---|---|---|
| DataPipeline.Run | pattern_impl.py:26-33 | An empty path raises ValueError with no hook invoked (empty trace). A non-empty path is passed to the reader exactly once and unchanged. Hooks run in the fixed order read, parse, transform, write, so the trace is always a prefix of that chain. The first hook that raises ends the run with its own error unchanged, and no later hook is invoked. If no hook raises, the run returns write(transform(parse(read(path)))) and every hook appears in the trace. |
| DataPipeline.DefaultReaderIsFileReader | pattern_impl.py:22-23 | A pipeline built without a reader gives the same result and trace as one given the file reader explicitly. It reads once, with the run's path, and a file-read error comes back as the result. |
| DataPipeline.DefaultTransformIsTransparent | pattern_impl.py:44-46 | With the default transform, a successful read and parse lead straight to write(parse(read(path))), with the full chain in the trace. |
| JsonStats.Parse | pattern_impl.py:68-72 | Parsing succeeds exactly when decoding succeeds and yields an array, and then it returns the array's elements unchanged. A decoding error is passed on as it is. Any other decoded value (object, string, number, boolean, null) raises TypeError. |
| JsonStats.MaxOf | pattern_impl.py:79 | The maximum of a non-empty list is one of its elements and is at least every element. |
| JsonStats.Aggregate | pattern_impl.py:74-80 | count equals the list length. For an empty list, avg is 0 and max is absent. For a non-empty list, avg times count equals the sum, and max is present, is an element, and bounds every element. |
| JsonStats.AverageAtMostMax | pattern_impl.py:78-79 | For a non-empty list the reported mean never exceeds the reported maximum. |
| JsonStats.RunAggregatesArray | pattern_impl.py:65-83 | A stats run whose text decodes to an array returns that array's aggregate unchanged (write is the identity), after all four hooks ran. |
| JsonStats.RunRejectsNonArray | pattern_impl.py:69-71 | A stats run whose text decodes to a non-array value fails with TypeError after read and parse only. |
| JsonStats.TenTwentyThirtyExample | tests_pattern.py:25-31 | Running on the text "[10, 20, 30]" yields count 3, avg 20.0, max 30. |
| CsvToJson.RunDumpsParsedRows | pattern_impl.py:55-63 | A CSV run whose read and row parsing succeed returns the serialisation of exactly the parsed rows, because the inherited transform changes nothing, after all four hooks ran. |
| CsvToJson.DefaultReaderCalledOnce | tests_pattern.py:53-57 | A CSV pipeline built without a reader calls the file reader exactly once, with the run's path. A file-read error is the run's result; otherwise the run returns the dump of the parsed rows. |

## Left out

- The file-reading helper (pattern_impl.py:11-14) performs I/O; it is the `fileRead` parameter.
- `json.loads`, `csv.DictReader` and `json.dumps` (pattern_impl.py:59-60, 63, 69) are library code that is not part of this model. They are parameters, so the CSV pipeline's output format, its header handling and ragged rows are not modelled.
- `DataPipeline.read` (pattern_impl.py:36-38) is never overridden by either pipeline, so `Run` calls the constructed reader directly.
- A `None` source path is not modelled. Dafny strings cannot be `None`, so the empty string is the only falsy path.
- JSON array elements are fixed to integers. The errors Python raises for non-numeric elements are not modelled, and neither are JSON floats.
- Python float rounding in `sum(nums) / len(nums)` is not modelled; the mean is an exact real.
- JsonStats.Aggregate: never fails, whereas the source's integer true division (pattern_impl.py:78) raises OverflowError when the mean is beyond the float range (e.g. a 400-digit integer element). The model has no float range, so it returns the exact mean there instead of that error.
- The exception hierarchy is flattened: Python's JSON decoding error is a subclass of ValueError, so `except ValueError` around a stats run also catches malformed JSON, while the model's `DecodeError` and `ValueError` are unrelated kinds.
- Enforcement of abstract methods at instantiation time is not modelled: every `Pipeline` value carries all its hooks by construction.
