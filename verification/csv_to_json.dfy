/** The CSV-to-JSON pipeline as an implementer of the template: its parse hook
    (a CSV dictionary reader) and its write hook (JSON serialisation) are
    library code, so both are parameters, and the record type is left abstract.
    It keeps the default transform.
 */
module CsvToJson {
  import opened Results
  import opened DataPipeline

  /** A CSV-to-JSON pipeline over records of type `Row`. */
  function CsvToJsonPipeline<Row>(reader: Option<Reader>, fileRead: Reader,
                                  readRows: string -> Result<seq<Row>>,
                                  dumps: seq<Row> -> string): Pipeline<seq<Row>, seq<Row>, string>
  {
    New(reader, fileRead, readRows, DefaultTransform, rows => Success(dumps(rows)))
  }

  /** End to end: the rows parsed from the text read are serialised as they
      are, after every hook ran once in order. */
  lemma RunDumpsParsedRows<Row>(reader: Option<Reader>, fileRead: Reader,
                                readRows: string -> Result<seq<Row>>,
                                dumps: seq<Row> -> string, path: string)
    requires path != []
    ensures var p := CsvToJsonPipeline(reader, fileRead, readRows, dumps);
            var raw := p.reader(path);
            raw.Success? && readRows(raw.value).Success? ==>
              Run(p, path) == Outcome(Success(dumps(readRows(raw.value).value)), Chain(path))
  {
  }

  /** Built without a reader, the pipeline reads through the file reader,
      once, with the path it was run on. */
  lemma DefaultReaderCalledOnce<Row>(fileRead: Reader, readRows: string -> Result<seq<Row>>,
                                     dumps: seq<Row> -> string, path: string)
    requires path != []
    ensures var out := Run(CsvToJsonPipeline(None, fileRead, readRows, dumps), path);
            && ReaderCalls(out.trace) == [path]
            && (fileRead(path).Failure? ==> out.result == Failure(fileRead(path).error))
            && (fileRead(path).Success? && readRows(fileRead(path).value).Success? ==>
                  out.result == Success(dumps(readRows(fileRead(path).value).value)))
  {
  }
}
