/** The template method of the ETL scaffold: a pipeline is a bundle of four
    hooks (read, parse, transform, write), and `Run` drives them in that fixed
    order after checking the source path. Every hook may raise; nothing in
    `Run` catches, so the first failure ends the run with that very error.

    Besides its result, `Run` returns the trace of hook invocations, so that
    "the reader is called exactly once, with this path" and "no later step is
    evaluated after a failure" are statements about the model.
 */
module DataPipeline {
  import opened Results

  /** The injected read capability: a path in, the full text out (or an error). */
  type Reader = string -> Result<string>

  /** Message of the `ValueError` raised for an empty source path. */
  const EmptyPathMessage: string := "source_path must be a non-empty string"

  /** One hook invocation, in the order `Run` performs them. */
  datatype Event = ReadEvent(path: string) | ParseEvent | TransformEvent | WriteEvent

  /** The complete chain of hook invocations of a run that reaches `write`. */
  function Chain(path: string): (c: seq<Event>)
  {
    [ReadEvent(path), ParseEvent, TransformEvent, WriteEvent]
  }

  /** The paths handed to the reader, in call order. */
  function ReaderCalls(trace: seq<Event>): (paths: seq<string>)
  {
    if trace == [] then []
    else (if trace[0].ReadEvent? then [trace[0].path] else []) + ReaderCalls(trace[1..])
  }

  /** What a run yields: the value `write` returned or the error raised,
      together with the hooks that were invoked on the way. */
  datatype Outcome<+T> = Outcome(result: Result<T>, trace: seq<Event>) {

    /** Runs the next hook on the current value unless an earlier one raised;
        a raised error passes through untouched and the hook is not invoked. */
    function Then<U>(event: Event, hook: T -> Result<U>): Outcome<U>
    {
      match result
      case Failure(e) => Outcome(Failure(e), trace)
      case Success(v) => Outcome(hook(v), trace + [event])
    }
  }

  /** A concrete pipeline: the reader it was constructed with and its three
      overridable processing hooks. `P` is what `parse` produces, `T` what
      `transform` produces and `W` what `write` returns. */
  datatype Pipeline<!P, !T, W> = Pipeline(
    reader: Reader,
    parse: string -> Result<P>,
    transform: P -> Result<T>,
    write: T -> Result<W>)

  /** The default `transform` hook: the records as they are. */
  function DefaultTransform<P>(rows: P): Result<P>
  {
    Success(rows)
  }

  /** Construction: an omitted reader falls back to the file reader. The file
      reader performs I/O, so it is a parameter here. */
  function New<P, T, W>(reader: Option<Reader>, fileRead: Reader,
                        parse: string -> Result<P>, transform: P -> Result<T>,
                        write: T -> Result<W>): (p: Pipeline<P, T, W>)
  {
    Pipeline(if reader.Some? then reader.value else fileRead, parse, transform, write)
  }

  /** The template method. */
  function Run<P, T, W>(p: Pipeline<P, T, W>, path: string): (out: Outcome<W>)
    // An empty path raises ValueError before any hook, the reader included, runs.
    ensures path == [] ==> out == Outcome(Failure(ValueError(EmptyPathMessage)), [])
    // A non-empty path is handed to the reader exactly once, unchanged.
    ensures path != [] ==> ReaderCalls(out.trace) == [path]
    // The hooks run in the fixed order, each at most once, none skipped before the last one run.
    ensures path != [] ==> 1 <= |out.trace| <= 4 && out.trace == Chain(path)[..|out.trace|]
    // A failing read is returned unchanged and parse is never invoked.
    ensures path != [] && p.reader(path).Failure? ==>
              out == Outcome(Failure(p.reader(path).error), Chain(path)[..1])
    // A failing parse is returned unchanged and transform is never invoked.
    ensures path != [] && p.reader(path).Success? ==>
              var rows := p.parse(p.reader(path).value);
              rows.Failure? ==> out == Outcome(Failure(rows.error), Chain(path)[..2])
    // A failing transform is returned unchanged and write is never invoked.
    ensures path != [] && p.reader(path).Success? && p.parse(p.reader(path).value).Success? ==>
              var shaped := p.transform(p.parse(p.reader(path).value).value);
              shaped.Failure? ==> out == Outcome(Failure(shaped.error), Chain(path)[..3])
    // Otherwise the run is write(transform(parse(read(path)))), with every hook invoked.
    ensures path != [] && p.reader(path).Success? && p.parse(p.reader(path).value).Success? ==>
              var shaped := p.transform(p.parse(p.reader(path).value).value);
              shaped.Success? ==> out == Outcome(p.write(shaped.value), Chain(path))
    // Success means every hook ran.
    ensures out.result.Success? ==> out.trace == Chain(path)
  {
    if path == [] then
      Outcome(Failure(ValueError(EmptyPathMessage)), [])
    else
      var out := Outcome(Success(path), [])
        .Then(ReadEvent(path), p.reader)
        .Then(ParseEvent, p.parse)
        .Then(TransformEvent, p.transform)
        .Then(WriteEvent, p.write);
      assert 1 <= |out.trace| <= 4 && out.trace == Chain(path)[..|out.trace|];
      ReaderCallsOfChain(path);
      assert ReaderCalls(Chain(path)[..|out.trace|]) == [path];
      out
  }

  /** Reader calls distribute over concatenation of traces. */
  lemma {:induction false} ReaderCallsAppend(a: seq<Event>, b: seq<Event>)
    ensures ReaderCalls(a + b) == ReaderCalls(a) + ReaderCalls(b)
    decreases |a|
  {
    if a == [] {
      assert a + b == b;
    } else {
      assert (a + b)[1..] == a[1..] + b;
      ReaderCallsAppend(a[1..], b);
    }
  }

  /** Every non-empty prefix of the chain records exactly one reader call, with the run's path. */
  lemma ReaderCallsOfChain(path: string)
    ensures forall k :: 1 <= k <= 4 ==> ReaderCalls(Chain(path)[..k]) == [path]
  {
    var c := Chain(path);
    assert ReaderCalls([ParseEvent]) == [] by {
      assert [ParseEvent][1..] == [];
    }
    assert ReaderCalls([TransformEvent]) == [] by {
      assert [TransformEvent][1..] == [];
    }
    assert ReaderCalls([WriteEvent]) == [] by {
      assert [WriteEvent][1..] == [];
    }
    forall k | 1 <= k <= 4
      ensures ReaderCalls(c[..k]) == [path]
    {
      assert c[..k] == [c[0]] + c[1..k];
      ReaderCallsAppend([c[0]], c[1..k]);
      assert [c[0]][1..] == [];
      assert ReaderCalls([c[0]]) == [path];
      if k == 2 {
        assert c[1..k] == [ParseEvent];
      } else if k == 3 {
        assert c[1..k] == [ParseEvent] + [TransformEvent];
        ReaderCallsAppend([ParseEvent], [TransformEvent]);
      } else if k == 4 {
        assert c[1..k] == [ParseEvent] + ([TransformEvent] + [WriteEvent]);
        ReaderCallsAppend([TransformEvent], [WriteEvent]);
        ReaderCallsAppend([ParseEvent], [TransformEvent] + [WriteEvent]);
      }
    }
  }

  /** Constructing without a reader behaves exactly like injecting the file
      reader: same result, same calls. */
  lemma DefaultReaderIsFileReader<P, T, W>(fileRead: Reader, other: Reader,
                                           parse: string -> Result<P>, transform: P -> Result<T>,
                                           write: T -> Result<W>, path: string)
    ensures Run(New(None, fileRead, parse, transform, write), path)
         == Run(New(Some(fileRead), other, parse, transform, write), path)
    ensures path != [] ==>
              var out := Run(New(None, fileRead, parse, transform, write), path);
              ReaderCalls(out.trace) == [path] && (fileRead(path).Failure? ==> out.result == Failure(fileRead(path).error))
  {
  }

  /** With the default transform the records go from parse straight to write. */
  lemma DefaultTransformIsTransparent<P, W>(reader: Option<Reader>, fileRead: Reader,
                                            parse: string -> Result<P>, write: P -> Result<W>, path: string)
    requires path != []
    ensures var p := New(reader, fileRead, parse, DefaultTransform, write);
            var raw := p.reader(path);
            raw.Success? && parse(raw.value).Success? ==>
              Run(p, path) == Outcome(write(parse(raw.value).value), Chain(path))
  {
  }
}
