/** The redacting writer (writer.go): it wraps an output file, runs its filter
    chain over every buffer written and forwards the result to the file. */
module Writer {
  import opened Wrappers
  import opened GoStrings
  import Filters

  /** An error value returned by the file. */
  datatype GoError = GoError(message: GoString)

  /** What the file has been asked to do, in order. */
  datatype FileEvent = Wrote(data: GoString) | Synced

  /** The underlying `*os.File`. The operating system's answers are not
      modelled: they are the functions `onWrite` and `onSync` of the events
      that came before, and the file records each call it receives. */
  class File {
    var events: seq<FileEvent>
    const onWrite: (seq<FileEvent>, GoString) -> (int, Option<GoError>)
    const onSync: seq<FileEvent> -> Option<GoError>

    constructor (onWrite: (seq<FileEvent>, GoString) -> (int, Option<GoError>),
                 onSync: seq<FileEvent> -> Option<GoError>)
      ensures events == []
      ensures this.onWrite == onWrite && this.onSync == onSync
    {
      events := [];
      this.onWrite := onWrite;
      this.onSync := onSync;
    }

    /** `file.Write(data)`. */
    method Write(data: GoString) returns (n: int, err: Option<GoError>)
      modifies this
      ensures events == old(events) + [Wrote(data)]
      ensures (n, err) == onWrite(old(events), data)
    {
      n, err := onWrite(events, data).0, onWrite(events, data).1;
      events := events + [Wrote(data)];
    }

    /** `file.Sync()`. */
    method Sync() returns (err: Option<GoError>)
      modifies this
      ensures events == old(events) + [Synced]
      ensures err == onSync(old(events))
    {
      err := onSync(events);
      events := events + [Synced];
    }
  }

  /** The chain a writer is given: the default filters when none are passed. */
  function ChainFor(filters: seq<Filters.Filter>): (chain: seq<Filters.Filter>)
    ensures |chain| > 0
    ensures filters != [] ==> chain == filters
    ensures filters == [] ==> chain == Filters.DefaultFilters()
  {
    if |filters| == 0 then [] + Filters.DefaultFilters() else filters
  }

  /** `filterWriter`: the file and the filters, neither of which changes
      after construction. The regexp library the filters were compiled with
      is carried along as `re`. */
  class FilterWriter {
    const file: File
    const re: Filters.Engine
    const filters: seq<Filters.Filter>

    /** `newFilterWriter(file, filters...)`. */
    constructor (file: File, re: Filters.Engine, filters: seq<Filters.Filter>)
      ensures this.file == file && this.re == re
      ensures this.filters == ChainFor(filters)
    {
      this.file := file;
      this.re := re;
      this.filters := ChainFor(filters);
    }

    /** `w.filter(data)`: each filter in turn replaces its matches. */
    method Filter(data: GoString) returns (r: GoString)
      ensures r == Filters.Chain(re, filters, data)
    {
      r := data;
      for i := 0 to |filters|
        invariant Filters.Chain(re, filters, data) == Filters.Chain(re, filters[i..], r)
      {
        assert filters[i..][1..] == filters[i + 1..];
        r := Filters.ApplyFilter(re, filters[i], r);
      }
    }

    /** `w.Write(p)`: the filtered buffer goes to the file, and the file's
        byte count and error come back unchanged, so `n` counts filtered
        bytes, not `len(p)`. */
    method Write(p: GoString) returns (n: int, err: Option<GoError>)
      modifies file
      ensures file.events == old(file.events) + [Wrote(Filters.Chain(re, filters, p))]
      ensures (n, err) == file.onWrite(old(file.events), Filters.Chain(re, filters, p))
    {
      var data := Filter(p);
      n, err := file.Write(data);
    }

    /** `w.Sync()`: passed straight to the file. */
    method Sync() returns (err: Option<GoError>)
      modifies file
      ensures file.events == old(file.events) + [Synced]
      ensures err == file.onSync(old(file.events))
    {
      err := file.Sync();
    }
  }

  /** A writer built without filters filters exactly as `filterDefault`:
      its chain is the default chain, so `FilterWriter.Filter` and
      `Filters.FilterDefault` compute the same fold. */
  lemma DefaultWriterMatchesFilterDefault(re: Filters.Engine, data: GoString)
    ensures Filters.Chain(re, ChainFor([]), data) == Filters.Chain(re, Filters.DefaultFilters(), data)
  {
  }
}
