/**
 * RunTest of e2e.go: dispatch the request, check the status, optionally
 * log the raw response, run the filters in order, serialise the response
 * and compare it with its golden file or overwrite that file.
 */
module Driver {
  import opened Wrappers
  import opened Json
  import Strings
  import opened Filters
  import opened Golden

  /** The two command-line switches: -golden (update mode) and -dump. */
  datatype Config = Config(updateGolden: bool, dumpRaw: bool)

  datatype Request = Request(verb: string, url: string)

  /** What a test writes to its log, t.Errorf and t.Fatal included. */
  datatype Event =
    | Sent(verb: string, url: string)          // ">>> METHOD URL"
    | StatusMismatch(status: int, wanted: int)      // t.Errorf, the test goes on
    | RawResponse(header: Bytes, body: Bytes)    // the -dump output
    | GoldenMismatch(stored: Bytes, dumped: Bytes)  // t.Errorf with the diff
    | Aborted(reason: Fatal)                     // t.Fatal, the test stops
    | Finished(golden: string)                   // "<<< testdata/NAME.golden"

  /** httputil.DumpResponse(resp, withBody): status line and headers, then the body if asked for. */
  type Dumper = (Response, bool) -> Bytes

  /**
   * The -dump log entry: headers without the body, then the body, indented
   * when it is JSON and the status is 200 or 201.
   */
  function RawDump(got: Response, c: Codec, dump: Dumper): (r: Result<Event, set<Fatal>>)
    ensures r.Failure? ==> r.error == {Malformed}
    ensures r.Success? ==> r.value.RawResponse? && r.value.header == dump(got, false)
  {
    var body :=
      if Strings.HasPrefix(got.contentType, JsonContentType) && (got.status == StatusOK || got.status == StatusCreated)
      then IndentJSON(got.body, c)
      else Success(got.body);
    match body
    case Failure(f) => Failure({f})
    case Success(b) => Success(RawResponse(dump(got, false), b))
  }

  /**
   * The outcome of a test: the log it writes, the fatals it may stop with
   * (none when it runs to the end) and the golden files afterwards. When
   * `abort` is not empty the log ends with one more event, a fatal from `abort`.
   */
  datatype Trace = Trace(log: seq<Event>, abort: set<Fatal>, files: map<string, Bytes>)

  function Opening(req: Request, got: Response, want: int): seq<Event> {
    [Sent(req.verb, req.url)] + (if got.status != want then [StatusMismatch(got.status, want)] else [])
  }

  /** Everything after the filters: serialise, then update or compare. */
  function Settle(cfg: Config, dump: Dumper, files: map<string, Bytes>, name: string, final: Response): Trace {
    var d := dump(final, true);
    var path := GoldenFileName(name);
    if cfg.updateGolden then Trace([Finished(path)], {}, files[path := d])
    else
      match Stored(files, name)
      case None => Trace([], {MissingGolden(path)}, files)
      case Some(golden) => Trace((if golden != d then [GoldenMismatch(golden, d)] else []) + [Finished(path)], {}, files)
  }

  /** The filters, then Settle; the log starts after the raw dump. */
  function AfterFilters(cfg: Config, c: Codec, dump: Dumper, files: map<string, Bytes>, name: string,
                        got: Response, filters: seq<Filter>): Trace
  {
    match Filtered(got, filters, c)
    case Failure(es) => Trace([], es, files)
    case Success(final) => Settle(cfg, dump, files, name, final)
  }

  /** The test RunTest performs for a response `got` of the router. */
  function Expected(cfg: Config, c: Codec, dump: Dumper, files: map<string, Bytes>, name: string,
                    req: Request, got: Response, want: int, filters: seq<Filter>): (t: Trace)
    ensures |t.log| > 0 && t.log[0] == Sent(req.verb, req.url)
  {
    var opening := Opening(req, got, want);
    var rest := AfterFilters(cfg, c, dump, files, name, got, filters);
    if !cfg.dumpRaw then Trace(opening + rest.log, rest.abort, rest.files)
    else
      match RawDump(got, c, dump)
      case Failure(es) => Trace(opening, es, files)
      case Success(entry) => Trace(opening + [entry] + rest.log, rest.abort, rest.files)
  }

  /** The events that end a run: the log of the trace, then one of its fatals if it has any. */
  predicate Follows(t: Trace, log: seq<Event>, files: map<string, Bytes>) {
    && files == t.files
    && if t.abort == {} then log == t.log
       else |log| == |t.log| + 1 && log[..|t.log|] == t.log && log[|t.log|].Aborted? && log[|t.log|].reason in t.abort
  }

  lemma FollowsAfter(t: Trace, log: seq<Event>, files: map<string, Bytes>, prefix: seq<Event>)
    requires Follows(t, log, files)
    ensures Follows(Trace(prefix + t.log, t.abort, t.files), prefix + log, files)
  {
    if t.abort != {} {
      assert (prefix + log)[..|prefix + t.log|] == prefix + log[..|t.log|];
    }
  }

  /** The test runner: the registered router, the switches, the golden store and the test log. */
  class Tester {
    const config: Config
    const codec: Codec
    const dump: Dumper
    const router: Request -> Response
    const store: GoldenStore
    var log: seq<Event>

    /** RegisterRouter, with the flags of the run and the golden directory as it is. */
    constructor (config: Config, codec: Codec, dump: Dumper, router: Request -> Response, store: GoldenStore)
      ensures this.config == config && this.codec == codec && this.dump == dump
      ensures this.router == router && this.store == store && log == []
    {
      this.config, this.codec, this.dump, this.router, this.store := config, codec, dump, router, store;
      log := [];
    }

    /** The -dump branch: drain the body, indent JSON bodies of 200 and 201, dump the headers. */
    method DumpRaw(got: HttpResponse) returns (entry: Result<Event, Fatal>)
      modifies got
      ensures got.Value() == old(got.Value())
      ensures match entry
        case Success(e) => RawDump(got.Value(), codec, dump) == Success(e)
        case Failure(f) => RawDump(got.Value(), codec, dump) == Failure({f})
    {
      var body := got.DrainBody();
      if Strings.HasPrefix(got.contentType, JsonContentType) && (got.status == StatusOK || got.status == StatusCreated) {
        var indented := IndentJSON(body, codec);
        if indented.Failure? {
          return Failure(indented.error);
        }
        body := indented.value;
      }
      var header := dump(got.Value(), false);
      entry := Success(RawResponse(header, body));
    }

    /** Run the filters on the response, then serialise it and write or compare the golden file. */
    method Finish(name: string, got: HttpResponse, filters: seq<Filter>) returns (events: seq<Event>)
      modifies got, store
      ensures Follows(AfterFilters(config, codec, dump, old(store.files), name, old(got.Value()), filters), events, store.files)
    {
      var res := got.ApplyAll(filters, codec);
      if res.Fail? {
        return [Aborted(res.error)];
      }
      var data := dump(got.Value(), true);
      var path := GoldenFileName(name);
      if config.updateGolden {
        store.Write(name, data);
        events := [Finished(path)];
      } else {
        var golden := store.Read(name);
        if golden.None? {
          return [Aborted(MissingGolden(path))];
        }
        events := if golden.value != data then [GoldenMismatch(golden.value, data)] else [];
        events := events + [Finished(path)];
      }
    }

    /** The events of one test, from the request line to the golden file name or a fatal. */
    method Exchange(name: string, req: Request, want: int, filters: seq<Filter>) returns (events: seq<Event>)
      modifies store
      ensures Follows(Expected(config, codec, dump, old(store.files), name, req, router(req), want, filters), events, store.files)
    {
      var response := router(req);
      var opening := [Sent(req.verb, req.url)];
      if response.status != want {
        opening := opening + [StatusMismatch(response.status, want)];
      }
      var got := new HttpResponse(response);
      if config.dumpRaw {
        var entry := DumpRaw(got);
        if entry.Failure? {
          return opening + [Aborted(entry.error)];
        }
        opening := opening + [entry.value];
      }
      var tail := Finish(name, got, filters);
      FollowsAfter(AfterFilters(config, codec, dump, old(store.files), name, response, filters), tail, store.files, opening);
      events := opening + tail;
    }

    /** RunTest: one test, appended to the test log. */
    method RunTest(name: string, req: Request, want: int, filters: seq<Filter>)
      modifies this, store
      ensures |log| >= |old(log)| && log[..|old(log)|] == old(log)
      ensures Follows(Expected(config, codec, dump, old(store.files), name, req, router(req), want, filters),
                      log[|old(log)|..], store.files)
    {
      var events := Exchange(name, req, want, filters);
      log := log + events;
      assert log[|old(log)|..] == events;
    }
  }
}
