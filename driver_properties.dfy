/** What RunTest promises, proved of the specification function Driver.Expected. */
module DriverProperties {
  import opened Wrappers
  import opened Json
  import Strings
  import opened Filters
  import opened Golden
  import opened Driver

  predicate HasGoldenMismatch(log: seq<Event>) {
    exists i :: 0 <= i < |log| && log[i].GoldenMismatch?
  }

  /**
   * A status mismatch is logged right after the request line and the test
   * carries on: everything else is what the test does when the status is
   * the expected one.
   */
  lemma StatusMismatchContinues(cfg: Config, c: Codec, dump: Dumper, files: map<string, Bytes>, name: string,
                                req: Request, got: Response, want: int, filters: seq<Filter>)
    requires got.status != want
    ensures var t := Expected(cfg, c, dump, files, name, req, got, want, filters);
            var u := Expected(cfg, c, dump, files, name, req, got, got.status, filters);
            && |u.log| >= 1
            && t.log == u.log[..1] + [StatusMismatch(got.status, want)] + u.log[1..]
            && t.abort == u.abort && t.files == u.files
  {
    var t := Expected(cfg, c, dump, files, name, req, got, want, filters);
    var u := Expected(cfg, c, dump, files, name, req, got, got.status, filters);
    assert Opening(req, got, want) == [Sent(req.verb, req.url), StatusMismatch(got.status, want)];
    assert Opening(req, got, got.status) == [Sent(req.verb, req.url)];
    assert u.log[..1] == [Sent(req.verb, req.url)];
    assert t.log == [Sent(req.verb, req.url), StatusMismatch(got.status, want)] + u.log[1..];
  }

  /**
   * In update mode a test that runs to the end writes the dump of the
   * filtered response to testdata/<name>.golden and reports no mismatch;
   * it never stops for a missing golden file, and what was stored before
   * has no influence on its log.
   */
  lemma UpdateModeWrites(cfg: Config, c: Codec, dump: Dumper, files: map<string, Bytes>, other: map<string, Bytes>,
                         name: string, req: Request, got: Response, want: int, filters: seq<Filter>)
    requires cfg.updateGolden
    ensures var t := Expected(cfg, c, dump, files, name, req, got, want, filters);
            && ((cfg.dumpRaw ==> RawDump(got, c, dump).Success?) && Filtered(got, filters, c).Success? ==>
                  t.abort == {} &&
                  t.files == files[GoldenFileName(name) := dump(Filtered(got, filters, c).value, true)])
            && !HasGoldenMismatch(t.log)
            && MissingGolden(GoldenFileName(name)) !in t.abort
            && t.log == Expected(cfg, c, dump, other, name, req, got, want, filters).log
            && t.abort == Expected(cfg, c, dump, other, name, req, got, want, filters).abort
  {
    MissingGoldenNotFromFilters(got, filters, c, GoldenFileName(name));
  }

  /** No filter stops a test for a missing golden file. */
  lemma {:induction false} MissingGoldenNotFromFilters(r: Response, fs: seq<Filter>, c: Codec, path: string)
    ensures Filtered(r, fs, c).Failure? ==> MissingGolden(path) !in Filtered(r, fs, c).error
    decreases |fs|
  {
    if fs != [] {
      match Step(r, fs[0], c)
      case Failure(es) =>
      case Success(r') => MissingGoldenNotFromFilters(r', fs[1..], c, path);
    }
  }

  /**
   * In compare mode the golden files are never changed; a missing golden
   * file stops the test, and otherwise a mismatch is reported exactly when
   * the stored bytes differ from the dump of the filtered response.
   */
  lemma CompareModeReports(cfg: Config, c: Codec, dump: Dumper, files: map<string, Bytes>, name: string,
                           req: Request, got: Response, want: int, filters: seq<Filter>)
    requires !cfg.updateGolden
    requires cfg.dumpRaw ==> RawDump(got, c, dump).Success?
    requires Filtered(got, filters, c).Success?
    ensures var t := Expected(cfg, c, dump, files, name, req, got, want, filters);
            var path := GoldenFileName(name);
            var d := dump(Filtered(got, filters, c).value, true);
            && t.files == files
            && (path !in files ==> t.abort == {MissingGolden(path)})
            && (path in files ==>
                  && t.abort == {}
                  && (HasGoldenMismatch(t.log) <==> files[path] != d)
                  && (files[path] != d ==> GoldenMismatch(files[path], d) in t.log))
  {
    var t := Expected(cfg, c, dump, files, name, req, got, want, filters);
    var path := GoldenFileName(name);
    var d := dump(Filtered(got, filters, c).value, true);
    var logged := Opening(req, got, want) + (if cfg.dumpRaw then [RawDump(got, c, dump).value] else []);
    assert forall i :: 0 <= i < |logged| ==> !logged[i].GoldenMismatch?;
    if path in files {
      var tail := (if files[path] != d then [GoldenMismatch(files[path], d)] else []) + [Finished(path)];
      assert t.log == logged + tail;
      if files[path] != d {
        assert t.log[|logged|] == GoldenMismatch(files[path], d);
      } else {
        assert forall i :: 0 <= i < |t.log| ==> !t.log[i].GoldenMismatch?;
      }
    }
  }

  /**
   * No path but the test's own golden file is ever written, and it is
   * written only in update mode by a test that runs to the end.
   */
  lemma OnlyOwnGoldenWritten(cfg: Config, c: Codec, dump: Dumper, files: map<string, Bytes>, name: string,
                             req: Request, got: Response, want: int, filters: seq<Filter>)
    ensures var t := Expected(cfg, c, dump, files, name, req, got, want, filters);
            && (t.abort != {} || !cfg.updateGolden ==> t.files == files)
            && t.files.Keys <= files.Keys + {GoldenFileName(name)}
            && forall p :: p in files && p != GoldenFileName(name) ==> p in t.files && t.files[p] == files[p]
  {
  }

  /**
   * RawDump fails only on a body declared JSON, with status 200 or 201,
   * that does not decode as an object.
   */
  lemma RawDumpFails(got: Response, c: Codec, dump: Dumper)
    ensures RawDump(got, c, dump).Failure? <==>
      && Strings.HasPrefix(got.contentType, JsonContentType)
      && (got.status == StatusOK || got.status == StatusCreated)
      && c.unmarshal(got.body).None?
    ensures RawDump(got, c, dump).Failure? ==> RawDump(got, c, dump).error == {Malformed}
  {
  }

  /**
   * When the raw dump succeeds, -dump only adds its entry to the log: the
   * golden files and whether and how the test stops are the same as without it.
   */
  lemma DumpRawOnlyLogs(cfg: Config, c: Codec, dump: Dumper, files: map<string, Bytes>, name: string,
                        req: Request, got: Response, want: int, filters: seq<Filter>)
    requires RawDump(got, c, dump).Success?
    ensures var on := Expected(cfg.(dumpRaw := true), c, dump, files, name, req, got, want, filters);
            var off := Expected(cfg.(dumpRaw := false), c, dump, files, name, req, got, want, filters);
            var n := |Opening(req, got, want)|;
            && n <= |off.log|
            && on.log == off.log[..n] + [RawDump(got, c, dump).value] + off.log[n..]
            && on.abort == off.abort && on.files == off.files
  {
    var opening := Opening(req, got, want);
    var rest := AfterFilters(cfg, c, dump, files, name, got, filters);
    var off := Expected(cfg.(dumpRaw := false), c, dump, files, name, req, got, want, filters);
    assert off.log == (opening + []) + rest.log;
    assert off.log[..|opening|] == opening && off.log[|opening|..] == rest.log;
  }
}
