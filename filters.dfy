/**
 * The response filters of e2e.go: PrettyJSON, ModifyJSON and
 * CaptureResponse. Each filter reads the body of the shared response and
 * may replace it; status and Content-Type are never changed.
 */
module Filters {
  import opened Wrappers
  import opened Json
  import Strings
  import Rewrite

  const StatusOK: int := 200
  const StatusCreated: int := 201
  const StatusNoContent: int := 204
  const JsonContentType: string := "application/json"

  /** The parts of an *http.Response the library reads: status, Content-Type header, body. */
  datatype Response = Response(status: int, contentType: string, body: Bytes)

  /** Why a test stops at a t.Fatal. */
  datatype Fatal =
    | NotJson                          // PrettyJSON on a body that is not declared JSON
    | Malformed                        // the body does not decode as a JSON object
    | RewriteFailed(error: Rewrite.Error)
    | CaptureFailed                    // the body does not decode into the capture destination
    | MissingGolden(path: string)      // the golden file cannot be read

  /**
   * The standard filters. `accepts` tells whether json.Unmarshal of a body
   * into the destination a caller passed to CaptureResponse succeeds.
   */
  datatype Filter =
    | PrettyJSON
    | ModifyJSON(overwrite: Rewrite.Overwrite)
    | CaptureResponse(accepts: Bytes -> bool)

  /** indentJSON: decode as an object, re-encode with two-space indentation. */
  function IndentJSON(body: Bytes, c: Codec): (r: Result<Bytes, Fatal>)
    ensures r.Failure? ==> r.error == Malformed
    ensures r.Success? && IndentRoundTrips(c) ==> c.unmarshal(r.value) == c.unmarshal(body)
  {
    match c.unmarshal(body)
    case None => Failure(Malformed)
    case Some(m) => Success(c.marshalIndent(m))
  }

  function Prettified(r: Response, c: Codec): (res: Result<Response, set<Fatal>>)
    ensures res.Failure? ==> res.error != {}
    ensures res.Success? ==> res.value.status == r.status && res.value.contentType == r.contentType
  {
    if r.status == StatusNoContent then Success(r)
    else if !Strings.HasPrefix(r.contentType, JsonContentType) then Failure({NotJson})
    else
      match IndentJSON(r.body, c)
      case Failure(f) => Failure({f})
      case Success(b) => Success(r.(body := b))
  }

  function Modified(r: Response, ov: Rewrite.Overwrite, c: Codec): (res: Result<Response, set<Fatal>>)
    ensures res.Failure? ==> res.error != {}
    ensures res.Success? ==> res.value.status == r.status && res.value.contentType == r.contentType
  {
    match c.decodeFirst(r.body)
    case None => Failure({Malformed})
    case Some(m) =>
      match Rewrite.RewriteObject(m, ov, [])
      case Failure(es) =>
        var fatals := set e | e in es :: RewriteFailed(e);
        assert fatals != {} by {
          var e :| e in es;
          assert RewriteFailed(e) in fatals;
        }
        Failure(fatals)
      case Success(m') => Success(r.(body := c.encode(m')))
  }

  function Captured(r: Response, accepts: Bytes -> bool): (res: Result<Response, set<Fatal>>)
    ensures res.Failure? ==> res.error != {}
    ensures res.Success? ==> res.value == r
  {
    if accepts(r.body) then Success(r) else Failure({CaptureFailed})
  }

  function Step(r: Response, f: Filter, c: Codec): (res: Result<Response, set<Fatal>>)
    ensures res.Failure? ==> res.error != {}
  {
    match f
    case PrettyJSON => Prettified(r, c)
    case ModifyJSON(ov) => Modified(r, ov, c)
    case CaptureResponse(accepts) => Captured(r, accepts)
  }

  /** The response after the filters, applied in the order given; the first fatal stops the chain. */
  function Filtered(r: Response, fs: seq<Filter>, c: Codec): (res: Result<Response, set<Fatal>>)
    ensures res.Failure? ==> res.error != {}
    decreases |fs|
  {
    if fs == [] then Success(r)
    else
      match Step(r, fs[0], c)
      case Failure(es) => Failure(es)
      case Success(r') => Filtered(r', fs[1..], c)
  }

  /** Continue a partial result with more filters. */
  function Then(prior: Result<Response, set<Fatal>>, fs: seq<Filter>, c: Codec): Result<Response, set<Fatal>> {
    match prior
    case Failure(es) => Failure(es)
    case Success(r) => Filtered(r, fs, c)
  }

  /** A run of a filter ended as the specification allows; `after` is the response it left. */
  predicate Allowed(res: Outcome<Fatal>, spec: Result<Response, set<Fatal>>, after: Response) {
    match res
    case Pass => spec == Success(after)
    case Fail(f) => spec.Failure? && f in spec.error
  }

  /** The shared *http.Response that the filters receive and whose body they overwrite. */
  class HttpResponse {
    const status: int
    const contentType: string
    var body: Bytes

    function Value(): Response
      reads this
    {
      Response(status, contentType, body)
    }

    constructor (r: Response)
      ensures Value() == r
    {
      status, contentType, body := r.status, r.contentType, r.body;
    }

    /** drainBody: hand out a copy of the body and put identical bytes back. */
    method DrainBody() returns (dump: Bytes)
      modifies this
      ensures dump == old(body) && body == old(body)
    {
      dump := body;
    }

    method PrettyJSON(c: Codec) returns (res: Outcome<Fatal>)
      modifies this
      ensures Allowed(res, Prettified(old(Value()), c), Value())
    {
      if status == StatusNoContent {
        return Pass;
      }
      if !Strings.HasPrefix(contentType, JsonContentType) {
        return Fail(NotJson);
      }
      var indented := IndentJSON(body, c);
      if indented.Failure? {
        return Fail(indented.error);
      }
      body := indented.value;
      res := Pass;
    }

    method ModifyJSON(ov: Rewrite.Overwrite, c: Codec) returns (res: Outcome<Fatal>)
      modifies this
      ensures Allowed(res, Modified(old(Value()), ov, c), Value())
    {
      var decoded := c.decodeFirst(body);
      if decoded.None? {
        return Fail(Malformed);
      }
      var rewritten := Rewrite.RewriteMap(decoded.value, ov, []);
      if rewritten.Failure? {
        return Fail(RewriteFailed(rewritten.error));
      }
      body := c.encode(rewritten.value);
      res := Pass;
    }

    method CaptureResponse(accepts: Bytes -> bool) returns (res: Outcome<Fatal>)
      modifies this
      ensures Allowed(res, Captured(old(Value()), accepts), Value())
      ensures body == old(body)
    {
      var read := body;
      body := read;
      if !accepts(read) {
        return Fail(CaptureFailed);
      }
      res := Pass;
    }

    /** Call one filter on this response. */
    method Apply(f: Filter, c: Codec) returns (res: Outcome<Fatal>)
      modifies this
      ensures Allowed(res, Step(old(Value()), f, c), Value())
    {
      match f {
        case PrettyJSON => res := PrettyJSON(c);
        case ModifyJSON(ov) => res := ModifyJSON(ov, c);
        case CaptureResponse(accepts) => res := CaptureResponse(accepts);
      }
    }

    /** `for _, f := range filters { f(t, got) }`, stopping at the first fatal. */
    method ApplyAll(fs: seq<Filter>, c: Codec) returns (res: Outcome<Fatal>)
      modifies this
      ensures Allowed(res, Filtered(old(Value()), fs, c), Value())
    {
      ghost var start := Value();
      for i := 0 to |fs|
        invariant Filtered(start, fs[..i], c) == Success(Value())
      {
        ghost var before := Value();
        res := Apply(fs[i], c);
        assert [fs[i]][1..] == [];
        assert Filtered(before, [fs[i]], c) == Step(before, fs[i], c);
        FiltersInOrder(start, fs[..i], [fs[i]], c);
        assert fs[..i + 1] == fs[..i] + [fs[i]];
        if res.Fail? {
          FiltersInOrder(start, fs[..i + 1], fs[i + 1..], c);
          assert fs[..i + 1] + fs[i + 1..] == fs;
          return;
        }
      }
      assert fs[..|fs|] == fs;
      res := Pass;
    }
  }

  /** Filters run strictly in the order given: the chain a + b is b run after a. */
  lemma {:induction false} FiltersInOrder(r: Response, a: seq<Filter>, b: seq<Filter>, c: Codec)
    ensures Filtered(r, a + b, c) == Then(Filtered(r, a, c), b, c)
    decreases |a|
  {
    if a != [] {
      assert (a + b)[0] == a[0] && (a + b)[1..] == a[1..] + b;
      match Step(r, a[0], c)
      case Failure(_) =>
      case Success(r') => FiltersInOrder(r', a[1..], b, c);
    } else {
      assert a + b == b;
    }
  }
}
