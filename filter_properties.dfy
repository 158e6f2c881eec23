/** What the filters promise, proved of the specification functions of module Filters. */
module FilterProperties {
  import opened Wrappers
  import opened Json
  import Strings
  import Rewrite
  import RewriteProperties
  import opened Filters

  /** PrettyJSON leaves a 204 No Content response as it is, whatever its Content-Type. */
  lemma PrettyJSONNoContent(r: Response, c: Codec)
    requires r.status == StatusNoContent
    ensures Prettified(r, c) == Success(r)
  {
  }

  /** PrettyJSON on any other status stops the test unless the Content-Type starts with application/json. */
  lemma PrettyJSONRejectsNonJson(r: Response, c: Codec)
    requires r.status != StatusNoContent && !Strings.HasPrefix(r.contentType, JsonContentType)
    ensures Prettified(r, c) == Failure({NotJson})
  {
  }

  /** Otherwise the body is replaced by its indented form, or the test stops if it is not a JSON object. */
  lemma PrettyJSONIndents(r: Response, c: Codec)
    requires r.status != StatusNoContent && Strings.HasPrefix(r.contentType, JsonContentType)
    ensures c.unmarshal(r.body).None? ==> Prettified(r, c) == Failure({Malformed})
    ensures c.unmarshal(r.body).Some? ==>
      Prettified(r, c) == Success(Response(r.status, r.contentType, c.marshalIndent(c.unmarshal(r.body).value)))
  {
  }

  /** With a codec that reads back what MarshalIndent wrote, pretty-printing twice is pretty-printing once. */
  lemma PrettyJSONIdempotent(r: Response, c: Codec)
    requires IndentRoundTrips(c)
    requires Prettified(r, c).Success?
    ensures Prettified(Prettified(r, c).value, c) == Prettified(r, c)
  {
    var r' := Prettified(r, c).value;
    if r.status != StatusNoContent {
      var m := c.unmarshal(r.body).value;
      assert c.unmarshal(c.marshalIndent(m)) == Some(m);
    }
  }

  /**
   * ModifyJSON re-encodes exactly the rewritten object, which has the keys
   * of the decoded body at every level the overwrite reaches; with a codec
   * that reads back what the Encoder wrote, the new body decodes to it.
   */
  lemma ModifyJSONKeepsKeys(r: Response, ov: Rewrite.Overwrite, c: Codec)
    requires Modified(r, ov, c).Success?
    ensures c.decodeFirst(r.body).Some?
    ensures var m := c.decodeFirst(r.body).value;
      && Rewrite.RewriteObject(m, ov, []).Success?
      && Modified(r, ov, c).value.body == c.encode(Rewrite.RewriteObject(m, ov, []).value)
      && RewriteProperties.KeepsKeys(m, ov, Rewrite.RewriteObject(m, ov, []).value)
    ensures EncodeRoundTrips(c) ==>
      c.decodeFirst(Modified(r, ov, c).value.body) == Some(Rewrite.RewriteObject(c.decodeFirst(r.body).value, ov, []).value)
    ensures Modified(r, ov, c).value.status == r.status && Modified(r, ov, c).value.contentType == r.contentType
  {
    var m := c.decodeFirst(r.body).value;
    RewriteProperties.RewriteKeepsKeys(m, ov, []);
  }

  /** Every error the rewrite of a decoded body may report is a fatal ModifyJSON may stop with. */
  lemma ModifyJSONFailures(r: Response, ov: Rewrite.Overwrite, c: Codec, e: Rewrite.Error)
    requires c.decodeFirst(r.body).Some?
    requires Rewrite.RewriteObject(c.decodeFirst(r.body).value, ov, []).Failure?
    requires e in Rewrite.RewriteObject(c.decodeFirst(r.body).value, ov, []).error
    ensures Modified(r, ov, c).Failure? && RewriteFailed(e) in Modified(r, ov, c).error
  {
  }

  /** With a codec that reads back what the Encoder wrote, ModifyJSON twice is ModifyJSON once. */
  lemma ModifyJSONIdempotent(r: Response, ov: Rewrite.Overwrite, c: Codec)
    requires EncodeRoundTrips(c)
    requires Modified(r, ov, c).Success?
    ensures Modified(Modified(r, ov, c).value, ov, c) == Modified(r, ov, c)
  {
    var m := c.decodeFirst(r.body).value;
    var m' := Rewrite.RewriteObject(m, ov, []).value;
    assert c.decodeFirst(c.encode(m')) == Some(m');
    RewriteProperties.RewriteIdempotent(m, ov, []);
  }

  /** CaptureResponse puts the body back unchanged and fails only when the body does not decode. */
  lemma CaptureKeepsResponse(r: Response, accepts: Bytes -> bool)
    ensures Captured(r, accepts).Success? <==> accepts(r.body)
    ensures Captured(r, accepts).Success? ==> Captured(r, accepts).value == r
  {
  }

  /** No filter changes the status or the Content-Type. */
  lemma {:induction false} FiltersKeepHeaders(r: Response, fs: seq<Filter>, c: Codec)
    requires Filtered(r, fs, c).Success?
    ensures Filtered(r, fs, c).value.status == r.status
    ensures Filtered(r, fs, c).value.contentType == r.contentType
    decreases |fs|
  {
    if fs != [] {
      FiltersKeepHeaders(Step(r, fs[0], c).value, fs[1..], c);
    }
  }
}
