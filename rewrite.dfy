/**
 * The JSON field rewriter of e2e.go (`rewriteMap`): walks an overwrite over
 * a decoded JSON object and replaces the fields it names.
 *
 * The specification functions give every possible outcome at once: on
 * failure, the set of errors a run may report. Go visits the keys of the
 * overwrite in random order and stops at the first key that fails, so any
 * failing key may be the one reported; the elements of an array overwrite
 * are visited in index order, so there the first failing index is reported.
 */
module Rewrite {
  import opened Wrappers
  import opened Json
  import Strings

  /** An overwrite spec, Go's `map[string]any` argument of rewriteMap. */
  datatype Overwrite = Overwrite(fields: map<string, Value>)

  /**
   * One value of an overwrite, by its dynamic Go type:
   *   Nested   a `map[string]any`, rewritten into an object field
   *   ArrayOf  a `[]map[string]any`, rewritten into the elements of an array field
   *   Literal  anything else, a `[]any` or nil included, stored unconditionally
   */
  datatype Value =
    | Literal(json: Json)
    | Nested(sub: Overwrite)
    | ArrayOf(elems: seq<Overwrite>)

  /** The fatal errors of rewriteMap, each with the dotted key it names. */
  datatype Error =
    | NotAnObject(key: string)                      // "could not rewrite map"
    | NotAnArray(key: string)                       // "could not rewrite array map"
    | LengthMismatch(got: nat, want: nat, key: string)  // len(sub) != len(v)
    | ElementNotAnObject(key: string)               // element i of the array is not an object

  /** strings.Join(append(parents, k), ".") */
  function KeyPath(parents: seq<string>, k: string): string {
    Strings.Join(parents + [k], ".")
  }

  /** k + "#" + strconv.Itoa(i), the name of element i of field k. */
  function ElementKey(k: string, i: nat): string {
    k + "#" + Strings.Itoa(i)
  }

  /** Rewriting the object `base` with `ov`; `parents` are the keys above it. */
  function RewriteObject(base: map<string, Json>, ov: Overwrite, parents: seq<string>): (r: Result<map<string, Json>, set<Error>>)
    ensures r.Success? ==> r.value.Keys == base.Keys
    ensures r.Failure? ==> r.error != {}
    decreases ov, 0, 0
  {
    var failing := set k | k in ov.fields && k in base && RewriteField(base[k], ov.fields[k], parents, k).Failure?;
    if failing == {} then
      Success(map k | k in base :: if k in ov.fields then FieldValue(base[k], ov.fields[k], parents, k) else base[k])
    else
      var errors := set k, e | k in failing && e in RewriteField(base[k], ov.fields[k], parents, k).error :: e;
      assert errors != {} by {
        var k :| k in failing;
        var e :| e in RewriteField(base[k], ov.fields[k], parents, k).error;
        assert e in errors;
      }
      Failure(errors)
  }

  /** The new value of a field that rewrites, or its current value. */
  function FieldValue(cur: Json, v: Value, parents: seq<string>, k: string): Json
    decreases v, 2, 0
  {
    match RewriteField(cur, v, parents, k)
    case Success(j) => j
    case Failure(_) => cur
  }

  /** The new value of field `k`, currently `cur`, under the overwrite value `v`. */
  function RewriteField(cur: Json, v: Value, parents: seq<string>, k: string): (r: Result<Json, set<Error>>)
    ensures r.Failure? ==> r.error != {}
    ensures r.Success? && v.Nested? ==> cur.Obj? && r.value.Obj? && r.value.fields.Keys == cur.fields.Keys
    ensures r.Success? && v.ArrayOf? ==> cur.Arr? && r.value.Arr? && |r.value.elems| == |cur.elems|
    decreases v, 1, 0
  {
    match v
    case Literal(j) => Success(j)
    case Nested(sub) =>
      if !cur.Obj? then Failure({NotAnObject(KeyPath(parents, k))})
      else
        (match RewriteObject(cur.fields, sub, parents + [k])
         case Success(m) => Success(Obj(m))
         case Failure(es) => Failure(es))
    case ArrayOf(ovs) =>
      if !cur.Arr? then Failure({NotAnArray(KeyPath(parents, k))})
      else if |cur.elems| != |ovs| then Failure({LengthMismatch(|cur.elems|, |ovs|, KeyPath(parents, k))})
      else
        match RewriteElements(cur.elems, ovs, parents, k, 0, v)
        case Success(es) => Success(Arr(es))
        case Failure(errs) => Failure(errs)
  }

  /** The elements from index `i` on of an array field `k` rewritten element by element. */
  function RewriteElements(elems: seq<Json>, ovs: seq<Overwrite>, parents: seq<string>, k: string, i: nat, ghost v: Value): (r: Result<seq<Json>, set<Error>>)
    requires v == ArrayOf(ovs) && |elems| == |ovs| && i <= |ovs|
    ensures r.Success? ==> |r.value| == |ovs| - i
    ensures r.Failure? ==> r.error != {}
    decreases v, 0, |ovs| - i
  {
    if i == |ovs| then Success([])
    else
      var kk := ElementKey(k, i);
      if !elems[i].Obj? then Failure({ElementNotAnObject(KeyPath(parents, kk))})
      else
        match RewriteObject(elems[i].fields, ovs[i], parents + [kk])
        case Failure(es) => Failure(es)
        case Success(m) => Prepend([Obj(m)], RewriteElements(elems, ovs, parents, k, i + 1, v))
  }

  function Prepend(done: seq<Json>, rest: Result<seq<Json>, set<Error>>): Result<seq<Json>, set<Error>> {
    match rest
    case Success(s) => Success(done + s)
    case Failure(es) => Failure(es)
  }

  /** The result of one run of rewriteMap is one of the outcomes the specification allows. */
  predicate Allowed<T(==)>(r: Result<T, Error>, spec: Result<T, set<Error>>) {
    match r
    case Success(x) => spec == Success(x)
    case Failure(e) => spec.Failure? && e in spec.error
  }

  /**
   * rewriteMap: for each key of the overwrite that the object has, rewrite
   * that field. Go mutates `base` in place and its sub-maps through the
   * references it shares; here the method returns the rewritten object.
   */
  method RewriteMap(base: map<string, Json>, ov: Overwrite, parents: seq<string>) returns (r: Result<map<string, Json>, Error>)
    ensures Allowed(r, RewriteObject(base, ov, parents))
    decreases ov, 0, 0
  {
    var result := base;
    var todo := ov.fields.Keys;
    while todo != {}
      invariant todo <= ov.fields.Keys
      invariant result.Keys == base.Keys
      invariant forall k :: k in base && k in ov.fields && k !in todo ==>
        RewriteField(base[k], ov.fields[k], parents, k) == Success(result[k])
      invariant forall k :: k in base && (k !in ov.fields || k in todo) ==> result[k] == base[k]
      decreases todo
    {
      var k :| k in todo;
      if k in base {
        var field := RewriteValue(base[k], ov.fields[k], parents, k);
        if field.Failure? {
          ObjectFails(base, ov, parents, k, field.error);
          return Failure(field.error);
        }
        result := result[k := field.value];
      }
      todo := todo - {k};
    }
    ObjectSucceeds(base, ov, parents, result);
    r := Success(result);
  }

  /** The body of the `switch v := v.(type)` of rewriteMap for one key. */
  method RewriteValue(cur: Json, v: Value, parents: seq<string>, k: string) returns (r: Result<Json, Error>)
    ensures Allowed(r, RewriteField(cur, v, parents, k))
    decreases v, 1, 0
  {
    match v {
      case Literal(j) =>
        r := Success(j);
      case Nested(sub) =>
        if !cur.Obj? {
          return Failure(NotAnObject(KeyPath(parents, k)));
        }
        var m := RewriteMap(cur.fields, sub, parents + [k]);
        if m.Failure? {
          return Failure(m.error);
        }
        assert RewriteObject(cur.fields, sub, parents + [k]) == Success(m.value);
        r := Success(Obj(m.value));
      case ArrayOf(ovs) =>
        if !cur.Arr? {
          return Failure(NotAnArray(KeyPath(parents, k)));
        }
        if |cur.elems| != |ovs| {
          return Failure(LengthMismatch(|cur.elems|, |ovs|, KeyPath(parents, k)));
        }
        var elems := RewriteArray(cur.elems, ovs, parents, k, v);
        if elems.Failure? {
          return Failure(elems.error);
        }
        r := Success(Arr(elems.value));
    }
  }

  /** The `for i, vv := range v` loop of rewriteMap: the elements in index order, each rewritten by the overwrite at its index. */
  method RewriteArray(cur: seq<Json>, ovs: seq<Overwrite>, parents: seq<string>, k: string, ghost v: Value) returns (r: Result<seq<Json>, Error>)
    requires v == ArrayOf(ovs) && |cur| == |ovs|
    ensures Allowed(r, RewriteElements(cur, ovs, parents, k, 0, v))
    decreases v, 0, 0
  {
    var elems := cur;
    PrependNothing(RewriteElements(cur, ovs, parents, k, 0, v));
    for i := 0 to |ovs|
      invariant |elems| == |ovs|
      invariant elems[i..] == cur[i..]
      invariant RewriteElements(cur, ovs, parents, k, 0, v) == Prepend(elems[..i], RewriteElements(cur, ovs, parents, k, i, v))
    {
      var kk := ElementKey(k, i);
      if !elems[i].Obj? {
        return Failure(ElementNotAnObject(KeyPath(parents, kk)));
      }
      var m := RewriteMap(elems[i].fields, ovs[i], parents + [kk]);
      if m.Failure? {
        return Failure(m.error);
      }
      PrependTwice(elems[..i], [Obj(m.value)], RewriteElements(cur, ovs, parents, k, i + 1, v));
      elems := elems[i := Obj(m.value)];
      assert elems[..i + 1] == elems[..i] + [Obj(m.value)];
    }
    assert elems[..|ovs|] == elems;
    PrependNothingLeft(elems);
    r := Success(elems);
  }

  lemma ObjectFails(base: map<string, Json>, ov: Overwrite, parents: seq<string>, k: string, e: Error)
    requires k in ov.fields && k in base
    requires RewriteField(base[k], ov.fields[k], parents, k).Failure?
    requires e in RewriteField(base[k], ov.fields[k], parents, k).error
    ensures RewriteObject(base, ov, parents).Failure?
    ensures e in RewriteObject(base, ov, parents).error
  {
    var failing := set k | k in ov.fields && k in base && RewriteField(base[k], ov.fields[k], parents, k).Failure?;
    assert k in failing;
  }

  lemma ObjectSucceeds(base: map<string, Json>, ov: Overwrite, parents: seq<string>, result: map<string, Json>)
    requires result.Keys == base.Keys
    requires forall k :: k in base && k in ov.fields ==> RewriteField(base[k], ov.fields[k], parents, k) == Success(result[k])
    requires forall k :: k in base && k !in ov.fields ==> result[k] == base[k]
    ensures RewriteObject(base, ov, parents) == Success(result)
  {
    var failing := set k | k in ov.fields && k in base && RewriteField(base[k], ov.fields[k], parents, k).Failure?;
    assert failing == {};
    var m := map k | k in base :: if k in ov.fields then FieldValue(base[k], ov.fields[k], parents, k) else base[k];
    assert m == result;
  }

  lemma PrependNothing(rest: Result<seq<Json>, set<Error>>)
    ensures Prepend([], rest) == rest
  {
    if rest.Success? {
      assert [] + rest.value == rest.value;
    }
  }

  lemma PrependNothingLeft(done: seq<Json>)
    ensures Prepend(done, Success([])) == Success(done)
  {
    assert done + [] == done;
  }

  lemma PrependTwice(a: seq<Json>, b: seq<Json>, rest: Result<seq<Json>, set<Error>>)
    ensures Prepend(a, Prepend(b, rest)) == Prepend(a + b, rest)
  {
    if rest.Success? {
      assert a + (b + rest.value) == (a + b) + rest.value;
    }
  }
}
