/**
 * What rewriteMap promises about the objects it rewrites, proved of the
 * specification functions of module Rewrite.
 */
module RewriteProperties {
  import opened Wrappers
  import opened Json
  import opened Rewrite

  /** A successful rewrite, read back field by field: the inverse of Rewrite.ObjectSucceeds. */
  lemma ObjectSucceeded(base: map<string, Json>, ov: Overwrite, parents: seq<string>)
    requires RewriteObject(base, ov, parents).Success?
    ensures RewriteObject(base, ov, parents).value.Keys == base.Keys
    ensures forall k :: k in base && k in ov.fields ==>
      RewriteField(base[k], ov.fields[k], parents, k) == Success(RewriteObject(base, ov, parents).value[k])
    ensures forall k :: k in base && k !in ov.fields ==> RewriteObject(base, ov, parents).value[k] == base[k]
  {
    var failing := set k | k in ov.fields && k in base && RewriteField(base[k], ov.fields[k], parents, k).Failure?;
    assert failing == {};
    forall k | k in base && k in ov.fields
      ensures RewriteField(base[k], ov.fields[k], parents, k).Success?
    {
      assert k !in failing;
    }
  }

  /** A key of the overwrite that the object lacks is skipped, and is no error. */
  lemma AbsentKeyIgnored(base: map<string, Json>, ov: Overwrite, parents: seq<string>, k: string)
    requires k in ov.fields && k !in base
    ensures RewriteObject(base, ov, parents) == RewriteObject(base, Overwrite(ov.fields - {k}), parents)
  {
    var ov' := Overwrite(ov.fields - {k});
    var failing := set k | k in ov.fields && k in base && RewriteField(base[k], ov.fields[k], parents, k).Failure?;
    var failing' := set k | k in ov'.fields && k in base && RewriteField(base[k], ov'.fields[k], parents, k).Failure?;
    assert failing == failing';
    assert forall k2 :: k2 in ov'.fields ==> ov'.fields[k2] == ov.fields[k2];
    if failing == {} {
      var m := map k | k in base :: if k in ov.fields then FieldValue(base[k], ov.fields[k], parents, k) else base[k];
      var m' := map k | k in base :: if k in ov'.fields then FieldValue(base[k], ov'.fields[k], parents, k) else base[k];
      assert m == m';
    } else {
      var errs := set k, e | k in failing && e in RewriteField(base[k], ov.fields[k], parents, k).error :: e;
      var errs' := set k, e | k in failing' && e in RewriteField(base[k], ov'.fields[k], parents, k).error :: e;
      assert errs == errs';
    }
  }

  /** An overwrite none of whose keys the object has leaves the object as it is. */
  lemma AbsentKeysUnchanged(base: map<string, Json>, ov: Overwrite, parents: seq<string>)
    requires forall k :: k in ov.fields ==> k !in base
    ensures RewriteObject(base, ov, parents) == Success(base)
  {
    ObjectSucceeds(base, ov, parents, base);
  }

  /**
   * A literal is stored whatever the field held before; the only ways a
   * rewrite with a literal fails are through the other keys.
   */
  lemma LiteralReplaces(base: map<string, Json>, ov: Overwrite, parents: seq<string>, k: string)
    requires k in base && k in ov.fields && ov.fields[k].Literal?
    requires RewriteObject(base, ov, parents).Success?
    ensures RewriteObject(base, ov, parents).value[k] == ov.fields[k].json
  {
    ObjectSucceeded(base, ov, parents);
  }

  /** A literal never fails, whatever the type of the value it replaces. */
  lemma LiteralNeverFails(cur: Json, j: Json, parents: seq<string>, k: string)
    ensures RewriteField(cur, Literal(j), parents, k) == Success(j)
  {
  }

  /** A nested overwrite on a field that is not an object fails, and names that key. */
  lemma NestedNeedsObject(base: map<string, Json>, ov: Overwrite, parents: seq<string>, k: string)
    requires k in base && k in ov.fields && ov.fields[k].Nested?
    requires !base[k].Obj?
    ensures RewriteObject(base, ov, parents).Failure?
    ensures NotAnObject(KeyPath(parents, k)) in RewriteObject(base, ov, parents).error
  {
    ObjectFails(base, ov, parents, k, NotAnObject(KeyPath(parents, k)));
  }

  /** A nested overwrite on an object field rewrites that sub-object with the nested keys. */
  lemma NestedRecurses(base: map<string, Json>, ov: Overwrite, parents: seq<string>, k: string)
    requires k in base && k in ov.fields && ov.fields[k].Nested?
    requires RewriteObject(base, ov, parents).Success?
    ensures base[k].Obj? && RewriteObject(base, ov, parents).value[k].Obj?
    ensures RewriteObject(base[k].fields, ov.fields[k].sub, parents + [k])
         == Success(RewriteObject(base, ov, parents).value[k].fields)
  {
    ObjectSucceeded(base, ov, parents);
  }

  /** An array overwrite on a field that is not an array fails, and names that key. */
  lemma ArrayOfNeedsArray(base: map<string, Json>, ov: Overwrite, parents: seq<string>, k: string)
    requires k in base && k in ov.fields && ov.fields[k].ArrayOf?
    requires !base[k].Arr?
    ensures RewriteObject(base, ov, parents).Failure?
    ensures NotAnArray(KeyPath(parents, k)) in RewriteObject(base, ov, parents).error
  {
    ObjectFails(base, ov, parents, k, NotAnArray(KeyPath(parents, k)));
  }

  /** An array overwrite never truncates or pads: unequal lengths fail. */
  lemma ArrayOfNeedsEqualLength(base: map<string, Json>, ov: Overwrite, parents: seq<string>, k: string)
    requires k in base && k in ov.fields && ov.fields[k].ArrayOf?
    requires base[k].Arr? && |base[k].elems| != |ov.fields[k].elems|
    ensures RewriteObject(base, ov, parents).Failure?
    ensures LengthMismatch(|base[k].elems|, |ov.fields[k].elems|, KeyPath(parents, k)) in RewriteObject(base, ov, parents).error
  {
    ObjectFails(base, ov, parents, k, LengthMismatch(|base[k].elems|, |ov.fields[k].elems|, KeyPath(parents, k)));
  }

  /** One step of a successful element rewrite: element i is an object, rewritten in front of the rest. */
  lemma ElementStep(elems: seq<Json>, ovs: seq<Overwrite>, parents: seq<string>, k: string, i: nat, v: Value, out: seq<Json>)
    requires v == ArrayOf(ovs) && |elems| == |ovs| && i < |ovs|
    requires RewriteElements(elems, ovs, parents, k, i, v) == Success(out)
    ensures elems[i].Obj? && RewriteObject(elems[i].fields, ovs[i], parents + [ElementKey(k, i)]).Success?
    ensures RewriteElements(elems, ovs, parents, k, i + 1, v).Success?
    ensures out == [Obj(RewriteObject(elems[i].fields, ovs[i], parents + [ElementKey(k, i)]).value)]
                   + RewriteElements(elems, ovs, parents, k, i + 1, v).value
  {
  }

  /** What the elements from index i on become when their rewrite succeeds. */
  lemma {:induction false} ElementsSucceeded(elems: seq<Json>, ovs: seq<Overwrite>, parents: seq<string>, k: string, i: nat, v: Value, out: seq<Json>)
    requires v == ArrayOf(ovs) && |elems| == |ovs| && i <= |ovs|
    requires RewriteElements(elems, ovs, parents, k, i, v) == Success(out)
    ensures |out| == |ovs| - i
    ensures forall j :: i <= j < |ovs| ==>
      elems[j].Obj? && out[j - i].Obj? &&
      RewriteObject(elems[j].fields, ovs[j], parents + [ElementKey(k, j)]) == Success(out[j - i].fields)
    decreases |ovs| - i
  {
    if i < |ovs| {
      ElementStep(elems, ovs, parents, k, i, v, out);
      var rest := RewriteElements(elems, ovs, parents, k, i + 1, v).value;
      ElementsSucceeded(elems, ovs, parents, k, i + 1, v, rest);
      forall j | i <= j < |ovs|
        ensures elems[j].Obj? && out[j - i].Obj?
        ensures RewriteObject(elems[j].fields, ovs[j], parents + [ElementKey(k, j)]) == Success(out[j - i].fields)
      {
        if j > i {
          assert elems[j].Obj? && rest[j - (i + 1)].Obj?;
          assert RewriteObject(elems[j].fields, ovs[j], parents + [ElementKey(k, j)]) == Success(rest[j - (i + 1)].fields);
          assert out[j - i] == rest[j - (i + 1)];
        } else {
          assert out[0] == Obj(RewriteObject(elems[i].fields, ovs[i], parents + [ElementKey(k, i)]).value);
        }
      }
    }
  }

  /**
   * An array overwrite of matching length rewrites element i of the field by
   * overwrite i, under the key k#i, and keeps the array's length; an element
   * that is not an object makes it fail.
   */
  lemma ArrayOfRecurses(base: map<string, Json>, ov: Overwrite, parents: seq<string>, k: string)
    requires k in base && k in ov.fields && ov.fields[k].ArrayOf?
    requires base[k].Arr? && |base[k].elems| == |ov.fields[k].elems|
    ensures (exists j :: 0 <= j < |base[k].elems| && !base[k].elems[j].Obj?) ==> RewriteObject(base, ov, parents).Failure?
    ensures RewriteObject(base, ov, parents).Success? ==>
      var out := RewriteObject(base, ov, parents).value[k];
      && out.Arr? && |out.elems| == |base[k].elems|
      && forall j :: 0 <= j < |out.elems| ==>
           base[k].elems[j].Obj? && out.elems[j].Obj? &&
           RewriteObject(base[k].elems[j].fields, ov.fields[k].elems[j], parents + [ElementKey(k, j)]) == Success(out.elems[j].fields)
  {
    var v := ov.fields[k];
    var elems := base[k].elems;
    if RewriteObject(base, ov, parents).Success? {
      ObjectSucceeded(base, ov, parents);
      assert RewriteElements(elems, v.elems, parents, k, 0, v) == Success(RewriteObject(base, ov, parents).value[k].elems);
      var out := RewriteObject(base, ov, parents).value[k].elems;
      ElementsSucceeded(elems, v.elems, parents, k, 0, v, out);
      forall j | 0 <= j < |elems|
        ensures elems[j].Obj? && out[j].Obj?
        ensures RewriteObject(elems[j].fields, v.elems[j], parents + [ElementKey(k, j)]) == Success(out[j].fields)
      {
        assert out[j - 0] == out[j];
      }
    }
  }

  /**
   * `after` has the keys of `before` at every level the overwrite reaches:
   * fields it does not name keep their values, literals are stored, and
   * nested objects and arrays of objects keep their keys and lengths.
   */
  ghost predicate KeepsKeys(before: map<string, Json>, ov: Overwrite, after: map<string, Json>)
    decreases ov, 0
  {
    && after.Keys == before.Keys
    && (forall k :: k in before && k !in ov.fields ==> after[k] == before[k])
    && (forall k :: k in before && k in ov.fields ==> FieldKeepsKeys(before[k], ov.fields[k], after[k]))
  }

  ghost predicate FieldKeepsKeys(before: Json, v: Value, after: Json)
    decreases v, 1
  {
    match v
    case Literal(j) => after == j
    case Nested(sub) => before.Obj? && after.Obj? && KeepsKeys(before.fields, sub, after.fields)
    case ArrayOf(ovs) =>
      && before.Arr? && after.Arr? && |before.elems| == |ovs| == |after.elems|
      && forall i :: 0 <= i < |ovs| ==>
           before.elems[i].Obj? && after.elems[i].Obj? && KeepsKeys(before.elems[i].fields, ovs[i], after.elems[i].fields)
  }

  /** A successful rewrite never adds or removes a key at any level. */
  lemma {:induction false} RewriteKeepsKeys(base: map<string, Json>, ov: Overwrite, parents: seq<string>)
    requires RewriteObject(base, ov, parents).Success?
    ensures KeepsKeys(base, ov, RewriteObject(base, ov, parents).value)
    decreases ov, 0
  {
    var r := RewriteObject(base, ov, parents).value;
    ObjectSucceeded(base, ov, parents);
    forall k | k in base && k in ov.fields
      ensures FieldKeepsKeys(base[k], ov.fields[k], r[k])
    {
      FieldRewriteKeepsKeys(base[k], ov.fields[k], parents, k);
    }
  }

  lemma {:induction false} FieldRewriteKeepsKeys(cur: Json, v: Value, parents: seq<string>, k: string)
    requires RewriteField(cur, v, parents, k).Success?
    ensures FieldKeepsKeys(cur, v, RewriteField(cur, v, parents, k).value)
    decreases v, 1
  {
    match v
    case Literal(_) =>
    case Nested(sub) =>
      RewriteKeepsKeys(cur.fields, sub, parents + [k]);
    case ArrayOf(ovs) =>
      var out := RewriteField(cur, v, parents, k).value.elems;
      ElementsSucceeded(cur.elems, ovs, parents, k, 0, v, out);
      forall i | 0 <= i < |ovs|
        ensures cur.elems[i].Obj? && out[i].Obj? && KeepsKeys(cur.elems[i].fields, ovs[i], out[i].fields)
      {
        assert out[i - 0] == out[i];
        RewriteKeepsKeys(cur.elems[i].fields, ovs[i], parents + [ElementKey(k, i)]);
      }
  }

  /** Applying an overwrite to the object it produced gives that object again. */
  lemma {:induction false} RewriteIdempotent(base: map<string, Json>, ov: Overwrite, parents: seq<string>)
    requires RewriteObject(base, ov, parents).Success?
    ensures RewriteObject(RewriteObject(base, ov, parents).value, ov, parents) == RewriteObject(base, ov, parents)
    decreases ov, 0
  {
    var r := RewriteObject(base, ov, parents).value;
    ObjectSucceeded(base, ov, parents);
    forall k | k in r && k in ov.fields
      ensures RewriteField(r[k], ov.fields[k], parents, k) == Success(r[k])
    {
      FieldRewriteIdempotent(base[k], ov.fields[k], parents, k);
    }
    ObjectSucceeds(r, ov, parents, r);
  }

  lemma {:induction false} FieldRewriteIdempotent(cur: Json, v: Value, parents: seq<string>, k: string)
    requires RewriteField(cur, v, parents, k).Success?
    ensures RewriteField(RewriteField(cur, v, parents, k).value, v, parents, k) == RewriteField(cur, v, parents, k)
    decreases v, 1
  {
    var next := RewriteField(cur, v, parents, k).value;
    match v
    case Literal(_) =>
    case Nested(sub) =>
      RewriteIdempotent(cur.fields, sub, parents + [k]);
    case ArrayOf(ovs) =>
      ElementsSucceeded(cur.elems, ovs, parents, k, 0, v, next.elems);
      ElementsIdempotent(cur.elems, ovs, parents, k, 0, v, next.elems);
      assert next.elems[0..] == next.elems;
  }

  lemma {:induction false} ElementsIdempotent(elems: seq<Json>, ovs: seq<Overwrite>, parents: seq<string>, k: string, i: nat, v: Value, out: seq<Json>)
    requires v == ArrayOf(ovs) && |elems| == |ovs| == |out| && i <= |ovs|
    requires RewriteElements(elems, ovs, parents, k, i, v) == Success(out[i..])
    ensures RewriteElements(out, ovs, parents, k, i, v) == Success(out[i..])
    decreases v, 0, |ovs| - i
  {
    if i < |ovs| {
      var kk := ElementKey(k, i);
      var m := RewriteObject(elems[i].fields, ovs[i], parents + [kk]).value;
      var rest := RewriteElements(elems, ovs, parents, k, i + 1, v).value;
      assert out[i..] == [Obj(m)] + rest;
      assert out[i..][0] == out[i] && out[i..][1..] == out[i + 1..];
      assert out[i] == Obj(m) && rest == out[i + 1..];
      RewriteIdempotent(elems[i].fields, ovs[i], parents + [kk]);
      ElementsIdempotent(elems, ovs, parents, k, i + 1, v, out);
      assert out[i..] == [out[i]] + out[i + 1..];
    }
  }

  /** An overwrite of literals only never fails: every present key takes its literal, the rest is kept. */
  lemma LiteralsOnly(base: map<string, Json>, ov: Overwrite, parents: seq<string>)
    requires forall k :: k in ov.fields ==> ov.fields[k].Literal?
    ensures RewriteObject(base, ov, parents)
         == Success(map k | k in base :: if k in ov.fields then ov.fields[k].json else base[k])
  {
    var result := map k | k in base :: if k in ov.fields then ov.fields[k].json else base[k];
    ObjectSucceeds(base, ov, parents, result);
  }

  /** The float64 with the value of the int literal 1677136520, the timestamp TestUserPostEndpoint pins. */
  const CreatedTime: Float64 := 0x41D8_FDC4_A200_0000

  lemma TwoToThe22()
    ensures Pow2(22) == 0x40_0000
  {
    Pow2Add(1, 1);
    Pow2Add(2, 2);
    Pow2Add(4, 4);
    Pow2Add(8, 8);
    Pow2Add(16, 4);
    Pow2Add(20, 2);
  }

  lemma CreatedTimeValue()
    ensures Float64Value(CreatedTime) == 1677136520.0
  {
    var x := CreatedTime as int;
    assert x / 0x10_0000_0000_0000 == 1053;
    assert x % 0x10_0000_0000_0000 == 2530820787011584;
    TwoToThe22();
    assert (0x10_0000_0000_0000 + 2530820787011584) as real / 0x40_0000 as real == 1677136520.0;
  }

  /**
   * The overwrite of TestUserPostEndpoint: a response that carries a
   * created_time gets the fixed timestamp 1677136520 and keeps everything
   * else, so its golden file does not depend on the clock.
   */
  lemma CreatedTimePinned(base: map<string, Json>)
    requires "created_time" in base
    ensures var pin := Overwrite(map["created_time" := Literal(Num(CreatedTime))]);
            RewriteObject(base, pin, []) == Success(base["created_time" := Num(CreatedTime)])
  {
    var pin := Overwrite(map["created_time" := Literal(Num(CreatedTime))]);
    LiteralsOnly(base, pin, []);
    assert (map k | k in base :: if k in pin.fields then pin.fields[k].json else base[k])
        == base["created_time" := Num(CreatedTime)];
  }
}
