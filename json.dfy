/**
 * Decoded JSON as the library sees it after `encoding/json` has unmarshalled
 * a body into `map[string]any`, and the codec as a record of functions.
 */
module Json {
  import opened Wrappers

  newtype byte = x: int | 0 <= x < 256

  type Bytes = seq<byte>

  /**
   * A JSON number as `encoding/json` decodes it into `any`: a finite float64
   * (JSON has no NaN or infinity), held as its IEEE 754 bit pattern, so that
   * two numbers are equal exactly when Go's float64 values are bit-identical
   * (so 0 and -0 differ, as they do in what Go encodes).
   */
  newtype Float64 = bits: int | 0 <= bits < 0x1_0000_0000_0000_0000 && bits / 0x10_0000_0000_0000 % 0x800 != 0x7FF

  function Pow2(n: nat): (p: nat)
    ensures p > 0
  {
    if n == 0 then 1 else 2 * Pow2(n - 1)
  }

  lemma {:induction false} Pow2Add(a: nat, b: nat)
    ensures Pow2(a + b) == Pow2(a) * Pow2(b)
  {
    if a > 0 {
      Pow2Add(a - 1, b);
    }
  }

  /** The number a float64 stands for: sign, then significand times a power of two. */
  function Float64Value(x: Float64): real {
    var negative := x as int >= 0x8000_0000_0000_0000;
    var exponent := x as int / 0x10_0000_0000_0000 % 0x800;
    var fraction := x as int % 0x10_0000_0000_0000;
    var significand := if exponent == 0 then fraction else 0x10_0000_0000_0000 + fraction;
    var scale := (if exponent == 0 then 1 else exponent) - 1075;
    var magnitude :=
      if scale >= 0 then (significand * Pow2(scale)) as real
      else significand as real / Pow2(-scale) as real;
    if negative then -magnitude else magnitude
  }

  /** A decoded JSON value. */
  datatype Json =
    | Null
    | Bool(b: bool)
    | Num(n: Float64)
    | Str(s: string)
    | Arr(elems: seq<Json>)
    | Obj(fields: map<string, Json>)

  /**
   * The parts of `encoding/json` that the filters call. Their internals are
   * not modelled; a caller supplies them.
   *   unmarshal     json.Unmarshal(body, &map[string]any{}); None is an error
   *   decodeFirst   json.NewDecoder(body).Decode(&map[string]any{})
   *   encode        json.NewEncoder(buf).Encode(&m)
   *   marshalIndent json.MarshalIndent(&m, "", "  ")
   */
  datatype Codec = Codec(
    unmarshal: Bytes -> Option<map<string, Json>>,
    decodeFirst: Bytes -> Option<map<string, Json>>,
    encode: map<string, Json> -> Bytes,
    marshalIndent: map<string, Json> -> Bytes)

  /**
   * Reading back what MarshalIndent wrote gives the same object. Go's
   * encoder writes every finite float64 in a form that parses back to the
   * same float64, and every string (a sequence of Unicode scalar values) as
   * valid UTF-8 that decodes to the same string. That holds for objects
   * nested at most 10000 levels deep; deeper ones MarshalIndent refuses, an
   * encode error that the model leaves out.
   */
  ghost predicate IndentRoundTrips(c: Codec) {
    forall m :: c.unmarshal(c.marshalIndent(m)) == Some(m)
  }

  /**
   * Reading back what the Encoder wrote gives the same object. Go's codec
   * meets this for objects nested at most 10000 levels deep: the Encoder
   * writes deeper ones, but the Decoder rejects them.
   */
  ghost predicate EncodeRoundTrips(c: Codec) {
    forall m :: c.decodeFirst(c.encode(m)) == Some(m)
  }
}
