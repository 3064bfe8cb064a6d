/**
 * A JSON value in the shape of `serde_json::Value`, the accessors the endpoints call on it
 * (`get`, `as_bool`, `as_str`, `as_array`), and what `serde_json::from_value` does for the
 * field types the payload structs use: a required field must be present with the right
 * kind, an `Option` field may be absent or null, unknown fields are ignored.
 */
module Json {
  import opened Wrappers
  import opened Numeric

  /** A parsed JSON value; JInt is an integral number, JFloat any other number. */
  datatype Json =
    | JNull
    | JBool(b: bool)
    | JInt(i: int)
    | JFloat(f: real)
    | JStr(s: string)
    | JArr(elems: seq<Json>)
    | JObj(members: map<string, Json>)

  /** `Value::get(key)`: the member of an object; None for a missing key or a non-object. */
  function Get(v: Json, key: string): Option<Json> {
    if v.JObj? && key in v.members then Some(v.members[key]) else None
  }

  /** `Value::as_bool` */
  function AsBool(v: Json): Option<bool> {
    if v.JBool? then Some(v.b) else None
  }

  /** `Value::as_str` */
  function AsStr(v: Json): Option<string> {
    if v.JStr? then Some(v.s) else None
  }

  /** `Value::as_array` */
  function AsArray(v: Json): Option<seq<Json>> {
    if v.JArr? then Some(v.elems) else None
  }

  // ---- serde_json::from_value for the target types the payloads use ----

  /** Deserialising an `i32`: an integral number within range. */
  function ToI32(v: Json): Option<i32> {
    if v.JInt? && InI32(v.i) then Some(v.i as i32) else None
  }

  /** Deserialising an `i64`: an integral number within range. */
  function ToI64(v: Json): Option<i64> {
    if v.JInt? && InI64(v.i) then Some(v.i as i64) else None
  }

  /** Deserialising a `Vec<T>`: an array whose every element deserialises. */
  function ToSeq<T>(v: Json, dec: Json -> Option<T>): Option<seq<T>> {
    if v.JArr? then ElemsTo(v.elems, dec) else None
  }

  function ElemsTo<T>(es: seq<Json>, dec: Json -> Option<T>): Option<seq<T>>
    decreases |es|
  {
    if es == [] then Some([])
    else
      var x :- dec(es[0]);
      var xs :- ElemsTo(es[1..], dec);
      Some([x] + xs)
  }

  /** Deserialising a `Vec<String>`. */
  function ToStrSeq(v: Json): Option<seq<string>> {
    ToSeq(v, AsStr)
  }

  /** Deserialising a `HashMap<String, String>`: an object whose every member is a string. */
  function ToStrMap(v: Json): Option<map<string, string>> {
    if v.JObj? && forall k | k in v.members :: v.members[k].JStr? then
      Some(map k | k in v.members :: v.members[k].s)
    else None
  }

  /** A required struct field. */
  function Required<T>(m: map<string, Json>, key: string, dec: Json -> Option<T>): Option<T> {
    if key in m then dec(m[key]) else None
  }

  /** An `Option<T>` struct field: absent or null gives None, anything else must deserialise. */
  function Optional<T>(m: map<string, Json>, key: string, dec: Json -> Option<T>): Option<Option<T>> {
    if key !in m || m[key] == JNull then Some(None)
    else
      var x :- dec(m[key]);
      Some(Some(x))
  }

  // ---- serialisation, the partner of the decoders above ----

  function FromElems<T>(xs: seq<T>, enc: T -> Json): seq<Json>
    decreases |xs|
  {
    if xs == [] then [] else [enc(xs[0])] + FromElems(xs[1..], enc)
  }

  function FromStrSeq(xs: seq<string>): Json {
    JArr(FromElems(xs, s => JStr(s)))
  }

  function FromStrMap(m: map<string, string>): Json {
    JObj(map k | k in m :: JStr(m[k]))
  }

  /** Serialising an optional field: None leaves the field out. */
  function WithOptional(m: map<string, Json>, key: string, x: Option<Json>): map<string, Json> {
    if x.Some? then m[key := x.value] else m
  }

  /** Deserialising the serialisation of a sequence gives it back, if it does so element-wise. */
  lemma {:induction false} ElemsRoundTrip<T>(xs: seq<T>, enc: T -> Json, dec: Json -> Option<T>)
    requires forall i | 0 <= i < |xs| :: dec(enc(xs[i])) == Some(xs[i])
    ensures ElemsTo(FromElems(xs, enc), dec) == Some(xs)
    decreases |xs|
  {
    if xs != [] {
      assert dec(enc(xs[0])) == Some(xs[0]);
      ElemsRoundTrip(xs[1..], enc, dec);
      assert [xs[0]] + xs[1..] == xs;
    }
  }

  /** A deserialised sequence has one element per array element, each deserialised on its own. */
  lemma {:induction false} ElemsToPointwise<T>(es: seq<Json>, dec: Json -> Option<T>)
    ensures ElemsTo(es, dec).Some? <==> forall i | 0 <= i < |es| :: dec(es[i]).Some?
    ensures ElemsTo(es, dec).Some? ==>
      |ElemsTo(es, dec).value| == |es| &&
      forall i | 0 <= i < |es| :: dec(es[i]) == Some(ElemsTo(es, dec).value[i])
    decreases |es|
  {
    if es != [] {
      ElemsToPointwise(es[1..], dec);
      if dec(es[0]).Some? && ElemsTo(es[1..], dec).Some? {
        forall i | 0 <= i < |es| ensures dec(es[i]) == Some(ElemsTo(es, dec).value[i]) {
          if i > 0 { assert es[i] == es[1..][i - 1]; }
        }
      } else if dec(es[0]).Some? {
        var i :| 0 <= i < |es[1..]| && dec(es[1..][i]).None?;
        assert dec(es[i + 1]).None?;
      }
    }
  }

  /** Serialising a sequence writes one array element per element, in order. */
  lemma {:induction false} FromElemsPointwise<T>(xs: seq<T>, enc: T -> Json)
    ensures |FromElems(xs, enc)| == |xs|
    ensures forall i | 0 <= i < |xs| :: FromElems(xs, enc)[i] == enc(xs[i])
    decreases |xs|
  {
    if xs != [] {
      FromElemsPointwise(xs[1..], enc);
      assert forall i | 1 <= i < |xs| :: xs[i] == xs[1..][i - 1];
    }
  }

  lemma StrSeqRoundTrip(xs: seq<string>)
    ensures ToStrSeq(FromStrSeq(xs)) == Some(xs)
  {
    ElemsRoundTrip(xs, s => JStr(s), AsStr);
  }

  lemma StrMapRoundTrip(m: map<string, string>)
    ensures ToStrMap(FromStrMap(m)) == Some(m)
  {
    var members := FromStrMap(m).members;
    assert forall k | k in members :: members[k] == JStr(m[k]);
    var back := map k | k in members :: members[k].s;
    assert back.Keys == m.Keys;
    assert back == m;
  }
}
