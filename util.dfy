/**
 * `add_param_to_url`: appends an optional query parameter to a URL only when it is present.
 * Also what it means for a finished query to carry a parameter.
 */
module Util {
  import opened Wrappers
  import opened Http

  /** The pairs that adding the optional parameter `name` contributes: one if present, none if absent. */
  function Param(name: string, value: Option<string>): seq<Pair> {
    if value.Some? then [(name, value.value)] else []
  }

  /** `add_param_to_url(url, name, value)` */
  method AddParamToUrl(url: Url, name: string, value: Option<string>)
    modifies url
    ensures url.query == old(url.query) + Param(name, value)
  {
    if value.Some? {
      url.AppendPair(name, value.value);
    }
  }

  /** No pair of `q` has key `key`. */
  predicate Lacks(q: seq<Pair>, key: string) {
    forall i | 0 <= i < |q| :: q[i].0 != key
  }

  /**
   * The query carries parameter `key` as `value` says: with value None no pair has that key;
   * with Some(v) exactly one pair has that key, and it is (key, v).
   */
  predicate Carries(q: seq<Pair>, key: string, value: Option<string>) {
    match value
    case None => Lacks(q, key)
    case Some(v) =>
      exists i | 0 <= i < |q| :: q[i] == (key, v) && Lacks(q[..i], key) && Lacks(q[i + 1..], key)
  }

  /**
   * What adding one optional parameter does to a query: nothing when absent; when present,
   * one more pair, at the end, with every earlier pair kept in place.
   */
  lemma ParamExtends(q: seq<Pair>, name: string, value: Option<string>)
    ensures value.None? ==> q + Param(name, value) == q
    ensures value.Some? ==>
      var q' := q + Param(name, value);
      |q'| == |q| + 1 && q'[..|q|] == q && q'[|q|] == (name, value.value)
  {
  }

  /** A parameter placed between pairs of other keys is carried exactly as given. */
  lemma CarriedBetween(before: seq<Pair>, name: string, value: Option<string>, after: seq<Pair>)
    requires Lacks(before, name) && Lacks(after, name)
    ensures Carries(before + Param(name, value) + after, name, value)
  {
    var q := before + Param(name, value) + after;
    if value.Some? {
      var i := |before|;
      assert q[i] == (name, value.value);
      assert q[..i] == before;
      assert q[i + 1..] == after;
    }
  }

  lemma LacksConcat(a: seq<Pair>, b: seq<Pair>, key: string)
    ensures Lacks(a + b, key) <==> Lacks(a, key) && Lacks(b, key)
  {
    if Lacks(a, key) && Lacks(b, key) {
      forall i | 0 <= i < |a + b| ensures (a + b)[i].0 != key {
        if i >= |a| { assert (a + b)[i] == b[i - |a|]; }
      }
    }
    if Lacks(a + b, key) {
      forall i | 0 <= i < |a| ensures a[i].0 != key {
        assert (a + b)[i] == a[i];
      }
      forall i | 0 <= i < |b| ensures b[i].0 != key {
        assert (a + b)[|a| + i] == b[i];
      }
    }
  }

  lemma ParamLacksOther(name: string, value: Option<string>, key: string)
    requires name != key
    ensures Lacks(Param(name, value), key)
  {
  }

  /** Two copies of the same pair do not carry that parameter exactly once. */
  lemma DuplicateNotCarried(name: string, v: string)
    ensures !Carries([(name, v), (name, v)], name, Some(v))
  {
    var q := [(name, v), (name, v)];
    forall i | 0 <= i < |q| && q[i] == (name, v)
      ensures !(Lacks(q[..i], name) && Lacks(q[i + 1..], name))
    {
      if i == 0 { assert q[i + 1..][0] == q[1]; } else { assert q[..i][0] == q[0]; }
    }
  }

  /**
   * Adding the same present parameter twice to a fresh URL leaves two identical pairs:
   * the operation appends and never replaces, so it is not idempotent.
   */
  method AddTwice(name: string, v: string) returns (q: seq<Pair>)
    ensures q == [(name, v), (name, v)]
    ensures !Carries(q, name, Some(v))
  {
    var url := new Url.Parse("");
    AddParamToUrl(url, name, Some(v));
    AddParamToUrl(url, name, Some(v));
    q := url.query;
    DuplicateNotCarried(name, v);
  }

  /** One optional parameter of an endpoint: its name and its rendered value, if any. */
  type QueryField = (string, Option<string>)

  /**
   * The query obtained by adding each field in turn with `add_param_to_url`: the query of all
   * fields but the last, followed by what the last one adds.
   */
  function Params(fields: seq<QueryField>): seq<Pair>
    decreases |fields|
  {
    if fields == [] then []
    else
      var last := fields[|fields| - 1];
      Params(fields[..|fields| - 1]) + Param(last.0, last.1)
  }

  predicate DistinctNames(fields: seq<QueryField>) {
    forall i, j | 0 <= i < j < |fields| :: fields[i].0 != fields[j].0
  }

  /** Adding one more field extends the query by exactly what `add_param_to_url` appends. */
  lemma ParamsSnoc(fields: seq<QueryField>, f: QueryField)
    ensures Params(fields + [f]) == Params(fields) + Param(f.0, f.1)
  {
    assert (fields + [f])[..|fields|] == fields;
  }

  /** A name no field has is not carried at all. */
  lemma {:induction false} ParamsLack(fields: seq<QueryField>, key: string)
    requires forall i | 0 <= i < |fields| :: fields[i].0 != key
    ensures Lacks(Params(fields), key)
    decreases |fields|
  {
    if fields != [] {
      var n := |fields| - 1;
      ParamsLack(fields[..n], key);
      LacksConcat(Params(fields[..n]), Param(fields[n].0, fields[n].1), key);
    }
  }

  /** With distinct names, every field is carried exactly as its value says: present once, or absent. */
  lemma {:induction false} ParamsCarry(fields: seq<QueryField>, i: nat)
    requires DistinctNames(fields) && i < |fields|
    ensures Carries(Params(fields), fields[i].0, fields[i].1)
    decreases |fields|
  {
    var n := |fields| - 1;
    var prefix := fields[..n];
    var tail := Param(fields[n].0, fields[n].1);
    if i == n {
      ParamsLack(prefix, fields[n].0);
      CarriedBetween(Params(prefix), fields[n].0, fields[n].1, []);
      assert Params(fields) == Params(prefix) + tail + [];
    } else {
      assert prefix[i] == fields[i];
      ParamsCarry(prefix, i);
      ParamLacksOther(fields[n].0, fields[n].1, fields[i].0);
      CarriesBefore(Params(prefix), tail, fields[i].0, fields[i].1);
    }
  }

  /** Pairs that lack a key, put after, do not change how that key is carried. */
  lemma CarriesBefore(q: seq<Pair>, after: seq<Pair>, key: string, value: Option<string>)
    requires Carries(q, key, value) && Lacks(after, key)
    ensures Carries(q + after, key, value)
  {
    LacksConcat(q, after, key);
    if value.Some? {
      var i :| 0 <= i < |q| && q[i] == (key, value.value) && Lacks(q[..i], key) && Lacks(q[i + 1..], key);
      var r := q + after;
      assert r[i] == q[i];
      assert r[..i] == q[..i];
      assert r[i + 1..] == q[i + 1..] + after;
      LacksConcat(q[i + 1..], after, key);
    }
  }

  /** The query lists earlier fields' pairs before later fields' pairs: order is the field order. */
  lemma {:induction false} ParamsInOrder(fields: seq<QueryField>, k: nat)
    requires k <= |fields|
    ensures Params(fields) == Params(fields[..k]) + Params(fields[k..])
    decreases |fields|
  {
    if k == |fields| {
      assert fields[..k] == fields;
      assert fields[k..] == [];
    } else {
      var n := |fields| - 1;
      var tail := Param(fields[n].0, fields[n].1);
      ParamsInOrder(fields[..n], k);
      assert fields[..n][..k] == fields[..k];
      assert fields[..n][k..] == fields[k..n];
      assert fields[k..][..|fields[k..]| - 1] == fields[k..n];
      assert fields[k..][|fields[k..]| - 1] == fields[n];
      assert Params(fields[k..]) == Params(fields[k..n]) + tail;
      AppendAssoc(Params(fields[..k]), Params(fields[k..n]), tail);
    }
  }

  lemma AppendAssoc(a: seq<Pair>, b: seq<Pair>, c: seq<Pair>)
    ensures (a + b) + c == a + (b + c)
  {
  }

  /** Every pair of the query comes from one of the fields: no key appears that no field names. */
  lemma {:induction false} ParamsKeysFrom(fields: seq<QueryField>, j: nat)
    requires j < |Params(fields)|
    ensures exists k | 0 <= k < |fields| :: fields[k].1.Some? && Params(fields)[j] == (fields[k].0, fields[k].1.value)
    decreases |fields|
  {
    var n := |fields| - 1;
    var prefix := fields[..n];
    if j < |Params(prefix)| {
      ParamsKeysFrom(prefix, j);
      var k :| 0 <= k < |prefix| && prefix[k].1.Some? && Params(prefix)[j] == (prefix[k].0, prefix[k].1.value);
      assert prefix[k] == fields[k];
      assert Params(fields)[j] == Params(prefix)[j];
    } else {
      assert Params(fields)[j] == (fields[n].0, fields[n].1.value);
    }
  }

  /** Params of a two-field list, spelt out. */
  lemma ParamsOfTwo(a: QueryField, b: QueryField)
    ensures Params([a, b]) == Param(a.0, a.1) + Param(b.0, b.1)
  {
    ParamsSnoc([], a);
    ParamsSnoc([a], b);
    assert [a] == [] + [a];
    assert [a, b] == [a] + [b];
  }

  /** Params of a five-field list, in the shape five successive additions to an empty query leave. */
  lemma ParamsOfFive(a: QueryField, b: QueryField, c: QueryField, d: QueryField, e: QueryField)
    ensures Params([a, b, c, d, e]) == [] + Param(a.0, a.1) + Param(b.0, b.1) + Param(c.0, c.1)
      + Param(d.0, d.1) + Param(e.0, e.1)
  {
    ParamsSnoc([], a);
    ParamsSnoc([a], b);
    ParamsSnoc([a, b], c);
    ParamsSnoc([a, b, c], d);
    ParamsSnoc([a, b, c, d], e);
    assert [a] == [] + [a];
    assert [a, b] == [a] + [b];
    assert [a, b, c] == [a, b] + [c];
    assert [a, b, c, d] == [a, b, c] + [d];
    assert [a, b, c, d, e] == [a, b, c, d] + [e];
  }

  /** Params of a seven-field list, in the shape seven successive additions to an empty query leave. */
  lemma ParamsOfSeven(a: QueryField, b: QueryField, c: QueryField, d: QueryField, e: QueryField,
                      f: QueryField, g: QueryField)
    ensures Params([a, b, c, d, e, f, g]) == [] + Param(a.0, a.1) + Param(b.0, b.1) + Param(c.0, c.1)
      + Param(d.0, d.1) + Param(e.0, e.1) + Param(f.0, f.1) + Param(g.0, g.1)
  {
    ParamsOfFive(a, b, c, d, e);
    ParamsSnoc([a, b, c, d, e], f);
    ParamsSnoc([a, b, c, d, e, f], g);
    assert [a, b, c, d, e, f] == [a, b, c, d, e] + [f];
    assert [a, b, c, d, e, f, g] == [a, b, c, d, e, f] + [g];
  }
}
