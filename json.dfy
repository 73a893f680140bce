/** Decoded JSON values as Python holds them after `response.json()`:
    objects are insertion-ordered dictionaries with string keys. */
module Json {
  import opened Wrappers

  datatype Json =
    | JNull
    | JBool(b: bool)
    | JNumber(literal: string)  // opaque: no arithmetic is ever done on numbers
    | JString(s: string)
    | JArray(items: seq<Json>)
    | JObject(fields: Fields)

  /** The entries of a dictionary in insertion order. */
  type Fields = seq<(string, Json)>

  function Keys(f: Fields): (ks: seq<string>)
    ensures |ks| == |f|
    ensures forall i :: 0 <= i < |f| ==> ks[i] == f[i].0
  {
    seq(|f|, i requires 0 <= i < |f| => f[i].0)
  }

  /** No key occurs twice, as in every Python dictionary. */
  predicate DistinctKeys(f: Fields)
  {
    forall i, j :: 0 <= i < j < |f| ==> f[i].0 != f[j].0
  }

  /** `d[k]` when `k in d`, and `None` otherwise. */
  function Get(f: Fields, k: string): (r: Option<Json>)
    ensures r.Some? <==> k in Keys(f)
  {
    if f == [] then None
    else if f[0].0 == k then Some(f[0].1)
    else
      KeysCons(f);
      Get(f[1..], k)
  }

  /** The value `d[k]` gives is the one paired with the first entry whose
      key is `k`. */
  lemma {:induction false} GetFinds(f: Fields, k: string)
    ensures Get(f, k).Some? ==>
      exists i :: 0 <= i < |f| && f[i] == (k, Get(f, k).value) && forall j :: 0 <= j < i ==> f[j].0 != k
  {
    if f != [] && f[0].0 != k && Get(f, k).Some? {
      var v := Get(f, k).value;
      GetFinds(f[1..], k);
      var i :| 0 <= i < |f[1..]| && f[1..][i] == (k, v) && forall j :: 0 <= j < i ==> f[1..][j].0 != k;
      assert f[i + 1] == (k, v);
      forall j | 0 <= j < i + 1 ensures f[j].0 != k {
        if j > 0 { assert f[j] == f[1..][j - 1]; }
      }
    }
  }

  lemma KeysCons(f: Fields)
    requires f != []
    ensures Keys(f) == [f[0].0] + Keys(f[1..])
  {
  }

  /** Python's `d.get(k, default)`. */
  function GetOr(f: Fields, k: string, default: Json): (r: Json)
    ensures k in Keys(f) ==> Some(r) == Get(f, k)
    ensures k !in Keys(f) ==> r == default
  {
    match Get(f, k)
    case Some(v) => v
    case None => default
  }

  /** Python's `d[k] = v`: an existing key keeps its position and takes the
      new value; a new key goes to the end. */
  function Put(f: Fields, k: string, v: Json): (r: Fields)
    ensures Keys(r) == if k in Keys(f) then Keys(f) else Keys(f) + [k]
  {
    if f == [] then [(k, v)]
    else if f[0].0 == k then
      var r := [(k, v)] + f[1..];
      assert Keys(r) == Keys(f);
      r
    else
      var tail := Put(f[1..], k, v);
      var r := [f[0]] + tail;
      KeysCons(f);
      KeysCons(r);
      assert r[1..] == tail;
      r
  }

  /** After `d[k] = v`, `d[k]` is `v` and every other key reads as before. */
  lemma {:induction false} PutGet(f: Fields, k: string, v: Json, k': string)
    ensures Get(Put(f, k, v), k') == if k' == k then Some(v) else Get(f, k')
  {
    if f != [] && f[0].0 != k {
      PutGet(f[1..], k, v, k');
      assert Put(f, k, v)[1..] == Put(f[1..], k, v);
    }
  }

  /** The dictionary display `{**base, **extra}`: the entries of `extra`
      assigned one by one, in order, over `base`. */
  function Merge(base: Fields, extra: Fields): Fields
    decreases |extra|
  {
    if extra == [] then base
    else Merge(Put(base, extra[0].0, extra[0].1), extra[1..])
  }

  /** Every key of the merge comes from one side, every key of either side is
      in the merge, and the keys of `base` stay where they were. */
  lemma {:induction false} MergeKeys(base: Fields, extra: Fields)
    ensures forall k :: k in Keys(Merge(base, extra)) <==> k in Keys(base) || k in Keys(extra)
    ensures |Merge(base, extra)| >= |base|
    ensures forall i :: 0 <= i < |base| ==> Merge(base, extra)[i].0 == base[i].0
    decreases |extra|
  {
    if extra != [] {
      var next := Put(base, extra[0].0, extra[0].1);
      MergeKeys(next, extra[1..]);
      KeysCons(extra);
      assert forall i :: 0 <= i < |base| ==> next[i].0 == base[i].0 by {
        assert Keys(next)[..|base|] == Keys(base);
      }
    }
  }

  /** A key given in `extra` takes its value from `extra` (the later entry wins);
      any other key keeps its value from `base`. */
  lemma {:induction false} MergeGet(base: Fields, extra: Fields, k: string)
    requires DistinctKeys(extra)
    ensures k in Keys(extra) ==> Get(Merge(base, extra), k) == Get(extra, k)
    ensures k !in Keys(extra) ==> Get(Merge(base, extra), k) == Get(base, k)
    decreases |extra|
  {
    if extra != [] {
      var next := Put(base, extra[0].0, extra[0].1);
      KeysCons(extra);
      assert DistinctKeys(extra[1..]);
      MergeGet(next, extra[1..], k);
      PutGet(base, extra[0].0, extra[0].1, k);
      if k == extra[0].0 {
        assert k !in Keys(extra[1..]);
      }
    }
  }

  /** Python's `repr` of a decoded JSON value (string escapes not modelled). */
  function Repr(j: Json): string
    decreases j, 1
  {
    match j
    case JNull => "None"
    case JBool(b) => if b then "True" else "False"
    case JNumber(lit) => lit
    case JString(s) => "'" + s + "'"
    case JArray(items) => "[" + ReprItems(items) + "]"
    case JObject(fields) => "{" + ReprFields(fields) + "}"
  }

  function ReprItems(items: seq<Json>): string
    decreases items, 0
  {
    if items == [] then ""
    else if |items| == 1 then Repr(items[0])
    else Repr(items[0]) + ", " + ReprItems(items[1..])
  }

  function ReprFields(fields: Fields): string
    decreases fields, 0
  {
    if fields == [] then ""
    else
      var (name, value) := fields[0];
      assert value < fields[0];
      var entry := "'" + name + "': " + Repr(value);
      if |fields| == 1 then entry else entry + ", " + ReprFields(fields[1..])
  }

  /** Python's `str` of a decoded JSON value: a string is itself, anything
      else is its `repr`. */
  function Str(j: Json): (r: string)
    ensures j.JString? ==> r == j.s
  {
    if j.JString? then j.s else Repr(j)
  }

  /** `repr` of a one-entry dictionary holding a string. */
  lemma MessageObjectRepr()
    ensures Repr(JObject([("message", JString("bad"))])) == "{'message': 'bad'}"
  {
  }
}
