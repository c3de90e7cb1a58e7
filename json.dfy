/**
 * JavaScript values as the controllers see them. An object is the sequence of
 * its own (key, value) pairs in enumeration order, so `Object.keys` order is kept.
 */
module Json {

  datatype Value =
    | Undefined
    | Null
    | Bool(b: bool)
    | Num(n: int)
    | Str(s: string)
    | Arr(items: seq<Value>)
    | Obj(fields: seq<(string, Value)>)

  /** The own properties of an object, in enumeration order. */
  type Fields = seq<(string, Value)>

  /** `Object.keys(f)`. */
  function Keys(f: Fields): (ks: seq<string>)
    ensures |ks| == |f|
    ensures forall i :: 0 <= i < |f| ==> ks[i] == f[i].0
  {
    if f == [] then [] else [f[0].0] + Keys(f[1..])
  }

  /** A JavaScript object never holds the same key twice. */
  predicate DistinctKeys(f: Fields) {
    forall i, j :: 0 <= i < j < |f| ==> f[i].0 != f[j].0
  }

  /** Property access `f[k]`: `undefined` when the key is absent. */
  function Lookup(f: Fields, k: string): (v: Value)
    ensures k !in Keys(f) ==> v == Undefined
  {
    if f == [] then Undefined
    else if f[0].0 == k then f[0].1
    else Lookup(f[1..], k)
  }

  /**
   * Defining property `k` as in an object literal: an existing key keeps its
   * place and takes the new value, a new key goes last.
   */
  function Put(f: Fields, k: string, v: Value): (r: Fields)
    ensures Lookup(r, k) == v
    ensures forall j :: j != k ==> Lookup(r, j) == Lookup(f, j)
    ensures Keys(r) == if k in Keys(f) then Keys(f) else Keys(f) + [k]
  {
    if f == [] then
      assert Lookup([(k, v)], k) == v;
      [(k, v)]
    else if f[0].0 == k then
      PutHead(f[0], f[1..], v);
      assert [f[0]] + f[1..] == f;
      [(k, v)] + f[1..]
    else
      var rest := Put(f[1..], k, v);
      PutTail(f[0], f[1..], k, v, rest);
      assert [f[0]] + f[1..] == f;
      [f[0]] + rest
  }

  /** Redefining the first key replaces its value in place. */
  lemma PutHead(p: (string, Value), f: Fields, v: Value)
    ensures Lookup([(p.0, v)] + f, p.0) == v
    ensures forall j :: j != p.0 ==> Lookup([(p.0, v)] + f, j) == Lookup([p] + f, j)
    ensures Keys([(p.0, v)] + f) == Keys([p] + f) && p.0 in Keys([p] + f)
  {
    LookupCons((p.0, v), f);
    LookupCons(p, f);
    KeysCons((p.0, v), f);
    KeysCons(p, f);
  }

  /** Defining a key behind a different first key leaves that first pair in front. */
  lemma PutTail(p: (string, Value), f: Fields, k: string, v: Value, rest: Fields)
    requires p.0 != k
    requires Lookup(rest, k) == v
    requires forall j :: j != k ==> Lookup(rest, j) == Lookup(f, j)
    requires Keys(rest) == if k in Keys(f) then Keys(f) else Keys(f) + [k]
    ensures Lookup([p] + rest, k) == v
    ensures forall j :: j != k ==> Lookup([p] + rest, j) == Lookup([p] + f, j)
    ensures Keys([p] + rest) == if k in Keys([p] + f) then Keys([p] + f) else Keys([p] + f) + [k]
  {
    PutTailLookup(p, f, k, v, rest);
    PutTailKeys(p, Keys(f), k, Keys(rest));
    KeysCons(p, rest);
    KeysCons(p, f);
  }

  lemma PutTailLookup(p: (string, Value), f: Fields, k: string, v: Value, rest: Fields)
    requires p.0 != k
    requires Lookup(rest, k) == v
    requires forall j :: j != k ==> Lookup(rest, j) == Lookup(f, j)
    ensures Lookup([p] + rest, k) == v
    ensures forall j :: j != k ==> Lookup([p] + rest, j) == Lookup([p] + f, j)
  {
    LookupCons(p, rest);
    LookupCons(p, f);
  }

  lemma PutTailKeys(p: (string, Value), ks: seq<string>, k: string, rs: seq<string>)
    requires p.0 != k
    requires rs == if k in ks then ks else ks + [k]
    ensures [p.0] + rs == if k in [p.0] + ks then [p.0] + ks else [p.0] + ks + [k]
  {
    assert k in [p.0] + ks <==> k in ks;
  }

  /** In an object with distinct keys, every key reads back its own value. */
  lemma {:induction false} LookupPresent(f: Fields, i: int)
    requires DistinctKeys(f) && 0 <= i < |f|
    ensures Lookup(f, f[i].0) == f[i].1
  {
    if i > 0 {
      LookupPresent(f[1..], i - 1);
    }
  }

  lemma LookupCons(p: (string, Value), f: Fields)
    ensures forall j :: Lookup([p] + f, j) == if p.0 == j then p.1 else Lookup(f, j)
  {
  }

  lemma KeysCons(p: (string, Value), f: Fields)
    ensures Keys([p] + f) == [p.0] + Keys(f)
  {
  }

  /** Defining a property never introduces a duplicate key. */
  lemma PutKeepsKeysDistinct(f: Fields, k: string, v: Value)
    ensures DistinctKeys(f) ==> DistinctKeys(Put(f, k, v))
  {
    if DistinctKeys(f) {
      var r := Put(f, k, v);
      var ks, rs := Keys(f), Keys(r);
      forall i, j | 0 <= i < j < |r|
        ensures r[i].0 != r[j].0
      {
        assert r[i].0 == rs[i] && r[j].0 == rs[j];
        if k !in ks && j == |ks| {
          assert rs[i] == ks[i] && rs[j] == k;
        } else {
          assert rs[i] == ks[i] && rs[j] == ks[j];
        }
      }
    }
  }

  /** `parts.join(sep)`: the parts in order with `sep` between neighbours. */
  function Join(parts: seq<string>, sep: string): (s: string)
    ensures |parts| == 0 ==> s == ""
    ensures |parts| == 1 ==> s == parts[0]
  {
    if |parts| == 0 then ""
    else if |parts| == 1 then parts[0]
    else parts[0] + sep + Join(parts[1..], sep)
  }

  /** Appending a part to a non-empty join puts `sep` in front of it. */
  lemma {:induction false} JoinSnoc(parts: seq<string>, x: string, sep: string)
    requires |parts| > 0
    ensures Join(parts + [x], sep) == Join(parts, sep) + sep + x
  {
    assert (parts + [x])[0] == parts[0];
    if |parts| == 1 {
      assert (parts + [x])[1..] == [x];
    } else {
      assert (parts + [x])[1..] == parts[1..] + [x];
      JoinSnoc(parts[1..], x, sep);
    }
  }

  /** A non-empty join opens with the first part and closes with the last. */
  lemma {:induction false} JoinEnds(parts: seq<string>, sep: string)
    requires |parts| > 0
    ensures parts[0] <= Join(parts, sep)
    ensures var s, last := Join(parts, sep), parts[|parts| - 1];
      |last| <= |s| && s[|s| - |last|..] == last
  {
    if |parts| > 1 {
      JoinEnds(parts[1..], sep);
      var s, rest := Join(parts, sep), Join(parts[1..], sep);
      assert s == parts[0] + sep + rest;
      assert s[|s| - |rest|..] == rest;
    }
  }

  /** `r` is `s` with some elements dropped and the rest kept in order. */
  predicate Subsequence<T(==)>(r: seq<T>, s: seq<T>)
    decreases |s|
  {
    r == [] || (s != [] && if r[0] == s[0] then Subsequence(r[1..], s[1..]) else Subsequence(r, s[1..]))
  }
}
