/** Option and Result, and the decoded JSON values every component passes around. */
module Wrappers {

  datatype Option<+T> = None | Some(value: T)

  datatype Result<+T, +E> = Ok(value: T) | Err(error: E)

  /** A decoded JSON value. */
  datatype Json =
    | JNull
    | JBool(b: bool)
    | JNumber(n: real)
    | JString(s: string)
    | JArray(items: seq<Json>)
    | JObject(fields: map<string, Json>)

  /** One property of a JavaScript object; a record lists its properties in insertion order. */
  datatype Entry<+T> = Entry(key: string, value: T)

  type Record<+T> = seq<Entry<T>>

  ghost predicate NoDup<T>(s: seq<T>) {
    forall i, j :: 0 <= i < j < |s| ==> s[i] != s[j]
  }

  /** Property names in order, as `Object.keys` lists them. */
  function Keys<T>(r: Record<T>): (ks: seq<string>)
    ensures |ks| == |r|
    ensures forall i :: 0 <= i < |r| ==> ks[i] == r[i].key
  {
    seq(|r|, i requires 0 <= i < |r| => r[i].key)
  }

  /** A record has each property name once. */
  ghost predicate ValidRecord<T>(r: Record<T>) {
    NoDup(Keys(r))
  }

  /** `r[key]`. */
  function Lookup<T>(r: Record<T>, key: string): (v: Option<T>)
    ensures v.Some? ==> Entry(key, v.value) in r
    ensures v.None? <==> key !in Keys(r)
  {
    if r == [] then None
    else
      KeysTail(r);
      if r[0].key == key then Some(r[0].value) else Lookup(r[1..], key)
  }

  lemma KeysTail<T>(r: Record<T>)
    requires r != []
    ensures Keys(r) == [r[0].key] + Keys(r[1..])
  {}

  lemma {:induction false} LookupUnique<T>(r: Record<T>, i: nat)
    requires ValidRecord(r) && i < |r|
    ensures Lookup(r, r[i].key) == Some(r[i].value)
  {
    KeysTail(r);
    if i > 0 {
      assert Keys(r)[0] != Keys(r)[i];
      assert NoDup(Keys(r[1..])) by {
        assert Keys(r[1..]) == Keys(r)[1..];
      }
      LookupUnique(r[1..], i - 1);
    }
  }

  lemma NoDupSnoc<T>(s: seq<T>, x: T)
    requires NoDup(s) && x !in s
    ensures NoDup(s + [x])
  {}

  lemma HasMember<T>(q: seq<T>)
    ensures q == [] || exists x :: x in q
  {
    if q != [] { assert q[0] in q; }
  }

  /** A list of `n + 1` values drawn from `n` values repeats one. */
  lemma {:induction false} Pigeonhole<T>(p: seq<T>, pool: seq<T>)
    requires NoDup(p)
    requires forall x :: x in p ==> x in pool
    ensures |p| <= |pool|
  {
    if p != [] {
      var last := p[|p| - 1];
      assert last in p;
      var k :| 0 <= k < |pool| && pool[k] == last;
      var rest := pool[..k] + pool[k + 1..];
      forall x | x in p[..|p| - 1] ensures x in rest {
        assert x in p && x != last;
        var m :| 0 <= m < |pool| && pool[m] == x;
        if m < k { assert rest[m] == x; } else { assert rest[m - 1] == x; }
      }
      Pigeonhole(p[..|p| - 1], rest);
    }
  }
}
