/**
 * JSON documents as Python's `json` module loads them: objects keep their
 * members in insertion order, numbers are integers. The helpers mirror the
 * Python operations the guard-rail code applies to loaded documents:
 * `key in value`, truthiness, iteration, `dict.get`, item assignment,
 * `dict.pop` and `dict.update`.
 */
module Json {
  import opened Results

  datatype Json =
    | JNull
    | JBool(b: bool)
    | JNum(n: int)
    | JStr(s: string)
    | JArr(elems: seq<Json>)
    | JObj(members: seq<Member>)

  datatype Member = Member(key: string, value: Json)

  /** A size measure: every child is strictly smaller than its parent. */
  function Size(j: Json): nat
  {
    match j
    case JArr(es) => 1 + ElemsSize(es)
    case JObj(ms) => 1 + MembersSize(ms)
    case _ => 1
  }

  function ElemsSize(es: seq<Json>): nat
  {
    if es == [] then 0 else 1 + Size(es[0]) + ElemsSize(es[1..])
  }

  function MembersSize(ms: seq<Member>): nat
  {
    if ms == [] then 0 else 1 + Size(ms[0].value) + MembersSize(ms[1..])
  }

  /** A value stored in an object is smaller than the object. */
  lemma GetSmaller(ms: seq<Member>, k: string)
    requires HasKey(ms, k)
    ensures Size(Get(ms, k)) < Size(JObj(ms))
  {
  }

  lemma {:induction false} ElemSmaller(es: seq<Json>, i: int)
    requires 0 <= i < |es|
    ensures Size(es[i]) < ElemsSize(es)
  {
    if i > 0 {
      ElemSmaller(es[1..], i - 1);
    }
  }

  lemma {:induction false} MemberSmaller(ms: seq<Member>, i: int)
    requires 0 <= i < |ms|
    ensures Size(ms[i].value) < MembersSize(ms)
  {
    if i > 0 {
      MemberSmaller(ms[1..], i - 1);
    }
  }

  lemma {:induction false} MembersSizeSplit(ms: seq<Member>, n: int)
    requires 0 <= n <= |ms|
    ensures MembersSize(ms) == MembersSize(ms[..n]) + MembersSize(ms[n..])
  {
    if n > 0 {
      assert ms[1..][..n - 1] == ms[..n][1..];
      assert ms[1..][n - 1..] == ms[n..];
      MembersSizeSplit(ms[1..], n - 1);
    }
  }

  /** The keys of an object, in insertion order. */
  function Keys(ms: seq<Member>): (ks: seq<string>)
    ensures |ks| == |ms|
    ensures forall i :: 0 <= i < |ms| ==> ks[i] == ms[i].key
  {
    if ms == [] then [] else [ms[0].key] + Keys(ms[1..])
  }

  predicate HasKey(ms: seq<Member>, k: string)
  {
    k in Keys(ms)
  }

  /** `d[k]`: the value stored under `k` (the first member with that key). */
  function Lookup(ms: seq<Member>, k: string): (r: Option<Json>)
    ensures r.Some? <==> HasKey(ms, k)
    ensures r.Some? ==> Size(r.value) < MembersSize(ms)
    ensures r.Some? ==> exists i :: 0 <= i < |ms| && ms[i] == Member(k, r.value)
  {
    if ms == [] then None
    else if ms[0].key == k then Some(ms[0].value)
    else Lookup(ms[1..], k)
  }

  /** The value under a key the caller knows to be present. */
  function Get(ms: seq<Member>, k: string): (v: Json)
    requires HasKey(ms, k)
    ensures Size(v) < MembersSize(ms)
  {
    Lookup(ms, k).value
  }

  /** `d.get(k, default)`. */
  function GetOr(ms: seq<Member>, k: string, default: Json): Json
  {
    if HasKey(ms, k) then Get(ms, k) else default
  }

  /** `d[k] = v`: replaces the value in place, or appends a new member. */
  function Put(ms: seq<Member>, k: string, v: Json): (r: seq<Member>)
    ensures Lookup(r, k) == Some(v)
    ensures forall k' :: k' != k ==> Lookup(r, k') == Lookup(ms, k')
  {
    if ms == [] then [Member(k, v)]
    else if ms[0].key == k then [Member(k, v)] + ms[1..]
    else [ms[0]] + Put(ms[1..], k, v)
  }

  /** Assigning an existing key keeps the key order; a new key goes last. */
  lemma {:induction false} PutKeys(ms: seq<Member>, k: string, v: Json)
    ensures HasKey(ms, k) ==> Keys(Put(ms, k, v)) == Keys(ms)
    ensures !HasKey(ms, k) ==> Keys(Put(ms, k, v)) == Keys(ms) + [k]
  {
    if ms != [] && ms[0].key != k {
      PutKeys(ms[1..], k, v);
      assert Keys(ms) == [ms[0].key] + Keys(ms[1..]);
    }
  }

  /** `d.pop(k, None)`: afterwards no member has key `k`. */
  function Remove(ms: seq<Member>, k: string): (r: seq<Member>)
    ensures !HasKey(r, k)
    ensures forall k' :: k' != k ==> Lookup(r, k') == Lookup(ms, k')
    ensures !HasKey(ms, k) ==> r == ms
  {
    if ms == [] then []
    else if ms[0].key == k then Remove(ms[1..], k)
    else [ms[0]] + Remove(ms[1..], k)
  }

  /** `d.update(other)`: every member of `other` is assigned in order. */
  function Update(ms: seq<Member>, other: seq<Member>): (r: seq<Member>)
    decreases other
  {
    if other == [] then ms
    else Update(Put(ms, other[0].key, other[0].value), other[1..])
  }

  /** Python dicts never repeat a key. */
  predicate UniqueKeys(ms: seq<Member>)
  {
    forall i, j :: 0 <= i < j < |ms| ==> ms[i].key != ms[j].key
  }

  /** After `d.update(other)`, `other`'s values win and the rest of `d` stays. */
  lemma {:induction false} UpdateLookup(ms: seq<Member>, other: seq<Member>, k: string)
    requires UniqueKeys(other)
    ensures HasKey(other, k) ==> Lookup(Update(ms, other), k) == Lookup(other, k)
    ensures !HasKey(other, k) ==> Lookup(Update(ms, other), k) == Lookup(ms, k)
    decreases other
  {
    if other != [] {
      var m := Put(ms, other[0].key, other[0].value);
      UpdateLookup(m, other[1..], k);
      assert Keys(other) == [other[0].key] + Keys(other[1..]);
      if k == other[0].key {
        assert !HasKey(other[1..], k);
      }
    }
  }

  /** Replacing a value by itself leaves the object as it was. */
  lemma {:induction false} PutSame(ms: seq<Member>, k: string)
    requires HasKey(ms, k)
    ensures Put(ms, k, Get(ms, k)) == ms
  {
    if ms[0].key != k {
      PutSame(ms[1..], k);
    }
  }

  /** Python's `k in j`: key of a dict, substring of a str, element of a list. */
  function Contains(j: Json, k: string): (r: Result<bool>)
    ensures j.JObj? ==> r == Ok(HasKey(j.members, k))
    ensures j.JArr? ==> r == Ok(JStr(k) in j.elems)
    ensures r.Err? <==> !(j.JObj? || j.JArr? || j.JStr?)
  {
    match j
    case JObj(ms) => Ok(HasKey(ms, k))
    case JArr(es) => Ok(JStr(k) in es)
    case JStr(s) => Ok(IsSubstring(k, s))
    case _ => Err(TypeError("argument of type is not iterable"))
  }

  predicate IsSubstring(k: string, s: string)
  {
    exists i :: 0 <= i <= |s| - |k| && OccursAt(k, s, i)
  }

  predicate OccursAt(k: string, s: string, i: int)
    requires 0 <= i <= |s| - |k|
  {
    s[i..i + |k|] == k
  }

  /** Python truthiness of a loaded JSON value. */
  predicate Truthy(j: Json)
  {
    match j
    case JNull => false
    case JBool(b) => b
    case JNum(n) => n != 0
    case JStr(s) => s != []
    case JArr(es) => es != []
    case JObj(ms) => ms != []
  }

  /** `for x in j`: list elements, dict keys, or string characters. */
  function Iterate(j: Json): (r: Result<seq<Json>>)
    ensures j.JArr? ==> r == Ok(j.elems)
    ensures r.Ok? ==> j.JArr? || j.JObj? || j.JStr?
  {
    match j
    case JArr(es) => Ok(es)
    case JObj(ms) => Ok(seq(|ms|, i requires 0 <= i < |ms| => JStr(ms[i].key)))
    case JStr(s) => Ok(seq(|s|, i requires 0 <= i < |s| => JStr([s[i]])))
    case _ => Err(TypeError("object is not iterable"))
  }

  /** Iteration never yields anything larger than the value iterated over. */
  lemma IterateSizes(j: Json)
    ensures Iterate(j).Ok? ==> forall x :: x in Iterate(j).value ==> Size(x) <= Size(j)
  {
    if j.JArr? {
      forall x | x in j.elems
        ensures Size(x) <= Size(j)
      {
        var i :| 0 <= i < |j.elems| && j.elems[i] == x;
        ElemSmaller(j.elems, i);
      }
    }
  }
}
