/**
 * The stateful diff: translation of the differ's report into the meta-diff,
 * a map from a construct name (or `properties`) to buckets keyed by the kind
 * of change, each bucket a list of recorded values in the order they were
 * recorded.
 *
 * The specification functions (`WithItem`, `NestedPaths`, the per-entry
 * steps and their folds) say what each handler computes; the class
 * `MetaDiffBuilder` performs the same updates imperatively on its `diff`
 * field, as the module-level dictionary of the source is updated in place.
 */
module Stateful {
  import opened Results
  import opened Json
  import opened StatefulPaths
  import SchemaUtils

  /** The bucket names `added`, `removed` and `changed`. */
  datatype Change = Added | Removed | Changed

  type MetaDiff = map<string, map<Change, seq<Json>>>

  /** One reported change: the location and the value the differ gives for it. */
  datatype DiffEntry = DiffEntry(path: seq<Token>, value: Json)

  /** One section of the differ's report, e.g. `dictionary_item_added`. */
  datatype Category = Category(name: string, entries: seq<DiffEntry>)

  const CombinerMessage: string :=
    "Schemas with combiners are not yet supported for stateful evaluation"

  /** Calling the switcher's zero-argument fallback with two arguments. */
  const FallbackArityMessage: string :=
    "<lambda>() takes 0 positional arguments but 2 were given"

  /** The list recorded under `key` and `change`; empty when there is none. */
  function Bucket(m: MetaDiff, key: string, change: Change): seq<Json>
  {
    if key in m && change in m[key] then m[key][change] else []
  }

  /** `_add_item`: append `v` to the bucket, creating the key and bucket if needed. */
  function WithItem(m: MetaDiff, key: string, change: Change, v: Json): MetaDiff
  {
    var inner := if key in m then m[key] else map[];
    m[key := inner[change := (if change in inner then inner[change] else []) + [v]]]
  }

  /**
   * `_add_item` appends to exactly one bucket: the named one grows by `v`,
   * every other bucket and every other key's buckets are as they were.
   */
  lemma WithItemBuckets(m: MetaDiff, key: string, change: Change, v: Json)
    ensures Bucket(WithItem(m, key, change, v), key, change) == Bucket(m, key, change) + [v]
    ensures forall k, c :: (k != key || c != change) ==>
      Bucket(WithItem(m, key, change, v), k, c) == Bucket(m, k, c)
    ensures WithItem(m, key, change, v).Keys == m.Keys + {key}
    ensures forall k :: k in m && k != key ==> WithItem(m, key, change, v)[k] == m[k]
  {
  }

  /** Appending several values in order. */
  function WithItems(m: MetaDiff, key: string, change: Change, vs: seq<Json>): MetaDiff
  {
    if vs == [] then m else WithItem(WithItems(m, key, change, vs[..|vs| - 1]), key, change, vs[|vs| - 1])
  }

  lemma {:induction false} WithItemsAppend(m: MetaDiff, key: string, change: Change, a: seq<Json>, b: seq<Json>)
    ensures WithItems(WithItems(m, key, change, a), key, change, b) == WithItems(m, key, change, a + b)
    decreases |b|
  {
    if b != [] {
      assert (a + b)[..|a + b| - 1] == a + b[..|b| - 1];
      WithItemsAppend(m, key, change, a, b[..|b| - 1]);
    } else {
      assert a + b == a;
    }
  }

  /** Appending several values leaves every other key and bucket alone. */
  lemma {:induction false} WithItemsBuckets(m: MetaDiff, key: string, change: Change, vs: seq<Json>)
    ensures Bucket(WithItems(m, key, change, vs), key, change) == Bucket(m, key, change) + vs
    ensures forall k, c :: (k != key || c != change) ==>
      Bucket(WithItems(m, key, change, vs), k, c) == Bucket(m, k, c)
  {
    if vs != [] {
      var init := vs[..|vs| - 1];
      WithItemsBuckets(m, key, change, init);
      WithItemBuckets(WithItems(m, key, change, init), key, change, vs[|vs| - 1]);
      assert init + [vs[|vs| - 1]] == vs;
    }
  }

  function PathValues(ps: seq<string>): (vs: seq<Json>)
    ensures |vs| == |ps| && forall i :: 0 <= i < |ps| ==> vs[i] == JStr(ps[i])
  {
    seq(|ps|, i requires 0 <= i < |ps| => JStr(ps[i]))
  }

  /** Record property paths under `properties`. */
  function WithPaths(m: MetaDiff, change: Change, ps: seq<string>): MetaDiff
  {
    WithItems(m, PROPERTIES, change, PathValues(ps))
  }

  lemma WithPathsAppend(m: MetaDiff, change: Change, a: seq<string>, p: string, b: seq<string>)
    ensures WithPaths(WithItem(WithPaths(m, change, a), PROPERTIES, change, JStr(p)), change, b)
      == WithPaths(m, change, a + [p] + b)
  {
    var va := PathValues(a);
    var vp := va + [JStr(p)];
    assert vp[..|vp| - 1] == va;
    assert WithItem(WithPaths(m, change, a), PROPERTIES, change, JStr(p)) == WithItems(m, PROPERTIES, change, vp);
    WithItemsAppend(m, PROPERTIES, change, vp, PathValues(b));
    assert vp + PathValues(b) == PathValues(a + [p] + b);
  }

  /**
   * `_traverse_nested_properties` as a value: the property paths it records
   * below `prefix`, in recording order, or the exception it raises.
   */
  function NestedPaths(prefix: string, v: Json): Result<seq<string>>
    decreases Size(v), 1
  {
    if !(v.JObj? && v.members != []) then Ok([])
    else if !HasKey(v.members, "type") then FieldPaths(prefix, v.members)
    else
      var t := Get(v.members, "type");
      if t == JStr("array") then
        var items := GetOr(v.members, "items", JObj([]));
        if !items.JObj? then Err(AttributeError("object has no attribute 'get'"))
        else NestedPaths(prefix + "/*", GetOr(items.members, PROPERTIES, JObj([])))
      else if t == JStr("object") then
        NestedPaths(prefix, GetOr(v.members, PROPERTIES, JObj([])))
      else Ok([])
  }

  /** The paths recorded for the members of an object without `type`. */
  function FieldPaths(prefix: string, ms: seq<Member>): Result<seq<string>>
    decreases MembersSize(ms), 0
  {
    if ms == [] then Ok([])
    else
      var n := |ms| - 1;
      MembersSizeSplit(ms, n);
      MemberSmaller(ms, n);
      var init :- FieldPaths(prefix, ms[..n]);
      var p := prefix + "/" + ms[n].key;
      var sub :- NestedPaths(p, ms[n].value);
      Ok(init + [p] + sub)
  }

  /** Once a prefix of the members fails, the whole traversal fails the same way. */
  lemma {:induction false} FieldPathsErrExtends(prefix: string, ms: seq<Member>, i: int)
    requires 0 <= i <= |ms| && FieldPaths(prefix, ms[..i]).Err?
    ensures FieldPaths(prefix, ms) == FieldPaths(prefix, ms[..i])
    decreases |ms| - i
  {
    if i < |ms| {
      assert ms[..i + 1][..i] == ms[..i];
      FieldPathsErrExtends(prefix, ms, i + 1);
    } else {
      assert ms[..i] == ms;
    }
  }

  /** Every recorded path lies below the prefix it was traversed from. */
  lemma {:induction false} NestedPathsBelow(prefix: string, v: Json)
    ensures NestedPaths(prefix, v).Ok? ==>
      forall p :: p in NestedPaths(prefix, v).value ==> prefix + "/" <= p
    decreases Size(v), 1
  {
    if v.JObj? && v.members != [] {
      if !HasKey(v.members, "type") {
        FieldPathsBelow(prefix, v.members);
      } else {
        var t := Get(v.members, "type");
        if t == JStr("array") {
          var items := GetOr(v.members, "items", JObj([]));
          if items.JObj? {
            var w := GetOr(items.members, PROPERTIES, JObj([]));
            NestedPathsBelow(prefix + "/*", w);
            assert prefix + "/" <= prefix + "/*" + "/";
          }
        } else if t == JStr("object") {
          NestedPathsBelow(prefix, GetOr(v.members, PROPERTIES, JObj([])));
        }
      }
    }
  }

  lemma {:induction false} FieldPathsBelow(prefix: string, ms: seq<Member>)
    ensures FieldPaths(prefix, ms).Ok? ==>
      forall p :: p in FieldPaths(prefix, ms).value ==> prefix + "/" <= p
    decreases MembersSize(ms), 0
  {
    if ms != [] && FieldPaths(prefix, ms).Ok? {
      var n := |ms| - 1;
      MembersSizeSplit(ms, n);
      MemberSmaller(ms, n);
      FieldPathsBelow(prefix, ms[..n]);
      var q := prefix + "/" + ms[n].key;
      NestedPathsBelow(q, ms[n].value);
      assert prefix + "/" <= q;
      assert prefix + "/" <= q + "/";
    }
  }

  /** An object without `type` records the path of each of its members. */
  lemma {:induction false} FieldPathsListMembers(prefix: string, ms: seq<Member>, i: int)
    requires 0 <= i < |ms| && FieldPaths(prefix, ms).Ok?
    ensures prefix + "/" + ms[i].key in FieldPaths(prefix, ms).value
    decreases |ms|
  {
    var n := |ms| - 1;
    if i < n {
      assert ms[..n][i] == ms[i];
      FieldPathsListMembers(prefix, ms[..n], i);
    }
  }

  /** `value[key]` on the value the differ reports for a changed value. */
  function Field(v: Json, key: string): Result<Json>
  {
    match v
    case JObj(ms) => if HasKey(ms, key) then Ok(Get(ms, key)) else Err(KeyError(key))
    case _ => Err(TypeError("value is not subscriptable by a string"))
  }

  /** The record a changed keyword value produces. */
  function ChangedRecord(owner: string, oldValue: Json, newValue: Json): Json
  {
    JObj([Member("property", JStr(owner)), Member("old_value", oldValue), Member("new_value", newValue)])
  }

  function Last(steps: seq<string>): string
    requires steps != []
  {
    steps[|steps| - 1]
  }

  /** The owner path of a keyword step: everything before the last step. */
  function OwnerPath(steps: seq<string>): string
    requires steps != []
  {
    Render(steps[..|steps| - 1])
  }

  /** One entry of an iterable section: the element itself is recorded. */
  function IterableEntry(m: MetaDiff, change: Change, e: DiffEntry): Result<MetaDiff>
  {
    var steps := CastPath(e.path);
    if IsCombinerProperty(steps) then Err(NotImplementedError(CombinerMessage))
    else
      var m1 := if IsCfnConstruct(steps) then WithItem(m, steps[0], change, e.value) else m;
      var m2 := if IsJsonConstruct(steps) then WithItem(m1, Last(steps), change, e.value) else m1;
      var m3 := if IsCfnLeafConstruct(steps) then WithItem(m2, Last(steps), change, e.value) else m2;
      Ok(m3)
  }

  /** One entry of a dictionary section: paths are recorded, not values. */
  function DictEntry(m: MetaDiff, change: Change, e: DiffEntry): Result<MetaDiff>
  {
    var steps := CastPath(e.path);
    if IsCombinerProperty(steps) then Err(NotImplementedError(CombinerMessage))
    else
      var m1 :-
        if IsResourceProperty(steps) then
          var p := Render(steps);
          var ma := WithItem(m, PROPERTIES, change, JStr(p));
          if e.value.JObj? then
            var ps :- NestedPaths(p, e.value);
            Ok(WithPaths(ma, change, ps))
          else Ok(ma)
        else Ok(m);
      var m2 := if IsJsonConstruct(steps) then WithItem(m1, Last(steps), change, JStr(OwnerPath(steps))) else m1;
      var m3 := if IsCfnLeafConstruct(steps) then WithItem(m2, Last(steps), change, JStr(OwnerPath(steps))) else m2;
      Ok(m3)
  }

  /** One entry of a `values_changed` or `type_changes` section. */
  function ValuesEntry(m: MetaDiff, e: DiffEntry): Result<MetaDiff>
  {
    var steps := CastPath(e.path);
    var m1 :-
      if IsCfnConstruct(steps) then
        var o :- Field(e.value, "old_value");
        var ma := WithItem(m, steps[0], Removed, o);
        var n :- Field(e.value, "new_value");
        Ok(WithItem(ma, steps[0], Added, n))
      else Ok(m);
    var m2 :-
      if IsJsonConstruct(steps) then
        var o :- Field(e.value, "old_value");
        var n :- Field(e.value, "new_value");
        Ok(WithItem(m1, Last(steps), Changed, ChangedRecord(OwnerPath(steps), o, n)))
      else Ok(m1);
    var m3 :-
      if IsCfnLeafConstruct(steps) then
        var o :- Field(e.value, "old_value");
        var n :- Field(e.value, "new_value");
        Ok(WithItem(m2, Last(steps), Changed, ChangedRecord(OwnerPath(steps), o, n)))
      else Ok(m2);
    Ok(m3)
  }

  /** Apply `step` to each element in order, stopping at the first exception. */
  function Fold<T>(m: MetaDiff, xs: seq<T>, step: (MetaDiff, T) -> Result<MetaDiff>): Result<MetaDiff>
  {
    if xs == [] then Ok(m)
    else
      var prev :- Fold(m, xs[..|xs| - 1], step);
      step(prev, xs[|xs| - 1])
  }

  /** Once a prefix fails, the whole fold fails with the same exception. */
  lemma {:induction false} FoldErrExtends<T>(m: MetaDiff, xs: seq<T>, step: (MetaDiff, T) -> Result<MetaDiff>, i: int)
    requires 0 <= i <= |xs| && Fold(m, xs[..i], step).Err?
    ensures Fold(m, xs, step) == Fold(m, xs[..i], step)
    decreases |xs| - i
  {
    if i < |xs| {
      assert xs[..i + 1][..i] == xs[..i];
      FoldErrExtends(m, xs, step, i + 1);
    } else {
      assert xs[..i] == xs;
    }
  }

  /** One more element of the prefix is one more step of the fold. */
  lemma FoldPrefixStep<T>(m: MetaDiff, xs: seq<T>, step: (MetaDiff, T) -> Result<MetaDiff>, i: int)
    requires 0 <= i < |xs| && Fold(m, xs[..i], step).Ok?
    ensures Fold(m, xs[..i + 1], step) == step(Fold(m, xs[..i], step).value, xs[i])
  {
    assert xs[..i + 1][..i] == xs[..i];
  }

  lemma FoldStepFails<T>(m: MetaDiff, xs: seq<T>, step: (MetaDiff, T) -> Result<MetaDiff>, i: int)
    requires 0 <= i < |xs|
    requires Fold(m, xs[..i], step).Ok? ==> step(Fold(m, xs[..i], step).value, xs[i]).Err?
    ensures Fold(m, xs, step).Err?
  {
    assert xs[..i + 1][..i] == xs[..i];
    FoldErrExtends(m, xs, step, if Fold(m, xs[..i], step).Err? then i else i + 1);
  }

  function IterableStep(change: Change): (MetaDiff, DiffEntry) -> Result<MetaDiff>
  {
    (m, e) => IterableEntry(m, change, e)
  }

  function DictStep(change: Change): (MetaDiff, DiffEntry) -> Result<MetaDiff>
  {
    (m, e) => DictEntry(m, change, e)
  }

  function ValuesStep(): (MetaDiff, DiffEntry) -> Result<MetaDiff>
  {
    (m, e) => ValuesEntry(m, e)
  }

  /** `_translate_iterable_change`. */
  function IterableChange(m: MetaDiff, change: Change, es: seq<DiffEntry>): Result<MetaDiff>
  {
    if change == Changed then Err(NotImplementedError("Invalid"))
    else Fold(m, es, IterableStep(change))
  }

  /** `_translate_dict_change`. */
  function DictChange(m: MetaDiff, change: Change, es: seq<DiffEntry>): Result<MetaDiff>
  {
    if change == Changed then Err(NotImplementedError("Not Supported"))
    else Fold(m, es, DictStep(change))
  }

  /** The switcher of `_translate_meta_diff`, applied to one section. */
  function CategoryChange(m: MetaDiff, c: Category): Result<MetaDiff>
  {
    match c.name
    case "iterable_item_added" => IterableChange(m, Added, c.entries)
    case "iterable_item_removed" => IterableChange(m, Removed, c.entries)
    case "values_changed" => Fold(m, c.entries, ValuesStep())
    case "type_changes" => Fold(m, c.entries, ValuesStep())
    case "dictionary_item_added" => DictChange(m, Added, c.entries)
    case "dictionary_item_removed" => DictChange(m, Removed, c.entries)
    case _ => Err(TypeError(FallbackArityMessage))
  }

  /** `_translate_meta_diff`: the sections in report order, from an empty meta-diff. */
  function Translate(report: seq<Category>): Result<MetaDiff>
  {
    Fold(map[], report, CategoryStep())
  }

  function CategoryStep(): (MetaDiff, Category) -> Result<MetaDiff>
  {
    (m, c) => CategoryChange(m, c)
  }

  /** The names the switcher dispatches on. */
  const KnownSections: set<string> := {
    "iterable_item_added", "iterable_item_removed", "values_changed",
    "type_changes", "dictionary_item_added", "dictionary_item_removed"
  }

  /** The sections whose handlers refuse combiner paths. */
  const CombinerCheckedSections: set<string> := {
    "iterable_item_added", "iterable_item_removed",
    "dictionary_item_added", "dictionary_item_removed"
  }

  /**
   * The imperative translator: `diff` is the meta-diff being built; each
   * method performs the source's updates and is proved to agree with the
   * specification function of the same handler.
   */
  class MetaDiffBuilder {
    var diff: MetaDiff

    constructor ()
      ensures diff == map[]
    {
      diff := map[];
    }

    /** `_add_item`. */
    method AddItem(key: string, change: Change, v: Json)
      modifies this
      ensures diff == WithItem(old(diff), key, change, v)
    {
      if key !in diff {
        diff := diff[key := map[]];
      }
      if change in diff[key] {
        diff := diff[key := diff[key][change := diff[key][change] + [v]]];
      } else {
        assert [] + [v] == [v];
        diff := diff[key := diff[key][change := [v]]];
      }
    }

    /** `_traverse_nested_properties`. */
    method TraverseNestedProperties(change: Change, prefix: string, v: Json) returns (res: Outcome)
      modifies this
      ensures res == OutcomeOf(NestedPaths(prefix, v))
      ensures NestedPaths(prefix, v).Ok? ==> diff == WithPaths(old(diff), change, NestedPaths(prefix, v).value)
      decreases Size(v), 1
    {
      if !(v.JObj? && v.members != []) {
        return Pass;
      }
      var ms := v.members;
      if !HasKey(ms, "type") {
        res := TraverseMembers(change, prefix, ms);
        return;
      }
      var t := Get(ms, "type");
      if t == JStr("array") {
        var items := GetOr(ms, "items", JObj([]));
        if !items.JObj? {
          return Fail(AttributeError("object has no attribute 'get'"));
        }
        res := TraverseNestedProperties(change, prefix + "/*", GetOr(items.members, PROPERTIES, JObj([])));
      } else if t == JStr("object") {
        res := TraverseNestedProperties(change, prefix, GetOr(ms, PROPERTIES, JObj([])));
      } else {
        // the source recurses on an empty dict, which records nothing
        res := Pass;
      }
    }

    /** The loop of `_traverse_nested_properties` over an object without `type`. */
    method TraverseMembers(change: Change, prefix: string, ms: seq<Member>) returns (res: Outcome)
      modifies this
      ensures res == OutcomeOf(FieldPaths(prefix, ms))
      ensures FieldPaths(prefix, ms).Ok? ==> diff == WithPaths(old(diff), change, FieldPaths(prefix, ms).value)
      decreases MembersSize(ms), 0
    {
      var i := 0;
      ghost var acc: seq<string> := [];
      while i < |ms|
        invariant 0 <= i <= |ms|
        invariant FieldPaths(prefix, ms[..i]) == Ok(acc)
        invariant diff == WithPaths(old(diff), change, acc)
      {
        var p := prefix + "/" + ms[i].key;
        AddItem(PROPERTIES, change, JStr(p));
        MemberSmaller(ms, i);
        var r := TraverseNestedProperties(change, p, ms[i].value);
        assert ms[..i + 1][..i] == ms[..i];
        if r.Fail? {
          FieldPathsErrExtends(prefix, ms, i + 1);
          return r;
        }
        ghost var sub := NestedPaths(p, ms[i].value).value;
        WithPathsAppend(old(diff), change, acc, p, sub);
        acc := acc + [p] + sub;
        i := i + 1;
      }
      assert ms[..i] == ms;
      return Pass;
    }

    /** One entry of `__translate_iter_added_diff`. */
    method ApplyIterableEntry(change: Change, e: DiffEntry) returns (res: Outcome)
      modifies this
      ensures res == OutcomeOf(IterableEntry(old(diff), change, e))
      ensures IterableEntry(old(diff), change, e).Ok? ==> diff == IterableEntry(old(diff), change, e).value
    {
      var steps := CastPath(e.path);
      if IsCombinerProperty(steps) {
        return Fail(NotImplementedError(CombinerMessage));
      }
      if IsCfnConstruct(steps) {
        AddItem(steps[0], change, e.value);
      }
      if IsJsonConstruct(steps) {
        AddItem(steps[|steps| - 1], change, e.value);
      }
      if IsCfnLeafConstruct(steps) {
        AddItem(steps[|steps| - 1], change, e.value);
      }
      return Pass;
    }

    /** `_translate_iterable_change`. */
    method TranslateIterableChange(change: Change, es: seq<DiffEntry>) returns (res: Outcome)
      modifies this
      ensures res == OutcomeOf(IterableChange(old(diff), change, es))
      ensures IterableChange(old(diff), change, es).Ok? ==> diff == IterableChange(old(diff), change, es).value
    {
      if change == Changed {
        return Fail(NotImplementedError("Invalid"));
      }
      res := IterableEntries(change, es);
    }

    /** `for entry in diff: ...` of `__translate_iterable_change`. */
    method IterableEntries(change: Change, es: seq<DiffEntry>) returns (res: Outcome)
      modifies this
      ensures res == OutcomeOf(Fold(old(diff), es, IterableStep(change)))
      ensures Fold(old(diff), es, IterableStep(change)).Ok? ==> diff == Fold(old(diff), es, IterableStep(change)).value
    {
      ghost var start := diff;
      var i := 0;
      while i < |es|
        invariant 0 <= i <= |es|
        invariant Fold(start, es[..i], IterableStep(change)) == Ok(diff)
      {
        res := IterableEntryAt(change, start, es, i);
        if res.Fail? {
          return;
        }
        i := i + 1;
      }
      assert es[..i] == es;
      return Pass;
    }

    /** Entry `i` of the loop: the fold over the first `i + 1` entries, or the failure of the whole fold. */
    method IterableEntryAt(change: Change, ghost start: MetaDiff, es: seq<DiffEntry>, i: nat) returns (res: Outcome)
      requires i < |es| && Fold(start, es[..i], IterableStep(change)) == Ok(diff)
      modifies this
      ensures res.Pass? ==> Fold(start, es[..i + 1], IterableStep(change)) == Ok(diff)
      ensures res.Fail? ==> res == OutcomeOf(Fold(start, es, IterableStep(change)))
    {
      FoldPrefixStep(start, es, IterableStep(change), i);
      res := ApplyIterableEntry(change, es[i]);
      if res.Fail? {
        FoldErrExtends(start, es, IterableStep(change), i + 1);
      }
    }

    /** One entry of `__translate_dict_diff`. */
    method ApplyDictEntry(change: Change, e: DiffEntry) returns (res: Outcome)
      modifies this
      ensures res == OutcomeOf(DictEntry(old(diff), change, e))
      ensures DictEntry(old(diff), change, e).Ok? ==> diff == DictEntry(old(diff), change, e).value
    {
      var steps := CastPath(e.path);
      if IsCombinerProperty(steps) {
        return Fail(NotImplementedError(CombinerMessage));
      }
      if IsResourceProperty(steps) {
        var p := Render(steps);
        AddItem(PROPERTIES, change, JStr(p));
        if e.value.JObj? {
          res := TraverseNestedProperties(change, p, e.value);
          if res.Fail? {
            return;
          }
        }
      }
      if IsJsonConstruct(steps) {
        AddItem(steps[|steps| - 1], change, JStr(Render(steps[..|steps| - 1])));
      }
      if IsCfnLeafConstruct(steps) {
        AddItem(steps[|steps| - 1], change, JStr(Render(steps[..|steps| - 1])));
      }
      return Pass;
    }

    /** `_translate_dict_change`. */
    method TranslateDictChange(change: Change, es: seq<DiffEntry>) returns (res: Outcome)
      modifies this
      ensures res == OutcomeOf(DictChange(old(diff), change, es))
      ensures DictChange(old(diff), change, es).Ok? ==> diff == DictChange(old(diff), change, es).value
    {
      if change == Changed {
        return Fail(NotImplementedError("Not Supported"));
      }
      res := DictEntries(change, es);
    }

    /** `for entry in diff: ...` of `__translate_dict_diff`. */
    method DictEntries(change: Change, es: seq<DiffEntry>) returns (res: Outcome)
      modifies this
      ensures res == OutcomeOf(Fold(old(diff), es, DictStep(change)))
      ensures Fold(old(diff), es, DictStep(change)).Ok? ==> diff == Fold(old(diff), es, DictStep(change)).value
    {
      ghost var start := diff;
      var i := 0;
      while i < |es|
        invariant 0 <= i <= |es|
        invariant Fold(start, es[..i], DictStep(change)) == Ok(diff)
      {
        res := DictEntryAt(change, start, es, i);
        if res.Fail? {
          return;
        }
        i := i + 1;
      }
      assert es[..i] == es;
      return Pass;
    }

    /** Entry `i` of the loop: the fold over the first `i + 1` entries, or the failure of the whole fold. */
    method DictEntryAt(change: Change, ghost start: MetaDiff, es: seq<DiffEntry>, i: nat) returns (res: Outcome)
      requires i < |es| && Fold(start, es[..i], DictStep(change)) == Ok(diff)
      modifies this
      ensures res.Pass? ==> Fold(start, es[..i + 1], DictStep(change)) == Ok(diff)
      ensures res.Fail? ==> res == OutcomeOf(Fold(start, es, DictStep(change)))
    {
      FoldPrefixStep(start, es, DictStep(change), i);
      res := ApplyDictEntry(change, es[i]);
      if res.Fail? {
        FoldErrExtends(start, es, DictStep(change), i + 1);
      }
    }

    /** One entry of `_translate_values_changed_diff_`. */
    method ApplyValuesEntry(e: DiffEntry) returns (res: Outcome)
      modifies this
      ensures res == OutcomeOf(ValuesEntry(old(diff), e))
      ensures ValuesEntry(old(diff), e).Ok? ==> diff == ValuesEntry(old(diff), e).value
    {
      var steps := CastPath(e.path);
      if IsCfnConstruct(steps) {
        var o := Field(e.value, "old_value");
        if o.Err? {
          return Fail(o.error);
        }
        AddItem(steps[0], Removed, o.value);
        var n := Field(e.value, "new_value");
        if n.Err? {
          return Fail(n.error);
        }
        AddItem(steps[0], Added, n.value);
      }
      if IsJsonConstruct(steps) {
        var o := Field(e.value, "old_value");
        if o.Err? {
          return Fail(o.error);
        }
        var n := Field(e.value, "new_value");
        if n.Err? {
          return Fail(n.error);
        }
        AddItem(steps[|steps| - 1], Changed, ChangedRecord(Render(steps[..|steps| - 1]), o.value, n.value));
      }
      if IsCfnLeafConstruct(steps) {
        var o := Field(e.value, "old_value");
        if o.Err? {
          return Fail(o.error);
        }
        var n := Field(e.value, "new_value");
        if n.Err? {
          return Fail(n.error);
        }
        AddItem(steps[|steps| - 1], Changed, ChangedRecord(Render(steps[..|steps| - 1]), o.value, n.value));
      }
      return Pass;
    }

    /** `_translate_values_changed_diff_`. */
    method TranslateValuesChanged(es: seq<DiffEntry>) returns (res: Outcome)
      modifies this
      ensures res == OutcomeOf(Fold(old(diff), es, ValuesStep()))
      ensures Fold(old(diff), es, ValuesStep()).Ok? ==> diff == Fold(old(diff), es, ValuesStep()).value
    {
      var i := 0;
      while i < |es|
        invariant 0 <= i <= |es|
        invariant Fold(old(diff), es[..i], ValuesStep()) == Ok(diff)
      {
        FoldPrefixStep(old(diff), es, ValuesStep(), i);
        res := ApplyValuesEntry(es[i]);
        if res.Fail? {
          FoldErrExtends(old(diff), es, ValuesStep(), i + 1);
          return;
        }
        i := i + 1;
      }
      assert es[..i] == es;
      return Pass;
    }

    /** Section `i` of the report: the fold over the first `i + 1` sections, or the failure of the whole fold. */
    method CategoryAt(ghost start: MetaDiff, report: seq<Category>, i: nat) returns (res: Outcome)
      requires i < |report| && Fold(start, report[..i], CategoryStep()) == Ok(diff)
      modifies this
      ensures res.Pass? ==> Fold(start, report[..i + 1], CategoryStep()) == Ok(diff)
      ensures res.Fail? ==> res == OutcomeOf(Fold(start, report, CategoryStep()))
    {
      FoldPrefixStep(start, report, CategoryStep(), i);
      res := ApplyCategory(report[i]);
      if res.Fail? {
        FoldErrExtends(start, report, CategoryStep(), i + 1);
      }
    }

    /** The switcher of `_translate_meta_diff` on one section of the report. */
    method ApplyCategory(c: Category) returns (res: Outcome)
      modifies this
      ensures res == OutcomeOf(CategoryChange(old(diff), c))
      ensures CategoryChange(old(diff), c).Ok? ==> diff == CategoryChange(old(diff), c).value
    {
      match c.name {
        case "iterable_item_added" => res := TranslateIterableChange(Added, c.entries);
        case "iterable_item_removed" => res := TranslateIterableChange(Removed, c.entries);
        case "values_changed" => res := TranslateValuesChanged(c.entries);
        case "type_changes" => res := TranslateValuesChanged(c.entries);
        case "dictionary_item_added" => res := TranslateDictChange(Added, c.entries);
        case "dictionary_item_removed" => res := TranslateDictChange(Removed, c.entries);
        case _ => res := Fail(TypeError(FallbackArityMessage));
      }
    }
  }

  /** `_translate_meta_diff`, performed on a fresh builder. */
  method TranslateMetaDiff(report: seq<Category>) returns (r: Result<MetaDiff>)
    ensures r == Translate(report)
  {
    var b := new MetaDiffBuilder();
    var i := 0;
    while i < |report|
      invariant 0 <= i <= |report|
      invariant Fold(map[], report[..i], CategoryStep()) == Ok(b.diff)
    {
      var res := b.CategoryAt(map[], report, i);
      if res.Fail? {
        return Err(res.error);
      }
      i := i + 1;
    }
    assert report[..i] == report;
    return Ok(b.diff);
  }
  /**
   * `schema_diff` as a value: both schemas resolved (previous first), the
   * differ's report on the resolved pair, then its translation. `differ`
   * stands for the `DeepDiff` call and each `Refs` map for the
   * `RefResolver` built from that schema.
   */
  function DiffOfSchemas(previousRefs: SchemaUtils.Refs, previous: Json,
                         currentRefs: SchemaUtils.Refs, current: Json,
                         differ: (Json, Json) -> seq<Category>): Result<MetaDiff>
  {
    var p :- SchemaUtils.ResolveSchema(previousRefs, previous);
    var c :- SchemaUtils.ResolveSchema(currentRefs, current);
    Translate(differ(p, c))
  }

  /** `schema_diff`, with the translation done by the builder. */
  method SchemaDiff(previousRefs: SchemaUtils.Refs, previous: Json,
                    currentRefs: SchemaUtils.Refs, current: Json,
                    differ: (Json, Json) -> seq<Category>) returns (r: Result<MetaDiff>)
    ensures r == DiffOfSchemas(previousRefs, previous, currentRefs, current, differ)
  {
    var p := SchemaUtils.ResolveSchema(previousRefs, previous);
    if p.Err? {
      return Err(p.error);
    }
    var c := SchemaUtils.ResolveSchema(currentRefs, current);
    if c.Err? {
      return Err(c.error);
    }
    r := TranslateMetaDiff(differ(p.value, c.value));
  }
}
