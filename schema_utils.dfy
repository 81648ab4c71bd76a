/**
 * Schema manipulations: inlining `$ref`s (`resolve_schema`), enumerating
 * the property paths of a resolved schema (`_fetch_all_paths`) and
 * annotating a schema with those paths (`add_paths_to_schema`).
 *
 * The resolver is a function on immutable trees; `jsonschema`'s
 * `RefResolver` becomes a finite map from reference string to the document
 * it denotes. Python evaluates `key in node`, `node[key]` and iteration on
 * whatever value it meets, so non-object nodes raise the exception Python
 * raises for them.
 */
module SchemaUtils {
  import opened Results
  import opened Json

  const PROPERTIES: string := "properties"
  const DEFINITIONS: string := "definitions"
  const REF: string := "$ref"
  const ITEMS: string := "items"
  const PATTERN_PROPERTIES: string := "patternProperties"
  const ANY_OF: string := "anyOf"
  const ONE_OF: string := "oneOf"
  const ALL_OF: string := "allOf"

  /** The keys the resolver tests, in the order it tests them. */
  const ResolverKeywords: seq<string> := [PROPERTIES, REF, PATTERN_PROPERTIES, ITEMS, ALL_OF, ANY_OF, ONE_OF]

  /** `resolver.resolve(ref)[1]`: the document each resolvable reference denotes. */
  type Refs = map<string, Json>

  /** `kw in j` holds for one of the keywords. */
  predicate Mentions(j: Json, kws: seq<string>)
  {
    exists i :: 0 <= i < |kws| && Contains(j, kws[i]) == Ok(true)
  }

  /** Adding an unresolved reference to the chain leaves fewer references to expand. */
  lemma ChainShrinks(keys: set<string>, chain: set<string>, ref: string)
    requires ref in keys && ref !in chain
    ensures |keys - (chain + {ref})| < |keys - chain|
  {
    assert keys - chain == (keys - (chain + {ref})) + {ref};
  }

  /**
   * `_internal_resolver(j, resolver, chain)`: the node with every reachable
   * reference inlined, where `chain` holds the references already expanded
   * on the way down. Termination: each expansion adds a new resolvable
   * reference to the chain; every other call is on a smaller node.
   */
  function Resolve(refs: Refs, j: Json, chain: set<string>): (r: Result<Json>)
    ensures j.JObj? && r.Ok? ==> r.value.JObj?
    decreases |refs.Keys - chain|, Size(j), 3
  {
    match j
    case JObj(ms) => ResolveObject(refs, ms, chain)
    case JArr(_) =>
      // a list: membership is tested, then subscripting with a key fails
      if Mentions(j, ResolverKeywords) then Err(TypeError("list indices must be integers or slices, not str"))
      else Ok(j)
    case JStr(s) =>
      // a string: substrings are tested, then subscripting or `pop` fails
      if IsSubstring(PROPERTIES, s) then Err(TypeError("string indices must be integers"))
      else if IsSubstring(REF, s) then Err(AttributeError("'str' object has no attribute 'pop'"))
      else if Mentions(j, ResolverKeywords) then Err(TypeError("string indices must be integers"))
      else Ok(j)
    case _ => Err(TypeError("argument of type is not iterable"))
  }

  /**
   * The stages of `_internal_resolver` on a dict, in source order. Each
   * stage rewrites only its own key, so a stage's input value is read from
   * the node as it was on entry.
   */
  function ResolveObject(refs: Refs, ms: seq<Member>, chain: set<string>): (r: Result<Json>)
    ensures r.Ok? ==> r.value.JObj?
    decreases |refs.Keys - chain|, MembersSize(ms), 2
  {
    var ms1 :- MapStage(refs, ms, ms, PROPERTIES, chain);
    if HasKey(ms1, REF) then
      var ms2 := Remove(ms1, REF);
      match Get(ms1, REF)
      case JStr(ref) =>
        if ref in chain then Ok(JObj(ms2))
        else if ref !in refs then Err(RefResolutionError(ref))
        else if !refs[ref].JObj? then Err(TypeError("cannot convert dictionary update sequence element"))
        else
          ChainShrinks(refs.Keys, chain, ref);
          Resolve(refs, JObj(Update(ms2, refs[ref].members)), chain + {ref})
      case JArr(_) => Err(TypeError("unhashable type: 'list'"))
      case JObj(_) => Err(TypeError("unhashable type: 'dict'"))
      case _ => Err(RefResolutionError(""))
    else
      var ms3 :- MapStage(refs, ms, ms1, PATTERN_PROPERTIES, chain);
      var ms4 :-
        if HasKey(ms, ITEMS) then
          var it :- Resolve(refs, Get(ms, ITEMS), chain);
          Ok(Put(ms3, ITEMS, it))
        else Ok(ms3);
      var ms5 :- CombinerStage(refs, ms, ms4, ALL_OF, chain);
      var ms6 :- CombinerStage(refs, ms, ms5, ANY_OF, chain);
      var ms7 :- CombinerStage(refs, ms, ms6, ONE_OF, chain);
      Ok(JObj(ms7))
  }

  /** `for key, val in schema[key].items(): schema[key][key'] = resolve(val)`. */
  function MapStage(refs: Refs, orig: seq<Member>, cur: seq<Member>, key: string, chain: set<string>): Result<seq<Member>>
    decreases |refs.Keys - chain|, MembersSize(orig), 1
  {
    if !HasKey(orig, key) then Ok(cur)
    else
      var v := Get(orig, key);
      if !v.JObj? then Err(AttributeError("object has no attribute 'items'"))
      else
        var rv :- ResolveValues(refs, v.members, chain);
        Ok(Put(cur, key, JObj(rv)))
  }

  /** Each member's value resolved, in insertion order; the keys stay. */
  function ResolveValues(refs: Refs, vs: seq<Member>, chain: set<string>): Result<seq<Member>>
    decreases |refs.Keys - chain|, MembersSize(vs), 0
  {
    if vs == [] then Ok([])
    else
      var v :- Resolve(refs, vs[0].value, chain);
      var rest :- ResolveValues(refs, vs[1..], chain);
      Ok([Member(vs[0].key, v)] + rest)
  }

  /** `for index, element in enumerate(schema[key]): schema[key][index] = resolve(element)`. */
  function CombinerStage(refs: Refs, orig: seq<Member>, cur: seq<Member>, key: string, chain: set<string>): Result<seq<Member>>
    decreases |refs.Keys - chain|, MembersSize(orig), 1
  {
    if !HasKey(orig, key) then Ok(cur)
    else
      match Get(orig, key)
      case JArr(es) =>
        var rs :- ResolveElems(refs, es, chain);
        Ok(Put(cur, key, JArr(rs)))
      case JObj(vs) =>
        // enumerating a dict yields its keys; storing under index 0 grows it
        if vs == [] then Ok(cur)
        else
          var _ :- Resolve(refs, JStr(vs[0].key), chain);
          Err(RuntimeError("dictionary changed size during iteration"))
      case JStr(s) =>
        if s == [] then Ok(cur)
        else
          var _ :- Resolve(refs, JStr([s[0]]), chain);
          Err(TypeError("'str' object does not support item assignment"))
      case _ => Err(TypeError("object is not iterable"))
  }

  function ResolveElems(refs: Refs, es: seq<Json>, chain: set<string>): Result<seq<Json>>
    decreases |refs.Keys - chain|, ElemsSize(es), 0
  {
    if es == [] then Ok([])
    else
      var e :- Resolve(refs, es[0], chain);
      var rest :- ResolveElems(refs, es[1..], chain);
      Ok([e] + rest)
  }

  /** `resolve_schema`: resolve from an empty chain, then drop `definitions`. */
  function ResolveSchema(refs: Refs, schema: Json): (r: Result<Json>)
    ensures r.Ok? ==> r.value.JObj? && !HasKey(r.value.members, DEFINITIONS)
    ensures !schema.JObj? ==> r.Err?
  {
    if !schema.JObj? then Err(AttributeError("object has no attribute 'get'"))
    else
      var res :- Resolve(refs, schema, {});
      Ok(JObj(Remove(res.members, DEFINITIONS)))
  }

  /** The keys `__traverse` tests, in the order it tests them. */
  const TraverseKeywords: seq<string> := [ITEMS, PROPERTIES, ALL_OF, ANY_OF, ONE_OF]

  /** The path `__traverse` records for `cur`: one trailing `*` step is dropped. */
  function Recorded(cur: seq<string>): seq<string>
    requires cur != []
  {
    if cur[|cur| - 1] != "*" then cur else cur[..|cur| - 1]
  }

  /**
   * `__traverse(name, d, cur, all_paths)` as a value: the step tuples it adds
   * to `all_paths`, or the exception it raises.
   */
  function TraversePaths(d: Json, cur: seq<string>): Result<set<seq<string>>>
    requires cur != []
    decreases Size(d), 3
  {
    var here := {Recorded(cur)};
    match d
    case JObj(ms) =>
      if HasKey(ms, ITEMS) then
        var sub :- TraversePaths(Get(ms, ITEMS), cur + ["*"]);
        Ok(here + sub)
      else
        var nested :- if HasKey(ms, PROPERTIES) then DrainPaths(Get(ms, PROPERTIES), cur) else Ok({});
        var combined :- CombinedPaths(d, cur);
        Ok(here + nested + combined)
    case JArr(_) =>
      if Mentions(d, TraverseKeywords) then Err(TypeError("list indices must be integers or slices, not str"))
      else Ok(here)
    case JStr(_) =>
      if Mentions(d, TraverseKeywords) then Err(TypeError("string indices must be integers"))
      else Ok(here)
    case _ => Err(TypeError("argument of type is not iterable"))
  }

  /** Only the first of `allOf`, `anyOf` and `oneOf` that the dict has is traversed. */
  function CombinedPaths(d: Json, cur: seq<string>): Result<set<seq<string>>>
    requires cur != [] && d.JObj?
    decreases Size(d), 2, 1
  {
    var ms := d.members;
    if HasKey(ms, ALL_OF) then CombinerPaths(d, Get(ms, ALL_OF), cur)
    else if HasKey(ms, ANY_OF) then CombinerPaths(d, Get(ms, ANY_OF), cur)
    else if HasKey(ms, ONE_OF) then CombinerPaths(d, Get(ms, ONE_OF), cur)
    else Ok({})
  }

  /** `while nested: name, sub = nested.popitem(); __traverse(name, sub, cur + (name,), ...)`. */
  function DrainPaths(nested: Json, cur: seq<string>): Result<set<seq<string>>>
    decreases Size(nested), 2
  {
    if !Truthy(nested) then Ok({})
    else if !nested.JObj? then Err(AttributeError("object has no attribute 'popitem'"))
    else DrainMembers(nested.members, cur)
  }

  /** `popitem` takes the most recently inserted member first. */
  function DrainMembers(ms: seq<Member>, cur: seq<string>): Result<set<seq<string>>>
    decreases MembersSize(ms), 1
  {
    if ms == [] then Ok({})
    else
      var n := |ms| - 1;
      MembersSizeSplit(ms, n);
      MemberSmaller(ms, n);
      var last :- TraversePaths(ms[n].value, cur + [ms[n].key]);
      var rest :- DrainMembers(ms[..n], cur);
      Ok(last + rest)
  }

  /** `for sub in d[combiner]: __traverse(name, sub, cur, ...)`, all at the same path. */
  function CombinerPaths(d: Json, v: Json, cur: seq<string>): Result<set<seq<string>>>
    requires cur != [] && Size(v) < Size(d)
    decreases Size(d), 2, 0
  {
    var xs :- Iterate(v);
    IterateSizes(v);
    SubSchemaPaths(d, xs, cur)
  }

  function SubSchemaPaths(d: Json, xs: seq<Json>, cur: seq<string>): Result<set<seq<string>>>
    requires cur != [] && forall x :: x in xs ==> Size(x) < Size(d)
    decreases Size(d), 1, |xs|
  {
    if xs == [] then Ok({})
    else
      var first :- TraversePaths(xs[0], cur);
      var rest :- SubSchemaPaths(d, xs[1..], cur);
      Ok(first + rest)
  }

  /** `"/".join(steps)`. */
  function JoinSlash(steps: seq<string>): string
  {
    if steps == [] then "" else if |steps| == 1 then steps[0] else steps[0] + "/" + JoinSlash(steps[1..])
  }

  /** The rendering of one step tuple in the list `_fetch_all_paths` returns. */
  function RenderPath(steps: seq<string>): string
  {
    "/properties/" + JoinSlash(steps)
  }

  /**
   * `_fetch_all_paths` up to the order of the final list: the step tuples
   * traversed from the top-level properties of the resolved schema, with
   * that resolved schema (the caller's dict is resolved in place).
   */
  function AllPaths(refs: Refs, schema: Json): Result<(Json, set<seq<string>>)>
  {
    var resolved :- ResolveSchema(refs, schema);
    var ps :- DrainPaths(GetOr(resolved.members, PROPERTIES, JObj([])), []);
    Ok((resolved, ps))
  }

  /** A computation that already produced `a`, followed by `r`. */
  function Then(a: set<seq<string>>, r: Result<set<seq<string>>>): Result<set<seq<string>>>
  {
    if r.Ok? then Ok(a + r.value) else r
  }

  lemma ThenEmpty(r: Result<set<seq<string>>>)
    ensures Then({}, r) == r
  {
    if r.Ok? {
      assert {} + r.value == r.value;
    }
  }

  lemma ThenThen(a: set<seq<string>>, b: set<seq<string>>, r: Result<set<seq<string>>>)
    ensures Then(a, Then(b, r)) == Then(a + b, r)
  {
    if r.Ok? {
      assert a + (b + r.value) == a + b + r.value;
    }
  }

  /** Draining pops the last member, then drains the rest. */
  lemma DrainStep(ms: seq<Member>, cur: seq<string>)
    requires ms != []
    ensures var n := |ms| - 1;
      var t := TraversePaths(ms[n].value, cur + [ms[n].key]);
      DrainMembers(ms, cur) == if t.Ok? then Then(t.value, DrainMembers(ms[..n], cur)) else Err(t.error)
  {
  }

  /** `order` lists every element of `s` exactly once. */
  ghost predicate Enumerates(order: seq<seq<string>>, s: set<seq<string>>)
  {
    (forall t :: t in s <==> t in order)
    && (forall i, j :: 0 <= i < j < |order| ==> order[i] != order[j])
  }

  /** The list comprehension rendering each tuple, in enumeration order. */
  function Rendered(order: seq<seq<string>>): (r: seq<string>)
    ensures |r| == |order| && forall i :: 0 <= i < |order| ==> r[i] == RenderPath(order[i])
  {
    seq(|order|, i requires 0 <= i < |order| => RenderPath(order[i]))
  }

  /** The shared `all_paths` set `__traverse` adds to. */
  class PathCollector {
    var paths: set<seq<string>>

    constructor ()
      ensures paths == {}
    {
      paths := {};
    }

    /** `__traverse`. */
    method Traverse(d: Json, cur: seq<string>) returns (res: Outcome)
      requires cur != []
      modifies this
      ensures res == OutcomeOf(TraversePaths(d, cur))
      ensures TraversePaths(d, cur).Ok? ==> paths == old(paths) + TraversePaths(d, cur).value
      decreases Size(d), 3
    {
      paths := paths + {Recorded(cur)};
      if !d.JObj? {
        if d.JArr? || d.JStr? {
          if Mentions(d, TraverseKeywords) {
            return Fail(TraversePaths(d, cur).error);
          }
          return Pass;
        }
        return Fail(TypeError("argument of type is not iterable"));
      }
      var ms := d.members;
      if HasKey(ms, ITEMS) {
        res := Traverse(Get(ms, ITEMS), cur + ["*"]);
        return;
      }
      res := Members(d, cur);
    }

    /** The rest of `__traverse` on a dict without `items`: its properties, then the first combiner. */
    method Members(d: Json, cur: seq<string>) returns (res: Outcome)
      requires cur != [] && d.JObj? && !HasKey(d.members, ITEMS)
      requires Recorded(cur) in paths
      modifies this
      ensures res == OutcomeOf(TraversePaths(d, cur))
      ensures TraversePaths(d, cur).Ok? ==> paths == old(paths) + TraversePaths(d, cur).value
      decreases Size(d), 2, 2
    {
      var ms := d.members;
      if HasKey(ms, PROPERTIES) {
        GetSmaller(ms, PROPERTIES);
        res := Drain(Get(ms, PROPERTIES), cur);
        if res.Fail? {
          return;
        }
      }
      res := FirstCombiner(d, cur);
    }

    /** The `if/elif` over the combiners in `__traverse`. */
    method FirstCombiner(d: Json, cur: seq<string>) returns (res: Outcome)
      requires cur != [] && d.JObj?
      modifies this
      ensures res == OutcomeOf(CombinedPaths(d, cur))
      ensures CombinedPaths(d, cur).Ok? ==> paths == old(paths) + CombinedPaths(d, cur).value
      decreases Size(d), 2, 1
    {
      var ms := d.members;
      if HasKey(ms, ALL_OF) {
        GetSmaller(ms, ALL_OF);
        res := Combiner(d, Get(ms, ALL_OF), cur);
      } else if HasKey(ms, ANY_OF) {
        GetSmaller(ms, ANY_OF);
        res := Combiner(d, Get(ms, ANY_OF), cur);
      } else if HasKey(ms, ONE_OF) {
        GetSmaller(ms, ONE_OF);
        res := Combiner(d, Get(ms, ONE_OF), cur);
      } else {
        res := Pass;
      }
    }

    /** `while nested: name, sub = nested.popitem(); __traverse(...)` on a copy. */
    method Drain(nested: Json, cur: seq<string>) returns (res: Outcome)
      modifies this
      ensures res == OutcomeOf(DrainPaths(nested, cur))
      ensures DrainPaths(nested, cur).Ok? ==> paths == old(paths) + DrainPaths(nested, cur).value
      decreases Size(nested), 2, 0
    {
      if !Truthy(nested) {
        return Pass;
      }
      if !nested.JObj? {
        return Fail(AttributeError("object has no attribute 'popitem'"));
      }
      var ms := nested.members;
      var remaining := ms;
      ghost var done: set<seq<string>> := {};
      ThenEmpty(DrainMembers(ms, cur));
      while remaining != []
        invariant remaining == ms[..|remaining|]
        invariant DrainMembers(ms, cur) == Then(done, DrainMembers(remaining, cur))
        invariant paths == old(paths) + done
        decreases |remaining|
      {
        var n := |remaining| - 1;
        var name := remaining[n].key;
        var sub := remaining[n].value;
        assert sub == ms[n].value;
        MemberSmaller(ms, n);
        res := Traverse(sub, cur + [name]);
        DrainStep(remaining, cur);
        if res.Fail? {
          return;
        }
        ghost var last := TraversePaths(sub, cur + [name]).value;
        ThenThen(done, last, DrainMembers(remaining[..n], cur));
        assert remaining[..n] == ms[..n];
        remaining := remaining[..n];
        done := done + last;
      }
      return Pass;
    }

    /** `for sub in d[combiner]: __traverse(name, sub, cur, ...)`. */
    method Combiner(d: Json, v: Json, cur: seq<string>) returns (res: Outcome)
      requires cur != [] && Size(v) < Size(d)
      modifies this
      ensures res == OutcomeOf(CombinerPaths(d, v, cur))
      ensures CombinerPaths(d, v, cur).Ok? ==> paths == old(paths) + CombinerPaths(d, v, cur).value
      decreases Size(d), 2, 0
    {
      var it := Iterate(v);
      if it.Err? {
        return Fail(it.error);
      }
      var xs := it.value;
      IterateSizes(v);
      var i := 0;
      ghost var done: set<seq<string>> := {};
      ThenEmpty(SubSchemaPaths(d, xs, cur));
      assert xs[0..] == xs;
      while i < |xs|
        invariant 0 <= i <= |xs|
        invariant SubSchemaPaths(d, xs, cur) == Then(done, SubSchemaPaths(d, xs[i..], cur))
        invariant paths == old(paths) + done
      {
        assert xs[i] in xs;
        res := Traverse(xs[i], cur);
        assert xs[i..][1..] == xs[i + 1..];
        if res.Fail? {
          return;
        }
        ThenThen(done, TraversePaths(xs[i], cur).value, SubSchemaPaths(d, xs[i + 1..], cur));
        done := done + TraversePaths(xs[i], cur).value;
        i := i + 1;
      }
      return Pass;
    }
  }

  /**
   * `_fetch_all_paths`: the resolved schema (the caller's dict becomes it)
   * and the rendered paths, listed in the set's iteration order, which the
   * ghost `order` names.
   */
  method FetchAllPaths(refs: Refs, schema: Json) returns (r: Result<(Json, seq<string>)>, ghost order: seq<seq<string>>)
    ensures r.Ok? <==> AllPaths(refs, schema).Ok?
    ensures r.Ok? ==>
              && r.value.0 == AllPaths(refs, schema).value.0
              && Enumerates(order, AllPaths(refs, schema).value.1)
              && r.value.1 == Rendered(order)
    ensures r.Err? ==> r.error == AllPaths(refs, schema).error
  {
    order := [];
    var resolved := ResolveSchema(refs, schema);
    if resolved.Err? {
      return Err(resolved.error), order;
    }
    var collector := new PathCollector();
    var outcome := collector.Drain(GetOr(resolved.value.members, PROPERTIES, JObj([])), []);
    if outcome.Fail? {
      return Err(outcome.error), order;
    }
    var out;
    out, order := RenderAll(collector.paths);
    r := Ok((resolved.value, out));
  }

  /** `[... for path in all_paths]`: every collected tuple rendered once, in iteration order. */
  method RenderAll(paths: set<seq<string>>) returns (out: seq<string>, ghost order: seq<seq<string>>)
    ensures Enumerates(order, paths)
    ensures out == Rendered(order)
  {
    order := [];
    var left := paths;
    out := [];
    while left != {}
      invariant left !! (set t | t in order)
      invariant forall t :: t in paths <==> t in left || t in order
      invariant forall i, j :: 0 <= i < j < |order| ==> order[i] != order[j]
      invariant out == Rendered(order)
      decreases |left|
    {
      var t :| t in left;
      out := out + [RenderPath(t)];
      order := order + [t];
      left := left - {t};
    }
  }

  /** `path.split("/")[-1]`: the text after the last slash. */
  function LastSegment(path: string): string
  {
    if path == [] then ""
    else if path[|path| - 1] == '/' then ""
    else LastSegment(path[..|path| - 1]) + [path[|path| - 1]]
  }

  /** A path whose last segment contains "Tag". */
  predicate Tagged(path: string)
  {
    IsSubstring("Tag", LastSegment(path))
  }

  /** The first listed path that `_add_tag_property` accepts. */
  function FirstTagged(paths: seq<string>): Option<string>
  {
    if paths == [] then None
    else if Tagged(paths[0]) then Some(paths[0])
    else FirstTagged(paths[1..])
  }

  /** The schema after `_add_tag_property`. */
  function WithTaggingPath(paths: seq<string>, ms: seq<Member>): seq<Member>
  {
    match FirstTagged(paths)
    case Some(p) => Put(ms, "TaggingPath", JStr(p))
    case None => ms
  }

  /** `_add_tag_property`: the first tagged path becomes `TaggingPath`. */
  method AddTagProperty(paths: seq<string>, ms: seq<Member>) returns (out: seq<Member>)
    ensures out == WithTaggingPath(paths, ms)
  {
    var i := 0;
    while i < |paths|
      invariant 0 <= i <= |paths|
      invariant FirstTagged(paths) == FirstTagged(paths[i..])
    {
      assert paths[i..][1..] == paths[i + 1..];
      if Tagged(paths[i]) {
        return Put(ms, "TaggingPath", JStr(paths[i]));
      }
      i := i + 1;
    }
    return ms;
  }

  /** The list of path strings as a JSON value. */
  function PathList(paths: seq<string>): (j: Json)
    ensures j.JArr? && |j.elems| == |paths|
    ensures forall i :: 0 <= i < |paths| ==> j.elems[i] == JStr(paths[i])
  {
    JArr(seq(|paths|, i requires 0 <= i < |paths| => JStr(paths[i])))
  }

  /** The schema `add_paths_to_schema` returns for a resolved schema and its path list. */
  function Annotated(resolved: seq<Member>, paths: seq<string>): seq<Member>
  {
    WithTaggingPath(paths, Put(resolved, "paths", PathList(paths)))
  }

  /**
   * `add_paths_to_schema`: the resolved schema with `paths` set to the
   * enumerated paths and, when one qualifies, `TaggingPath`.
   */
  method AddPathsToSchema(refs: Refs, schema: Json) returns (r: Result<Json>, ghost order: seq<seq<string>>)
    ensures r.Ok? <==> AllPaths(refs, schema).Ok?
    ensures r.Ok? ==>
              && Enumerates(order, AllPaths(refs, schema).value.1)
              && r.value == JObj(Annotated(AllPaths(refs, schema).value.0.members, Rendered(order)))
    ensures r.Err? ==> r.error == AllPaths(refs, schema).error
  {
    var fetched;
    fetched, order := FetchAllPaths(refs, schema);
    if fetched.Err? {
      return Err(fetched.error), order;
    }
    var resolved := fetched.value.0;
    var paths := fetched.value.1;
    var ms := Put(resolved.members, "paths", PathList(paths));
    ms := AddTagProperty(paths, ms);
    r := Ok(JObj(ms));
  }
}
