/**
 * Properties of the property-path enumeration behind `paths` and of the
 * choice of `TaggingPath`.
 */
module SchemaPathLemmas {
  import opened Results
  import opened Json
  import opened SchemaUtils

  // ---------------------------------------------------------------------
  // Where the recorded tuples lie
  // ---------------------------------------------------------------------

  lemma RecordedPrefix(cur: seq<string>)
    requires cur != []
    ensures Recorded(cur) <= cur
  {
  }

  /**
   * A traversal records its own path, and everything else it records lies
   * below that path.
   */
  lemma {:induction false} TraversePathsBelow(d: Json, cur: seq<string>)
    requires cur != []
    ensures TraversePaths(d, cur).Ok? ==> Recorded(cur) in TraversePaths(d, cur).value
    ensures TraversePaths(d, cur).Ok? ==>
      forall t :: t in TraversePaths(d, cur).value ==> t == Recorded(cur) || cur <= t
    decreases Size(d), 3
  {
    match d
    case JObj(ms) =>
      if HasKey(ms, ITEMS) {
        var c := cur + ["*"];
        TraversePathsBelow(Get(ms, ITEMS), c);
        StarBelow(cur, TraversePaths(Get(ms, ITEMS), c));
      } else {
        if HasKey(ms, PROPERTIES) {
          DrainPathsBelow(Get(ms, PROPERTIES), cur);
        }
        CombinedPathsBelow(d, cur);
      }
    case _ =>
  }

  lemma {:induction false} CombinedPathsBelow(d: Json, cur: seq<string>)
    requires cur != [] && d.JObj?
    ensures CombinedPaths(d, cur).Ok? ==>
      forall t :: t in CombinedPaths(d, cur).value ==> t == Recorded(cur) || cur <= t
    decreases Size(d), 2, 1
  {
    var ms := d.members;
    if HasKey(ms, ALL_OF) {
      GetSmaller(ms, ALL_OF);
      CombinerPathsBelow(d, Get(ms, ALL_OF), cur);
    } else if HasKey(ms, ANY_OF) {
      GetSmaller(ms, ANY_OF);
      CombinerPathsBelow(d, Get(ms, ANY_OF), cur);
    } else if HasKey(ms, ONE_OF) {
      GetSmaller(ms, ONE_OF);
      CombinerPathsBelow(d, Get(ms, ONE_OF), cur);
    }
  }

  /** What an `items` traversal records at `cur + ["*"]` lies at or below `cur`. */
  lemma StarBelow(cur: seq<string>, r: Result<set<seq<string>>>)
    requires cur != []
    requires r.Ok? ==> forall t :: t in r.value ==> t == Recorded(cur + ["*"]) || cur + ["*"] <= t
    ensures r.Ok? ==> forall t :: t in r.value ==> cur <= t
  {
    var c := cur + ["*"];
    assert Recorded(c) == cur;
    if r.Ok? {
      forall t | t in r.value ensures cur <= t {
        if t != Recorded(c) {
          assert c <= t;
          assert t[..|cur|] == c[..|cur|];
        }
      }
    }
  }

  /**
   * Draining a `properties` map records only tuples below `cur`, and the
   * step right after `cur` is always one of the map's keys.
   */
  lemma {:induction false} DrainPathsBelow(nested: Json, cur: seq<string>)
    ensures DrainPaths(nested, cur).Ok? ==> forall t :: t in DrainPaths(nested, cur).value ==> cur <= t
    decreases Size(nested), 2
  {
    if Truthy(nested) && nested.JObj? {
      DrainMembersBelow(nested.members, cur);
    }
  }

  lemma {:induction false} DrainMembersBelow(ms: seq<Member>, cur: seq<string>)
    ensures DrainMembers(ms, cur).Ok? ==>
      forall t :: t in DrainMembers(ms, cur).value ==>
        cur <= t && (|t| > |cur| ==> exists i :: 0 <= i < |ms| && ms[i].key == t[|cur|])
    decreases MembersSize(ms), 1
  {
    if ms != [] {
      var n := |ms| - 1;
      MembersSizeSplit(ms, n);
      MemberSmaller(ms, n);
      var c := cur + [ms[n].key];
      TraversePathsBelow(ms[n].value, c);
      DrainMembersBelow(ms[..n], cur);
      var r := DrainMembers(ms, cur);
      if r.Ok? {
        var last := TraversePaths(ms[n].value, c).value;
        var rest := DrainMembers(ms[..n], cur).value;
        assert r.value == last + rest;
        forall t | t in r.value
          ensures cur <= t && (|t| > |cur| ==> exists i :: 0 <= i < |ms| && ms[i].key == t[|cur|])
        {
          if t in last {
            if t == Recorded(c) {
              assert t == c || t == cur;
            } else {
              assert c <= t;
              assert t[..|cur|] == c[..|cur|];
              assert t[|cur|] == c[|cur|];
            }
          } else {
            assert t in rest;
            if |t| > |cur| {
              var i :| 0 <= i < n && ms[..n][i].key == t[|cur|];
              assert ms[i].key == t[|cur|];
            }
          }
        }
      }
    }
  }

  lemma {:induction false} CombinerPathsBelow(d: Json, v: Json, cur: seq<string>)
    requires cur != [] && Size(v) < Size(d)
    ensures CombinerPaths(d, v, cur).Ok? ==>
      forall t :: t in CombinerPaths(d, v, cur).value ==> t == Recorded(cur) || cur <= t
    decreases Size(d), 2, 0
  {
    var xs := Iterate(v);
    if xs.Ok? {
      IterateSizes(v);
      SubSchemaPathsBelow(d, xs.value, cur);
    }
  }

  lemma {:induction false} SubSchemaPathsBelow(d: Json, xs: seq<Json>, cur: seq<string>)
    requires cur != [] && forall x :: x in xs ==> Size(x) < Size(d)
    ensures SubSchemaPaths(d, xs, cur).Ok? ==>
      forall t :: t in SubSchemaPaths(d, xs, cur).value ==> t == Recorded(cur) || cur <= t
    decreases Size(d), 1, |xs|
  {
    if xs != [] {
      TraversePathsBelow(xs[0], cur);
      SubSchemaPathsBelow(d, xs[1..], cur);
    }
  }

  /** Every member of a drained `properties` map has its own path recorded. */
  lemma {:induction false} DrainMembersRecordsKeys(ms: seq<Member>, cur: seq<string>)
    ensures DrainMembers(ms, cur).Ok? ==>
      forall i :: 0 <= i < |ms| ==> Recorded(cur + [ms[i].key]) in DrainMembers(ms, cur).value
    decreases |ms|
  {
    if ms != [] {
      var n := |ms| - 1;
      TraversePathsBelow(ms[n].value, cur + [ms[n].key]);
      DrainMembersRecordsKeys(ms[..n], cur);
      if DrainMembers(ms, cur).Ok? {
        forall i | 0 <= i < |ms| ensures Recorded(cur + [ms[i].key]) in DrainMembers(ms, cur).value {
          if i < n {
            assert ms[..n][i] == ms[i];
          }
        }
      }
    }
  }

  /**
   * The top-level tuples of `_fetch_all_paths`: one per top-level property
   * of the resolved schema (a property named `*` records the empty tuple),
   * and every tuple starts with one of those names.
   */
  lemma AllPathsTopLevel(refs: Refs, schema: Json)
    ensures AllPaths(refs, schema).Ok? ==>
      var resolved := AllPaths(refs, schema).value.0;
      var ps := AllPaths(refs, schema).value.1;
      var props := GetOr(resolved.members, PROPERTIES, JObj([]));
      && (forall t :: t in ps ==> props.JObj?)
      && (props.JObj? ==> forall i :: 0 <= i < |props.members| ==> Recorded([props.members[i].key]) in ps)
      && (forall t :: t in ps && t != [] ==>
            props.JObj? && exists i :: 0 <= i < |props.members| && props.members[i].key == t[0])
  {
    var r := AllPaths(refs, schema);
    if r.Ok? {
      var resolved := r.value.0;
      var props := GetOr(resolved.members, PROPERTIES, JObj([]));
      if Truthy(props) && props.JObj? {
        DrainMembersBelow(props.members, []);
        DrainMembersRecordsKeys(props.members, []);
        forall i | 0 <= i < |props.members| ensures Recorded([props.members[i].key]) in r.value.1 {
          assert [] + [props.members[i].key] == [props.members[i].key];
        }
      } else if props.JObj? {
        assert props.members == [];
      }
    }
  }

  /** Below a node's `properties`, each property gets its own recorded path. */
  lemma PropertiesRecorded(ms: seq<Member>, cur: seq<string>)
    requires cur != [] && !HasKey(ms, ITEMS) && HasKey(ms, PROPERTIES) && Get(ms, PROPERTIES).JObj?
    ensures TraversePaths(JObj(ms), cur).Ok? ==>
      var pm := Get(ms, PROPERTIES).members;
      forall i :: 0 <= i < |pm| ==> Recorded(cur + [pm[i].key]) in TraversePaths(JObj(ms), cur).value
  {
    var pm := Get(ms, PROPERTIES).members;
    if pm != [] {
      DrainMembersRecordsKeys(pm, cur);
    }
  }

  // ---------------------------------------------------------------------
  // What shadows what
  // ---------------------------------------------------------------------

  /** `items` shadows the node's `properties` and combiners. */
  lemma ItemsShadows(ms: seq<Member>, cur: seq<string>)
    requires cur != [] && HasKey(ms, ITEMS)
    ensures TraversePaths(JObj(ms), cur) == TraversePaths(JObj([Member(ITEMS, Get(ms, ITEMS))]), cur)
  {
    assert HasKey([Member(ITEMS, Get(ms, ITEMS))], ITEMS);
  }

  /** The sub-schema traversal does not depend on the node it came from. */
  lemma {:induction false} SubSchemaIndependent(d1: Json, d2: Json, xs: seq<Json>, cur: seq<string>)
    requires cur != []
    requires forall x :: x in xs ==> Size(x) < Size(d1)
    requires forall x :: x in xs ==> Size(x) < Size(d2)
    ensures SubSchemaPaths(d1, xs, cur) == SubSchemaPaths(d2, xs, cur)
    decreases |xs|
  {
    if xs != [] {
      SubSchemaIndependent(d1, d2, xs[1..], cur);
    }
  }

  lemma CombinerIndependent(d1: Json, d2: Json, v: Json, cur: seq<string>)
    requires cur != [] && Size(v) < Size(d1) && Size(v) < Size(d2)
    ensures CombinerPaths(d1, v, cur) == CombinerPaths(d2, v, cur)
  {
    if Iterate(v).Ok? {
      IterateSizes(v);
      SubSchemaIndependent(d1, d2, Iterate(v).value, cur);
    }
  }

  /** The paths below an object's `properties`, as `__traverse` drains them. */
  function NestedOf(ms: seq<Member>, cur: seq<string>): Result<set<seq<string>>>
  {
    if HasKey(ms, PROPERTIES) then DrainPaths(Get(ms, PROPERTIES), cur) else Ok({})
  }

  /** The node's own path, the nested paths and the combiner's paths, the first failure winning. */
  function Joined(cur: seq<string>, nested: Result<set<seq<string>>>, combined: Result<set<seq<string>>>): Result<set<seq<string>>>
    requires cur != []
  {
    var n :- nested;
    var c :- combined;
    Ok({Recorded(cur)} + n + c)
  }

  lemma AllOfTraversal(ms: seq<Member>, cur: seq<string>)
    requires cur != [] && !HasKey(ms, ITEMS) && HasKey(ms, ALL_OF)
    ensures TraversePaths(JObj(ms), cur) == Joined(cur, NestedOf(ms, cur), CombinerPaths(JObj(ms), Get(ms, ALL_OF), cur))
  {
  }

  lemma AnyOfTraversal(ms: seq<Member>, cur: seq<string>)
    requires cur != [] && !HasKey(ms, ITEMS) && !HasKey(ms, ALL_OF) && HasKey(ms, ANY_OF)
    ensures TraversePaths(JObj(ms), cur) == Joined(cur, NestedOf(ms, cur), CombinerPaths(JObj(ms), Get(ms, ANY_OF), cur))
  {
  }

  /** Removing keys other than `properties` leaves the nested paths alone. */
  lemma NestedOfKept(ms: seq<Member>, ms': seq<Member>, cur: seq<string>)
    requires Lookup(ms', PROPERTIES) == Lookup(ms, PROPERTIES)
    ensures NestedOf(ms', cur) == NestedOf(ms, cur)
  {
  }

  /** With `allOf` present, `anyOf` and `oneOf` are not visited. */
  lemma AllOfShadows(ms: seq<Member>, cur: seq<string>)
    requires cur != [] && !HasKey(ms, ITEMS) && HasKey(ms, ALL_OF)
    ensures TraversePaths(JObj(ms), cur) == TraversePaths(JObj(Remove(Remove(ms, ANY_OF), ONE_OF)), cur)
  {
    var ms' := Remove(Remove(ms, ANY_OF), ONE_OF);
    assert Lookup(ms', ITEMS) == Lookup(ms, ITEMS);
    assert Lookup(ms', PROPERTIES) == Lookup(ms, PROPERTIES);
    assert Lookup(ms', ALL_OF) == Lookup(ms, ALL_OF);
    AllOfTraversal(ms, cur);
    AllOfTraversal(ms', cur);
    NestedOfKept(ms, ms', cur);
    var v := Get(ms, ALL_OF);
    assert Get(ms', ALL_OF) == v;
    GetSmaller(ms', ALL_OF);
    GetSmaller(ms, ALL_OF);
    CombinerIndependent(JObj(ms), JObj(ms'), v, cur);
  }

  /** With `anyOf` but no `allOf`, `oneOf` is not visited. */
  lemma AnyOfShadowsOneOf(ms: seq<Member>, cur: seq<string>)
    requires cur != [] && !HasKey(ms, ITEMS) && !HasKey(ms, ALL_OF) && HasKey(ms, ANY_OF)
    ensures TraversePaths(JObj(ms), cur) == TraversePaths(JObj(Remove(ms, ONE_OF)), cur)
  {
    var ms' := Remove(ms, ONE_OF);
    assert Lookup(ms', ITEMS) == Lookup(ms, ITEMS);
    assert Lookup(ms', PROPERTIES) == Lookup(ms, PROPERTIES);
    assert Lookup(ms', ALL_OF) == Lookup(ms, ALL_OF);
    assert Lookup(ms', ANY_OF) == Lookup(ms, ANY_OF);
    AnyOfTraversal(ms, cur);
    AnyOfTraversal(ms', cur);
    NestedOfKept(ms, ms', cur);
    var v := Get(ms, ANY_OF);
    assert Get(ms', ANY_OF) == v;
    GetSmaller(ms', ANY_OF);
    GetSmaller(ms, ANY_OF);
    CombinerIndependent(JObj(ms), JObj(ms'), v, cur);
  }

  lemma {:induction false} SubSchemaContains(d: Json, xs: seq<Json>, cur: seq<string>, i: nat)
    requires cur != [] && forall x :: x in xs ==> Size(x) < Size(d)
    requires SubSchemaPaths(d, xs, cur).Ok? && i < |xs|
    ensures TraversePaths(xs[i], cur).Ok?
    ensures TraversePaths(xs[i], cur).value <= SubSchemaPaths(d, xs, cur).value
    decreases i
  {
    if i > 0 {
      SubSchemaContains(d, xs[1..], cur, i - 1);
    }
  }

  /**
   * The sub-schemas of `allOf` are traversed at the node's own path: their
   * tuples are merged into the node's, with no step for the combiner.
   */
  lemma AllOfFlattened(ms: seq<Member>, cur: seq<string>, i: nat)
    requires cur != [] && !HasKey(ms, ITEMS) && HasKey(ms, ALL_OF)
    requires TraversePaths(JObj(ms), cur).Ok?
    requires Iterate(Get(ms, ALL_OF)).Ok? && i < |Iterate(Get(ms, ALL_OF)).value|
    ensures TraversePaths(Iterate(Get(ms, ALL_OF)).value[i], cur).Ok?
    ensures TraversePaths(Iterate(Get(ms, ALL_OF)).value[i], cur).value <= TraversePaths(JObj(ms), cur).value
  {
    var v := Get(ms, ALL_OF);
    AllOfTraversal(ms, cur);
    IterateSizes(v);
    SubSchemaContains(JObj(ms), Iterate(v).value, cur, i);
  }

  // ---------------------------------------------------------------------
  // TaggingPath
  // ---------------------------------------------------------------------

  /** The last segment is the longest slash-free suffix. */
  lemma {:induction false} LastSegmentIsSuffix(path: string)
    ensures var s := LastSegment(path);
      && |s| <= |path| && path[|path| - |s|..] == s
      && (forall k :: 0 <= k < |s| ==> s[k] != '/')
      && (|s| < |path| ==> path[|path| - |s| - 1] == '/')
  {
    if path != [] && path[|path| - 1] != '/' {
      var p := path[..|path| - 1];
      LastSegmentIsSuffix(p);
      var s := LastSegment(p);
      assert path == p + [path[|path| - 1]];
    }
  }

  lemma {:induction false} LastSegmentAfterSlash(prefix: string, seg: string)
    requires forall k :: 0 <= k < |seg| ==> seg[k] != '/'
    ensures LastSegment(prefix + "/" + seg) == seg
    decreases |seg|
  {
    if seg == [] {
      assert prefix + "/" + seg == prefix + "/";
    } else {
      var n := |seg| - 1;
      LastSegmentAfterSlash(prefix, seg[..n]);
      assert (prefix + "/" + seg)[..|prefix + "/" + seg| - 1] == prefix + "/" + seg[..n];
      assert seg[..n] + [seg[n]] == seg;
    }
  }

  /** `FirstTagged` is the first path, in list order, whose last segment contains "Tag". */
  lemma {:induction false} FirstTaggedIsFirst(ps: seq<string>)
    ensures FirstTagged(ps).None? <==> forall i :: 0 <= i < |ps| ==> !Tagged(ps[i])
    ensures FirstTagged(ps).Some? ==>
      exists i :: 0 <= i < |ps| && ps[i] == FirstTagged(ps).value && Tagged(ps[i])
        && forall j :: 0 <= j < i ==> !Tagged(ps[j])
  {
    if ps != [] && !Tagged(ps[0]) {
      FirstTaggedIsFirst(ps[1..]);
      if FirstTagged(ps).None? {
        forall i | 0 <= i < |ps| ensures !Tagged(ps[i]) {
          if i > 0 {
            assert ps[i] == ps[1..][i - 1];
          }
        }
      } else {
        var i :| 0 <= i < |ps[1..]| && ps[1..][i] == FirstTagged(ps).value && Tagged(ps[1..][i])
          && forall j :: 0 <= j < i ==> !Tagged(ps[1..][j]);
        forall j | 0 <= j < i + 1 ensures !Tagged(ps[j]) {
          if j > 0 {
            assert ps[j] == ps[1..][j - 1];
          }
        }
      }
    }
  }

  /** When exactly one listed path is tagged, it is chosen, whatever the order. */
  lemma {:induction false} OnlyTaggedIsChosen(ps: seq<string>, p: string)
    requires p in ps && Tagged(p)
    requires forall q :: q in ps && q != p ==> !Tagged(q)
    ensures FirstTagged(ps) == Some(p)
  {
    if ps[0] != p {
      assert ps[1..] + [] == ps[1..];
      assert p in ps[1..];
      forall q | q in ps[1..] && q != p ensures !Tagged(q) {
        assert q in ps;
      }
      OnlyTaggedIsChosen(ps[1..], p);
    }
  }

  /** What `add_paths_to_schema` adds, and what it leaves alone. */
  lemma AnnotatedFields(resolved: seq<Member>, paths: seq<string>, k: string)
    ensures Lookup(Annotated(resolved, paths), "paths") == Some(PathList(paths))
    ensures FirstTagged(paths).Some? ==>
      Lookup(Annotated(resolved, paths), "TaggingPath") == Some(JStr(FirstTagged(paths).value))
    ensures FirstTagged(paths).None? ==>
      Lookup(Annotated(resolved, paths), "TaggingPath") == Lookup(resolved, "TaggingPath")
    ensures k != "paths" && k != "TaggingPath" ==> Lookup(Annotated(resolved, paths), k) == Lookup(resolved, k)
  {
  }
  /** A segment without a 'g' cannot contain "Tag". */
  lemma UntaggedSegment(prefix: string, seg: string)
    requires forall k :: 0 <= k < |seg| ==> seg[k] != '/' && seg[k] != 'g'
    ensures !Tagged(prefix + "/" + seg)
  {
    LastSegmentAfterSlash(prefix, seg);
    forall i | 0 <= i <= |seg| - 3 ensures !OccursAt("Tag", seg, i) {
      assert seg[i..i + 3][2] == seg[i + 2] != 'g';
    }
  }

  lemma DescriptionTagsTagged()
    ensures Tagged("/properties/Description/Tags")
  {
    LastSegmentAfterSlash("/properties/Description", "Tags");
    assert "/properties/Description" + "/" + "Tags" == "/properties/Description/Tags";
    assert OccursAt("Tag", "Tags", 0);
  }

  /** Every launch-template path but the tagged one, split at its last slash. */
  const UntaggedSplits: seq<(string, string)> := [
    ("/properties", "LaunchTemplate"),
    ("/properties/LaunchTemplate", "LaunchTemplateName"),
    ("/properties/LaunchTemplate", "LaunchTemplateId"),
    ("/properties/LaunchTemplate", "Version"),
    ("/properties", "Description"),
    ("/properties/Description/Tags/*", "Key"),
    ("/properties/Description/Tags/*", "Value")
  ]

  /** The rendered paths of the launch-template schema in the tagging test. */
  const LaunchTemplatePaths: set<string> :=
    {"/properties/Description/Tags"} + set p | p in UntaggedSplits :: p.0 + "/" + p.1

  /** Each split's segment is free of "Tag"; one case per entry keeps each proof obligation small. */
  lemma SplitUntagged(i: nat)
    requires i < |UntaggedSplits|
    ensures !Tagged(UntaggedSplits[i].0 + "/" + UntaggedSplits[i].1)
  {
    var (prefix, seg) := UntaggedSplits[i];
    if i == 0 { UntaggedSegment(prefix, seg); }
    else if i == 1 { UntaggedSegment(prefix, seg); }
    else if i == 2 { UntaggedSegment(prefix, seg); }
    else if i == 3 { UntaggedSegment(prefix, seg); }
    else if i == 4 { UntaggedSegment(prefix, seg); }
    else if i == 5 { UntaggedSegment(prefix, seg); }
    else { UntaggedSegment(prefix, seg); }
  }

  lemma LaunchTemplateUntagged(q: string)
    requires q in LaunchTemplatePaths && q != "/properties/Description/Tags"
    ensures !Tagged(q)
  {
    var p :| p in UntaggedSplits && q == p.0 + "/" + p.1;
    var i :| 0 <= i < |UntaggedSplits| && UntaggedSplits[i] == p;
    SplitUntagged(i);
  }

  /**
   * For the launch-template schema, `TaggingPath` is
   * `/properties/Description/Tags` in whatever order the paths are listed.
   */
  lemma LaunchTemplateTaggingPath(ps: seq<string>)
    requires forall q :: q in ps ==> q in LaunchTemplatePaths
    requires "/properties/Description/Tags" in ps
    ensures FirstTagged(ps) == Some("/properties/Description/Tags")
  {
    DescriptionTagsTagged();
    forall q | q in ps && q != "/properties/Description/Tags" ensures !Tagged(q) {
      LaunchTemplateUntagged(q);
    }
    OnlyTaggedIsChosen(ps, "/properties/Description/Tags");
  }
}
