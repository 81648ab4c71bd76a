/**
 * Schema paths of the stateful diff: the construct vocabularies, the
 * classification of a path, the conversion of a diff location into steps
 * (`_cast_path`) and the rendering of steps as a slash path (`_get_path`).
 *
 * A location is given as the sequence of subscripts the differ reports,
 * `root['properties']['Tags'][0]` being `[Key("properties"), Key("Tags"),
 * Index(0)]`. The three textual rewrites of `_cast_path` are modelled on
 * these tokens, in the order the code applies them; the first one is not
 * anchored at key boundaries, so it is modelled on the key texts.
 */
module StatefulPaths {

  /** One subscript of a differ location: a dict key or a list index. */
  datatype Token = Key(name: string) | Index(i: nat)

  const PROPERTIES: string := "properties"

  const CfnListConstructs: set<string> := {
    "primaryIdentifier", "readOnlyProperties", "writeOnlyProperties",
    "createOnlyProperties", "additionalIdentifiers"
  }

  const Combiners: set<string> := {"allOf", "anyOf", "oneOf"}

  const CfnLeafConstructs: set<string> := {"relationshipRef", "insertionOrder", "arrayType"}

  const NativeConstructs: set<string> := {
    "type", "description", "enum", "maximum", "minimum", "maxLength",
    "minLength", "required", "pattern", "maxItems", "minItems", "contains",
    "items", "additionalProperties", "uniqueItems", "dependencies", "default"
  }

  predicate IsCombinerProperty(steps: seq<string>)
  {
    |steps| > 0 && steps[0] == PROPERTIES && steps[|steps| - 1] in Combiners
  }

  predicate IsResourceProperty(steps: seq<string>)
  {
    |steps| > 0 && steps[0] == PROPERTIES
    && steps[|steps| - 1] !in NativeConstructs
    && steps[|steps| - 1] !in CfnLeafConstructs
  }

  predicate IsCfnConstruct(steps: seq<string>)
  {
    |steps| == 1 && steps[0] in CfnListConstructs
  }

  predicate IsJsonConstruct(steps: seq<string>)
  {
    |steps| > 0 && steps[|steps| - 1] in NativeConstructs
  }

  predicate IsCfnLeafConstruct(steps: seq<string>)
  {
    |steps| > 0 && steps[|steps| - 1] in CfnLeafConstructs
  }

  /** No construct name belongs to two vocabularies. */
  lemma VocabulariesDisjoint()
    ensures NativeConstructs * CfnLeafConstructs == {}
    ensures CfnListConstructs * NativeConstructs == {}
    ensures CfnListConstructs * CfnLeafConstructs == {}
    ensures Combiners * NativeConstructs == {}
    ensures Combiners * CfnLeafConstructs == {}
    ensures PROPERTIES !in CfnListConstructs
  {
  }

  /**
   * A path falls into at most one of the categories the handlers test with
   * independent `if`s, and a combiner path is also a resource property.
   */
  lemma ClassificationExclusive(steps: seq<string>)
    ensures IsResourceProperty(steps) ==> !IsJsonConstruct(steps) && !IsCfnLeafConstruct(steps)
    ensures IsJsonConstruct(steps) ==> !IsCfnLeafConstruct(steps)
    ensures IsCfnConstruct(steps) ==>
      !IsJsonConstruct(steps) && !IsCfnLeafConstruct(steps)
      && !IsResourceProperty(steps) && !IsCombinerProperty(steps)
    ensures IsCombinerProperty(steps) ==> IsResourceProperty(steps)
    ensures steps == [] ==>
      !IsCombinerProperty(steps) && !IsResourceProperty(steps) && !IsCfnConstruct(steps)
      && !IsJsonConstruct(steps) && !IsCfnLeafConstruct(steps)
  {
    VocabulariesDisjoint();
    if |steps| > 0 {
      var last := steps[|steps| - 1];
      assert last in NativeConstructs ==> last !in CfnLeafConstructs;
      assert last in Combiners ==> last !in NativeConstructs && last !in CfnLeafConstructs;
    }
  }

  /** A name that starts with a capital letter, as CloudFormation property names do. */
  predicate Capitalised(name: string)
  {
    name != [] && 'A' <= name[0] <= 'Z'
  }

  /** Every construct name starts with a lower-case letter. */
  lemma VocabulariesLowerCase(name: string)
    requires Capitalised(name)
    ensures name !in NativeConstructs && name !in CfnLeafConstructs
    ensures name !in Combiners && name !in CfnListConstructs && name != PROPERTIES
  {
  }

  /**
   * A location ending in a capitalised name is a resource property and
   * nothing else, whatever lies between it and `properties`.
   */
  lemma CapitalisedIsResourceProperty(steps: seq<string>)
    requires steps != [] && steps[0] == PROPERTIES && Capitalised(steps[|steps| - 1])
    ensures IsResourceProperty(steps) && !IsCombinerProperty(steps)
    ensures !IsCfnConstruct(steps) && !IsJsonConstruct(steps) && !IsCfnLeafConstruct(steps)
  {
    VocabulariesLowerCase(steps[|steps| - 1]);
  }

  /** `_get_path`: `"/".join([""] + steps)`, each step preceded by a slash. */
  function Render(steps: seq<string>): string
  {
    if steps == [] then "" else "/" + steps[0] + Render(steps[1..])
  }

  /** `Render` of a concatenation is the concatenation of the renderings. */
  lemma {:induction false} RenderAppend(a: seq<string>, b: seq<string>)
    ensures Render(a + b) == Render(a) + Render(b)
  {
    if a != [] {
      assert (a + b)[0] == a[0];
      assert (a + b)[1..] == a[1..] + b;
      RenderAppend(a[1..], b);
      assert Render(a + b) == "/" + a[0] + Render(a[1..] + b);
    } else {
      assert a + b == b;
    }
  }

  const ITEMS: string := "items"

  predicate EndsWithItems(a: string)
  {
    |a| >= |ITEMS| && a[|a| - |ITEMS|..] == ITEMS
  }

  predicate StartsWithProperties(b: string)
  {
    |b| >= |PROPERTIES| && b[..|PROPERTIES|] == PROPERTIES
  }

  /**
   * The text `items']['properties` spans two adjacent keys exactly when the
   * first ends in "items" and the second starts with "properties".
   */
  predicate Collapses(t: Token, u: Token)
  {
    t.Key? && u.Key? && EndsWithItems(t.name) && StartsWithProperties(u.name)
  }

  /** The one key the rewrite leaves of two such keys: the match becomes `*`. */
  function Joined(a: string, b: string): string
    requires EndsWithItems(a) && StartsWithProperties(b)
  {
    a[..|a| - |ITEMS|] + "*" + b[|PROPERTIES|..]
  }

  /**
   * First rewrite: `items']['properties` becomes `*`, merging the two keys
   * it spans into one; the scan goes on from the merged key, whose end is
   * text the match did not consume.
   */
  function CollapseItems(ts: seq<Token>): seq<Token>
    decreases |ts|
  {
    if |ts| >= 2 && Collapses(ts[0], ts[1]) then
      CollapseItems([Key(Joined(ts[0].name, ts[1].name))] + ts[2..])
    else if ts == [] then []
    else [ts[0]] + CollapseItems(ts[1..])
  }

  /**
   * Second rewrite: a `properties` step that is neither the first nor the
   * last step disappears. The textual match consumes the opening bracket of
   * the following step, so a `properties` step right after a removed one is kept.
   */
  function DropInnerProperties(ts: seq<Token>): seq<Token>
  {
    if ts == [] then [] else [ts[0]] + DropRest(ts[1..], false)
  }

  function DropRest(ts: seq<Token>, afterDropped: bool): seq<Token>
  {
    if ts == [] then []
    else if ts[0] == Key(PROPERTIES) && |ts| > 1 && !afterDropped then DropRest(ts[1..], true)
    else [ts[0]] + DropRest(ts[1..], false)
  }

  /**
   * Third rewrite and extraction: the digits and closing bracket of an index
   * are deleted, leaving its opening bracket behind; the bracketed pieces are
   * then extracted. A run of indices in the middle therefore becomes a
   * `[`-prefix of the next key's piece, and a trailing run disappears.
   */
  function ExtractSteps(ts: seq<Token>, pending: string): seq<string>
  {
    if ts == [] then []
    else match ts[0]
      case Index(_) => ExtractSteps(ts[1..], pending + "[")
      case Key(k) => [if pending == "" then k else pending + "'" + k] + ExtractSteps(ts[1..], "")
  }

  /** `_cast_path`. */
  function CastPath(ts: seq<Token>): seq<string>
  {
    ExtractSteps(DropInnerProperties(CollapseItems(ts)), "")
  }

  function KeyNames(ts: seq<Token>): seq<string>
  {
    if ts == [] then []
    else match ts[0]
      case Index(_) => KeyNames(ts[1..])
      case Key(k) => [k] + KeyNames(ts[1..])
  }

  /** No index is followed, anywhere later, by a key. */
  predicate IndicesTrailing(ts: seq<Token>)
  {
    forall i, j :: 0 <= i < j < |ts| && ts[i].Index? ==> ts[j].Index?
  }

  predicate AllIndices(ts: seq<Token>)
  {
    forall i :: 0 <= i < |ts| ==> ts[i].Index?
  }

  lemma IndexThenIndices(ts: seq<Token>)
    requires IndicesTrailing(ts) && |ts| > 0 && ts[0].Index?
    ensures AllIndices(ts[1..])
  {
    forall i | 0 <= i < |ts[1..]|
      ensures ts[1..][i].Index?
    {
      assert ts[i + 1] == ts[1..][i];
    }
  }

  lemma {:induction false} IndicesOnly(ts: seq<Token>, pending: string, b: bool)
    requires AllIndices(ts)
    ensures ExtractSteps(ts, pending) == []
    ensures KeyNames(ts) == []
    ensures CollapseItems(ts) == ts
    ensures DropRest(ts, b) == ts
  {
    if ts != [] {
      assert AllIndices(ts[1..]);
      IndicesOnly(ts[1..], pending + "[", false);
    }
  }

  /** With all indices at the end, extraction yields exactly the key names. */
  lemma {:induction false} ExtractTrailing(ts: seq<Token>)
    requires IndicesTrailing(ts)
    ensures ExtractSteps(ts, "") == KeyNames(ts)
  {
    if ts != [] {
      assert IndicesTrailing(ts[1..]);
      if ts[0].Index? {
        IndexThenIndices(ts);
        IndicesOnly(ts[1..], "" + "[", false);
      } else {
        ExtractTrailing(ts[1..]);
      }
    }
  }

  /** Prepending a key keeps the indices at the end. */
  lemma KeyThenTrailing(t: Token, ts: seq<Token>)
    requires t.Key? && IndicesTrailing(ts)
    ensures IndicesTrailing([t] + ts)
  {
    var s := [t] + ts;
    forall i, j | 0 <= i < j < |s| && s[i].Index?
      ensures s[j].Index?
    {
      assert s[i] == ts[i - 1] && s[j] == ts[j - 1];
    }
  }

  lemma {:induction false} CollapseTrailing(ts: seq<Token>)
    requires IndicesTrailing(ts)
    ensures IndicesTrailing(CollapseItems(ts))
    decreases |ts|
  {
    if |ts| >= 2 && Collapses(ts[0], ts[1]) {
      assert IndicesTrailing(ts[2..]);
      var m := Key(Joined(ts[0].name, ts[1].name));
      KeyThenTrailing(m, ts[2..]);
      CollapseTrailing([m] + ts[2..]);
    } else if ts != [] {
      if ts[0].Index? {
        IndexThenIndices(ts);
        IndicesOnly(ts[1..], "", false);
        assert CollapseItems(ts) == ts;
      } else {
        assert IndicesTrailing(ts[1..]);
        CollapseTrailing(ts[1..]);
        KeyThenTrailing(ts[0], CollapseItems(ts[1..]));
      }
    }
  }

  lemma {:induction false} DropRestTrailing(ts: seq<Token>, b: bool)
    requires IndicesTrailing(ts)
    ensures IndicesTrailing(DropRest(ts, b))
  {
    if ts != [] {
      if ts[0].Index? {
        IndexThenIndices(ts);
        IndicesOnly(ts[1..], "", false);
        assert DropRest(ts, b) == ts;
      } else {
        assert IndicesTrailing(ts[1..]);
        DropRestTrailing(ts[1..], ts[0] == Key(PROPERTIES) && |ts| > 1 && !b);
        DropRestTrailing(ts[1..], false);
        if !(ts[0] == Key(PROPERTIES) && |ts| > 1 && !b) {
          KeyThenTrailing(ts[0], DropRest(ts[1..], false));
        }
      }
    }
  }

  /**
   * When every index of a location comes after all of its keys (an element
   * of a list-valued construct or property), every index is removed and the
   * steps are the keys left by the first two rewrites.
   */
  lemma CastPathTrailingIndices(ts: seq<Token>)
    requires IndicesTrailing(ts)
    ensures CastPath(ts) == KeyNames(DropInnerProperties(CollapseItems(ts)))
  {
    CollapseTrailing(ts);
    var c := CollapseItems(ts);
    if c != [] {
      assert IndicesTrailing(c[1..]);
      if c[0].Index? {
        IndexThenIndices(c);
        IndicesOnly(c[1..], "", false);
        assert DropInnerProperties(c) == c;
      } else {
        DropRestTrailing(c[1..], false);
        KeyThenTrailing(c[0], DropRest(c[1..], false));
      }
    }
    ExtractTrailing(DropInnerProperties(c));
  }

  // One-step unfoldings of the rewrites, used to evaluate concrete locations.

  lemma CollapseKeep(t: Token, ts: seq<Token>)
    requires ts == [] || !Collapses(t, ts[0])
    ensures CollapseItems([t] + ts) == [t] + CollapseItems(ts)
  {
    assert ([t] + ts)[1..] == ts;
  }

  lemma CollapsePair(ts: seq<Token>)
    ensures CollapseItems([Key(ITEMS), Key(PROPERTIES)] + ts) == [Key("*")] + CollapseItems(ts)
  {
    assert ([Key(ITEMS), Key(PROPERTIES)] + ts)[2..] == ts;
    assert Joined(ITEMS, PROPERTIES) == "*";
    CollapseKeep(Key("*"), ts);
  }

  /** Two adjacent keys the rewrite spans merge into one. */
  lemma CollapseJoin(a: string, b: string, ts: seq<Token>)
    requires EndsWithItems(a) && StartsWithProperties(b)
    ensures CollapseItems([Key(a), Key(b)] + ts) == CollapseItems([Key(Joined(a, b))] + ts)
  {
    assert ([Key(a), Key(b)] + ts)[2..] == ts;
  }

  lemma DropKeep(t: Token, ts: seq<Token>, b: bool)
    requires t != Key(PROPERTIES) || ts == [] || b
    ensures DropRest([t] + ts, b) == [t] + DropRest(ts, false)
  {
    assert ([t] + ts)[1..] == ts;
  }

  lemma DropSkip(ts: seq<Token>)
    requires ts != []
    ensures DropRest([Key(PROPERTIES)] + ts, false) == DropRest(ts, true)
  {
    assert ([Key(PROPERTIES)] + ts)[1..] == ts;
  }

  lemma ExtractKey(k: string, ts: seq<Token>)
    ensures ExtractSteps([Key(k)] + ts, "") == [k] + ExtractSteps(ts, "")
  {
    assert ([Key(k)] + ts)[1..] == ts;
  }

  /** The element of a CloudFormation list construct maps to the construct itself. */
  lemma CastPathListElement(name: string, i: nat)
    ensures CastPath([Key(name), Index(i)]) == [name]
  {
    CollapseKeep(Key(name), [Index(i)]);
    CollapseKeep(Index(i), []);
    assert [Index(i)] == [Index(i)] + [];
    DropKeep(Index(i), [], false);
    assert [Key(name), Index(i)] == [Key(name)] + [Index(i)];
    ExtractKey(name, [Index(i)]);
  }

  /**
   * A sub-property of an array-of-objects property: `items` followed by
   * `properties` becomes `*`, e.g. `root['properties']['Tags']['items']
   * ['properties']['Value']` casts to the steps of /properties/Tags/(*)/Value.
   */
  lemma CastPathArrayItem(name: string, sub: string)
    requires !EndsWithItems(name) && name != PROPERTIES && sub != PROPERTIES
    ensures CastPath([Key(PROPERTIES), Key(name), Key("items"), Key(PROPERTIES), Key(sub)])
      == [PROPERTIES, name, "*", sub]
  {
    ArrayItemCollapsed(name, sub);
    ArrayItemKept(name, sub);
    ExtractKey(sub, []);
    ExtractKey("*", [Key(sub)]);
    ExtractKey(name, [Key("*"), Key(sub)]);
    ExtractKey(PROPERTIES, [Key(name), Key("*"), Key(sub)]);
  }

  lemma ArrayItemCollapsed(name: string, sub: string)
    requires !EndsWithItems(name)
    ensures CollapseItems([Key(PROPERTIES), Key(name), Key("items"), Key(PROPERTIES), Key(sub)])
      == [Key(PROPERTIES), Key(name), Key("*"), Key(sub)]
  {
    var tail := [Key(sub)];
    CollapseKeep(Key(sub), []);
    assert tail == [Key(sub)] + [];
    CollapsePair(tail);
    var c2 := [Key("items"), Key(PROPERTIES)] + tail;
    CollapseKeep(Key(name), c2);
    CollapseKeep(Key(PROPERTIES), [Key(name)] + c2);
    assert [Key(PROPERTIES), Key(name), Key("items"), Key(PROPERTIES), Key(sub)]
      == [Key(PROPERTIES)] + ([Key(name)] + c2);
  }

  lemma ArrayItemKept(name: string, sub: string)
    requires name != PROPERTIES
    ensures var c := [Key(PROPERTIES), Key(name), Key("*"), Key(sub)];
      DropInnerProperties(c) == c
  {
    var c := [Key(PROPERTIES), Key(name), Key("*"), Key(sub)];
    DropKeep(Key(sub), [], false);
    DropKeep(Key("*"), [Key(sub)], false);
    DropKeep(Key(name), [Key("*"), Key(sub)], false);
    assert c[1..] == [Key(name)] + [Key("*"), Key(sub)];
  }

  /** An inner `properties` step between two property names is removed. */
  lemma CastPathInnerProperties(name: string, sub: string)
    requires !EndsWithItems(name) && name != PROPERTIES && sub != PROPERTIES
    ensures CastPath([Key(PROPERTIES), Key(name), Key(PROPERTIES), Key(sub)])
      == [PROPERTIES, name, sub]
  {
    var ts := [Key(PROPERTIES), Key(name), Key(PROPERTIES), Key(sub)];
    CollapseKeep(Key(sub), []);
    assert [Key(sub)] == [Key(sub)] + [];
    CollapseKeep(Key(PROPERTIES), [Key(sub)]);
    CollapseKeep(Key(name), [Key(PROPERTIES), Key(sub)]);
    CollapseKeep(Key(PROPERTIES), [Key(name), Key(PROPERTIES), Key(sub)]);
    assert ts == [Key(PROPERTIES)] + [Key(name), Key(PROPERTIES), Key(sub)];
    assert CollapseItems(ts) == ts;
    DropKeep(Key(sub), [], true);
    DropSkip([Key(sub)]);
    DropKeep(Key(name), [Key(PROPERTIES), Key(sub)], false);
    assert ts[1..] == [Key(name)] + [Key(PROPERTIES), Key(sub)];
    assert DropInnerProperties(ts) == [Key(PROPERTIES), Key(name), Key(sub)];
    ExtractKey(sub, []);
    ExtractKey(name, [Key(sub)]);
    ExtractKey(PROPERTIES, [Key(name), Key(sub)]);
  }

  /**
   * An index inside a location is not removed: it is folded into the next
   * key, so the `type` of a combiner element casts to the piece `['type`.
   */
  lemma CastPathFoldsInnerIndex(name: string, i: nat)
    requires !EndsWithItems(name) && name != PROPERTIES
    ensures CastPath([Key(PROPERTIES), Key(name), Key("anyOf"), Index(i), Key("type")])
      == [PROPERTIES, name, "anyOf", "['type"]
  {
    var ts := [Key(PROPERTIES), Key(name), Key("anyOf"), Index(i), Key("type")];
    InnerIndexCollapsed(name, i);
    InnerIndexKept(name, i);
    var last := [Key("type")];
    assert ExtractSteps(last, "[") == ["['type"] by {
      assert last[1..] == [];
      assert "[" + "'" + "type" == "['type";
    }
    assert ExtractSteps([Index(i)] + last, "") == ["['type"] by {
      assert ([Index(i)] + last)[1..] == last;
      assert "" + "[" == "[";
    }
    ExtractKey("anyOf", [Index(i), Key("type")]);
    ExtractKey(name, [Key("anyOf"), Index(i), Key("type")]);
    ExtractKey(PROPERTIES, [Key(name), Key("anyOf"), Index(i), Key("type")]);
  }

  lemma InnerIndexCollapsed(name: string, i: nat)
    requires !EndsWithItems(name) && name != PROPERTIES
    ensures var ts := [Key(PROPERTIES), Key(name), Key("anyOf"), Index(i), Key("type")];
      CollapseItems(ts) == ts
  {
    var ts := [Key(PROPERTIES), Key(name), Key("anyOf"), Index(i), Key("type")];
    CollapseKeep(Key("type"), []);
    assert [Key("type")] == [Key("type")] + [];
    CollapseKeep(Index(i), [Key("type")]);
    CollapseKeep(Key("anyOf"), [Index(i), Key("type")]);
    CollapseKeep(Key(name), [Key("anyOf"), Index(i), Key("type")]);
    CollapseKeep(Key(PROPERTIES), [Key(name), Key("anyOf"), Index(i), Key("type")]);
    assert ts == [Key(PROPERTIES)] + [Key(name), Key("anyOf"), Index(i), Key("type")];
  }

  lemma InnerIndexKept(name: string, i: nat)
    requires name != PROPERTIES
    ensures var ts := [Key(PROPERTIES), Key(name), Key("anyOf"), Index(i), Key("type")];
      DropInnerProperties(ts) == ts
  {
    var ts := [Key(PROPERTIES), Key(name), Key("anyOf"), Index(i), Key("type")];
    DropKeep(Key("type"), [], false);
    DropKeep(Index(i), [Key("type")], false);
    DropKeep(Key("anyOf"), [Index(i), Key("type")], false);
    DropKeep(Key(name), [Key("anyOf"), Index(i), Key("type")], false);
    assert ts[1..] == [Key(name)] + [Key("anyOf"), Index(i), Key("type")];
  }

  /** A key that neither ends in "items" nor is `properties`: no rewrite starts at it. */
  predicate PlainKey(t: Token)
  {
    t.Key? && !EndsWithItems(t.name) && t.name != PROPERTIES
  }

  predicate AllPlain(ts: seq<Token>)
  {
    forall i :: 0 <= i < |ts| ==> PlainKey(ts[i])
  }

  lemma {:induction false} PlainUnchanged(ts: seq<Token>, b: bool)
    requires AllPlain(ts)
    ensures CollapseItems(ts) == ts
    ensures DropRest(ts, b) == ts
    ensures ExtractSteps(ts, "") == KeyNames(ts)
  {
    if ts != [] {
      assert AllPlain(ts[1..]);
      PlainUnchanged(ts[1..], false);
    }
  }

  /**
   * A top-level property location followed only by plain keys casts to its
   * key names: `root['properties']['Description']['type']` gives the steps
   * of /properties/Description/type.
   */
  lemma CastPathPlain(ts: seq<Token>)
    requires ts != [] && ts[0] == Key(PROPERTIES) && AllPlain(ts[1..])
    ensures CastPath(ts) == KeyNames(ts)
  {
    PlainUnchanged(ts[1..], false);
    CollapseKeep(ts[0], ts[1..]);
    assert [ts[0]] + ts[1..] == ts;
    assert DropInnerProperties(ts) == ts;
    ExtractKey(PROPERTIES, ts[1..]);
  }

  /** `root['properties'][name]` casts to the steps of /properties/name. */
  lemma CastPathProperty(name: string)
    requires !EndsWithItems(name) && name != PROPERTIES
    ensures CastPath([Key(PROPERTIES), Key(name)]) == [PROPERTIES, name]
  {
    var ts := [Key(PROPERTIES), Key(name)];
    assert ts[1..] == [Key(name)];
    assert AllPlain(ts[1..]);
    CastPathPlain(ts);
    assert ts[1..][1..] == [];
    assert KeyNames(ts[1..]) == [name] + KeyNames([]);
    assert KeyNames(ts) == [PROPERTIES] + KeyNames(ts[1..]);
  }

  /** `root['properties'][name][kw]` casts to the steps of /properties/name/kw. */
  lemma CastPathKeyword(name: string, kw: string)
    requires !EndsWithItems(name) && name != PROPERTIES && !EndsWithItems(kw) && kw != PROPERTIES
    ensures CastPath([Key(PROPERTIES), Key(name), Key(kw)]) == [PROPERTIES, name, kw]
  {
    var ts := [Key(PROPERTIES), Key(name), Key(kw)];
    var rest := ts[1..];
    assert rest == [Key(name), Key(kw)];
    assert AllPlain(rest);
    CastPathPlain(ts);
    assert rest[1..] == [Key(kw)];
    assert rest[1..][1..] == [];
    assert KeyNames(rest[1..]) == [kw] + KeyNames([]);
    assert KeyNames(rest) == [name] + KeyNames(rest[1..]);
    assert KeyNames(ts) == [PROPERTIES] + KeyNames(rest);
  }

  /**
   * The rewrite is not anchored at key boundaries: a key ending in "items"
   * before a `properties` step is merged with it, so
   * `root['properties']['lineitems']['properties']['x']` casts to
   * properties, line*, x.
   */
  lemma CastPathJoinsKeys()
    ensures CastPath([Key(PROPERTIES), Key("lineitems"), Key(PROPERTIES), Key("x")]) == [PROPERTIES, "line*", "x"]
  {
    var c := [Key(PROPERTIES), Key("line*"), Key("x")];
    LineItemsCollapse();
    DropKeep(Key("x"), [], false);
    DropKeep(Key("line*"), [Key("x")], false);
    assert c[1..] == [Key("line*")] + [Key("x")];
    assert DropInnerProperties(c) == c;
    ExtractKey("x", []);
    ExtractKey("line*", [Key("x")]);
    ExtractKey(PROPERTIES, [Key("line*"), Key("x")]);
  }

  lemma LineItemsJoin()
    ensures EndsWithItems("lineitems") && StartsWithProperties(PROPERTIES)
    ensures Joined("lineitems", PROPERTIES) == "line*"
    ensures !EndsWithItems("line*") && !EndsWithItems(PROPERTIES)
  {
    assert "lineitems"[4..] == ITEMS;
    assert "lineitems"[..4] == "line";
    assert PROPERTIES[|PROPERTIES|..] == "";
  }

  lemma LineItemsCollapse()
    ensures CollapseItems([Key(PROPERTIES), Key("lineitems"), Key(PROPERTIES), Key("x")])
      == [Key(PROPERTIES), Key("line*"), Key("x")]
  {
    LineItemsJoin();
    CollapseKeep(Key("x"), []);
    assert [Key("x")] == [Key("x")] + [];
    CollapseJoin("lineitems", PROPERTIES, [Key("x")]);
    CollapseKeep(Key("line*"), [Key("x")]);
    CollapseKeep(Key(PROPERTIES), [Key("lineitems"), Key(PROPERTIES), Key("x")]);
    assert [Key(PROPERTIES), Key("lineitems"), Key(PROPERTIES), Key("x")]
      == [Key(PROPERTIES)] + ([Key("lineitems"), Key(PROPERTIES)] + [Key("x")]);
  }

  lemma RenderOne(a: string)
    ensures Render([a]) == "/" + a
  {
    assert [a][1..] == [];
    assert Render([a]) == "/" + a + "";
    assert "/" + a + "" == "/" + a;
  }

  lemma RenderTwo(a: string, b: string)
    ensures Render([a, b]) == "/" + a + "/" + b
  {
    assert [a, b][1..] == [b];
    RenderOne(b);
  }
}
