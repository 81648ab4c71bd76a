/**
 * Properties of the meta-diff translation: what each kind of entry records,
 * when translation aborts, which keys a meta-diff can hold, and the
 * translations of the documented schema-change scenarios.
 */
module StatefulLemmas {
  import opened Results
  import opened Json
  import opened StatefulPaths
  import opened Stateful

  /**
   * An iterable entry records the element itself: under the construct for a
   * top-level CloudFormation list, under the keyword for a JSON-schema or
   * leaf keyword; a combiner location aborts and any other location is ignored.
   */
  lemma IterableEntryRecords(m: MetaDiff, change: Change, e: DiffEntry)
    ensures var steps := CastPath(e.path);
      && (IsCombinerProperty(steps) ==> IterableEntry(m, change, e) == Err(NotImplementedError(CombinerMessage)))
      && (IsCfnConstruct(steps) ==> IterableEntry(m, change, e) == Ok(WithItem(m, steps[0], change, e.value)))
      && ((IsJsonConstruct(steps) || IsCfnLeafConstruct(steps)) ==>
            IterableEntry(m, change, e) == Ok(WithItem(m, Last(steps), change, e.value)))
      && ((!IsCombinerProperty(steps) && !IsCfnConstruct(steps) && !IsJsonConstruct(steps)
           && !IsCfnLeafConstruct(steps)) ==> IterableEntry(m, change, e) == Ok(m))
  {
    ClassificationExclusive(CastPath(e.path));
    VocabulariesDisjoint();
  }

  /**
   * A dictionary entry for a resource property records the property's path
   * under `properties`, followed by the paths of everything it nests.
   */
  lemma DictEntryResourceProperty(m: MetaDiff, change: Change, e: DiffEntry)
    requires IsResourceProperty(CastPath(e.path)) && !IsCombinerProperty(CastPath(e.path))
    requires e.value.JObj? ==> NestedPaths(Render(CastPath(e.path)), e.value).Ok?
    ensures DictEntry(m, change, e).Ok?
    ensures var p := Render(CastPath(e.path));
      var below := if e.value.JObj? then NestedPaths(p, e.value).value else [];
      && Bucket(DictEntry(m, change, e).value, PROPERTIES, change)
           == Bucket(m, PROPERTIES, change) + [JStr(p)] + PathValues(below)
      && forall k, c :: (k != PROPERTIES || c != change) ==>
           Bucket(DictEntry(m, change, e).value, k, c) == Bucket(m, k, c)
  {
    var steps := CastPath(e.path);
    ClassificationExclusive(steps);
    var p := Render(steps);
    var ma := WithItem(m, PROPERTIES, change, JStr(p));
    WithItemBuckets(m, PROPERTIES, change, JStr(p));
    if e.value.JObj? {
      var ps := NestedPaths(p, e.value).value;
      assert DictEntry(m, change, e) == Ok(WithPaths(ma, change, ps));
      WithItemsBuckets(ma, PROPERTIES, change, PathValues(ps));
    } else {
      assert DictEntry(m, change, e) == Ok(ma);
      assert PathValues([]) == [];
    }
  }

  /**
   * A dictionary entry ending in a keyword records the owner's path under
   * that keyword; a CloudFormation list location is never recorded here.
   */
  lemma DictEntryKeyword(m: MetaDiff, change: Change, e: DiffEntry)
    ensures var steps := CastPath(e.path);
      && ((IsJsonConstruct(steps) || IsCfnLeafConstruct(steps)) ==>
            DictEntry(m, change, e) == Ok(WithItem(m, Last(steps), change, JStr(OwnerPath(steps)))))
      && (IsCfnConstruct(steps) ==> DictEntry(m, change, e) == Ok(m))
  {
    ClassificationExclusive(CastPath(e.path));
    VocabulariesDisjoint();
  }

  /**
   * A changed CloudFormation list element removes the old value and then
   * adds the new one; a changed keyword records owner, old and new value.
   */
  lemma ValuesEntryRecords(m: MetaDiff, e: DiffEntry, o: Json, n: Json)
    requires Field(e.value, "old_value") == Ok(o) && Field(e.value, "new_value") == Ok(n)
    ensures var steps := CastPath(e.path);
      && (IsCfnConstruct(steps) ==>
            ValuesEntry(m, e) == Ok(WithItem(WithItem(m, steps[0], Removed, o), steps[0], Added, n)))
      && ((IsJsonConstruct(steps) || IsCfnLeafConstruct(steps)) ==>
            ValuesEntry(m, e) == Ok(WithItem(m, Last(steps), Changed, ChangedRecord(OwnerPath(steps), o, n))))
  {
    ClassificationExclusive(CastPath(e.path));
    VocabulariesDisjoint();
  }

  /**
   * A changed value is looked up only where it is recorded: without an
   * `old_value` a recorded location raises `KeyError`, and a resource
   * property location (a combiner included) records nothing and raises nothing.
   */
  lemma ValuesEntryLookups(m: MetaDiff, e: DiffEntry)
    ensures var steps := CastPath(e.path);
      && ((IsCfnConstruct(steps) || IsJsonConstruct(steps) || IsCfnLeafConstruct(steps))
          && e.value.JObj? && !HasKey(e.value.members, "old_value") ==>
            ValuesEntry(m, e) == Err(KeyError("old_value")))
      && (IsResourceProperty(steps) ==> ValuesEntry(m, e) == Ok(m))
  {
    ClassificationExclusive(CastPath(e.path));
  }

  /** A location whose cast is empty changes nothing, whatever the section. */
  lemma EmptyLocationChangesNothing(m: MetaDiff, change: Change, e: DiffEntry)
    requires CastPath(e.path) == []
    ensures IterableEntry(m, change, e) == Ok(m)
    ensures DictEntry(m, change, e) == Ok(m)
    ensures ValuesEntry(m, e) == Ok(m)
  {
    ClassificationExclusive([]);
  }

  /**
   * A combiner location in an iterable or dictionary section aborts the
   * whole translation: no meta-diff is produced.
   */
  lemma CombinerAbortsTranslation(report: seq<Category>, i: int, j: int)
    requires 0 <= i < |report| && report[i].name in CombinerCheckedSections
    requires 0 <= j < |report[i].entries| && IsCombinerProperty(CastPath(report[i].entries[j].path))
    ensures Translate(report).Err?
  {
    var c := report[i];
    var es := c.entries;
    var prev := Fold(map[], report[..i], CategoryStep());
    if prev.Ok? {
      var m := prev.value;
      var step := if c.name in {"iterable_item_added", "iterable_item_removed"} then
        IterableStep(if c.name == "iterable_item_added" then Added else Removed)
      else DictStep(if c.name == "dictionary_item_added" then Added else Removed);
      assert CategoryChange(m, c) == Fold(m, es, step);
      var mid := Fold(m, es[..j], step);
      if mid.Ok? {
        assert step(mid.value, es[j]) == Err(NotImplementedError(CombinerMessage));
      }
      FoldStepFails(m, es, step, j);
    }
    FoldStepFails(map[], report, CategoryStep(), i);
  }

  /** A section the switcher does not know aborts the whole translation. */
  lemma UnknownSectionAborts(report: seq<Category>, i: int)
    requires 0 <= i < |report| && report[i].name !in KnownSections
    ensures Translate(report).Err?
  {
    var prev := Fold(map[], report[..i], CategoryStep());
    if prev.Ok? {
      assert CategoryChange(prev.value, report[i]) == Err(TypeError(FallbackArityMessage));
    }
    FoldStepFails(map[], report, CategoryStep(), i);
  }

  /** Every key of a meta-diff is `properties` or a construct name. */
  predicate KeysAreConstructs(m: MetaDiff)
  {
    forall k :: k in m ==>
      k == PROPERTIES || k in CfnListConstructs || k in NativeConstructs || k in CfnLeafConstructs
  }

  lemma {:induction false} WithItemsKeys(m: MetaDiff, change: Change, vs: seq<Json>)
    requires KeysAreConstructs(m)
    ensures KeysAreConstructs(WithItems(m, PROPERTIES, change, vs))
  {
    if vs != [] {
      WithItemsKeys(m, change, vs[..|vs| - 1]);
    }
  }

  lemma IterableEntryKeys(m: MetaDiff, change: Change, e: DiffEntry)
    requires KeysAreConstructs(m)
    ensures IterableEntry(m, change, e).Ok? ==> KeysAreConstructs(IterableEntry(m, change, e).value)
  {
  }

  lemma DictEntryKeys(m: MetaDiff, change: Change, e: DiffEntry)
    requires KeysAreConstructs(m)
    ensures DictEntry(m, change, e).Ok? ==> KeysAreConstructs(DictEntry(m, change, e).value)
  {
    var steps := CastPath(e.path);
    if IsResourceProperty(steps) && DictEntry(m, change, e).Ok? {
      var ma := WithItem(m, PROPERTIES, change, JStr(Render(steps)));
      if e.value.JObj? {
        WithItemsKeys(ma, change, PathValues(NestedPaths(Render(steps), e.value).value));
      }
    }
  }

  lemma ValuesEntryKeys(m: MetaDiff, e: DiffEntry)
    requires KeysAreConstructs(m)
    ensures ValuesEntry(m, e).Ok? ==> KeysAreConstructs(ValuesEntry(m, e).value)
  {
  }

  lemma EntryKeys(m: MetaDiff, change: Change, e: DiffEntry)
    requires KeysAreConstructs(m)
    ensures IterableEntry(m, change, e).Ok? ==> KeysAreConstructs(IterableEntry(m, change, e).value)
    ensures DictEntry(m, change, e).Ok? ==> KeysAreConstructs(DictEntry(m, change, e).value)
    ensures ValuesEntry(m, e).Ok? ==> KeysAreConstructs(ValuesEntry(m, e).value)
  {
    IterableEntryKeys(m, change, e);
    DictEntryKeys(m, change, e);
    ValuesEntryKeys(m, e);
  }

  lemma {:induction false} FoldEntriesKeys(m: MetaDiff, es: seq<DiffEntry>, step: (MetaDiff, DiffEntry) -> Result<MetaDiff>, change: Change, kind: int)
    requires KeysAreConstructs(m)
    requires kind == 0 ==> step == IterableStep(change)
    requires kind == 1 ==> step == DictStep(change)
    requires kind == 2 ==> step == ValuesStep()
    requires 0 <= kind <= 2
    ensures Fold(m, es, step).Ok? ==> KeysAreConstructs(Fold(m, es, step).value)
  {
    if es != [] {
      FoldEntriesKeys(m, es[..|es| - 1], step, change, kind);
      var prev := Fold(m, es[..|es| - 1], step);
      if prev.Ok? {
        EntryKeys(prev.value, change, es[|es| - 1]);
      }
    }
  }

  /** Every handler of the switcher keeps the keys construct names. */
  lemma CategoryKeys(m: MetaDiff, c: Category)
    requires KeysAreConstructs(m)
    ensures CategoryChange(m, c).Ok? ==> KeysAreConstructs(CategoryChange(m, c).value)
  {
    match c.name
    case "iterable_item_added" => FoldEntriesKeys(m, c.entries, IterableStep(Added), Added, 0);
    case "iterable_item_removed" => FoldEntriesKeys(m, c.entries, IterableStep(Removed), Removed, 0);
    case "values_changed" => FoldEntriesKeys(m, c.entries, ValuesStep(), Added, 2);
    case "type_changes" => FoldEntriesKeys(m, c.entries, ValuesStep(), Added, 2);
    case "dictionary_item_added" => FoldEntriesKeys(m, c.entries, DictStep(Added), Added, 1);
    case "dictionary_item_removed" => FoldEntriesKeys(m, c.entries, DictStep(Removed), Removed, 1);
    case _ =>
  }

  lemma {:induction false} FoldReportKeys(report: seq<Category>)
    ensures Translate(report).Ok? ==> KeysAreConstructs(Translate(report).value)
  {
    if report != [] {
      var init := report[..|report| - 1];
      FoldReportKeys(init);
      var prev := Translate(init);
      if prev.Ok? {
        CategoryKeys(prev.value, report[|report| - 1]);
      }
    }
  }

  /**
   * A translated meta-diff only has `properties` and construct names as
   * keys, so it never holds the `TaggingPath` key the rule runner reads.
   */
  lemma TranslateKeysAreConstructs(report: seq<Category>)
    ensures Translate(report).Ok? ==> KeysAreConstructs(Translate(report).value)
    ensures Translate(report).Ok? ==> "TaggingPath" !in Translate(report).value
  {
    FoldReportKeys(report);
  }

  /** The first item recorded under a key opens a bucket holding just it. */
  lemma WithFreshItem(m: MetaDiff, key: string, change: Change, v: Json)
    requires key !in m
    ensures WithItem(m, key, change, v) == m[key := map[change := [v]]]
  {
    assert [] + [v] == [v];
  }

  /** A meta-diff with one key and one bucket gains a second bucket under that key. */
  lemma SoleKeySecondBucket(key: string, c1: Change, x: Json, c2: Change, y: Json)
    requires c1 != c2
    ensures WithItem(map[key := map[c1 := [x]]], key, c2, y) == map[key := map[c1 := [x], c2 := [y]]]
  {
    assert [] + [y] == [y];
  }

  lemma FoldOne<T>(m: MetaDiff, x: T, step: (MetaDiff, T) -> Result<MetaDiff>)
    ensures Fold(m, [x], step) == step(m, x)
  {
    assert [x][..0] == [];
  }

  lemma FoldTwo<T>(m: MetaDiff, x: T, y: T, step: (MetaDiff, T) -> Result<MetaDiff>)
    ensures Fold(m, [x, y], step) == (var a :- step(m, x); step(a, y))
  {
    assert [x, y][..1] == [x];
    FoldOne(m, x, step);
  }

  function PrimaryIdentifierReport(): seq<Category>
  {
    [ Category("values_changed", [DiffEntry([Key("primaryIdentifier"), Index(0)],
        JObj([Member("new_value", JStr("bar_changed")), Member("old_value", JStr("bar"))]))]),
      Category("iterable_item_added", [DiffEntry([Key("primaryIdentifier"), Index(1)], JStr("bar_added"))]) ]
  }

  lemma PrimaryIdentifierFirstSection()
    ensures CategoryChange(map[], PrimaryIdentifierReport()[0])
      == Ok(map["primaryIdentifier" := map[Removed := [JStr("bar")], Added := [JStr("bar_changed")]]])
  {
    var e := PrimaryIdentifierReport()[0].entries[0];
    PrimaryIdentifierChangedEntry();
    FoldOne(map[], e, ValuesStep());
    var c := PrimaryIdentifierReport()[0];
    assert c.entries == [e];
  }

  /** The changed first element of `primaryIdentifier` is removed and added. */
  lemma PrimaryIdentifierChangedEntry()
    ensures ValuesEntry(map[], PrimaryIdentifierReport()[0].entries[0])
      == Ok(map["primaryIdentifier" := map[Removed := [JStr("bar")], Added := [JStr("bar_changed")]]])
  {
    var e := PrimaryIdentifierReport()[0].entries[0];
    CastPathListElement("primaryIdentifier", 0);
    var ms := [Member("new_value", JStr("bar_changed")), Member("old_value", JStr("bar"))];
    assert e.value == JObj(ms);
    assert ms[1..] == [Member("old_value", JStr("bar"))];
    assert "new_value"[0] != "old_value"[0];
    assert Lookup(ms, "old_value") == Lookup(ms[1..], "old_value") == Some(JStr("bar"));
    assert Lookup(ms, "new_value") == Some(JStr("bar_changed"));
    CfnChangeFromEmpty(e, "primaryIdentifier", JStr("bar"), JStr("bar_changed"));
  }

  /** The first change of a CloudFormation construct removes the old value and adds the new one. */
  lemma CfnChangeFromEmpty(e: DiffEntry, key: string, o: Json, n: Json)
    requires CastPath(e.path) == [key] && IsCfnConstruct([key])
    requires Field(e.value, "old_value") == Ok(o) && Field(e.value, "new_value") == Ok(n)
    ensures ValuesEntry(map[], e) == Ok(map[key := map[Removed := [o], Added := [n]]])
  {
    ValuesEntryRecords(map[], e, o, n);
    WithFreshItem(map[], key, Removed, o);
    SoleKeySecondBucket(key, Removed, o, Added, n);
  }

  lemma PrimaryIdentifierSecondSection(m1: MetaDiff)
    requires m1 == map["primaryIdentifier" := map[Removed := [JStr("bar")], Added := [JStr("bar_changed")]]]
    ensures CategoryChange(m1, PrimaryIdentifierReport()[1]) == Ok(map["primaryIdentifier" := map[
      Added := [JStr("bar_changed"), JStr("bar_added")], Removed := [JStr("bar")]]])
  {
    var e := PrimaryIdentifierReport()[1].entries[0];
    CastPathListElement("primaryIdentifier", 1);
    IterableEntryRecords(m1, Added, e);
    FoldOne(m1, e, IterableStep(Added));
    var m2 := WithItem(m1, "primaryIdentifier", Added, JStr("bar_added"));
    assert m2["primaryIdentifier"] == map[Removed := [JStr("bar")], Added := [JStr("bar_changed"), JStr("bar_added")]] by {
      assert [JStr("bar_changed")] + [JStr("bar_added")] == [JStr("bar_changed"), JStr("bar_added")];
    }
    assert m2.Keys == {"primaryIdentifier"};
    var lit := map["primaryIdentifier" := map[Added := [JStr("bar_changed"), JStr("bar_added")], Removed := [JStr("bar")]]];
    assert lit["primaryIdentifier"] == m2["primaryIdentifier"];
    assert m2 == lit;
  }

  /**
   * Replacing the primary identifier `["bar"]` by `["bar_changed",
   * "bar_added"]`: the changed element is removed and added, the appended
   * element is added after it.
   */
  lemma PrimaryIdentifierScenario()
    ensures Translate(PrimaryIdentifierReport()) == Ok(map["primaryIdentifier" := map[
      Added := [JStr("bar_changed"), JStr("bar_added")], Removed := [JStr("bar")]]])
  {
    var r := PrimaryIdentifierReport();
    PrimaryIdentifierFirstSection();
    PrimaryIdentifierSecondSection(map["primaryIdentifier" := map[Removed := [JStr("bar")], Added := [JStr("bar_changed")]]]);
    FoldTwo(map[], r[0], r[1], CategoryStep());
    assert r == [r[0], r[1]];
  }

  function DescriptionLocation(kw: string): seq<Token>
  {
    [Key(PROPERTIES), Key("Description"), Key(kw)]
  }

  function DescriptionReport(): seq<Category>
  {
    [ Category("dictionary_item_removed", [DiffEntry(DescriptionLocation("type"), JStr("string"))]),
      Category("values_changed", [
        DiffEntry(DescriptionLocation("minLength"), JObj([Member("new_value", JNum(10)), Member("old_value", JNum(0))])),
        DiffEntry(DescriptionLocation("maxLength"), JObj([Member("new_value", JNum(4096)), Member("old_value", JNum(8192))]))]) ]
  }

  lemma DescriptionCast(kw: string)
    requires !EndsWithItems(kw) && kw != PROPERTIES
    ensures CastPath(DescriptionLocation(kw)) == [PROPERTIES, "Description", kw]
    ensures OwnerPath([PROPERTIES, "Description", kw]) == DescriptionOwner
  {
    CastPathKeyword("Description", kw);
    assert [PROPERTIES, "Description", kw][..2] == [PROPERTIES, "Description"];
    DescriptionRender();
  }

  lemma DescriptionRender()
    ensures Render([PROPERTIES, "Description"]) == DescriptionOwner
  {
    RenderTwo(PROPERTIES, "Description");
    assert "/" + PROPERTIES + "/" + "Description" == DescriptionOwner;
  }

  const DescriptionOwner: string := "/properties/Description"

  lemma DescriptionFirstSection()
    ensures CategoryChange(map[], DescriptionReport()[0])
      == Ok(map["type" := map[Removed := [JStr(DescriptionOwner)]]])
  {
    DescriptionCast("type");
    var e := DescriptionReport()[0].entries[0];
    DictEntryKeyword(map[], Removed, e);
    FoldOne(map[], e, DictStep(Removed));
    assert [] + [JStr(DescriptionOwner)] == [JStr(DescriptionOwner)];
  }

  /** A changed `Description` keyword records owner, old and new value. */
  lemma DescriptionKeywordChange(m: MetaDiff, kw: string, o: int, n: int)
    requires kw in {"minLength", "maxLength"}
    ensures ValuesEntry(m, DiffEntry(DescriptionLocation(kw),
        JObj([Member("new_value", JNum(n)), Member("old_value", JNum(o))])))
      == Ok(WithItem(m, kw, Changed, ChangedRecord(DescriptionOwner, JNum(o), JNum(n))))
  {
    DescriptionCast(kw);
    var ms := [Member("new_value", JNum(n)), Member("old_value", JNum(o))];
    var e := DiffEntry(DescriptionLocation(kw), JObj(ms));
    assert ms[1..] == [Member("old_value", JNum(o))];
    assert "new_value"[0] != "old_value"[0];
    assert Lookup(ms, "old_value") == Lookup(ms[1..], "old_value") == Some(JNum(o));
    assert Lookup(ms, "new_value") == Some(JNum(n));
    assert Field(e.value, "old_value") == Ok(JNum(o));
    assert Field(e.value, "new_value") == Ok(JNum(n));
    ValuesEntryRecords(m, e, JNum(o), JNum(n));
    assert Last([PROPERTIES, "Description", kw]) == kw;
  }

  lemma DescriptionSecondSection(m1: MetaDiff)
    requires m1 == map["type" := map[Removed := [JStr(DescriptionOwner)]]]
    ensures CategoryChange(m1, DescriptionReport()[1]) == Ok(map[
      "type" := map[Removed := [JStr(DescriptionOwner)]],
      "minLength" := map[Changed := [ChangedRecord(DescriptionOwner, JNum(0), JNum(10))]],
      "maxLength" := map[Changed := [ChangedRecord(DescriptionOwner, JNum(8192), JNum(4096))]]])
  {
    var es := DescriptionReport()[1].entries;
    var rMin := ChangedRecord(DescriptionOwner, JNum(0), JNum(10));
    var rMax := ChangedRecord(DescriptionOwner, JNum(8192), JNum(4096));
    DescriptionKeywordChange(m1, "minLength", 0, 10);
    WithFreshItem(m1, "minLength", Changed, rMin);
    var m2 := m1["minLength" := map[Changed := [rMin]]];
    DescriptionKeywordChange(m2, "maxLength", 8192, 4096);
    WithFreshItem(m2, "maxLength", Changed, rMax);
    FoldTwo(m1, es[0], es[1], ValuesStep());
    assert es == [es[0], es[1]];
  }

  /**
   * Dropping `type` and changing `minLength` and `maxLength` of the
   * `Description` property: each keyword records the owner path.
   */
  lemma DescriptionScenario()
    ensures Translate(DescriptionReport()) == Ok(map[
      "type" := map[Removed := [JStr(DescriptionOwner)]],
      "minLength" := map[Changed := [ChangedRecord(DescriptionOwner, JNum(0), JNum(10))]],
      "maxLength" := map[Changed := [ChangedRecord(DescriptionOwner, JNum(8192), JNum(4096))]]])
  {
    var r := DescriptionReport();
    DescriptionFirstSection();
    DescriptionSecondSection(map["type" := map[Removed := [JStr(DescriptionOwner)]]]);
    FoldTwo(map[], r[0], r[1], CategoryStep());
    assert r == [r[0], r[1]];
  }

  const NameMember: Member := Member("Name", JObj([Member("type", JStr("string"))]))
  const NestedConfigurations: Member :=
    Member("Configurations", JObj([Member("type", JStr("array")), Member("items", JObj([]))]))

  function ConfigurationsDefinition(): Json
  {
    JObj([
      Member("type", JStr("array")),
      Member("items", JObj([
        Member("type", JStr("object")),
        Member(PROPERTIES, JObj([NameMember, NestedConfigurations]))]))])
  }

  const ConfigurationsPath: string := "/properties/Configurations"
  const ConfigurationsItems: string := ConfigurationsPath + "/*"

  /** An array property nests the properties of its `items` object below `*`. */
  lemma ConfigurationsNestsItems()
    ensures NestedPaths(ConfigurationsPath, ConfigurationsDefinition())
      == NestedPaths(ConfigurationsItems, JObj([NameMember, NestedConfigurations]))
  {
    var v := ConfigurationsDefinition();
    assert Get(v.members, "type") == JStr("array");
    var items := GetOr(v.members, "items", JObj([]));
    assert items == v.members[1].value;
    var im := items.members;
    assert im[0].key == "type" && im[0].key[0] != PROPERTIES[0];
    assert im[1..] == [Member(PROPERTIES, JObj([NameMember, NestedConfigurations]))];
    assert Lookup(im, PROPERTIES) == Lookup(im[1..], PROPERTIES) == Some(JObj([NameMember, NestedConfigurations]));
    assert GetOr(items.members, PROPERTIES, JObj([])) == JObj([NameMember, NestedConfigurations]);
  }

  /** Neither nested property nests anything further. */
  lemma ConfigurationsLeaves(q: string)
    ensures NestedPaths(q, NameMember.value) == Ok([])
    ensures NestedPaths(q, NestedConfigurations.value) == Ok([])
  {
    var w := NestedConfigurations.value;
    assert Get(w.members, "type") == JStr("array");
    assert GetOr(w.members, "items", JObj([])) == JObj([]);
    assert GetOr(JObj([]).members, PROPERTIES, JObj([])) == JObj([]);
    assert Get(NameMember.value.members, "type") == JStr("string");
  }

  /** A member without nested properties appends just its own path. */
  lemma FieldPathsLeaf(q: string, ms: seq<Member>, m: Member, init: seq<string>)
    requires FieldPaths(q, ms) == Ok(init)
    requires NestedPaths(q + "/" + m.key, m.value) == Ok([])
    ensures FieldPaths(q, ms + [m]) == Ok(init + [q + "/" + m.key])
  {
    assert (ms + [m])[..|ms|] == ms;
    assert (ms + [m])[|ms|] == m;
    assert init + [q + "/" + m.key] + [] == init + [q + "/" + m.key];
  }

  /** Two members without nested properties record just their own paths, in order. */
  lemma FieldPathsTwoLeaves(q: string, a: Member, b: Member)
    requires NestedPaths(q + "/" + a.key, a.value) == Ok([])
    requires NestedPaths(q + "/" + b.key, b.value) == Ok([])
    ensures FieldPaths(q, [a, b]) == Ok([q + "/" + a.key, q + "/" + b.key])
  {
    var pa := q + "/" + a.key;
    FieldPathsLeaf(q, [], a, []);
    assert FieldPaths(q, [a]) == Ok([pa]) by {
      assert [] + [a] == [a];
      assert [] + [pa] == [pa];
    }
    FieldPathsLeaf(q, [a], b, [pa]);
    assert [a] + [b] == [a, b];
    assert [pa] + [q + "/" + b.key] == [pa, q + "/" + b.key];
  }

  /** The nested properties record their own paths and nothing below them. */
  lemma ConfigurationsFields(q: string)
    ensures FieldPaths(q, [NameMember, NestedConfigurations]) == Ok([q + "/Name", q + "/Configurations"])
  {
    var pn := q + "/" + NameMember.key;
    var pc := q + "/" + NestedConfigurations.key;
    assert pn == q + "/Name" by { assert "/" + "Name" == "/Name"; }
    assert pc == q + "/Configurations" by { assert "/" + "Configurations" == "/Configurations"; }
    ConfigurationsLeaves(pn);
    ConfigurationsLeaves(pc);
    FieldPathsTwoLeaves(q, NameMember, NestedConfigurations);
  }

  lemma ConfigurationsNested()
    ensures NestedPaths(ConfigurationsPath, ConfigurationsDefinition())
      == Ok([ConfigurationsItems + "/Name", ConfigurationsItems + "/Configurations"])
  {
    ConfigurationsNestsItems();
    assert !HasKey([NameMember, NestedConfigurations], "type");
    ConfigurationsFields(ConfigurationsItems);
  }

  lemma ConfigurationsRender()
    ensures Render([PROPERTIES, "Configurations"]) == ConfigurationsPath
  {
    RenderTwo(PROPERTIES, "Configurations");
    assert "/" + PROPERTIES + "/" + "Configurations" == ConfigurationsPath;
  }

  /** Items recorded into a meta-diff holding one bucket extend that bucket. */
  lemma {:induction false} WithItemsSingleton(key: string, change: Change, b: seq<Json>, vs: seq<Json>)
    ensures WithItems(map[key := map[change := b]], key, change, vs) == map[key := map[change := b + vs]]
  {
    if vs == [] {
      assert b + vs == b;
    } else {
      var init := vs[..|vs| - 1];
      WithItemsSingleton(key, change, b, init);
      var m := map[key := map[change := b + init]];
      assert key in m && change in m[key];
      assert WithItem(m, key, change, vs[|vs| - 1]) == m[key := m[key][change := b + init + [vs[|vs| - 1]]]];
      assert b + init + [vs[|vs| - 1]] == b + vs;
      var inner := map[change := b + init];
      assert m[key] == inner;
      assert inner[change := b + vs] == map[change := b + vs];
      assert m[key := map[change := b + vs]] == map[key := map[change := b + vs]];
    }
  }

  /** The new `Configurations` property records its path, then its nested paths. */
  lemma ConfigurationsEntry()
    ensures DictEntry(map[], Added, DiffEntry([Key(PROPERTIES), Key("Configurations")], ConfigurationsDefinition()))
      == Ok(map[PROPERTIES := map[Added := [
        JStr(ConfigurationsPath),
        JStr(ConfigurationsItems + "/Name"),
        JStr(ConfigurationsItems + "/Configurations")]]])
  {
    var p := ConfigurationsPath;
    var q := ConfigurationsItems;
    var ps := [q + "/Name", q + "/Configurations"];
    var e := DiffEntry([Key(PROPERTIES), Key("Configurations")], ConfigurationsDefinition());
    ConfigurationsClassified();
    ResourceEntryFromEmpty(Added, e, ps);
    assert [JStr(p)] + PathValues(ps) == [JStr(p), JStr(q + "/Name"), JStr(q + "/Configurations")];
  }

  /** The `Configurations` path is a resource property with two nested paths. */
  lemma ConfigurationsClassified()
    ensures var steps := CastPath([Key(PROPERTIES), Key("Configurations")]);
      && IsResourceProperty(steps) && !IsCombinerProperty(steps)
      && Render(steps) == ConfigurationsPath
      && NestedPaths(ConfigurationsPath, ConfigurationsDefinition())
         == Ok([ConfigurationsItems + "/Name", ConfigurationsItems + "/Configurations"])
  {
    var steps := [PROPERTIES, "Configurations"];
    CastPathProperty("Configurations");
    ConfigurationsRender();
    ConfigurationsNested();
    assert steps[|steps| - 1] == "Configurations";
    CapitalisedIsResourceProperty(steps);
  }

  /** The first entry of a meta-diff, for a resource property with nested paths `ps`. */
  lemma ResourceEntryFromEmpty(change: Change, e: DiffEntry, ps: seq<string>)
    requires IsResourceProperty(CastPath(e.path)) && !IsCombinerProperty(CastPath(e.path))
    requires e.value.JObj? && NestedPaths(Render(CastPath(e.path)), e.value) == Ok(ps)
    ensures DictEntry(map[], change, e)
      == Ok(map[PROPERTIES := map[change := [JStr(Render(CastPath(e.path)))] + PathValues(ps)]])
  {
    var steps := CastPath(e.path);
    ClassificationExclusive(steps);
    var p := Render(steps);
    WithFreshItem(map[], PROPERTIES, change, JStr(p));
    WithItemsSingleton(PROPERTIES, change, [JStr(p)], PathValues(ps));
  }

  /**
   * A new array-of-objects property records its own path, then the path of
   * each nested property below `*`; nesting stops at an empty `items`.
   */
  lemma ConfigurationsScenario()
    ensures Translate([Category("dictionary_item_added",
        [DiffEntry([Key(PROPERTIES), Key("Configurations")], ConfigurationsDefinition())])])
      == Ok(map[PROPERTIES := map[Added := [
        JStr(ConfigurationsPath),
        JStr(ConfigurationsItems + "/Name"),
        JStr(ConfigurationsItems + "/Configurations")]]])
  {
    var e := DiffEntry([Key(PROPERTIES), Key("Configurations")], ConfigurationsDefinition());
    var c := Category("dictionary_item_added", [e]);
    ConfigurationsEntry();
    FoldOne(map[], e, DictStep(Added));
    DictionaryAddedSection(map[], [e]);
    FoldOne(map[], c, CategoryStep());
  }

  lemma DictionaryAddedSection(m: MetaDiff, es: seq<DiffEntry>)
    ensures CategoryChange(m, Category("dictionary_item_added", es)) == Fold(m, es, DictStep(Added))
  {
  }

}
