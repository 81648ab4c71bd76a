/**
 * Properties of `schema_diff`: what it reports when nothing that survives
 * resolution changed, and that its keys are always construct names.
 */
module SchemaDiffLemmas {
  import opened Results
  import opened Json
  import opened SchemaUtils
  import opened SchemaUtilsLemmas
  import opened Stateful
  import StatefulLemmas

  /** A differ that reports nothing when both sides are equal, as DeepDiff does. */
  ghost predicate Reflexive(differ: (Json, Json) -> seq<Category>)
  {
    forall x :: differ(x, x) == []
  }

  /** Comparing a schema with itself gives an empty meta-diff, unless resolving it fails. */
  lemma SameSchemaEmptyDiff(refs: Refs, schema: Json, differ: (Json, Json) -> seq<Category>)
    requires Reflexive(differ)
    ensures var d := DiffOfSchemas(refs, schema, refs, schema, differ);
      && (d.Err? <==> ResolveSchema(refs, schema).Err?)
      && (d.Ok? ==> d.value == map[])
  {
    var p := ResolveSchema(refs, schema);
    if p.Ok? {
      assert differ(p.value, p.value) == [];
      assert Translate([]) == Ok(map[]);
    }
  }

  /**
   * Two reference-free schemas that differ only in their `definitions`
   * section resolve to the same document, so the meta-diff is empty.
   */
  lemma DefinitionsOnlyChangeIsInvisible(previousRefs: Refs, previous: seq<Member>, currentRefs: Refs, current: seq<Member>,
                                         differ: (Json, Json) -> seq<Category>)
    requires Reflexive(differ)
    requires Clean(JObj(previous)) && Clean(JObj(current))
    requires Remove(previous, DEFINITIONS) == Remove(current, DEFINITIONS)
    ensures DiffOfSchemas(previousRefs, JObj(previous), currentRefs, JObj(current), differ) == Ok(map[])
  {
    CleanSchemaLosesOnlyDefinitions(previousRefs, previous);
    CleanSchemaLosesOnlyDefinitions(currentRefs, current);
    var p := JObj(Remove(previous, DEFINITIONS));
    assert differ(p, p) == [];
    assert Translate([]) == Ok(map[]);
  }

  /** A failure to resolve the previous schema is reported before the current one is looked at. */
  lemma PreviousResolvedFirst(previousRefs: Refs, previous: Json, currentRefs: Refs, current: Json,
                              differ: (Json, Json) -> seq<Category>)
    requires ResolveSchema(previousRefs, previous).Err?
    ensures DiffOfSchemas(previousRefs, previous, currentRefs, current, differ) == Err(ResolveSchema(previousRefs, previous).error)
  {
  }

  /** Every key of a meta-diff is one of the construct names the translator files under. */
  lemma DiffKeysAreConstructs(previousRefs: Refs, previous: Json, currentRefs: Refs, current: Json,
                              differ: (Json, Json) -> seq<Category>)
    ensures var d := DiffOfSchemas(previousRefs, previous, currentRefs, current, differ);
      d.Ok? ==> StatefulLemmas.KeysAreConstructs(d.value)
  {
    var p := ResolveSchema(previousRefs, previous);
    var c := ResolveSchema(currentRefs, current);
    if p.Ok? && c.Ok? {
      StatefulLemmas.TranslateKeysAreConstructs(differ(p.value, c.value));
    }
  }
}
