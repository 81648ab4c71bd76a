# Resource schema guard rail — a Dafny model of its core

The guard rail checks CloudFormation resource-provider schemas against
compliance rules written in the Guard language. Stateless evaluation works
in four steps:

1. Resolve every `$ref` of a schema.
2. Collect the paths of its properties and pick the first path that looks like a tag list as `TaggingPath`.
3. Run every rule file through the Guard engine.
4. Sort the failed checks into `non_compliant` and `warning` findings.

Stateful evaluation compares two versions of a schema. It resolves both and
takes the differ's report on them. It translates that report into a
"meta-diff" that groups changes by construct name. Then it evaluates the
rules on the meta-diff. In front of all this sits the command-line layer,
which validates its arguments and reads the schema and rule files.

The model has one module per source file, plus lemma modules beside them:

- **Results**: the Python exceptions the code raises, `Option`, `Result`, and `Outcome` for state-changing methods.
- **Json**: loaded JSON values, with integer numbers. Objects are ordered member lists, with `dict` lookup, assignment, `pop`, `update`, `in`, truthiness and iteration.
- **SchemaUtils** (with **SchemaUtilsLemmas** and **SchemaPathLemmas**): what `schema_utils.py` does.
  - `resolve_schema` is a pure function over immutable trees.
  - `_fetch_all_paths` is a class whose `paths` set its mutually recursive methods grow. That set is proved equal to a specification function.
  - `add_paths_to_schema` and `_add_tag_property` are methods proved against functions.
- **StatefulPaths** and **Stateful** (with **StatefulLemmas** and **SchemaDiffLemmas**): what `stateful.py` does.
  - The keyword sets, the `_is_*` predicates, `_get_path` and `_cast_path` are functions.
  - The meta-diff builder is a class whose methods update its `diff` map in place. Each method is proved against a specification function.
  - `schema_diff` composes resolution, the differ and the translator.
- **DataTypes**: what `data_types.py` does. The payloads are a sum type and `GuardRuleResult` is a value. `GuardRuleSetResult` is a class whose `merge` updates its fields.
- **Runner** (with **RunnerLemmas**): what `runner.py` does.
  - Bucketing of the engine's failed checks is a nested loop proved against a fold.
  - The `__exec__` closure is the `Executor` class, whose accumulator is merged on every rule file.
  - The stateless and stateful compositions sit on top.
- **Common**: what `common.py` does. Each regular expression is a string predicate. Beside it sits the regular expression read literally, as an existential over its groups, and a lemma proves the two agree.
- **ArgHandler**: what `arg_handler.py` does. `apply_rule` and the validators are functions. `collect_schemas` and `collect_rules` are loops proved against a fold. A newline inside a file name passes validation, since `[^/]+` accepts it, but not the `.+` of the extract pattern, so `.group` is called on None and raises AttributeError; the model keeps this path. The docstring of `collect_schemas` promises that a schema given inline as escaped JSON is parsed, and `test_arg_handler.py` expects `[{"foo": "bar"}]` from `['{"foo": "bar"}']`; the code has no such branch, and the model follows the code: the entry fails the `file://` assertion (`InlineJsonRejected`).

External parts become parameters:

- the Guard engine is a function `run` from a document and a rule text to the engine's output;
- Python's `literal_eval` becomes the `parsed` field of a check: the SyntaxError it may raise, any other exception, a literal that is not a dict, or a dict;
- DeepDiff is a function `differ` from two resolved schemas to the report;
- the jsonschema `RefResolver` is a map `refs` from reference strings to documents;
- the packaged rule files are a set `packaged`;
- the file readers are functions `readJson` and `readFile`.

Python set iteration order is unspecified. Where the source iterates a set, the model iterates an arbitrary enumeration of the set. The contracts hold for every order (`Enumerates`).

## Model

| member | source | states |
|---|---|---|
| Json.Lookup | src/rpdk/guard_rail/utils/schema_utils.py:31 | a key is found iff it is one of the object's keys, and the value found is stored under that key |
| Json.Put | src/rpdk/guard_rail/utils/schema_utils.py:147 | after `d[k] = v`, `k` maps to `v` and every other key keeps its value |
| Json.PutKeys | src/rpdk/guard_rail/utils/schema_utils.py:147-155 | assigning an existing key keeps the key order; a new key goes last |
| Json.Remove | src/rpdk/guard_rail/utils/schema_utils.py:69 | after `pop(k, None)` the key is absent, every other key keeps its value, and an absent key changes nothing |
| Json.UpdateLookup | src/rpdk/guard_rail/utils/schema_utils.py:40 | after `update`, keys of the argument take its values and every other key keeps the receiver's |
| Json.PutSame | src/rpdk/guard_rail/utils/schema_utils.py:31-34 | writing a key's own value back leaves the object unchanged |
| Json.Contains | src/rpdk/guard_rail/utils/schema_utils.py:30-44 | `k in d` tests the keys of a dict and the elements of a list; it raises TypeError exactly on values that are not containers |
| Json.Iterate | src/rpdk/guard_rail/utils/schema_utils.py:112-120 | iterating a list yields its elements; iteration fails on anything but a list, dict or string |
| Json.IterateSizes | src/rpdk/guard_rail/utils/schema_utils.py:112-120 | nothing iterated is larger than its container, so the traversal terminates |
| SchemaUtils.PathCollector.constructor | src/rpdk/guard_rail/utils/schema_utils.py:126 | the path set starts empty |
| Stateful.MetaDiffBuilder.constructor | src/rpdk/guard_rail/core/stateful.py:426 | the meta-diff starts empty |
| SchemaUtils.Resolve | src/rpdk/guard_rail/utils/schema_utils.py:29-66 | resolving an object always yields an object |
| SchemaUtils.ResolveObject | src/rpdk/guard_rail/utils/schema_utils.py:29-66 | a resolved node is an object |
| SchemaUtils.ResolveSchema | src/rpdk/guard_rail/utils/schema_utils.py:17-70 | the result is an object without `definitions`; a schema that is not an object fails |
| SchemaUtils.ChainShrinks | src/rpdk/guard_rail/utils/schema_utils.py:41-43 | following a new `$ref` shrinks the set of references not yet on the chain, so resolution terminates |
| SchemaUtilsLemmas.MapStageKeeps | src/rpdk/guard_rail/utils/schema_utils.py:30-34 | the `properties` (or `patternProperties`) stage changes only its own key |
| SchemaUtilsLemmas.CombinerStageKeeps | src/rpdk/guard_rail/utils/schema_utils.py:51-65 | a combiner stage changes only its own key |
| SchemaUtilsLemmas.LaterStagesKeep | src/rpdk/guard_rail/utils/schema_utils.py:44-66 | without a `$ref`, the stages after `properties` touch only their own keywords |
| SchemaUtilsLemmas.PropertiesStageNoRef | src/rpdk/guard_rail/utils/schema_utils.py:30-34 | after the `properties` stage, no property value holds a `$ref` along `properties` edges |
| SchemaUtilsLemmas.ValuesNoRef | src/rpdk/guard_rail/utils/schema_utils.py:31-34 | resolved property values are free of `$ref` along `properties` edges |
| SchemaUtilsLemmas.ResolvedNoRefAlongProperties | src/rpdk/guard_rail/utils/schema_utils.py:29-43 | a resolved document has no `$ref` on any node reached through `properties` |
| SchemaUtilsLemmas.ObjectNoRef | src/rpdk/guard_rail/utils/schema_utils.py:35-43 | the same for each resolved object, including a cycle cut and an expanded reference |
| SchemaUtilsLemmas.CleanIsFixpoint | src/rpdk/guard_rail/utils/schema_utils.py:29-66 | a document with no `$ref` anywhere the resolver looks is returned unchanged |
| SchemaUtilsLemmas.CleanObjectIsFixpoint | src/rpdk/guard_rail/utils/schema_utils.py:29-66 | the same for one object node |
| SchemaUtilsLemmas.CleanMapIsFixpoint | src/rpdk/guard_rail/utils/schema_utils.py:30-34 | a clean `properties` map is left as it is |
| SchemaUtilsLemmas.CleanValuesAreFixpoints | src/rpdk/guard_rail/utils/schema_utils.py:31-34 | each clean property value resolves to itself |
| SchemaUtilsLemmas.CleanCombinerIsFixpoint | src/rpdk/guard_rail/utils/schema_utils.py:51-65 | a clean combiner list is left as it is |
| SchemaUtilsLemmas.CleanElemsAreFixpoints | src/rpdk/guard_rail/utils/schema_utils.py:52-55 | each clean combiner element resolves to itself |
| SchemaUtilsLemmas.CleanSchemaLosesOnlyDefinitions | src/rpdk/guard_rail/utils/schema_utils.py:68-70 | resolving a clean schema only pops `definitions` |
| SchemaUtilsLemmas.ResolveCleanResultAgain | src/rpdk/guard_rail/utils/schema_utils.py:17-70 | resolving is idempotent whenever its result is clean |
| SchemaUtilsLemmas.OtherKeysKept | src/rpdk/guard_rail/utils/schema_utils.py:29-66 | a node without `$ref` keeps every key the resolver does not handle |
| SchemaUtilsLemmas.RefExpands | src/rpdk/guard_rail/utils/schema_utils.py:35-43 | a new `$ref` is popped, the target merged over the node by `update`, and the merge resolved with the reference added to the chain |
| SchemaUtilsLemmas.RefTargetWins | src/rpdk/guard_rail/utils/schema_utils.py:39-40 | on a key both share, the referenced definition's value replaces the node's own |
| SchemaUtilsLemmas.MergeOverRef | src/rpdk/guard_rail/utils/schema_utils.py:39-40 | `update` with a target that has the key gives the target's value and brings no `$ref` back |
| SchemaUtilsLemmas.ResolvedKeeps | src/rpdk/guard_rail/utils/schema_utils.py:41-43 | resolving the merged node keeps its non-keyword keys |
| SchemaUtilsLemmas.CycleCut | src/rpdk/guard_rail/utils/schema_utils.py:36-38 | a `$ref` already on the chain is popped and the node returned without further resolution |
| SchemaUtilsLemmas.ItemsOnlyNode | src/rpdk/guard_rail/utils/schema_utils.py:49-50 | a node with only `items` resolves its `items` |
| SchemaUtilsLemmas.SingleValue | src/rpdk/guard_rail/utils/schema_utils.py:31-34 | a one-property map resolves its one value |
| SchemaUtilsLemmas.OnlyPropertiesStages | src/rpdk/guard_rail/utils/schema_utils.py:30-66 | a node with only `properties` is the `properties` stage's result |
| SchemaUtilsLemmas.OnePropertySchema | src/rpdk/guard_rail/utils/schema_utils.py:17-70 | a one-property schema resolves to that property's resolution |
| SchemaUtilsLemmas.InnerIsCut | src/rpdk/guard_rail/utils/schema_utils.py:36-38 | inside an expansion, the repeated self-reference is cut and its `items` left unresolved |
| SchemaUtilsLemmas.LoopExpandsOnce | src/rpdk/guard_rail/utils/schema_utils.py:35-43 | a self-referencing definition is expanded exactly once |
| SchemaUtilsLemmas.PropertiesAndDefinitionsStages | src/rpdk/guard_rail/utils/schema_utils.py:44-66 | on a node holding `properties` and `definitions`, the stages after `properties` change nothing |
| SchemaUtilsLemmas.OnePropertyWithDefinitions | src/rpdk/guard_rail/utils/schema_utils.py:17-70 | a schema with one property and a `definitions` section resolves that property, and `definitions` is dropped unresolved |
| SchemaUtilsLemmas.CutLeavesReference | src/rpdk/guard_rail/utils/schema_utils.py:17-70 | a schema resolved against the references its own `definitions` declare can still hold a `$ref` below a cut node (under `items`) |
| SchemaUtilsLemmas.ResolvingAgainFails | src/rpdk/guard_rail/utils/schema_utils.py:17-70 | that result has no `definitions`, so resolving it again against the references it declares raises RefResolutionError; resolution is not idempotent in general |
| SchemaUtils.PathCollector.Traverse | src/rpdk/guard_rail/utils/schema_utils.py:86-122 | the collector's set grows by exactly the traversal's specification set, or the traversal's exception is reported |
| SchemaUtils.PathCollector.Members | src/rpdk/guard_rail/utils/schema_utils.py:97-122 | on a dict without `items`, the collector grows by exactly the traversal's set, the nested properties first and then the first combiner present |
| SchemaUtils.PathCollector.Drain | src/rpdk/guard_rail/utils/schema_utils.py:101-110 | the `popitem` loop adds exactly the paths of every nested property |
| SchemaUtils.PathCollector.Combiner | src/rpdk/guard_rail/utils/schema_utils.py:112-120 | each sub-schema of the chosen combiner is traversed at the same path |
| SchemaUtils.PathCollector.FirstCombiner | src/rpdk/guard_rail/utils/schema_utils.py:112-122 | only the first of `allOf`, `anyOf`, `oneOf` that the dict has is traversed, and the collector grows by exactly its paths |
| SchemaUtils.DrainStep | src/rpdk/guard_rail/utils/schema_utils.py:103-110 | popping the last property traverses it, then the rest |
| SchemaUtils.Rendered | src/rpdk/guard_rail/utils/schema_utils.py:134 | each path is rendered as "/properties/" followed by its steps joined with "/" |
| SchemaUtils.FetchAllPaths | src/rpdk/guard_rail/utils/schema_utils.py:73-134 | the result is the resolved schema and the rendering of some enumeration of the path set; it fails exactly when resolution or traversal fails |
| SchemaUtils.RenderAll | src/rpdk/guard_rail/utils/schema_utils.py:134 | the returned list renders every collected tuple exactly once, in some iteration order of the set |
| SchemaPathLemmas.RecordedPrefix | src/rpdk/guard_rail/utils/schema_utils.py:90 | the recorded path (a trailing `*` dropped) is a prefix of the current path |
| SchemaPathLemmas.TraversePathsBelow | src/rpdk/guard_rail/utils/schema_utils.py:86-122 | a traversal records its own path and only paths below it |
| SchemaPathLemmas.DrainPathsBelow | src/rpdk/guard_rail/utils/schema_utils.py:101-110 | nested properties record only paths below the current one |
| SchemaPathLemmas.DrainMembersBelow | src/rpdk/guard_rail/utils/schema_utils.py:103-110 | every recorded path below the current one continues with one of the property names |
| SchemaPathLemmas.CombinerPathsBelow | src/rpdk/guard_rail/utils/schema_utils.py:112-120 | sub-schemas record the current path or paths below it |
| SchemaPathLemmas.SubSchemaPathsBelow | src/rpdk/guard_rail/utils/schema_utils.py:113-120 | the same for each list of sub-schemas |
| SchemaPathLemmas.DrainMembersRecordsKeys | src/rpdk/guard_rail/utils/schema_utils.py:103-110 | every nested property's path is recorded |
| SchemaPathLemmas.AllPathsTopLevel | src/rpdk/guard_rail/utils/schema_utils.py:124-133 | every top-level property is recorded, and every recorded path starts with one |
| SchemaPathLemmas.PropertiesRecorded | src/rpdk/guard_rail/utils/schema_utils.py:101-110 | without `items`, every entry of `properties` is recorded below the current path |
| SchemaPathLemmas.ItemsShadows | src/rpdk/guard_rail/utils/schema_utils.py:93-97 | a node with `items` is traversed only through `items`; its `properties` and combiners are ignored |
| SchemaPathLemmas.SubSchemaIndependent | src/rpdk/guard_rail/utils/schema_utils.py:113-120 | the paths of sub-schemas depend only on the sub-schemas |
| SchemaPathLemmas.CombinerIndependent | src/rpdk/guard_rail/utils/schema_utils.py:112-120 | the same for a combiner's value |
| SchemaPathLemmas.AllOfShadows | src/rpdk/guard_rail/utils/schema_utils.py:112-120 | with `allOf`, `anyOf` and `oneOf` are ignored |
| SchemaPathLemmas.AnyOfShadowsOneOf | src/rpdk/guard_rail/utils/schema_utils.py:115-120 | with `anyOf` and no `allOf`, `oneOf` is ignored |
| SchemaPathLemmas.SubSchemaContains | src/rpdk/guard_rail/utils/schema_utils.py:113-114 | every sub-schema's paths are among its combiner's |
| SchemaPathLemmas.AllOfFlattened | src/rpdk/guard_rail/utils/schema_utils.py:112-114 | every `allOf` variant's paths are among the node's paths |
| SchemaPathLemmas.LastSegmentIsSuffix | src/rpdk/guard_rail/utils/schema_utils.py:154 | `split("/")[-1]` is the slash-free suffix after the last slash |
| SchemaPathLemmas.LastSegmentAfterSlash | src/rpdk/guard_rail/utils/schema_utils.py:154 | after a slash, a slash-free segment is the last segment |
| SchemaPathLemmas.FirstTaggedIsFirst | src/rpdk/guard_rail/utils/schema_utils.py:152-157 | the tagging path is the first path whose last segment contains "Tag", or there is none iff no path has one |
| SchemaPathLemmas.OnlyTaggedIsChosen | src/rpdk/guard_rail/utils/schema_utils.py:152-157 | the only tagged path is chosen whatever the order |
| SchemaPathLemmas.AnnotatedFields | src/rpdk/guard_rail/utils/schema_utils.py:137-157 | the schema gains `paths`; `TaggingPath` is set only when a tagged path exists; every other key is unchanged |
| SchemaUtils.AddTagProperty | src/rpdk/guard_rail/utils/schema_utils.py:152-157 | the loop sets `TaggingPath` to the first tagged path and stops, or leaves the schema as it was |
| SchemaUtils.PathList | src/rpdk/guard_rail/utils/schema_utils.py:147 | `paths` is the list of the rendered paths, in order |
| SchemaUtils.AddPathsToSchema | src/rpdk/guard_rail/utils/schema_utils.py:137-149 | the result is the resolved schema annotated with the paths of some enumeration and the tagging path, or resolution's exception |
| SchemaPathLemmas.UntaggedSegment | src/rpdk/guard_rail/utils/schema_utils.py:154-155 | a last segment without a "g" is not tagged |
| SchemaPathLemmas.DescriptionTagsTagged | tests/unit/utils/test_schema_utils.py:138 | "/properties/Description/Tags" is tagged |
| SchemaPathLemmas.SplitUntagged | tests/unit/utils/test_schema_utils.py:131-140 | each untagged launch-template path, split at its last slash, has no "Tag" in its last segment |
| SchemaPathLemmas.LaunchTemplateUntagged | tests/unit/utils/test_schema_utils.py:131-140 | every other path of the launch-template schema is untagged |
| SchemaPathLemmas.LaunchTemplateTaggingPath | tests/unit/utils/test_schema_utils.py:145-155 | over any order of those paths, the tagging path is "/properties/Description/Tags" |
| StatefulPaths.VocabulariesDisjoint | src/rpdk/guard_rail/core/stateful.py:54-93 | the keyword sets are pairwise disjoint and `properties` is no list construct |
| StatefulPaths.ClassificationExclusive | src/rpdk/guard_rail/core/stateful.py:121-156 | a resource property is no JSON or leaf keyword; a JSON keyword is no leaf keyword; a list construct is nothing else; a combiner property is a resource property; an empty step list matches nothing |
| StatefulPaths.VocabulariesLowerCase | src/rpdk/guard_rail/core/stateful.py:54-93 | no keyword starts with a capital letter |
| StatefulPaths.CapitalisedIsResourceProperty | src/rpdk/guard_rail/core/stateful.py:131-156 | a path under `properties` ending in a capitalised name is a resource property and nothing else |
| StatefulPaths.RenderAppend | src/rpdk/guard_rail/core/stateful.py:159-161 | `_get_path` of a concatenation is the concatenation of the renderings |
| StatefulPaths.IndicesOnly | src/rpdk/guard_rail/core/stateful.py:164-170 | tokens that are all indices extract no step |
| StatefulPaths.ExtractTrailing | src/rpdk/guard_rail/core/stateful.py:169-170 | with indices only at the end, the extracted steps are the key names |
| StatefulPaths.CollapseTrailing | src/rpdk/guard_rail/core/stateful.py:167 | the `items`/`properties` rewrite keeps indices at the end |
| StatefulPaths.DropRestTrailing | src/rpdk/guard_rail/core/stateful.py:168 | dropping inner `properties` keeps indices at the end |
| StatefulPaths.CastPathTrailingIndices | src/rpdk/guard_rail/core/stateful.py:164-170 | with trailing indices only, `_cast_path` is the key names after the two rewrites |
| StatefulPaths.CollapseKeep | src/rpdk/guard_rail/core/stateful.py:167 | a token that does not start the text `items']['properties` is kept |
| StatefulPaths.CollapsePair | src/rpdk/guard_rail/core/stateful.py:167 | an `items`,`properties` pair becomes `*` |
| StatefulPaths.CollapseJoin | src/rpdk/guard_rail/core/stateful.py:167 | a key ending in "items" before a key starting with "properties" merges with it, the matched text becoming `*` |
| StatefulPaths.CastPathJoinsKeys | src/rpdk/guard_rail/core/stateful.py:164-170 | the rewrite is not anchored at key boundaries: `root['properties']['lineitems']['properties']['x']` casts to `properties`, `line*`, `x` |
| StatefulPaths.DropKeep | src/rpdk/guard_rail/core/stateful.py:168 | any token other than a `properties` step between two steps is kept |
| StatefulPaths.DropSkip | src/rpdk/guard_rail/core/stateful.py:168 | a `properties` step between two steps is dropped |
| StatefulPaths.CastPathListElement | src/rpdk/guard_rail/core/stateful.py:164-170 | an element of a list construct casts to the construct's one step |
| StatefulPaths.CastPathArrayItem | tests/unit/core/test_stateful.py:110-151 | `root['properties'][n]['items']['properties'][s]` casts to `properties`, n, `*`, s |
| StatefulPaths.CastPathInnerProperties | src/rpdk/guard_rail/core/stateful.py:168 | an inner `properties` step is dropped |
| StatefulPaths.CastPathFoldsInnerIndex | src/rpdk/guard_rail/core/stateful.py:169-170 | a mid-path index leaves a dangling bracket that garbles the next key into "['type" |
| StatefulPaths.PlainUnchanged | src/rpdk/guard_rail/core/stateful.py:164-170 | plain keys pass the rewrites unchanged |
| StatefulPaths.CastPathPlain | src/rpdk/guard_rail/core/stateful.py:164-170 | a path of plain keys under `properties` casts to its key names |
| StatefulPaths.CastPathProperty | src/rpdk/guard_rail/core/stateful.py:164-170 | `root['properties'][n]` casts to `properties`, n |
| StatefulPaths.CastPathKeyword | src/rpdk/guard_rail/core/stateful.py:164-170 | `root['properties'][n][kw]` casts to `properties`, n, kw |
| Stateful.WithItemBuckets | src/rpdk/guard_rail/core/stateful.py:173-185 | `_add_item` appends to one bucket, creates its key, and leaves every other bucket as it was |
| Stateful.WithItemsAppend | src/rpdk/guard_rail/core/stateful.py:173-185 | adding two lists in turn is adding their concatenation |
| Stateful.WithItemsBuckets | src/rpdk/guard_rail/core/stateful.py:173-185 | adding a list extends one bucket by exactly that list |
| Stateful.PathValues | src/rpdk/guard_rail/core/stateful.py:211-216 | each path is recorded as a string |
| Stateful.WithPathsAppend | src/rpdk/guard_rail/core/stateful.py:210-223 | recording one path between two lists of paths records their concatenation |
| Stateful.NestedPathsBelow | src/rpdk/guard_rail/core/stateful.py:188-244 | every path `_traverse_nested_properties` records lies below its prefix |
| Stateful.FieldPathsBelow | src/rpdk/guard_rail/core/stateful.py:209-224 | the same for a properties map |
| Stateful.FieldPathsListMembers | src/rpdk/guard_rail/core/stateful.py:210-216 | every property of a map without `type` is recorded as prefix/name |
| Stateful.FieldPathsErrExtends | src/rpdk/guard_rail/core/stateful.py:210-223 | an exception on an early property aborts the traversal |
| Stateful.FoldErrExtends | src/rpdk/guard_rail/core/stateful.py:427-428 | an exception in one section aborts the whole translation |
| Stateful.FoldStepFails | src/rpdk/guard_rail/core/stateful.py:427-428 | a failing step makes the translation fail |
| Stateful.MetaDiffBuilder.AddItem | src/rpdk/guard_rail/core/stateful.py:173-185 | the builder's map becomes `WithItem` of the old map |
| Stateful.MetaDiffBuilder.TraverseNestedProperties | src/rpdk/guard_rail/core/stateful.py:188-244 | the builder records exactly the specification's nested paths, or reports its exception |
| Stateful.MetaDiffBuilder.TraverseMembers | src/rpdk/guard_rail/core/stateful.py:209-224 | the same for one properties map |
| Stateful.MetaDiffBuilder.ApplyIterableEntry | src/rpdk/guard_rail/core/stateful.py:262-284 | one iterable entry updates the map as `IterableEntry` says |
| Stateful.MetaDiffBuilder.TranslateIterableChange | src/rpdk/guard_rail/core/stateful.py:247-297 | an iterable section updates the map as its fold says |
| Stateful.MetaDiffBuilder.IterableEntries | src/rpdk/guard_rail/core/stateful.py:261-284 | the loop over the entries updates the map as the fold of the iterable step says, or stops at the first failing entry with the fold's error |
| Stateful.MetaDiffBuilder.ApplyDictEntry | src/rpdk/guard_rail/core/stateful.py:315-340 | one dictionary entry updates the map as `DictEntry` says |
| Stateful.MetaDiffBuilder.TranslateDictChange | src/rpdk/guard_rail/core/stateful.py:300-353 | a dictionary section updates the map as its fold says |
| Stateful.MetaDiffBuilder.DictEntries | src/rpdk/guard_rail/core/stateful.py:314-340 | the loop over the entries updates the map as the fold of the dictionary step says, or stops at the first failing entry with the fold's error |
| Stateful.MetaDiffBuilder.ApplyValuesEntry | src/rpdk/guard_rail/core/stateful.py:366-402 | one value change updates the map as `ValuesEntry` says |
| Stateful.MetaDiffBuilder.TranslateValuesChanged | src/rpdk/guard_rail/core/stateful.py:356-402 | a values section updates the map as its fold says |
| Stateful.MetaDiffBuilder.ApplyCategory | src/rpdk/guard_rail/core/stateful.py:412-428 | each section goes to its handler; an unknown one raises |
| Stateful.TranslateMetaDiff | src/rpdk/guard_rail/core/stateful.py:405-429 | the translator's result equals the specification `Translate` |
| Stateful.SchemaDiff | src/rpdk/guard_rail/core/stateful.py:96-118 | resolve previous, resolve current, translate the differ's report; any exception is passed on |
| StatefulLemmas.IterableEntryRecords | src/rpdk/guard_rail/core/stateful.py:262-284 | combiner paths raise; a list construct is filed under its name; a JSON or leaf keyword under the keyword; anything else changes nothing |
| StatefulLemmas.DictEntryResourceProperty | src/rpdk/guard_rail/core/stateful.py:321-326 | a resource property records its path and, for an object value, every nested path after it, and nothing else |
| StatefulLemmas.DictEntryKeyword | src/rpdk/guard_rail/core/stateful.py:327-340 | a keyword records its owner's path under the keyword; a list construct adds nothing |
| StatefulLemmas.ValuesEntryRecords | src/rpdk/guard_rail/core/stateful.py:366-402 | a list construct records old as removed and new as added; a keyword records the owner, old and new values as changed |
| StatefulLemmas.ValuesEntryLookups | src/rpdk/guard_rail/core/stateful.py:373-388 | a keyword change without `old_value` raises KeyError; a resource property changes nothing |
| StatefulLemmas.EmptyLocationChangesNothing | src/rpdk/guard_rail/core/stateful.py:121-156 | an entry whose path casts to no steps changes nothing in any handler |
| StatefulLemmas.CombinerAbortsTranslation | src/rpdk/guard_rail/core/stateful.py:264-320 | one combiner path in an iterable or dictionary section fails the whole translation |
| StatefulLemmas.UnknownSectionAborts | src/rpdk/guard_rail/core/stateful.py:428 | a section the switcher does not know fails the translation |
| StatefulLemmas.WithItemsKeys | src/rpdk/guard_rail/core/stateful.py:173-185 | recording paths under `properties` keeps every key a construct name |
| StatefulLemmas.EntryKeys | src/rpdk/guard_rail/core/stateful.py:262-402 | every handler files only under construct names |
| StatefulLemmas.FoldEntriesKeys | src/rpdk/guard_rail/core/stateful.py:262-402 | every handler's section keeps the keys construct names |
| StatefulLemmas.FoldReportKeys | src/rpdk/guard_rail/core/stateful.py:426-429 | the translation keeps the keys construct names |
| StatefulLemmas.CategoryKeys | src/rpdk/guard_rail/core/stateful.py:405-425 | every handler the switcher dispatches to keeps the keys construct names |
| StatefulLemmas.TranslateKeysAreConstructs | src/rpdk/guard_rail/core/stateful.py:405-429 | every meta-diff key is `properties` or a keyword, so never `TaggingPath` |
| StatefulLemmas.PrimaryIdentifierFirstSection | tests/unit/core/test_stateful.py:13-28 | the changed identifier is recorded as removed and added |
| StatefulLemmas.PrimaryIdentifierSecondSection | tests/unit/core/test_stateful.py:13-28 | the added identifier is appended |
| StatefulLemmas.PrimaryIdentifierScenario | tests/unit/core/test_stateful.py:13-28 | the whole primary-identifier change translates to the expected meta-diff |
| StatefulLemmas.DescriptionCast | tests/unit/core/test_stateful.py:30-92 | the Description keyword paths cast as the test expects |
| StatefulLemmas.DescriptionRender | tests/unit/core/test_stateful.py:51 | the owner path renders as "/properties/Description" |
| StatefulLemmas.DescriptionFirstSection | tests/unit/core/test_stateful.py:51 | the removed `type` keyword is recorded with its owner |
| StatefulLemmas.DescriptionKeywordChange | tests/unit/core/test_stateful.py:52-69 | a length change is recorded with owner, old and new values |
| StatefulLemmas.DescriptionSecondSection | tests/unit/core/test_stateful.py:30-70 | both length changes are recorded |
| StatefulLemmas.DescriptionScenario | tests/unit/core/test_stateful.py:30-70 | the whole Description change translates to the expected meta-diff |
| StatefulLemmas.ConfigurationsNestsItems | src/rpdk/guard_rail/core/stateful.py:233-235 | an array property is traversed through its items at prefix/* |
| StatefulLemmas.ConfigurationsLeaves | src/rpdk/guard_rail/core/stateful.py:205-244 | a string leaf and a property without items add nothing |
| StatefulLemmas.ConfigurationsFields | src/rpdk/guard_rail/core/stateful.py:209-224 | the two sub-properties are recorded in order |
| StatefulLemmas.ConfigurationsNested | tests/unit/core/test_stateful.py:110-151 | the recursive Configurations property yields its two nested paths |
| StatefulLemmas.ConfigurationsRender | tests/unit/core/test_stateful.py:134 | the property path renders as "/properties/Configurations" |
| StatefulLemmas.WithItemsSingleton | src/rpdk/guard_rail/core/stateful.py:173-185 | adding to a one-bucket map extends that bucket |
| StatefulLemmas.ConfigurationsEntry | tests/unit/core/test_stateful.py:110-151 | the added property records its path and both nested paths |
| StatefulLemmas.ConfigurationsScenario | tests/unit/core/test_stateful.py:110-151 | the whole added-property report translates to the expected meta-diff |
| StatefulLemmas.DictionaryAddedSection | src/rpdk/guard_rail/core/stateful.py:421 | `dictionary_item_added` is folded with the added dictionary handler |
| SchemaDiffLemmas.SameSchemaEmptyDiff | src/rpdk/guard_rail/core/stateful.py:96-118 | with a differ that reports nothing for equal inputs, a schema diffed with itself gives an empty meta-diff, failing exactly when resolution fails |
| SchemaDiffLemmas.DefinitionsOnlyChangeIsInvisible | src/rpdk/guard_rail/core/stateful.py:99-100 | two clean schemas that differ only in `definitions` give an empty meta-diff |
| SchemaDiffLemmas.PreviousResolvedFirst | src/rpdk/guard_rail/core/stateful.py:99-100 | the previous schema's resolution error is the one reported |
| SchemaDiffLemmas.DiffKeysAreConstructs | src/rpdk/guard_rail/core/stateful.py:96-118 | every key of the meta-diff is a construct name |
| DataTypes.StatelessPayload | src/rpdk/guard_rail/core/data_types.py:34-45 | `rules` defaults to the empty list |
| DataTypes.StatefulPayload | src/rpdk/guard_rail/core/data_types.py:48-60 | `rules` defaults to the empty list |
| DataTypes.Merged | src/rpdk/guard_rail/core/data_types.py:103-112 | lists are concatenated; dict keys are the union, the operand's entry winning and the receiver's kept otherwise |
| DataTypes.MergeEmptyRight | src/rpdk/guard_rail/core/data_types.py:94-112 | merging an empty result changes nothing |
| DataTypes.MergeEmptyLeft | src/rpdk/guard_rail/core/data_types.py:94-112 | merging into an empty result copies the operand |
| DataTypes.MergeAssociative | src/rpdk/guard_rail/core/data_types.py:94-112 | successive merges can be grouped freely |
| DataTypes.GuardRuleSetResult.constructor | src/rpdk/guard_rail/core/data_types.py:89-92 | every field starts empty |
| DataTypes.GuardRuleSetResult.Of | src/rpdk/guard_rail/core/data_types.py:76-92 | the fields are the given ones |
| DataTypes.GuardRuleSetResult.Merge | src/rpdk/guard_rail/core/data_types.py:94-112 | a non-result operand raises TypeError and changes nothing; otherwise the receiver becomes `Merged` of the two |
| Runner.CheckOutcome | src/rpdk/guard_rail/core/runner.py:89-109 | an empty message files nothing; a message `literal_eval` rejects with SyntaxError files the default result as non-compliant; any other exception of `literal_eval` is raised; a literal that is not a dict raises TypeError; a missing `check_id` or `message` raises KeyError; otherwise the bucket is `warning` iff `result` is "WARNING", with the parsed id and message and, for TAG016 with a non-empty tag path, that path |
| Runner.AddItem | src/rpdk/guard_rail/core/runner.py:79-83 | the result joins its rule's set, which is created when absent; other rules unchanged |
| Runner.Render | src/rpdk/guard_rail/core/runner.py:111-116 | `compliant` and `skipped` are the engine's lists |
| Runner.RenderOutput | src/rpdk/guard_rail/core/runner.py:78-116 | the nested loop computes exactly the specification `Render` |
| Runner.RenderChecks | src/rpdk/guard_rail/core/runner.py:88-109 | the loop over one rule's checks computes exactly the fold of those checks into the two buckets, or the first exception |
| Runner.Executor.constructor | src/rpdk/guard_rail/core/runner.py:71-76 | a fresh empty accumulator, and the schema's `TaggingPath` |
| Runner.Executor.Exec | src/rpdk/guard_rail/core/runner.py:74-119 | the rendered output is merged into the accumulator, or rendering's exception leaves it as it was |
| Runner.ExecuteRules | src/rpdk/guard_rail/core/runner.py:153-157 | no rule files give no output; otherwise the accumulator after every file, or the first exception |
| Runner.Enumerate | src/rpdk/guard_rail/core/runner.py:155 | some enumeration of the rule set |
| Runner.RuleSet | src/rpdk/guard_rail/core/runner.py:151 | the packaged rules united with the payload's rules |
| Runner.ExecSchema | src/rpdk/guard_rail/core/runner.py:160-163 | a schema is annotated with its paths and its rules run over it |
| Runner.ExecStateless | src/rpdk/guard_rail/core/runner.py:139-164 | one report per schema, in order, each the run over that schema's annotation; on an exception, every schema before the first failing one produced its report and the exception is that schema's |
| Runner.ExecSchemas | src/rpdk/guard_rail/core/runner.py:159-164 | one report per schema, in order, each the run over that schema's annotation; on an exception, every schema before the first failing one produced its report and the exception is that schema's |
| Runner.ExecStateful | src/rpdk/guard_rail/core/runner.py:167-195 | the rules run over the meta-diff, which is attached as `schema_difference` to a one-element list |
| Runner.ExecCompliance | src/rpdk/guard_rail/core/runner.py:124-195 | a stateless payload runs the stateless rule set over each schema in order, one report per schema annotated with its paths, or fails with the first failing schema's exception after every earlier schema produced its report; a stateful payload is exactly the stateful report of the diff of the previous against the current schema under the stateful rule set, a single report carrying the diff |
| RunnerLemmas.FileCheckSpec | src/rpdk/guard_rail/core/runner.py:89-106 | one check adds exactly its own result to its bucket |
| RunnerLemmas.FileChecksSpec | src/rpdk/guard_rail/core/runner.py:88-109 | a rule's checks add exactly the results some check produces |
| RunnerLemmas.FileRulesSpec | src/rpdk/guard_rail/core/runner.py:87-109 | all rules' checks add exactly the results some check produces, and no empty set |
| RunnerLemmas.RenderedExactly | src/rpdk/guard_rail/core/runner.py:78-116 | a result is filed under a rule in a bucket iff some check of that rule produces it for that bucket; no rule has an empty set |
| RunnerLemmas.WarningsAreWarnings | src/rpdk/guard_rail/core/runner.py:103-104 | every warning comes from a check whose parsed `result` is "WARNING" |
| RunnerLemmas.Tag016UsesTagPath | src/rpdk/guard_rail/core/runner.py:94-95 | with a non-empty tag path, every TAG016 result carries it |
| RunnerLemmas.UnparsableGivesDefault | src/rpdk/guard_rail/core/runner.py:107-109 | a message `literal_eval` rejects with SyntaxError puts the default result under its rule in `non_compliant` |
| RunnerLemmas.UncaughtParseAborts | src/rpdk/guard_rail/core/runner.py:91-107 | a message `literal_eval` rejects with another exception, or one that parses to a literal other than a dict, aborts the rendering |
| RunnerLemmas.EmptyMessageFilesNothing | src/rpdk/guard_rail/core/runner.py:90 | a check with an empty message changes nothing |
| RunnerLemmas.FileChecksErr | src/rpdk/guard_rail/core/runner.py:92-99 | one failing check fails its rule's loop |
| RunnerLemmas.FileRulesErr | src/rpdk/guard_rail/core/runner.py:87-99 | one failing check fails the whole rendering |
| RunnerLemmas.MissingKeyAborts | src/rpdk/guard_rail/core/runner.py:92-99 | a parsed message lacking `check_id` or `message` aborts the rendering |
| RunnerLemmas.Accumulated | src/rpdk/guard_rail/core/runner.py:153-157 | after several rule files, `compliant` and `skipped` are the engine's lists in run order, and a rule is non-compliant iff some file failed it |
| RunnerLemmas.LastFileWins | src/rpdk/guard_rail/core/data_types.py:105-108 | in `non_compliant` and in `warning` alike, the last rule file that files a rule decides its whole entry: any earlier file's set for that rule is dropped, even when later files do not file it |
| RunnerLemmas.StatefulDiffHasNoTagPath | src/rpdk/guard_rail/core/runner.py:76 | the meta-diff has no `TaggingPath`, so the stateful run has no tag path |
| RunnerLemmas.StatefulReportShape | src/rpdk/guard_rail/core/runner.py:180-195 | an empty rule set fails (no output to attach the diff to); otherwise one report carrying the diff |
| Common.FilePatternIff | src/rpdk/guard_rail/utils/common.py:7 | `FILE_PATTERN` matches iff the path starts with "file://" |
| Common.LastSlash | src/rpdk/guard_rail/utils/common.py:11-12 | the index of the last slash, with no slash after it |
| Common.LastSlashBefore | src/rpdk/guard_rail/utils/common.py:11-12 | a slash before a slash-free tail is the last one |
| Common.FileMatchIff | src/rpdk/guard_rail/utils/common.py:11-12 | with `$` matching at the end or before a final newline, the file-name pattern holds iff the path, or the path without that newline, splits into the groups |
| Common.TrailingNewlineSchemaFile | src/rpdk/guard_rail/utils/common.py:11 | "file://d/x.json" followed by a newline matches the schema-file pattern, though the extension does not end the string |
| Common.FileShapeIff | src/rpdk/guard_rail/utils/common.py:11-12 | with `$` at the very end, the file-name predicate holds iff the path splits into a non-empty newline-free directory, "/", a non-empty slash-free name and the extension |
| Common.GuardRuleHasSplit | src/rpdk/guard_rail/utils/common.py:10-21 | `is_guard_rule` holds only when some earlier prefix and a non-newline character precede "guard" |
| Common.SplitIsGuardRule | src/rpdk/guard_rail/utils/common.py:10-21 | such a split makes `is_guard_rule` hold |
| Common.IsGuardRuleIff | src/rpdk/guard_rail/utils/common.py:10-21 | `is_guard_rule` holds iff "guard" follows at least one character and a non-newline one |
| Common.NoGIsNoGuardRule | src/rpdk/guard_rail/utils/common.py:19-21 | a string without "g" is no guard rule |
| Common.GuardRuleExamples | tests/unit/utils/test_common.py:12-18 | ".../sample.guard" is a guard rule, ".../sample.json" is not; "abguard" is and ".guard" is not |
| Common.ExtractsAtEndIff | src/rpdk/guard_rail/utils/common.py:15-16 | the extract pattern with `$` at the very end matches iff a non-empty newline-free body sits between "file:/" and the extension |
| Common.ExtractsBeforeNewlineIff | src/rpdk/guard_rail/utils/common.py:15-16 | with `$` before a final newline it matches iff such a body sits between "file:/" and the extension followed by that newline |
| Common.ExtractPath | src/rpdk/guard_rail/utils/common.py:15-16 | group 2 is everything after "file:/", up to a final newline if there is one, and it ends in the extension |
| Common.ExtractPathMatches | src/rpdk/guard_rail/utils/common.py:15-16 | the extract pattern yields a group iff a non-empty newline-free body sits between "file:/" and the extension, optionally followed by one final newline |
| Common.TrailingNewlineExtracts | src/rpdk/guard_rail/utils/common.py:15 | "file://d/x.json" followed by a newline extracts "/d/x.json" |
| Common.ValidatedPathExtracts | src/rpdk/guard_rail/utils/arg_handler.py:143-144 | a newline-free path that passed validation always extracts |
| ArgHandler.ApplyRule | src/rpdk/guard_rail/utils/arg_handler.py:33-44 | the wrapped function runs iff the predicate holds; otherwise AssertionError with the message |
| ArgHandler.ApplyRuleStacked | src/rpdk/guard_rail/utils/arg_handler.py:101-111 | with two stacked rules the outer one is checked first |
| ArgHandler.ArgumentValidation | src/rpdk/guard_rail/utils/arg_handler.py:47-54 | passes iff not stateful or exactly two schemas; otherwise AssertionError with the two-schemas message |
| ArgHandler.SchemaInputPathValidation | src/rpdk/guard_rail/utils/arg_handler.py:101-111 | passes iff the `file://` prefix and the `.json` shape hold, the prefix's message taking precedence |
| ArgHandler.RuleInputPathValidation | src/rpdk/guard_rail/utils/arg_handler.py:114-120 | passes iff the `file://` prefix holds |
| ArgHandler.ValidationExamples | tests/unit/utils/test_arg_handler.py:58-79 | "file://directory1/file.json" passes; "/directory1" fails on the prefix; ".jpeg" fails on the shape |
| ArgHandler.CollectedErrExtends | src/rpdk/guard_rail/utils/arg_handler.py:141-145 | an exception on one entry ends the collection with it |
| ArgHandler.CollectedSpec | src/rpdk/guard_rail/utils/arg_handler.py:141-171 | collection succeeds iff every entry does, one result per entry in order; otherwise the first failing entry's exception |
| ArgHandler.CollectSchema | src/rpdk/guard_rail/utils/arg_handler.py:142-145 | validation errors first, then a failed extract, then the read of "/" plus the extracted group |
| ArgHandler.CollectSchemas | src/rpdk/guard_rail/utils/arg_handler.py:124-146 | `[]` for no schemas; otherwise the loop computes the collection |
| ArgHandler.CollectRule | src/rpdk/guard_rail/utils/arg_handler.py:161-170 | prefix failure first; a path not of `.guard` shape raises ValueError; otherwise the read of "/" plus the extracted group |
| ArgHandler.CollectRules | src/rpdk/guard_rail/utils/arg_handler.py:150-171 | `[]` for no rules; otherwise the loop computes the collection |
| ArgHandler.InlineJsonRejected | src/rpdk/guard_rail/utils/arg_handler.py:141-145 | a schema given inline as JSON text is not parsed: collecting it stops with the `file://` assertion |
| ArgHandler.CollectExamples | tests/unit/utils/test_arg_handler.py:113-173 | a `.guardian` rule raises the extension ValueError; a `.jsn` schema fails the json-shape assertion |
| ArgHandler.CollectedSchemaPath | src/rpdk/guard_rail/utils/arg_handler.py:144-145 | a valid newline-free entry is read from "/" plus its text after "file:/" |
| ArgHandler.TrailingNewlineCollected | src/rpdk/guard_rail/utils/arg_handler.py:141-145 | an entry ending in a newline passes validation and is read without that newline |

## Left out

- Json: numbers are integers; a float in a schema (`"maximum": 1.5`, `"multipleOf": 0.01`) or in a value the differ reports is not represented. The core passes numbers along as opaque data and never computes with them.
- DeepDiff is the `differ` parameter. Its ignore-order rule for `primaryIdentifier` is an assumption about that input, not something the model can state.
- Console output (the Rich printing in `schema_diff`, logging, and the Jinja rendering in `GuardRuleSetResult.__str__`) is output only.
- The Guard engine `cfn_guard_rs.run_checks` is the `run` parameter. `literal_eval` is the `parsed` field of a check: a SyntaxError, another exception, a literal that is not a dict, or a dict of string fields.
- Runner.CheckOutcome: a parsed dict whose values are not strings is not modelled, because the parsed dict is a string map. The TypeError raised on a literal that is not a dict carries a fixed message, not Python's per-type one.
- Runner.TagPathOf: a `TaggingPath` value that is not a string is treated as absent.
- `prepare_ruleset`, `read_file`, `read_json`, `setup_args` and `cli.py` are file and command-line I/O. They become the `packaged` set and the `readJson`/`readFile` parameters. Reading the same path twice is assumed to give the same result.
- jsonschema's `RefResolver` is the `refs` lookup map (`refsOf` in the runner). Several things are not modelled:
  - remote references;
  - a `$ref` that is not a string;
  - an `update` from a target that is not an object;
  - the in-place aliasing between inlined copies and `definitions`. Resolution is a pure function on immutable trees.
  - the exact exception for a top-level schema that is not an object: every such schema fails with one fixed AttributeError, while Python names the type in the message, and for `true` or `false` it fails later, with TypeError, at the `"properties" in schema` test. The jsonschema code that decides this is not part of this model.
- SchemaUtilsLemmas.ResolvedNoRefAlongProperties: proves the absence of `$ref` only along `properties` edges. Below a cut cycle, a `$ref` can survive under `items` or a combiner (`CutLeavesReference`).
- SchemaUtilsLemmas.ResolveCleanResultAgain: states idempotence only for clean results, because resolution is not idempotent in general (`ResolvingAgainFails`).
- Python set and dict iteration order:
  - Path sets and rule sets are iterated in an arbitrary enumeration.
  - The meta-diff and the findings are maps, so key insertion order is not kept.
- StatefulPaths.CastPathTrailingIndices: `_cast_path` is modelled on the tokens of the differ's path. The first rewrite is modelled on the key texts, so it also merges a key ending in "items" with a following key starting with "properties" (`CastPathJoinsKeys`). Brackets and quotes inside key names are not modelled, nor is the empty key `root['']`, on which the lazy group of the `findall` cannot match an empty name. "Indices are removed" is proved only for trailing indices; a mid-path index garbles the next key (`CastPathFoldsInnerIndex`).
- The `exec_compliance` placeholder that raises NotImplementedError cannot be reached, because the payload is a sum type.
