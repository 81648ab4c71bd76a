/**
 * Properties of the schema manipulations: what reference resolution
 * removes and keeps, where the cycle guard stops, which paths the
 * traversal records, and how `TaggingPath` is chosen.
 */
module SchemaUtilsLemmas {
  import opened Results
  import opened Json
  import opened SchemaUtils

  // ---------------------------------------------------------------------
  // Reference resolution
  // ---------------------------------------------------------------------

  /** No `$ref` on the node, nor on any node reached through `properties`. */
  predicate NoRefAlongProperties(j: Json)
    decreases Size(j), 1
  {
    j.JObj? ==>
      && !HasKey(j.members, REF)
      && (HasKey(j.members, PROPERTIES) ==>
            Get(j.members, PROPERTIES).JObj? && NoRefInValues(Get(j.members, PROPERTIES).members))
  }

  predicate NoRefInValues(ms: seq<Member>)
    decreases MembersSize(ms), 0
  {
    ms != [] ==> NoRefAlongProperties(ms[0].value) && NoRefInValues(ms[1..])
  }

  /** A stage leaves every key but its own as it found it. */
  lemma MapStageKeeps(refs: Refs, orig: seq<Member>, cur: seq<Member>, key: string, chain: set<string>, k: string)
    requires MapStage(refs, orig, cur, key, chain).Ok? && k != key
    ensures Lookup(MapStage(refs, orig, cur, key, chain).value, k) == Lookup(cur, k)
  {
  }

  lemma CombinerStageKeeps(refs: Refs, orig: seq<Member>, cur: seq<Member>, key: string, chain: set<string>, k: string)
    requires CombinerStage(refs, orig, cur, key, chain).Ok? && k != key
    ensures Lookup(CombinerStage(refs, orig, cur, key, chain).value, k) == Lookup(cur, k)
  {
  }

  /**
   * The stages after the `$ref` check leave every key they do not own as
   * the `properties` stage left it.
   */
  lemma LaterStagesKeep(refs: Refs, ms: seq<Member>, chain: set<string>, k: string)
    requires MapStage(refs, ms, ms, PROPERTIES, chain).Ok?
    requires !HasKey(MapStage(refs, ms, ms, PROPERTIES, chain).value, REF)
    requires k != PATTERN_PROPERTIES && k != ITEMS && k != ALL_OF && k != ANY_OF && k != ONE_OF
    ensures ResolveObject(refs, ms, chain).Ok? ==>
      Lookup(ResolveObject(refs, ms, chain).value.members, k) == Lookup(MapStage(refs, ms, ms, PROPERTIES, chain).value, k)
  {
    var ms1 := MapStage(refs, ms, ms, PROPERTIES, chain).value;
    var s3 := MapStage(refs, ms, ms1, PATTERN_PROPERTIES, chain);
    if s3.Ok? {
      MapStageKeeps(refs, ms, ms1, PATTERN_PROPERTIES, chain, k);
      var ms3 := s3.value;
      var s4: Result<seq<Member>> :=
        if HasKey(ms, ITEMS) then
          var it :- Resolve(refs, Get(ms, ITEMS), chain);
          Ok(Put(ms3, ITEMS, it))
        else Ok(ms3);
      if s4.Ok? {
        var ms4 := s4.value;
        assert Lookup(ms4, k) == Lookup(ms3, k);
        var s5 := CombinerStage(refs, ms, ms4, ALL_OF, chain);
        if s5.Ok? {
          CombinerStageKeeps(refs, ms, ms4, ALL_OF, chain, k);
          var s6 := CombinerStage(refs, ms, s5.value, ANY_OF, chain);
          if s6.Ok? {
            CombinerStageKeeps(refs, ms, s5.value, ANY_OF, chain, k);
            var s7 := CombinerStage(refs, ms, s6.value, ONE_OF, chain);
            if s7.Ok? {
              CombinerStageKeeps(refs, ms, s6.value, ONE_OF, chain, k);
              assert ResolveObject(refs, ms, chain) == Ok(JObj(s7.value));
            }
          }
        }
      }
    }
  }

  /** The `properties` stage leaves only reference-free property definitions. */
  lemma {:induction false} PropertiesStageNoRef(refs: Refs, ms: seq<Member>, chain: set<string>)
    requires MapStage(refs, ms, ms, PROPERTIES, chain).Ok?
    ensures var ms1 := MapStage(refs, ms, ms, PROPERTIES, chain).value;
      HasKey(ms1, PROPERTIES) ==>
        Get(ms1, PROPERTIES).JObj? && NoRefInValues(Get(ms1, PROPERTIES).members)
    decreases |refs.Keys - chain|, MembersSize(ms), 1
  {
    if HasKey(ms, PROPERTIES) {
      var v := Get(ms, PROPERTIES);
      ValuesNoRef(refs, v.members, chain);
    }
  }

  lemma {:induction false} ValuesNoRef(refs: Refs, vs: seq<Member>, chain: set<string>)
    ensures ResolveValues(refs, vs, chain).Ok? ==> NoRefInValues(ResolveValues(refs, vs, chain).value)
    decreases |refs.Keys - chain|, MembersSize(vs), 0
  {
    if vs != [] {
      ResolvedNoRefAlongProperties(refs, vs[0].value, chain);
      ValuesNoRef(refs, vs[1..], chain);
      var r := ResolveValues(refs, vs, chain);
      if r.Ok? {
        var rest := ResolveValues(refs, vs[1..], chain).value;
        assert r.value[1..] == rest;
      }
    }
  }

  /**
   * After resolution no node reached through `properties` holds `$ref`:
   * each node's properties are resolved before its own reference is
   * expanded or cut.
   */
  lemma {:induction false} ResolvedNoRefAlongProperties(refs: Refs, j: Json, chain: set<string>)
    ensures Resolve(refs, j, chain).Ok? ==> NoRefAlongProperties(Resolve(refs, j, chain).value)
    decreases |refs.Keys - chain|, Size(j), 3
  {
    if j.JObj? {
      ObjectNoRef(refs, j.members, chain);
    }
  }

  lemma {:induction false} ObjectNoRef(refs: Refs, ms: seq<Member>, chain: set<string>)
    ensures ResolveObject(refs, ms, chain).Ok? ==> NoRefAlongProperties(ResolveObject(refs, ms, chain).value)
    decreases |refs.Keys - chain|, MembersSize(ms), 2
  {
    var s1 := MapStage(refs, ms, ms, PROPERTIES, chain);
    if s1.Ok? {
      var ms1 := s1.value;
      PropertiesStageNoRef(refs, ms, chain);
      if HasKey(ms1, REF) {
        var ms2 := Remove(ms1, REF);
        match Get(ms1, REF)
        case JStr(ref) =>
          if ref in chain {
            assert Lookup(ms2, PROPERTIES) == Lookup(ms1, PROPERTIES);
          } else if ref in refs && refs[ref].JObj? {
            ChainShrinks(refs.Keys, chain, ref);
            ResolvedNoRefAlongProperties(refs, JObj(Update(ms2, refs[ref].members)), chain + {ref});
          }
        case _ =>
      } else {
        LaterStagesKeep(refs, ms, chain, PROPERTIES);
        LaterStagesKeep(refs, ms, chain, REF);
      }
    }
  }

  /**
   * A node the resolver leaves as it is: no `$ref` anywhere it looks, and
   * every stage's value of the shape the stage accepts.
   */
  predicate Clean(j: Json)
    decreases Size(j), 2
  {
    match j
    case JObj(ms) =>
      && !HasKey(ms, REF)
      && CleanMapAt(ms, PROPERTIES) && CleanMapAt(ms, PATTERN_PROPERTIES)
      && (HasKey(ms, ITEMS) ==> Clean(Get(ms, ITEMS)))
      && CleanCombinerAt(ms, ALL_OF) && CleanCombinerAt(ms, ANY_OF) && CleanCombinerAt(ms, ONE_OF)
    case JArr(_) => !Mentions(j, ResolverKeywords)
    case JStr(_) => !Mentions(j, ResolverKeywords)
    case _ => false
  }

  predicate CleanMapAt(ms: seq<Member>, key: string)
    decreases MembersSize(ms), 1
  {
    HasKey(ms, key) ==> Get(ms, key).JObj? && CleanValues(Get(ms, key).members)
  }

  predicate CleanValues(vs: seq<Member>)
    decreases MembersSize(vs), 0
  {
    vs != [] ==> Clean(vs[0].value) && CleanValues(vs[1..])
  }

  predicate CleanCombinerAt(ms: seq<Member>, key: string)
    decreases MembersSize(ms), 1
  {
    HasKey(ms, key) ==>
      var v := Get(ms, key);
      v == JStr("") || v == JObj([]) || (v.JArr? && CleanElems(v.elems))
  }

  predicate CleanElems(es: seq<Json>)
    decreases ElemsSize(es), 0
  {
    es != [] ==> Clean(es[0]) && CleanElems(es[1..])
  }

  /** A clean node resolves to itself, whatever the chain. */
  lemma {:induction false} CleanIsFixpoint(refs: Refs, j: Json, chain: set<string>)
    requires Clean(j)
    ensures Resolve(refs, j, chain) == Ok(j)
    decreases |refs.Keys - chain|, Size(j), 3
  {
    match j
    case JObj(ms) => CleanObjectIsFixpoint(refs, ms, chain);
    case JArr(_) =>
    case JStr(s) =>
      assert Contains(j, ResolverKeywords[0]) == Ok(IsSubstring(PROPERTIES, s));
      assert Contains(j, ResolverKeywords[1]) == Ok(IsSubstring(REF, s));
  }

  lemma {:induction false} CleanObjectIsFixpoint(refs: Refs, ms: seq<Member>, chain: set<string>)
    requires Clean(JObj(ms))
    ensures ResolveObject(refs, ms, chain) == Ok(JObj(ms))
    decreases |refs.Keys - chain|, MembersSize(ms), 2
  {
    CleanMapIsFixpoint(refs, ms, PROPERTIES, chain);
    CleanMapIsFixpoint(refs, ms, PATTERN_PROPERTIES, chain);
    if HasKey(ms, ITEMS) {
      CleanIsFixpoint(refs, Get(ms, ITEMS), chain);
      PutSame(ms, ITEMS);
    }
    CleanCombinerIsFixpoint(refs, ms, ALL_OF, chain);
    CleanCombinerIsFixpoint(refs, ms, ANY_OF, chain);
    CleanCombinerIsFixpoint(refs, ms, ONE_OF, chain);
  }

  lemma {:induction false} CleanMapIsFixpoint(refs: Refs, ms: seq<Member>, key: string, chain: set<string>)
    requires CleanMapAt(ms, key)
    ensures MapStage(refs, ms, ms, key, chain) == Ok(ms)
    decreases |refs.Keys - chain|, MembersSize(ms), 1
  {
    if HasKey(ms, key) {
      CleanValuesAreFixpoints(refs, Get(ms, key).members, chain);
      PutSame(ms, key);
    }
  }

  lemma {:induction false} CleanValuesAreFixpoints(refs: Refs, vs: seq<Member>, chain: set<string>)
    requires CleanValues(vs)
    ensures ResolveValues(refs, vs, chain) == Ok(vs)
    decreases |refs.Keys - chain|, MembersSize(vs), 0
  {
    if vs != [] {
      CleanIsFixpoint(refs, vs[0].value, chain);
      CleanValuesAreFixpoints(refs, vs[1..], chain);
      assert [Member(vs[0].key, vs[0].value)] + vs[1..] == vs;
    }
  }

  lemma {:induction false} CleanCombinerIsFixpoint(refs: Refs, ms: seq<Member>, key: string, chain: set<string>)
    requires CleanCombinerAt(ms, key)
    ensures CombinerStage(refs, ms, ms, key, chain) == Ok(ms)
    decreases |refs.Keys - chain|, MembersSize(ms), 1
  {
    if HasKey(ms, key) && Get(ms, key).JArr? {
      CleanElemsAreFixpoints(refs, Get(ms, key).elems, chain);
      PutSame(ms, key);
    }
  }

  lemma {:induction false} CleanElemsAreFixpoints(refs: Refs, es: seq<Json>, chain: set<string>)
    requires CleanElems(es)
    ensures ResolveElems(refs, es, chain) == Ok(es)
    decreases |refs.Keys - chain|, ElemsSize(es), 0
  {
    if es != [] {
      CleanIsFixpoint(refs, es[0], chain);
      CleanElemsAreFixpoints(refs, es[1..], chain);
      assert [es[0]] + es[1..] == es;
    }
  }

  /** A schema with no reachable reference only loses its `definitions`. */
  lemma CleanSchemaLosesOnlyDefinitions(refs: Refs, ms: seq<Member>)
    requires Clean(JObj(ms))
    ensures ResolveSchema(refs, JObj(ms)) == Ok(JObj(Remove(ms, DEFINITIONS)))
  {
    CleanIsFixpoint(refs, JObj(ms), {});
  }

  /** Resolving a resolved schema that came out clean changes nothing. */
  lemma ResolveCleanResultAgain(refs: Refs, schema: Json)
    requires ResolveSchema(refs, schema).Ok? && Clean(ResolveSchema(refs, schema).value)
    ensures ResolveSchema(refs, ResolveSchema(refs, schema).value) == ResolveSchema(refs, schema)
  {
    var t := ResolveSchema(refs, schema).value;
    CleanIsFixpoint(refs, t, {});
  }

  /** Without a `$ref`, every key the resolver does not own keeps its value. */
  lemma OtherKeysKept(refs: Refs, ms: seq<Member>, chain: set<string>, k: string)
    requires !HasKey(ms, REF) && k !in ResolverKeywords
    ensures ResolveObject(refs, ms, chain).Ok? ==>
      Lookup(ResolveObject(refs, ms, chain).value.members, k) == Lookup(ms, k)
  {
    var s1 := MapStage(refs, ms, ms, PROPERTIES, chain);
    if s1.Ok? {
      MapStageKeeps(refs, ms, ms, PROPERTIES, chain, REF);
      MapStageKeeps(refs, ms, ms, PROPERTIES, chain, k);
      LaterStagesKeep(refs, ms, chain, k);
    }
  }

  /** A reference not yet on the chain is replaced by its definition, merged over the node. */
  lemma RefExpands(refs: Refs, ms: seq<Member>, chain: set<string>, ref: string)
    requires HasKey(ms, REF) && Get(ms, REF) == JStr(ref)
    requires ref !in chain && ref in refs && refs[ref].JObj?
    requires MapStage(refs, ms, ms, PROPERTIES, chain).Ok?
    ensures ResolveObject(refs, ms, chain) ==
      Resolve(refs, JObj(Update(Remove(MapStage(refs, ms, ms, PROPERTIES, chain).value, REF), refs[ref].members)), chain + {ref})
  {
    MapStageKeeps(refs, ms, ms, PROPERTIES, chain, REF);
  }

  /**
   * On a collision between a sibling of `$ref` and a member of the
   * referenced definition, the definition's value wins (`dict.update`).
   */
  lemma RefTargetWins(refs: Refs, ms: seq<Member>, chain: set<string>, ref: string, k: string)
    requires HasKey(ms, REF) && Get(ms, REF) == JStr(ref)
    requires ref !in chain && ref in refs && refs[ref].JObj?
    requires UniqueKeys(refs[ref].members) && !HasKey(refs[ref].members, REF)
    requires HasKey(refs[ref].members, k) && k !in ResolverKeywords
    ensures ResolveObject(refs, ms, chain).Ok? ==>
      Lookup(ResolveObject(refs, ms, chain).value.members, k) == Lookup(refs[ref].members, k)
  {
    var s1 := MapStage(refs, ms, ms, PROPERTIES, chain);
    if s1.Ok? {
      RefExpands(refs, ms, chain, ref);
      var u := Update(Remove(s1.value, REF), refs[ref].members);
      MergeOverRef(Remove(s1.value, REF), refs[ref].members, k);
      ResolvedKeeps(refs, u, chain + {ref}, k);
    }
  }

  lemma MergeOverRef(ms2: seq<Member>, tm: seq<Member>, k: string)
    requires !HasKey(ms2, REF) && UniqueKeys(tm) && !HasKey(tm, REF) && HasKey(tm, k)
    ensures Lookup(Update(ms2, tm), k) == Lookup(tm, k) && !HasKey(Update(ms2, tm), REF)
  {
    UpdateLookup(ms2, tm, k);
    UpdateLookup(ms2, tm, REF);
  }

  lemma ResolvedKeeps(refs: Refs, u: seq<Member>, chain: set<string>, k: string)
    requires !HasKey(u, REF) && k !in ResolverKeywords
    ensures Resolve(refs, JObj(u), chain).Ok? ==>
      Lookup(Resolve(refs, JObj(u), chain).value.members, k) == Lookup(u, k)
  {
    OtherKeysKept(refs, u, chain, k);
  }

  /**
   * A reference already expanded on the current chain is dropped and not
   * expanded again; the node's other stages are skipped, so what lies
   * below it stays unresolved.
   */
  lemma CycleCut(refs: Refs, ms: seq<Member>, chain: set<string>, ref: string)
    requires HasKey(ms, REF) && Get(ms, REF) == JStr(ref) && ref in chain
    requires !HasKey(ms, PROPERTIES)
    ensures ResolveObject(refs, ms, chain) == Ok(JObj(Remove(ms, REF)))
  {
  }
  // ---------------------------------------------------------------------
  // A cycle whose cut leaves a reference behind
  // ---------------------------------------------------------------------

  /** A node holding only `items` resolves its items and nothing else. */
  lemma ItemsOnlyNode(refs: Refs, x: Json, chain: set<string>)
    ensures Resolve(refs, JObj([Member(ITEMS, x)]), chain) ==
      (var r := Resolve(refs, x, chain); if r.Ok? then Ok(JObj([Member(ITEMS, r.value)])) else Err(r.error))
  {
    var ms := [Member(ITEMS, x)];
    assert Keys(ms) == [ITEMS];
    assert Get(ms, ITEMS) == x;
    assert MapStage(refs, ms, ms, PROPERTIES, chain) == Ok(ms);
    assert MapStage(refs, ms, ms, PATTERN_PROPERTIES, chain) == Ok(ms);
    var r := Resolve(refs, x, chain);
    if r.Ok? {
      var ms4 := [Member(ITEMS, r.value)];
      assert Put(ms, ITEMS, r.value) == ms4;
      assert CombinerStage(refs, ms, ms4, ALL_OF, chain) == Ok(ms4);
      assert CombinerStage(refs, ms, ms4, ANY_OF, chain) == Ok(ms4);
      assert CombinerStage(refs, ms, ms4, ONE_OF, chain) == Ok(ms4);
    }
  }

  lemma SingleValue(refs: Refs, name: string, x: Json, chain: set<string>)
    ensures ResolveValues(refs, [Member(name, x)], chain) ==
      (var r := Resolve(refs, x, chain); if r.Ok? then Ok([Member(name, r.value)]) else Err(r.error))
  {
    assert [Member(name, x)][1..] == [];
    assert ResolveValues(refs, [], chain) == Ok([]);
    var r := Resolve(refs, x, chain);
    if r.Ok? {
      assert [Member(name, r.value)] + [] == [Member(name, r.value)];
    }
  }

  /** The stages after `properties` leave a node holding only `properties` alone. */
  lemma OnlyPropertiesStages(refs: Refs, ms: seq<Member>, ms1: seq<Member>, chain: set<string>)
    requires Keys(ms) == [PROPERTIES] && Keys(ms1) == [PROPERTIES]
    requires MapStage(refs, ms, ms, PROPERTIES, chain) == Ok(ms1)
    ensures ResolveObject(refs, ms, chain) == Ok(JObj(ms1))
  {
    assert MapStage(refs, ms, ms1, PATTERN_PROPERTIES, chain) == Ok(ms1);
    assert CombinerStage(refs, ms, ms1, ALL_OF, chain) == Ok(ms1);
    assert CombinerStage(refs, ms, ms1, ANY_OF, chain) == Ok(ms1);
    assert CombinerStage(refs, ms, ms1, ONE_OF, chain) == Ok(ms1);
  }

  /** A schema holding one property resolves that property and nothing else. */
  lemma OnePropertySchema(refs: Refs, name: string, x: Json)
    ensures ResolveSchema(refs, JObj([Member(PROPERTIES, JObj([Member(name, x)]))])) ==
      (var r := Resolve(refs, x, {});
       if r.Ok? then Ok(JObj([Member(PROPERTIES, JObj([Member(name, r.value)]))])) else Err(r.error))
  {
    var ms := [Member(PROPERTIES, JObj([Member(name, x)]))];
    assert Keys(ms) == [PROPERTIES];
    assert Get(ms, PROPERTIES) == JObj([Member(name, x)]);
    SingleValue(refs, name, x, {});
    var r := Resolve(refs, x, {});
    if r.Ok? {
      var ms1 := [Member(PROPERTIES, JObj([Member(name, r.value)]))];
      assert Put(ms, PROPERTIES, JObj([Member(name, r.value)])) == ms1;
      assert Keys(ms1) == [PROPERTIES];
      assert MapStage(refs, ms, ms, PROPERTIES, {}) == Ok(ms1);
      OnlyPropertiesStages(refs, ms, ms1, {});
      assert Resolve(refs, JObj(ms), {}) == Ok(JObj(ms1));
      assert Remove(ms1, DEFINITIONS) == ms1;
    } else {
      assert MapStage(refs, ms, ms, PROPERTIES, {}) == Err(r.error);
      assert ResolveObject(refs, ms, {}) == Err(r.error);
      assert Resolve(refs, JObj(ms), {}) == Err(r.error);
    }
  }

  const Loop: string := "#/definitions/Loop"

  /** `{"$ref": r}` */
  function RefTo(r: string): Json
  {
    JObj([Member(REF, JStr(r))])
  }

  /** `{"$ref": Loop, "items": {"$ref": Loop}}` */
  const Inner: Json := JObj([Member(REF, JStr(Loop)), Member(ITEMS, RefTo(Loop))])
  /** `{"items": {"items": {"$ref": Loop}}}` */
  const LoopOnce: Json := JObj([Member(ITEMS, JObj([Member(ITEMS, RefTo(Loop))]))])
  /** The single definition `Loop = {"items": Inner}`. */
  const LoopRefs: Refs := map[Loop := JObj([Member(ITEMS, Inner)])]

  lemma InnerIsCut()
    ensures Resolve(LoopRefs, Inner, {Loop}) == Ok(JObj([Member(ITEMS, RefTo(Loop))]))
  {
    var ms := Inner.members;
    assert Keys(ms) == [REF, ITEMS];
    CycleCut(LoopRefs, ms, {Loop}, Loop);
    assert Remove(ms, REF) == [Member(ITEMS, RefTo(Loop))];
  }

  lemma LoopExpandsOnce(chain: set<string>)
    requires chain == {}
    ensures Resolve(LoopRefs, RefTo(Loop), chain) == Ok(LoopOnce)
  {
    var ms := RefTo(Loop).members;
    assert Keys(ms) == [REF];
    assert Get(ms, REF) == JStr(Loop);
    RefExpands(LoopRefs, ms, chain, Loop);
    assert Remove(ms, REF) == [];
    assert Update([], LoopRefs[Loop].members) == [Member(ITEMS, Inner)];
    assert chain + {Loop} == {Loop};
    InnerIsCut();
    ItemsOnlyNode(LoopRefs, Inner, {Loop});
  }

  /** The stages after `properties` leave a node holding `properties` and `definitions` alone. */
  lemma PropertiesAndDefinitionsStages(refs: Refs, ms: seq<Member>, ms1: seq<Member>, chain: set<string>)
    requires Keys(ms) == [PROPERTIES, DEFINITIONS] && Keys(ms1) == [PROPERTIES, DEFINITIONS]
    requires MapStage(refs, ms, ms, PROPERTIES, chain) == Ok(ms1)
    ensures ResolveObject(refs, ms, chain) == Ok(JObj(ms1))
  {
    assert MapStage(refs, ms, ms1, PATTERN_PROPERTIES, chain) == Ok(ms1);
    assert CombinerStage(refs, ms, ms1, ALL_OF, chain) == Ok(ms1);
    assert CombinerStage(refs, ms, ms1, ANY_OF, chain) == Ok(ms1);
    assert CombinerStage(refs, ms, ms1, ONE_OF, chain) == Ok(ms1);
  }

  /**
   * A schema holding one property and a `definitions` section resolves that
   * property, leaves the definitions unresolved and then drops them.
   */
  lemma OnePropertyWithDefinitions(refs: Refs, name: string, x: Json, defs: Json)
    ensures ResolveSchema(refs, JObj([Member(PROPERTIES, JObj([Member(name, x)])), Member(DEFINITIONS, defs)])) ==
      (var r := Resolve(refs, x, {});
       if r.Ok? then Ok(JObj([Member(PROPERTIES, JObj([Member(name, r.value)]))])) else Err(r.error))
  {
    var ms := [Member(PROPERTIES, JObj([Member(name, x)])), Member(DEFINITIONS, defs)];
    assert Keys(ms) == [PROPERTIES, DEFINITIONS];
    assert Get(ms, PROPERTIES) == JObj([Member(name, x)]);
    SingleValue(refs, name, x, {});
    var r := Resolve(refs, x, {});
    if r.Ok? {
      var ms1 := [Member(PROPERTIES, JObj([Member(name, r.value)])), Member(DEFINITIONS, defs)];
      assert Put(ms, PROPERTIES, JObj([Member(name, r.value)])) == ms1;
      assert Keys(ms1) == [PROPERTIES, DEFINITIONS];
      assert MapStage(refs, ms, ms, PROPERTIES, {}) == Ok(ms1);
      PropertiesAndDefinitionsStages(refs, ms, ms1, {});
      assert Resolve(refs, JObj(ms), {}) == Ok(JObj(ms1));
      assert Remove(ms1, DEFINITIONS) == [Member(PROPERTIES, JObj([Member(name, r.value)]))];
    } else {
      assert MapStage(refs, ms, ms, PROPERTIES, {}) == Err(r.error);
      assert ResolveObject(refs, ms, {}) == Err(r.error);
      assert Resolve(refs, JObj(ms), {}) == Err(r.error);
    }
  }

  /** The `definitions` section that defines `Loop`. */
  const LoopDefinitions: Json := JObj([Member("Loop", JObj([Member(ITEMS, Inner)]))])

  /** `{"properties": {"Chain": {"$ref": Loop}}, "definitions": LoopDefinitions}` */
  const LoopSchema: Json :=
    JObj([Member(PROPERTIES, JObj([Member("Chain", RefTo(Loop))])), Member(DEFINITIONS, LoopDefinitions)])

  /** What `LoopSchema` resolves to: a `$ref` left two `items` below `Chain`. */
  const LoopResolved: Json := JObj([Member(PROPERTIES, JObj([Member("Chain", LoopOnce)]))])

  /**
   * `LoopSchema` resolves, against the references its own `definitions`
   * declare, with a `$ref` left two `items` below `Chain`: the cut drops the
   * repeated reference but skips the stages that would resolve what lies
   * under it.
   */
  lemma CutLeavesReference()
    ensures LoopRefs == map[Loop := Get(LoopDefinitions.members, "Loop")]
    ensures ResolveSchema(LoopRefs, LoopSchema) == Ok(LoopResolved)
  {
    LoopExpandsOnce({});
    OnePropertyWithDefinitions(LoopRefs, "Chain", RefTo(Loop), LoopDefinitions);
  }

  /**
   * So resolution is not idempotent: the result has lost the `definitions`
   * its surviving `$ref` points into, and resolving it again, against the
   * (empty) references it declares, raises RefResolutionError.
   */
  lemma ResolvingAgainFails()
    ensures !HasKey(LoopResolved.members, DEFINITIONS)
    ensures ResolveSchema(map[], LoopResolved) == Err(RefResolutionError(Loop))
  {
    var ms := RefTo(Loop).members;
    assert Keys(ms) == [REF];
    assert Get(ms, REF) == JStr(Loop);
    assert MapStage(map[], ms, ms, PROPERTIES, {}) == Ok(ms);
    assert Resolve(map[], RefTo(Loop), {}) == Err(RefResolutionError(Loop));
    ItemsOnlyNode(map[], RefTo(Loop), {});
    ItemsOnlyNode(map[], JObj([Member(ITEMS, RefTo(Loop))]), {});
    OnePropertySchema(map[], "Chain", LoopOnce);
  }
}
