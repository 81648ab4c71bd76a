/**
 * The compliance runner: the guard engine's failed checks bucketed into
 * `non_compliant` and `warning`, each rule file's result merged into one
 * accumulator per schema, and the stateless and stateful compositions.
 *
 * The engine (`cfn_guard_rs.run_checks`) is a parameter that maps a
 * schema and a rule text to its output; `literal_eval` of a check message
 * is part of each check record, as the `Parsed` outcome below.
 */
module Runner {
  import opened Results
  import opened Json
  import opened DataTypes
  import SchemaUtils
  import Stateful

  const NonCompliant: string := "NON_COMPLIANT"
  const WarningResult: string := "WARNING"
  const Tag016: string := "TAG016"

  /** What `literal_eval(message.strip())` does with a check message. */
  datatype Parsed =
    /** It raises SyntaxError, the one exception the rendering catches. */
    | SyntaxErr
    /** It raises some other exception (ValueError for a bare word such as `Required`). */
    | OtherErr(error: Error)
    /** It yields a literal that is not a dict: a string, a list, a number and so on. */
    | NonDict
    /** It yields a dict, here with string keys and values. */
    | Dict(fields: map<string, string>)

  /** One failed check: its message text, its path and the message as parsed. */
  datatype Check = Check(message: string, path: string, parsed: Parsed)

  /** Subscripting a literal that is not a dict with `"check_id"` raises TypeError. */
  const NotSubscriptable: Error := TypeError("check_id")

  /** The engine's output for one rule file. */
  datatype EngineOutput = EngineOutput(
    compliant: seq<string>,
    notApplicable: seq<string>,
    notCompliant: seq<(string, seq<Check>)>)

  /** Which field a check's result goes to. */
  datatype Bucket = NonCompliantBucket | WarningBucket

  /** `schema.get("TaggingPath")`, as the path text it holds. */
  function TagPathOf(schema: Json): Option<string>
  {
    if schema.JObj? then
      match Lookup(schema.members, "TaggingPath")
      case Some(JStr(p)) => Some(p)
      case _ => None
    else None
  }

  /**
   * What one check contributes: nothing for an empty message, the default
   * result for a message that raises SyntaxError, the exception itself for
   * any other failure of `literal_eval`, TypeError for a literal that is not
   * a dict, and otherwise a result built from the parsed `check_id` and
   * `message`, filed under `warning` only when the parsed `result` is
   * "WARNING". A missing key raises KeyError.
   */
  function CheckOutcome(tagPath: Option<string>, c: Check): (r: Result<Option<(Bucket, GuardRuleResult)>>)
    ensures c.message == "" ==> r == Ok(None)
    ensures c.message != "" && c.parsed.SyntaxErr? ==> r == Ok(Some((NonCompliantBucket, DefaultRuleResult)))
    ensures c.message != "" && c.parsed.OtherErr? ==> r == Err(c.parsed.error)
    ensures c.message != "" && c.parsed.NonDict? ==> r == Err(NotSubscriptable)
    ensures c.message != "" && c.parsed.Dict? ==>
      var d := c.parsed.fields;
      && (r.Err? <==> "check_id" !in d || "message" !in d)
      && (r.Err? ==> r.error == KeyError(if "check_id" !in d then "check_id" else "message"))
      && (r.Ok? ==>
            && r.value.Some?
            && (r.value.value.0 == WarningBucket <==> "result" in d && d["result"] == WarningResult)
            && r.value.value.1.checkId == d["check_id"]
            && r.value.value.1.message == d["message"]
            && r.value.value.1.path ==
                 (if d["check_id"] == Tag016 && tagPath.Some? && tagPath.value != "" then tagPath.value else c.path))
  {
    if c.message == "" then Ok(None)
    else
      match c.parsed
      case SyntaxErr => Ok(Some((NonCompliantBucket, DefaultRuleResult)))
      case OtherErr(e) => Err(e)
      case NonDict => Err(NotSubscriptable)
      case Dict(d) =>
        if "check_id" !in d then Err(KeyError("check_id"))
        else
          var id := d["check_id"];
          var path := if id == Tag016 && tagPath.Some? && tagPath.value != "" then tagPath.value else c.path;
          if "message" !in d then Err(KeyError("message"))
          else
            var bucket := if "result" in d && d["result"] == WarningResult then WarningBucket else NonCompliantBucket;
            Ok(Some((bucket, GuardRuleResult(id, d["message"], path))))
  }

  /** `__add_item__`: `result` joins the set under `rule`, created when missing. */
  function AddItem(m: Findings, rule: string, result: GuardRuleResult): (r: Findings)
    ensures r.Keys == m.Keys + {rule}
    ensures result in r[rule]
    ensures r[rule] == (if rule in m then m[rule] else {}) + {result}
    ensures forall k :: k in m && k != rule ==> r[k] == m[k]
  {
    if rule in m then m[rule := m[rule] + {result}] else m[rule := {result}]
  }

  /** The two dicts `__render_output` fills. */
  datatype Buckets = Buckets(nonCompliant: Findings, warning: Findings)

  function FileCheck(tagPath: Option<string>, b: Buckets, rule: string, c: Check): Result<Buckets>
  {
    var o :- CheckOutcome(tagPath, c);
    match o
    case None => Ok(b)
    case Some((NonCompliantBucket, g)) => Ok(Buckets(AddItem(b.nonCompliant, rule, g), b.warning))
    case Some((WarningBucket, g)) => Ok(Buckets(b.nonCompliant, AddItem(b.warning, rule, g)))
  }

  /** The inner loop over one rule's checks, as a fold from the back. */
  function FileChecks(tagPath: Option<string>, b: Buckets, rule: string, cs: seq<Check>): Result<Buckets>
  {
    if cs == [] then Ok(b)
    else
      var b' :- FileChecks(tagPath, b, rule, cs[..|cs| - 1]);
      FileCheck(tagPath, b', rule, cs[|cs| - 1])
  }

  /** The outer loop over `not_compliant.items()`. */
  function FileRules(tagPath: Option<string>, b: Buckets, nc: seq<(string, seq<Check>)>): Result<Buckets>
  {
    if nc == [] then Ok(b)
    else
      var b' :- FileRules(tagPath, b, nc[..|nc| - 1]);
      FileChecks(tagPath, b', nc[|nc| - 1].0, nc[|nc| - 1].1)
  }

  /**
   * `__render_output` as a value: the engine's compliant and not-applicable
   * lists as they are, and the filed buckets.
   */
  function Render(tagPath: Option<string>, out: EngineOutput): (r: Result<RuleSetValue>)
    ensures r.Ok? ==> r.value.compliant == out.compliant && r.value.skipped == out.notApplicable
  {
    var b :- FileRules(tagPath, Buckets(map[], map[]), out.notCompliant);
    Ok(RuleSetValue(out.compliant, b.nonCompliant, b.warning, out.notApplicable))
  }

  lemma FileChecksExtend(tagPath: Option<string>, b: Buckets, rule: string, cs: seq<Check>, j: nat)
    requires j < |cs|
    ensures FileChecks(tagPath, b, rule, cs[..j + 1]) ==
      (var p :- FileChecks(tagPath, b, rule, cs[..j]); FileCheck(tagPath, p, rule, cs[j]))
  {
    assert cs[..j + 1][..j] == cs[..j];
  }

  lemma FileRulesExtend(tagPath: Option<string>, b: Buckets, nc: seq<(string, seq<Check>)>, i: nat)
    requires i < |nc|
    ensures FileRules(tagPath, b, nc[..i + 1]) ==
      (var p :- FileRules(tagPath, b, nc[..i]); FileChecks(tagPath, p, nc[i].0, nc[i].1))
  {
    assert nc[..i + 1][..i] == nc[..i];
  }

  /** The inner loop of `__render_output`: one rule's checks filed into the two dicts. */
  method RenderChecks(tagPath: Option<string>, b: Buckets, rule: string, checks: seq<Check>) returns (r: Result<Buckets>)
    ensures r == FileChecks(tagPath, b, rule, checks)
  {
    var nonCompliant, warning := b.nonCompliant, b.warning;
    var j := 0;
    while j < |checks|
      invariant 0 <= j <= |checks|
      invariant FileChecks(tagPath, b, rule, checks[..j]) == Ok(Buckets(nonCompliant, warning))
    {
      FileChecksExtend(tagPath, b, rule, checks, j);
      var o := CheckOutcome(tagPath, checks[j]);
      if o.Err? {
        FileChecksErrPersists(tagPath, b, rule, checks, j + 1);
        return Err(o.error);
      }
      if o.value.Some? {
        var (bucket, g) := o.value.value;
        if bucket == WarningBucket {
          warning := AddItem(warning, rule, g);
        } else {
          nonCompliant := AddItem(nonCompliant, rule, g);
        }
      }
      j := j + 1;
    }
    assert checks[..j] == checks;
    r := Ok(Buckets(nonCompliant, warning));
  }

  /** `__render_output`, with its two nested loops filling the dicts. */
  method RenderOutput(tagPath: Option<string>, out: EngineOutput) returns (r: Result<RuleSetValue>)
    ensures r == Render(tagPath, out)
  {
    var nonCompliant: Findings := map[];
    var warning: Findings := map[];
    var nc := out.notCompliant;
    var i := 0;
    while i < |nc|
      invariant 0 <= i <= |nc|
      invariant FileRules(tagPath, Buckets(map[], map[]), nc[..i]) == Ok(Buckets(nonCompliant, warning))
    {
      var (rule, checks) := nc[i];
      var filed := RenderChecks(tagPath, Buckets(nonCompliant, warning), rule, checks);
      FileRulesExtend(tagPath, Buckets(map[], map[]), nc, i);
      if filed.Err? {
        FileRulesErrPersists(tagPath, Buckets(map[], map[]), nc, i + 1);
        assert nc[..|nc|] == nc;
        return Err(filed.error);
      }
      nonCompliant, warning := filed.value.nonCompliant, filed.value.warning;
      i := i + 1;
    }
    assert nc[..i] == nc;
    r := Ok(RuleSetValue(out.compliant, nonCompliant, warning, out.notApplicable));
  }

  lemma {:induction false} FileChecksErrPersists(tagPath: Option<string>, b: Buckets, rule: string, cs: seq<Check>, j: nat)
    requires 0 < j <= |cs| && FileChecks(tagPath, b, rule, cs[..j]).Err?
    ensures FileChecks(tagPath, b, rule, cs) == FileChecks(tagPath, b, rule, cs[..j])
    decreases |cs| - j
  {
    if j < |cs| {
      FileChecksExtend(tagPath, b, rule, cs, j);
      FileChecksErrPersists(tagPath, b, rule, cs, j + 1);
    } else {
      assert cs[..j] == cs;
    }
  }

  lemma {:induction false} FileRulesErrPersists(tagPath: Option<string>, b: Buckets, nc: seq<(string, seq<Check>)>, i: nat)
    requires 0 < i <= |nc| && FileRules(tagPath, b, nc[..i]).Err?
    ensures FileRules(tagPath, b, nc) == FileRules(tagPath, b, nc[..i])
    decreases |nc| - i
  {
    if i < |nc| {
      FileRulesExtend(tagPath, b, nc, i);
      FileRulesErrPersists(tagPath, b, nc, i + 1);
    } else {
      assert nc[..i] == nc;
    }
  }

  /**
   * The closure `__exec_rules__` returns: the schema's tag path and the
   * `exec_result` every call merges into.
   */
  class Executor {
    const tagPath: Option<string>
    const result: GuardRuleSetResult

    /** `__exec_rules__(schema)`: a fresh, empty accumulator. */
    constructor (schema: Json)
      ensures tagPath == TagPathOf(schema)
      ensures fresh(result) && result.Value() == EmptyRuleSet
    {
      tagPath := TagPathOf(schema);
      result := new GuardRuleSetResult();
    }

    /**
     * `__exec__`: the engine's output for one rule file rendered and merged
     * into the accumulator; an exception while rendering leaves it as it was.
     */
    method Exec(out: EngineOutput) returns (res: Outcome)
      modifies result
      ensures res == OutcomeOf(Render(tagPath, out))
      ensures Render(tagPath, out).Ok? ==> result.Value() == Merged(old(result.Value()), Render(tagPath, out).value)
      ensures Render(tagPath, out).Err? ==> result.Value() == old(result.Value())
    {
      var rendered := RenderOutput(tagPath, out);
      if rendered.Err? {
        return Fail(rendered.error);
      }
      var fresh_result := new GuardRuleSetResult.Of(rendered.value);
      res := result.Merge(RuleSetOperand(fresh_result));
    }
  }

  /**
   * The accumulator after the rule files in `order` ran against one schema
   * whose tag path is `tagPath`; `run` is the guard engine.
   */
  function RunRules<S>(schema: S, tagPath: Option<string>, run: (S, string) -> EngineOutput, order: seq<string>): Result<RuleSetValue>
  {
    if order == [] then Ok(EmptyRuleSet)
    else
      var acc :- RunRules(schema, tagPath, run, order[..|order| - 1]);
      var rendered :- Render(tagPath, run(schema, order[|order| - 1]));
      Ok(Merged(acc, rendered))
  }

  lemma RunRulesExtend<S>(schema: S, tagPath: Option<string>, run: (S, string) -> EngineOutput, order: seq<string>, i: nat)
    requires i < |order|
    ensures RunRules(schema, tagPath, run, order[..i + 1]) ==
      (var acc :- RunRules(schema, tagPath, run, order[..i]);
       var rendered :- Render(tagPath, run(schema, order[i]));
       Ok(Merged(acc, rendered)))
  {
    assert order[..i + 1][..i] == order[..i];
  }

  lemma {:induction false} RunRulesErrPersists<S>(schema: S, tagPath: Option<string>, run: (S, string) -> EngineOutput, order: seq<string>, i: nat)
    requires 0 < i <= |order| && RunRules(schema, tagPath, run, order[..i]).Err?
    ensures RunRules(schema, tagPath, run, order) == RunRules(schema, tagPath, run, order[..i])
    decreases |order| - i
  {
    if i < |order| {
      RunRulesExtend(schema, tagPath, run, order, i);
      RunRulesErrPersists(schema, tagPath, run, order, i + 1);
    } else {
      assert order[..i] == order;
    }
  }

  /**
   * `__execute_rules__`: each rule text, in the set's iteration order, run
   * through the executor. The result is the accumulator, or `None` when
   * there is no rule text.
   */
  method ExecuteRules<S>(schema: S, ex: Executor, run: (S, string) -> EngineOutput, order: seq<string>)
    returns (r: Result<Option<RuleSetValue>>)
    requires ex.result.Value() == EmptyRuleSet
    modifies ex.result
    ensures r.Ok? <==> RunRules(schema, ex.tagPath, run, order).Ok?
    ensures r.Ok? ==> r.value == (if order == [] then None else Some(RunRules(schema, ex.tagPath, run, order).value))
    ensures r.Err? ==> r.error == RunRules(schema, ex.tagPath, run, order).error
  {
    var i := 0;
    while i < |order|
      invariant 0 <= i <= |order|
      invariant RunRules(schema, ex.tagPath, run, order[..i]) == Ok(ex.result.Value())
    {
      RunRulesExtend(schema, ex.tagPath, run, order, i);
      var res := ex.Exec(run(schema, order[i]));
      if res.Fail? {
        RunRulesErrPersists(schema, ex.tagPath, run, order, i + 1);
        return Err(res.error);
      }
      i := i + 1;
    }
    assert order[..i] == order;
    if order == [] {
      r := Ok(None);
    } else {
      r := Ok(Some(ex.result.Value()));
    }
  }

  /** Python iteration order over a set: some enumeration of its elements. */
  ghost predicate Enumerates(order: seq<string>, s: set<string>)
  {
    (forall t :: t in s <==> t in order)
    && (forall i, j :: 0 <= i < j < |order| ==> order[i] != order[j])
  }

  /** Iterating a set: its elements, one at a time, in an order of the set's choosing. */
  method Enumerate(s: set<string>) returns (order: seq<string>)
    ensures Enumerates(order, s)
  {
    var left := s;
    order := [];
    while left != {}
      invariant forall t :: t in s <==> t in left || t in order
      invariant forall t :: t in left ==> t !in order
      invariant forall i, j :: 0 <= i < j < |order| ==> order[i] != order[j]
      decreases |left|
    {
      var t :| t in left;
      left := left - {t};
      order := order + [t];
    }
  }

  /** `prepare_ruleset(mode) | set(payload.rules)`; the packaged rules are given. */
  function RuleSet(packaged: set<string>, rules: seq<string>): (s: set<string>)
    ensures forall t :: t in s <==> t in packaged || t in rules
  {
    packaged + set t | t in rules
  }

  /** One entry of the list `exec_compliance` returns. */
  datatype Report =
    | NoOutput
    | Report(result: RuleSetValue, schemaDifference: Option<Stateful.MetaDiff>)

  /** The entry for one schema that already went through `add_paths_to_schema`. */
  function StatelessReport(annotated: Json, run: (Json, string) -> EngineOutput, order: seq<string>): Result<Report>
  {
    var v :- RunRules(annotated, TagPathOf(annotated), run, order);
    Ok(if order == [] then NoOutput else Report(v, None))
  }

  /** `a` is one of the schemas `add_paths_to_schema` can return for `schema`. */
  ghost predicate WithPaths(refs: SchemaUtils.Refs, schema: Json, a: Json)
  {
    var all := SchemaUtils.AllPaths(refs, schema);
    && all.Ok?
    && exists po :: SchemaUtils.Enumerates(po, all.value.1)
                    && a == JObj(SchemaUtils.Annotated(all.value.0.members, SchemaUtils.Rendered(po)))
  }

  /** How one schema of a stateless run fails with `e`. */
  ghost predicate StatelessFails(refs: SchemaUtils.Refs, schema: Json, run: (Json, string) -> EngineOutput, order: seq<string>, e: Error)
  {
    SchemaUtils.AllPaths(refs, schema) == Err(e)
    || exists a :: WithPaths(refs, schema, a) && StatelessReport(a, run, order) == Err(e)
  }

  /** `rep` is the report for `schema`, run after it was annotated as `a`. */
  ghost predicate Entry(refs: SchemaUtils.Refs, schema: Json, a: Json, run: (Json, string) -> EngineOutput, order: seq<string>, rep: Report)
  {
    WithPaths(refs, schema, a) && StatelessReport(a, run, order) == Ok(rep)
  }

  /** One schema of a stateless run: annotated with its paths, then run against every rule text. */
  method ExecSchema(refs: SchemaUtils.Refs, schema: Json, run: (Json, string) -> EngineOutput, order: seq<string>)
    returns (r: Result<Report>, ghost a: Json)
    ensures r.Ok? ==> WithPaths(refs, schema, a) && StatelessReport(a, run, order) == Ok(r.value)
    ensures r.Err? ==> StatelessFails(refs, schema, run, order, r.error)
  {
    var withPaths, po := SchemaUtils.AddPathsToSchema(refs, schema);
    if withPaths.Err? {
      return Err(withPaths.error), JNull;
    }
    var annotated := withPaths.value;
    a := annotated;
    assert WithPaths(refs, schema, a);
    var ex := new Executor(annotated);
    var output := ExecuteRules(annotated, ex, run, order);
    if output.Err? {
      return Err(output.error), a;
    }
    r := Ok(if output.value.Some? then Report(output.value.value, None) else NoOutput);
  }

  /** `out[k]` is the report for `schemas[k]`, annotated as `annotated[k]`, for every `k`. */
  ghost predicate Entries(schemas: seq<Json>, refsOf: Json -> SchemaUtils.Refs, annotated: seq<Json>,
                          run: (Json, string) -> EngineOutput, order: seq<string>, out: seq<Report>)
  {
    && |annotated| == |schemas| && |out| == |schemas|
    && forall k :: 0 <= k < |schemas| ==> Entry(refsOf(schemas[k]), schemas[k], annotated[k], run, order, out[k])
  }

  lemma EntriesAppend(schemas: seq<Json>, i: nat, refsOf: Json -> SchemaUtils.Refs, annotated: seq<Json>,
                      run: (Json, string) -> EngineOutput, order: seq<string>, out: seq<Report>, a: Json, e: Report)
    requires i < |schemas|
    requires Entries(schemas[..i], refsOf, annotated, run, order, out)
    requires Entry(refsOf(schemas[i]), schemas[i], a, run, order, e)
    ensures Entries(schemas[..i + 1], refsOf, annotated + [a], run, order, out + [e])
  {
    var pre := schemas[..i + 1];
    forall k | 0 <= k <= i
      ensures Entry(refsOf(pre[k]), pre[k], (annotated + [a])[k], run, order, (out + [e])[k])
    {
      if k < i {
        assert pre[k] == schemas[..i][k] && (annotated + [a])[k] == annotated[k] && (out + [e])[k] == out[k];
      }
    }
  }

  /**
   * The loop stops at the first schema that fails: every schema before `k`
   * produced its report, annotated as `annotated`, and `schemas[k]` raised `e`.
   */
  ghost predicate FirstFailure(schemas: seq<Json>, refsOf: Json -> SchemaUtils.Refs, annotated: seq<Json>,
                               run: (Json, string) -> EngineOutput, order: seq<string>, e: Error)
  {
    exists k, done ::
      && 0 <= k < |schemas|
      && Entries(schemas[..k], refsOf, annotated, run, order, done)
      && StatelessFails(refsOf(schemas[k]), schemas[k], run, order, e)
  }

  /** The loop of stateless `exec_compliance`: each schema in order, each into its own accumulator. */
  method ExecSchemas(schemas: seq<Json>, refsOf: Json -> SchemaUtils.Refs, run: (Json, string) -> EngineOutput, order: seq<string>)
    returns (r: Result<seq<Report>>, ghost annotated: seq<Json>)
    ensures r.Ok? ==> Entries(schemas, refsOf, annotated, run, order, r.value)
    ensures r.Err? ==> FirstFailure(schemas, refsOf, annotated, run, order, r.error)
  {
    var out: seq<Report> := [];
    annotated := [];
    var i := 0;
    while i < |schemas|
      invariant 0 <= i <= |schemas|
      invariant Entries(schemas[..i], refsOf, annotated, run, order, out)
    {
      var entry, a := ExecSchema(refsOf(schemas[i]), schemas[i], run, order);
      if entry.Err? {
        return Err(entry.error), annotated;
      }
      EntriesAppend(schemas, i, refsOf, annotated, run, order, out, a, entry.value);
      out := out + [entry.value];
      annotated := annotated + [a];
      i := i + 1;
    }
    assert schemas[..i] == schemas;
    r := Ok(out);
  }

  /**
   * Stateless `exec_compliance`: each schema in order, each into its own
   * accumulator, one entry per schema. `refsOf` stands for the
   * `RefResolver` built from a schema.
   */
  method ExecStateless(schemas: seq<Json>, rules: seq<string>, packaged: set<string>,
                       refsOf: Json -> SchemaUtils.Refs, run: (Json, string) -> EngineOutput)
    returns (r: Result<seq<Report>>, order: seq<string>, ghost annotated: seq<Json>)
    ensures Enumerates(order, RuleSet(packaged, rules))
    ensures r.Ok? ==> Entries(schemas, refsOf, annotated, run, order, r.value)
    ensures r.Err? ==> FirstFailure(schemas, refsOf, annotated, run, order, r.error)
  {
    order := Enumerate(RuleSet(packaged, rules));
    r, annotated := ExecSchemas(schemas, refsOf, run, order);
  }

  const NoOutputMessage: string := "'NoneType' object has no attribute 'schema_difference'"

  /**
   * Stateful `exec_compliance` as a value: the rules run against the
   * schema diff, which is attached to the one-element result. The diff's
   * keys are construct names, so its `TaggingPath` is absent.
   */
  function StatefulReport(diff: Stateful.MetaDiff, run: (Stateful.MetaDiff, string) -> EngineOutput, order: seq<string>): Result<seq<Report>>
  {
    var v :- RunRules(diff, None, run, order);
    if order == [] then Err(AttributeError(NoOutputMessage)) else Ok([Report(v, Some(diff))])
  }

  /** Stateful `exec_compliance`. */
  method ExecStateful(current: Json, previous: Json, rules: seq<string>, packaged: set<string>,
                      refsOf: Json -> SchemaUtils.Refs,
                      differ: (Json, Json) -> seq<Stateful.Category>,
                      run: (Stateful.MetaDiff, string) -> EngineOutput)
    returns (r: Result<seq<Report>>, order: seq<string>)
    ensures Enumerates(order, RuleSet(packaged, rules))
    ensures r == (var diff :- Stateful.DiffOfSchemas(refsOf(previous), previous, refsOf(current), current, differ);
                  StatefulReport(diff, run, order))
  {
    order := Enumerate(RuleSet(packaged, rules));
    var diff := Stateful.SchemaDiff(refsOf(previous), previous, refsOf(current), current, differ);
    if diff.Err? {
      return Err(diff.error), order;
    }
    var ex := new Executor(JNull);
    var output := ExecuteRules(diff.value, ex, run, order);
    if output.Err? {
      return Err(output.error), order;
    }
    if output.value.None? {
      return Err(AttributeError(NoOutputMessage)), order;
    }
    r := Ok([Report(output.value.value, Some(diff.value))]);
  }

  /**
   * `exec_compliance`, dispatched on the payload kind: a stateless payload
   * runs the stateless rule set over its schemas, one report each; a
   * stateful one diffs the previous schema against the current one and runs
   * the stateful rule set over the diff.
   */
  method ExecCompliance(p: Payload, packagedStateless: set<string>, packagedStateful: set<string>,
                        refsOf: Json -> SchemaUtils.Refs,
                        differ: (Json, Json) -> seq<Stateful.Category>,
                        runStateless: (Json, string) -> EngineOutput,
                        runStateful: (Stateful.MetaDiff, string) -> EngineOutput)
    returns (r: Result<seq<Report>>, ghost order: seq<string>, ghost annotated: seq<Json>)
    ensures p.Stateless? ==> Enumerates(order, RuleSet(packagedStateless, p.rules))
    ensures p.Stateless? && r.Ok? ==>
      && |r.value| == |p.schemas|
      && Entries(p.schemas, refsOf, annotated, runStateless, order, r.value)
    ensures p.Stateless? && r.Err? ==> FirstFailure(p.schemas, refsOf, annotated, runStateless, order, r.error)
    ensures p.Stateful? ==> Enumerates(order, RuleSet(packagedStateful, p.rules))
    ensures p.Stateful? ==>
      r == (var diff :- Stateful.DiffOfSchemas(refsOf(p.previousSchema), p.previousSchema,
                                               refsOf(p.currentSchema), p.currentSchema, differ);
            StatefulReport(diff, runStateful, order))
    ensures p.Stateful? && r.Ok? ==> |r.value| == 1 && r.value[0].Report? && r.value[0].schemaDifference.Some?
  {
    match p
    case Stateless(schemas, rules) =>
      r, order, annotated := ExecStateless(schemas, rules, packagedStateless, refsOf, runStateless);
    case Stateful(current, previous, rules) =>
      annotated := [];
      r, order := ExecStateful(current, previous, rules, packagedStateful, refsOf, differ, runStateful);
  }
}
