/**
 * The command-line argument checks and the collection of schema and rule
 * files. A validator is a predicate wrapped by `apply_rule`, which raises
 * an AssertionError with its message when the predicate fails. The file
 * readers are parameters: `readJson` stands for `read_json`, `readFile`
 * for `read_file`, each returning the loaded content or the exception.
 */
module ArgHandler {
  import opened Results
  import opened Json
  import opened Common

  const TwoSchemasMessage: string := "If Stateful mode is executed, then two schemas MUST be provided (current/previous)"
  const FilePathMessage: string := "file path must be specified with `file://...`"
  const JsonFileMessage: string := "not a valid json file `...(.json)`"
  const GuardExtensionMessage: string := "file extenstion is invalid - MUST be `.guard`"
  /** What `.group(2)` on a failed `re.search` raises. */
  const NoMatchMessage: string := "'NoneType' object has no attribute 'group'"

  /** `apply_rule(execute_rule, msg)(func)(args)`. */
  function ApplyRule<A, R>(rule: A -> bool, msg: string, func: A -> Result<R>, args: A): (r: Result<R>)
    ensures rule(args) ==> r == func(args)
    ensures !rule(args) ==> r == Err(AssertionError(msg))
  {
    if rule(args) then func(args) else Err(AssertionError(msg))
  }

  /** Two stacked rules: the outer one is checked first, the wrapped function runs only when both hold. */
  lemma ApplyRuleStacked<A, R>(outer: A -> bool, outerMsg: string, inner: A -> bool, innerMsg: string, func: A -> Result<R>, args: A)
    ensures var r := ApplyRule(outer, outerMsg, (x: A) => ApplyRule(inner, innerMsg, func, x), args);
      && (!outer(args) ==> r == Err(AssertionError(outerMsg)))
      && (outer(args) && !inner(args) ==> r == Err(AssertionError(innerMsg)))
      && (outer(args) && inner(args) ==> r == func(args))
  {
  }

  /** The wrapped validators do nothing once their rules pass. */
  function Nothing<A>(): A -> Result<()>
  {
    (x: A) => Ok(())
  }

  /** The parsed command line, as far as validation reads it. */
  datatype Args = Args(schemas: seq<string>, stateful: bool)

  function StatefulNeedsTwo(): Args -> bool
  {
    (a: Args) => if a.stateful then |a.schemas| == 2 else true
  }

  /** `argument_validation`: passes iff not stateful or exactly two schemas were given. */
  function ArgumentValidation(args: Args): (r: Outcome)
    ensures r == Pass <==> !args.stateful || |args.schemas| == 2
    ensures r != Pass ==> r == Fail(AssertionError(TwoSchemasMessage))
  {
    OutcomeOf(ApplyRule(StatefulNeedsTwo(), TwoSchemasMessage, Nothing(), args))
  }

  function IsFileUri(): string -> bool
  {
    (s: string) => FilePattern(s)
  }

  function IsSchemaFile(): string -> bool
  {
    (s: string) => SchemaFilePattern(s)
  }

  /** `schema_input_path_validation`: the `file://` prefix, then the `.json` file shape. */
  function SchemaInputPathValidation(s: string): (r: Outcome)
    ensures r == Pass <==> FilePattern(s) && SchemaFilePattern(s)
    ensures !FilePattern(s) ==> r == Fail(AssertionError(FilePathMessage))
    ensures FilePattern(s) && !SchemaFilePattern(s) ==> r == Fail(AssertionError(JsonFileMessage))
  {
    OutcomeOf(ApplyRule(IsFileUri(), FilePathMessage,
                        (x: string) => ApplyRule(IsSchemaFile(), JsonFileMessage, Nothing(), x), s))
  }

  /** `rule_input_path_validation`: only the `file://` prefix. */
  function RuleInputPathValidation(s: string): (r: Outcome)
    ensures r == Pass <==> FilePattern(s)
    ensures r != Pass ==> r == Fail(AssertionError(FilePathMessage))
  {
    OutcomeOf(ApplyRule(IsFileUri(), FilePathMessage, Nothing(), s))
  }

  lemma ValidationExamples()
    ensures SchemaInputPathValidation("file://directory1/file.json") == Pass
    ensures RuleInputPathValidation("file://directory1/file.json") == Pass
    ensures SchemaInputPathValidation("/directory1") == Fail(AssertionError(FilePathMessage))
    ensures SchemaInputPathValidation("file://directory1/file.jpeg") == Fail(AssertionError(JsonFileMessage))
  {
    var t := "file://directory1/file";
    assert "file://directory1/file.json"[..|t|] == t;
    assert t == "file://directory1" + "/" + "file";
    LastSlashBefore("file://directory1", "file");
    assert t[..17] == "file://directory1";
    assert "/directory1"[..7][0] == '/';
    assert "file://directory1/file.jpeg"[22..] != JsonExtension;
  }

  // ---------------------------------------------------------------------
  // collect_schemas / collect_rules
  // ---------------------------------------------------------------------

  /** The list built by applying `step` to each item in order, stopping at the first exception. */
  function Collected<T>(step: string -> Result<T>, items: seq<string>): Result<seq<T>>
  {
    if items == [] then Ok([])
    else
      var prev :- Collected(step, items[..|items| - 1]);
      var x :- step(items[|items| - 1]);
      Ok(prev + [x])
  }

  lemma {:induction false} CollectedErrExtends<T>(step: string -> Result<T>, items: seq<string>, i: nat)
    requires i <= |items| && Collected(step, items[..i]).Err?
    ensures Collected(step, items) == Collected(step, items[..i])
    decreases |items| - i
  {
    if i < |items| {
      var n := |items| - 1;
      assert items[..n][..i] == items[..i];
      CollectedErrExtends(step, items[..n], i);
      assert items[..n] == items[..|items| - 1];
      assert items[..|items|] == items;
    } else {
      assert items[..i] == items;
    }
  }

  /**
   * The collection succeeds iff every item does, with one result per item
   * in order; otherwise it fails with the exception of the first failing item.
   */
  lemma {:induction false} CollectedSpec<T>(step: string -> Result<T>, items: seq<string>)
    ensures var r := Collected(step, items);
      && (r.Ok? <==> forall i :: 0 <= i < |items| ==> step(items[i]).Ok?)
      && (r.Ok? ==> |r.value| == |items| && forall i :: 0 <= i < |items| ==> step(items[i]) == Ok(r.value[i]))
      && (r.Err? ==> exists i :: 0 <= i < |items| && step(items[i]) == Err(r.error)
                                && forall j :: 0 <= j < i ==> step(items[j]).Ok?)
  {
    if items != [] {
      var n := |items| - 1;
      var p := items[..n];
      CollectedSpec(step, p);
      assert forall i :: 0 <= i < n ==> p[i] == items[i];
      var prev := Collected(step, p);
      if prev.Err? {
        var i :| 0 <= i < |p| && step(p[i]) == Err(prev.error) && forall j :: 0 <= j < i ==> step(p[j]).Ok?;
        assert step(items[i]) == Err(prev.error);
      }
    }
  }

  /** One `collect_schemas` entry: validated, its path extracted, then read. */
  function CollectSchema(readJson: string -> Result<Json>, item: string): (r: Result<Json>)
    ensures !FilePattern(item) ==> r == Err(AssertionError(FilePathMessage))
    ensures FilePattern(item) && !SchemaFilePattern(item) ==> r == Err(AssertionError(JsonFileMessage))
    ensures FilePattern(item) && SchemaFilePattern(item) ==>
      r == if ExtractPath(item, JsonExtension).None? then Err(AttributeError(NoMatchMessage))
           else readJson("/" + ExtractPath(item, JsonExtension).value)
  {
    match SchemaInputPathValidation(item)
    case Fail(e) => Err(e)
    case Pass =>
      match ExtractPath(item, JsonExtension)
      case None => Err(AttributeError(NoMatchMessage))
      case Some(tail) => readJson("/" + tail)
  }

  function SchemaStep(readJson: string -> Result<Json>): string -> Result<Json>
  {
    (item: string) => CollectSchema(readJson, item)
  }

  /** `collect_schemas`: `[]` for no schemas, otherwise each one collected in order. */
  method CollectSchemas(schemas: Option<seq<string>>, readJson: string -> Result<Json>) returns (r: Result<seq<Json>>)
    ensures schemas.None? ==> r == Ok([])
    ensures schemas.Some? ==> r == Collected(SchemaStep(readJson), schemas.value)
  {
    if schemas.None? || schemas.value == [] {
      return Ok([]);
    }
    var items := schemas.value;
    var collected: seq<Json> := [];
    var i := 0;
    while i < |items|
      invariant 0 <= i <= |items|
      invariant Collected(SchemaStep(readJson), items[..i]) == Ok(collected)
    {
      var x := CollectSchema(readJson, items[i]);
      assert items[..i + 1][..i] == items[..i];
      if x.Err? {
        CollectedErrExtends(SchemaStep(readJson), items, i + 1);
        return Err(x.error);
      }
      collected := collected + [x.value];
      i := i + 1;
    }
    assert items[..i] == items;
    return Ok(collected);
  }

  /** One `collect_rules` entry: the prefix check, then the `.guard` shape, then the read. */
  function CollectRule(readFile: string -> Result<string>, rule: string): (r: Result<string>)
    ensures !FilePattern(rule) ==> r == Err(AssertionError(FilePathMessage))
    ensures FilePattern(rule) && !GuardFilePattern(rule) ==> r == Err(ValueError(GuardExtensionMessage))
    ensures FilePattern(rule) && GuardFilePattern(rule) ==>
      r == if ExtractPath(rule, GuardExtension).None? then Err(AttributeError(NoMatchMessage))
           else readFile("/" + ExtractPath(rule, GuardExtension).value)
  {
    match RuleInputPathValidation(rule)
    case Fail(e) => Err(e)
    case Pass =>
      if GuardFilePattern(rule) then
        match ExtractPath(rule, GuardExtension)
        case None => Err(AttributeError(NoMatchMessage))
        case Some(tail) => readFile("/" + tail)
      else
        Err(ValueError(GuardExtensionMessage))
  }

  function RuleStep(readFile: string -> Result<string>): string -> Result<string>
  {
    (rule: string) => CollectRule(readFile, rule)
  }

  /** `collect_rules`: `[]` for no rules, otherwise each one collected in order. */
  method CollectRules(rules: Option<seq<string>>, readFile: string -> Result<string>) returns (r: Result<seq<string>>)
    ensures rules.None? ==> r == Ok([])
    ensures rules.Some? ==> r == Collected(RuleStep(readFile), rules.value)
  {
    var collected: seq<string> := [];
    if rules.Some? && rules.value != [] {
      var items := rules.value;
      var i := 0;
      while i < |items|
        invariant 0 <= i <= |items|
        invariant Collected(RuleStep(readFile), items[..i]) == Ok(collected)
      {
        var x := CollectRule(readFile, items[i]);
        assert items[..i + 1][..i] == items[..i];
        if x.Err? {
          CollectedErrExtends(RuleStep(readFile), items, i + 1);
          return Err(x.error);
        }
        collected := collected + [x.value];
        i := i + 1;
      }
      assert items[..i] == items;
    }
    return Ok(collected);
  }

  /** A rule file that is not a `.guard` file is refused; one with a wrong schema extension is too. */
  /**
   * An inline JSON document is not accepted: it fails the `file://` check
   * before anything would parse it, so collection stops with that assertion.
   */
  lemma InlineJsonRejected(readJson: string -> Result<Json>)
    ensures Collected(SchemaStep(readJson), ["{\"foo\": \"bar\"}"]) == Err(AssertionError(FilePathMessage))
  {
    var s := "{\"foo\": \"bar\"}";
    assert !FilePattern(s) by {
      assert s[0] != FileScheme[0];
    }
    assert CollectSchema(readJson, s) == Err(AssertionError(FilePathMessage));
    assert ["{\"foo\": \"bar\"}"][1..] == [];
  }

  lemma CollectExamples(readJson: string -> Result<Json>, readFile: string -> Result<string>)
    ensures CollectRule(readFile, "file://tests/data/sample.guardian") == Err(ValueError(GuardExtensionMessage))
    ensures CollectSchema(readJson, "file://tests/data/sample.jsn") == Err(AssertionError(JsonFileMessage))
  {
    assert "file://tests/data/sample.guardian"[..7] == FileScheme;
    assert "file://tests/data/sample.guardian"[27..] != GuardExtension;
    assert "file://tests/data/sample.jsn"[..7] == FileScheme;
    assert "file://tests/data/sample.jsn"[23..] != JsonExtension;
  }

  /** A validated, newline-free schema entry is read from "/" followed by its text after "file:/". */
  lemma CollectedSchemaPath(readJson: string -> Result<Json>, item: string)
    requires FilePattern(item) && SchemaFilePattern(item) && NoNewline(item)
    ensures CollectSchema(readJson, item) == readJson("/" + item[|FileUriPrefix|..])
  {
    ValidatedPathExtracts(item, JsonExtension);
  }

  /**
   * A schema entry with a trailing newline passes validation, since `$`
   * matches before that newline, and is read without it.
   */
  lemma TrailingNewlineCollected(readJson: string -> Result<Json>)
    ensures CollectSchema(readJson, "file://d/x.json\n") == readJson("//d/x.json")
  {
    TrailingNewlineSchemaFile();
    TrailingNewlineExtracts();
    assert "/" + "/d/x.json" == "//d/x.json";
  }
}
