/**
 * Properties of the runner: exactly which results land in `warning` and
 * `non_compliant`, the tag path of TAG016 results, the default result of
 * an unparsable message, how an exception aborts rendering, and what the
 * accumulator holds after several rule files.
 */
module RunnerLemmas {
  import opened Results
  import opened Json
  import opened DataTypes
  import opened Runner
  import Stateful
  import StatefulLemmas
  import SchemaUtils

  /** The field a bucket names. */
  function Sel(b: Buckets, bucket: Bucket): Findings
  {
    if bucket == WarningBucket then b.warning else b.nonCompliant
  }

  function SelValue(v: RuleSetValue, bucket: Bucket): Findings
  {
    if bucket == WarningBucket then v.warning else v.nonCompliant
  }

  /** `g` is among the results filed under `rule`. */
  predicate Holds(f: Findings, rule: string, g: GuardRuleResult)
  {
    rule in f && g in f[rule]
  }

  /** Some check of `cs` files `g` under `bucket`. */
  predicate FiledBy(tagPath: Option<string>, cs: seq<Check>, bucket: Bucket, g: GuardRuleResult)
  {
    exists j :: 0 <= j < |cs| && CheckOutcome(tagPath, cs[j]) == Ok(Some((bucket, g)))
  }

  /** Some check of a rule named `rule` files `g` under `bucket`. */
  predicate FiledFor(tagPath: Option<string>, nc: seq<(string, seq<Check>)>, rule: string, bucket: Bucket, g: GuardRuleResult)
  {
    exists i :: 0 <= i < |nc| && nc[i].0 == rule && FiledBy(tagPath, nc[i].1, bucket, g)
  }

  /** No rule name is kept with an empty set of results. */
  predicate NoEmptyEntries(f: Findings)
  {
    forall r :: r in f ==> f[r] != {}
  }

  lemma FileCheckSpec(tagPath: Option<string>, b: Buckets, rule: string, c: Check, bucket: Bucket, r: string, g: GuardRuleResult)
    requires FileCheck(tagPath, b, rule, c).Ok?
    ensures var b' := FileCheck(tagPath, b, rule, c).value;
      && (Holds(Sel(b', bucket), r, g) <==>
            Holds(Sel(b, bucket), r, g) || (r == rule && CheckOutcome(tagPath, c) == Ok(Some((bucket, g)))))
      && (NoEmptyEntries(Sel(b, bucket)) ==> NoEmptyEntries(Sel(b', bucket)))
  {
  }

  lemma {:induction false} FileChecksSpec(tagPath: Option<string>, b: Buckets, rule: string, cs: seq<Check>, bucket: Bucket, r: string, g: GuardRuleResult)
    requires FileChecks(tagPath, b, rule, cs).Ok?
    ensures var b' := FileChecks(tagPath, b, rule, cs).value;
      && (Holds(Sel(b', bucket), r, g) <==>
            Holds(Sel(b, bucket), r, g) || (r == rule && FiledBy(tagPath, cs, bucket, g)))
      && (NoEmptyEntries(Sel(b, bucket)) ==> NoEmptyEntries(Sel(b', bucket)))
  {
    if cs != [] {
      var n := |cs| - 1;
      var mid := FileChecks(tagPath, b, rule, cs[..n]).value;
      FileChecksSpec(tagPath, b, rule, cs[..n], bucket, r, g);
      FileCheckSpec(tagPath, mid, rule, cs[n], bucket, r, g);
      FiledBySnoc(tagPath, cs, bucket, g);
    }
  }

  lemma FiledBySnoc(tagPath: Option<string>, cs: seq<Check>, bucket: Bucket, g: GuardRuleResult)
    requires cs != []
    ensures var n := |cs| - 1;
      FiledBy(tagPath, cs, bucket, g) <==> FiledBy(tagPath, cs[..n], bucket, g) || CheckOutcome(tagPath, cs[n]) == Ok(Some((bucket, g)))
  {
    var n := |cs| - 1;
    if FiledBy(tagPath, cs[..n], bucket, g) {
      var j :| 0 <= j < n && CheckOutcome(tagPath, cs[..n][j]) == Ok(Some((bucket, g)));
      assert cs[..n][j] == cs[j];
    }
    if FiledBy(tagPath, cs, bucket, g) && CheckOutcome(tagPath, cs[n]) != Ok(Some((bucket, g))) {
      var j :| 0 <= j < |cs| && CheckOutcome(tagPath, cs[j]) == Ok(Some((bucket, g)));
      assert cs[..n][j] == cs[j];
    }
  }

  lemma {:induction false} FileRulesSpec(tagPath: Option<string>, b: Buckets, nc: seq<(string, seq<Check>)>, bucket: Bucket, r: string, g: GuardRuleResult)
    requires FileRules(tagPath, b, nc).Ok?
    ensures var b' := FileRules(tagPath, b, nc).value;
      && (Holds(Sel(b', bucket), r, g) <==> Holds(Sel(b, bucket), r, g) || FiledFor(tagPath, nc, r, bucket, g))
      && (NoEmptyEntries(Sel(b, bucket)) ==> NoEmptyEntries(Sel(b', bucket)))
  {
    if nc != [] {
      var n := |nc| - 1;
      var mid := FileRules(tagPath, b, nc[..n]).value;
      FileRulesSpec(tagPath, b, nc[..n], bucket, r, g);
      FileChecksSpec(tagPath, mid, nc[n].0, nc[n].1, bucket, r, g);
      FiledForSnoc(tagPath, nc, r, bucket, g);
    }
  }

  lemma FiledForSnoc(tagPath: Option<string>, nc: seq<(string, seq<Check>)>, r: string, bucket: Bucket, g: GuardRuleResult)
    requires nc != []
    ensures var n := |nc| - 1;
      FiledFor(tagPath, nc, r, bucket, g) <==>
        FiledFor(tagPath, nc[..n], r, bucket, g) || (nc[n].0 == r && FiledBy(tagPath, nc[n].1, bucket, g))
  {
    var n := |nc| - 1;
    if FiledFor(tagPath, nc[..n], r, bucket, g) {
      var i :| 0 <= i < n && nc[..n][i].0 == r && FiledBy(tagPath, nc[..n][i].1, bucket, g);
      assert nc[..n][i] == nc[i];
    }
    if FiledFor(tagPath, nc, r, bucket, g) && !(nc[n].0 == r && FiledBy(tagPath, nc[n].1, bucket, g)) {
      var i :| 0 <= i < |nc| && nc[i].0 == r && FiledBy(tagPath, nc[i].1, bucket, g);
      assert nc[..n][i] == nc[i];
    }
  }

  /**
   * The rendered buckets hold exactly what the checks file there: `g` is
   * under `rule` in a bucket iff some check of that rule produces `g` for
   * that bucket, and no rule name is kept with an empty set.
   */
  lemma RenderedExactly(tagPath: Option<string>, out: EngineOutput, bucket: Bucket, r: string, g: GuardRuleResult)
    requires Render(tagPath, out).Ok?
    ensures Holds(SelValue(Render(tagPath, out).value, bucket), r, g) <==> FiledFor(tagPath, out.notCompliant, r, bucket, g)
    ensures NoEmptyEntries(SelValue(Render(tagPath, out).value, bucket))
  {
    FileRulesSpec(tagPath, Buckets(map[], map[]), out.notCompliant, bucket, r, g);
  }

  /** A result is filed under `warning` only when its parsed message says "WARNING". */
  lemma WarningsAreWarnings(tagPath: Option<string>, out: EngineOutput, r: string, g: GuardRuleResult)
    requires Render(tagPath, out).Ok? && Holds(Render(tagPath, out).value.warning, r, g)
    ensures exists i, j ::
      && 0 <= i < |out.notCompliant| && out.notCompliant[i].0 == r && 0 <= j < |out.notCompliant[i].1|
      && out.notCompliant[i].1[j].parsed.Dict?
      && "result" in out.notCompliant[i].1[j].parsed.fields
      && out.notCompliant[i].1[j].parsed.fields["result"] == WarningResult
  {
    RenderedExactly(tagPath, out, WarningBucket, r, g);
    var nc := out.notCompliant;
    var i :| 0 <= i < |nc| && nc[i].0 == r && FiledBy(tagPath, nc[i].1, WarningBucket, g);
    var j :| 0 <= j < |nc[i].1| && CheckOutcome(tagPath, nc[i].1[j]) == Ok(Some((WarningBucket, g)));
    assert nc[i].1[j].message != "";
  }

  /**
   * With a non-empty tag path, every TAG016 result carries it as its path;
   * other results keep the path their check gave.
   */
  lemma Tag016UsesTagPath(tagPath: Option<string>, out: EngineOutput, bucket: Bucket, r: string, g: GuardRuleResult)
    requires Render(tagPath, out).Ok? && Holds(SelValue(Render(tagPath, out).value, bucket), r, g)
    requires g.checkId == Tag016 && tagPath.Some? && tagPath.value != ""
    ensures g.path == tagPath.value
  {
    RenderedExactly(tagPath, out, bucket, r, g);
    var nc := out.notCompliant;
    var i :| 0 <= i < |nc| && nc[i].0 == r && FiledBy(tagPath, nc[i].1, bucket, g);
    var j :| 0 <= j < |nc[i].1| && CheckOutcome(tagPath, nc[i].1[j]) == Ok(Some((bucket, g)));
    var c := nc[i].1[j];
    assert c.message != "";
  }

  /** A message that `literal_eval` rejects with SyntaxError files the default result under `non_compliant`. */
  lemma UnparsableGivesDefault(tagPath: Option<string>, out: EngineOutput, i: nat, j: nat)
    requires Render(tagPath, out).Ok?
    requires i < |out.notCompliant| && j < |out.notCompliant[i].1|
    requires out.notCompliant[i].1[j].message != "" && out.notCompliant[i].1[j].parsed.SyntaxErr?
    ensures Holds(Render(tagPath, out).value.nonCompliant, out.notCompliant[i].0, DefaultRuleResult)
  {
    RenderedExactly(tagPath, out, NonCompliantBucket, out.notCompliant[i].0, DefaultRuleResult);
    assert FiledBy(tagPath, out.notCompliant[i].1, NonCompliantBucket, DefaultRuleResult);
  }

  /** A check with an empty message files nothing, anywhere. */
  lemma EmptyMessageFilesNothing(tagPath: Option<string>, b: Buckets, rule: string, cs: seq<Check>, path: string, parsed: Parsed)
    ensures FileChecks(tagPath, b, rule, cs + [Check("", path, parsed)]) == FileChecks(tagPath, b, rule, cs)
  {
    assert (cs + [Check("", path, parsed)])[..|cs|] == cs;
  }

  lemma {:induction false} FileChecksErr(tagPath: Option<string>, b: Buckets, rule: string, cs: seq<Check>, j: nat)
    requires j < |cs| && CheckOutcome(tagPath, cs[j]).Err?
    ensures FileChecks(tagPath, b, rule, cs).Err?
  {
    var n := |cs| - 1;
    if j < n {
      assert cs[..n][j] == cs[j];
      FileChecksErr(tagPath, b, rule, cs[..n], j);
    } else {
      var mid := FileChecks(tagPath, b, rule, cs[..n]);
      if mid.Ok? {
        assert FileCheck(tagPath, mid.value, rule, cs[n]).Err?;
      }
    }
  }

  lemma {:induction false} FileRulesErr(tagPath: Option<string>, b: Buckets, nc: seq<(string, seq<Check>)>, i: nat, j: nat)
    requires i < |nc| && j < |nc[i].1| && CheckOutcome(tagPath, nc[i].1[j]).Err?
    ensures FileRules(tagPath, b, nc).Err?
  {
    var n := |nc| - 1;
    if i < n {
      assert nc[..n][i] == nc[i];
      FileRulesErr(tagPath, b, nc[..n], i, j);
    } else {
      var mid := FileRules(tagPath, b, nc[..n]);
      if mid.Ok? {
        FileChecksErr(tagPath, mid.value, nc[n].0, nc[n].1, j);
      }
    }
  }

  /** A parsed message missing `check_id` or `message` aborts the whole rendering. */
  lemma MissingKeyAborts(tagPath: Option<string>, out: EngineOutput, i: nat, j: nat)
    requires i < |out.notCompliant| && j < |out.notCompliant[i].1|
    requires var c := out.notCompliant[i].1[j];
      c.message != "" && c.parsed.Dict? && ("check_id" !in c.parsed.fields || "message" !in c.parsed.fields)
    ensures Render(tagPath, out).Err?
  {
    FileRulesErr(tagPath, Buckets(map[], map[]), out.notCompliant, i, j);
  }

  /**
   * A message `literal_eval` rejects with anything but SyntaxError, or one
   * that parses to a literal other than a dict, aborts the whole rendering:
   * only SyntaxError is caught.
   */
  lemma UncaughtParseAborts(tagPath: Option<string>, out: EngineOutput, i: nat, j: nat)
    requires i < |out.notCompliant| && j < |out.notCompliant[i].1|
    requires var c := out.notCompliant[i].1[j];
      c.message != "" && (c.parsed.OtherErr? || c.parsed.NonDict?)
    ensures Render(tagPath, out).Err?
  {
    FileRulesErr(tagPath, Buckets(map[], map[]), out.notCompliant, i, j);
  }

  // ---------------------------------------------------------------------
  // The accumulator over several rule files
  // ---------------------------------------------------------------------

  /** The engine's compliant lists, one rule file after another. */
  function CompliantOf<S>(schema: S, run: (S, string) -> EngineOutput, order: seq<string>): seq<string>
  {
    if order == [] then [] else CompliantOf(schema, run, order[..|order| - 1]) + run(schema, order[|order| - 1]).compliant
  }

  function SkippedOf<S>(schema: S, run: (S, string) -> EngineOutput, order: seq<string>): seq<string>
  {
    if order == [] then [] else SkippedOf(schema, run, order[..|order| - 1]) + run(schema, order[|order| - 1]).notApplicable
  }

  /**
   * After several rule files, `compliant` and `skipped` are the engine's
   * lists concatenated in run order, and a rule name is failed iff some
   * rule file failed it; `LastFileWins` says which file's entry it holds.
   */
  lemma {:induction false} Accumulated<S>(schema: S, tagPath: Option<string>, run: (S, string) -> EngineOutput, order: seq<string>, k: string)
    requires RunRules(schema, tagPath, run, order).Ok?
    ensures var v := RunRules(schema, tagPath, run, order).value;
      && v.compliant == CompliantOf(schema, run, order)
      && v.skipped == SkippedOf(schema, run, order)
      && (k in v.nonCompliant <==> FailedIn(schema, tagPath, run, order, k))
  {
    if order != [] {
      var n := |order| - 1;
      Accumulated(schema, tagPath, run, order[..n], k);
      FailedInSnoc(schema, tagPath, run, order, k);
    }
  }

  /** Some rule file of `order` renders with `k` among its failed rule names. */
  predicate FailedIn<S>(schema: S, tagPath: Option<string>, run: (S, string) -> EngineOutput, order: seq<string>, k: string)
  {
    exists i :: 0 <= i < |order| && Render(tagPath, run(schema, order[i])).Ok?
      && k in Render(tagPath, run(schema, order[i])).value.nonCompliant
  }

  lemma FailedInSnoc<S>(schema: S, tagPath: Option<string>, run: (S, string) -> EngineOutput, order: seq<string>, k: string)
    requires order != []
    ensures var n := |order| - 1;
      var last := Render(tagPath, run(schema, order[n]));
      FailedIn(schema, tagPath, run, order, k) <==>
        FailedIn(schema, tagPath, run, order[..n], k) || (last.Ok? && k in last.value.nonCompliant)
  {
    var n := |order| - 1;
    if FailedIn(schema, tagPath, run, order[..n], k) {
      var i :| 0 <= i < n && Render(tagPath, run(schema, order[..n][i])).Ok?
        && k in Render(tagPath, run(schema, order[..n][i])).value.nonCompliant;
      assert order[..n][i] == order[i];
    }
    if FailedIn(schema, tagPath, run, order, k) {
      var i :| 0 <= i < |order| && Render(tagPath, run(schema, order[i])).Ok?
        && k in Render(tagPath, run(schema, order[i])).value.nonCompliant;
      if i < n {
        assert order[..n][i] == order[i];
      }
    }
  }

  /** The failed bucket of a result, or its warning bucket when `warn` holds. */
  function Bucket(v: RuleSetValue, warn: bool): Findings
  {
    if warn then v.warning else v.nonCompliant
  }

  /**
   * The last rule file whose rendering files `k` in a bucket decides the
   * accumulated entry for `k` there: `{**self.non_compliant, **other.non_compliant}`
   * keeps the later file's whole set, whatever earlier files filed.
   */
  lemma {:induction false} LastFileWins<S>(schema: S, tagPath: Option<string>, run: (S, string) -> EngineOutput,
                                           order: seq<string>, k: string, i: nat, warn: bool)
    requires RunRules(schema, tagPath, run, order).Ok?
    requires i < |order| && Render(tagPath, run(schema, order[i])).Ok?
    requires k in Bucket(Render(tagPath, run(schema, order[i])).value, warn)
    requires forall j :: i < j < |order| && Render(tagPath, run(schema, order[j])).Ok? ==>
      k !in Bucket(Render(tagPath, run(schema, order[j])).value, warn)
    ensures k in Bucket(RunRules(schema, tagPath, run, order).value, warn)
    ensures Bucket(RunRules(schema, tagPath, run, order).value, warn)[k] ==
      Bucket(Render(tagPath, run(schema, order[i])).value, warn)[k]
  {
    var n := |order| - 1;
    var last := Render(tagPath, run(schema, order[n]));
    assert RunRules(schema, tagPath, run, order)
      == Ok(Merged(RunRules(schema, tagPath, run, order[..n]).value, last.value));
    if i < n {
      forall j | i < j < n && Render(tagPath, run(schema, order[..n][j])).Ok?
        ensures k !in Bucket(Render(tagPath, run(schema, order[..n][j])).value, warn)
      {
        assert order[..n][j] == order[j];
      }
      assert order[..n][i] == order[i];
      LastFileWins(schema, tagPath, run, order[..n], k, i, warn);
    }
  }

  /** The meta-diff never has a `TaggingPath` key, so stateful runs have no tag path. */
  lemma StatefulDiffHasNoTagPath(previousRefs: SchemaUtils.Refs, previous: Json, currentRefs: SchemaUtils.Refs, current: Json,
                                 differ: (Json, Json) -> seq<Stateful.Category>)
    ensures var d := Stateful.DiffOfSchemas(previousRefs, previous, currentRefs, current, differ);
      d.Ok? ==> "TaggingPath" !in d.value
  {
    var p := SchemaUtils.ResolveSchema(previousRefs, previous);
    var c := SchemaUtils.ResolveSchema(currentRefs, current);
    if p.Ok? && c.Ok? {
      StatefulLemmas.TranslateKeysAreConstructs(differ(p.value, c.value));
    }
  }

  /** A stateful run returns one report carrying the diff, or fails for an empty rule set. */
  lemma StatefulReportShape(diff: Stateful.MetaDiff, run: (Stateful.MetaDiff, string) -> EngineOutput, order: seq<string>)
    ensures order == [] ==> StatefulReport(diff, run, order).Err?
    ensures StatefulReport(diff, run, order).Ok? ==>
      var rs := StatefulReport(diff, run, order).value;
      |rs| == 1 && rs[0] == Report(RunRules(diff, None, run, order).value, Some(diff))
  {
  }
}
