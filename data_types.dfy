/**
 * The record types passed between the runner and its callers: rule
 * results, the accumulated rule-set result and its `merge`, and the two
 * payload kinds.
 */
module DataTypes {
  import opened Results
  import opened Json

  const Unidentified: string := "unidentified"

  /** One failed check of a rule; compared and hashed by value. */
  datatype GuardRuleResult = GuardRuleResult(checkId: string, message: string, path: string)

  /** `GuardRuleResult()`: every field defaults to "unidentified". */
  const DefaultRuleResult: GuardRuleResult := GuardRuleResult(Unidentified, Unidentified, Unidentified)

  /** What a compliance run is given. `rules` are extra rule texts. */
  datatype Payload =
    | Stateless(schemas: seq<Json>, rules: seq<string>)
    | Stateful(currentSchema: Json, previousSchema: Json, rules: seq<string>)

  /** `Stateless(schemas=...)` with `rules` left to its default. */
  function StatelessPayload(schemas: seq<Json>): (p: Payload)
    ensures p.Stateless? && p.schemas == schemas && p.rules == []
  {
    Stateless(schemas, [])
  }

  /** `Stateful(current_schema=..., previous_schema=...)` with `rules` left to its default. */
  function StatefulPayload(current: Json, previous: Json): (p: Payload)
    ensures p.Stateful? && p.currentSchema == current && p.previousSchema == previous && p.rules == []
  {
    Stateful(current, previous, [])
  }

  /** Failed checks per rule name; the runner stores a set per rule. */
  type Findings = map<string, set<GuardRuleResult>>

  /** The four fields of a `GuardRuleSetResult`, as a value. */
  datatype RuleSetValue = RuleSetValue(
    compliant: seq<string>,
    nonCompliant: Findings,
    warning: Findings,
    skipped: seq<string>)

  /** `GuardRuleSetResult()`. */
  const EmptyRuleSet: RuleSetValue := RuleSetValue([], map[], map[], [])

  /**
   * The fields after `a.merge(b)`: the lists are extended, and the dicts are
   * rebuilt as `{**a, **b}`, so on a shared rule name `b`'s entry wins.
   */
  function Merged(a: RuleSetValue, b: RuleSetValue): (r: RuleSetValue)
    ensures r.compliant == a.compliant + b.compliant && r.skipped == a.skipped + b.skipped
    ensures r.nonCompliant.Keys == a.nonCompliant.Keys + b.nonCompliant.Keys
    ensures forall k :: k in b.nonCompliant ==> r.nonCompliant[k] == b.nonCompliant[k]
    ensures forall k :: k in a.nonCompliant && k !in b.nonCompliant ==> r.nonCompliant[k] == a.nonCompliant[k]
    ensures r.warning.Keys == a.warning.Keys + b.warning.Keys
    ensures forall k :: k in b.warning ==> r.warning[k] == b.warning[k]
    ensures forall k :: k in a.warning && k !in b.warning ==> r.warning[k] == a.warning[k]
  {
    RuleSetValue(a.compliant + b.compliant, a.nonCompliant + b.nonCompliant, a.warning + b.warning, a.skipped + b.skipped)
  }

  /** Merging a default result leaves the receiver as it was. */
  lemma MergeEmptyRight(a: RuleSetValue)
    ensures Merged(a, EmptyRuleSet) == a
  {
    assert a.compliant + [] == a.compliant;
    assert a.skipped + [] == a.skipped;
    assert a.nonCompliant + map[] == a.nonCompliant;
    assert a.warning + map[] == a.warning;
  }

  /** Merging into a default result copies the operand. */
  lemma MergeEmptyLeft(b: RuleSetValue)
    ensures Merged(EmptyRuleSet, b) == b
  {
    assert map[] + b.nonCompliant == b.nonCompliant;
    assert map[] + b.warning == b.warning;
  }

  /** Successive merges into one accumulator group freely. */
  lemma MergeAssociative(a: RuleSetValue, b: RuleSetValue, c: RuleSetValue)
    ensures Merged(Merged(a, b), c) == Merged(a, Merged(b, c))
  {
    assert (a.compliant + b.compliant) + c.compliant == a.compliant + (b.compliant + c.compliant);
    assert (a.skipped + b.skipped) + c.skipped == a.skipped + (b.skipped + c.skipped);
    assert (a.nonCompliant + b.nonCompliant) + c.nonCompliant == a.nonCompliant + (b.nonCompliant + c.nonCompliant);
    assert (a.warning + b.warning) + c.warning == a.warning + (b.warning + c.warning);
  }

  const MergeTypeMessage: string := "cannot merge with non GuardRuleSetResult type"

  /** The argument of `merge`, which the source accepts as anything. */
  datatype MergeOperand = RuleSetOperand(result: GuardRuleSetResult) | OtherOperand

  /** `GuardRuleSetResult`, whose `merge` updates it in place. */
  class GuardRuleSetResult {
    var compliant: seq<string>
    var nonCompliant: Findings
    var warning: Findings
    var skipped: seq<string>

    function Value(): RuleSetValue
      reads this
    {
      RuleSetValue(compliant, nonCompliant, warning, skipped)
    }

    /** `GuardRuleSetResult()`: every field empty. */
    constructor ()
      ensures Value() == EmptyRuleSet
    {
      compliant := [];
      nonCompliant := map[];
      warning := map[];
      skipped := [];
    }

    /** `GuardRuleSetResult(compliant=..., non_compliant=..., warning=..., skipped=...)`. */
    constructor Of(v: RuleSetValue)
      ensures Value() == v
    {
      compliant := v.compliant;
      nonCompliant := v.nonCompliant;
      warning := v.warning;
      skipped := v.skipped;
    }

    /**
     * `merge`: anything but a rule-set result raises TypeError before any
     * field is touched; otherwise the receiver becomes `Merged` of the two.
     */
    method Merge(other: MergeOperand) returns (res: Outcome)
      modifies this
      ensures other.OtherOperand? ==> res == Fail(TypeError(MergeTypeMessage)) && Value() == old(Value())
      ensures other.RuleSetOperand? ==> res == Pass && Value() == Merged(old(Value()), old(other.result.Value()))
    {
      if other.OtherOperand? {
        return Fail(TypeError(MergeTypeMessage));
      }
      var o := other.result;
      var oc, ok, onc, ow := o.compliant, o.skipped, o.nonCompliant, o.warning;
      compliant := compliant + oc;
      skipped := skipped + ok;
      nonCompliant := nonCompliant + onc;
      warning := warning + ow;
      res := Pass;
    }
  }
}
