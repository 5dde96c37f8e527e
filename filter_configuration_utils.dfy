/**
 * The filter-rule predicates of the filter configuration panel: whether a rule
 * is active, the part of a rule that a revert restores, and whether a saved
 * rule's value has been changed.
 */
module FilterConfigurationUtils {
  import opened Wrappers
  import opened Dates
  import opened FilterRules

  predicate IsNullCheckOperator(op: FilterOperator)
  {
    op.Null? || op.NotNull?
  }

  /** The operators that compare against a list of values. */
  predicate IsValueListOperator(op: FilterOperator)
  {
    || op.Equals? || op.NotEquals? || op.LessThan? || op.GreaterThan?
    || op.EndsWith? || op.StartsWith? || op.Include? || op.NotInclude?
    || op.LessThanOrEqual? || op.GreaterThanOrEqual?
  }

  /** The operators that take a relative-time settings object. */
  predicate IsRelativeTimeOperator(op: FilterOperator)
  {
    op.InThePast? || op.NotInThePast? || op.InTheNext? || op.InTheCurrent?
  }

  /** `values.every(Boolean)` */
  predicate AllTruthy(vs: seq<FilterValue>)
  {
    forall i :: 0 <= i < |vs| ==> Truthy(vs[i])
  }

  /** The early exit of `isFilterEnabled`: a disabled rule outside "creating a new rule in view mode". */
  predicate TakesDisabledExit(rule: FilterRule, isEditMode: bool, isCreatingNew: bool)
  {
    IsDisabled(rule) && (isEditMode || !isCreatingNew)
  }

  /**
   * Whether a rule counts as active. A missing rule never is; a disabled rule
   * is whenever the panel is in edit mode or the rule is not being created;
   * otherwise the operator decides. Omitted flags are passed as `false`.
   */
  function IsFilterEnabled(rule: Option<FilterRule>, isEditMode: bool, isCreatingNew: bool): (enabled: bool)
    ensures rule.None? ==> !enabled
    ensures rule.Some? && TakesDisabledExit(rule.value, isEditMode, isCreatingNew) ==> enabled
    ensures rule.Some? && !TakesDisabledExit(rule.value, isEditMode, isCreatingNew) ==>
      var r := rule.value;
      && (IsNullCheckOperator(r.operator) ==> enabled)
      && (IsValueListOperator(r.operator) ==> (enabled <==> r.values.Some? && r.values.value != []))
      && (IsRelativeTimeOperator(r.operator) ==> (enabled <==> r.settings.Some?))
      && (r.operator.InBetween? ==>
            (enabled <==> r.values.Some? && |r.values.value| == 2
                          && Truthy(r.values.value[0]) && Truthy(r.values.value[1])))
  {
    match rule
    case None => false
    case Some(r) =>
      var isFilterRuleDisabled := IsDisabled(r);
      if (isFilterRuleDisabled && isEditMode) || (isFilterRuleDisabled && !isCreatingNew) then
        true
      else
        match r.operator
        case Null | NotNull => true
        case Equals | NotEquals | LessThan | GreaterThan | EndsWith | StartsWith
          | Include | NotInclude | LessThanOrEqual | GreaterThanOrEqual =>
          r.values.Some? && |r.values.value| > 0
        case InThePast | NotInThePast | InTheNext | InTheCurrent =>
          r.settings.Some?
        case InBetween =>
          r.values.Some? && |r.values.value| == 2 && AllTruthy(r.values.value)
  }

  /** The five properties of a rule that a revert restores (`labelText` is the source's `label`). */
  datatype RevertableObject = RevertableObject(
    disabled: Option<bool>,
    values: Option<seq<FilterValue>>,
    operator: FilterOperator,
    settings: Option<RelativeTimeSettings>,
    labelText: Option<string>)

  /** The projection keeps the five revertable properties, whatever the rule's id and targets. */
  function GetFilterRuleRevertableObject(rule: FilterRule): (obj: RevertableObject)
    ensures obj.disabled == rule.disabled && obj.values == rule.values && obj.operator == rule.operator
    ensures obj.settings == rule.settings && obj.labelText == rule.labelText
  {
    RevertableObject(rule.disabled, rule.values, rule.operator, rule.settings, rule.labelText)
  }

  /** Two rules have the same revertable object exactly when they agree on those five properties. */
  lemma RevertableObjectsAgree(rule: FilterRule, other: FilterRule)
    ensures GetFilterRuleRevertableObject(rule) == GetFilterRuleRevertableObject(other) <==>
      && rule.disabled == other.disabled && rule.values == other.values
      && rule.operator == other.operator && rule.settings == other.settings
      && rule.labelText == other.labelText
  {
  }

  /** `v instanceof Date ? v.toISOString() : v` */
  function SerializeValue(v: FilterValue): (w: FilterValue)
    ensures !w.DateValue?
    ensures !v.DateValue? ==> w == v
  {
    if v.DateValue? then StringValue(IsoString(v.date)) else v
  }

  predicate HasNoDateValues(rule: FilterRule)
  {
    rule.values.Some? ==> forall i :: 0 <= i < |rule.values.value| ==> !rule.values.value[i].DateValue?
  }

  /**
   * The copy of a rule whose Date values are replaced by their saved string
   * form; the argument itself is a value and is left as it was.
   */
  function SerializeDateValues(rule: FilterRule): (copy: FilterRule)
    ensures copy.(values := rule.values) == rule
    ensures copy.values.Some? <==> rule.values.Some?
    ensures rule.values.Some? ==>
      && |copy.values.value| == |rule.values.value|
      && forall i :: 0 <= i < |rule.values.value| ==>
           copy.values.value[i] == SerializeValue(rule.values.value[i])
    ensures HasNoDateValues(copy)
    ensures HasNoDateValues(rule) ==> copy == rule
  {
    if rule.values.Some? && |rule.values.value| > 0 then
      var vs := rule.values.value;
      var serialized := seq(|vs|, i requires 0 <= i < |vs| => SerializeValue(vs[i]));
      assert HasNoDateValues(rule) ==> serialized == vs;
      rule.(values := Some(serialized))
    else
      rule
  }

  /**
   * Whether an edited rule differs from an original saved rule in any
   * revertable property, once the edited rule's dates are serialised. A disabled
   * original whose edit cleared the values never counts as changed.
   */
  function HasSavedFilterValueChanged(original: FilterRule, rule: FilterRule): (changed: bool)
    ensures IsDisabled(original) && rule.values.None? ==> !changed
  {
    if IsDisabled(original) && rule.values.None? then
      false
    else
      var serializedInternalFilterRule := SerializeDateValues(rule);
      GetFilterRuleRevertableObject(original) != GetFilterRuleRevertableObject(serializedInternalFilterRule)
  }

  /**
   * Past the early exit, a change is reported exactly when the rules differ in
   * `disabled`, `operator`, `settings` or `label`, or when the original's values
   * are not the edited values with each Date replaced by its saved string.
   */
  lemma ChangedIffRevertableDiffers(original: FilterRule, rule: FilterRule)
    requires !(IsDisabled(original) && rule.values.None?)
    ensures HasSavedFilterValueChanged(original, rule) <==>
      !(&& original.disabled == rule.disabled
        && original.operator == rule.operator
        && original.settings == rule.settings
        && original.labelText == rule.labelText
        && (original.values.Some? <==> rule.values.Some?)
        && (rule.values.Some? ==>
              && |original.values.value| == |rule.values.value|
              && forall i :: 0 <= i < |rule.values.value| ==>
                   original.values.value[i] == SerializeValue(rule.values.value[i])))
  {
    var s := SerializeDateValues(rule);
    if original.values.Some? && rule.values.Some? && |original.values.value| == |rule.values.value| {
      if forall i :: 0 <= i < |rule.values.value| ==> original.values.value[i] == SerializeValue(rule.values.value[i]) {
        assert s.values.value == original.values.value;
      }
    }
  }

  /** For rules without Date values, a change is a difference in any of the five revertable properties. */
  lemma ChangedIffFieldsDiffer(original: FilterRule, rule: FilterRule)
    requires HasNoDateValues(rule) && !(IsDisabled(original) && rule.values.None?)
    ensures HasSavedFilterValueChanged(original, rule) <==>
      !(&& original.disabled == rule.disabled && original.values == rule.values
        && original.operator == rule.operator && original.settings == rule.settings
        && original.labelText == rule.labelText)
  {
  }

  /** The comparison sees only the five revertable properties of either rule. */
  lemma ChangeIgnoresNonRevertableFields(original: FilterRule, rule: FilterRule, original': FilterRule, rule': FilterRule)
    requires GetFilterRuleRevertableObject(original) == GetFilterRuleRevertableObject(original')
    requires GetFilterRuleRevertableObject(rule) == GetFilterRuleRevertableObject(rule')
    ensures HasSavedFilterValueChanged(original, rule) == HasSavedFilterValueChanged(original', rule')
  {
  }

  /** A rule without dates has not changed with respect to itself. */
  lemma UnchangedAgainstItself(rule: FilterRule)
    requires HasNoDateValues(rule)
    ensures !HasSavedFilterValueChanged(rule, rule)
  {
  }

  /**
   * An edited rule holding Date values compares equal to a saved rule that
   * holds their string forms in the same places and agrees on everything else.
   */
  lemma DateEqualsItsSavedForm(original: FilterRule, rule: FilterRule)
    requires original.values.Some? && rule.values.Some?
    requires |original.values.value| == |rule.values.value|
    requires forall i :: 0 <= i < |rule.values.value| ==>
      var v := rule.values.value[i];
      original.values.value[i] == if v.DateValue? then StringValue(IsoString(v.date)) else v
    requires original.disabled == rule.disabled && original.operator == rule.operator
    requires original.settings == rule.settings && original.labelText == rule.labelText
    ensures !HasSavedFilterValueChanged(original, rule)
  {
    var s := SerializeDateValues(rule);
    assert s.values.value == original.values.value;
  }

  /** A saved date string and an edited Date for a different instant differ. */
  lemma DifferentDateIsChanged(original: FilterRule, rule: FilterRule, i: nat, saved: Date, edited: Date)
    requires rule.values.Some? && i < |rule.values.value| && rule.values.value[i] == DateValue(edited)
    requires original.values.Some? && i < |original.values.value|
    requires original.values.value[i] == StringValue(IsoString(saved))
    requires saved != edited
    ensures HasSavedFilterValueChanged(original, rule)
  {
    var s := SerializeDateValues(rule);
    assert s.values.value[i] == StringValue(IsoString(edited));
    if IsoString(saved) == IsoString(edited) {
      IsoStringInjective(saved, edited);
    }
  }

  /**
   * The original is compared unserialised: a rule still holding a Date value
   * counts as changed even against itself.
   */
  lemma DateValuedRuleDiffersFromItself(rule: FilterRule, i: nat)
    requires rule.values.Some? && i < |rule.values.value| && rule.values.value[i].DateValue?
    ensures HasSavedFilterValueChanged(rule, rule)
  {
  }
}
