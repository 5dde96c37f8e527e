/**
 * The pure part of the dashboard provider's filter handling: the updaters that
 * each add, update or remove operation hands to the state setter, the merged
 * `allFilters` view, and the decision an update makes about saved-filter
 * overrides.
 */
module DashboardFilterUpdates {
  import opened Wrappers
  import opened FilterRules
  import opened FilterConfigurationUtils

  /** A `slice` bound: negative counts back from the end, then clamped to `[0, len]`. */
  function SliceBound(i: int, len: nat): (k: nat)
    ensures k <= len
    ensures 0 <= i ==> k == if i < len then i else len
    ensures i < 0 ==> k == if len + i < 0 then 0 else len + i
  {
    if i < 0 then (if len + i < 0 then 0 else len + i)
    else if i > len then len
    else i
  }

  /** `s.slice(start, end)` */
  function Slice<T>(s: seq<T>, start: int, end: int): (r: seq<T>)
    ensures |r| <= |s|
    ensures 0 <= start <= end ==> r == s[SliceBound(start, |s|)..SliceBound(end, |s|)]
  {
    var from, to := SliceBound(start, |s|), SliceBound(end, |s|);
    if from < to then s[from..to] else []
  }

  /** `s.slice(start)` */
  function SliceFrom<T>(s: seq<T>, start: int): seq<T>
  {
    Slice(s, start, |s|)
  }

  /** `s[i]`: `undefined` outside the list, negative indices included. */
  function At(s: seq<FilterRule>, i: int): (r: Option<FilterRule>)
    ensures r.Some? <==> 0 <= i < |s|
    ensures r.Some? ==> r.value == s[i]
  {
    if 0 <= i < |s| then Some(s[i]) else None
  }

  /** The updater of `addDimensionDashboardFilter`. */
  function AddDimension(filters: DashboardFilters, rule: FilterRule): (r: DashboardFilters)
    ensures |r.dimensions| == |filters.dimensions| + 1
    ensures r.dimensions[..|filters.dimensions|] == filters.dimensions
    ensures r.dimensions[|filters.dimensions|] == rule
    ensures r.metrics == filters.metrics && r.tableCalculations == filters.tableCalculations
  {
    DashboardFilters(filters.dimensions + [rule], filters.metrics, filters.tableCalculations)
  }

  /** The updater of `addMetricDashboardFilter`. */
  function AddMetric(filters: DashboardFilters, rule: FilterRule): (r: DashboardFilters)
    ensures |r.metrics| == |filters.metrics| + 1
    ensures r.metrics[..|filters.metrics|] == filters.metrics
    ensures r.metrics[|filters.metrics|] == rule
    ensures r.dimensions == filters.dimensions && r.tableCalculations == filters.tableCalculations
  {
    DashboardFilters(filters.dimensions, filters.metrics + [rule], filters.tableCalculations)
  }

  /**
   * The list part of `updateDimensionDashboardFilter`: a position inside the
   * list is replaced in place, a position past its end appends the rule.
   */
  function UpdateDimension(filters: DashboardFilters, item: FilterRule, index: int): (r: DashboardFilters)
    ensures r.metrics == filters.metrics && r.tableCalculations == filters.tableCalculations
    ensures 0 <= index < |filters.dimensions| ==>
      && |r.dimensions| == |filters.dimensions|
      && r.dimensions[index] == item
      && forall j :: 0 <= j < |filters.dimensions| && j != index ==> r.dimensions[j] == filters.dimensions[j]
    ensures index >= |filters.dimensions| ==> r.dimensions == filters.dimensions + [item]
    // slice(0, -1) drops the last rule and slice(0) keeps them all: the list is duplicated
    ensures index == -1 && filters.dimensions != [] ==>
      r.dimensions == filters.dimensions[..|filters.dimensions| - 1] + [item] + filters.dimensions
  {
    var dims := filters.dimensions;
    DashboardFilters(Slice(dims, 0, index) + [item] + SliceFrom(dims, index + 1),
                     filters.metrics, filters.tableCalculations)
  }

  /**
   * The list part of `removeDimensionDashboardFilter`: a position inside the
   * list is dropped and the rest keep their order; a position past its end
   * leaves the list as it was.
   */
  function RemoveDimension(filters: DashboardFilters, index: int): (r: DashboardFilters)
    ensures r.metrics == filters.metrics && r.tableCalculations == filters.tableCalculations
    ensures 0 <= index < |filters.dimensions| ==>
      && |r.dimensions| == |filters.dimensions| - 1
      && (forall j :: 0 <= j < index ==> r.dimensions[j] == filters.dimensions[j])
      && (forall j :: index <= j < |r.dimensions| ==> r.dimensions[j] == filters.dimensions[j + 1])
    ensures index >= |filters.dimensions| ==> r == filters
    ensures index == -1 && filters.dimensions != [] ==>
      r.dimensions == filters.dimensions[..|filters.dimensions| - 1] + filters.dimensions
  {
    var dims := filters.dimensions;
    DashboardFilters(Slice(dims, 0, index) + SliceFrom(dims, index + 1),
                     filters.metrics, filters.tableCalculations)
  }

  /** `allFilters`: per category, the saved rules followed by the temporary ones. */
  function AllFilters(saved: DashboardFilters, temporary: DashboardFilters): (all: DashboardFilters)
    ensures |all.dimensions| == |saved.dimensions| + |temporary.dimensions|
    ensures |all.metrics| == |saved.metrics| + |temporary.metrics|
    ensures |all.tableCalculations| == |saved.tableCalculations| + |temporary.tableCalculations|
    ensures forall i :: 0 <= i < |saved.dimensions| ==> all.dimensions[i] == saved.dimensions[i]
    ensures forall i :: 0 <= i < |temporary.dimensions| ==>
      all.dimensions[|saved.dimensions| + i] == temporary.dimensions[i]
    ensures forall i :: 0 <= i < |saved.metrics| ==> all.metrics[i] == saved.metrics[i]
    ensures forall i :: 0 <= i < |temporary.metrics| ==>
      all.metrics[|saved.metrics| + i] == temporary.metrics[i]
    ensures forall i :: 0 <= i < |saved.tableCalculations| ==>
      all.tableCalculations[i] == saved.tableCalculations[i]
    ensures forall i :: 0 <= i < |temporary.tableCalculations| ==>
      all.tableCalculations[|saved.tableCalculations| + i] == temporary.tableCalculations[i]
  {
    DashboardFilters(saved.dimensions + temporary.dimensions,
                     saved.metrics + temporary.metrics,
                     saved.tableCalculations + temporary.tableCalculations)
  }

  /** A temporary dimension rule lands at the very end of the merged list. */
  lemma AddTemporaryDimensionAppendsToAll(saved: DashboardFilters, temporary: DashboardFilters, rule: FilterRule)
    ensures AllFilters(saved, AddDimension(temporary, rule)).dimensions
            == AllFilters(saved, temporary).dimensions + [rule]
  {
  }

  /**
   * A saved dimension rule lands between the saved and the temporary rules of
   * the merged list, so the two kinds never interleave.
   */
  lemma AddSavedDimensionInsertsAtBoundary(saved: DashboardFilters, temporary: DashboardFilters, rule: FilterRule)
    ensures var before := AllFilters(saved, temporary).dimensions;
            var n := |saved.dimensions|;
            AllFilters(AddDimension(saved, rule), temporary).dimensions == before[..n] + [rule] + before[n..]
  {
  }

  /** Adding a dimension rule, saved or temporary, leaves the merged metrics and table calculations alone. */
  lemma AddDimensionKeepsOtherKinds(saved: DashboardFilters, temporary: DashboardFilters, rule: FilterRule,
                                    isTemporary: bool)
    ensures var after := if isTemporary then AllFilters(saved, AddDimension(temporary, rule))
                         else AllFilters(AddDimension(saved, rule), temporary);
            after.metrics == AllFilters(saved, temporary).metrics
            && after.tableCalculations == AllFilters(saved, temporary).tableCalculations
  {
  }

  /** Removing the rule just added restores the filters. */
  lemma RemoveUndoesAdd(filters: DashboardFilters, rule: FilterRule)
    ensures RemoveDimension(AddDimension(filters, rule), |filters.dimensions|) == filters
  {
  }

  /** Updating a position and then removing it is the same as removing it. */
  lemma RemoveAfterUpdate(filters: DashboardFilters, item: FilterRule, index: int)
    requires 0 <= index < |filters.dimensions|
    ensures RemoveDimension(UpdateDimension(filters, item, index), index) == RemoveDimension(filters, index)
  {
  }

  /** What an update does to the saved-filter overrides. */
  datatype OverrideAction =
    | KeepOverrides
    | AddOverride
    | RemoveOverride
      /** the comparison is asked of a rule that is not there, and throws */
    | MissingPreviousRule

  /** `dashboard?.filters.dimensions.some(({ id }) => id === item.id)` */
  function IsFilterSaved(dashboard: Option<DashboardFilters>, item: FilterRule): (saved: bool)
    ensures saved <==> dashboard.Some? && item.id in (set r | r in dashboard.value.dimensions :: r.id)
  {
    dashboard.Some? && exists j :: 0 <= j < |dashboard.value.dimensions| && dashboard.value.dimensions[j].id == item.id
  }

  /** `isReverted`: there is an original rule at `index` and the item does not differ from it. */
  function IsReverted(original: seq<FilterRule>, item: FilterRule, index: int): (reverted: bool)
    ensures reverted ==> At(original, index).Some?
    ensures 0 <= index < |original| && original[index] == item && HasNoDateValues(item) ==> reverted
    ensures 0 <= index < |original| && HasNoDateValues(item) && !(IsDisabled(original[index]) && item.values.None?) ==>
      (reverted <==> GetFilterRuleRevertableObject(original[index]) == GetFilterRuleRevertableObject(item))
  {
    0 <= index < |original| && !HasSavedFilterValueChanged(original[index], item)
  }

  /**
   * The override bookkeeping of `updateDimensionDashboardFilter`, in the order
   * the source asks its questions.
   */
  function OverrideDecision(isTemporary: bool, isEditMode: bool, original: seq<FilterRule>,
                            previous: seq<FilterRule>, isFilterSaved: bool,
                            item: FilterRule, index: int): (action: OverrideAction)
    ensures isTemporary ==> action == KeepOverrides
    ensures !isTemporary && isEditMode ==> action == RemoveOverride
    ensures !isTemporary && IsReverted(original, item, index) ==> action == RemoveOverride
    ensures action == RemoveOverride ==> !isTemporary && (isEditMode || IsReverted(original, item, index))
    ensures action == AddOverride <==>
      && !isTemporary && !isEditMode && !IsReverted(original, item, index)
      && 0 <= index < |previous| && HasSavedFilterValueChanged(previous[index], item) && isFilterSaved
    ensures action == MissingPreviousRule <==>
      !isTemporary && !isEditMode && !IsReverted(original, item, index) && At(previous, index).None?
  {
    if isTemporary then KeepOverrides
    else if isEditMode then RemoveOverride
    else
      var isReverted := At(original, index).Some? && !HasSavedFilterValueChanged(original[index], item);
      if isReverted then RemoveOverride
      else
        match At(previous, index)
        case None => MissingPreviousRule
        case Some(previousRule) =>
          var hasChanged := HasSavedFilterValueChanged(previousRule, item);
          if hasChanged && isFilterSaved then AddOverride else KeepOverrides
  }

  /**
   * A view-mode edit of a saved rule that differs both from its original and
   * from its previous value registers an override.
   */
  lemma ChangedSavedRuleAddsOverride(original: seq<FilterRule>, previous: seq<FilterRule>,
                                     item: FilterRule, index: nat)
    requires index < |original| && index < |previous|
    requires HasNoDateValues(item)
    requires !(IsDisabled(original[index]) && item.values.None?)
    requires !(IsDisabled(previous[index]) && item.values.None?)
    requires GetFilterRuleRevertableObject(original[index]) != GetFilterRuleRevertableObject(item)
    requires GetFilterRuleRevertableObject(previous[index]) != GetFilterRuleRevertableObject(item)
    ensures OverrideDecision(false, false, original, previous, true, item, index) == AddOverride
  {
  }

  /** The override store, keyed by rule id, after an action on `item`. */
  function ApplyOverrideAction(overrides: map<string, FilterRule>, action: OverrideAction, item: FilterRule)
    : (r: map<string, FilterRule>)
    ensures forall k :: k != item.id ==> (k in r <==> k in overrides) && (k in r ==> r[k] == overrides[k])
    ensures action == AddOverride ==> item.id in r && r[item.id] == item
    ensures action == RemoveOverride ==> item.id !in r
    ensures action.KeepOverrides? || action.MissingPreviousRule? ==> r == overrides
  {
    match action
    case AddOverride => overrides[item.id := item]
    case RemoveOverride => overrides - {item.id}
    case KeepOverrides => overrides
    case MissingPreviousRule => overrides
  }

  /** Editing a saved rule back to its original value drops its override. */
  lemma RevertingDropsOverride(overrides: map<string, FilterRule>, original: seq<FilterRule>,
                               previous: seq<FilterRule>, isFilterSaved: bool, index: nat)
    requires index < |original|
    requires HasNoDateValues(original[index])
    ensures var item := original[index];
            var action := OverrideDecision(false, false, original, previous, isFilterSaved, item, index);
            item.id !in ApplyOverrideAction(overrides, action, item)
  {
  }
}
