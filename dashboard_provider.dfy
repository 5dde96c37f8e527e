/**
 * The dashboard provider's filter and cache state, and the callbacks that
 * change it step by step.
 */
module DashboardProviderState {
  import opened Wrappers
  import opened Dates
  import opened FilterRules
  import opened DashboardFilterUpdates
  import opened CacheTimes
  import opened MountRestore

  class DashboardProvider {
    /** The loaded dashboard's saved filters (`dashboard?.filters`). */
    var dashboard: Option<DashboardFilters>
    /** The saved filters as currently applied, overrides included. */
    var dashboardFilters: DashboardFilters
    var dashboardTemporaryFilters: DashboardFilters
    /** The saved filters as loaded, used to recognise a revert. */
    var originalDashboardFilters: DashboardFilters
    /** The saved-filter override store, keyed by rule id. */
    var overrides: map<string, FilterRule>
    var haveFiltersChanged: bool
    var resultsCacheTimes: seq<Date>
    var invalidateCache: bool
    var dateZoomGranularity: Option<DateGranularity>

    /** Each override is stored under its own rule's id, and overrides only rules the dashboard saves. */
    ghost predicate Valid()
      reads this
    {
      forall id :: id in overrides ==> overrides[id].id == id && IsFilterSaved(dashboard, overrides[id])
    }

    /** The state once the dashboard (if any) has loaded and no override is stored. */
    constructor (loaded: Option<DashboardFilters>)
      ensures Valid()
      ensures dashboard == loaded
      ensures dashboardFilters == originalDashboardFilters == loaded.GetOr(EmptyFilters)
      ensures dashboardTemporaryFilters == EmptyFilters
      ensures overrides == map[] && !haveFiltersChanged
      ensures resultsCacheTimes == [] && !invalidateCache && dateZoomGranularity.None?
    {
      dashboard := loaded;
      dashboardFilters := loaded.GetOr(EmptyFilters);
      originalDashboardFilters := loaded.GetOr(EmptyFilters);
      dashboardTemporaryFilters := EmptyFilters;
      overrides := map[];
      haveFiltersChanged := false;
      resultsCacheTimes := [];
      invalidateCache := false;
      dateZoomGranularity := None;
    }

    /** `allFilters` of the current state. */
    function AllFilters(): DashboardFilters
      reads this
    {
      DashboardFilterUpdates.AllFilters(dashboardFilters, dashboardTemporaryFilters)
    }

    method AddDimensionDashboardFilter(filter: FilterRule, isTemporary: bool)
      requires Valid()
      modifies this
      ensures Valid()
      ensures isTemporary ==>
        dashboardTemporaryFilters == AddDimension(old(dashboardTemporaryFilters), filter)
        && dashboardFilters == old(dashboardFilters)
      ensures !isTemporary ==>
        dashboardFilters == AddDimension(old(dashboardFilters), filter)
        && dashboardTemporaryFilters == old(dashboardTemporaryFilters)
      ensures var n := |old(dashboardFilters).dimensions|;
              AllFilters().dimensions == if isTemporary then old(AllFilters()).dimensions + [filter]
                                         else old(AllFilters()).dimensions[..n] + [filter] + old(AllFilters()).dimensions[n..]
      ensures AllFilters().metrics == old(AllFilters()).metrics
      ensures AllFilters().tableCalculations == old(AllFilters()).tableCalculations
      ensures haveFiltersChanged
      ensures overrides == old(overrides) && dashboard == old(dashboard)
      ensures originalDashboardFilters == old(originalDashboardFilters)
      ensures resultsCacheTimes == old(resultsCacheTimes) && invalidateCache == old(invalidateCache)
      ensures dateZoomGranularity == old(dateZoomGranularity)
    {
      var saved, temporary := dashboardFilters, dashboardTemporaryFilters;
      AddDimensionKeepsOtherKinds(saved, temporary, filter, isTemporary);
      if isTemporary {
        AddTemporaryDimensionAppendsToAll(saved, temporary, filter);
        dashboardTemporaryFilters := AddDimension(temporary, filter);
      } else {
        AddSavedDimensionInsertsAtBoundary(saved, temporary, filter);
        dashboardFilters := AddDimension(saved, filter);
      }
      haveFiltersChanged := true;
    }

    method AddMetricDashboardFilter(filter: FilterRule, isTemporary: bool)
      requires Valid()
      modifies this
      ensures Valid()
      ensures isTemporary ==>
        dashboardTemporaryFilters == AddMetric(old(dashboardTemporaryFilters), filter)
        && dashboardFilters == old(dashboardFilters)
      ensures !isTemporary ==>
        dashboardFilters == AddMetric(old(dashboardFilters), filter)
        && dashboardTemporaryFilters == old(dashboardTemporaryFilters)
      ensures |AllFilters().metrics| == |old(AllFilters()).metrics| + 1 && filter in AllFilters().metrics
      ensures AllFilters().dimensions == old(AllFilters()).dimensions
      ensures AllFilters().tableCalculations == old(AllFilters()).tableCalculations
      ensures haveFiltersChanged
      ensures overrides == old(overrides) && dashboard == old(dashboard)
      ensures originalDashboardFilters == old(originalDashboardFilters)
      ensures resultsCacheTimes == old(resultsCacheTimes) && invalidateCache == old(invalidateCache)
      ensures dateZoomGranularity == old(dateZoomGranularity)
    {
      if isTemporary {
        dashboardTemporaryFilters := AddMetric(dashboardTemporaryFilters, filter);
      } else {
        dashboardFilters := AddMetric(dashboardFilters, filter);
      }
      haveFiltersChanged := true;
    }

    /**
     * Replaces (or, past the end, appends) a dimension rule and keeps the
     * override store in step. When the saved set is edited in view mode at a
     * position holding no rule and the edit is not a revert, the source's
     * comparison reads a property of `undefined` and throws: `ok` is then false
     * and nothing changes.
     */
    method UpdateDimensionDashboardFilter(item: FilterRule, index: int, isTemporary: bool, isEditMode: bool)
      returns (ok: bool)
      requires Valid()
      modifies this
      ensures Valid()
      ensures
        var previous := if isTemporary then old(dashboardTemporaryFilters) else old(dashboardFilters);
        var action := OverrideDecision(isTemporary, isEditMode, old(originalDashboardFilters).dimensions,
                                       previous.dimensions, IsFilterSaved(old(dashboard), item), item, index);
        && ok == !action.MissingPreviousRule?
        && (ok ==>
              && overrides == ApplyOverrideAction(old(overrides), action, item)
              && haveFiltersChanged
              && (isTemporary ==>
                    dashboardTemporaryFilters == UpdateDimension(previous, item, index)
                    && dashboardFilters == old(dashboardFilters))
              && (!isTemporary ==>
                    dashboardFilters == UpdateDimension(previous, item, index)
                    && dashboardTemporaryFilters == old(dashboardTemporaryFilters)))
        && (!ok ==>
              && overrides == old(overrides) && haveFiltersChanged == old(haveFiltersChanged)
              && dashboardFilters == old(dashboardFilters)
              && dashboardTemporaryFilters == old(dashboardTemporaryFilters))
      ensures dashboard == old(dashboard) && originalDashboardFilters == old(originalDashboardFilters)
      ensures resultsCacheTimes == old(resultsCacheTimes) && invalidateCache == old(invalidateCache)
      ensures dateZoomGranularity == old(dateZoomGranularity)
    {
      var isFilterSaved := IsFilterSaved(dashboard, item);
      var previousFilters := if isTemporary then dashboardTemporaryFilters else dashboardFilters;
      var action := OverrideDecision(isTemporary, isEditMode, originalDashboardFilters.dimensions,
                                     previousFilters.dimensions, isFilterSaved, item, index);
      if action.MissingPreviousRule? {
        return false;
      }
      overrides := ApplyOverrideAction(overrides, action, item);
      var updated := UpdateDimension(previousFilters, item, index);
      if isTemporary {
        dashboardTemporaryFilters := updated;
      } else {
        dashboardFilters := updated;
      }
      haveFiltersChanged := true;
      ok := true;
    }

    /**
     * Removes a dimension rule; removing a saved rule also drops its override.
     * An index outside the list leaves both the list and the store as they were.
     */
    method RemoveDimensionDashboardFilter(index: int, isTemporary: bool)
      requires Valid()
      modifies this
      ensures Valid()
      ensures
        var previous := if isTemporary then old(dashboardTemporaryFilters) else old(dashboardFilters);
        && (isTemporary ==>
              dashboardTemporaryFilters == RemoveDimension(previous, index)
              && dashboardFilters == old(dashboardFilters))
        && (!isTemporary ==>
              dashboardFilters == RemoveDimension(previous, index)
              && dashboardTemporaryFilters == old(dashboardTemporaryFilters))
        && overrides == (if !isTemporary && 0 <= index < |previous.dimensions|
                         then old(overrides) - {previous.dimensions[index].id}
                         else old(overrides))
      ensures haveFiltersChanged
      ensures dashboard == old(dashboard) && originalDashboardFilters == old(originalDashboardFilters)
      ensures resultsCacheTimes == old(resultsCacheTimes) && invalidateCache == old(invalidateCache)
      ensures dateZoomGranularity == old(dateZoomGranularity)
    {
      var previousFilters := if isTemporary then dashboardTemporaryFilters else dashboardFilters;
      if !isTemporary && 0 <= index < |previousFilters.dimensions| {
        overrides := ApplyOverrideAction(overrides, RemoveOverride, previousFilters.dimensions[index]);
      }
      var updated := RemoveDimension(previousFilters, index);
      if isTemporary {
        dashboardTemporaryFilters := updated;
      } else {
        dashboardFilters := updated;
      }
      haveFiltersChanged := true;
    }

    method AddResultsCacheTime(cacheMetadata: CacheMetadata)
      modifies this
      ensures resultsCacheTimes == RecordCacheTime(old(resultsCacheTimes), cacheMetadata)
      ensures invalidateCache == old(invalidateCache)
      ensures dashboard == old(dashboard) && dashboardFilters == old(dashboardFilters)
      ensures dashboardTemporaryFilters == old(dashboardTemporaryFilters)
      ensures originalDashboardFilters == old(originalDashboardFilters)
      ensures overrides == old(overrides) && haveFiltersChanged == old(haveFiltersChanged)
      ensures dateZoomGranularity == old(dateZoomGranularity)
    {
      if cacheMetadata.cacheHit && cacheMetadata.cacheUpdatedTime.Some? {
        resultsCacheTimes := resultsCacheTimes + [cacheMetadata.cacheUpdatedTime.value];
      }
    }

    /** Forgets every cache time and asks for fresh results. */
    method ClearCacheAndFetch()
      modifies this
      ensures resultsCacheTimes == [] && invalidateCache
      ensures OldestCacheTime(resultsCacheTimes).None?
      ensures dashboard == old(dashboard) && dashboardFilters == old(dashboardFilters)
      ensures dashboardTemporaryFilters == old(dashboardTemporaryFilters)
      ensures originalDashboardFilters == old(originalDashboardFilters)
      ensures overrides == old(overrides) && haveFiltersChanged == old(haveFiltersChanged)
      ensures dateZoomGranularity == old(dateZoomGranularity)
    {
      resultsCacheTimes := [];
      invalidateCache := true;
    }

    /**
     * The mount step: restores the date zoom from the URL parameters, takes
     * (and deletes) the unsaved filters handed over in session storage, and
     * installs the temporary filters decoded from the URL, if any.
     */
    method RestoreFromUrlAndStorage(params: map<string, string>, storage: map<string, DashboardFilters>,
                                    urlTemporaryFilters: Option<DashboardFilters>)
      returns (storageAfter: map<string, DashboardFilters>)
      requires Valid()
      modifies this
      ensures Valid()
      ensures dateZoomGranularity ==
        (if ReadDateZoomParam(params).Some? then ReadDateZoomParam(params) else old(dateZoomGranularity))
      ensures storageAfter == TakeSessionItem(storage, UnsavedFiltersKey).1
      ensures dashboardFilters == (if UnsavedFiltersKey in storage then storage[UnsavedFiltersKey]
                                   else old(dashboardFilters))
      ensures dashboardTemporaryFilters == urlTemporaryFilters.GetOr(old(dashboardTemporaryFilters))
      ensures dashboard == old(dashboard) && originalDashboardFilters == old(originalDashboardFilters)
      ensures overrides == old(overrides) && haveFiltersChanged == old(haveFiltersChanged)
      ensures resultsCacheTimes == old(resultsCacheTimes) && invalidateCache == old(invalidateCache)
    {
      var dateZoom := ReadDateZoomParam(params);
      if dateZoom.Some? {
        dateZoomGranularity := dateZoom;
      }
      var taken := TakeSessionItem(storage, UnsavedFiltersKey);
      storageAfter := taken.1;
      if taken.0.Some? {
        dashboardFilters := taken.0.value;
      }
      if urlTemporaryFilters.Some? {
        dashboardTemporaryFilters := urlTemporaryFilters.value;
      }
    }
  }
}
