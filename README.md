# Dashboard filter logic, modelled in Dafny

This project models the filter logic of a BI dashboard's front end. It has two parts.

- **Filter-rule predicates** of the filter configuration panel
  (`FilterConfiguration/utils/index.ts`):
  - `isFilterEnabled` decides whether a rule is active. It checks the disabled flag, the edit-mode and
    creating-new flags, and then the rule's operator.
  - `getFilterRuleRevertableObject` projects a rule onto the five properties a revert restores.
  - `hasSavedFilterValueChanged` compares an original saved rule with an edited rule on that projection.
    Before comparing, it turns Date values in the edited rule into their saved string form.
- **The dashboard provider's filter state** (`DashboardProvider.tsx`). This is modelled as the class
  `DashboardProviderState.DashboardProvider`. It holds:
  - the saved and the temporary `DashboardFilters`, each made of dimension, metric and table-calculation rules;
  - the saved filters as loaded;
  - the saved-filter override store, keyed by rule id;
  - `haveFiltersChanged`;
  - the results-cache timestamps and `invalidateCache`;
  - the date-zoom granularity.

  Each callback is a method. Its postcondition gives the whole new state in terms of pure updaters: the
  functions the source hands to its state setters. Those updaters, `allFilters`, the override decision of
  an update, the oldest cache time, the saved-chart list, and the date-zoom URL encoding are functions.
  Lemmas relate them to one another.

Modules, one per concern:

| file | module | models |
|---|---|---|
| wrappers.dfy | `Wrappers` | `Option`, standing for `undefined` |
| dates.dfy | `Dates` | `Date` as a time value; `toISOString` as an injective rendering |
| filter_rules.dfy | `FilterRules` | operators, values and truthiness, filter rules, `DashboardFilters` |
| filter_configuration_utils.dfy | `FilterConfigurationUtils` | the three utils functions |
| dashboard_filters.dfy | `DashboardFilterUpdates` | JavaScript `slice`, the add/update/remove updaters, `allFilters`, the override decision |
| dashboard_tiles.dfy | `DashboardTiles` | `savedChartUuidsAndTileUuids`, `hasChartTiles` |
| cache_times.dfy | `CacheTimes` | recording cache times; `min` of them |
| mount_restore.dfy | `MountRestore` | the `dateZoom` URL parameter; the session-storage handoff |
| dashboard_provider.dfy | `DashboardProviderState` | the provider's state and callbacks |

The provider imports `isFilterConfigRevertButtonEnabled as hasSavedFilterValueChanged`
(DashboardProvider.tsx:31). The utils module exports only `hasSavedFilterValueChanged` (utils/index.ts:67).
The model uses that function at both call sites (DashboardProvider.tsx:436 and :443).

Edge cases of the code that the model keeps:

- `hasSavedFilterValueChanged` serialises the dates of the edited rule but not of the original. So a rule
  that still holds a Date value counts as changed even when compared with itself
  (`DateValuedRuleDiffersFromItself`).
- An update of the saved set in view mode can name a position that has no rule. If that update is not a
  revert, the source passes `undefined` to the comparison, and the comparison reads `.disabled` of it and
  throws. The model returns the action `MissingPreviousRule`, and `UpdateDimensionDashboardFilter` then
  reports `ok == false`.
- Indices are integers with JavaScript `slice` semantics: a negative bound counts back from the end.
- `tile.properties.savedChartUuid` is tested for truthiness, so an empty chart id is skipped like a missing one.

## Model

| member | source | states |
|---|---|---|
| `FilterConfigurationUtils.IsFilterEnabled` | packages/frontend/src/components/DashboardFilter/FilterConfiguration/utils/index.ts:9-53 | A missing rule is never enabled. A disabled rule in edit mode or not being created is always enabled. Otherwise: null checks are always enabled; the ten value-list operators iff `values` exists and is non-empty; the four relative-time operators iff `settings` exists; `IN_BETWEEN` iff `values` has exactly two elements, both truthy |
| `FilterConfigurationUtils.GetFilterRuleRevertableObject` | packages/frontend/src/components/DashboardFilter/FilterConfiguration/utils/index.ts:55-65 | The projection carries the rule's `disabled`, `values`, `operator`, `settings` and `label` unchanged, and nothing else |
| `FilterConfigurationUtils.RevertableObjectsAgree` | packages/frontend/src/components/DashboardFilter/FilterConfiguration/utils/index.ts:55-65 | Two rules have equal revertable objects iff they agree on `disabled`, `values`, `operator`, `settings` and `label`; `id`, `target` and `tileTargets` play no part |
| `FilterConfigurationUtils.SerializeValue` | packages/frontend/src/components/DashboardFilter/FilterConfiguration/utils/index.ts:79-81 | The serialised value is never a Date; a value that is not a Date is kept as it is |
| `FilterConfigurationUtils.SerializeDateValues` | packages/frontend/src/components/DashboardFilter/FilterConfiguration/utils/index.ts:77-83 | The copy differs from the rule only in `values`. It has values exactly when the rule does, of the same length, each one serialised. It holds no Date. A rule without dates is returned unchanged |
| `FilterConfigurationUtils.HasSavedFilterValueChanged` | packages/frontend/src/components/DashboardFilter/FilterConfiguration/utils/index.ts:71-73 | A disabled original whose edited rule has no `values` is never reported as changed |
| `FilterConfigurationUtils.ChangedIffRevertableDiffers` | packages/frontend/src/components/DashboardFilter/FilterConfiguration/utils/index.ts:67-89 | Past the early exit, a change is reported exactly when the rules differ in `disabled`, `operator`, `settings` or `label`, or when the original's values are not the edited values with each Date replaced by its ISO string |
| `FilterConfigurationUtils.ChangedIffFieldsDiffer` | packages/frontend/src/components/DashboardFilter/FilterConfiguration/utils/index.ts:85-88 | For an edited rule without Date values, past the early exit, a change is reported exactly when the two rules differ in any of the five revertable properties |
| `FilterConfigurationUtils.ChangeIgnoresNonRevertableFields` | packages/frontend/src/components/DashboardFilter/FilterConfiguration/utils/index.ts:85-88 | Rules with equal revertable objects give equal answers, on either side of the comparison |
| `FilterConfigurationUtils.UnchangedAgainstItself` | packages/frontend/src/components/DashboardFilter/FilterConfiguration/utils/index.ts:67-89 | A rule without Date values has not changed with respect to itself |
| `FilterConfigurationUtils.DateEqualsItsSavedForm` | packages/frontend/src/components/DashboardFilter/FilterConfiguration/utils/index.ts:75-88 | An edited Date compares equal to its ISO string in the original, position by position, when all other revertable properties agree |
| `FilterConfigurationUtils.DifferentDateIsChanged` | packages/frontend/src/components/DashboardFilter/FilterConfiguration/utils/index.ts:77-88 | An edited Date for a different instant than the saved date string is reported as changed |
| `FilterConfigurationUtils.DateValuedRuleDiffersFromItself` | packages/frontend/src/components/DashboardFilter/FilterConfiguration/utils/index.ts:77-88 | A rule holding a Date value is reported as changed against itself, because only the edited side is serialised |
| `Dates.Decimal` | packages/frontend/src/components/DashboardFilter/FilterConfiguration/utils/index.ts:80 | The rendering of a time value is a non-empty string of digits; it has one digit exactly for values below ten |
| `Dates.DecimalInjective` | packages/frontend/src/components/DashboardFilter/FilterConfiguration/utils/index.ts:80 | Different time values have different digit strings |
| `Dates.IsoString` | packages/frontend/src/components/DashboardFilter/FilterConfiguration/utils/index.ts:80 | The saved form of a date is a non-empty string; in this decimal stand-in for `toISOString`, a leading minus sign marks a negative time value (a fact of the stand-in, not of calendar ISO strings) |
| `Dates.IsoStringInjective` | packages/frontend/src/components/DashboardFilter/FilterConfiguration/utils/index.ts:80 | `toISOString` is injective: equal saved forms mean equal dates |
| `DashboardFilterUpdates.SliceBound` | packages/frontend/src/providers/DashboardProvider.tsx:456-458 | A slice bound lies within the list: a non-negative bound is clamped to the length, a negative one counts back from the end and is clamped at zero |
| `DashboardFilterUpdates.Slice` | packages/frontend/src/providers/DashboardProvider.tsx:502-503 | A slice is no longer than the list; with 0 <= start <= end it is the clamped subsequence |
| `DashboardFilterUpdates.At` | packages/frontend/src/providers/DashboardProvider.tsx:435-437 | An element is found exactly for an index inside the list, and it is the element at that index |
| `DashboardFilterUpdates.AddDimension` | packages/frontend/src/providers/DashboardProvider.tsx:404-408 | The rule is appended after all existing dimension rules; metrics and table calculations are unchanged |
| `DashboardFilterUpdates.AddMetric` | packages/frontend/src/providers/DashboardProvider.tsx:479-483 | The rule is appended after all existing metric rules; dimensions and table calculations are unchanged |
| `DashboardFilterUpdates.UpdateDimension` | packages/frontend/src/providers/DashboardProvider.tsx:454-462 | Inside the list, the length is kept, the index holds the new rule, and every other position is unchanged. At or past the end, the rule is appended. At index -1 of a non-empty list, JavaScript's negative slice bound duplicates the list around the new rule. Other categories are unchanged |
| `DashboardFilterUpdates.RemoveDimension` | packages/frontend/src/providers/DashboardProvider.tsx:500-506 | Inside the list, the length drops by one and the remaining rules keep their order. At or past the end, nothing changes. At index -1 of a non-empty list, the list without its last rule is followed by the whole list |
| `DashboardFilterUpdates.AllFilters` | packages/frontend/src/providers/DashboardProvider.tsx:373-388 | Per category, the length is the sum of the two lengths, saved rules come first in order, and temporary rules follow in order: the two are never interleaved |
| `DashboardFilterUpdates.AddTemporaryDimensionAppendsToAll` | packages/frontend/src/providers/DashboardProvider.tsx:373-388 | Adding a temporary dimension rule appends it to the end of the merged list |
| `DashboardFilterUpdates.AddSavedDimensionInsertsAtBoundary` | packages/frontend/src/providers/DashboardProvider.tsx:373-388 | Adding a saved dimension rule inserts it between the saved and the temporary rules of the merged list |
| `DashboardFilterUpdates.AddDimensionKeepsOtherKinds` | packages/frontend/src/providers/DashboardProvider.tsx:399-412 | Adding a dimension rule, saved or temporary, leaves the merged metrics and table calculations unchanged |
| `DashboardFilterUpdates.RemoveUndoesAdd` | packages/frontend/src/providers/DashboardProvider.tsx:489-512 | Removing the last-added dimension rule restores the filters |
| `DashboardFilterUpdates.RemoveAfterUpdate` | packages/frontend/src/providers/DashboardProvider.tsx:454-462 | Updating a position inside the list and then removing it equals removing it |
| `DashboardFilterUpdates.IsFilterSaved` | packages/frontend/src/providers/DashboardProvider.tsx:425-427 | True iff the dashboard is loaded and the item's id is among the ids of its saved dimension rules |
| `DashboardFilterUpdates.IsReverted` | packages/frontend/src/providers/DashboardProvider.tsx:434-439 | A revert needs an original rule at `index`. For an edit without Date values and past the early exit, it is a revert exactly when the edit's revertable object equals the original's |
| `DashboardFilterUpdates.OverrideDecision` | packages/frontend/src/providers/DashboardProvider.tsx:425-453 | In order: a temporary target keeps the overrides; edit mode removes the override; a revert to the original rule at `index` removes it. Otherwise an override is added iff the rule changed from its previous value and its id is among the dashboard's saved dimensions. A missing previous rule is the throwing case |
| `DashboardFilterUpdates.ChangedSavedRuleAddsOverride` | packages/frontend/src/providers/DashboardProvider.tsx:434-450 | A view-mode edit of a saved dimension rule that differs from both its original and its previous value adds an override |
| `DashboardFilterUpdates.ApplyOverrideAction` | packages/frontend/src/providers/DashboardProvider.tsx:429-453 | Adding stores the rule under its id, removing drops its id, and every other id is untouched |
| `DashboardFilterUpdates.RevertingDropsOverride` | packages/frontend/src/providers/DashboardProvider.tsx:434-441 | Setting a saved rule back to its original (date-free) value in view mode leaves no override for its id |
| `DashboardTiles.CollectSavedCharts` | packages/frontend/src/providers/DashboardProvider.tsx:180-197 | Every entry comes from a chart tile with a truthy saved-chart id, and every such tile contributes its entry |
| `DashboardTiles.SavedChartUuidsAndTileUuids` | packages/frontend/src/providers/DashboardProvider.tsx:180-197 | The list is defined exactly when the tiles are, and then it is the collected saved charts of the tiles |
| `DashboardTiles.CollectSavedChartsDistributes` | packages/frontend/src/providers/DashboardProvider.tsx:184-195 | Entries keep tile order: collecting over two runs of tiles equals collecting each run in turn |
| `DashboardTiles.CollectSkipsTile` | packages/frontend/src/providers/DashboardProvider.tsx:186-191 | A tile that is not a chart, or has no saved-chart id, contributes nothing |
| `DashboardTiles.ChartTiles` | packages/frontend/src/providers/DashboardProvider.tsx:394 | The filter keeps exactly the chart tiles, as a set (membership in both directions; order and multiplicity are not stated, and `hasChartTiles` needs neither) |
| `DashboardTiles.HasChartTiles` | packages/frontend/src/providers/DashboardProvider.tsx:390-397 | True iff the tiles are known and at least one is a chart tile |
| `CacheTimes.RecordCacheTime` | packages/frontend/src/providers/DashboardProvider.tsx:514-522 | A time is appended only for a cache hit that carries a time; otherwise the list is unchanged |
| `CacheTimes.OldestCacheTime` | packages/frontend/src/providers/DashboardProvider.tsx:531-534 | Undefined iff there are no times; otherwise a recorded time that is no later than any other |
| `CacheTimes.OldestAfterRecord` | packages/frontend/src/providers/DashboardProvider.tsx:514-534 | After recording a time, the oldest is the earlier of the previous oldest and the new time |
| `MountRestore.LowerChar` | packages/frontend/src/providers/DashboardProvider.tsx:293 | An upper-case ASCII letter becomes the corresponding lower-case letter; other characters are kept |
| `MountRestore.ToLowerCase` | packages/frontend/src/providers/DashboardProvider.tsx:165 | Lower-casing keeps the length and lower-cases each character |
| `MountRestore.ToLowerCaseIdempotent` | packages/frontend/src/providers/DashboardProvider.tsx:293 | Lower-casing twice is lower-casing once |
| `MountRestore.EncodedNames` | packages/frontend/src/providers/DashboardProvider.tsx:165 | The five granularities are written as `day`, `week`, `month`, `quarter` and `year` |
| `MountRestore.EncodeDateZoom` | packages/frontend/src/providers/DashboardProvider.tsx:165 | The written value has the granularity name's length and is already lower-case |
| `MountRestore.FindGranularity` | packages/frontend/src/providers/DashboardProvider.tsx:291-294 | A found granularity is a candidate whose lower-cased name equals the lower-cased parameter. Nothing is found only when no candidate matches |
| `MountRestore.DecodeDateZoom` | packages/frontend/src/providers/DashboardProvider.tsx:289-296 | A decoded granularity comes from a non-empty parameter whose lower-cased form is that granularity's written value; a non-empty parameter decodes to nothing only when no granularity's written value matches it |
| `MountRestore.ReadDateZoomParam` | packages/frontend/src/providers/DashboardProvider.tsx:289-296 | A granularity is restored only from a present `dateZoom` parameter that matches its written value after lower-casing. A present parameter is decoded case-insensitively, and no parameter restores nothing |
| `MountRestore.DateZoomRoundTrip` | packages/frontend/src/providers/DashboardProvider.tsx:289-296 | Reading back the lower-cased granularity recovers that granularity |
| `MountRestore.DecodeIgnoresCase` | packages/frontend/src/providers/DashboardProvider.tsx:289-296 | Parameters that agree after lower-casing decode to the same granularity |
| `MountRestore.FindIgnoresCase` | packages/frontend/src/providers/DashboardProvider.tsx:291-294 | The search gives the same answer for parameters that agree after lower-casing |
| `MountRestore.WriteDateZoomParam` | packages/frontend/src/providers/DashboardProvider.tsx:160-166 | An unset granularity deletes `dateZoom`, a set one stores its lower-cased name, and other parameters are untouched |
| `MountRestore.DateZoomUrlRoundTrip` | packages/frontend/src/providers/DashboardProvider.tsx:160-166 | What the URL effect writes is what the mount step restores, for a set and an unset granularity alike |
| `MountRestore.TakeSessionItem` | packages/frontend/src/providers/DashboardProvider.tsx:300-304 | The item is returned iff stored; the key is gone afterwards and other keys are untouched |
| `MountRestore.TakeSessionItemOnce` | packages/frontend/src/providers/DashboardProvider.tsx:300-304 | The handoff is one-shot: a second read finds nothing |
| `DashboardProviderState.DashboardProvider.constructor` | packages/frontend/src/providers/DashboardProvider.tsx:139-157 | Initial state: the loaded filters (or none), empty temporary filters, no overrides, no cache times, no invalidation, no date zoom |
| `DashboardProviderState.DashboardProvider.AddDimensionDashboardFilter` | packages/frontend/src/providers/DashboardProvider.tsx:399-412 | Only the chosen set's dimensions change, by appending; `haveFiltersChanged` becomes true; all other state is unchanged. In `allFilters`, a temporary rule lands at the end of the dimensions and a saved one between the saved and the temporary rules |
| `DashboardProviderState.DashboardProvider.AddMetricDashboardFilter` | packages/frontend/src/providers/DashboardProvider.tsx:474-487 | Only the chosen set's metrics change, by appending; `haveFiltersChanged` becomes true; all other state is unchanged. `allFilters` gains the rule in its metrics and keeps its dimensions and table calculations |
| `DashboardProviderState.DashboardProvider.UpdateDimensionDashboardFilter` | packages/frontend/src/providers/DashboardProvider.tsx:414-472 | The chosen set is updated at `index` and the override store follows `OverrideDecision`. In the throwing case nothing changes. Every override stays keyed by its own rule and refers to a saved dimension |
| `DashboardProviderState.DashboardProvider.RemoveDimensionDashboardFilter` | packages/frontend/src/providers/DashboardProvider.tsx:489-512 | The chosen set loses the rule at `index`. Only a removal from the saved set, at a valid index, drops that rule's override |
| `DashboardProviderState.DashboardProvider.AddResultsCacheTime` | packages/frontend/src/providers/DashboardProvider.tsx:514-522 | The cache times follow `RecordCacheTime`; nothing else changes |
| `DashboardProviderState.DashboardProvider.ClearCacheAndFetch` | packages/frontend/src/providers/DashboardProvider.tsx:524-534 | The cache times are emptied, `invalidateCache` is set, and the oldest cache time becomes undefined |
| `DashboardProviderState.DashboardProvider.RestoreFromUrlAndStorage` | packages/frontend/src/providers/DashboardProvider.tsx:285-321 | A matching `dateZoom` parameter sets the granularity. The session's unsaved filters, if any, replace the saved set, and the item is deleted. Decoded URL temporary filters, if any, replace the temporary set |

## Left out

- packages/frontend/src/pages/Login.tsx: form rendering, the login request, redirects and demo auto-login. All of it is UI and I/O.
- packages/frontend/src/components/UserSettings/UserManagementPanel/index.tsx: a table and modal UI over server mutations.
- React machinery: context creation, effect scheduling and ordering, and `useMemo`/`useCallback` caching.
- The dashboard-loaded effect (DashboardProvider.tsx:199-224) and the override re-application effect (DashboardProvider.tsx:269-282). They rest on the reference-identity check `dashboardFilters === emptyFilters` and on `applyDimensionOverrides`, whose body is not part of this model. The constructor stands for the state after loading with no overrides stored.
- The temporary-filter URL effect (DashboardProvider.tsx:227-267): `compressDashboardFiltersToParam` and `JSON.stringify` are not part of this model. So are `URLSearchParams` and `history.replace`. URL parameters are a `map<string, string>`.
- Decoding the `tempFilters` URL parameter (`convertDashboardFiltersParamToDashboardFilters`, `JSON.parse`). The mount step takes the decoded filters as a parameter. Session storage holds already-parsed filters.
- The override hook (`useSavedDashboardFiltersOverrides`) is not part of this model. Its store is a map from rule id to rule, and the model starts it empty rather than reading it from the URL.
- Data fetching: `useDashboardQuery`, `useDashboardsAvailableFilters`, and the values derived only from their results: `filterableFieldsByTileUuid`, `fieldsWithSuggestions`, `allFilterableFields`, and the loading and fetching flags.
- Plain state pass-throughs with no logic: tiles, `haveTilesChanged`, `chartSort`, `chartsWithDateZoomApplied`, and the raw setters.
- `isDashboardChartTileType` and `DateGranularity` come from the common package, which is not part of this model.
  - A chart tile is the saved-chart tile kind.
  - The granularities are taken to be Day, Week, Month, Quarter and Year, in that order.
- Dates are time values in milliseconds. `toISOString` is rendered as the signed decimal time value: an injective stand-in without calendar formatting. Invalid dates are not modelled.
- Filter values are typed `any` in the source. The model covers strings, integer numbers, booleans, Dates, `null` and `undefined`. Floating point (including `NaN`), nested objects and arrays are not modelled. `settings` is a relative-time settings record, so a falsy non-object `settings` is not modelled.
- Metric rules use the same record as dimension rules; their different target shape plays no part in the logic modelled.
- Dates.IsoString: the decimal stand-in promises only non-emptiness and injectivity of `toISOString`; its sign clause describes the stand-in, since real ISO strings carry a sign only for years before 0.
- MountRestore.LowerChar, MountRestore.ToLowerCase: only ASCII letters are lowered, because the model has no Unicode case tables. A non-ASCII capital that JavaScript's `toLowerCase` maps onto an ASCII letter is kept as it is, so a `dateZoom` parameter such as `WEE\u212A` (with the Kelvin sign) restores Week in the program but decodes to None in the model.
- UpdateDimensionDashboardFilter: in the throwing case the model leaves the state unchanged and returns `ok == false`. How React surfaces the exception from the state updater is not modelled.
- RemoveDimensionDashboardFilter: at an index with no rule, the source calls `removeSavedFilterOverride(undefined)`. The hook's response is not shown, so the model leaves the override store unchanged there.
