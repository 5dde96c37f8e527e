/**
 * The dashboard filter records the core works on: a filter rule, its operator
 * and values, and the three per-category rule lists of a dashboard.
 */
module FilterRules {
  import opened Wrappers
  import opened Dates

  /** Every member of the filter-operator enumeration. */
  datatype FilterOperator =
    | Null | NotNull
    | Equals | NotEquals | StartsWith | EndsWith | Include | NotInclude
    | LessThan | LessThanOrEqual | GreaterThan | GreaterThanOrEqual
    | InThePast | NotInThePast | InTheNext | InTheCurrent
    | InBetween

  /** An element of a rule's `values` list (typed `any` in the source). */
  datatype FilterValue =
    | StringValue(str: string)
    | NumberValue(num: int)
    | BooleanValue(flag: bool)
    | DateValue(date: Date)
    | NullValue
    | UndefinedValue

  /** JavaScript truthiness (`Boolean(v)`) of a value. */
  predicate Truthy(v: FilterValue)
  {
    match v
    case StringValue(s) => s != ""
    case NumberValue(n) => n != 0
    case BooleanValue(b) => b
    case DateValue(_) => true
    case NullValue => false
    case UndefinedValue => false
  }

  /** The settings object of a relative-time rule. */
  datatype RelativeTimeSettings = RelativeTimeSettings(unitOfTime: string, completed: bool)

  /** The field a rule filters on. */
  datatype FieldTarget = FieldTarget(fieldId: string, tableName: string)

  /**
   * A dashboard filter rule. Optional properties are `Option`s: `None` is an
   * absent (undefined) property.
   */
  datatype FilterRule = FilterRule(
    id: string,
    target: FieldTarget,
    tileTargets: map<string, FieldTarget>,
    operator: FilterOperator,
    values: Option<seq<FilterValue>>,
    settings: Option<RelativeTimeSettings>,
    disabled: Option<bool>,
    labelText: Option<string>)

  /** `rule.disabled` read as a condition: only `true` is truthy. */
  predicate IsDisabled(rule: FilterRule)
  {
    rule.disabled == Some(true)
  }

  /** The three ordered rule lists of a dashboard. */
  datatype DashboardFilters = DashboardFilters(
    dimensions: seq<FilterRule>,
    metrics: seq<FilterRule>,
    tableCalculations: seq<FilterRule>)

  const EmptyFilters := DashboardFilters([], [], [])
}
