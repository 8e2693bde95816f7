/**
 * `WildberriesSupplyDataProcessor.apply_filters` (app/api_data_processor.py):
 * a chain of optional row filters over a data frame, modelled as a sequence of
 * rows. Dates are day numbers, since the filters only compare them.
 */
module ApiDataProcessor {
  import opened Wrappers
  import opened Seqs
  import opened Dto

  /** One row of the frame, with the columns the filters read. */
  datatype Row = Row(date: int, warehouseName: string, boxType: string, coefficient: int)

  /** The `dates` argument: an explicit list, or an inclusive period. */
  datatype DateFilter = DateList(dates: seq<int>) | DateRange(period: TimePeriod)

  predicate DateMatches(r: Row, f: DateFilter) {
    match f
    case DateList(ds) => r.date in ds
    case DateRange(p) => p.startDate <= r.date <= p.endDate
  }

  /** `[bt.value for bt in box_type_names]`. */
  function BoxTypeValues(boxTypeNames: seq<DeliveryType>): seq<string> {
    Map(boxTypeNames, (bt: DeliveryType) => bt.Value())
  }

  /** The conjunction of the filters that are switched on. */
  predicate Satisfies(
    r: Row,
    dates: Option<DateFilter>,
    warehouseNames: Option<seq<string>>,
    boxTypeNames: Option<seq<DeliveryType>>,
    coefficientLess: Option<int>,
    removeUnavailable: bool)
  {
    && (dates.Some? ==> DateMatches(r, dates.value))
    && (warehouseNames.Some? ==> r.warehouseName in warehouseNames.value)
    && (boxTypeNames.Some? ==> r.boxType in BoxTypeValues(boxTypeNames.value))
    && (coefficientLess.Some? ==> r.coefficient < coefficientLess.value)
    && (removeUnavailable ==> r.coefficient != -1)
  }

  /** The five filters in the source's order, each applied only when its argument is given. */
  function ApplyFilters(
    df: seq<Row>,
    dates: Option<DateFilter>,
    warehouseNames: Option<seq<string>>,
    boxTypeNames: Option<seq<DeliveryType>>,
    coefficientLess: Option<int>,
    removeUnavailable: bool): seq<Row>
  {
    var byDate :=
      if dates.Some? then Filter(df, (r: Row) => DateMatches(r, dates.value)) else df;
    var byWarehouse :=
      if warehouseNames.Some? then Filter(byDate, (r: Row) => r.warehouseName in warehouseNames.value) else byDate;
    var byBoxType :=
      if boxTypeNames.Some? then Filter(byWarehouse, (r: Row) => r.boxType in BoxTypeValues(boxTypeNames.value)) else byWarehouse;
    var byCoefficient :=
      if coefficientLess.Some? then Filter(byBoxType, (r: Row) => r.coefficient < coefficientLess.value) else byBoxType;
    if removeUnavailable then Filter(byCoefficient, (r: Row) => r.coefficient != -1) else byCoefficient
  }

  /**
   * One optional stage on top of a filtered sequence is one filter on the
   * conjunction of the conditions so far and the stage's own, when it is on.
   */
  lemma FilterThen<T>(base: seq<T>, sofar: T -> bool, active: bool, p: T -> bool, next: T -> bool)
    requires forall x :: next(x) == (sofar(x) && (active ==> p(x)))
    ensures (if active then Filter(Filter(base, sofar), p) else Filter(base, sofar)) == Filter(base, next)
  {
    if active {
      FilterFusion(base, sofar, p);
      FilterExtensional(base, x => sofar(x) && p(x), next);
    } else {
      FilterExtensional(base, sofar, next);
    }
  }

  /** The chain equals one filter on the conjunction of the active conditions. */
  lemma {:induction false} ApplyFiltersIsConjunction(
    df: seq<Row>,
    dates: Option<DateFilter>,
    warehouseNames: Option<seq<string>>,
    boxTypeNames: Option<seq<DeliveryType>>,
    coefficientLess: Option<int>,
    removeUnavailable: bool)
    ensures ApplyFilters(df, dates, warehouseNames, boxTypeNames, coefficientLess, removeUnavailable)
         == Filter(df, (r: Row) => Satisfies(r, dates, warehouseNames, boxTypeNames, coefficientLess, removeUnavailable))
  {
    var c0 := (r: Row) => true;
    FilterKeepsAll(df, c0);
    var byDate :=
      if dates.Some? then Filter(df, (r: Row) => DateMatches(r, dates.value)) else df;
    var p1 := if dates.Some? then (r: Row) => DateMatches(r, dates.value) else c0;
    var c1 := (r: Row) => Satisfies(r, dates, None, None, None, false);
    FilterThen(df, c0, dates.Some?, p1, c1);
    assert byDate == Filter(df, c1);
    var byWarehouse :=
      if warehouseNames.Some? then Filter(byDate, (r: Row) => r.warehouseName in warehouseNames.value) else byDate;
    var p2 := if warehouseNames.Some? then (r: Row) => r.warehouseName in warehouseNames.value else c0;
    var c2 := (r: Row) => Satisfies(r, dates, warehouseNames, None, None, false);
    FilterThen(df, c1, warehouseNames.Some?, p2, c2);
    assert byWarehouse == Filter(df, c2);
    var byBoxType :=
      if boxTypeNames.Some? then Filter(byWarehouse, (r: Row) => r.boxType in BoxTypeValues(boxTypeNames.value)) else byWarehouse;
    var p3 := if boxTypeNames.Some? then (r: Row) => r.boxType in BoxTypeValues(boxTypeNames.value) else c0;
    var c3 := (r: Row) => Satisfies(r, dates, warehouseNames, boxTypeNames, None, false);
    FilterThen(df, c2, boxTypeNames.Some?, p3, c3);
    assert byBoxType == Filter(df, c3);
    var byCoefficient :=
      if coefficientLess.Some? then Filter(byBoxType, (r: Row) => r.coefficient < coefficientLess.value) else byBoxType;
    var p4 := if coefficientLess.Some? then (r: Row) => r.coefficient < coefficientLess.value else c0;
    var c4 := (r: Row) => Satisfies(r, dates, warehouseNames, boxTypeNames, coefficientLess, false);
    FilterThen(df, c3, coefficientLess.Some?, p4, c4);
    assert byCoefficient == Filter(df, c4);
    var p5 := (r: Row) => r.coefficient != -1;
    var c5 := (r: Row) => Satisfies(r, dates, warehouseNames, boxTypeNames, coefficientLess, removeUnavailable);
    FilterThen(df, c4, removeUnavailable, p5, c5);
    assert (if removeUnavailable then Filter(byCoefficient, p5) else byCoefficient) == Filter(df, c5);
  }

  /**
   * The result keeps the input's order and holds each row exactly as often as
   * the input does when it passes every active filter, and not at all otherwise;
   * with no filter given it is the input.
   */
  lemma ApplyFiltersResult(
    df: seq<Row>,
    dates: Option<DateFilter>,
    warehouseNames: Option<seq<string>>,
    boxTypeNames: Option<seq<DeliveryType>>,
    coefficientLess: Option<int>,
    removeUnavailable: bool)
    ensures var r := ApplyFilters(df, dates, warehouseNames, boxTypeNames, coefficientLess, removeUnavailable);
      && IsSubsequence(r, df)
      && (forall x :: multiset(r)[x]
            == if Satisfies(x, dates, warehouseNames, boxTypeNames, coefficientLess, removeUnavailable)
               then multiset(df)[x] else 0)
      && (forall i :: 0 <= i < |r| ==> Satisfies(r[i], dates, warehouseNames, boxTypeNames, coefficientLess, removeUnavailable))
    ensures ApplyFilters(df, None, None, None, None, false) == df
  {
    var p := (r: Row) => Satisfies(r, dates, warehouseNames, boxTypeNames, coefficientLess, removeUnavailable);
    ApplyFiltersIsConjunction(df, dates, warehouseNames, boxTypeNames, coefficientLess, removeUnavailable);
    FilterIsSubsequence(df, p);
    forall x {
      FilterCount(df, p, x);
    }
  }

  /** Applying the same filters a second time changes nothing. */
  lemma ApplyFiltersIdempotent(
    df: seq<Row>,
    dates: Option<DateFilter>,
    warehouseNames: Option<seq<string>>,
    boxTypeNames: Option<seq<DeliveryType>>,
    coefficientLess: Option<int>,
    removeUnavailable: bool)
    ensures var once := ApplyFilters(df, dates, warehouseNames, boxTypeNames, coefficientLess, removeUnavailable);
      ApplyFilters(once, dates, warehouseNames, boxTypeNames, coefficientLess, removeUnavailable) == once
  {
    var p := (r: Row) => Satisfies(r, dates, warehouseNames, boxTypeNames, coefficientLess, removeUnavailable);
    ApplyFiltersIsConjunction(df, dates, warehouseNames, boxTypeNames, coefficientLess, removeUnavailable);
    ApplyFiltersIsConjunction(Filter(df, p), dates, warehouseNames, boxTypeNames, coefficientLess, removeUnavailable);
    FilterIdempotent(df, p);
  }

  /**
   * The filters can be split into two calls, in either order: the date and
   * warehouse filters first and the rest after, or the other way round.
   */
  lemma ApplyFiltersOrderIrrelevant(
    df: seq<Row>,
    dates: Option<DateFilter>,
    warehouseNames: Option<seq<string>>,
    boxTypeNames: Option<seq<DeliveryType>>,
    coefficientLess: Option<int>,
    removeUnavailable: bool)
    ensures var all := ApplyFilters(df, dates, warehouseNames, boxTypeNames, coefficientLess, removeUnavailable);
      && ApplyFilters(ApplyFilters(df, dates, warehouseNames, None, None, false), None, None, boxTypeNames, coefficientLess, removeUnavailable) == all
      && ApplyFilters(ApplyFilters(df, None, None, boxTypeNames, coefficientLess, removeUnavailable), dates, warehouseNames, None, None, false) == all
  {
    var p := (r: Row) => Satisfies(r, dates, warehouseNames, None, None, false);
    var q := (r: Row) => Satisfies(r, None, None, boxTypeNames, coefficientLess, removeUnavailable);
    var pq := (r: Row) => Satisfies(r, dates, warehouseNames, boxTypeNames, coefficientLess, removeUnavailable);
    ApplyFiltersIsConjunction(df, dates, warehouseNames, boxTypeNames, coefficientLess, removeUnavailable);
    ApplyFiltersIsConjunction(df, dates, warehouseNames, None, None, false);
    ApplyFiltersIsConjunction(df, None, None, boxTypeNames, coefficientLess, removeUnavailable);
    ApplyFiltersIsConjunction(Filter(df, p), None, None, boxTypeNames, coefficientLess, removeUnavailable);
    ApplyFiltersIsConjunction(Filter(df, q), dates, warehouseNames, None, None, false);
    FilterFusion(df, p, q);
    FilterExtensional(df, x => p(x) && q(x), pq);
    FilterCommute(df, q, p);
  }

  // ---- The date argument as the source reads it ----

  /**
   * What the source can be handed as `dates`: a `list`, a `TimePeriod`, or
   * another indexable sequence such as a tuple.
   */
  datatype DatesArgument = ListArgument(dates: seq<int>) | PeriodArgument(period: TimePeriod) | TupleArgument(dates: seq<int>)

  datatype FilterError = TypeError | IndexError

  /**
   * The date step exactly as written: a list is a membership test, and anything
   * else is read as `dates[0]` and `dates[-1]`, which a `TimePeriod` (a plain
   * dataclass) does not support.
   */
  function DateStepAsWritten(df: seq<Row>, dates: DatesArgument): Result<seq<Row>, FilterError> {
    match dates
    case ListArgument(ds) => Ok(Filter(df, (r: Row) => r.date in ds))
    case PeriodArgument(_) => Err(TypeError)
    case TupleArgument(ds) =>
      if ds == [] then Err(IndexError)
      else Ok(Filter(df, (r: Row) => ds[0] <= r.date <= ds[|ds| - 1]))
  }

  /** Passing a `TimePeriod`, as the signature allows, always raises, whatever the rows. */
  lemma PeriodArgumentRaises(df: seq<Row>, p: TimePeriod)
    ensures DateStepAsWritten(df, PeriodArgument(p)) == Err(TypeError)
  {
  }

  /**
   * The intended range filter keeps a row exactly when its date lies in the
   * period, both ends included: for the period 1..3, date 3 is kept and 4 is not.
   */
  lemma RangeFilterInclusive(df: seq<Row>, p: TimePeriod)
    ensures forall x :: x in ApplyFilters(df, Some(DateRange(p)), None, None, None, false)
                   <==> x in df && p.startDate <= x.date <= p.endDate
    ensures ApplyFilters([Row(3, "A", "Короба", 0), Row(4, "A", "Короба", 0)],
                         Some(DateRange(TimePeriod(1, 3))), None, None, None, false)
         == [Row(3, "A", "Короба", 0)]
  {
    forall x {
      FilterMembership(df, (r: Row) => DateMatches(r, DateRange(p)), x);
    }
  }
}
