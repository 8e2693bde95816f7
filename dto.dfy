/**
 * The records the bot passes around: delivery types and time periods
 * (app/dto.py), the tracked-warehouse record and the calendar date used by the
 * handlers, one entry of the coefficient feed, and the values the cache holds.
 */
module Dto {
  import opened Wrappers
  import opened Text

  /** The four delivery types and their display strings (`DeliveryType.value`). */
  datatype DeliveryType = Supersafe | Monopallets | Boxes | QrDeliveryWithBoxes {
    function Value(): string {
      match this
      case Supersafe => "Суперсейф"
      case Monopallets => "Монопаллеты"
      case Boxes => "Короба"
      case QrDeliveryWithBoxes => "QR-поставка с коробами"
    }
  }

  /** Distinct delivery types have distinct display strings. */
  lemma DeliveryTypeValueInjective(a: DeliveryType, b: DeliveryType)
    requires a.Value() == b.Value()
    ensures a == b
  {
  }

  /** A date range; dates are day numbers, since only their order matters. */
  datatype TimePeriod = TimePeriod(startDate: int, endDate: int)

  /** A warehouse as the tracking table stores it; equality compares both fields. */
  datatype WarehouseShort = WarehouseShort(id: int, name: string)

  function IdOf(w: WarehouseShort): int { w.id }

  function NameOf(w: WarehouseShort): string { w.name }

  /**
   * A calendar day, by day number. `ToString` is its stored serialization and
   * `Plus` adds days, as `RightDate + i` does.
   */
  datatype RightDate = RightDate(day: int) {
    function ToString(): string { IntToString(day) }

    function Plus(days: int): RightDate { RightDate(day + days) }

    /** `display_date`; its format is not part of this model, so the serialized form stands in. */
    function Display(): string { ToString() }
  }

  /** `RightDate.from_string`: `None` where Python raises `ValueError`. */
  function RightDateFromString(s: string): (r: Option<RightDate>) {
    match ParseInt(s)
    case Some(n) => Some(RightDate(n))
    case None => None
  }

  /** Parsing a serialized date gives the date back. */
  lemma RightDateRoundTrip(d: RightDate)
    ensures RightDateFromString(d.ToString()) == Some(d)
  {
    ParseIntToString(d.day);
  }

  /** Two dates with the same serialization are the same date. */
  lemma RightDateToStringInjective(a: RightDate, b: RightDate)
    requires a.ToString() == b.ToString()
    ensures a == b
  {
    RightDateRoundTrip(a);
    RightDateRoundTrip(b);
  }

  /**
   * One record of the acceptance-coefficient feed, with the fields the bot reads:
   * `date`, `coefficient`, `warehouseID`, `warehouseName`, `boxTypeName`, `boxTypeID`.
   */
  datatype Entry = Entry(
    date: string,
    coefficient: int,
    warehouseId: int,
    warehouseName: string,
    boxTypeName: string,
    boxTypeId: Option<int>)

  /** The JSON values the cache stores: numbers, strings and feed snapshots. */
  datatype Value = Number(n: int) | Str(s: string) | Records(entries: seq<Entry>) {

    /** Python truthiness: zero, the empty string and the empty list are false. */
    predicate Truthy() {
      match this
      case Number(n) => n != 0
      case Str(s) => s != ""
      case Records(es) => es != []
    }
  }

  /** The cache keys of the feed snapshot and of the coefficient threshold. */
  const SupplyDataKey: string := "supply_data"
  const CoefficientKey: string := "coefficient"

  /** A cache read: the stored value, or `None` when the key has no row. */
  function Lookup(entries: map<string, Value>, key: string): Option<Value> {
    if key in entries then Some(entries[key]) else None
  }
}
