/**
 * The notification side of `TelegramBot` (app/bot.py): reading the cached
 * feed snapshot, selecting the entries the user tracks under the stored
 * coefficient threshold, formatting them, and handing one message per chat
 * to Telegram. Sending is not modelled beyond the list of (chat, text) pairs
 * handed over; a failed send is caught and logged, so it changes nothing here.
 */
module Bot {
  import opened Wrappers
  import opened Text
  import opened Seqs
  import opened Dto
  import opened Db

  /** `data if data else {}`: a missing or falsy value becomes an empty (falsy) collection. */
  function SupplyOrEmpty(cached: Option<Value>): (data: Value)
    ensures data.Truthy() <==> cached.Some? && cached.value.Truthy()
    ensures data.Truthy() ==> data == cached.value
  {
    if cached.Some? && cached.value.Truthy() then cached.value else Records([])
  }

  /**
   * The stored threshold as `int(...) < maximum_coefficient` can use it; `None`
   * when the comparison raises `TypeError` (no value stored, or not a number).
   */
  function CoefficientBound(stored: Option<Value>): Option<int> {
    if stored.Some? && stored.value.Number? then Some(stored.value.n) else None
  }

  /** The first four conditions of the comprehension; the warehouse must match in id and name. */
  predicate Tracked(e: Entry, warehouses: seq<WarehouseShort>, boxTypes: seq<string>, dates: seq<string>) {
    && WarehouseShort(e.warehouseId, e.warehouseName) in warehouses
    && e.boxTypeName in boxTypes
    && e.date in dates
    && e.coefficient != -1
  }

  /** All five conditions, for a numeric threshold. */
  predicate Matches(e: Entry, warehouses: seq<WarehouseShort>, boxTypes: seq<string>, dates: seq<string>, maximum: int) {
    Tracked(e, warehouses, boxTypes, dates) && e.coefficient < maximum
  }

  /** The reference selection: the snapshot filtered by `Matches`. */
  function MatchingEntries(snapshot: seq<Entry>, warehouses: seq<WarehouseShort>, boxTypes: seq<string>, dates: seq<string>, maximum: int): seq<Entry> {
    Filter(snapshot, (e: Entry) => Matches(e, warehouses, boxTypes, dates, maximum))
  }

  /**
   * The comprehension as Python evaluates it: entry by entry, each condition
   * only when the ones before it held; `None` once the threshold comparison
   * raises `TypeError`.
   */
  function SelectEntries(snapshot: seq<Entry>, warehouses: seq<WarehouseShort>, boxTypes: seq<string>, dates: seq<string>, maximum: Option<int>): Option<seq<Entry>> {
    if snapshot == [] then Some([])
    else
      var e := snapshot[0];
      if !Tracked(e, warehouses, boxTypes, dates) then SelectEntries(snapshot[1..], warehouses, boxTypes, dates, maximum)
      else if maximum.None? then None
      else match SelectEntries(snapshot[1..], warehouses, boxTypes, dates, maximum)
        case None => None
        case Some(rest) => Some(if e.coefficient < maximum.value then [e] + rest else rest)
  }

  /** With a numeric threshold the comprehension never raises and selects exactly the matching entries, in order. */
  lemma {:induction false} SelectWithThreshold(snapshot: seq<Entry>, warehouses: seq<WarehouseShort>, boxTypes: seq<string>, dates: seq<string>, maximum: int)
    ensures SelectEntries(snapshot, warehouses, boxTypes, dates, Some(maximum)) == Some(MatchingEntries(snapshot, warehouses, boxTypes, dates, maximum))
  {
    if snapshot != [] {
      SelectWithThreshold(snapshot[1..], warehouses, boxTypes, dates, maximum);
    }
  }

  /**
   * Without a usable threshold the comprehension raises exactly when some entry
   * passes the first four conditions; otherwise it selects nothing.
   */
  lemma {:induction false} SelectWithoutThreshold(snapshot: seq<Entry>, warehouses: seq<WarehouseShort>, boxTypes: seq<string>, dates: seq<string>)
    ensures SelectEntries(snapshot, warehouses, boxTypes, dates, None)
         == if exists i :: 0 <= i < |snapshot| && Tracked(snapshot[i], warehouses, boxTypes, dates) then None else Some([])
  {
    if snapshot != [] {
      SelectWithoutThreshold(snapshot[1..], warehouses, boxTypes, dates);
      if !Tracked(snapshot[0], warehouses, boxTypes, dates) {
        forall i | 1 <= i < |snapshot|
          ensures Tracked(snapshot[i], warehouses, boxTypes, dates) == Tracked(snapshot[1..][i - 1], warehouses, boxTypes, dates)
        {
        }
      }
    }
  }

  /**
   * The selection keeps the snapshot's order and duplicates: every selected
   * entry is tracked, available and under the threshold, and every such entry
   * of the snapshot is selected as many times as it occurs.
   */
  lemma MatchingEntriesCharacterization(snapshot: seq<Entry>, warehouses: seq<WarehouseShort>, boxTypes: seq<string>, dates: seq<string>, maximum: int)
    ensures var r := MatchingEntries(snapshot, warehouses, boxTypes, dates, maximum);
      && IsSubsequence(r, snapshot)
      && (forall i :: 0 <= i < |r| ==>
            && WarehouseShort(r[i].warehouseId, r[i].warehouseName) in warehouses
            && r[i].boxTypeName in boxTypes && r[i].date in dates
            && r[i].coefficient != -1 && r[i].coefficient < maximum)
      && (forall e :: multiset(r)[e] == if Matches(e, warehouses, boxTypes, dates, maximum) then multiset(snapshot)[e] else 0)
  {
    var p := (e: Entry) => Matches(e, warehouses, boxTypes, dates, maximum);
    FilterIsSubsequence(snapshot, p);
    forall e {
      FilterCount(snapshot, p, e);
    }
  }

  /** `f"{warehouseName} {boxTypeName} {coefficient} {date[:10]}"`. */
  function NotificationLine(e: Entry): string {
    e.warehouseName + " " + e.boxTypeName + " " + IntToString(e.coefficient) + " " + Take(e.date, 10)
  }

  function NotificationText(selected: seq<Entry>): string {
    Join(Map(selected, NotificationLine), "\n")
  }

  /** A line holds no newline when the entry's names and date hold none. */
  lemma NotificationLineHasNoNewline(e: Entry)
    requires '\n' !in e.warehouseName && '\n' !in e.boxTypeName && '\n' !in e.date
    ensures '\n' !in NotificationLine(e)
  {
    var t := Take(e.date, 10);
    assert forall i :: 0 <= i < |t| ==> t[i] == e.date[i];
    var c := IntToString(e.coefficient);
    assert forall i :: 0 <= i < |c| ==> c[i] == '-' || IsDigit(c[i]);
  }

  /**
   * The message has one line per selected entry, in order: splitting it at
   * newlines gives the lines back, when no field holds a newline.
   */
  lemma NotificationLinesRecoverable(selected: seq<Entry>)
    requires selected != []
    requires forall i :: 0 <= i < |selected| ==>
      '\n' !in selected[i].warehouseName && '\n' !in selected[i].boxTypeName && '\n' !in selected[i].date
    ensures Split(NotificationText(selected), '\n') == Map(selected, NotificationLine)
  {
    var lines := Map(selected, NotificationLine);
    forall i | 0 <= i < |lines|
      ensures '\n' !in lines[i]
    {
      NotificationLineHasNoNewline(selected[i]);
    }
    SplitJoin(lines, '\n');
  }

  /** What one `send_notifications` call decides. */
  datatype Notice = NoSupplyData | Notify(text: string) | Raised

  /** The decision from the snapshot value, the three tracking lists and the stored threshold. */
  function NoticeFor(supply: Value, warehouses: seq<WarehouseShort>, boxTypes: seq<string>, dates: seq<string>, maximum: Option<Value>): Notice {
    if !supply.Truthy() then NoSupplyData
    else match supply
      case Records(snapshot) =>
        (match SelectEntries(snapshot, warehouses, boxTypes, dates, CoefficientBound(maximum))
         case None => Raised
         case Some(selected) => Notify(NotificationText(selected)))
      case _ => Raised
  }

  /**
   * An empty or missing snapshot sends nothing; a numeric threshold sends the
   * matching lines; without one, the call raises exactly when some entry passes
   * the first four conditions, and otherwise sends an empty message.
   */
  lemma NoticeOutcomes(supply: Value, warehouses: seq<WarehouseShort>, boxTypes: seq<string>, dates: seq<string>, maximum: Option<Value>)
    ensures !supply.Truthy() ==> NoticeFor(supply, warehouses, boxTypes, dates, maximum) == NoSupplyData
    ensures supply.Truthy() && !supply.Records? ==> NoticeFor(supply, warehouses, boxTypes, dates, maximum) == Raised
    ensures supply.Truthy() && supply.Records? && maximum.Some? && maximum.value.Number? ==>
      NoticeFor(supply, warehouses, boxTypes, dates, maximum)
        == Notify(NotificationText(MatchingEntries(supply.entries, warehouses, boxTypes, dates, maximum.value.n)))
    ensures supply.Truthy() && supply.Records? && !(maximum.Some? && maximum.value.Number?) ==>
      NoticeFor(supply, warehouses, boxTypes, dates, maximum)
        == if exists i :: 0 <= i < |supply.entries| && Tracked(supply.entries[i], warehouses, boxTypes, dates) then Raised else Notify("")
  {
    if supply.Records? {
      if maximum.Some? && maximum.value.Number? {
        SelectWithThreshold(supply.entries, warehouses, boxTypes, dates, maximum.value.n);
      } else {
        SelectWithoutThreshold(supply.entries, warehouses, boxTypes, dates);
      }
    }
  }

  /** One message handed to Telegram. */
  datatype Delivery = Delivery(chatId: int, text: string)

  /** What one run of `send_notifications` does. */
  datatype Dispatch = Skipped | Delivered(messages: seq<Delivery>) | Crashed

  /** One message with the same text for each chat, in order. */
  function Broadcast(chatIds: seq<int>, text: string): (messages: seq<Delivery>)
    ensures |messages| == |chatIds|
    ensures forall i :: 0 <= i < |chatIds| ==> messages[i] == Delivery(chatIds[i], text)
  {
    seq(|chatIds|, i requires 0 <= i < |chatIds| => Delivery(chatIds[i], text))
  }

  /** The dispatch a decision leads to. */
  function DispatchFor(notice: Notice, chatIds: seq<int>): Dispatch {
    match notice
    case NoSupplyData => Skipped
    case Raised => Crashed
    case Notify(text) => Delivered(Broadcast(chatIds, text))
  }

  class TelegramBot {
    const cacheManager: WildberriesCacheManager<Value>
    const trackedWarehouseManager: TrackedWarehouseManager
    const boxTypeManager: BoxTypeManager
    const dateManager: DateManager
    const chatIds: seq<int>

    constructor (cacheManager: WildberriesCacheManager<Value>, trackedWarehouseManager: TrackedWarehouseManager,
                 boxTypeManager: BoxTypeManager, dateManager: DateManager, chatIds: seq<int>)
      ensures this.cacheManager == cacheManager && this.trackedWarehouseManager == trackedWarehouseManager
      ensures this.boxTypeManager == boxTypeManager && this.dateManager == dateManager && this.chatIds == chatIds
    {
      this.cacheManager := cacheManager;
      this.trackedWarehouseManager := trackedWarehouseManager;
      this.boxTypeManager := boxTypeManager;
      this.dateManager := dateManager;
      this.chatIds := chatIds;
    }

    /** The decision the current stored state leads to. */
    ghost function CurrentNotice(): Notice
      reads this, cacheManager, trackedWarehouseManager, boxTypeManager, dateManager
    {
      NoticeFor(SupplyOrEmpty(Lookup(cacheManager.entries, SupplyDataKey)),
                trackedWarehouseManager.rows, boxTypeManager.rows, dateManager.rows,
                Lookup(cacheManager.entries, CoefficientKey))
    }

    method GetSupplyData() returns (data: Value)
      ensures data == SupplyOrEmpty(Lookup(cacheManager.entries, SupplyDataKey))
    {
      var cached := cacheManager.Get(SupplyDataKey);
      data := SupplyOrEmpty(cached);
    }

    /**
     * With data, the same text goes to every chat, in the order of `chatIds`
     * (a send that fails is logged and the loop goes on); without data nothing
     * is sent; an exception in the comprehension ends the call.
     */
    method SendNotifications() returns (d: Dispatch)
      ensures d == DispatchFor(CurrentNotice(), chatIds)
    {
      var supply := GetSupplyData();
      var warehouses := trackedWarehouseManager.GetAll();
      var boxTypes := boxTypeManager.GetAll();
      var dates := dateManager.GetAll();
      var maximum := cacheManager.Get(CoefficientKey);
      var notice := NoticeFor(supply, warehouses, boxTypes, dates, maximum);
      if notice.NoSupplyData? {
        return Skipped;
      }
      if notice.Raised? {
        return Crashed;
      }
      var messages: seq<Delivery> := [];
      for i := 0 to |chatIds|
        invariant messages == Broadcast(chatIds[..i], notice.text)
      {
        messages := messages + [Delivery(chatIds[i], notice.text)];
      }
      assert chatIds[..|chatIds|] == chatIds;
      d := Delivered(messages);
    }

    /**
     * `while True`, bounded here by `rounds`: the state does not change between
     * rounds, so every round dispatches the same; no `try` surrounds the call,
     * so the first exception ends the task.
     */
    method ScheduleNotification(rounds: nat) returns (log: seq<Dispatch>)
      ensures CurrentNotice() == Raised && rounds > 0 ==> log == [Crashed]
      ensures CurrentNotice() != Raised ==> var d := DispatchFor(CurrentNotice(), chatIds); log == seq(rounds, _ => d)
    {
      log := [];
      var i := 0;
      while i < rounds
        invariant 0 <= i <= rounds
        invariant var d := DispatchFor(CurrentNotice(), chatIds); log == seq(i, _ => d)
        invariant i > 0 ==> CurrentNotice() != Raised
      {
        var d := SendNotifications();
        if d == Crashed {
          return log + [d];
        }
        log := log + [d];
        i := i + 1;
      }
    }
  }
}
