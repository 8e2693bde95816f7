/**
 * The supply handlers of app/handlers/supply.py: the tracking menus built
 * from the cached feed snapshot, the callback payload parsers, the
 * read-decide-write toggles on the three registries, the coefficient dialogue
 * and `/clearall`. The registries and the cache are the shared managers,
 * passed in. A handler's reply is reduced to what it decides (which action,
 * for which item, with which keyboard); an exception that escapes a handler
 * is a `HandlerError`, and whatever the handler wrote before it stays written.
 */
module SupplyHandlers {
  import opened Wrappers
  import opened Text
  import opened Seqs
  import opened Dto
  import opened Db
  import opened Keyboards

  /** The exceptions that escape the handlers (`UnboundLocalError` is a `NameError`). */
  datatype HandlerError = ValueError | TypeError | NameError

  datatype Action = AddedTo | RemovedFrom

  /** What a toggle reports: the action, the item it applied to, and the refreshed keyboard. */
  datatype Toggle<T> = Toggle(action: Action, subject: T, keyboard: Markup)

  /**
   * The cached snapshot as the handlers iterate it: the records of a stored
   * list; nothing for an empty string; `None` where iterating or indexing
   * raises `TypeError` (no snapshot, a number, a non-empty string).
   */
  function SnapshotRecords(cached: Option<Value>): Option<seq<Entry>> {
    match cached
    case Some(Records(es)) => Some(es)
    case Some(Str(s)) => if s == "" then Some([]) else None
    case _ => None
  }

  // ---- Menu lists ----

  /** `re.sub(r'^СЦ\s+', '', name)`: a leading `СЦ` and the whitespace after it removed. */
  function ScKey(name: string): string {
    if |name| >= 3 && name[..2] == "СЦ" && IsSpace(name[2]) then DropSpaces(name[2..]) else name
  }

  lemma {:induction false} DropSpacesPrefix(ws: string, rest: string)
    requires forall i :: 0 <= i < |ws| ==> IsSpace(ws[i])
    requires rest == [] || !IsSpace(rest[0])
    ensures DropSpaces(ws + rest) == rest
  {
    if ws != [] {
      assert (ws + rest)[1..] == ws[1..] + rest;
      DropSpacesPrefix(ws[1..], rest);
    }
  }

  /**
   * The sort key of `"СЦ" + whitespace + rest`, with `rest` not starting with
   * whitespace, is `rest`; a name without that prefix is its own key.
   */
  lemma ScKeyStripsPrefix(ws: string, rest: string)
    requires |ws| >= 1 && forall i :: 0 <= i < |ws| ==> IsSpace(ws[i])
    requires rest == [] || !IsSpace(rest[0])
    ensures ScKey("СЦ" + ws + rest) == rest
    ensures forall name :: !(|name| >= 2 && name[..2] == "СЦ") ==> ScKey(name) == name
  {
    var name := "СЦ" + ws + rest;
    assert name[..2] == "СЦ" && name[2] == ws[0];
    assert name[2..] == ws + rest;
    DropSpacesPrefix(ws, rest);
  }

  function WarehouseSortKey(w: WarehouseShort): string {
    ScKey(w.name)
  }

  /** `WarehouseShort(id=wh["warehouseID"], name=wh["warehouseName"])` for each entry. */
  function RawWarehouses(snapshot: seq<Entry>): seq<WarehouseShort> {
    Map(snapshot, (e: Entry) => WarehouseShort(e.warehouseId, e.warehouseName))
  }

  /** `list(set(...))` sorted by the key; the set's iteration order is taken as first occurrence. */
  function WarehouseMenuOrder(snapshot: seq<Entry>): seq<WarehouseShort> {
    SortBy(Distinct(RawWarehouses(snapshot)), WarehouseSortKey)
  }

  function MarkWarehouse(w: WarehouseShort, tracked: seq<WarehouseShort>): WarehouseShort {
    if w in tracked then WarehouseShort(w.id, "🏫 " + w.name) else w
  }

  /** The warehouses the menu offers, tracked ones marked. */
  function WarehouseMenu(snapshot: seq<Entry>, tracked: seq<WarehouseShort>): seq<WarehouseShort> {
    Map(WarehouseMenuOrder(snapshot), (w: WarehouseShort) => MarkWarehouse(w, tracked))
  }

  /** A menu order: the distinct elements of `s`, each once, sorted by `key`. */
  lemma {:induction false} MenuOrderCorrect<T>(s: seq<T>, key: T -> string)
    ensures NoDuplicates(SortBy(Distinct(s), key))
    ensures SortedBy(SortBy(Distinct(s), key), key)
    ensures forall x :: x in SortBy(Distinct(s), key) <==> x in s
  {
    var distinct := Distinct(s);
    var order := SortBy(distinct, key);
    SortByCorrect(distinct, key);
    PermutationNoDuplicates(distinct, order);
    forall x
      ensures x in order <==> x in s
    {
      assert x in order <==> x in multiset(order);
      assert x in distinct <==> x in multiset(distinct);
      if x in s {
        var i :| 0 <= i < |s| && s[i] == x;
        assert s[i] in distinct;
      }
      if x in distinct {
        var i :| 0 <= i < |distinct| && distinct[i] == x;
        assert distinct[i] in s;
      }
    }
  }

  /**
   * The menu lists each (id, name) pair of the snapshot exactly once, sorted
   * by the stripped name, and prefixes the name with `🏫 ` exactly when that
   * pair is tracked.
   */
  lemma WarehouseMenuCorrect(snapshot: seq<Entry>, tracked: seq<WarehouseShort>)
    ensures var order := WarehouseMenuOrder(snapshot);
      && NoDuplicates(order)
      && SortedBy(order, WarehouseSortKey)
      && forall w :: w in order <==> exists i :: 0 <= i < |snapshot| && w == WarehouseShort(snapshot[i].warehouseId, snapshot[i].warehouseName)
    ensures var order := WarehouseMenuOrder(snapshot);
      var menu := WarehouseMenu(snapshot, tracked);
      && |menu| == |order|
      && forall j :: 0 <= j < |order| ==>
           menu[j].id == order[j].id
           && menu[j].name == if order[j] in tracked then "🏫 " + order[j].name else order[j].name
  {
    var raw := RawWarehouses(snapshot);
    MenuOrderCorrect(raw, WarehouseSortKey);
    forall w
      ensures w in raw <==> exists i :: 0 <= i < |snapshot| && w == WarehouseShort(snapshot[i].warehouseId, snapshot[i].warehouseName)
    {
      if w in raw {
        var i :| 0 <= i < |raw| && raw[i] == w;
      }
      if exists i :: 0 <= i < |snapshot| && w == WarehouseShort(snapshot[i].warehouseId, snapshot[i].warehouseName) {
        var i :| 0 <= i < |snapshot| && w == WarehouseShort(snapshot[i].warehouseId, snapshot[i].warehouseName);
        assert raw[i] == w;
      }
    }
  }

  /** The distinct box-type names of the snapshot, sorted by the stripped name. */
  function BoxTypeMenuOrder(snapshot: seq<Entry>): seq<string> {
    SortBy(Distinct(Map(snapshot, (e: Entry) => e.boxTypeName)), ScKey)
  }

  /** The box-type labels the menu offers, tracked ones marked. */
  function BoxTypeMenu(snapshot: seq<Entry>, tracked: seq<string>): seq<string> {
    Map(BoxTypeMenuOrder(snapshot), (n: string) => if n in tracked then "📦 " + n else n)
  }

  /**
   * The box-type menu lists each name of the snapshot exactly once, sorted by
   * the stripped name, and prefixes `📦 ` exactly to the tracked ones.
   */
  lemma BoxTypeMenuCorrect(snapshot: seq<Entry>, tracked: seq<string>)
    ensures var order := BoxTypeMenuOrder(snapshot);
      && NoDuplicates(order)
      && SortedBy(order, ScKey)
      && forall n :: n in order <==> exists i :: 0 <= i < |snapshot| && n == snapshot[i].boxTypeName
    ensures var order := BoxTypeMenuOrder(snapshot);
      var menu := BoxTypeMenu(snapshot, tracked);
      && |menu| == |order|
      && forall j :: 0 <= j < |order| ==> menu[j] == if order[j] in tracked then "📦 " + order[j] else order[j]
  {
    var names := Map(snapshot, (e: Entry) => e.boxTypeName);
    MenuOrderCorrect(names, ScKey);
    forall n
      ensures n in names <==> exists i :: 0 <= i < |snapshot| && n == snapshot[i].boxTypeName
    {
      if n in names {
        var i :| 0 <= i < |names| && names[i] == n;
      }
      if exists i :: 0 <= i < |snapshot| && n == snapshot[i].boxTypeName {
        var i :| 0 <= i < |snapshot| && n == snapshot[i].boxTypeName;
        assert names[i] == n;
      }
    }
  }

  /** The prefix that marks a tracked date in the date menu. */
  const DateMarker: string := "🗓️ "

  /** `[today + i for i in range(15)]`, each labelled, tracked ones marked. */
  function DateMenu(today: RightDate, tracked: seq<RightDate>): seq<(string, RightDate)> {
    seq(15, i => var d := today.Plus(i); (if d in tracked then DateMarker + d.Display() else d.Display(), d))
  }

  /** A rendered date starts with a digit or `-`, never with the marker. */
  lemma DisplayNeverMarked(d: RightDate)
    ensures !HasPrefix(d.Display(), DateMarker)
  {
    var shown := d.Display();
    assert shown[0] == '-' || IsDigit(shown[0]);
    assert DateMarker[0] == '🗓';
  }

  /** `[RightDate.from_string(date) for date in ...]`: `None` when one of them does not parse. */
  function ParseDates(rows: seq<string>): (r: Option<seq<RightDate>>)
    ensures r.Some? ==> |r.value| == |rows| && forall i :: 0 <= i < |rows| ==> RightDateFromString(rows[i]) == Some(r.value[i])
    ensures r.None? ==> exists i :: 0 <= i < |rows| && RightDateFromString(rows[i]).None?
  {
    if rows == [] then Some([])
    else match (RightDateFromString(rows[0]), ParseDates(rows[1..]))
      case (Some(d), Some(ds)) => Some([d] + ds)
      case (None, _) => None
      case (_, None) =>
        assert exists i :: 0 <= i < |rows[1..]| && RightDateFromString(rows[1..][i]).None?;
        var i :| 0 <= i < |rows[1..]| && RightDateFromString(rows[1..][i]).None?;
        assert RightDateFromString(rows[i + 1]).None?;
        None
  }

  /**
   * The date menu offers fifteen consecutive, distinct days starting today; a
   * label carries the marker exactly when its day is tracked, and with the
   * marker dropped it is the day's rendering.
   */
  lemma DateMenuCorrect(today: RightDate, tracked: seq<RightDate>)
    ensures var menu := DateMenu(today, tracked);
      && |menu| == 15 && menu[0].1 == today
      && (forall i :: 0 <= i < 14 ==> menu[i + 1].1.day == menu[i].1.day + 1)
      && (forall i, j :: 0 <= i < j < 15 ==> menu[i].1 != menu[j].1)
      && (forall i :: 0 <= i < 15 ==> (HasPrefix(menu[i].0, DateMarker) <==> menu[i].1 in tracked))
      && (forall i :: 0 <= i < 15 ==>
            menu[i].0[if HasPrefix(menu[i].0, DateMarker) then |DateMarker| else 0..] == menu[i].1.Display())
  {
    var menu := DateMenu(today, tracked);
    forall i | 0 <= i < 15
      ensures HasPrefix(menu[i].0, DateMarker) <==> menu[i].1 in tracked
      ensures menu[i].0[if HasPrefix(menu[i].0, DateMarker) then |DateMarker| else 0..] == menu[i].1.Display()
    {
      var d := menu[i].1;
      DisplayNeverMarked(d);
      if d in tracked {
        assert menu[i].0 == DateMarker + d.Display();
        assert menu[i].0[..|DateMarker|] == DateMarker;
      }
    }
  }

  // ---- Callback payloads ----

  predicate HasPrefix(data: string, prefix: string) {
    |prefix| <= |data| && data[..|prefix|] == prefix
  }

  /** A payload `tag + ":" + rest`, with no `:` in `tag`, splits as `tag` followed by the split of `rest`. */
  lemma SplitTagged(data: string, tag: string)
    requires ':' !in tag && HasPrefix(data, tag + ":")
    ensures Split(data, ':') == [tag] + Split(data[|tag| + 1..], ':')
  {
    assert data == tag + [':'] + data[|tag| + 1..];
    SplitAtFirstSeparator(tag, ':', data[|tag| + 1..]);
  }

  /** `int(data.split(":")[1].replace("🏫 ", ""))`: `None` where `int` raises `ValueError`. */
  function WarehousePayload(data: string): Option<int>
    requires HasPrefix(data, "wh:")
  {
    SplitTagged(data, "wh");
    ParseInt(Replace(Split(data, ':')[1], "🏫 ", ""))
  }

  /** `data.split(":")[1].replace("📦 ", "")`. */
  function BoxTypePayload(data: string): string
    requires HasPrefix(data, "bt:")
  {
    SplitTagged(data, "bt");
    Replace(Split(data, ':')[1], "📦 ", "")
  }

  /** `":".join(data.split(":")[1:])`. */
  function DatePayload(data: string): string
    requires HasPrefix(data, "dt:")
  {
    SplitTagged(data, "dt");
    Join(Split(data, ':')[1..], ":")
  }

  /** The warehouse parser recovers the id the keyboard encoded. */
  lemma WarehouseCallbackRoundTrip(w: WarehouseShort)
    ensures HasPrefix(WarehouseCallback(w), "wh:")
    ensures WarehousePayload(WarehouseCallback(w)) == Some(w.id)
  {
    var data := WarehouseCallback(w);
    var digits := IntToString(w.id);
    assert data[..3] == "wh:";
    assert data[3..] == digits;
    assert forall i :: 0 <= i < |digits| ==> digits[i] == '-' || IsDigit(digits[i]);
    SplitTagged(data, "wh");
    SplitWithoutSeparator(digits, ':');
    FirstCharAbsentNoOccurrence(digits, "🏫 ");
    ReplaceAbsent(digits, "🏫 ", "");
    ParseIntToString(w.id);
  }

  /**
   * The box-type parser recovers a name without `:` from its button, marked
   * or not, provided the name itself holds no `📦 `.
   */
  lemma BoxTypeCallbackRoundTrip(name: string, marked: bool)
    requires ':' !in name && !Occurs(name, "📦 ")
    ensures HasPrefix(BoxTypeCallback(if marked then "📦 " + name else name), "bt:")
    ensures BoxTypePayload(BoxTypeCallback(if marked then "📦 " + name else name)) == name
  {
    var shown := if marked then "📦 " + name else name;
    var data := BoxTypeCallback(shown);
    assert data[..3] == "bt:" && data[3..] == shown;
    assert ':' !in "📦 ";
    SplitTagged(data, "bt");
    SplitWithoutSeparator(shown, ':');
    ReplaceAbsent(name, "📦 ", "");
    if marked {
      ReplaceLeading("📦 ", name, "");
    }
  }

  /** All four delivery types survive the box-type round trip, marked or not. */
  lemma DeliveryTypeCallbackRoundTrip(t: DeliveryType, marked: bool)
    ensures BoxTypePayload(BoxTypeCallback(if marked then "📦 " + t.Value() else t.Value())) == t.Value()
  {
    FirstCharAbsentNoOccurrence(t.Value(), "📦 ");
    BoxTypeCallbackRoundTrip(t.Value(), marked);
  }

  /** The date payload is everything after the first `:`, whatever it holds. */
  lemma DatePayloadAfterFirstColon(rest: string)
    ensures HasPrefix("dt:" + rest, "dt:")
    ensures DatePayload("dt:" + rest) == rest
  {
    var data := "dt:" + rest;
    assert data[..3] == "dt:" && data[3..] == rest;
    SplitTagged(data, "dt");
    JoinSplit(rest, ':');
  }

  /** The date parser recovers the date the keyboard encoded. */
  lemma DateCallbackRoundTrip(d: RightDate)
    ensures HasPrefix(DateCallback(d), "dt:")
    ensures RightDateFromString(DatePayload(DateCallback(d))) == Some(d)
  {
    DatePayloadAfterFirstColon(d.ToString());
    RightDateRoundTrip(d);
  }

  // ---- Toggle decisions ----

  /** The box-type and date toggles: drop a present element, add an absent one. */
  function Toggled(rows: seq<string>, x: string): seq<string> {
    if x in rows then Filter(rows, (r: string) => r != x) else rows + [x]
  }

  /** A toggle flips the membership of its element, leaves every other one as it was, and keeps the table duplicate-free. */
  lemma ToggledFlipsMembership(rows: seq<string>, x: string)
    ensures forall y :: y in Toggled(rows, x) <==> if y == x then x !in rows else y in rows
    ensures NoDuplicates(rows) ==> NoDuplicates(Toggled(rows, x))
  {
    var p := (r: string) => r != x;
    forall y {
      FilterMembership(rows, p, y);
    }
    if NoDuplicates(rows) && x in rows {
      FilterNoDuplicates(rows, p);
    }
  }

  /**
   * `name` of the first snapshot entry with this id: the loop with `break`;
   * `None` when no entry has it (the name stays unbound).
   */
  function FirstNameWithId(snapshot: seq<Entry>, id: int): Option<string> {
    if snapshot == [] then None
    else if snapshot[0].warehouseId == id then Some(snapshot[0].warehouseName)
    else FirstNameWithId(snapshot[1..], id)
  }

  /** The name found belongs to the first entry with the id; none is found exactly when no entry has it. */
  lemma {:induction false} FirstNameWithIdCorrect(snapshot: seq<Entry>, id: int)
    ensures FirstNameWithId(snapshot, id).None? <==> forall i :: 0 <= i < |snapshot| ==> snapshot[i].warehouseId != id
    ensures FirstNameWithId(snapshot, id).Some? ==>
      exists i :: 0 <= i < |snapshot| && snapshot[i].warehouseId == id
        && snapshot[i].warehouseName == FirstNameWithId(snapshot, id).value
        && forall j :: 0 <= j < i ==> snapshot[j].warehouseId != id
  {
    if snapshot != [] && snapshot[0].warehouseId != id {
      var tail := snapshot[1..];
      FirstNameWithIdCorrect(tail, id);
      assert forall i :: 1 <= i < |snapshot| ==> snapshot[i] == tail[i - 1];
      if FirstNameWithId(tail, id).Some? {
        var i :| 0 <= i < |tail| && tail[i].warehouseId == id && tail[i].warehouseName == FirstNameWithId(tail, id).value
          && forall j :: 0 <= j < i ==> tail[j].warehouseId != id;
        assert snapshot[i + 1] == tail[i];
      }
    }
  }

  /** The lookup loop of `toggle_warehouse`. */
  method FindWarehouseName(snapshot: seq<Entry>, id: int) returns (name: Option<string>)
    ensures name == FirstNameWithId(snapshot, id)
  {
    name := None;
    var i := 0;
    while i < |snapshot|
      invariant 0 <= i <= |snapshot|
      invariant FirstNameWithId(snapshot, id) == FirstNameWithId(snapshot[i..], id)
    {
      assert snapshot[i..][1..] == snapshot[i + 1..];
      if snapshot[i].warehouseId == id {
        name := Some(snapshot[i].warehouseName);
        return;
      }
      i := i + 1;
    }
  }

  /**
   * The rows after `toggle_warehouse`'s decision: a tracked id is dropped; an
   * untracked one is added with the name found, unless there is none (the
   * unbound name raises first) or the name is taken (the insert fails).
   */
  function WarehouseToggled(rows: seq<WarehouseShort>, id: int, name: Option<string>): seq<WarehouseShort> {
    if id in Ids(rows) then Filter(rows, (w: WarehouseShort) => w.id != id)
    else if name.None? || name.value in Names(rows) then rows
    else rows + [WarehouseShort(id, name.value)]
  }

  /**
   * A tracked id stops being tracked; an untracked id with a free name starts
   * being tracked under it; no other warehouse is affected.
   */
  lemma WarehouseToggledFlips(rows: seq<WarehouseShort>, id: int, name: Option<string>)
    ensures var after := WarehouseToggled(rows, id, name);
      && (id in Ids(rows) ==> Ids(after) == Ids(rows) - {id})
      && (id !in Ids(rows) && name.Some? && name.value !in Names(rows) ==>
            Ids(after) == Ids(rows) + {id} && WarehouseShort(id, name.value) in after)
      && (id !in Ids(rows) && (name.None? || name.value in Names(rows)) ==> after == rows)
      && (forall w: WarehouseShort :: w.id != id ==> (w in after <==> w in rows))
  {
    var p := (w: WarehouseShort) => w.id != id;
    var after := WarehouseToggled(rows, id, name);
    forall w {
      FilterMembership(rows, p, w);
    }
    if id in Ids(rows) {
      assert forall k :: k in Ids(after) <==> k in Ids(rows) && k != id by {
        forall k
          ensures k in Ids(after) <==> k in Ids(rows) && k != id
        {
          if k in Ids(rows) && k != id {
            var w :| w in rows && w.id == k;
            assert w in after;
          }
        }
      }
    } else if name.Some? && name.value !in Names(rows) {
      assert after == rows + [WarehouseShort(id, name.value)];
      assert forall k :: k in Ids(after) <==> k in Ids(rows) || k == id by {
        forall k
          ensures k in Ids(after) <==> k in Ids(rows) || k == id
        {
          if k in Ids(rows) {
            var w :| w in rows && w.id == k;
            assert w in after;
          }
          if k == id {
            assert WarehouseShort(id, name.value) in after;
          }
        }
      }
    }
  }

  // ---- The handlers ----

  /** `get_add_warehouse_menu`: the menu keyboard, or the `TypeError` of a missing snapshot. */
  method GetAddWarehouseMenu(cache: WildberriesCacheManager<Value>, warehouses: TrackedWarehouseManager)
    returns (r: Result<Markup, HandlerError>)
    ensures match SnapshotRecords(Lookup(cache.entries, SupplyDataKey))
      case None => r == Err(TypeError)
      case Some(snapshot) => r == Ok(KeyboardLayout(WarehousesKeyboard(WarehouseMenu(snapshot, warehouses.rows))))
  {
    var raw := cache.Get(SupplyDataKey);
    var records := SnapshotRecords(raw);
    if records.None? {
      return Err(TypeError);
    }
    var tracked := warehouses.GetAll();
    var keyboard := Build(WarehousesKeyboard(WarehouseMenu(records.value, tracked)));
    r := Ok(keyboard);
  }

  /** `get_add_box_type_menu`. */
  method GetAddBoxTypeMenu(cache: WildberriesCacheManager<Value>, boxTypes: BoxTypeManager)
    returns (r: Result<Markup, HandlerError>)
    ensures match SnapshotRecords(Lookup(cache.entries, SupplyDataKey))
      case None => r == Err(TypeError)
      case Some(snapshot) => r == Ok(KeyboardLayout(BoxTypesKeyboard(BoxTypeMenu(snapshot, boxTypes.rows))))
  {
    var raw := cache.Get(SupplyDataKey);
    var records := SnapshotRecords(raw);
    if records.None? {
      return Err(TypeError);
    }
    var tracked := boxTypes.GetAll();
    var keyboard := Build(BoxTypesKeyboard(BoxTypeMenu(records.value, tracked)));
    r := Ok(keyboard);
  }

  /** `get_add_date_menu`, with today's date passed in. */
  method GetAddDateMenu(dates: DateManager, today: RightDate) returns (r: Result<Markup, HandlerError>)
    ensures match ParseDates(dates.rows)
      case None => r == Err(ValueError)
      case Some(tracked) => r == Ok(KeyboardLayout(DateKeyboard(DateMenu(today, tracked))))
  {
    var rows := dates.GetAll();
    var tracked := ParseDates(rows);
    if tracked.None? {
      return Err(ValueError);
    }
    var keyboard := Build(DateKeyboard(DateMenu(today, tracked.value)));
    r := Ok(keyboard);
  }

  /**
   * `toggle_warehouse`. Nothing is written when the payload does not parse or
   * the snapshot cannot be iterated; otherwise the registry takes the toggled
   * rows, and the handler fails afterwards when no name was found or the
   * insert failed.
   */
  method ToggleWarehouse(data: string, warehouses: TrackedWarehouseManager, cache: WildberriesCacheManager<Value>)
    returns (r: Result<Toggle<string>, HandlerError>)
    requires HasPrefix(data, "wh:")
    requires warehouses.Valid()
    modifies warehouses
    ensures warehouses.Valid()
    ensures WarehousePayload(data).None? ==> r == Err(ValueError) && warehouses.rows == old(warehouses.rows)
    ensures WarehousePayload(data).Some? && SnapshotRecords(Lookup(cache.entries, SupplyDataKey)).None? ==>
      r == Err(TypeError) && warehouses.rows == old(warehouses.rows)
    ensures WarehousePayload(data).Some? && SnapshotRecords(Lookup(cache.entries, SupplyDataKey)).Some? ==>
      var id := WarehousePayload(data).value;
      var snapshot := SnapshotRecords(Lookup(cache.entries, SupplyDataKey)).value;
      var name := FirstNameWithId(snapshot, id);
      var tracked := id in Ids(old(warehouses.rows));
      && warehouses.rows == WarehouseToggled(old(warehouses.rows), id, name)
      && r == if name.None? || (!tracked && name.value in Names(old(warehouses.rows))) then Err(NameError)
              else Ok(Toggle(if tracked then RemovedFrom else AddedTo, name.value,
                             KeyboardLayout(WarehousesKeyboard(WarehouseMenu(snapshot, warehouses.rows)))))
  {
    var parsed := WarehousePayload(data);
    if parsed.None? {
      return Err(ValueError);
    }
    var id := parsed.value;
    var before := warehouses.GetAll();
    var raw := cache.Get(SupplyDataKey);
    var records := SnapshotRecords(raw);
    if records.None? {
      return Err(TypeError);
    }
    var name := FindWarehouseName(records.value, id);
    var action;
    if id in Ids(before) {
      var _ := warehouses.Drop(id);
      action := RemovedFrom;
    } else {
      if name.None? {
        return Err(NameError);
      }
      var added := warehouses.Add(WarehouseShort(id, name.value));
      if added.Fail? {
        return Err(NameError);
      }
      action := AddedTo;
    }
    var after := warehouses.GetAll();
    var keyboard := Build(WarehousesKeyboard(WarehouseMenu(records.value, after)));
    if name.None? {
      return Err(NameError);
    }
    r := Ok(Toggle(action, name.value, keyboard));
  }

  /**
   * `toggle_box_type`: the registry takes the toggled rows; rebuilding the
   * menu afterwards fails when the snapshot cannot be iterated.
   */
  method ToggleBoxType(data: string, boxTypes: BoxTypeManager, cache: WildberriesCacheManager<Value>)
    returns (r: Result<Toggle<string>, HandlerError>)
    requires HasPrefix(data, "bt:")
    requires boxTypes.Valid()
    modifies boxTypes
    ensures boxTypes.Valid()
    ensures var name := BoxTypePayload(data);
      && boxTypes.rows == Toggled(old(boxTypes.rows), name)
      && r == match SnapshotRecords(Lookup(cache.entries, SupplyDataKey))
         case None => Err(TypeError)
         case Some(snapshot) =>
           Ok(Toggle(if name in old(boxTypes.rows) then RemovedFrom else AddedTo, name,
                     KeyboardLayout(BoxTypesKeyboard(BoxTypeMenu(snapshot, boxTypes.rows)))))
  {
    var name := BoxTypePayload(data);
    var before := boxTypes.GetAll();
    var action;
    if name in before {
      var _ := boxTypes.Drop(name);
      action := RemovedFrom;
    } else {
      var _ := boxTypes.Add(name);
      action := AddedTo;
    }
    var raw := cache.Get(SupplyDataKey);
    var records := SnapshotRecords(raw);
    if records.None? {
      return Err(TypeError);
    }
    var after := boxTypes.GetAll();
    var keyboard := Build(BoxTypesKeyboard(BoxTypeMenu(records.value, after)));
    r := Ok(Toggle(action, name, keyboard));
  }

  /**
   * `toggle_date`: a payload that does not parse raises before anything is
   * written; otherwise the registry takes the toggled serialized date, and
   * rebuilding the menu fails when a stored date does not parse.
   */
  method ToggleDate(data: string, dates: DateManager, today: RightDate)
    returns (r: Result<Toggle<RightDate>, HandlerError>)
    requires HasPrefix(data, "dt:")
    requires dates.Valid()
    modifies dates
    ensures dates.Valid()
    ensures RightDateFromString(DatePayload(data)).None? ==> r == Err(ValueError) && dates.rows == old(dates.rows)
    ensures RightDateFromString(DatePayload(data)).Some? ==>
      var d := RightDateFromString(DatePayload(data)).value;
      && dates.rows == Toggled(old(dates.rows), d.ToString())
      && r == match ParseDates(dates.rows)
         case None => Err(ValueError)
         case Some(tracked) =>
           Ok(Toggle(if d.ToString() in old(dates.rows) then RemovedFrom else AddedTo, d,
                     KeyboardLayout(DateKeyboard(DateMenu(today, tracked)))))
  {
    var parsed := RightDateFromString(DatePayload(data));
    if parsed.None? {
      return Err(ValueError);
    }
    var d := parsed.value;
    var before := dates.GetAll();
    var action;
    if d.ToString() in before {
      var _ := dates.Drop(d.ToString());
      action := RemovedFrom;
    } else {
      var _ := dates.Add(d.ToString());
      action := AddedTo;
    }
    var after := dates.GetAll();
    var tracked := ParseDates(after);
    if tracked.None? {
      return Err(ValueError);
    }
    var keyboard := Build(DateKeyboard(DateMenu(today, tracked.value)));
    r := Ok(Toggle(action, d, keyboard));
  }

  /** The dialogue state of `CoefStates`. */
  datatype CoefState = AwaitingCoefficient

  /** aiogram's per-chat `FSMContext`, reduced to its state. */
  class FsmContext {
    var state: Option<CoefState>

    constructor ()
      ensures state == None
    {
      state := None;
    }

    method SetState(s: CoefState)
      modifies this
      ensures state == Some(s)
    {
      state := Some(s);
    }

    method Clear()
      modifies this
      ensures state == None
    {
      state := None;
    }
  }

  /** A message answer: the message key and the keyboard sent with it. */
  datatype Answer = Answer(messageKey: string, keyboard: Option<Markup>)

  /** `awaiting_coefficient`, reached by the coefficient button's pattern. */
  method AskCoefficient(text: string, fsm: FsmContext) returns (a: Answer)
    requires MatchesCoefficientReply(text)
    modifies fsm
    ensures fsm.state == Some(AwaitingCoefficient)
    ensures a == Answer("enter_coefficient", None)
  {
    fsm.SetState(AwaitingCoefficient);
    a := Answer("enter_coefficient", None);
  }

  /**
   * `set_coefficient`: an integer text is stored under `"coefficient"` and
   * answered with the tracking menu showing it; other text stores nothing;
   * both clear the dialogue state. A message without text makes `int(None)`
   * raise `TypeError`, which nothing catches, so the state stays.
   */
  method SetCoefficient(text: Option<string>, cache: WildberriesCacheManager<Value>, fsm: FsmContext)
    returns (r: Result<Answer, HandlerError>)
    requires fsm.state == Some(AwaitingCoefficient)
    modifies cache, fsm
    ensures text.None? ==>
      r == Err(TypeError) && cache.entries == old(cache.entries) && fsm.state == Some(AwaitingCoefficient)
    ensures text.Some? && ParseInt(text.value).Some? ==>
      var c := ParseInt(text.value).value;
      && cache.entries == old(cache.entries)[CoefficientKey := Number(c)]
      && fsm.state == None
      && r == Ok(Answer("coefficient_success", Some(KeyboardLayout(AddTrackingItemsMenuKeyboard(Some(c))))))
    ensures text.Some? && ParseInt(text.value).None? ==>
      cache.entries == old(cache.entries) && fsm.state == None && r == Ok(Answer("coefficient_failure", None))
  {
    if text.None? {
      return Err(TypeError);
    }
    var parsed := ParseInt(text.value);
    if parsed.None? {
      fsm.Clear();
      return Ok(Answer("coefficient_failure", None));
    }
    var c := parsed.value;
    cache.Set(CoefficientKey, Number(c));
    fsm.Clear();
    var keyboard := Build(AddTrackingItemsMenuKeyboard(Some(c)));
    r := Ok(Answer("coefficient_success", Some(keyboard)));
  }

  /** `/clearall`: the three tracking tables are emptied; the cache is not among what it may change. */
  method ClearWarehouses(warehouses: TrackedWarehouseManager, boxTypes: BoxTypeManager, dates: DateManager)
    modifies warehouses, boxTypes, dates
    ensures warehouses.Valid() && warehouses.rows == []
    ensures boxTypes.Valid() && boxTypes.rows == []
    ensures dates.Valid() && dates.rows == []
  {
    warehouses.Clear();
    boxTypes.Clear();
    dates.Clear();
  }
}
