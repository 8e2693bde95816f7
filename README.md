# WB_logistics core in Dafny

WB_logistics is a Telegram bot that watches the Wildberries "acceptance
coefficient" feed. A user tracks some warehouses, box types and dates. The bot
sends a notification when a tracked combination shows a coefficient under the
user's threshold.

This project models the sequential logic under the bot plumbing and proves
properties of that model:

- **Registries and cache** (`db_managers.dfy`, `legacy_cache.dfy`). The SQL
  tables are classes holding a `map` or a duplicate-free `seq`. Each `add` or
  `drop` returns a pass/fail outcome. Every operation keeps the uniqueness
  invariant `Valid()`.
- **Cache-or-fetch monitor** (`api_monitor.dfy`). `get_supply_data` takes
  the HTTP outcome as a parameter and counts requests in a ghost field. The
  refresh loop runs over a sequence of iterations, and a `StopRequested`
  step stands for `stop()` being called from another task.
- **Notification matcher** (`bot.py` comprehension, in `bot.dfy`). It is an
  order-preserving filter with Python's short-circuit evaluation. It is
  followed by line formatting, the `"\n"` join, the loop over chats and the
  periodic loop.
- **Filter pipeline** `apply_filters` (`api_data_processor.dfy`). It is a
  chain of optional filters over rows, where dates are integers.
- **Keyboards** (`keyboards.dfy`). This covers the reply/inline split of
  `build` (a loop, proved against a layout function), the callback encoders,
  the tracking-menu label and the coefficient button's regular expression.
- **Supply handlers** (`supply_handlers.dfy`). These are the menu lists
  (deduplicate, sort by a key with `СЦ` plus whitespace removed, mark the
  tracked items), the callback payload parsers and their round trips with the
  encoders, the read-decide-write toggles, `set_coefficient` and `/clearall`.

The supporting modules are:

- `wrappers.dfy`: `Option`, `Result` and `Outcome`.
- `text.dfy`: Python's `int()` on decimal text, `str()` of integers, `split`
  by one character, `join`, `replace`, `\s`, slicing and string ordering.
- `seqs.dfy`: filter, map, dedupe, sort, and their lemmas.

Representation choices:

- A warehouse id is an `int` everywhere. The `id TEXT` column declared at
  app/db/db.py:70 would hand back text that the handlers compare with an
  int (app/handlers/supply.py:155,164). It matters most for the notification
  matcher: `WarehouseShort(id=wh["warehouseID"], ...) in warehouses_to_track`
  (app/bot.py:56-58) would compare an int id with a text id and never match,
  so the bot as written would never notify about a tracked warehouse. The
  model takes the int reading.
- `WarehouseShort`, `RightDate` and `Warehouse` are imported from app/dto.py
  but not defined there. `WarehouseShort` is an `(id, name)` record compared
  by value, as a dataclass `==` is. `RightDate` is a day number. Its
  `to_string` is the decimal rendering, and its `from_string` parses that
  rendering back.
- The snapshot's JSON values are a small `Value` type: a number, a string, or
  a list of feed entries. Storing and reloading a value returns it unchanged.
- The notification matcher tests `WarehouseShort(id, name) in tracked`
  (app/bot.py:56-58), so it matches on id and name, not on id alone.

## Model

| member | source | states |
|---|---|---|
| Db.WildberriesCacheManager.Initialize | app/db/db.py:38-44 | Creating the table keeps every stored entry |
| Db.WildberriesCacheManager.Set | app/db/db.py:46-51 | Upsert: the key maps to the new value, replacing any old one; every other key is unchanged |
| Db.WildberriesCacheManager.Get | app/db/db.py:53-59 | Returns the stored value for a present key and `None` for an absent one |
| Db.WildberriesCacheManager.Clear | app/db/db.py:61-62 | The cache table is empty afterwards |
| Db.TrackedWarehouseManager.constructor | app/db/db.py:67-73 | A new table is empty and satisfies the uniqueness invariant |
| Db.TrackedWarehouseManager.GetAll | app/db/db.py:75-80 | Returns exactly the stored rows (in insertion order, the model's choice) |
| Db.TrackedWarehouseManager.Add | app/db/db.py:82-86 | Fails and writes nothing when the id or the name is already present; otherwise appends exactly that row; ids and names stay unique |
| Db.TrackedWarehouseManager.Drop | app/db/db.py:88-93 | Fails and writes nothing for an absent id; otherwise removes the rows with that id and keeps the rest in order |
| Db.TrackedWarehouseManager.Get | app/db/db.py:95-99 | Succeeds exactly when the id is stored, and then returns a stored row with that id |
| Db.TrackedWarehouseManager.Clear | app/db/db.py:101-102 | Empties the warehouse table only |
| Db.DropWarehouseRemovesOneRow | app/db/db.py:88-93 | In a table with unique ids, dropping the id of row i removes exactly row i |
| Db.BoxTypeManager.constructor | app/db/db.py:107-113 | A new table is empty and duplicate-free |
| Db.BoxTypeManager.GetAll | app/db/db.py:115-117 | Returns exactly the stored names |
| Db.BoxTypeManager.Add | app/db/db.py:119-123 | Fails and writes nothing on a duplicate; otherwise the table grows by exactly that name; no duplicates |
| Db.BoxTypeManager.Drop | app/db/db.py:125-130 | Fails and writes nothing on an absent name; otherwise removes exactly that name |
| Db.BoxTypeManager.Clear | app/db/db.py:132-133 | Empties the box-type table only |
| Db.DropNameRemovesOneRow | app/db/db.py:125-130 | In a duplicate-free table, dropping the name at row i removes exactly row i |
| Db.DateManager.constructor | app/db/db.py:138-144 | A new table is empty and duplicate-free |
| Db.DateManager.GetAll | app/db/db.py:146-148 | Returns exactly the stored dates |
| Db.DateManager.Add | app/db/db.py:150-154 | Fails and writes nothing on a duplicate; otherwise the table grows by exactly that date |
| Db.DateManager.Drop | app/db/db.py:156-161 | Fails and writes nothing on an absent date; otherwise removes exactly that date |
| Db.DateManager.Clear | app/db/db.py:163-164 | Empties the date table only |
| LegacyCache.WildberriesCacheManager.Initialize | app/db.py:9-17 | Creating the table keeps every stored entry |
| LegacyCache.WildberriesCacheManager.Set | app/db.py:19-26 | After `set(k, v)` the key maps to `v`, overwriting any previous value; other keys unchanged |
| LegacyCache.WildberriesCacheManager.Get | app/db.py:28-36 | A key never set, or deleted, gives `None`; a stored key gives its value |
| LegacyCache.WildberriesCacheManager.Delete | app/db.py:38-41 | Removes only that key; deleting an absent key changes nothing |
| LegacyCache.WildberriesCacheManager.Clear | app/db.py:43-46 | Leaves the store empty |
| LegacyCache.WildberriesCacheManager.GetAll | app/db.py:48-53 | Holds exactly the stored keys, each with the value `get` returns |
| Text.ParseIntToString | app/handlers/supply.py:155 | `int(str(n)) == n` for every integer n |
| Text.IntToStringInjective | app/keyboards/keyboards.py:128 | Distinct ids render as distinct callback digits |
| Text.JoinSplit | app/handlers/supply.py:287 | Joining the `:`-split of a string with `:` gives the string back |
| Text.SplitJoin | app/bot.py:65 | Splitting a join of separator-free parts recovers the parts |
| Text.Split | app/handlers/supply.py:155 | A split has at least one part, and no part contains the separator |
| Text.Take | app/bot.py:53 | `s[:n]` is s itself when s has at most n characters, and otherwise exactly the first n characters of s |
| Text.DropSpaces | app/handlers/supply.py:128 | Removes the longest whitespace prefix: the result is a suffix of the input, everything removed is whitespace, and the result does not start with whitespace |
| Seqs.SortByCorrect | app/handlers/supply.py:127-129 | `list.sort(key=...)` yields an arrangement sorted by the key that is a permutation of its input |
| Seqs.Distinct | app/handlers/supply.py:126 | `list(set(xs))` has no duplicates and exactly the elements of xs |
| Dto.DeliveryTypeValueInjective | app/dto.py:13-17 | The four delivery types have four distinct string values |
| Dto.RightDateRoundTrip | app/handlers/supply.py:287-288 | `from_string(to_string(d)) == d` |
| Dto.RightDateToStringInjective | app/handlers/supply.py:292 | Distinct dates have distinct serializations, so the date table identifies dates |
| ApiDataProcessor.ApplyFiltersIsConjunction | app/api_data_processor.py:28-46 | The staged filters equal one filter by the conjunction of the active conditions |
| ApiDataProcessor.ApplyFiltersResult | app/api_data_processor.py:20-46 | The result is a subsequence of the input; each row occurs as often as in the input when it passes every active filter and not at all otherwise; no filters gives the input |
| ApiDataProcessor.ApplyFiltersIdempotent | app/api_data_processor.py:28-46 | Applying the filters twice equals applying them once |
| ApiDataProcessor.ApplyFiltersOrderIrrelevant | app/api_data_processor.py:28-46 | The filters split across two calls give the same result in either order |
| ApiDataProcessor.RangeFilterInclusive | app/api_data_processor.py:32 | The range filter keeps a row exactly when `start <= date <= end`, both ends included |
| ApiDataProcessor.PeriodArgumentRaises | app/api_data_processor.py:29-32 | As written, a `TimePeriod` argument falls into the indexing branch and raises `TypeError` |
| ApiMonitor.FloorDiv | app/api_monitor.py:39 | Python's `//`: the quotient rounded towards negative infinity |
| ApiMonitor.CacheRefreshInterval | app/api_monitor.py:39 | `60 // rpm`: the most whole seconds that fit rpm times into a minute; 0 above 60 per minute |
| ApiMonitor.DefaultRefreshIntervals | app/api_monitor.py:111 | The rate of 5 used by `main` refreshes every 12 seconds, and the default 6 every 10 |
| ApiMonitor.CachedSnapshotStopsRequests | app/api_monitor.py:60-63 | Once a snapshot is cached, no later refresh iteration issues a request |
| ApiMonitor.CachedSnapshotIsKept | app/api_monitor.py:73-80 | Once a snapshot is cached, the refresh loop leaves the cache exactly as it is |
| ApiMonitor.RefreshTouchesOnlySnapshot | app/api_monitor.py:73-80 | At most one request per iteration; no key but the snapshot's is written |
| ApiMonitor.WildberriesSupplyApiMonitor.constructor | app/api_monitor.py:22-40 | The interval is `60 // rpm`; not running; no request made |
| ApiMonitor.WildberriesSupplyApiMonitor.GetSupplyData | app/api_monitor.py:60-71 | A hit (even an empty cached list) returns the cached value with no request; a miss makes one request, storing and returning a fetched snapshot, returning `[]` and storing nothing on a client error, and raising on any other error |
| ApiMonitor.WildberriesSupplyApiMonitor.StartCacheRefresh | app/api_monitor.py:73-80 | The request count, cache and running flag after the loop are those of the step functions; an error in one iteration does not end the loop |
| ApiMonitor.WildberriesSupplyApiMonitor.Run | app/api_monitor.py:82-100 | Sets running before refreshing and leaves the monitor stopped afterwards, with the loop's effect on the cache |
| ApiMonitor.WildberriesSupplyApiMonitor.Stop | app/api_monitor.py:102-103 | Clears the running flag and makes no request |
| Bot.SupplyOrEmpty | app/bot.py:40-43 | An absent or falsy cached value becomes an empty (falsy) value: `{}` in the source, `Records([])` here; a truthy one is returned unchanged |
| Bot.SelectWithThreshold | app/bot.py:52-64 | With a stored threshold, the comprehension yields exactly the matching entries |
| Bot.SelectWithoutThreshold | app/bot.py:50-62 | With no threshold stored, it fails exactly when some entry passes the first four conditions, and otherwise yields nothing |
| Bot.MatchingEntriesCharacterization | app/bot.py:52-64 | The selection is a subsequence of the snapshot; each selected entry is tracked (warehouse, box type, exact date string), available (not -1) and strictly under the threshold; every such entry is kept as often as it occurs |
| Bot.NotificationLineHasNoNewline | app/bot.py:53 | A line holds no newline, given names that hold none |
| Bot.NotificationLinesRecoverable | app/bot.py:53-65 | Splitting the message at newlines gives back exactly the formatted lines, in order |
| Bot.NoticeOutcomes | app/bot.py:45-74 | No supply data means nothing is sent; non-list data raises; with a threshold the message is built from the matching entries; without one it raises exactly when an entry is tracked |
| Bot.Broadcast | app/bot.py:67-72 | One message per chat id, in order, each carrying the text |
| Bot.TelegramBot.GetSupplyData | app/bot.py:40-43 | The cached snapshot or, when it is absent or falsy, an empty (falsy) value: `{}` in the source, `Records([])` here |
| Bot.TelegramBot.SendNotifications | app/bot.py:45-74 | The sending loop's dispatch is the one the current notice calls for: nothing, a crash, or the message to every chat in order |
| Bot.TelegramBot.ScheduleNotification | app/bot.py:76-80 | A raised notice ends the loop after one round; otherwise every round dispatches the same notice |
| Keyboards.CallbackData | app/keyboards/keyboards.py:80 | A given callback is kept; without one, the first 64 characters of the text are used |
| Keyboards.Build | app/keyboards/keyboards.py:69-97 | The loop builds the markup the layout function specifies |
| Keyboards.KeyboardLayoutKind | app/keyboards/keyboards.py:73-97 | A reply keyboard exactly when some button is a reply button, holding only those in order; resize exactly for reply keyboards; otherwise every button inline, in order |
| Keyboards.WarehousesKeyboardLayout | app/keyboards/keyboards.py:123-131 | One inline button per warehouse, in order, with callback `"wh:" + id` |
| Keyboards.BoxTypesKeyboardLayout | app/keyboards/keyboards.py:134-142 | One inline button per label, in order, with callback `"bt:" + label` |
| Keyboards.DateKeyboardLayout | app/keyboards/keyboards.py:145-151 | One inline button per date, in order, with callback `"dt:" + to_string()` |
| Keyboards.TrackingMenuLayout | app/keyboards/keyboards.py:154-170 | The tracking menu is a resizable reply keyboard of four fixed buttons; a missing coefficient shows as 0 |
| Keyboards.GreetingsLayout | app/keyboards/keyboards.py:100-108 | The greeting is a resizable reply keyboard of QUESTION, SHOP and BONUS followed by UNSUBSCRIBE when the user is subscribed and SUBSCRIBE otherwise |
| Keyboards.CoefficientLabelRouted | app/keyboards/keyboards.py:49-52 | The menu's coefficient label matches the button's regular expression exactly when the coefficient is not negative |
| SupplyHandlers.ScKeyStripsPrefix | app/handlers/supply.py:127-129 | The sort key of `"СЦ" + whitespace + rest` is rest; a name without the prefix is its own key |
| SupplyHandlers.MenuOrderCorrect | app/handlers/supply.py:126-129 | A deduplicated, sorted list: no duplicates, sorted by the key, exactly the input's elements |
| SupplyHandlers.WarehouseMenuCorrect | app/handlers/supply.py:122-141 | The warehouse menu lists each (id, name) pair of the snapshot once, sorted by the stripped name, with `🏫 ` prefixed exactly to the tracked ones |
| SupplyHandlers.BoxTypeMenuCorrect | app/handlers/supply.py:209-220 | The box-type menu lists each name once, sorted by the same key, with `📦 ` prefixed exactly to the tracked ones |
| SupplyHandlers.ParseDates | app/handlers/supply.py:266 | Either every stored date parses, in order, or some stored date does not |
| SupplyHandlers.DisplayNeverMarked | app/handlers/supply.py:270-274 | A rendered date never starts with the `🗓️ ` marker, so the marker alone tells tracked labels apart |
| SupplyHandlers.DateMenuCorrect | app/handlers/supply.py:268-275 | Fifteen consecutive, distinct days starting today; a label starts with `🗓️ ` exactly when its day is tracked, and with the marker dropped it is the day's rendering |
| SupplyHandlers.SplitTagged | app/handlers/supply.py:155 | A payload `tag:rest` splits as the tag followed by the split of rest |
| SupplyHandlers.WarehouseCallbackRoundTrip | app/handlers/supply.py:155 | The warehouse parser recovers the id the keyboard encoded |
| SupplyHandlers.BoxTypeCallbackRoundTrip | app/handlers/supply.py:232 | A name without `:` is recovered from its button, marked or not |
| SupplyHandlers.DeliveryTypeCallbackRoundTrip | app/handlers/supply.py:232 | Each of the four delivery types is recovered from its button, marked or not |
| SupplyHandlers.DatePayloadAfterFirstColon | app/handlers/supply.py:287 | The date payload is everything after the first `:`, whatever it holds |
| SupplyHandlers.DateCallbackRoundTrip | app/handlers/supply.py:287-288 | The date parser recovers the date the keyboard encoded |
| SupplyHandlers.ToggledFlipsMembership | app/handlers/supply.py:235-240 | A toggle flips its element's membership, leaves every other element as it was, and keeps the table duplicate-free |
| SupplyHandlers.FirstNameWithIdCorrect | app/handlers/supply.py:158-162 | The name found is that of the first entry with the id; there is none exactly when no entry has it |
| SupplyHandlers.FindWarehouseName | app/handlers/supply.py:158-162 | The lookup loop returns the first entry's name for the id |
| SupplyHandlers.WarehouseToggledFlips | app/handlers/supply.py:164-171 | A tracked id stops being tracked; an untracked id with a free name starts being tracked under the name found; other warehouses are unaffected |
| SupplyHandlers.GetAddWarehouseMenu | app/handlers/supply.py:117-150 | The warehouse menu keyboard for the snapshot and the tracked rows, or `TypeError` without a snapshot |
| SupplyHandlers.GetAddBoxTypeMenu | app/handlers/supply.py:204-227 | The box-type menu keyboard, or `TypeError` without a snapshot |
| SupplyHandlers.GetAddDateMenu | app/handlers/supply.py:263-282 | The date menu keyboard for the tracked dates, or `ValueError` when a stored date does not parse |
| SupplyHandlers.ToggleWarehouse | app/handlers/supply.py:153-201 | An unparsable payload or missing snapshot writes nothing; otherwise the rows become the toggled rows, and the reply names the action and the refreshed menu, or fails when no name was found or the insert failed |
| SupplyHandlers.ToggleBoxType | app/handlers/supply.py:230-260 | The table becomes the toggled table; the reply names the action and carries the refreshed menu, or fails with `TypeError` after the write when there is no snapshot |
| SupplyHandlers.ToggleDate | app/handlers/supply.py:285-318 | An unparsable date writes nothing; otherwise its `to_string()` form is toggled, and the reply carries the refreshed menu or fails when a stored date does not parse |
| SupplyHandlers.FsmContext.SetState | app/handlers/supply.py:80 | The dialogue state becomes the given state |
| SupplyHandlers.FsmContext.Clear | app/handlers/supply.py:89 | The dialogue state is cleared |
| SupplyHandlers.AskCoefficient | app/handlers/supply.py:75-80 | Enters the awaiting-coefficient state and asks for the value |
| SupplyHandlers.SetCoefficient | app/handlers/supply.py:83-98 | An integer is stored under `"coefficient"` and answered with the menu showing it; other text stores nothing; both clear the state; a message without text raises and leaves the state |
| SupplyHandlers.ClearWarehouses | app/handlers/supply.py:110-114 | All three tracking tables are empty; the cache is not touched |

## Left out

- SQL and aiosqlite mechanics: connections, commits, `ON CONFLICT`, and the JSON encoding of cache values. Tables are maps or sequences, and values are stored as they are.
- JSON `null`, and values other than numbers, strings and lists of feed entries.
- The HTTP request, auth headers and `AsyncLimiter` rate limiting in `make_request`. These are foreign libraries; the request's outcome is a parameter.
- asyncio tasks, the sleeps in the refresh and notification loops, cancellation, and `app/main.py`. Loops run over a given sequence of iterations or a given number of rounds. `app/main.py:22` passes `requests_per_minute` in the `db_path` position; that file is not part of this model.
- The Telegram transport: `send_message`, `edit_text`, `answer`, the `delete_previous_message` decorator, `supply_command`, `base.py`, the aiogram builder objects and `adjust`. Replies are reduced to message keys, actions and keyboards.
- YAML message texts, pandas `coef_list2pdDF`, and `to_datetime`.
- `datetime.today()`, which is a parameter. `display_date` has no definition to follow, and a date's rendering stands in for it.
- The rows of `apply_filters` are records rather than a DataFrame. The parameter shift caused by the `pd,DataFrame` typo at app/api_data_processor.py:21 is not modelled; the intended parameter list is.
- `remove_unavailable` is a plain bool, so the "only `True` itself" distinction for other truthy values is not modelled.
- Text.ParseInt: accepts an optional `+` or `-` sign followed by ASCII digits only. Python's `int()` also accepts surrounding whitespace, `_` separators and non-ASCII digits.
- ApiMonitor.WildberriesSupplyApiMonitor.constructor: requires a non-zero rate, so the `ZeroDivisionError` that `60 // 0` raises at app/api_monitor.py:39 is not modelled; every caller passes a non-zero rate.
- Keyboards.MatchesCoefficientReply: reads `\d` as an ASCII digit, whereas Python's `re` also accepts other Unicode digits.
- The order `get_all` returns rows in: the SELECTs at app/db/db.py:76,116,147 have no ORDER BY, so SQLite promises none. The model returns insertion order; every use of the result is a membership test.
- Seqs.Distinct: `list(set(...))` has an unspecified iteration order. Distinct keeps first occurrences, so the relative order of two items with equal sort keys is not that of CPython.
- SupplyHandlers.BoxTypeCallbackRoundTrip: requires that the name does not itself contain `📦 `, since `replace` would remove it there too.
- Db.TrackedWarehouseManager.Add: a duplicate fails with no row written. In the source the failure surfaces as a `NameError` (app/db/db.py:86 uses undefined names) rather than the intended `ValueError`, and the handlers report that failure as `NameError`.
- SupplyHandlers.ToggleDate: `RightDate.from_string` is not shown, so "does not parse" stands for whatever it raises, reported as `ValueError`.

## Findings

| source | as written | input that shows it | evidently intended | confidence | as-written member | corrected member |
|---|---|---|---|---|---|---|
| app/api_data_processor.py:29-32 | A `dates` argument that is not a `list` is indexed as `dates[0]` and `dates[-1]`, and `TimePeriod` is a plain dataclass without indexing | `dates=TimePeriod(1, 3)`, which the signature allows, raises `TypeError` | A `TimePeriod` keeps the rows with `start_date <= date <= end_date` | not executed | ApiDataProcessor.PeriodArgumentRaises | ApiDataProcessor.RangeFilterInclusive |
