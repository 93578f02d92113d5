# NVIDIA stock monitor — a Dafny model of the stock check

The monitored program polls the NVIDIA marketplace product search, and it
keeps a JSON file that maps each product SKU to the last raw status it saw.
It sends a Telegram message for every product whose status changed.
This project models the core of that program: `index.js`, its only source file.

- **Records** (`records.dfy`): how one catalog record is normalised into an
  item. Each field of the tuple (name, sku, price, status, link) that is
  missing or falsy gets a fixed default. The module also holds the status
  label and the notification template.
- **StockDiff** (`diff.dfy`): the per-cycle diff, written as a pure function
  from the loaded map and the item list to the notification queue and the
  map to save. Beside it sit independent reference definitions (`Overwrite`,
  `ChangedIndices`) and lemmas linking the diff to them. It also holds the
  loop as `checkStock` writes it (`DiffRecords`).
- **Monitor** (`monitor.dfy`): one polling cycle, the startup "announce
  all" pass and a bounded run. Each produces a trace of abstract effects:
  `Fetch`, `Load`, `Save(map)` and `Send(text)`. What the catalog fetch and
  the state-file load returned are parameters. The imperative methods
  (`CheckStock`, `SendInitialStatus`, `Startup`, `Run`) are proved to
  produce exactly the functional traces.
- **Wrappers** (`wrappers.dfy`): `Option`, which stands for `null`,
  `undefined` and absent properties.

The status compared and stored is the raw upstream `prdStatus` string, or
`"out_of_stock"` when it is absent or empty. It is not a two-valued enum:
only the label tells `"buy_now"` apart from everything else. So a change
between two other strings (say `"out_of_stock"` to `"coming_soon"`) still
queues a message, and that message carries the OUT OF STOCK label.

Three consequences of the code are worth stating plainly:

- The diff is idempotent only for SKU-consistent snapshots, where every SKU
  carries one status (`StockDiff.Idempotence`). Two records with the same
  SKU and different statuses are notified again on every cycle. Records
  without a SKU all share the default key `"Unknown SKU"`, so two of them are
  enough (`Monitor.SharedDefaultSkuRenotifies`).
- The stored status is the raw string, not a two-valued available or
  unavailable flag (see above).
- The startup pass never writes the map. With no state file, distinct SKUs
  and the same snapshot fetched again, the first cycle re-sends every startup
  message (`Monitor.BootAnnouncesTwice`).

## Model

| member | source | states |
|---|---|---|
| `Records.Normalise` | index.js:116-120 | A truthy field is kept verbatim. A missing or empty field becomes its default: "Unknown GPU", "Unknown SKU", "Unknown Price", "out_of_stock" or "". Only the link can end up empty, so the SKU used as the map key never is. |
| `Records.Message` | index.js:124-129 | A notification opens with the "Product:" header and a blank line, and its last line is the link, after a blank line. |
| `Records.Label` | index.js:122 | The label is AVAILABLE exactly when the raw status is "buy_now", and OUT OF STOCK for every other string. |
| `Records.MessageShape` | index.js:124-129 | Right after the header comes the title line. Then the SKU, price and status-label lines follow in that order, each right after its tag on a line of its own (a newline before and after), and the link line comes after the status line, past a blank line. |
| `StockDiff.Changed` | index.js:133 | A SKU with no stored status always counts as changed, whatever the item's status, because `undefined` differs from every string. |
| `StockDiff.ChangedIffWriteAlters` | index.js:133-135 | An item counts as changed exactly when writing its status into the map would alter the map, so skipping the write for an unchanged item loses nothing. |
| `StockDiff.Diff` | index.js:115-141 | The diff queues at most one notification per record. It keeps every loaded key, and every SKU of the list ends up in the map. |
| `StockDiff.DiffStateIsOverwrite` | index.js:133-137 | The map after the diff equals the loaded map overwritten, in list order, by every record's status with no comparison. Updating only on a mismatch loses nothing. |
| `StockDiff.LastWriteWins` | index.js:115-141 | For every SKU in the list, the map after the diff holds the status of the last record with that SKU. |
| `StockDiff.NoPruning` | index.js:111-147 | A SKU that no record carries keeps exactly its loaded entry, or stays absent. |
| `StockDiff.DiffKeys` | index.js:111-141 | The keys after the diff are exactly the loaded keys plus the SKUs of the list. |
| `StockDiff.MessagesInListOrder` | index.js:115-137 | The queue is in list order, one entry per record whose status differs from the map at the moment that record is visited. It is exactly the messages at the increasing positions where that holds. Repeated SKUs see the map as earlier records left it. |
| `StockDiff.FirstSeenNotified` | index.js:133-137 | The first record whose SKU is absent from the loaded map is always notified, whatever its status. |
| `StockDiff.QuietIff` | index.js:133-140 | Nothing is queued exactly when every record's status already equals the stored status of its SKU. In that case the map comes back unchanged. |
| `StockDiff.SettledAfterDiffIff` | index.js:133-137 | After a diff, every record's SKU maps to that record's status exactly when the list is SKU-consistent. |
| `StockDiff.Idempotence` | index.js:133-137 | Take the map one diff produced and diff the same list against it again. Nothing is queued exactly when the list is SKU-consistent, and then the map is unchanged. |
| `StockDiff.FreshStateNotifiesAll` | index.js:133-137 | Starting from an empty map with distinct SKUs, every record is notified, in list order. |
| `StockDiff.DiffRecords` | index.js:110-141 | The loop normalises each record where it visits it, then compares, pushes the message text and overwrites the entry. Its queued texts and final map are exactly those of the diff of the normalised list. |
| `Monitor.CycleTrace` | index.js:101-153 | The fetch comes first. A fetch that returns null ends the cycle: no load, no save, no send. Otherwise there is one load, then exactly one save, and every send comes after that save, whether or not anything changed. |
| `Monitor.Products` | index.js:110 | A present product list is taken as it is. The list is empty exactly when `searchedProducts` or `productDetails` is missing or the list itself is empty. |
| `Monitor.CycleSavesThenSendsDiff` | index.js:143-152 | The save writes the diffed map. Then one message is sent per notified record, in queue order. |
| `Monitor.EmptyPayloadSavesUnchanged` | index.js:110-147 | A payload without `searchedProducts` or `productDetails`, or with an empty list, leads to one load, then one save of the loaded map unchanged, and no send. |
| `Monitor.RepeatedSnapshotIsQuiet` | index.js:133-147 | Say a cycle loads what the previous cycle saved and fetches the same snapshot. It sends nothing and saves the same map exactly when the snapshot is SKU-consistent. |
| `Monitor.SharedDefaultSkuRenotifies` | index.js:117-136 | Take two products without a SKU, one "buy_now" and one without a status. The second cycle over them sends two messages again. |
| `Monitor.BootAnnouncesTwice` | index.js:173-181 | With no state file, distinct SKUs and the first cycle fetching the same snapshot as the startup pass, that cycle sends exactly the messages the startup pass already sent. |
| `Monitor.BackInStockNotifies` | index.js:116-136 | In a snapshot holding only that product, a stored product that turns "buy_now" leads to a saved map holding the new status and exactly one send. That message has a line with its SKU and a line with the AVAILABLE label. |
| `Monitor.StartupTrace` | index.js:175-179 | The startup pass fetches once. If data came back, it sends one message per product, in list order, each the message of the normalised record, with no comparison against any stored state and no load or save. |
| `Monitor.StartupCount` | index.js:175-179 | The startup pass performs one fetch and no load or save. |
| `Monitor.CycleCount` | index.js:101-153 | A cycle fetches once. It loads once and saves once exactly when the fetch returned data. |
| `Monitor.CyclesCount` | index.js:180-184 | n cycles fetch n times. They load and save once per cycle whose fetch returned data. |
| `Monitor.RunCounts` | index.js:173-185 | A run of n cycles fetches n + 1 times, startup included. It loads and saves once per cycle that got data; the startup pass adds none. |
| `Monitor.SendInitialStatus` | index.js:80-98 | One notification per product, in list order, each the message of the normalised record. |
| `Monitor.CheckStock` | index.js:101-153 | The imperative cycle produces exactly the effect trace `CycleTrace` describes. |
| `Monitor.SendAll` | index.js:149-152 | The drain appends one send per queued message, in queue order. |
| `Monitor.Startup` | index.js:175-179 | The startup code produces exactly the trace `StartupTrace` describes. |
| `Monitor.Run` | index.js:173-185 | The entry point produces the startup pass followed by the cycles in turn. |

## Left out

- The HTTP fetch (URL, browser headers, 10 s timeout; `index.js:63-74`) is
  not modelled. It becomes the `Option<Payload>` the cycle receives, and
  `None` stands for every error path that returns `null`, and equally for
  a falsy body (`""`, `0`, `false`), which takes the same `!data` exit
  (`index.js:105`, `index.js:176`).
- The Telegram POST, its payload, Markdown mode and its status-200 check
  (`index.js:155-171`) are not modelled. A send is the effect
  `Send(text)`. The function catches every failure and never throws, so a
  failed send cannot stop the drain, and the model has no failure outcome
  for it.
- File access and JSON parse and stringify (`index.js:42-61`) are not
  modelled. A load is the `Option<StatusMap>` the cycle receives, with
  `None` for a missing or unreadable file, which `Monitor.LoadState` reads
  as the empty map, as `loadProductState` returns `{}`. A
  save is the effect `Save(map)`. A save followed by a load is not assumed
  to round-trip, so the lemmas over two cycles take the loaded map as a
  hypothesis.
- Logging, dotenv secrets and the `changesDetected` flag are left out: the
  flag only chooses a log line.
- The 2-second pause after each send and the 30-second pause between cycles
  are timing only, so they are left out.
- Monitor.Run: models a finite number of cycles of the `while (true)`
  loop (`index.js:180-184`), given as a sequence, rather than an endless run.
- The emoji in the labels and the template are mis-encoded bytes in the
  source; they are treated as part of opaque constant strings and omitted.
  The labels read "AVAILABLE" and "OUT OF STOCK". In the source an emoji
  sits between each newline and the tag that follows it; in the model the
  tag starts the line.
- Monitor.Run: the payload and the state file are well-formed by type.
  `productDetails`, when present, is an array of objects, and the state file
  holds a plain object. In the program a truthy `productDetails` that is
  neither an array nor a string (`index.js:110`, `index.js:115`), a `null`
  product (`index.js:81`, `index.js:116`) throws. A state file holding
  `null` or another non-object value (`index.js:46`) throws at the first
  product (`index.js:133`, `index.js:136`); with an empty product list the
  loop never runs and that value is saved back unchanged (`index.js:147`). Neither `sendInitialStatus` nor
  `checkStock` is called inside a `try` (`index.js:178`, `index.js:181`), so
  the rejection ends `main` and the polling loop stops. The model has no
  such inputs, and every run completes all its cycles.
- A string `productDetails` is walked character by character
  (`index.js:80`, `index.js:115`), each character read as a record with
  every field missing; this is not modelled.
- A state file holding a JSON array parses without error (`index.js:46`),
  but the SKU properties set on it (`index.js:136`) that are not array
  indices are dropped when it is written back (`index.js:56`), so such a
  file records only the statuses of SKUs like `"123"`. This is not
  modelled: the loaded state is always a map.
- Record fields are assumed to be strings or absent. JavaScript truthiness
  of other value types is left out, and so are object-key quirks of the
  state map (a `__proto__` SKU, say) and non-string values in a loaded
  state file.
