# StockMaster inventory ledger — a Dafny model

StockMaster is a single-user inventory demo that runs in the browser. A
language model turns a typed command into a structured intent. The command
handler checks that intent and applies it to a small ledger kept in the
browser's local storage. The dashboard then shows totals, a per-location
chart and the audit log.

This project models four parts:

- **The ledger** (`services/dbService.ts`). It is a product table keyed by
  case-insensitive name, plus an audit log kept newest first. Module
  `DbService` holds pure specification functions: `FindIndex`, `AfterAdd`,
  `AfterMove` and `AfterAdjust`. Its class `Store` has one field per storage
  key. Each field is `None` while the key is absent. The methods `InitDb`,
  `AddLog`, `AddProduct`, `MoveProduct`, `AdjustStock` and `SeedData` update
  those fields and are proved against the functions. The lemmas prove three
  things:
  - the case-insensitive uniqueness of names is preserved;
  - each successful operation prepends exactly one log entry;
  - each operation's effect on the total number of units.
- **The command handler** (`App.tsx`, `handleCommand`). `PlanFor` is the
  decision table: throw the interpreter's error, check the parameters of
  each tool, or pick a ledger call. `Attempt` gives how a plan ends, and
  `Applied` gives what it does to storage. Class `CommandCenter` holds the
  component's state: the input, the status line, and the rendered copies of
  the collections. `HandleCommand` is proved against those three functions.
- **The metric cards** (`components/MetricsCards.tsx`): total units, the
  number of distinct lower-cased names, the last action and its time text.
- **The location chart** (`components/InventoryChart.tsx`). The `reduce` is
  modelled as an insertion-ordered dictionary (`Upsert`, `LocationData`).
  Its entries become coloured bars (`Render`).

The clock and the random generator supply product ids, SKU numbers, log ids
and timestamps. They enter every ledger operation as a `Stamp` parameter.
The language-model interpreter is a function parameter
`string -> AICommandResponse`.

The model follows the code where the code does less than the repository's
own declarations and comments suggest:

- `addProduct` on an existing name changes only the quantity. The comment at
  services/dbService.ts:52-54 weighs updating the location too, but the code
  does not. The log text names the stored location.
- `DELIVER_STOCK` is declared at types.ts:21 and offered to the interpreter
  at services/geminiService.ts:19-21. The handler has no case for it, so it
  is rejected as an unknown command, and the ledger has no delivery
  operation.
- `Log.type` is declared at types.ts:16, but `addLog` never sets it, so
  `Log` has no such field.
- `addProduct` accepts any quantity, zero and negative included. The handler
  at App.tsx:56 refuses a zero quantity, because zero is falsy, and lets
  negative quantities through.

## Model

| member | source | states |
|---|---|---|
| Text.Lower | services/dbService.ts:48 | lowering keeps the length and maps each character by ASCII lowering, so no upper-case letter remains |
| Text.Trim | App.tsx:39 | `trim()` is never longer than its input, and a non-empty result starts and ends with a character that is not white space |
| Text.TrimEmptyIffBlank | App.tsx:39 | `input.trim()` is empty exactly when the input is empty or all white space |
| Text.IntToString | services/dbService.ts:97 | `${n}` renders an integer as decimal digits, with a leading "-" exactly when it is negative |
| Text.IntToStringRoundTrip | services/dbService.ts:56 | the decimal text printed for a quantity in log and status messages determines the quantity |
| DbService.FindIndex | services/dbService.ts:48 | the result is the first product whose lower-cased name equals the lower-cased argument; absent when no product matches |
| DbService.FindIndexOnlyMatch | services/dbService.ts:74 | under unique names, `find` and `findIndex` land on the one product that matches |
| DbService.Sku | services/dbService.ts:61 | the SKU is "SKU-" followed by the decimal digits of the random number, which reads back as that number |
| DbService.CategoryOrDefault | services/dbService.ts:46 | an omitted category is "General"; a given one, even empty, is kept |
| DbService.AfterAdd | services/dbService.ts:46-66 | a matching product gains exactly `qty` and nothing else changes; with no match, one new product is appended after an unchanged prefix |
| DbService.AfterMove | services/dbService.ts:72-86 | not found exactly when no name matches; otherwise only the found product's location becomes `to_location`, and its quantity is kept |
| DbService.AfterAdjust | services/dbService.ts:89-100 | not found exactly when no name matches; otherwise only the found product's quantity becomes `true_qty`, with no sign check |
| DbService.UpdateKeepsNames | services/dbService.ts:51 | rewriting one product without renaming it keeps the set of lower-cased names and their uniqueness |
| DbService.AddInvariants | services/dbService.ts:48-66 | `addProduct` keeps names unique, adds exactly `qty` units to the total, and adds one distinct name exactly when the name was new |
| DbService.MoveInvariants | services/dbService.ts:76-82 | `moveProduct` keeps every name, uniqueness and the unit total |
| DbService.AdjustInvariants | services/dbService.ts:93-96 | `adjustStock` keeps every name and uniqueness, and changes the total by `true_qty - oldQty` |
| DbService.AddDetails | services/dbService.ts:50-68 | the "Updated" text when the name matches a stored product, the "Created" text otherwise |
| DbService.UpdatedDetails | services/dbService.ts:56 | the log text for an existing product starts "Updated <name>: +" |
| DbService.CreatedDetails | services/dbService.ts:68 | the log text for a new product starts "Created <name>: " and ends with the parenthesised category |
| DbService.MovedDetails | services/dbService.ts:83 | the move log text says "all" for a zero quantity and the decimal quantity otherwise, followed by the name and "from" |
| DbService.AuditDetails | services/dbService.ts:97 | the audit log text starts "Audit <name>: Corrected qty from " |
| DbService.NotFoundMessage | services/dbService.ts:85-99 | the error names the product in double quotes and ends with a full stop |
| DbService.SeedProducts | services/dbService.ts:105-107 | the three seeded products, with unique names, positive quantities, no `minStock`, and ids from the three stamps in order |
| DbService.SeedLogs | services/dbService.ts:105-107 | three ADD_STOCK "Created" entries, newest first, so the last seeding call's timestamp heads the log |
| DbService.SeedSteps | services/dbService.ts:105-108 | each seeding call meets a new name, so it appends its product and logs a "Created" entry |
| DbService.SeedIsValid | services/dbService.ts:104-110 | the seed holds three products with unique names and 670 units |
| DbService.Store.constructor | services/dbService.ts:3-4 | a fresh storage holds neither key |
| DbService.Store.Products | services/dbService.ts:18-21 | an absent products key reads as the empty list |
| DbService.Store.Logs | services/dbService.ts:23-26 | an absent logs key reads as the empty log |
| DbService.Store.InitDb | services/dbService.ts:9-16 | missing keys become empty lists, present ones are left alone, and what readers see is unchanged |
| DbService.Store.AddLog | services/dbService.ts:32-42 | exactly one entry is prepended, the old log is the tail, and the products are untouched |
| DbService.Store.AddProduct | services/dbService.ts:46-70 | the stored list is `AfterAdd` of the old one with the defaulted category; one ADD_STOCK entry with the updated or created text is prepended; uniqueness is kept and the total grows by `qty` |
| DbService.Store.MoveProduct | services/dbService.ts:72-87 | fails with `Product "<name>" not found.` and writes nothing exactly when no name matches; otherwise stores `AfterMove`, prepends one MOVE_STOCK entry ("all" when `qty` is 0) and keeps the total |
| DbService.Store.AdjustStock | services/dbService.ts:89-101 | fails with "not found" and writes nothing exactly when no name matches; otherwise stores `AfterAdjust`, prepends one ADJUST_STOCK entry with the old and new quantities, and shifts the total by the correction |
| DbService.Store.SeedData | services/dbService.ts:104-110 | changes nothing when products exist; on an empty list it stores the three demo products and prepends three entries, the newest for "Steel Rods" |
| Totals.TotalItems | components/MetricsCards.tsx:21 | the units summed over all products; 0 for no products |
| Totals.TotalItemsConcat | components/MetricsCards.tsx:21 | the total of a concatenation is the sum of the totals |
| Totals.TotalItemsUpdate | components/MetricsCards.tsx:21 | replacing one product shifts the total by the change in its quantity |
| Totals.TotalItemsNonNegative | components/MetricsCards.tsx:21 | with no negative quantity the total is not negative |
| Totals.UniqueProducts | components/MetricsCards.tsx:22 | the number of distinct lower-cased names, which is 0 exactly when there are no products |
| Totals.UniqueProductsBound | components/MetricsCards.tsx:22 | the distinct lower-cased names never outnumber the products, and equal them exactly when the names are unique |
| Metrics.LastAction | components/MetricsCards.tsx:23 | the newest log entry's action, or "N/A" for an empty log |
| Metrics.LastActionTime | components/MetricsCards.tsx:24 | "" for an empty log; otherwise field 1 of the newest timestamp, absent exactly when that timestamp has no comma |
| Metrics.IndexOfComma | components/MetricsCards.tsx:24 | the position of the first comma, with no comma before it |
| Metrics.SplitComma | components/MetricsCards.tsx:24 | `split(',')` gives at least one field and no field contains a comma |
| Metrics.SplitJoinRoundTrip | components/MetricsCards.tsx:24 | joining the fields with commas gives the timestamp back |
| Metrics.SecondField | components/MetricsCards.tsx:24 | `split(',')[1]` is absent exactly when there is no comma, and never contains a comma |
| Metrics.SecondFieldSpec | components/MetricsCards.tsx:24 | field 1 is absent exactly when there is no comma; otherwise it is the text between the first comma and the next comma or the end |
| Metrics.ActivitySubtext | components/MetricsCards.tsx:44 | "No recent activity" exactly when the time is absent or empty, otherwise "at " and the time |
| Metrics.ActivitySubtextCases | components/MetricsCards.tsx:24 | an empty log, or a newest timestamp without a comma, shows no activity; "date, time" shows "at" and the time |
| Chart.LocationKey | components/InventoryChart.tsx:12 | an empty location is bucketed as "Unknown", any other is kept |
| Chart.Upsert | components/InventoryChart.tsx:13 | a present key keeps its place and grows by `qty`; a new key is appended; lookups change only at that key; the dictionary total grows by `qty`; keys stay distinct |
| Chart.LocationData | components/InventoryChart.tsx:11-15 | the fold leaves distinct keys, at most one entry per product, and no entries exactly when there are no products |
| Chart.LocationDataSpec | components/InventoryChart.tsx:11-15 | the fold has one entry per occurring location key; each key holds its products' units; the entries sum to the total units; at most one entry per product |
| Chart.LookupDistinct | components/InventoryChart.tsx:17-20 | reading an entry's key from the dictionary yields that entry's units |
| Chart.NamesCardinality | components/InventoryChart.tsx:17 | a dictionary has as many entries as distinct keys |
| Chart.ChartRows | components/InventoryChart.tsx:11-20 | each data row carries exactly its location's units; the rows sum to the total; there are no more rows than products, and none exactly when there are no products |
| Chart.Render | components/InventoryChart.tsx:22-30 | the placeholder is shown exactly when there are no products; otherwise there is one bar per row, in order, with colour `COLORS[i mod 5]` |
| App.TruthyText | App.tsx:48 | an optional string is falsy exactly when it is absent or empty |
| App.TruthyNumber | App.tsx:56 | an optional number is falsy exactly when it is absent or 0 |
| App.PlanFor | App.tsx:48-79 | a truthy `error` is thrown before anything else; each tool's parameter check and default follows the switch; REPORT calls nothing; DELIVER_STOCK and UNKNOWN are unknown commands |
| App.PlanTruthinessEdges | App.tsx:48-68 | a zero qty or empty name refuses ADD_STOCK and a negative qty passes; a zero `true_qty` is accepted; a move without qty uses 0; an empty error string is no error, so REPORT still goes through |
| App.SuccessMessage | App.tsx:58-74 | each successful tool reports a sentence ending in a full stop: "Added …", "Moved <name> …", "Adjusted <name> …", or the report notice |
| App.Attempt | App.tsx:54-79 | a rejected plan fails with its message; move and adjust fail with "not found" exactly when no name matches; add and report always pass |
| App.Applied | App.tsx:54-79 | a failed plan or REPORT writes nothing; a successful call writes the ledger's new product list and prepends exactly one entry, so storage is never deleted and the old log is always the tail |
| App.AppliedInvariants | App.tsx:54-79 | any command keeps product names unique; the log gains exactly one newest entry when a ledger call succeeds and is unchanged otherwise |
| App.LastActivityAfterCommand | components/MetricsCards.tsx:23-24 | after a successful ledger call the "Last Activity" card shows that call's action and its stamp's time; any other command leaves the card unchanged |
| App.ErrorText | App.tsx:86 | the shown error is the message, or "An error occurred." when the message is empty |
| App.FailuresHaveMessages | App.tsx:85-86 | every failure carries a non-empty message, so the fallback text is never shown |
| App.InterpreterFailureSurfaced | services/geminiService.ts:75-81 | the interpreter's own failure answer is shown as its error message |
| App.CommandCenter.constructor | App.tsx:18-22 | the component starts with empty input, no status and empty collections |
| App.CommandCenter.RefreshData | App.tsx:32-35 | the rendered collections are re-read from storage |
| App.CommandCenter.Mount | App.tsx:26-30 | after mounting, storage holds the seed when it had no products; the rendered collections match storage |
| App.CommandCenter.Dispatch | App.tsx:54-79 | makes the planned ledger call; reports a failure exactly when `Attempt` fails, with its message; storage changes as `Applied` says |
| App.CommandCenter.HandleCommand | App.tsx:37-90 | blank input changes nothing. On success: success status, cleared input, re-read collections. On failure: error status with the thrown message, input kept, nothing re-read. Storage changes as `Applied` says |

## Left out

- The language-model call (services/geminiService.ts) is not part of this
  model. The model takes it as a function parameter returning an
  `AICommandResponse`. The awaited round trip and the `loading` flag are
  not modelled.
- Local storage and JSON serialisation are not modelled. Each key is an
  in-memory `Option` field.
- Malformed stored JSON and malformed interpreter JSON are left out. This
  covers wrong field types, a `null` `true_qty`, and a `tool` outside the
  six values.
- Clocks and randomness are inputs (`Stamp`). Nothing is claimed about the
  uniqueness of ids, which can collide.
- A stored empty string cannot be represented. `initDb` and `getProducts`
  both treat it as a missing key, because the empty string is falsy.
- Quantities are unbounded integers. JavaScript numbers are doubles, so
  fractions, `NaN` and the exponent notation of very large numbers in
  template literals are not modelled.
- `toLowerCase` is modelled on ASCII letters only. Unicode case mapping is
  not modelled.
- Chart order: `Object.entries` lists integer-like keys (such as a location
  named "12") before other keys, in numeric order. The model keeps
  insertion order for every key.
- Chart.LocationData: a location named after an `Object.prototype` member
  ("__proto__", "constructor", "toString", …) is not modelled. The `{}`
  accumulator inherits those names. For "__proto__" the assignment changes
  the prototype and adds no entry, so the source can show the placeholder
  for a non-empty product list. For "constructor" the sum starts from a
  function and becomes a string. The model treats these like any other
  key, so the guarantees of `ChartRows` and `Render` (no rows only for no
  products, rows summing to the total) do not hold for such locations.
- Rendering is not modelled: JSX, recharts, `toLocaleString` number
  formatting, icons, tabs and components/Tables.tsx.
- `minStock` and low-stock classification are not modelled. The ledger
  never writes `minStock`, so new products have none.
