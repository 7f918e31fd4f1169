# Parcel orders service — a Dafny model

The service keeps parcel pickup orders in one SQLite table, `orders`. Its
HTTP handlers each run one statement against that table:

- `create_order` validates the body and inserts a row with an AUTOINCREMENT id.
- `orders` lists every row, newest first.
- `get_order` looks one row up.
- `accept` sets the status to `delivered`.
- `pickup` sets it to `picked_up`.
- `payment_callback` sets `paid`.

After the change, the handler may post a best-effort Telegram message.

The model is sequential. The state is a class, `OrdersApi.OrdersApi`, with these fields:

- `rows`: a `map<int, Order>` keyed by rowid.
- `lastId`: the AUTOINCREMENT counter, i.e. SQLite's `sqlite_sequence` entry.
- The two Telegram credentials.
- A ghost log, `sent`, of notification attempts.

Each state-changing handler (`create_order`, `accept`, `pickup`,
`payment_callback`) is a method whose postcondition gives the whole new state:

- the new table;
- the counter;
- the log;
- the result.

Every UPDATE is stated through the pure single-row update functions in
`OrderTable`. The INSERT is stated as a map update that stores the row
`OrdersApi.NewRow` builds under the next rowid. The lemmas about the update
functions carry the lifecycle properties: idempotence, last-write-wins, `paid` independent of `status`,
and no-ops on unknown ids. The read-only handlers `orders` and `get_order`
are functions of the state. The listing is proved to hold every row exactly
once, in strictly descending id order, and to be the only sequence that does.

The modules:

| file | module | models |
|---|---|---|
| `Strings.dfy` | `Strings` | Python's `str.strip()` (whitespace as `str.isspace()` defines it) |
| `Request.dfy` | `Request` | JSON body values and Python truthiness; `.strip()` and `(v or "").strip()` on them; the required-field scan; how a value binds as the `id = ?` parameter |
| `OrderTable.dfy` | `OrderTable` | the `Order` row and `Status`; the `UPDATE … WHERE id = ?` statements as map updates; `ORDER BY id DESC` |
| `OrdersApi.dfy` | `OrdersApi` | the service state, the notifier and the six handlers |
| `Scenarios.dfy` | `Scenarios` | client runs on a fresh service: the end-to-end flow and the edge cases |

Some consequences of the code that are easy to miss:

- The required-field check tests the raw value for truthiness before
  stripping. A whitespace-only `client_name`, `pickup_code` or `pvz` is
  therefore accepted and stored as `""`. See `Request.WhitespaceOnlyPassesCheck` and
  `Scenarios.WhitespaceNameStoredEmpty`.
- Status changes are unconditional overwrites. `pickup` works on a `created`
  order and `accept` works on a `picked_up` one. Nothing enforces forward-only
  progress.
- `payment_callback` treats any falsy `order_id` as missing: `0`, `false`,
  `""`, `null` and empty arrays or objects. See
  `Scenarios.ZeroOrderIdRejected`.
- Some inputs make a handler raise an exception, reported as a generic
  failure (HTTP 500) with no state change and no notification:
  - a truthy required value that is not text (`.strip()` fails);
  - a truthy `expires` that is not text;
  - an exhausted rowid space;
  - a path id or a numeric `order_id` outside the 64-bit range;
  - an `order_id` that is a non-empty array or object.

## Model

| member | source | states |
|---|---|---|
| `Strings.TrimStartShape` | webapp_orders_api.py:57 | left stripping keeps the suffix from the first non-whitespace character; everything before it is whitespace |
| `Strings.TrimEndShape` | webapp_orders_api.py:57 | right stripping keeps the prefix up to the last non-whitespace character; everything after it is whitespace |
| `Strings.StripIsTrimmedInfix` | webapp_orders_api.py:57 | `strip()` returns an infix of the input with only whitespace cut off either side, and the result neither starts nor ends with whitespace |
| `Strings.StripEmptyIff` | webapp_orders_api.py:57 | the stripped value is empty exactly when the input is all whitespace |
| `Strings.StripIffStrippedFrom` | webapp_orders_api.py:57 | `strip()` returns exactly the one string that is an infix of the input with only whitespace around it, no whitespace at its ends, and empty iff the input is all whitespace |
| `Strings.StripIdempotent` | webapp_orders_api.py:57 | stripping a stripped value changes nothing |
| `Request.FirstFalsyIsFirst` | webapp_orders_api.py:50-52 | the field scan finds nothing iff every required field is truthy; otherwise it names a falsy field all of whose predecessors are truthy |
| `Request.BindDecimalText` | webapp_orders_api.py:101 | an `order_id` sent as the decimal text of n (0 <= n < 2^63) selects the same row as the number n |
| `Request.BindLeadingZero` | webapp_orders_api.py:101 | digit text with a leading zero, such as `"007"`, selects the row its number names |
| `Request.WhitespaceOnlyPassesCheck` | webapp_orders_api.py:51-57 | a non-empty whitespace-only value passes the required-field check and strips to `""` |
| `OrderTable.SetStatus` | webapp_orders_api.py:82 | the status UPDATE keeps the key set, gives row `id` (if present) the new status and changes nothing else |
| `OrderTable.SetPaid` | webapp_orders_api.py:101 | the paid UPDATE keeps the key set, sets `paid` on row `id` (if present) and changes nothing else |
| `OrderTable.SetStatusPreservesKeyed` | webapp_orders_api.py:31 | a status update keeps every row stored under its own id |
| `OrderTable.SetPaidPreservesKeyed` | webapp_orders_api.py:31 | a paid update keeps every row stored under its own id |
| `OrderTable.SetStatusLastWins` | webapp_orders_api.py:82-89 | two status updates on one id equal the second alone: the prior status never matters, and repeating `accept` or `pickup` is idempotent |
| `OrderTable.SetPaidIdempotent` | webapp_orders_api.py:101 | setting `paid` twice is the same as once |
| `OrderTable.PaidIndependentOfStatus` | webapp_orders_api.py:37-38 | the paid and status updates commute, and setting `paid` leaves every status unchanged |
| `OrderTable.Listing` | webapp_orders_api.py:68 | the rows with ids 1..k, each the stored row, strictly descending by id |
| `OrderTable.ListingIds` | webapp_orders_api.py:68 | `Listing(t, k)` holds exactly the ids of `t` in 1..k |
| `OrderTable.ListingIsListing` | webapp_orders_api.py:68 | when all ids lie in 1..bound, `Listing(t, bound)` is a full id-descending listing of the table |
| `OrderTable.ListingUnique` | webapp_orders_api.py:68 | two id-descending sequences of stored rows with the same ids are equal, so `ORDER BY id DESC` determines the result |
| `OrdersApi.InsertedValues` | webapp_orders_api.py:55-57 | the INSERT's values exist iff the required values and any truthy `expires` are text; each stored value is its raw text with the surrounding whitespace cut off, `""` exactly when that text is all whitespace, and a falsy `expires` is stored as `""` |
| `OrdersApi.CheckRequired` | webapp_orders_api.py:50-52 | the loop over `client_name`, `pickup_code`, `pvz` returns the first falsy field, or none iff all are truthy |
| `OrdersApi.ListingLength` | webapp_orders_api.py:68 | an id-descending sequence with the table's ids has one entry per row |
| `OrdersApi.OrdersApi.constructor` | webapp_orders_api.py:27-41 | a new service has an empty table, counter 0, an empty log and the given credentials |
| `OrdersApi.OrdersApi.SendTelegramMessage` | webapp_orders_api.py:13-20 | when unconfigured, nothing happens; otherwise exactly one attempt is appended, whatever its outcome; nothing else changes |
| `OrdersApi.OrdersApi.CreateOrder` | webapp_orders_api.py:47-63 | first falsy required field ⇒ `MissingField` of it, nothing changed; non-text value or full rowid space ⇒ failure, nothing changed; otherwise id = old counter + 1, above every earlier id, new row of stripped values with `created`/unpaid, other rows kept, QR payload and one notification from the raw values |
| `OrdersApi.OrdersApi.InsertRow` | webapp_orders_api.py:53-60 | the INSERT fails, changing nothing, iff a value cannot be evaluated or the counter is at 2^63-1; otherwise it stores the new row under counter + 1 and advances the counter |
| `OrdersApi.OrdersApi.Orders` | webapp_orders_api.py:65-69 | the result lists every stored row exactly once, strictly descending by id |
| `OrdersApi.OrdersApi.GetOrder` | webapp_orders_api.py:71-77 | failure iff the id does not fit in 64 bits; `Found` with the stored row iff the id is in the table; `NotFound` otherwise |
| `OrdersApi.OrdersApi.Accept` | webapp_orders_api.py:79-84 | status becomes `delivered` whatever it was; `paid`, the other rows, the counter and the log stay; an unknown id is a no-op; success iff the id fits in 64 bits |
| `OrdersApi.OrdersApi.Pickup` | webapp_orders_api.py:86-92 | status becomes `picked_up` from any status; everything else stays; unknown id is a no-op; one pickup notification on success |
| `OrdersApi.OrdersApi.PaymentCallback` | webapp_orders_api.py:94-104 | falsy `order_id` ⇒ rejected with no change and no notification; unbindable ⇒ failure, no change; otherwise `paid` is set on the row it selects (status untouched), success echoes the value, and one payment notification follows |
| `Scenarios.AliceBodyAccepted` | webapp_orders_api.py:50-57 | a body with the three fields passes the check and inserts them unchanged, with `expires` `""` |
| `Scenarios.OtherBodies` | webapp_orders_api.py:50-57 | whitespace-only name: passes, stored `""`; empty name: reported first; null `pvz`: reported; numeric name: passes the check but cannot be inserted |
| `Scenarios.EndToEnd` | webapp_orders_api.py:47-104 | create Alice's order ⇒ id 1 with its QR payload; pickup then payment ⇒ the row is `picked_up` and paid |
| `Scenarios.ListedNewestFirst` | webapp_orders_api.py:65-69 | three creates get ids 1, 2, 3 and are listed as 3, 2, 1 |
| `Scenarios.WhitespaceNameStoredEmpty` | webapp_orders_api.py:50-62 | a whitespace-only name is accepted and stored as `""`, while the QR payload keeps it as sent |
| `Scenarios.FirstMissingFieldReported` | webapp_orders_api.py:50-52 | the first falsy field in check order is reported and nothing is stored |
| `Scenarios.NonTextNameFails` | webapp_orders_api.py:57 | a numeric name fails the create without consuming an id |
| `Scenarios.ZeroOrderIdRejected` | webapp_orders_api.py:97-99 | `order_id` 0 is rejected as missing and the row stays unpaid |
| `Scenarios.NotifierFailureIgnored` | webapp_orders_api.py:16-20 | failed notifications change neither the results nor the stored status and paid flag |
| `Scenarios.UnknownIdIsNoOp` | webapp_orders_api.py:79-104 | accept and payment on an unknown id report success and create no row |
| `Scenarios.OversizedIdFails` | webapp_orders_api.py:71-92 | a path id of 2^63 makes `get_order`, `accept` and `pickup` fail |
| `Scenarios.AcceptIsIdempotent` | webapp_orders_api.py:79-84 | accepting a picked-up, paid order makes it `delivered` and keeps it paid; accepting again changes nothing |

## Left out

- HTTP transport is not modelled: Flask routing, CORS, status codes and JSON
  serialisation of responses. Handler results are datatypes, and the error
  strings are reduced to the field they name.
- Request decoding is not modelled. The body is a map from the five keys
  the handlers read to decoded JSON values. A falsy body is the empty map,
  as `request.json or {}` makes it. A body that decodes to a truthy value
  other than an object, such as `[1]`, `5`, `"x"` or `true`, makes `data.get`
  raise; that case has no counterpart. JSON floating-point numbers are not
  modelled.
- Text that Python holds but cannot encode as UTF-8 is not modelled. A JSON
  string such as `"\ud800"` decodes to a lone surrogate. `.strip()` accepts
  it, but binding it in the INSERT raises `UnicodeEncodeError`, a 500 with no
  row. A Dafny `char` cannot hold a surrogate, so `Json.Text` cannot express
  this input and the model has no such failure.
- `Request.Bind`: text is matched only when it is plain decimal digits.
  SQLite's numeric-affinity conversion also accepts signs, surrounding
  spaces and real literals such as `5.0`; the model treats those as
  matching no row.
- The SQLite connection, commits and the `CREATE TABLE IF NOT EXISTS`
  bootstrap become the in-memory map and counter. The constructor stands
  for a fresh database. Storage failures other than the ones listed above
  are not modelled.
- `created_at` (CURRENT_TIMESTAMP) comes in as a parameter of `CreateOrder`.
- The Telegram HTTP POST, its 5-second timeout and the printing of the
  exception are a foreign network call. Its outcome comes in as the
  `delivered` parameter and is recorded in the ghost log. The message text
  with emoji and Russian wording is replaced by tagged `Notification` values.
- Concurrent requests and SQLite's atomic id assignment are not modelled;
  the model is sequential.
- The `/health` route and the `__main__` start-up are not modelled. They are
  process glue with no state.
