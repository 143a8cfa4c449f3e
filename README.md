# Billing and timezone core of a small FastAPI service

This project models, in Dafny, the logic inside a small teaching HTTP
service written with FastAPI and pydantic:

- **Billing records** (`models.py`): `Customer`, `Transaction` and
  `Invoice`, and the invoice total `ammount_total`, the sum of the amounts
  of the invoice's transactions (module `Models`, file `models.dfy`).
- **Country-code lookup** (`get_time` in `main.py`): the code is
  upper-cased and looked up in a fixed five-entry table (CO, MX, AR, BR,
  PE). An unknown code is a 400 "Código ISO no válido". A timezone name the
  timezone database does not know is a 500 "Zona horaria no encontrada".
  A flag picks the 12-hour pattern `%I:%M %p` or the 24-hour pattern
  `%H:%M` (module `TimeZones`, file `timezones.dfy`).
- **In-memory stores** (`db_customers`, `db_invoices`, `create_customer`,
  `create_invoices`, `list_customer` in `main.py`): append-only lists. A
  new entry gets the id "last stored id + 1", or 1 when the list is empty
  (module `Repository`, file `repository.dfy`). Each store is a class with
  a `seq` field. Its invariant `Valid()` says the stored ids are exactly
  1, 2, ..., n in insertion order. Each `Create` method keeps it.

`wrappers.dfy` holds the `Option` and `Result` datatypes the others use.

Parameters stand in for what the model treats as abstract. `GetTime`
takes `zones`, the set of timezone names the timezone database knows. It
also takes `render(zone, pattern)`, which stands for reading the current
time in `zone` and formatting it with `pattern`.

`models.py` declares a required `total` field (models.py:47), but
`main.py` builds the `Invoice` without it (main.py:140-144) and replies
with `ammount_total`. The model keeps only the computed total. The
request body of `create_customer` is typed `CustomerCreate`, which
`models.py` does not define. It is modelled as `CustomerData`: a
customer's fields without the id.

A few lemmas state further properties of the sum and of the numbering. `TotalUpdate` says what
changing one transaction's amount does to the total. `TotalNonNegative`
covers amounts that are never negative. `InvoiceIsSnapshot` covers
extending the caller's list after the invoice is built.
`OneToNIsIncreasing` says the ids are distinct.

## Model

| member | source | states |
|---|---|---|
| `Models.Total` | models.py:57 | The left-to-right accumulation Python's `sum` performs equals the amount of the first transaction plus the sum of the rest, for every list |
| `Models.Invoice.AmmountTotal` | models.py:49-57 | The invoice total is 0 for no transactions and equals the sum of the amounts taken from the front of the list |
| `Models.TotalAppend` | models.py:57 | The total of a concatenation of transaction lists is the sum of their totals |
| `Models.TotalUpdate` | models.py:57 | Replacing the transaction at one position changes the total by exactly the difference of the two amounts |
| `Models.TotalNonNegative` | models.py:57 | If no amount is negative, the total is not negative and is at least every single amount |
| `Models.TotalIgnoresIdAndCustomer` | models.py:49-57 | Changing an invoice's id or customer leaves its total unchanged |
| `Models.ExampleTotal` | models.py:57 | An invoice with amounts 100 and 250 totals 350 |
| `Models.InvoiceIsSnapshot` | models.py:44-46 | The caller's list extended by one transaction totals the built invoice's total plus the extra amount |
| `TimeZones.Upper` | main.py:51 | Upper-casing keeps the length, leaves no lower-case letter, keeps every character up to case, and leaves a string with no lower-case letter unchanged |
| `TimeZones.TimeFormat` | main.py:66 | The pattern has the 12-hour hour directive `%I` and the AM/PM marker `%p` exactly when the flag is set, the 24-hour `%H` otherwise, and `:%M` for the minutes in both |
| `TimeZones.GetTime` | main.py:51-73 | The reply is the 400 error exactly when the upper-cased code is not in the table, and the 500 error exactly when it is but the timezone database does not know its zone; a successful reply carries the upper-cased code, which is one of CO, MX, AR, BR, PE, that code's timezone (known to the database), and the time rendered in the chosen pattern; when the database knows the five names the 500 reply never happens |
| `TimeZones.UpperIdempotent` | main.py:51 | Upper-casing twice is upper-casing once |
| `TimeZones.TableKeysAreUpper` | main.py:10-16 | Every code in the table is upper-case, so upper-casing leaves it unchanged |
| `TimeZones.GetTimeCaseInsensitive` | main.py:51-52 | Two codes that upper-case to the same string get the same reply |
| `TimeZones.GetTimeIgnoresCase` | main.py:51 | A code, its upper-cased form and its lower-cased form get the same reply |
| `TimeZones.GetTimeUnknownCode` | main.py:51-53 | A code whose upper-cased form is not in the table gets the 400 error "Código ISO no válido" |
| `TimeZones.GetTimeErrorStatus` | main.py:45-60 | The lookup fails with status 400 exactly when the upper-cased code is not in the table, and with status 500 exactly when it is but the timezone database does not know its zone |
| `TimeZones.GetTimeKnownCode` | main.py:51-73 | With a full timezone database the reply is an error exactly when the code is unsupported; a supported code gets its mapped timezone, the upper-cased code and the time rendered in the chosen pattern |
| `TimeZones.ExampleLookups` | main.py:51-56 | "co" and "CO" get the same reply, "CO" maps to America/Bogota, and "ZZ" is rejected as invalid |
| `Repository.NextId` | main.py:91 | On a store numbered 1..n, "last id + 1, or 1 when empty" gives n + 1, which is larger than every stored id, and appending it keeps the numbering 1..n+1 |
| `Repository.OneToNIsIncreasing` | main.py:91 | Ids numbered 1..n are strictly increasing and so pairwise distinct |
| `Repository.CustomerStore.constructor` | main.py:19 | The customer store starts empty and satisfies its invariant |
| `Repository.CustomerStore.Create` | main.py:91-98 | The new id is last id + 1 or 1 on an empty store; exactly this customer is appended at the end, earlier entries unchanged, and it is returned; the 1..n numbering is kept and the new id is n |
| `Repository.CustomerStore.List` | main.py:109 | Listing returns the whole store in insertion order, numbered 1..n when the invariant holds |
| `Repository.InvoiceStore.constructor` | main.py:20 | The invoice store starts empty and satisfies its invariant |
| `Repository.InvoiceStore.Create` | main.py:140-151 | The invoice is stored with id last id + 1 or 1 (the same rule, main.py:141), the submitted customer and transactions, and the submitted id ignored; the store grows by exactly it; the reply's total is the computed total of those transactions; the 1..n numbering is kept |
| `Repository.TwoCustomersInOrder` | main.py:91-109 | Two customers created on a fresh store get ids 1 and 2 and are listed in creation order |
| `Repository.ThirdInvoice` | main.py:140-151 | The third invoice created on a fresh store gets id 3 and the total of its own transactions |

## Left out

- HTTP routing, decorators, `async`, response models and the greeting endpoint `root` (main.py:22-29): framework plumbing and a constant reply. Errors are the plain datatype `TimeError`, with a status and a message.
- `create_transaction` (main.py:111-122): it returns its input unchanged and has no logic.
- The default of the query flag `format_12hr: bool = False` (main.py:33): `GetTime` takes the flag as an argument. A request that omits it corresponds to calling `GetTime` with `false`.
- `datetime.now`, `ZoneInfo` and `strftime` (main.py:57-67): the wall clock and the timezone database are outside the model. They are the parameters `render` and `zones` of `GetTime`.
- `TimeZones.Upper`: models Python's `str.upper` on ASCII letters only. Other characters are kept as they are. No non-ASCII character upper-cases to one of the letters in the five codes, so the accept/reject decision is the same.
- Email validation (`EmailStr`) and pydantic's `model_validate` / `model_dump` (models.py:18, main.py:95): library validation. The email is an opaque string, and a malformed request is not modelled.
- As written, `create_customer` validates the id-less data as a `Customer` (main.py:95), whose `id` is required (models.py:15), so pydantic would reject the request before the id is set at main.py:96. The model takes the intended path: the customer is built from the data with the new id.
- The declared `total` field of `Invoice` (models.py:47): `main.py` never supplies it, so building the invoice as written would fail validation. The model has only the computed total and models the intended behaviour, not that failure.
- The undefined `CustomerCreate` import (main.py:4): modelled by `CustomerData`, not as an import failure.
- Concurrency: the source has no lock around reading the last id and appending. Both handlers are `async def` without `await`, so they do not interleave on one event loop. A threaded or multi-worker host would lose this. The model is sequential.
- Pydantic keeps the caller's nested `Customer` and `Transaction` objects inside the validated invoice; only the list holding the transactions is new. In the source, changing a transaction's `ammount` after the invoice is built therefore changes `ammount_total`; only extending the caller's list leaves it alone. The model's datatypes are values, so nothing is shared. `TotalUpdate` states how much such a change would move the total.
- Transaction amounts may be negative, as in the source. `TotalNonNegative` states what holds when they are not.
