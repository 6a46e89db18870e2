# EWS price client, modelled in Dafny

This project models the core of `ews_api`, a small Python client for the EWS
electricity-price API. The client keeps a cache: `meta` (interval, interval unit,
price unit, tariff) and `data` (a list of hourly price points). `fetch` fills the
cache from one GET of the data endpoint. `get` runs `fetch` and returns `data`.
`reauth` swaps the API key after a probe succeeds. Two helpers work on a price list:
`match_date` keeps the points that start on a given calendar date, and
`get_price_now` returns the total price of the latest point that starts strictly
before a query time, but only when some point also starts strictly after it.

Modules:

- `Wrappers` (`wrappers.dfy`): `Option` and `Result`. A Python exception becomes an `Err`.
- `Json` (`json.dfy`): a decoded JSON document.
- `Time` (`time.dfy`): offset-aware date-times. A `DateTime` keeps the wall-clock date, the time of day and the UTC offset of its text. `Instant()` gives the instant it denotes, and `<`/`>` compare by that instant. `date` is the wall-clock date that `.date()` returns.
- `Prices` (`prices.dfy`): `MetaData`, `PriceData`, `PriceData.from_json`, and the parts of `fetch` that are expressions: building the metadata, `body.get("today", []) + body.get("tomorrow", [])`, and the list comprehension.
- `Lookup` (`lookup.dfy`): `match_date` and `get_price_now`. Each is a method with the source's loop, proved against a specification function (`OnDate`; `Lower`, `Upper`, `PriceNow`). Lemmas state what those functions mean.
- `Client` (`client.dfy`): the class `EwsApi`, with fields `apiKey` (the session's `X-API-KEY` header), `meta` and `data`. `FetchStep` gives the outcome of one `fetch` on a cache value. Lemmas about `FetchStep` state the transition's properties.

The repository has two copies of the client: `src/ews_api/_api.py` and
`src/ews_api/api.py`. Their `MetaData`, `PriceData.from_json`, `__init__` and `fetch`
are the same line for line. `reauth` and the helpers exist only in `_api.py`, and
`get` exists only in `api.py`. One class models both copies. The test at
`tests/test_api.py:65-77` calls `get` on the `_api.py` class, which has no `get`, so as
written that test raises `AttributeError`. `GetOnNewClient` models what the test checks,
using the `get` of `api.py`.

Inputs that stand for code outside the model:

- The HTTP exchange is a parameter `Exchange`. `TransportFailure` means the session raised. Otherwise it carries the response's 2xx flag and its body decoded as JSON. The body is `None` where `r.json()` raises.
- `datetime.fromisoformat` is a parameter `parseIso: string -> Option<DateTime>`. `None` means the parser raised `ValueError`.

Behaviour of the code that the model keeps:

- `fetch` is not atomic. It assigns `meta` (`src/ews_api/_api.py:81-86`) before it builds `data` (`src/ews_api/_api.py:88-89`). If a price item is malformed, `fetch` raises with the new `meta` and the old `data` (`FetchNotAtomic`).
- `fetch` raises `KeyError` for a missing key, `TypeError` for a value of the wrong kind and `ValueError` for an unreadable timestamp. The model keeps these distinct.
- The dataclass annotations are not enforced, so the model copies the JSON values under `dynamic`, `fix`, `total`, `interval`, `intervalUnit`, `priceUnit` and `tariff` unchanged.
- `today + tomorrow` follows Python's `+`. Two lists concatenate. Two strings concatenate, and then each character fails `from_json`. Any other pair raises `TypeError`.
- `get_price_now` returns `lower.total_price` as stored. A `total` of JSON `null` is Python's `None`, so the model's `Some(JNull)` is a `None` to the caller. `IsPythonNone` names both forms of `None`.

## Model

| member | source | states |
|---|---|---|
| `Prices.FromJson` | src/ews_api/_api.py:28-35 | succeeds exactly for an object that has `dynamic`, `fix`, `total` and a `startsAt` string the parser accepts; the three prices are then the JSON values unchanged and `starts_at` is the parsed date-time with its offset; a non-object gives `TypeError` and a missing key gives `KeyError` |
| `Prices.ParseMeta` | src/ews_api/api.py:76-81 | succeeds exactly when all four top-level keys are present, and then yields `MetaData(interval, intervalUnit, priceUnit, tariff)` from them; otherwise it is a `KeyError` for a key the body lacks |
| `Prices.PriceItems` | src/ews_api/_api.py:88 | two lists give today's items followed by tomorrow's; absent keys count as empty lists; every failure is a `TypeError` |
| `Prices.ParseItems` | src/ews_api/api.py:84 | succeeds exactly when every item parses, with one price per item in the same order; otherwise the error is that of the first item that fails |
| `Lookup.OnDate` | src/ews_api/_api.py:93-99 | the filter is never longer than its input and holds exactly the input's points whose start date is `day` |
| `Lookup.MatchDate` | src/ews_api/_api.py:93-99 | the loop's result equals `OnDate(prices, day)`: the points on `day`, and only those |
| `Lookup.OnDateConcat` | src/ews_api/_api.py:96-98 | filtering a concatenation is the concatenation of the filtered parts (each loop step appends at most the current point) |
| `Lookup.OnDateIdempotent` | src/ews_api/_api.py:95-99 | filtering the result again with the same day returns it unchanged |
| `Lookup.OnDateIsSubsequence` | src/ews_api/_api.py:96-98 | the result is a subsequence of the input, so relative order is kept |
| `Lookup.OnDateCounts` | src/ews_api/_api.py:96-98 | every point on `day` occurs in the result as often as in the input, and no other point occurs |
| `Lookup.Lower` | src/ews_api/_api.py:114-118 | the lower bracket is an input point that starts before `time` and no earlier than any other such point; it is absent exactly when no point starts before `time` |
| `Lookup.Upper` | src/ews_api/_api.py:119-121 | the upper bracket is the start of an input point after `time` and no later than any other such start; it is absent exactly when no point starts after `time` |
| `Lookup.GetPriceNow` | src/ews_api/_api.py:102-125 | the loop's result equals `PriceNow`; it is `None` for fewer than two points, and `None` exactly when the list is that short, no point starts before `time`, or no point starts after it; the caller sees Python's `None` exactly in those cases or when the lower bracket's total is JSON `null` |
| `Lookup.ScanStep` | src/ews_api/_api.py:114-121 | one loop iteration: the brackets after point `i` follow from those before it, replacing the lower one only on a strictly later start before `time` and the upper one only on a strictly earlier start after it |
| `Lookup.PriceNowAbsent` | src/ews_api/_api.py:108-124 | no value comes back exactly when the list has fewer than two points, no point starts strictly before `time`, or none starts strictly after it; adding the case of a `null` lower total gives exactly when Python returns `None` |
| `Lookup.LowerIsFirstLatest` | src/ews_api/_api.py:116-118 | among equally late starts before `time`, the scan keeps the first in list order, because the strict `>` never replaces it |
| `Lookup.LowerIndex` | src/ews_api/_api.py:116-118 | a lower bracket that was found always sits at the first index holding the latest start before `time` |
| `Lookup.PriceNowIsFirstLatest` | src/ews_api/_api.py:116-125 | a returned value is the total price at the unique first-latest index before `time` |
| `Lookup.BracketNeedsTwo` | src/ews_api/_api.py:108-109 | the length test changes no answer: a lower and an upper bracket already need two distinct points |
| `Lookup.LowerIgnores` | src/ews_api/_api.py:116-118 | a point that does not start before `time` never affects the lower bracket, wherever it sits in the list |
| `Lookup.UpperIgnores` | src/ews_api/_api.py:119-121 | a point that does not start after `time` never affects the upper bracket, wherever it sits in the list |
| `Lookup.AtTimeIgnored` | src/ews_api/_api.py:116-121 | inserting a point that starts exactly at `time` anywhere in the list leaves the answer unchanged |
| `Lookup.AscendingTriple` | src/ews_api/_api.py:114-125 | for three points in ascending order: a time between the second and third gives the second's total; a time at or after the third, or at or before the first, gives `None` |
| `Lookup.HourlyExample` | src/ews_api/_api.py:102-125 | for points at 00:00, 01:00 and 02:00 (+01:00) of any day with totals 10, 20 and 30, the answer at 01:30 is 20; at 02:30, and at 00:00+02:00 (an hour before the first point), it is `None`; a one-point list gives `None` |
| `Client.Authenticate` | src/ews_api/_api.py:45-57 | the probe is true only for a received response, and then exactly when it is 2xx; a transport failure is false, never an error |
| `Client.FetchFailureKeepsState` | src/ews_api/_api.py:76-78 | without a 2xx response the cache is unchanged; an error status returns `False` and a transport failure raises |
| `Client.FetchSucceedsIff` | src/ews_api/_api.py:79-90 | for a 2xx response whose day lists are lists or absent, `fetch` returns `True` exactly when the four metadata keys exist and every item of today and tomorrow parses |
| `Client.FetchSuccessState` | src/ews_api/api.py:76-85 | after a successful fetch, `meta` is built from the four top-level fields; `data` is as long as today and tomorrow together, today's parsed items first and then tomorrow's, each in order |
| `Client.ParsedConcat` | src/ews_api/api.py:83-84 | parsing `today + tomorrow` puts today's prices at today's indices and tomorrow's right after them |
| `Client.FetchMissingDays` | src/ews_api/api.py:83-85 | with no `today` and no `tomorrow` key, `fetch` succeeds with the new `meta` and an empty `data` |
| `Client.FetchNotAtomic` | src/ews_api/api.py:76-84 | once the metadata keys are read, a malformed item list raises with `meta` replaced and `data` unchanged |
| `Client.DataChangesOnlyOnSuccess` | src/ews_api/_api.py:74-90 | `data` changes only on a fetch that returns `True` |
| `Client.EwsApi.constructor` | src/ews_api/_api.py:59-65 | a new client holds the given key, `data` is empty and `meta` is absent |
| `Client.EwsApi.Reauth` | src/ews_api/_api.py:67-72 | returns the probe's verdict; the key is replaced exactly when the probe succeeds; the cache is untouched |
| `Client.EwsApi.Fetch` | src/ews_api/_api.py:74-90 | the result and the new cache are those of `FetchStep` on the old cache; the key is unchanged |
| `Client.EwsApi.Get` | src/ews_api/api.py:65-67 | the cache changes as in `fetch`; returns `data` as it stands afterwards unless `fetch` raised |
| `Client.HttpErrorOnNewClient` | tests/test_api.py:49-62 | a failed fetch on a new client returns `False`, and `meta` stays absent and `data` empty |
| `Client.GetOnNewClient` | tests/test_api.py:65-77 | `get` on a new client with a good response returns one price per item of today and tomorrow; after a failed response it returns an empty list, the same as a success with no items |

## Left out

- HTTP transport (`httpx` sessions, the endpoint constant, the `User-Agent` header, `r.is_success`, `r.json()`): this is I/O. The exchange's outcome is the `Exchange` input, and the session headers are reduced to `apiKey`.
- `build_user_agent` (`src/ews_api/utils.py`) and the package version lookup (`src/ews_api/__init__.py`): string formatting over foreign values. `src/ews_api/errors.py` defines exception classes that nothing raises.
- `async`/`await`: it only sequences the calls. There is no concurrency to model.
- ISO-8601 parsing: `datetime.fromisoformat` is a library parser, so it is a parameter. Naive date-times, and the `TypeError` from comparing a naive with an aware one, are not modelled. Every `DateTime` is aware.
- Client.Authenticate: the `logger.error` call on a transport failure (`src/ews_api/_api.py:54`) is logging output and is not modelled.
- Client.EwsApi.Get: returns `data` as a value. In Python `get` returns the cached list object itself (`src/ews_api/api.py:67`), so a caller that mutates it changes the client's cache. That aliasing is not modelled.
- Client.Authenticate: the probe's own request is not modelled. Only `httpx.HTTPError` becomes a transport failure. Other exceptions escaping `httpx.get` are not modelled.
- Prices are JSON values that are only copied, so float arithmetic and precision do not arise.
- `match_date` called with a `datetime` instead of a `date`: in Python such a comparison is always false. This case is not modelled.
