# TradingView webhook signal store, in Dafny

This project models the in-memory signal store behind two TradingView webhook
handlers and proves properties of it.

- `api/webhook.js` is the filtered NAS100 handler. It keeps the module-level
  variables `lastSignalId`, `currentSignal` and `signalHistory`.
  - A POST must carry truthy `action`, `symbol` and `timeframe`.
  - The upper-cased symbol must contain one of `NAS100`, `US100`, `NASDAQ` or `NDX`.
  - An accepted signal takes the next id, gets its fields normalised and its
    defaults filled in, becomes current and is put at the head of a history
    capped at 100.
  - A GET selects `endpoint`: `current`, `history` (with `limit`), `status`,
    `clear` (empties the current slot only), or anything else (a 400).
- `pages/webhook.js` is the minimal handler. Its store lives on `global`.
  - The first request that is not a preflight creates the store.
  - A POST needs only `action` and `symbol`, and there is no symbol filter.
  - `timeframe` defaults to `15m`, and the history is capped at 50.
  - A GET answers `status`, `current` or a short description of the API.
  - Any other method gets a 405.

## Layout

- `wrappers.dfy` (`Wrappers`): `Option`, `Min`, `Max`.
- `js.dfy` (`Js`): the JavaScript semantics the handlers rely on.
  - Looking up a field of the parsed body, and `Object.keys`.
  - Truthiness of a string field, and `x || fallback`.
  - `toUpperCase` and `includes`.
  - `parseInt` without a radix: white space, sign, `0x` prefix and the longest digit run.
  - `slice(0, end)`, including a negative `end`.
- `history.dfy` (`History`): the shared "`unshift`, then `slice(0, cap)`" step,
  and what a run of such steps leaves in the history.
- `api_webhook.dfy` (`ApiWebhook`) and `pages_webhook.dfy` (`PagesWebhook`):
  - A `State` datatype holding the handler's variables.
  - A reference function `Step` for one request, built from `PostStep` and `GetStep`.
  - The store invariant `Inv`, and the lemmas about these.
  - A class (`Store`, `Global`) whose fields are those variables. Its methods
    update the fields in place, as the handler does, and each is proved to
    produce exactly the state and reply that `Step` gives.

The models take the following as parameters:
- the receive time and the server time (`now`);
- the float parsing of `price` in `api/webhook.js` (`parsePrice`, standing for
  `parseFloat(price) || null`);
- whether the Firebase client exists (`firebaseEnabled`).

For `endpoint=history`, only a `limit` that `parseInt` reads as `0` or `NaN`
falls back to 10. A negative `limit` is passed to `slice`, which then drops
entries from the old end of the list (`HistoryNegativeLimit`).

## Model

| member | source | states |
|---|---|---|
| `Js.Field` | api/webhook.js:39 | destructuring a body field gives a value exactly when the body has an entry with that key, and that entry's value |
| `Js.Upper` | api/webhook.js:54 | upper-casing keeps the length, maps each lower-case ASCII letter to its capital and leaves every other character as it is |
| `Js.UpperIgnoresCase` | api/webhook.js:54-55 | two symbols have the same upper-case form exactly when they differ only in the case of letters, so the filter ignores case |
| `Js.Contains` | api/webhook.js:55 | `includes` is true exactly when the piece occurs at some position of the string |
| `Js.MissingCharNotContained` | api/webhook.js:55 | a string cannot contain a piece that has a character the string lacks |
| `Js.ParseInt` | api/webhook.js:150 | `parseInt` is `NaN` when the first character after the white space is neither a sign nor a decimal digit, and positive when it is a digit from 1 to 9 |
| `Js.ParseIntSkipsWhiteSpace` | api/webhook.js:150 | `parseInt` ignores leading white space |
| `Js.ParseDecimal` | api/webhook.js:150 | `parseInt` reads back any decimal numeral exactly |
| `Js.ParseNegativeDecimal` | api/webhook.js:150 | `parseInt` reads `-n` back as the negative number |
| `Js.SliceTo` | api/webhook.js:153 | `slice(0, end)` is a prefix of the list: `min(end, length)` entries for `end >= 0`, and all but the last `-end` otherwise |
| `History.Prepend` | api/webhook.js:87-92 | after unshift and cut: the new item is first, the length is `min(old + 1, cap)`, and the rest is a prefix of the old list (oldest dropped first) |
| `History.PrependAllKeepsNewest` | api/webhook.js:86-92 | after any run of arrivals, the history is the arrivals newest first, then the old history, cut to the cap |
| `History.NewestCapSurvive` | api/webhook.js:89-92 | after at least `cap` arrivals, the history is exactly the newest `cap` of them, newest first |
| `ApiWebhook.NasdaqSymbolAccepted` | api/webhook.js:53-55 | `NASDAQ:NDX100` passes the filter |
| `ApiWebhook.LowerCaseAliasAccepted` | api/webhook.js:53-55 | `us100` passes: the filter ignores case |
| `ApiWebhook.ForexSymbolFiltered` | api/webhook.js:53-55 | `EURUSD` is filtered out |
| `ApiWebhook.MissingFieldsRejected` | api/webhook.js:44-50 | a 400 with the three required names and the received keys exactly when `action`, `symbol` or `timeframe` is missing or empty; the store is unchanged |
| `ApiWebhook.SymbolFilter` | api/webhook.js:53-64 | with the fields present, a POST is filtered exactly when no alias occurs in the upper-cased symbol; filtering is a 200 that echoes the symbol as sent and changes nothing; otherwise the signal is stored |
| `ApiWebhook.AcceptedSignalStored` | api/webhook.js:66-92 | an accepted signal gets old counter + 1, newer than every id in the history; it becomes current and the head of the history; the length is `min(old + 1, 100)` and the rest is a prefix of the old history |
| `ApiWebhook.AcceptedSignalNormalised` | api/webhook.js:71-83 | `action` and `symbol` upper-cased, `timeframe` as sent, `strategy` defaults to `default`, `timestamp` defaults to the receive time, `receivedAt` is the receive time, `processed` is false |
| `ApiWebhook.AcceptKeepsInv` | api/webhook.js:85-92 | accepting a normalised signal with the next id keeps the store invariant: within the cap, ids strictly decreasing from the counter, current is the newest entry |
| `ApiWebhook.PostKeepsInv` | api/webhook.js:37-92 | every POST keeps the store invariant |
| `ApiWebhook.ClearTouchesOnlyCurrent` | api/webhook.js:172-178 | `clear` empties the current slot and nothing else; it answers 200 whatever the store held, and a second clear changes nothing |
| `ApiWebhook.ReadsChangeNothing` | api/webhook.js:141-171 | every GET endpoint other than `clear` leaves the store unchanged |
| `ApiWebhook.CurrentIsNewest` | api/webhook.js:141-147 | `current` returns the current signal; when set, it carries the counter as its id and heads the history; the channel defaults to `direct` |
| `ApiWebhook.HistoryPositiveLimit` | api/webhook.js:149-157 | a `limit` that `parseInt` reads as `n > 0` (such as `5`, `05`, ` 5` or `5abc`) returns the newest `min(n, length)` entries, newest first |
| `ApiWebhook.HistoryDefaultLimit` | api/webhook.js:150-153 | a missing, non-numeric or zero `limit` returns the newest `min(10, length)` entries |
| `ApiWebhook.HistoryNegativeLimit` | api/webhook.js:150-153 | `limit=-n` returns all but the oldest `n` entries |
| `ApiWebhook.StatusReportsStore` | api/webhook.js:158-171 | `status` reports the history length (at most 100), the current signal, the server time and the Firebase flag |
| `ApiWebhook.UnknownEndpointRejected` | api/webhook.js:179-184 | any other or missing endpoint gives a 400 listing the four endpoints; the store is unchanged |
| `ApiWebhook.OtherMethodsChangeNothing` | api/webhook.js:194-196 | OPTIONS gives an empty 200 and any method other than GET and POST a 405; neither changes the store |
| `ApiWebhook.StepCounter` | api/webhook.js:66-67 | the counter moves by one on an accepted POST and not at all otherwise; the reply carries the new counter |
| `ApiWebhook.StepKeepsInv` | api/webhook.js:26-197 | every request keeps the store invariant |
| `ApiWebhook.RunKeepsInv` | api/webhook.js:22-24 | the invariant holds after any run of requests from a valid store |
| `ApiWebhook.RunIssuesIncreasingIds` | api/webhook.js:67-72 | over any run of requests, stored ids strictly increase and all lie above the starting counter and at or below the final one, so no id is reused |
| `ApiWebhook.StepHistory` | api/webhook.js:86-92 | a request changes the history only when it stores a signal, and then by putting the new current signal at its head and cutting it to 100 |
| `ApiWebhook.RunHistory` | api/webhook.js:86-92 | after any run of requests, the history is the old one with the signals the run accepted pushed on one at a time, in order |
| `ApiWebhook.RunKeepsNewest` | api/webhook.js:86-92 | after any run of requests, the history is the accepted signals newest first, then the old history, cut to 100; once 100 or more were accepted it is exactly the newest 100 |
| `ApiWebhook.Store.constructor` | api/webhook.js:22-24 | the store starts with counter 0, no current signal and an empty history |
| `ApiWebhook.Store.Receive` | api/webhook.js:39-123 | the POST branch, updating the fields in place, yields exactly the state and reply of `PostStep` and keeps the invariant |
| `ApiWebhook.Store.Query` | api/webhook.js:137-184 | the GET endpoint switch yields exactly the state and reply of `GetStep` and keeps the invariant |
| `ApiWebhook.Store.Handle` | api/webhook.js:26-197 | the whole handler yields exactly the state and reply of `Step` |
| `PagesWebhook.InitOnlyWhenAbsent` | pages/webhook.js:13-17 | the store is created empty (no signals, no current, id 0) only when absent; an existing store is left alone, and creating twice is the same as creating once |
| `PagesWebhook.NeverReset` | pages/webhook.js:12-79 | once the store exists, a request either leaves it unchanged or accepts one signal into it; the counter never goes down |
| `PagesWebhook.MissingActionOrSymbolRejected` | pages/webhook.js:54-59 | a 400 exactly when `action` or `symbol` is missing or empty (`timeframe` is not required); the store is not otherwise changed |
| `PagesWebhook.AcceptedSignalStored` | pages/webhook.js:61-79 | every valid POST is accepted whatever its symbol; it gets old id + 1, newer than all stored ids; it becomes current and heads the list; the length is `min(old + 1, 50)` and the rest is a prefix of the old list |
| `PagesWebhook.AcceptedSignalNormalised` | pages/webhook.js:63-70 | `action` and `symbol` upper-cased, `timeframe` defaults to `15m`, `price` as sent or null, the receive time as timestamp |
| `PagesWebhook.AcceptKeepsInv` | pages/webhook.js:72-79 | accepting a normalised signal with the next id keeps the invariant: at most 50 entries, ids strictly decreasing from the counter, current set exactly when the list is non-empty and then its head |
| `PagesWebhook.GetReportsStore` | pages/webhook.js:20-47 | whatever the body, `status` reports the list length (at most 50) and the current signal; `current` returns the newest signal; any other endpoint gets the API description; no GET changes the store beyond creating it |
| `PagesWebhook.OtherMethodsRejected` | pages/webhook.js:95-100 | any method other than OPTIONS, GET and POST gets a 405 with `allowed = [GET, POST]` and the received method; the store is only created |
| `PagesWebhook.PreflightTouchesNothing` | pages/webhook.js:8-10 | OPTIONS returns before the store is created |
| `PagesWebhook.StepKeepsInv` | pages/webhook.js:2-101 | every request keeps the invariant |
| `PagesWebhook.StepCounter` | pages/webhook.js:62-64 | the counter the next request sees moves by one on an accepted POST and not at all otherwise; an accepted signal carries the new counter |
| `PagesWebhook.RunIssuesIncreasingIds` | pages/webhook.js:61-64 | over any run of requests, ids of accepted signals strictly increase and none is reused |
| `PagesWebhook.RunHistory` | pages/webhook.js:72-79 | once a run has created the store, its list is the starting list (empty if the run created it) with the accepted signals pushed on one at a time, in order |
| `PagesWebhook.RunKeepsNewest` | pages/webhook.js:72-79 | once created, the list is the accepted signals newest first, then the starting list, cut to 50; once 50 or more were accepted it is exactly the newest 50 |
| `PagesWebhook.Global.constructor` | pages/webhook.js:13 | a new process has no `global.signals` |
| `PagesWebhook.Global.EnsureCreated` | pages/webhook.js:12-17 | the lazy-creation block, run in place, yields exactly `Init` of the old store |
| `PagesWebhook.Global.Handle` | pages/webhook.js:2-101 | the whole handler, updating `global` in place, yields exactly the state and reply of `Step` and keeps the invariant |

## Left out

- Firebase writes (api/webhook.js:94-109): the `set` and `push` calls are foreign library calls, and their failure is swallowed. They cannot change the in-memory store or the reply, so they are not modelled. Only the `firebaseEnabled` flag that `status` reports is kept.
- HTTP plumbing: CORS headers and the `res.status(..).json(..)` mechanics. Each reply is a constructor of `Response`, and `StatusCode` gives its HTTP status. The constant `success: true` and the fixed `message` / `error` texts are not carried.
- `console.log`, `process.uptime()` (the `uptime` field of `status`) and the clock. The time is the `now` parameter.
- The 500 branches. They catch JavaScript exceptions, such as a missing body or a non-string `action`, and exceptions are not modelled. The source changes the store before some of these throws. In api/webhook.js, `lastSignalId++` (line 67) runs before `action.toUpperCase()` (line 73). In pages/webhook.js, `global.signalId++` (line 62) runs before lines 65-66. So a truthy non-string `action` (or, in pages/webhook.js, `symbol`) gives a 500 after the counter has gone up, with nothing stored. After such a request the source no longer has "the newest entry carries the counter" (`Inv`). Nor does it have "the counter moves only on a stored signal" (`StepCounter`). These hold in the model only because body values are strings.
- ApiWebhook.StepCounter: holds only over string-valued bodies. A non-string `action` raises the source's counter without storing anything (see the line above).
- PagesWebhook.StepCounter: holds only over string-valued bodies, for the same reason with `action` or `symbol`.
- Body values are strings. Non-string JSON values (a numeric `price` or `timeframe`, a nested object) are not modelled. Query parameters are single strings; repeated parameters that arrive as arrays are not modelled.
- Float parsing: in `parseFloat(price) || null` (api/webhook.js:76) the parsing is the caller's `parsePrice` function, including its mapping of 0 and `NaN` to null.
- Js.Upper: maps only the ASCII letters `a`-`z`. JavaScript's `toUpperCase` maps all of Unicode and can change the length (`ß` becomes `SS`, `ſ` becomes `S`). So a symbol such as `naſ100` passes the source's filter but not the model's.
- Js.ParseInt: works on unbounded integers. The source's double-precision rounding of numerals above 2^53 cannot change a `slice` of a list of at most 100 entries.
- api/signal/update.js, pages/api/webhook.js and pages/api/hello.js are not part of this model. They keep no in-memory state. update.js only forwards to Firebase. pages/api/webhook.js echoes its input. hello.js returns a fixed message with the request method.
- Free-text alert parsing, relaying to a remote host and a "mark processed" update do not occur in the two handlers, and are not modelled.
- Concurrency and serverless instances: requests are modelled one at a time against one store. A cold start that begins with a new store is a new `Store` / `Global` object.
