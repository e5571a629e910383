# EsenTrader "boru" API — a Dafny model of its core

The repository is a small Flask service that sits between trading signals and
an Interactive Brokers (IBKR) back end. The model covers the logic its core
files hold:

- **Mode store** (`admin_mode.py`, `admin_app.py`): a `LOCAL`/`VPS` selector
  persisted in `admin_mode.json`. The file is a value
  `ModeFile = Missing | Unreadable | Stored(Json)` held by a `ModeStore`
  object, and writers are methods that change it. `get_admin_mode` reads
  anything unexpected as `LOCAL`; `set_admin_mode` upper-cases, validates, and
  only then writes. `admin_app.py`'s `load_mode` is a weaker copy that hands
  back whatever the `"mode"` key holds, and `LoadModeDoesNotValidate` shows
  the two readers disagree on such a file.
- **Endpoint selection and result shaping** (`ibkr_client.py`, `app.py`):
  the mode picks port 6001 or 6002. One HTTP outcome becomes the record
  `{ok, mode, url, data, error}`. The routes answer 200 with the remote JSON
  or 502 with the error.
- **Status fallbacks and mode POST** (`app_bozuk_2025-11-21.py`): the status
  routes replace an adapter exception by `{connected: false, error}`. The
  mode POST validates before writing.
- **Positions extraction** (`admin_app_OLD_20251127.py`): a depth-first
  search for the first `"positions"` list in a JSON tree. It is proved sound,
  complete and first-in-order. A loop then flattens the entries into rows and
  skips those that do not convert. The admin form toggles the mode.
- **Signal validation and the master trade** (`api/app.old.py`,
  `core/master_trade.py`): the guard chain of `/api/signal`, and the sizing
  of one market order. The broker's answers are inputs. The placed order and
  the enqueued event are recorded in a `TradeEffects` log.
- **Copy engine** (`api/copy_engine.py`): a follower list that only grows,
  and a `distribute` that reports its length and echoes the order.

Modules: `Wrappers`, `JsonValues` (JSON values with Python's `dict.get`,
truthiness, `or` and `float`) and `Text` (`upper`/`lower`) are shared.
Each core file has its own module: `AdminMode`, `IbkrClient`, `ProxyApp`,
`AdminApp`, `AppBozuk`, `AdminPanel`, `SignalApi`, `MasterTrade` and
`CopyEngines`.

Inputs from outside the program: file contents, HTTP outcomes, the broker's
price and order id, clock readings, uuids and the string-to-float parser.
Each is a parameter. A write to the mode file succeeds or fails according to
a `writeOk` parameter.

Notes on what the code does:

- `raise_for_status` raises only for statuses 400–599. A 1xx or 3xx answer
  with a JSON body counts as success, not only 2xx.
- The proxy makes a single request; nothing is journaled.
- `app_bozuk_2025-11-21.py` imports `get_ib_target` from `admin_mode.py`,
  which does not define it. Its answer is a parameter: a lookup on the mode
  file for the POST route, and a value for `/api/status`.
- In `/api/signal`, a truthy non-string `side`, `mode` or `risk_type` makes
  `.lower()`/`.upper()` raise. That happens before any validation, so the
  answer is 500, not 400. An unparseable `usd_amount` is also a 500.

## Model

| member | source | states |
|---|---|---|
| `JsonValues.Get` | admin_mode.py:19 | `dict.get(key)`: a value exactly when the key is present, and it is a value stored under that key |
| `JsonValues.GetOr` | admin_app.py:23 | `dict.get(key, default)`: the default exactly when the key is absent, otherwise a stored value |
| `JsonValues.OrElse` | admin_app_OLD_20251127.py:196 | Python `a or b`: `a` when truthy, `b` otherwise |
| `JsonValues.PyFloat` | admin_app_OLD_20251127.py:197-198 | `float(v)`: numbers convert to themselves, booleans to 1.0 or 0.0, strings as the parser reads them; None, lists and dicts raise |
| `JsonValues.GetFindsFirst` | admin_mode.py:19 | lookup returns the value of the first entry with the key |
| `Text.Upper` | admin_mode.py:29 | `str.upper()` maps each character, keeps the length, and leaves no lower-case letter |
| `Text.Lower` | api/app.old.py:89 | `str.lower()` maps each character, keeps the length, and leaves no upper-case letter |
| `Text.UpperIdempotent` | app_bozuk_2025-11-21.py:105-110 | upper-casing twice (the route, then `set_admin_mode`) equals upper-casing once |
| `AdminMode.ModeRecord` | admin_mode.py:32-33 | the written document `{"mode": m}` holds `m` under `"mode"` |
| `AdminMode.GetAdminMode` | admin_mode.py:14-24 | always LOCAL or VPS; LOCAL for a missing or unreadable file; VPS exactly when VPS is stored; a stored LOCAL/VPS is returned as is |
| `AdminMode.NormalizeModeArg` | admin_mode.py:29 | `(mode or "").upper()`: None becomes "", otherwise the upper-cased text |
| `AdminMode.SetAdminMode` | admin_mode.py:27-34 | invalid mode: InvalidMode and file unchanged; failed write: error and file unchanged; otherwise returns the upper-cased mode, writes `{"mode": m}`, and a later read returns it |
| `AdminMode.GetIbkrMode` | admin_mode.py:35-37 | the same answer as `get_admin_mode` |
| `AdminMode.SetIbkrMode` | admin_mode.py:40-42 | the same effect and errors as `set_admin_mode`, with no value returned |
| `AdminMode.ModeRecordRoundTrip` | admin_mode.py:17-34 | reading back a written LOCAL/VPS yields exactly that mode |
| `AdminMode.ValidModesAreUpperCase` | admin_mode.py:29-30 | LOCAL and VPS are unchanged by upper-casing |
| `IbkrClient.BaseUrl` | ibkr_client.py:28-35 | port 6002 exactly for VPS; port 6001 for LOCAL and any other value |
| `IbkrClient.GetBaseUrl` | ibkr_client.py:17-35 | 6002 exactly when the persisted mode reads as VPS, 6001 exactly when it reads as LOCAL (a missing, unreadable, key-less or unknown-valued file included); never any other address |
| `IbkrClient.RequestJson` | ibkr_client.py:37-59 | url = base + path; mode echoed; ok exactly on success and exactly when error is None; data is the body on success and None on failure; transport and status errors carried |
| `IbkrClient.GetStatus` | ibkr_client.py:61-63 | requests base + `/api/ibkr/status`; ok exactly on success |
| `IbkrClient.GetPositions` | ibkr_client.py:65-67 | requests base + `/api/ibkr/positions`; ok exactly on success |
| `IbkrClient.RequestAfterModeWrite` | ibkr_client.py:28-41 | after writing VPS requests go to 6002, after LOCAL to 6001, and the result echoes the written mode |
| `ProxyApp.ShapeReply` | app.py:70-83 | ok gives 200 with `remote` = data; not ok gives 502 with the client's error; mode and url echoed |
| `ProxyApp.ApiIbkrStatus` | app.py:61-83 | 200 exactly when the status request succeeded, 502 otherwise; the body carries the remote JSON or an error |
| `ProxyApp.ApiIbkrPositions` | app.py:86-107 | the same 200/502 mapping for the positions request |
| `ProxyApp.Health` | app.py:51-58 | always status "ok", with the mode in force (LOCAL or VPS) |
| `ProxyApp.FailuresAreBadGateway` | app.py:77-83 | transport errors, 4xx/5xx answers and unparseable bodies all give 502 with the client's error |
| `AdminApp.LoadMode` | admin_app.py:17-26 | LOCAL for a missing or unreadable file or no `"mode"` key; otherwise the stored value, unchecked |
| `AdminApp.SaveMode` | admin_app.py:29-35 | writes `{"mode": m}`; a failed write raises nothing and the file is left as it was (truncation not modelled) |
| `AdminApp.SetMode` | admin_app.py:77-84 | upper-cases; 400 and no write exactly when invalid; otherwise saves and echoes the upper-cased mode with status ok |
| `AdminApp.LoadModeAgreesOnValidFiles` | admin_app.py:17-26 | where the stored mode is absent, LOCAL or VPS, `load_mode` and `get_admin_mode` agree |
| `AdminApp.LoadModeDoesNotValidate` | admin_app.py:22-23 | any other stored value is returned by `load_mode` while `get_admin_mode` reads LOCAL |
| `AppBozuk.Disconnected` | app_bozuk_2025-11-21.py:39-42 | the fallback holds `connected: false` and the exception text |
| `AppBozuk.GuardedStatus` | app_bozuk_2025-11-21.py:36-42 | the adapter's status when it returns, the fallback when it raises |
| `AppBozuk.Status` | app_bozuk_2025-11-21.py:26-58 | `/api/status` always answers: service, clock + "Z", target fields, and the guarded broker status |
| `AppBozuk.IbkrStatus` | app_bozuk_2025-11-21.py:61-78 | `/api/ibkr/status` returns the status unchanged, or the disconnected record (`connected: false`, `error` = the exception text) when the call raised |
| `AppBozuk.ModeText` | app_bozuk_2025-11-21.py:105 | `str(v)` is the text itself for strings; for other values it never upper-cases to LOCAL or VPS |
| `AppBozuk.RequestedMode` | app_bozuk_2025-11-21.py:104-105 | no body, a falsy body or no `"mode"` key gives ""; otherwise the upper-cased text; None exactly when the body is a truthy non-dict |
| `AppBozuk.ApiSetMode` | app_bozuk_2025-11-21.py:94-112 | 400 and no write unless the mode is LOCAL/VPS; otherwise the mode is written, then ok with the target read after the write; a failed write is a 500 |
| `AppBozuk.MissingOrNonStringModeRejected` | app_bozuk_2025-11-21.py:104-108 | a body without a string `"mode"` is never accepted |
| `AdminPanel.ExtractPositions` | admin_app_OLD_20251127.py:146-163 | a dict's own `"positions"` list is returned without a deeper search; scalars give None |
| `AdminPanel.ExtractSound` | admin_app_OLD_20251127.py:151-163 | anything returned is the `"positions"` list of some dict in the tree |
| `AdminPanel.ExtractComplete` | admin_app_OLD_20251127.py:151-163 | if any dict in the tree has a `"positions"` list, the search finds one |
| `AdminPanel.ExtractNoneIff` | admin_app_OLD_20251127.py:163 | None exactly when no `"positions"` list occurs anywhere |
| `AdminPanel.ExtractPicksFirstChild` | admin_app_OLD_20251127.py:154-162 | without its own list, a dict or list yields the result of its first child whose search succeeds |
| `AdminPanel.NonListPositionsSearched` | admin_app_OLD_20251127.py:152-157 | a non-list `"positions"` value is not returned; the search continues through the values |
| `AdminPanel.ConvertEntry` | admin_app_OLD_20251127.py:194-203 | a row exactly when the entry is a dict whose position and avgCost convert; symbol falls back to localSymbol, then ""; position and avgCost are `float()` of the values (default 0), currency and account are the values (default "") |
| `AdminPanel.Flatten` | admin_app_OLD_20251127.py:193-203 | the rows are never more than the entries |
| `AdminPanel.FlattenAppend` | admin_app_OLD_20251127.py:193-203 | order is kept: flattening distributes over concatenation |
| `AdminPanel.FlattenRowsFromEntries` | admin_app_OLD_20251127.py:193-203 | a row is in the output exactly when some entry converts to it |
| `AdminPanel.FlattenKeepsAll` | admin_app_OLD_20251127.py:193-203 | when every entry converts, none is dropped |
| `AdminPanel.RawPositions` | admin_app_OLD_20251127.py:188-191 | no document, or nothing extracted, gives []; otherwise the extracted list |
| `AdminPanel.FlattenPositions` | admin_app_OLD_20251127.py:189-203 | the loop builds exactly the flattened rows of its input |
| `AdminPanel.AdminGet` | admin_app_OLD_20251127.py:174-191 | the page gets the mode in force and the flattened rows, no more rows than extracted entries |
| `AdminPanel.AdminPost` | admin_app_OLD_20251127.py:168-172 | only an exact LOCAL/VPS is written; every POST redirects unless the write raised |
| `SignalApi.PayloadDict` | api/app.old.py:86 | a falsy payload becomes {}; a body that fails to parse or a truthy non-dict is an error |
| `SignalApi.ReadFields` | api/app.old.py:88-92 | raises exactly when side, mode or risk_type is truthy and not a string; side is the lower-cased text or "" when falsy, mode and risk_type the upper-cased text or LIVE / USD when falsy; symbol, amount and meta read from the payload |
| `SignalApi.Validate` | api/app.old.py:97-137 | each guard fires exactly when the earlier ones passed: symbol/side 400, then non-USD 400, then unparseable amount 500, then amount ≤ 0 400, then PAPER; otherwise dispatch with BUY exactly for "buy", SELL for "sell", and the parsed positive amount |
| `SignalApi.Decide` | api/app.old.py:85-137 | a read error is a 500; otherwise the guard chain decides |
| `SignalApi.ApiSignal` | api/app.old.py:84-143 | 400, 500 and PAPER replies leave the broker and the copy engine untouched; a live signal places exactly one MKT order (upper-cased side, sized qty) when the price and qty guards pass and none otherwise, and replies with the trade's event, or 500 carrying the trade's error when it raised (no error when reading the payload raised) |
| `SignalApi.MissingSymbolRejectedFirst` | api/app.old.py:97-101 | without a symbol the answer is "invalid symbol or side", whatever the risk type and amount |
| `SignalApi.DispatchedSignalTrades` | api/app.old.py:119-137 | a validated live signal at a positive price trades amount / price units as BUY or SELL |
| `MasterTrade.MetaOrEmpty` | core/master_trade.py:11-12 | missing meta gives None for source, strategy and signal_id |
| `MasterTrade.Sizing` | core/master_trade.py:16-26 | a missing or non-positive price is an error; otherwise qty = amount / price, passed through adjust when given; success exactly when that qty is positive, else a non-positive-qty error carrying it; without adjust qty × price = amount |
| `MasterTrade.MasterTradeResult` | core/master_trade.py:10-52 | an event exactly when the price and qty guards pass and the order is accepted; the event records symbol, upper-cased side, the sized qty, the fetched price, amount, meta, order id |
| `MasterTrade.PlaceMasterTrade` | core/master_trade.py:10-52 | no order before the guards pass, then exactly one MKT order with the computed qty; the returned event is enqueued exactly once |
| `MasterTrade.PositiveAmountTrades` | core/master_trade.py:20-26 | a positive amount at a positive price, without adjust, trades amount / price units |
| `CopyEngines.CopyEngine.constructor` | api/copy_engine.py:5-6 | a new engine has no followers |
| `CopyEngines.CopyEngine.AddFollower` | api/copy_engine.py:8-9 | appends at the end, keeps earlier followers and duplicates |
| `CopyEngines.CopyEngine.Distribute` | api/copy_engine.py:11-16 | reports the follower count and the unchanged order; the followers are not modified |

## Left out

- HTTP, Flask request/response objects, `requests` calls, file reads and writes, and page rendering are not modelled. Their results are parameters: `HttpOutcome`, `ModeFile`, `writeOk`, the JSON body.
- Text.Upper, Text.Lower: only ASCII letters change case. Python's Unicode mappings (for example long s to S, or ß to SS) are not modelled.
- JsonValues.PyFloat: string parsing is an abstract `parse` parameter. NaN and infinities are not modelled, so a NaN amount passing `usd_amount <= 0` is not captured.
- MasterTrade.Sizing: `usd_amount / price` is exact real division, not IEEE floating point. An `adjust_quantity` that raises is not modelled.
- AppBozuk.ModeText: `str()` of numbers, lists and dicts is a fixed stand-in text. It shares the one property used: none of them upper-cases to LOCAL or VPS.
- AdminMode.SetAdminMode: a failed write leaves the file as it was. A partial write that truncates the file is not modelled.
- AdminApp.SaveMode: a failed write leaves the file as it was. `open(..., "w")` truncates before `json.dump`, so a failure there leaves an empty file; that is not modelled.
- JsonValues.Get: returns the first entry with a key, while `json.loads` keeps the last of repeated keys; documents with repeated keys are not modelled faithfully.
- AdminMode.ModeStore: admin_mode.py:10 names the file beside the module and admin_app.py:10 names /opt/esentrader-boru-api/admin_mode.json. The model treats them as one file, as when the service is installed at that path.
- IbkrClient.RequestJson: `get_base_url` and `_request_json` read the mode file separately. The model gives both reads the same file, so a write racing between them is not captured.
- Exception texts (`str(e)`) are values: `ClientError`, and `Raised(message)` for foreign calls.
- SignalApi.ApiSignal: a 500 reply carries the trade's `TradeError` rather than its `str(e)` text. When reading the payload raises (bad JSON, a non-string side/mode/risk_type, `float()` failing), the reply is `Failed(None)`: Python's exception text there is not modelled.
- `get_ib_target` is not defined in any file shown. Its answer is a parameter.
- Concurrency between requests, `datetime.utcnow`, `uuid4` and the broker's order id: opaque inputs.
- `safe_get_json` and the status display of the old admin panel: HTTP and rendering only.
- `admin_home`, `admin_ping`, `admin_analytics` and `admin_ibkr` in admin_app.py: page rendering and a liveness string.
- `health`, `api_get_mode` and `admin_page` in app_bozuk_2025-11-21.py: a fixed health record, a direct return of `get_ib_target`, and a page.
- `index` in app.py: an HTML page.
- The other routes of api/app.old.py (`health`, `ibkr_status`, `ibkr_account`, `ibkr_positions`, `api_test`): pass-throughs to the broker object or echoes.
- `core/copy_engine.py`'s `enqueue` only prints. The model records the enqueued event in `TradeEffects.queue`.
- ibkr_adapter.py, api/ibkr_adapter.py, web/app.py and api/app.py are library glue, a TCP port probe or trivial echo routes. They are not part of this model.
