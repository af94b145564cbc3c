# bob-circulating-supply, modelled in Dafny

This project models the service that publishes the circulating supply of the
BOB token, together with two data-relay endpoints that share its health
reporting:

- **Total supply** (`Supply`, `Web3`). A periodic task reads `totalSupply()` of
  the BOB contract through every configured RPC endpoint. Each read goes through
  a capped retry loop. `decimals()` is memoised per token. The sum becomes the
  served value only when every endpoint answered. Otherwise the previous value
  stays and an error is recorded.
- **Vault data** (`VaultModels`, `VaultWeb`, `VaultMisc`, `VaultRouter`). Each
  configured chain has a vault. A token-gated upload stores a snapshot of pairs
  keyed by ticker id, plus exactly one integer field, `timestamp`. Queries
  answer pairs, tickers, an orderbook and historical trades from that snapshot.
  A missing or invalid snapshot gives the empty model. A snapshot that
  validates but holds an integer under a pair key makes the handlers raise,
  which the framework answers with status 500.
- **Statistics** (`StatsModels`, `StatsWeb`, `StatsRouter`). A token-gated
  upload stores a two-period statistics document. A read serves it back with
  its top-level timestamp replaced by the time of the read.
- **Health** (`Health`). Every worker keeps a status, the last success and
  error times and the timestamp of its data. A registry publishes all workers
  under their names. The vaults publish as one group keyed by chain.
- **Scheduling and helpers** (`Misc`, `Settings`, `Wrappers`, `Upload`). The
  fixed-rate scheduler, the auth-token check, worker naming, the configuration
  and the upload answers.

How the outside world enters the model:

- Clocks are `now`, `curtime` and `readTime` parameters.
- Each RPC call's successive attempts are a sequence of outcomes: `Some(v)` for
  a returned value, `None` for an exception.
- Each snapshot file is a field `stored` of its worker. `None` means the file
  does not exist.
- Configuration is a `Settings` value.

Prices, volumes and supplies, and the trade, pair and orderbook timestamps,
are `Decimal` in the source and exact `real`s here. `format_timestamp` is kept
abstract as `UtcDatetime(seconds)`.

Facts about the code that the model keeps:

- The supply task sums whatever each endpoint returns. `supply/web.py` does
  not compare the endpoints' `decimals()`.
- Statistics `load()` overwrites the stored document's top-level `timestamp`
  with the read time.
- A vault upload is validated in two steps. `check_timestamp` first looks at
  the raw values, where `true` and `false` count as `int`. The union
  `Union[PairDataModel, int]` then coerces any other scalar that `int()`
  accepts. So `{"timestamp": 1, "x": 2.5}` is accepted and stored as
  `{"timestamp": 1, "x": 2}`, and success is recorded. That stored snapshot
  then fails `check_timestamp` on every later load.

## Model

| member | source | states |
|---|---|---|
| Misc.NameOf | utils/misc.py:23-29 | a worker's name is its own `_name` when it has one, its class name otherwise |
| Misc.CheckAuthToken | utils/misc.py:38-39 | a token is accepted exactly when it equals the configured upload token |
| Misc.NextTimeIsNextGridPoint | utils/misc.py:52 | the rescheduling step moves the next time to a point of the `delay` grid strictly after the job finished, and to the earliest such point |
| Misc.NextTickStep | utils/misc.py:52 | from a point of the grid, the rescheduled time is the first grid tick strictly after the job finished |
| Misc.Every | utils/misc.py:43-66 | the scheduler runs the first task at once and every later task at the first grid tick after the previous one finished, skipping missed ticks |
| Web3.RetryFromIsFirstSuccess | utils/web3.py:17-27 | from attempt `i` on, the retried call fails exactly when every remaining attempt raises, and otherwise returns the first attempt that succeeds |
| Web3.RetryIsFirstSuccess | utils/web3.py:17-27 | `make_web3_call` raises exactly when all `web3_retry_attemtps` attempts raise, and otherwise returns the first success |
| Web3.MakeWeb3Call | utils/web3.py:17-27 | the retry loop returns the first success, makes at most the configured number of attempts, and sleeps the configured delay once after every failed attempt |
| Web3.NormalizeScales | utils/web3.py:46-48 | the normalised supply times `10**decimals` is the raw supply |
| Web3.ERC20Token.constructor | utils/web3.py:34-35 | a new token has no memoised `decimals()` |
| Web3.ERC20Token.Decimals | utils/web3.py:37-42 | `decimals()` answers the memoised value when there is one; otherwise it performs the retried call and memoises its outcome |
| Web3.ERC20Token.TotalSupply | utils/web3.py:44-52 | the supply is the retried raw read, divided by `10**decimals()` when normalising; a failure of either read is a failure |
| Supply.FirstFailure | supply/web.py:38-44 | the index of the first endpoint whose read failed; every endpoint before it succeeded |
| Supply.CycleReadsAt | supply/web.py:38-39 | the `i`-th read of a cycle goes to the `i`-th token through the `i`-th endpoint, with that token's memoised `decimals()` |
| Supply.TotalSupply.Value | supply/web.py:19-24 | the served value is the last committed total, 0 before the first |
| Supply.TotalSupply.constructor | supply/web.py:26-33 | the worker starts unhealthy with no data, registers itself, and holds one fresh token per RPC endpoint |
| Supply.TotalSupply.CollectTotal | supply/web.py:36-44 | the loop sums the reads from 0 in endpoint order and stops at the first failure; it succeeds exactly when no read failed, and only the endpoints it asked may have memoised `decimals()` |
| Supply.TotalSupply.GetThroughTokens | supply/web.py:35-50 | endpoints are read in order up to the first failure; the total is committed and success recorded only when all reads succeeded; otherwise an error is recorded and the old value stays |
| Health.Health.Initialize | utils/health.py:38-52 | health starts as `error` with zero times; a loadable snapshot turns it to `success` with the snapshot's timestamp, without touching the success time |
| Health.Health.RecordSuccess | utils/health.py:54-58 | success sets the status and data timestamp, and the success time only when asked to; the error time is kept |
| Health.Health.RecordError | utils/health.py:60-62 | an error sets the status and error time and keeps the rest |
| Health.Health.ForPublishing | utils/health.py:64-73 | the published record copies the health fields and adds both formatted times and the seconds elapsed since each |
| Health.ModulesKeys | utils/health.py:86-93 | the published modules are keyed by exactly the registered workers' names |
| Health.ModulesLastWins | utils/health.py:86-93 | under a repeated name, the last registered worker's record is the one published |
| Health.HealthRegistry.constructor | utils/health.py:79-80 | the registry starts empty |
| Health.HealthRegistry.Append | utils/health.py:82-84 | registering a worker appends it |
| Health.HealthRegistry.Publish | utils/health.py:86-93 | the publication carries the current time and one record per registered name |
| VaultModels.OnlySide | bobvault/web.py:130-142 | a trades answer built from `{type: list}` has that list on the requested side and nothing on the other |
| VaultModels.PairIds | bobvault/models.py:71-74 | the pairs of a snapshot are all its keys but `timestamp` |
| VaultModels.Coerce | bobvault/models.py:49 | `Union[PairDataModel, int]` yields a pair exactly for a value that validates as a pair, and an `int` otherwise |
| VaultModels.PairsList | bobvault/models.py:71-74 | `pairs()` lists every key but `timestamp` exactly once |
| VaultModels.DictRoundTrip | bobvault/models.py:47-69 | a written snapshot parses back as itself exactly when no key but `timestamp` holds an integer; otherwise it fails validation |
| VaultModels.ParsedTimestamp | bobvault/models.py:49-61 | the parsed `timestamp` is the uploaded integer, or 1 and 0 for `true` and `false` |
| VaultModels.CoercedValueBreaksReload | bobvault/models.py:49-59 | an accepted document with a non-integer scalar under a pair key is stored as an integer that fails validation when the snapshot is read back |
| VaultModels.CheckTimestamp | bobvault/models.py:51-62 | the root validator accepts exactly the documents where `timestamp` holds an `int`, booleans included, and no other key does |
| VaultModels.ParseRoot | bobvault/models.py:47-65 | parsing accepts exactly the documents that pass the timestamp rule and whose values all validate as a pair or an `int`, and coerces each value |
| VaultModels.ExtraIntRejected | bobvault/models.py:55-59 | an integer or boolean under a key other than `timestamp` rejects the document |
| VaultModels.TimestampRequired | bobvault/models.py:60-61 | a document whose `timestamp` is missing, or is neither an integer nor a boolean, is rejected |
| VaultWeb.TailSliceKeepsLast | bobvault/web.py:131-132 | `tmp[-limit:]` with a positive limit keeps the last `limit` trades in order, or all of them |
| VaultWeb.TailSliceNegativeLimit | bobvault/web.py:131-132 | `tmp[-limit:]` with a negative limit drops the first `-limit` trades |
| VaultWeb.WindowAppend | bobvault/web.py:136-138 | selecting the trades inside the window keeps their stored order across concatenation |
| VaultWeb.WindowMembers | bobvault/web.py:136-138 | a trade is selected exactly when it is stored and its timestamp lies within both bounds |
| VaultWeb.FirstMatchesMeaning | bobvault/web.py:133-141 | the windowed answer is a prefix of the in-window trades, of length `limit` when enough match and a positive limit is given, and all of them otherwise |
| VaultWeb.ScanWindow | bobvault/web.py:133-141 | the counting loop with its early `break` returns the first `limit` in-window trades, all of them for a limit of zero or less |
| VaultWeb.TradesEmptyCases | bobvault/web.py:115-127 | a load failure, an unknown ticker, or a missing or empty side gives the empty trades model |
| VaultWeb.NonPairKeyRaises | bobvault/web.py:92-127 | the orderbook and trades handlers raise exactly when the requested key is listed but holds an integer |
| VaultWeb.TradesSelected | bobvault/web.py:128-142 | only the requested side is answered: the whole list for the defaults, the tail slice for a limit over the full range, the windowed scan otherwise |
| VaultWeb.LoadFrom | bobvault/web.py:31-42 | loading fails with an I/O error without a file and with a validation error for an invalid document, and otherwise returns the parsed document with the file's keys |
| VaultWeb.BobVault.constructor | bobvault/web.py:20-25 | the vault keeps its file, is named `BobVault/<chain>`, and seeds its health from the file: success with the snapshot's timestamp when it loads, error otherwise, both times zero |
| VaultWeb.BobVault.Load | bobvault/web.py:31-42 | reading and parsing the file gives the load outcome |
| VaultWeb.ListPairs | bobvault/web.py:65-72 | the loop emits one entry per pair, no duplicate ids, each with that pair's base, target and pool, and covers every pair of the snapshot |
| VaultWeb.ListTickers | bobvault/web.py:83-89 | the loop emits one ticker per pair, no duplicate ids, each with that pair's ticker fields, and covers every pair of the snapshot |
| VaultWeb.BobVault.Store | bobvault/web.py:44-55 | the coerced data is written; it loads back as itself only when no key but `timestamp` holds an integer; success is recorded with its timestamp at the current time and the error time is kept |
| VaultWeb.BobVault.Pairs | bobvault/web.py:57-73 | one entry per pair, no duplicate ids, each with its pair's base, target and pool; empty when loading fails; status 500 when a listed key holds an integer |
| VaultWeb.BobVault.Tickers | bobvault/web.py:75-90 | one ticker per pair, no duplicate ids, each with its pair's ticker fields; empty when loading fails; status 500 when a listed key holds an integer |
| VaultWeb.BobVault.Orderbook | bobvault/web.py:92-107 | a known ticker's bids, asks and pair timestamp; the default orderbook on load failure or an unknown ticker; status 500 when the key holds an integer |
| VaultWeb.BobVault.HistoricalTrades | bobvault/web.py:109-142 | the trades answer follows the selection rules for the loaded snapshot |
| VaultWeb.OpenVaults | bobvault/web.py:148-150 | the loop makes one fresh vault per configured chain, keyed by chain, each keeping its chain's file and seeded from it under the name `BobVault/<chain>` |
| VaultWeb.BobVaults.constructor | bobvault/web.py:147-152 | one fresh vault per configured chain, named `BobVault/<chain>`, keeping that chain's file and seeding its health status and data timestamp from it, registered as one group named `BobVaults` |
| VaultWeb.BobVaults.HealthdataForPublishing | bobvault/web.py:154-161 | the group publishes one record per chain, each that vault's own health record |
| VaultWeb.BobVaults.Store | bobvault/web.py:163-165 | a store reaches the named chain's vault: its snapshot loads as the data when the data reloads, success is recorded at the current time, and the error time is kept |
| VaultWeb.BobVaults.Pairs | bobvault/web.py:167-168 | pairs are answered by the named chain's vault |
| VaultWeb.BobVaults.Tickers | bobvault/web.py:170-171 | tickers are answered by the named chain's vault |
| VaultWeb.BobVaults.Orderbook | bobvault/web.py:173-174 | the orderbook is answered by the named chain's vault |
| VaultWeb.BobVaults.HistoricalTrades | bobvault/web.py:176-182 | trades are answered by the named chain's vault |
| VaultMisc.VerifyChain | bobvault/misc.py:5-6 | a chain is accepted exactly when it is configured |
| VaultRouter.AcceptedChainHasVault | bobvault/misc.py:5-6 | every accepted chain has a vault, and every vault's chain is accepted |
| VaultRouter.UploadData | bobvault/router.py:16-27 | the token is checked first, then the chain; a rejected upload changes nothing; an accepted one stores the data in that chain's vault and records success, keeping the error time |
| VaultRouter.Pairs | bobvault/router.py:29-34 | an unknown chain gets the empty list, a known one its vault's answer |
| VaultRouter.Tickers | bobvault/router.py:36-41 | an unknown chain gets the empty list, a known one its vault's answer |
| VaultRouter.Orderbook | bobvault/router.py:43-48 | an unknown chain gets the default orderbook, a known one its vault's orderbook; `depth` is ignored |
| VaultRouter.HistoricalTrades | bobvault/router.py:50-60 | an unknown chain gets the empty trades model, a known one its vault's answer |
| VaultRouter.DefaultQueryIsWholeSide | bobvault/router.py:54-56 | the query defaults answer the whole stored side of the pair |
| StatsModels.ParsePeriod | bobstats/models.py:7-11 | a period parses exactly from an object with the period's fields, each of its declared type, and carries their values |
| StatsModels.ParseTwo | bobstats/models.py:13-15 | the document parses exactly from an object with an integer `timestamp` and two valid periods `current` and `previous`, and carries their values |
| StatsModels.RoundTrip | bobstats/web.py:27-29 | a dumped document parses back as itself |
| StatsModels.AsInt | bobstats/models.py:11 | an `int` field accepts exactly a JSON integer, and keeps its value |
| StatsModels.AsDecimal | bobstats/models.py:8-10 | a `Decimal` field accepts exactly decimal text or an integer, and keeps its value |
| StatsModels.WrongTypeRejected | bobstats/models.py:7-15 | a field of the wrong type, at either level, rejects the document |
| StatsModels.ExtraFieldRejected | bobstats/models.py:7-15 | an extra field at either level rejects the document |
| StatsModels.MissingFieldRejected | bobstats/models.py:7-15 | a missing field at either level rejects the document |
| StatsWeb.LoadFrom | bobstats/web.py:31-42 | loading fails with an I/O error without a file and with a validation error for an invalid document, and otherwise returns the parsed document |
| StatsWeb.BobStats.constructor | bobstats/web.py:20-25 | the worker is named `BobStats`, seeds its health from its file and registers itself |
| StatsWeb.BobStats.Store | bobstats/web.py:44-49 | after a store the snapshot loads as the uploaded data and success is recorded with its timestamp at the current time |
| StatsWeb.BobStats.Load | bobstats/web.py:51-75 | a read answers the stored periods stamped with the read time, or the empty periods stamped with the read time |
| StatsRouter.UploadData | bobstats/router.py:18-25 | an upload is stored exactly when the token is accepted, recording success at the current time and keeping the error time; a rejected upload changes nothing |
| StatsRouter.Provide | bobstats/router.py:14-16 | the read endpoint serves the stored document stamped with the read time, or the empty response |

## Left out

- Logging, `execute_request_with_time_measurement`, the FastAPI application and `main.py` are left out. They only log or wire the pieces together.
- HTTP request validation before a handler runs is left out, including the 422 answer for a bad body or a `type` outside `buy`/`sell`. Handlers take already-validated values. For a vault upload this is the coerced model that `VaultModels.Parse` describes.
- The bearer-token extraction is left out. Handlers receive the token string.
- `response_model_exclude_unset` and `response_model_exclude_none` serialisation is left out. The model returns the response objects, not their JSON.
- The JSON text and `CustomJSONEncoder` are left out. Snapshots are the parsed documents. A vault pair's inner validation is abstracted as one `RawMalformed` value. Which scalars `int()` accepts is abstracted too: `RawCoercible` carries the integer it yields.
- Misc.Every: covers a finite run of the endless loop, given each task's duration. The sleep itself and the thread pool of `async_every` are not modelled, and `delay` must be positive.
- Misc.Every: treats `time()` as an integer clock. Python's float seconds are not modelled.
- Supply.TotalSupply.CollectTotal: the sum is exact. Python's `Decimal` addition rounds to the 28 significant digits of the default context.
- Web3.ERC20Token.TotalSupply: normalisation is exact division. Python's float `retval / 10 ** d` rounding before `Decimal(...)` is not modelled.
- Web3.MakeWeb3Call: a call that exhausts its attempts is a failure. In Python, the final `raise e` raises `UnboundLocalError` instead of the last exception, because `e` is cleared when the `except` block ends.
- `functools.cache` singletons are left out. The registry, the vaults and the statistics worker are objects passed explicitly.
- Concurrency between the periodic task and the request handlers is left out.
- `format_timestamp` is kept abstract as `UtcDatetime(seconds)`. Calendar formatting is not modelled.
- StatsModels.ParsePeriod: accepts decimals written as text or as integers, and integers only as JSON integers. Pydantic's wider coercions, such as numeric strings for `holders`, are not modelled.
- StatsModels.ParseTwo: like `ParsePeriod`, takes its `timestamp` only as a JSON integer.
- VaultWeb.ListPairs: the order of the list follows Python's set iteration, so any order is allowed. The contract states contents and uniqueness.
- VaultWeb.ListTickers: any order is allowed, as for pairs.
- Settings loading from the environment, secrets and comma-separated values (`utils/settings.py`) is left out. Configuration is a `Settings` value.
