# usdrate orchestration, modelled in Dafny

This project models the orchestration core of the `usdrate` service of
KyberNetwork's `tokenrate` repository. That core is two pieces of control flow
that decide which ETH/USD rate providers are asked, which records the price
store reads and writes, and which error comes back.

- **The rate resolver** (`usdrate/server/server.go`):
  - `currentPrice` is a first-success fallback over the ordered provider list.
  - `receiveETHUSDPrice` validates the requested date, answers today from the providers alone, and answers a past day from the store.
  - On a store miss for a past day, it falls back to the providers and writes the answer back. A refused write is swallowed.
  - Store reads always use the provider name `"coingecko"`. Write-backs use the answering provider's own name.
- **The backfill crawler** (`usdrate/cmd/usdrate-crawler/main.go`):
  - `validateTime` defaults, clamps and order-checks the range.
  - `crawlTokenPriceWithTimeRange` walks every provider day by day over the range. It saves each answer and stops a provider at its first failure.
  - The daily job body queries the providers in list order for the day just passed, saves each answer, and stops at the first failed query.
  - `run` runs the range crawl, then arms the daily job when no to-time was given and the range crawl succeeded.

Modelling choices:

- A day is an integer day number (UTC, truncated to the start of the day).
  Today and the job's "now" are parameters. Parsing a date string is an oracle
  `parse: string -> Option<Day>`; checking an `HH:MM:SS` clock string is an
  oracle `isClock: string -> bool`.
- A price is a `real` that nothing computes on.
- A provider is a record: a name and `rate: Day -> Result<Price>`.
- The store (`Storage.Store`) is a class:
  - `records` is a map keyed by (token, currency, provider, day).
  - `fault` is an oracle that says which store calls fail, and with which error.
  - `log` is a ghost field holding every call made on the store, in order.
- Provider calls are reported as a ghost sequence of `Query(providerIndex, day)`.

Each stateful Go function is a method. Its contract ties the result, the
provider queries, the new log and the new records to a pure specification
function of the inputs:

- `Current` and `Receive` for the resolver.
- `Walk`, `Crawl` and `Daily` for the crawler.

The store's records afterwards are `Apply(old records, calls, fault)`. The
properties the code promises are lemmas about those functions.

Modules:
- `Domain` (`domain.dfy`): shared vocabulary.
- `Storage` (`storage.dfy`): the `Storage` interface and its record semantics.
- `Resolver` (`server.dfy`): the HTTP resolver.
- `Crawler` (`crawler.dfy`): the backfill command.

## Model

| member | source | states |
|---|---|---|
| `Storage.Lookup` | usdrate/storage/interface.go:16 | A read succeeds only with the stored price of that key. Without an injected failure, it succeeds exactly when the key is stored, and otherwise fails with the `NotFound` sentinel. |
| `Storage.ApplyKeepsKeys` | usdrate/storage/interface.go:15-16 | No sequence of store calls removes a record: every key present before is present after. |
| `Storage.ApplyHasWritten` | usdrate/storage/interface.go:15 | Every write that the store accepted leaves a record under its key. |
| `Storage.ApplyReadsOnly` | usdrate/storage/interface.go:16 | Calls that are all reads leave the records unchanged. |
| `Storage.Store.GetTokenPrice` | usdrate/storage/interface.go:16 | Logs one read and answers `Lookup` of the current records; the records do not change. |
| `Storage.Store.SaveTokenPrice` | usdrate/storage/interface.go:15 | Logs one write. It returns the injected failure, if any, in which case the records are unchanged. Otherwise it upserts the key with the given price. |
| `Resolver.Current` | usdrate/server/server.go:43-53 | `currentPrice` succeeds only with some provider's answer, namely that of the last provider it asked. It fails exactly when every provider fails, and then always with the one "after all try" error. It never asks more providers than there are. |
| `Resolver.FirstAnswer` | usdrate/server/server.go:45-51 | The attempt names a provider whose rate succeeded with that price, and every earlier provider failed. It is `Exhausted` exactly when every provider fails. |
| `Resolver.FirstAnswerAt` | usdrate/server/server.go:45-49 | A provider that succeeds after only failing ones is the first answer. |
| `Resolver.CurrentIsFirstSuccess` | usdrate/server/server.go:45-49 | `currentPrice` returns `v` if and only if some provider answers `v` and every provider before it fails. |
| `Resolver.CurrentStopsAtFirstSuccess` | usdrate/server/server.go:45-49 | When provider `i` is the first to answer, that answer is returned. The providers queried are exactly `0..i`, in order, so none after it is asked. |
| `Resolver.CurrentFailsIffAllFail` | usdrate/server/server.go:45-52 | `currentPrice` fails exactly when every provider fails, always with the single "after all try" error. With an empty list it fails and asks nobody. |
| `Resolver.CheckDate` | usdrate/server/server.go:56-68 | An empty date is today. A date that does not parse is refused with its parse error. A day after today is refused as a future date. Otherwise the request is for today exactly when the day equals today, and for the past exactly when it is earlier. |
| `Resolver.Historical` | usdrate/server/server.go:72-87 | A past day first reads the store under the fixed "coingecko" key, and makes at most one more store call. Providers are asked, in order from the first, only on `NotFound` with a non-empty list; otherwise the read's own answer is returned. When providers are asked, the answer is the last asked provider's result: the first success, or, when all fail, the last provider's error after every provider was asked. Every provider asked before it failed. There is a second store call exactly when a provider succeeded: a write of that answer under that provider's own name. |
| `Resolver.Receive` | usdrate/server/server.go:55-88 | A rejected date returns its error with no store call and no query. The store is touched exactly when the day is in the past. Queries go to providers `0, 1, …` in order, for the requested day. A success is either the store's answer with no query, or the answer of the last provider asked. |
| `Resolver.RejectedDateMakesNoCalls` | usdrate/server/server.go:57-66 | An unparsable or future date returns its error with no store call and no provider query. |
| `Resolver.TodayBypassesStore` | usdrate/server/server.go:68-70 | An empty date or today's date is answered by `currentPrice` alone, with its queries. The store is neither read nor written. |
| `Resolver.PastDayReadsStoreFirst` | usdrate/server/server.go:74-87 | A past day first reads the store under (ETH, USD, "coingecko", day). A hit is returned with no provider query and no other call. A read error other than `NotFound` is returned unchanged, with no provider query. |
| `Resolver.MissFillsFromFirstAnswer` | usdrate/server/server.go:75-83 | On `NotFound`, the first succeeding provider's value is returned. Exactly providers `0..i` are queried. After the read, the only store call is a write of that value under that provider's own name, and its outcome does not affect the answer. |
| `Resolver.MissWithoutAnswer` | usdrate/server/server.go:75-87 | On `NotFound` with every provider failing, all providers are queried and nothing is written. The result is the last provider's error, or the `NotFound` error itself when the list is empty. |
| `Resolver.OnlyAFilledMissWrites` | usdrate/server/server.go:55-88 | A resolution leaves the store's records unchanged unless it is a past-day `NotFound` miss that some provider answered and the write-back was accepted. |
| `Resolver.RepeatIsHitOnlyForCoingecko` | usdrate/server/server.go:74-80 | After a miss filled by provider `i` with an accepted write, asking again for the same day gives the same price. The second request queries no provider exactly when provider `i` is named "coingecko". |
| `Resolver.Server.CurrentPrice` | usdrate/server/server.go:43-53 | The loop's answer is `Current` (first success, or the "after all try" error), and it queries exactly the providers `Asked` names. |
| `Resolver.Server.ReceiveEthUsdPrice` | usdrate/server/server.go:55-88 | The result, the provider queries, the calls appended to the store's log, and the new records are those of `Receive` on the old records. |
| `Crawler.ValidateTime` | usdrate/cmd/usdrate-crawler/main.go:71-100 | A malformed from-time or to-time gives its parse error, with the from-time checked first. The from-day is the parsed day, or today when empty. The to-day is today when empty, and otherwise the parsed day clamped to today. An order error arises exactly when a given, clamped to-day lies before the from-day. When both times parse and the clamped to-day is not before the from-day, the range is accepted. |
| `Crawler.FromAfterTodayAcceptedWithoutTo` | usdrate/cmd/usdrate-crawler/main.go:85-98 | With no to-time there is no order check: a from-day after today is accepted, and its range is empty. |
| `Crawler.Walk` | usdrate/cmd/usdrate-crawler/main.go:190-207 | One provider's walk over the range makes at most `to - from + 1` queries and at most as many saves as queries. A walk without error makes exactly `to - from + 1` of each. Which days and which writes these are is stated by `Crawler.WalkQueries` and `Crawler.WalkSaves`. |
| `Crawler.WalkQueries` | usdrate/cmd/usdrate-crawler/main.go:190-192 | A provider's walk queries the days `from, from+1, …` in ascending order, at most `to - from + 1` of them. It saves at most one day fewer than it queries. |
| `Crawler.WalkSaves` | usdrate/cmd/usdrate-crawler/main.go:190-202 | The walk's store calls are, in day order, writes of the provider's answer for each of its first days, keyed (ETH, USD, provider name, day). |
| `Crawler.WalkSucceedsIff` | usdrate/cmd/usdrate-crawler/main.go:190-207 | A walk ends without error exactly when every day's query and save succeed. It then makes exactly `to - from + 1` queries and as many saves, none when `from > to`. |
| `Crawler.WalkStops` | usdrate/cmd/usdrate-crawler/main.go:192-202 | A failed walk stops at the first failing day; every earlier day went through and no later day is queried or saved. Its error is that day's query error, or the refused save's error after the save was attempted. |
| `Crawler.Crawl` | usdrate/cmd/usdrate-crawler/main.go:184-209 | The crawl over providers `j..` makes at most `(number of providers from j on) * (to - from + 1)` queries in all, and at most as many saves as queries. A crawl without error makes exactly that many queries and saves in all. Which provider and day each belongs to is stated by `Crawler.CrawlQueriesAreOwnWalk` and `Crawler.CrawlSavesAreOwnWalk`. |
| `Crawler.CrawlSucceedsIff` | usdrate/cmd/usdrate-crawler/main.go:184-213 | The range crawl succeeds exactly when every provider goes through every day. Otherwise its error is that of the first failing provider in list order. |
| `Crawler.CrawlQueriesAreOwnWalk` | usdrate/cmd/usdrate-crawler/main.go:184-209 | Provider `i` is queried for a day in the range crawl exactly when its own walk queries it, whatever the other providers do. |
| `Crawler.CrawlSavesAreOwnWalk` | usdrate/cmd/usdrate-crawler/main.go:184-209 | With distinct provider names, the range crawl makes a write under provider `i`'s name exactly when `i`'s own walk makes it. |
| `Crawler.HealthyProviderIsWalkedFully` | usdrate/cmd/usdrate-crawler/main.go:184-209 | A provider whose every day goes through is queried and saved for every day of the range, exactly `to - from + 1` times each, even when other providers fail. |
| `Crawler.CrawlKeepsEarlierSaves` | usdrate/cmd/usdrate-crawler/main.go:192-212 | When a provider's walk fails, the range call fails. Every day that provider saved before the failure has a record in the store afterwards. |
| `Crawler.Daily` | usdrate/cmd/usdrate-crawler/main.go:222-237 | The daily job from provider `j` makes at most as many queries in all as there are providers from `j` on, and at most as many saves as queries. When no query fails, it makes exactly that many queries and saves in all. Which provider each query goes to and what each save writes is stated by `Crawler.DailyShape`. |
| `Crawler.DailyShape` | usdrate/cmd/usdrate-crawler/main.go:222-237 | The daily job queries providers in list order for one day and writes each answer. It goes through the whole list exactly when every query succeeds, whatever the store does with the writes. Otherwise it stops right after the first failed query, with that query's error and nothing written for it. |
| `Crawler.RunOutcomeOf` | usdrate/cmd/usdrate-crawler/main.go:154-169 | An invalid range returns the wrapped "invalid time" error. With a to-time, `run` finishes after the range crawl exactly when the crawl succeeds. A failed crawl returns its error wrapped as "failed to get token price". Without a to-time, the daily job is armed exactly when the crawl succeeds and the job time is a clock time. A successful crawl with a malformed job time panics with that job time's error, and only that case panics. |
| `Crawler.CrawlProvider` | usdrate/cmd/usdrate-crawler/main.go:189-208 | The day loop's error, queries, appended store calls and new records are those of `Walk`. |
| `Crawler.CrawlTokenPriceWithTimeRange` | usdrate/cmd/usdrate-crawler/main.go:177-214 | The call fails exactly when `Crawl` reports an error, and then returns it wrapped as "failed to get token price". Its queries, appended store calls and new records are those of `Crawl`. |
| `Crawler.DailyJob` | usdrate/cmd/usdrate-crawler/main.go:220-238 | For the day before `now`, the job's queries, appended store calls and new records are those of `Daily`. |
| `Crawler.Run` | usdrate/cmd/usdrate-crawler/main.go:154-169 | The outcome is `RunOutcomeOf`. An invalid range makes no call. Otherwise the calls and the new records are exactly those of the range crawl. |

## Left out

- Provider HTTP clients (the gemini, coinlib and coingecko packages and the usdrate client) are not part of this model. A provider is only a name and a total function from day to price or error.
- The HTTP facade (the gin handler and router), the CLI flags, provider selection (`NewPriceProvider`, `AllProvider`), logging and the `main` functions are plumbing and are not modelled.
- The Postgres store is not part of this model. Only the `Storage` contract is modelled, plus a distinguishable `NotFound` error.
- Injected store failures are a fixed oracle per call: the same call fails the same way every time within one model run.
- The clock and Go's date parser are parameters: `today`, `now`, `parse` and `isClock`.
- Dates are whole day numbers, so the daily job's `now − 24h` timestamp becomes the previous day number. The time of day it carries into the store key is not modelled.
- The empty date in `receiveETHUSDPrice` is formatted from the clock and parsed again. It is modelled directly as today.
- Resolver.Server.ReceiveEthUsdPrice: the price value returned alongside an error (0, or the last provider's value on an all-fail miss) is not modelled; only the error is.
- Resolver.RepeatIsHitOnlyForCoingecko: a provider is a fixed function of the day, so the repeated request's answer equals the first one. In the source, a repeat that misses the store calls the provider over the network again, and that call may answer differently or fail.
- Resolver.Server.CurrentPrice: the zero price returned with the "after all try" error is not modelled; only the error is.
- Crawler.CrawlTokenPriceWithTimeRange: the `errgroup` goroutines run as a sequential loop over providers, with walks independent as in the source. When several walks fail, the error returned is the first failing provider's in list order; the source returns whichever failure happens first in time.
- The 200 ms sleep between days only affects timing and is not modelled.
- Crawler.Run: the scheduler library, its own arming error and the wait for an interrupt signal are not modelled. Arming that succeeds ends in `DailyArmed`, and the job body is the separate method `DailyJob`.
