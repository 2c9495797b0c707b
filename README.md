# Dashboard de líderes — a verified model of its data layer

This project models the client-side core of a leaders' dashboard that reads monthly sales,
documentation, app-adoption and payment figures from a Google Apps Script web service. There
are two pages:

- `app.js`, the tabbed dashboard:
  - a two-tier cache: an in-memory `Map` in front of `localStorage`, with a 30-minute TTL and
    promotion from the durable tier to memory;
  - cache keys and request URLs that carry the period only for period-sensitive endpoints;
  - stale-while-revalidate loading of one dashboard;
  - the "Resumo" tab, which fans out to three endpoints with a progress bar and then refreshes
    them in the background;
  - the periodic silent refresh, hover prefetch, tab clicks, the refresh button and the
    debounced period selectors;
  - the pure helpers for percentages, sector grouping, sector sorting, CSS classes and
    month names.
- `script.js`, the standalone page:
  - `carregarDados`, which classifies the web service's response envelope;
  - `exportarParaExcel`, which writes the CSV export.

Models:

- Modules: `Wrappers`, `Api`, `Text`, `Percent`, `Keys`, `TwoTierCache`, `Sectors`,
  `Orchestrator` with `OrchestratorFacts`, `Csv` and `ScriptDashboard`.
- Classes for the state the source updates in place:
  - `TwoTierCache.Store` holds both storage tiers.
  - `Orchestrator.Dashboard` holds the page globals `currentDashboard`, `currentMonth` and
    `currentYear`, what is on screen, and a log of what the page showed.
  - `ScriptDashboard.ScriptPage` holds `dadosAtuais`, `apiURL` and the page's log.
- How the methods are proved: each method is proved equal to a specification function of the
  old state (`State() == LoadResumoSpec(old(State()), …)`). Lemmas prove what the source
  promises about those functions.
- Where the asynchrony goes: the fan-out loops are modelled with the three callbacks' fetches
  arriving in any order, given as a permutation `order` of the three endpoint slots. The
  synchronous prefix of each callback runs in endpoint order.
- Inputs rather than effects:
  - the network is a function from request URL to `Arrival`, which is a response plus the
    clock reading when it arrives;
  - storage failures are an explicit `Faults` value naming the keys whose `localStorage`
    read, write or removal throws;
  - the clock is a parameter.

Facts worth knowing about the source that the model makes visible:

- **Cache invalidation.** The periodic tick and the refresh button invalidate the key of the
  current tab. On the Resumo tab that key is `resumo:m:y`, which only a hover prefetch writes, and only
  if the service accepts `endpoint=resumo`. The three endpoint entries survive, whether or
  not the removal throws (`OrchestratorFacts.ResumoInvalidationMissesItsData`,
  `OrchestratorFacts.TickOnResumo`).
- **The two pages judge responses differently** (`ScriptDashboard.ClassifiersCompared`):
  - `app.js` ignores the HTTP status and accepts only `status: "success"`;
  - `script.js` rejects any non-2xx status and accepts everything except `status: "error"`;
  - `script.js` always sends `&mes=…&ano=…`, while `app.js` omits it for `recorrencia` and
    `recorrencia_vendedor`.
- **The page classes use the corrected summary refresh.** `Orchestrator.Dashboard` is proved
  against `RefreshResumoSpec`, which compares the three payloads endpoint by endpoint. The
  comparison the source writes is `RefreshResumoAsWritten`; see "## Findings".

## Model

| member | source | states |
|---|---|---|
| Api.StringOr | app.js:184 | `x \|\| fallback` on an optional message: the message when present and non-empty, else the fallback |
| Text.IntToStringRoundTrip | app.js:26 | a number written into a key or URL (`${m}`) reads back as the same number, and the text after it is left intact |
| Text.IntToStringInjective | app.js:26 | different numbers are written as different texts |
| Text.Upper | script.js:607 | `toUpperCase` keeps the length, leaves no lower-case letter, changes only lower-case letters, and returns a text without them unchanged |
| Text.UpperIdempotent | script.js:607 | upper-casing twice is the same as upper-casing once |
| Percent.RoundedPercent | app.js:661 | `Math.round(n/d*100)` is the integer r with 2dr ≤ 200n + d < 2dr + 2d (half rounds up), for either sign of d |
| Percent.CalcPercent | app.js:661 | `calcPercent`/`calcularPercentual`: 0 for a missing or zero total, else the rounded percentage characterised by its bounds, for a positive and for a negative total |
| Percent.PercentInRange | script.js:573-576 | a part between 0 and a positive total gives a percentage between 0 and 100 |
| Percent.PercentEndpoints | app.js:661 | the whole is exactly 100 percent, nothing is exactly 0 percent |
| Percent.PercentMonotone | app.js:661 | a larger part of the same total never gives a smaller percentage |
| Percent.PercentClass | app.js:664 | `getPercentClass`: high exactly at 90 and above, medium exactly from 80 up to 90, low exactly below 80 |
| Percent.HighlightFor | script.js:560-563 | the table's colour for a parsed value: success at 90 and above, warning from 80 up to 90, danger below 80 or when unparseable |
| Percent.CellHighlight | script.js:559 | a cell is highlighted exactly when its text contains `%` |
| Percent.PercentCellHighlight | script.js:559-563 | a cell written as a percentage followed by `%` is highlighted by that percentage |
| Percent.HighlightMatchesPercentClass | app.js:664 | the table highlighting and `getPercentClass` use the same two thresholds, class by class |
| Keys.CacheKey | app.js:26 | `cacheKey`: the bare endpoint for period-insensitive endpoints, else the endpoint followed by `:` |
| Keys.BuildUrl | app.js:97 | `buildUrl` adds no period to a period-insensitive endpoint |
| Keys.PeriodTextInjective | app.js:26 | `m:y` (and `m&ano=y`) determine the month and the year |
| Keys.KeyDistinguishesPeriods | app.js:26 | for a period-sensitive endpoint, two keys are equal iff the periods are equal |
| Keys.KeyIgnoresPeriod | app.js:17 | for `recorrencia` and `recorrencia_vendedor` every period shares one key |
| Keys.KeyDistinguishesEndpoints | app.js:26 | endpoints without `:` never share a key |
| Keys.ResumoKeysDistinct | app.js:218 | the three Resumo endpoints have pairwise distinct keys, none of which is the key of the Resumo tab itself |
| Keys.UrlCarriesPeriod | app.js:97 | the URL ends with `&mes=m&ano=y` exactly when the endpoint is period-sensitive |
| Keys.SensitiveUrl | app.js:97 | the URL of a period-sensitive endpoint is the endpoint query followed by the period |
| Keys.KeyCollapsesSameRequests | app.js:97 | two periods share a cache key iff they produce the same request URL, so the cache never conflates different requests |
| TwoTierCache.LsKeyInjective | app.js:24 | prefixing with `cdt_dash_` keeps keys apart |
| TwoTierCache.GetCached | app.js:28-45 | a payload `getCached` returns is afterwards held, fresh, in memory; a read adds no durable entry and no memory entry other than its own key |
| TwoTierCache.SetCache | app.js:47-51 | `setCache` adds `{data, ts: now}` for the key to memory, and to `localStorage` exactly when the write does not throw |
| TwoTierCache.InvalidateCache | app.js:53-56 | `invalidateCache` removes the key from memory, and its durable entry is left exactly when the removal throws |
| TwoTierCache.GetReturnsLookup | app.js:28-45 | `getCached` returns the fresh entry of memory, else of `localStorage`; when the durable read throws, only the memory tier's |
| TwoTierCache.GetPromotes | app.js:36-39 | a fresh durable entry missing from memory is returned and copied into memory with its original timestamp |
| TwoTierCache.GetDropsExpired | app.js:37-41 | an expired durable entry is reported absent and removed, unless the removal throws |
| TwoTierCache.GetPreservesLookup | app.js:28-45 | a read never changes what any key looks up to at any time |
| TwoTierCache.GetAgainHits | app.js:28-45 | after a hit, the next read of the same key hits with the same data |
| TwoTierCache.GetAgainMisses | app.js:28-45 | after a miss whose durable read succeeded, the next read misses too |
| TwoTierCache.GetTwice | app.js:28-45 | reading the same key twice in a row returns the same value and state as reading it once |
| TwoTierCache.GetElsewhere | app.js:28-45 | reading one key does not change what a read of another key returns |
| TwoTierCache.SetThenGet | app.js:47-51 | right after `setCache(k,d)` a read of `k` returns `d`, whether or not the durable write threw |
| TwoTierCache.SetWritesMemory | app.js:47-51 | `setCache` always writes memory, and writes `localStorage` exactly when the write does not throw |
| TwoTierCache.SetElsewhere | app.js:47-51 | `setCache(k,…)` leaves every other key's lookup unchanged |
| TwoTierCache.InvalidateThenGet | app.js:53-56 | after a successful invalidation every read of the key misses |
| TwoTierCache.InvalidateFailureResurfaces | app.js:53-56 | when the durable removal throws, the fresh durable entry comes back on the next read |
| TwoTierCache.InvalidateElsewhere | app.js:53-56 | invalidation leaves every other key's lookup unchanged |
| TwoTierCache.LookupStaysExpired | app.js:23 | an entry that has expired stays expired later |
| TwoTierCache.Store.constructor | app.js:22 | the memory tier starts empty; the durable tier is whatever the browser held |
| TwoTierCache.Store.Get | app.js:28-45 | the imperative read returns the value and leaves the state `getCached` defines |
| TwoTierCache.Store.Set | app.js:47-51 | the imperative write leaves the state `setCache` defines |
| TwoTierCache.Store.Invalidate | app.js:53-56 | the imperative removal leaves the state `invalidateCache` defines |
| Sectors.GroupBySector | app.js:662 | the loop builds a map whose keys are the sectors present (`setor \|\| 'OUTROS'`) and whose buckets hold exactly that sector's consultants in input order |
| Sectors.BucketOfAbsent | app.js:662 | a sector not present has an empty bucket |
| Sectors.BucketMembers | app.js:662 | a consultant is in a bucket iff it is in the list with that sector |
| Sectors.ExactlyOneBucket | app.js:662 | each consultant is in its own sector's bucket and in no other; a missing or empty sector means `OUTROS` |
| Sectors.BucketOfConcat | app.js:662 | grouping keeps input order: the bucket of a concatenation is the concatenation of the buckets |
| Sectors.BucketSizes | app.js:662 | a consultant is either in a given bucket or in the rest, so nothing is lost or duplicated |
| Sectors.IndexOf | app.js:663 | `indexOf`: the first position of the name, or -1 exactly when it is absent |
| Sectors.LexLeqTotal | app.js:663 | the fallback string order is total |
| Sectors.LexLeqTransitive | app.js:663 | the fallback string order is transitive |
| Sectors.LexLeqAntisymmetric | app.js:663 | the fallback string order is antisymmetric |
| Sectors.SectorLeqTotalOrder | app.js:663 | the `sortSectors` comparator is a total order |
| Sectors.SortedMeansRanked | app.js:663 | in sorted output, ranked sectors come first in rank order and unranked ones follow alphabetically |
| Sectors.SortSectors | app.js:663 | the in-place sort leaves the array sorted by the comparator and a permutation of its old contents |
| Sectors.InsertStep | app.js:663 | one insertion step extends the sorted prefix by one and permutes the array |
| Sectors.SwapStep | app.js:663 | swapping with a larger left neighbour keeps the insertion invariant |
| Sectors.InsertDone | app.js:663 | when the element stops moving, the prefix is sorted |
| Sectors.ClassAndIconAgree | app.js:665-666 | `getSectorClass` and `getSectorIcon` give two sector names the same class, and the same icon, exactly when the names fall in the same `SectorGroup` |
| Sectors.SectorClass | app.js:665 | `getSectorClass` returns one of the seven classes, `sector-outros` for a missing or empty sector and `sector-vendas` exactly for `VENDAS` in any case |
| Sectors.SectorIcon | app.js:666 | `getSectorIcon` returns one of the seven icons, `fas fa-users` for a missing or empty sector and the cart exactly for `VENDAS` in any case |
| Sectors.SectorCaseInsensitive | app.js:665-666 | both switches ignore letter case; a missing or empty sector gets the default class and icon |
| Sectors.MonthName | app.js:736 | `getMonthName` is defined exactly for 1..12 |
| Sectors.MonthNamesDistinct | app.js:736 | different months have different names |
| Orchestrator.RenderEvent | app.js:200-212 | `renderDashboard` shows an error exactly for an unknown dashboard |
| Orchestrator.AppFetch | app.js:181-185 | a response is accepted exactly when it is JSON with `status === 'success'`, whatever the HTTP status; it throws exactly on a transport failure or an unparseable body |
| Orchestrator.Dashboard.constructor | app.js:58-60 | the page starts on the Resumo tab with the given month and year and an empty memory cache |
| Orchestrator.Dashboard.FetchAndUpdate | app.js:188-198 | the background revalidation leaves the state defined by `FetchAndUpdateSpec` |
| Orchestrator.Dashboard.LoadSingle | app.js:165-185 | loading a single tab leaves the state defined by `LoadSingleSpec` |
| Orchestrator.Dashboard.CheckAllCached | app.js:223 | the `every` loop yields whether all three endpoints are cached, with the cache state the three reads leave |
| Orchestrator.Dashboard.CollectCached | app.js:226 | the `forEach` loop reads the three cached payloads into `results` in endpoint order |
| Orchestrator.Dashboard.FanOutCached | app.js:238-248 | the synchronous part of the three callbacks (cache hits and progress updates) gives the fan-out state `Phase1` defines |
| Orchestrator.Dashboard.ArriveOne | app.js:249-254 | one fetch arriving gives the fan-out state `Arrive` defines |
| Orchestrator.ArriveFields | app.js:249-254 | an arrival counts its endpoint once, removes it from the pending set and reports the new percentage; the cache and the results change only when the fetch delivered, and then by exactly that payload |
| Orchestrator.Dashboard.FanOutFetch | app.js:238-255 | the fetches arriving in `order` give the fan-out state `Phase2` defines |
| Orchestrator.Dashboard.RefreshFetches | app.js:266-271 | the background fetches arriving in `order` give the state `RefreshAll` defines |
| Orchestrator.Dashboard.RefreshOne | app.js:268-270 | one background fetch arriving gives the state `RefreshStep` defines: a delivered payload is cached and recorded, a thrown fetch rejects the join |
| Orchestrator.Dashboard.RefreshResumoBackground | app.js:264-278 | the background refresh leaves the state defined by the corrected `RefreshResumoSpec`, which compares endpoint by endpoint |
| Orchestrator.RefreshResumoAsWritten | app.js:264-278 | the refresh as the source writes it changes only the cache and the log, and the log either stays or gains one summary render followed by `Dados atualizados ✓` |
| Orchestrator.Dashboard.LoadResumo | app.js:217-262 | loading the Resumo tab leaves the state defined by `LoadResumoSpec`, whose all-cached branch ends in the corrected refresh |
| Orchestrator.Dashboard.LoadDashboard | app.js:162-163 | `loadDashboard` dispatches to the Resumo or the single-tab loader |
| Orchestrator.Dashboard.SilentRefresh | app.js:74-95 | the silent refresh leaves the state defined by `SilentRefreshSpec` |
| Orchestrator.Dashboard.Prefetch | app.js:148-151 | a prefetch changes only the cache, as `PrefetchSpec` defines |
| Orchestrator.Dashboard.HoverTab | app.js:138-141 | hovering a tab leaves the state `HoverSpec` defines |
| Orchestrator.Dashboard.ClickTab | app.js:128-137 | clicking a tab leaves the state `ClickTabSpec` defines |
| Orchestrator.Dashboard.Tick | app.js:68-72 | the 30-minute tick leaves the state `TickSpec` defines |
| Orchestrator.Dashboard.RefreshButton | app.js:144 | the refresh button invalidates the current key and reloads, as `RefreshButtonSpec` defines |
| Orchestrator.Dashboard.SelectMonth | app.js:142 | a month change sets the month and arms the debounce timer |
| Orchestrator.Dashboard.SelectYear | app.js:143 | a year change sets the year and arms the debounce timer |
| Orchestrator.Dashboard.DebounceElapsed | app.js:153 | the debounce timer firing runs `loadDashboard` once and disarms the timer |
| OrchestratorFacts.FetchedData | app.js:181-183 | the payload a fetch stores is present exactly when the response is accepted |
| OrchestratorFacts.ReadKeepsReads | app.js:28-45 | a read through the fault model never changes what a later read of any key returns |
| OrchestratorFacts.EveryCachedKeepsReads | app.js:223 | the `every` scan never changes what a later read of any key returns |
| OrchestratorFacts.EveryCachedAllHit | app.js:223 | the `every` check passes exactly when each of the three reads finds a truthy payload |
| OrchestratorFacts.CollectCachedFields | app.js:226 | the `forEach` records under each endpoint the payload its read returns |
| OrchestratorFacts.FieldAppend | app.js:251 | `results[ep]=…` on an object that lacks `ep` adds it and keeps the other fields |
| OrchestratorFacts.ArrivalOrderCovers | app.js:238 | every endpoint's fetch arrives in some position of the arrival order |
| OrchestratorFacts.SlotsHaveDistinctEndpoints | app.js:218 | the three slots name three different endpoints |
| OrchestratorFacts.LoadSingleHit | app.js:165-175 | on a hit, the cached data is rendered at once with no loader; the revalidation adds at most one render and the toast `Dados atualizados ✓`; an error appears only for an unknown dashboard |
| OrchestratorFacts.LoadSingleMiss | app.js:178-185 | on a miss, the loader is shown and then exactly one outcome: the render of the fetched data (cached for the TTL; an error for an unknown dashboard), `d.error \|\| 'Erro ao carregar dados'`, or `Erro de conexão: ` and the message |
| OrchestratorFacts.RevalidationFailureIsSilent | app.js:190-197 | a refused or failed revalidation changes nothing |
| OrchestratorFacts.RevalidationOfSameDataIsSilent | app.js:192 | revalidation that fetches the data already cached shows nothing and changes no lookup |
| OrchestratorFacts.RevalidationOfNewData | app.js:192-195 | revalidation that fetches different data caches it, renders it and shows the toast |
| OrchestratorFacts.ClimbsAppend | app.js:244-254 | a progress update between the last value and the cap keeps the progress bar monotone |
| OrchestratorFacts.ProgressPctFacts | app.js:244 | `Math.round(loaded/3*100)` is non-negative, monotone in `loaded`, and 100 at 3 |
| OrchestratorFacts.Phase1Counts | app.js:238-248 | after the synchronous pass, hits plus pending fetches number three, and the bar shows the hit count unless the last endpoint is still pending |
| OrchestratorFacts.Phase1Climbs | app.js:238-248 | the synchronous pass only appends to the log, and the progress bar never goes down |
| OrchestratorFacts.ScanFacts | app.js:239-248 | each callback's synchronous part appends one progress event, counting a hit or registering a pending fetch |
| OrchestratorFacts.Phase2Counts | app.js:249-254 | fetches arriving in any order settle exactly the pending endpoints that arrive, keep the bar monotone and end at the loaded count |
| OrchestratorFacts.MissFanCompletes | app.js:236-255 | with every fetch arriving, the fan-out starts at `Iniciando...` 0%, loads all three, and its bar climbs to exactly 100% |
| OrchestratorFacts.ResumoFanOutCompletes | app.js:234-261 | a Resumo load that misses the cache ends at 100% and then either renders or shows the Vendas error |
| OrchestratorFacts.Phase1KeepsVendas | app.js:238-248 | the later callbacks' synchronous parts leave `results.documentacao` and its pending status alone |
| OrchestratorFacts.Phase2Field | app.js:249-251 | after the fetches, each endpoint's result is its cached value, else its fetched data if its fetch was pending, else absent |
| OrchestratorFacts.ResumoNeedsVendas | app.js:258-261 | the Resumo tab shows `Não foi possível carregar dados de Vendas.` exactly when Vendas is neither cached nor fetched; otherwise it renders with it |
| OrchestratorFacts.AllCachedView | app.js:223-227 | when the `every` loop finds all three endpoints cached, the gathered `results` hold the three cached payloads under their own keys, and the summary renders exactly those |
| OrchestratorFacts.AllCachedResumo | app.js:223-231 | when all three are cached, the cached payloads are rendered at once with no loader and no error; the corrected refresh then renders again with the toast exactly when nothing throws, Vendas is delivered truthy and the data differ |
| OrchestratorFacts.RefreshAllField | app.js:266-271 | each background result is the endpoint's fetched data, independent of arrival order |
| OrchestratorFacts.RefreshAllRejects | app.js:266-271 | the background join rejects exactly when some endpoint's fetch throws |
| OrchestratorFacts.RefreshResumoOutcome | app.js:264-278 | with the corrected comparison, the background refresh renders and toasts exactly when nothing throws, Vendas was fetched and some endpoint's data changed; otherwise it shows nothing |
| OrchestratorFacts.RefreshIgnoresArrivalOrder | app.js:272 | with the corrected comparison, what the refresh shows does not depend on arrival order |
| OrchestratorFacts.SlotKeysDistinct | app.js:218 | the three endpoints are cached under three different keys |
| OrchestratorFacts.RefreshAllLookup | app.js:268-270 | each arriving background fetch that delivers is read back for the TTL after its arrival; a key whose fetch delivered nothing keeps its lookup |
| OrchestratorFacts.RefreshAllKeepsTiers | app.js:268-270 | background fetches that deliver nothing leave the cache exactly as it was |
| OrchestratorFacts.RefreshResumoCaches | app.js:264-271 | the background refresh, with either comparison, caches each delivered payload for the TTL, keeps the entries of endpoints that delivered nothing, and leaves the cache untouched when nothing is delivered |
| OrchestratorFacts.SilentRefreshResumo | app.js:77-86 | the silent refresh of the summary shows no loader and no error, renders the new payloads exactly when no fetch throws and Vendas is delivered truthy, and changes only the cache and the log |
| OrchestratorFacts.SilentRefreshResumoCaches | app.js:80-84 | the silent refresh of the summary caches each delivered payload for the TTL and keeps the other entries |
| OrchestratorFacts.AppArrivesFirst | app.js:266-271 | with `app` arriving first, `newResults` holds the same data as endpoint-ordered results, but in a different field order |
| OrchestratorFacts.StringifyFlagsReorderedArrivals | app.js:272 | the `JSON.stringify` comparison as written re-renders and toasts unchanged data; the corrected one shows nothing |
| OrchestratorFacts.AppFirstFields | app.js:268-271 | results in which `app` arrived first still yield each endpoint's payload under its own key |
| OrchestratorFacts.EndpointOrderFields | app.js:226-227 | results gathered in endpoint order yield each endpoint's payload under its own key |
| OrchestratorFacts.ReorderedAsWrittenToasts | app.js:272-275 | with `app` arriving first and the same data as before, the comparison as written re-renders the summary and toasts |
| OrchestratorFacts.ReorderedSpecStaysSilent | app.js:272 | with `app` arriving first and the same data as before, the endpoint-by-endpoint comparison leaves the log unchanged |
| OrchestratorFacts.PrefetchOnlyTouchesCache | app.js:148-151 | a prefetch changes nothing but the cache |
| OrchestratorFacts.PrefetchFills | app.js:148-151 | a prefetch on a hit leaves every lookup unchanged; on a miss with an accepted response it caches the payload for the TTL |
| OrchestratorFacts.HoverIsPrefetch | app.js:138-141 | hovering gives exactly a prefetch, because `prefetchDashboard` repeats the hover's cache check |
| OrchestratorFacts.ClickTab | app.js:128-137 | clicking the current tab changes nothing; another tab switches and loads it |
| OrchestratorFacts.TickRefetches | app.js:68-72 | on a single tab, the tick drops the entry and refetches silently, re-rendering only accepted data |
| OrchestratorFacts.ResumoInvalidationMissesItsData | app.js:69-70 | on the Resumo tab the invalidation the tick and the refresh button perform hits `resumo:m:y` and, whatever removal throws, leaves the three endpoints' lookups in place |
| OrchestratorFacts.TickOnResumo | app.js:68-86 | the tick on the Resumo tab shows no loader and no error, renders the new payloads exactly when no fetch throws and Vendas is delivered truthy, caches each delivered payload, and keeps the entry of an endpoint that delivered nothing |
| OrchestratorFacts.SelectAllSnoc | app.js:142-143 | a burst of selector changes is applied one change at a time |
| OrchestratorFacts.SelectAllState | app.js:142-143 | after a burst, the month and the year are the last ones chosen and the timer is armed |
| OrchestratorFacts.DebounceLastCallWins | app.js:127 | the debounced load after a burst of changes runs once, for the last month and year chosen |
| Csv.Escape | script.js:627 | doubling quotes never shortens the text |
| Csv.ReadEscaped | script.js:627 | escaped text followed by a closing quote reads back as the original text |
| Csv.EncodeCell | script.js:627 | a cell is written between double quotes and is at least two characters longer than its text |
| Csv.CellRoundTrip | script.js:627 | a quoted cell reads back as its original text, whatever follows it |
| Csv.ReadJoined | script.js:629 | cells joined by `,` and ended by a line feed read back as exactly those cells |
| Csv.EncodeRow | script.js:629 | a row always ends with a line feed |
| Csv.RowRoundTrip | script.js:625-629 | an encoded table row reads back as its cells, for every row including the empty one |
| Csv.EncodeRowsFront | script.js:621-630 | the rows written in sequence split into the first row and the rest |
| Csv.TableRoundTrip | script.js:621-630 | the detail section reads back as exactly the table's rows, in order |
| Csv.DocumentEndsWithTable | script.js:607-630 | the export ends with the detail section, so the table can be read back from its tail |
| ScriptDashboard.Classify | script.js:128-141 | a response is accepted exactly when the HTTP status is 2xx, the body is JSON and its status is not `error`; a non-2xx status fails with `Erro HTTP: ` and the status; an `error` envelope fails with its message or `Erro desconhecido na API` |
| ScriptDashboard.ScriptPage.constructor | script.js:7-10 | no data is loaded and the base URL is `API_BASE_URL` |
| ScriptDashboard.ScriptPage.CarregarDados | script.js:112-157 | loading leaves the state `LoadSpec` defines: on success the data is kept and shown; on failure `Erro: ` and the message is shown and the old data stays |
| ScriptDashboard.ScriptPage.ExportarParaExcel | script.js:595-638 | nothing is exported without loaded data; otherwise the file `dashboard_tipo_mes_ano.csv` holds exactly the title, the KPI lines and the encoded table |
| ScriptDashboard.WriteKpis | script.js:610-616 | the KPI loop writes one `title,value` line per card, in order |
| ScriptDashboard.WriteRows | script.js:621-630 | the table loop writes every row encoded, in order |
| ScriptDashboard.WriteRow | script.js:625-629 | the cell loop writes every cell quoted, joined by `,` and ended by a line feed |
| ScriptDashboard.FailedLoadKeepsData | script.js:152-156 | a failed load keeps `dadosAtuais` and shows the loader and then `Erro: ` and the message |
| ScriptDashboard.HttpErrorNamesStatus | script.js:130-132 | the HTTP error message starts with `Erro HTTP: ` and the status code can be read back from the rest |
| ScriptDashboard.RequestUrlAgreesWithBuildUrl | script.js:121-124 | `script.js` always appends the period; with the same base URL it agrees with `buildUrl` exactly for period-sensitive endpoints |
| ScriptDashboard.RequestUrlShape | script.js:121-124 | the request URL is the endpoint query followed by `&mes=…&ano=…` |
| ScriptDashboard.RequestUrl | script.js:121-124 | the request URL starts with the base URL, `?endpoint=`, the dashboard and `&mes=` |
| ScriptDashboard.RequestUrlDistinguishesPeriods | script.js:121-124 | different periods give different request URLs |
| ScriptDashboard.ExportTitleNamesMonth | script.js:606-607 | the export's title names the month for 1..12 and reads `undefined` otherwise |
| ScriptDashboard.ClassifiersCompared | script.js:128-141 | `script.js` accepts what `app.js` accepts when the HTTP status is 2xx, rejects a success envelope sent with a non-2xx status, and accepts an envelope with any other status that `app.js` refuses |

## Left out

- Rendering is not modelled: the DOM, Chart.js and the HTML of the cards and tables are left out. A render is recorded as an event carrying the data it renders. `renderResumoDashboard`, `buildRankingCompleto`, the `render*Dashboard` functions, `atualizarInterface` and its KPI, chart and table builders are outside the modelled core.
- The model computes percentages on integers, not floating point. `Math.round((n/d)*100)` is modelled by its exact rational value rounded half up, so binary rounding at exact halves is ignored. The payloads' counts are integers.
- Percent.HighlightFor: `parseFloat(cell)` is modelled as parsing a leading integer. Fractional percentages, leading whitespace and exponents are not modelled: `" 95%"` and `"1e2%"` get danger in the model but success in the source.
- Sectors.LexLeq: `localeCompare` is modelled as code-unit order, because locale collation is not available.
- Text.Upper: only Latin letters and the Latin-1 accented letters are upper-cased. Full Unicode case mapping is not available.
- Sectors.GroupBySector: the source's plain object `{}` is modelled as a map. The model ignores inherited property names such as `constructor`, which the source would treat as already present.
- Interleavings of concurrent operations are not modelled. A hover prefetch, a tab click or a tick arriving while another load is in flight is left out; each operation runs to completion. Within one operation, the three callbacks' fetches may arrive in any order.
- Orchestrator.Faults: a `localStorage` access that throws for a key throws every time during that operation. Corrupt JSON in `localStorage` is treated like a failing read, and so is a quota error on write.
- Orchestrator.Dashboard.DebounceElapsed: the 300 ms timer is an explicit event. Real time is not modelled; only the rule that the last scheduled call wins is.
- Orchestrator.Dashboard.Tick: the 30-minute `setInterval` is an explicit event.
- The model treats every JSON body as an object. A body that is JSON but not an object is not modelled.
- Api.Envelope: the `data` field is always present, and a missing one is modelled as `null`. Both are falsy, so every `if (data)` test agrees. `JSON.stringify` does not: it gives `undefined` for a missing field and `"null"` for `null`.
- Orchestrator.Dashboard.FetchAndUpdate: `FetchAndUpdateSpec` treats a missing `data` as `null`. So a success envelope without `data` counts as unchanged when the cache misses or holds `null`. The source's `JSON.stringify` test at app.js:192 counts it as changed: it caches it, re-renders and toasts.
- `renderDashboard` and `atualizarInterface` are assumed not to throw on well-formed data.
- The status-only helpers are recorded only where they meet the modelled state. `updateLastUpdateTime`, `hideLoading`, `esconderLoading`, `togglePeriodSelector`, `initializeYearSelect` and `setCurrentPeriod` touch only the DOM and the clock.
- `testarConexaoAPI`, `testarAPI` and `exportPage` are not part of this model: they are diagnostics or print pages with no state in the core.
- `inicializarDashboard`, `atualizarDataAtual` and `preencherAnos` are not modelled: they fill select boxes from the clock.
- ScriptDashboard.ScriptPage.ExportarParaExcel: the selectors, the KPI texts (already trimmed) and the table cells' texts are inputs. The month and year selects are modelled as integers, and the Blob, the object URL and the click that starts the download are not modelled.
- Orchestrator.Dashboard.RefreshResumoBackground: proved against the corrected `RefreshResumoSpec`, which compares the three payloads endpoint by endpoint. The source compares `JSON.stringify` texts, which `Orchestrator.RefreshResumoAsWritten` models. With unchanged data arriving out of endpoint order, the source re-renders and toasts where the class stays silent (see "## Findings").
- Orchestrator.Dashboard.LoadResumo: its all-cached branch ends in the same corrected refresh, so the difference above carries over.
- Orchestrator.Dashboard.LoadDashboard: on the Resumo tab it runs `LoadResumo`, so it inherits the corrected refresh.
- Orchestrator.Dashboard.ClickTab: on the Resumo tab it runs `LoadResumo`, so it inherits the corrected refresh.
- Orchestrator.Dashboard.RefreshButton: on the Resumo tab it runs `LoadResumo`, so it inherits the corrected refresh.
- Orchestrator.Dashboard.DebounceElapsed: on the Resumo tab it runs `LoadResumo`, so it inherits the corrected refresh.
- Csv.KpiLines: the KPI lines are written unquoted, as the source writes them. A KPI text containing `,` or a line feed therefore does not read back as one CSV field; only the detail table gets a round-trip lemma.

## Findings

| source | as written | input that shows it | evidently intended | confidence | as-written member | corrected member |
|---|---|---|---|---|---|---|
| app.js:264-278 | `refreshResumoBackground` decides whether data changed by comparing `JSON.stringify(newResults)` with `JSON.stringify(oldResults)`. `newResults` gains its fields in the order the fetches arrive; `oldResults` was filled in endpoint order. `Orchestrator.RefreshResumoAsWritten` models this comparison. | All three endpoints return exactly the cached data, and the `app` response arrives before the `documentacao` one. The two strings then differ only in field order, so the page re-renders and shows `Dados atualizados ✓` although nothing changed. | Compare the three endpoints' payloads endpoint by endpoint, independent of arrival order. `Orchestrator.RefreshResumoSpec` does this, and `Orchestrator.Dashboard.RefreshResumoBackground` is proved against it. | not executed | OrchestratorFacts.StringifyFlagsReorderedArrivals | OrchestratorFacts.RefreshIgnoresArrivalOrder |
